/**
 The per-IP rate limiter whose table forgets idle clients.

 A request first fetches its client's token bucket under the mutex and later, outside the mutex,
 takes a token from it; a sweep may come in between.  `gap` bounds the time between the two
 halves of a request.

 Arithmetic is exact, and time is counted in refill intervals: one unit is 1/rate seconds, in which
 one token comes back.  An idle limit of L seconds is rate * L units (lemma UnitsOfRate).
 */
module Limiter {
  type Ip = nat
  type RequestId = nat
  type LimiterId = nat

  datatype Config = Config(burst: nat, limit: real, gap: real)

  predicate Sane(c: Config) {
    c.burst >= 1 && c.gap >= 0.0 && c.limit >= 0.0
  }

  // ---------- one token bucket ----------

  /** A bucket is full until its first token is taken. */
  datatype Bucket = Full | Level(tokens: real, last: real)

  function Min(x: real, y: real): real { if x <= y then x else y }

  function TokensAt(c: Config, b: Bucket, t: real): real {
    match b
    case Full => c.burst as real
    case Level(tokens, last) => Min(c.burst as real, tokens + (t - last))
  }

  /** Allow: take one token if there is one. */
  function Take(c: Config, b: Bucket, t: real): (Bucket, bool) {
    var left := TokensAt(c, b, t) - 1.0;
    if left >= 0.0 then (Level(left, t), true) else (b, false)
  }

  predicate BucketOk(c: Config, b: Bucket, t: real) {
    b.Level? ==> 0.0 <= b.tokens <= c.burst as real && b.last <= t
  }

  /** The bucket in seconds, at `rate` tokens per second, is this bucket in refill intervals. */
  lemma UnitsOfRate(c: Config, rate: real, tokens: real, last: real, t: real)
    requires rate > 0.0
    ensures TokensAt(c, Level(tokens, rate * last), rate * t) == Min(c.burst as real, tokens + rate * (t - last))
  {
    assert rate * (t - last) == rate * t - rate * last;
  }

  // ---------- the table, with and without eviction ----------

  datatype Event =
    | Get(req: RequestId, ip: Ip, time: real)
    | Allow(req: RequestId, time: real)
    | Sweep(time: real)

  datatype Client = Client(lim: LimiterId, lastSeen: real)

  datatype Held = Held(ip: Ip, lim: LimiterId, since: real)

  datatype Decision = NoDecision | Decided(ip: Ip, accepted: bool)

  /** The table as the code keeps it; limiters that left the table live on while requests hold them. */
  datatype State = State(clients: map<Ip, Client>, limiters: map<LimiterId, Bucket>, nextId: LimiterId,
                         held: map<RequestId, Held>, now: real)

  const START: State := State(map[], map[], 0, map[], 0.0)

  function GetStep(s: State, req: RequestId, ip: Ip, t: real): State {
    if ip in s.clients then
      var lim := s.clients[ip].lim;
      s.(clients := s.clients[ip := Client(lim, t)], held := s.held[req := Held(ip, lim, t)], now := t)
    else
      s.(clients := s.clients[ip := Client(s.nextId, t)], limiters := s.limiters[s.nextId := Full],
         nextId := s.nextId + 1, held := s.held[req := Held(ip, s.nextId, t)], now := t)
  }

  function Kept(c: Config, clients: map<Ip, Client>, t: real): map<Ip, Client> {
    map ip | ip in clients && t - clients[ip].lastSeen <= c.limit :: clients[ip]
  }

  function AllowStep(c: Config, s: State, req: RequestId, t: real): (State, Decision) {
    if req in s.held && s.held[req].lim in s.limiters then
      var h := s.held[req];
      var (b, ok) := Take(c, s.limiters[h.lim], t);
      (s.(limiters := s.limiters[h.lim := b], held := s.held - {req}, now := t), Decided(h.ip, ok))
    else (s.(now := t), NoDecision)
  }

  function Step(c: Config, evict: bool, s: State, e: Event): (State, Decision) {
    match e
    case Get(req, ip, t) => (GetStep(s, req, ip, t), NoDecision)
    case Allow(req, t) => AllowStep(c, s, req, t)
    case Sweep(t) => (if evict then s.(clients := Kept(c, s.clients, t), now := t) else s.(now := t), NoDecision)
  }

  function After(c: Config, evict: bool, events: seq<Event>): State {
    if events == [] then START else Step(c, evict, After(c, evict, events[..|events| - 1]), events[|events| - 1]).0
  }

  function Decisions(c: Config, evict: bool, events: seq<Event>): seq<Decision> {
    if events == [] then []
    else
      var before := events[..|events| - 1];
      Decisions(c, evict, before) + [Step(c, evict, After(c, evict, before), events[|events| - 1]).1]
  }

  /** Times do not fall, a request id is used by one request at a time, and every held limiter is
      used within `gap` of its fetch. */
  predicate Timely(c: Config, s: State, e: Event) {
    && s.now <= e.time
    && (forall req :: req in s.held ==> e.time <= s.held[req].since + c.gap)
    && (e.Get? ==> e.req !in s.held)
    && (e.Allow? ==> e.req in s.held)
  }

  predicate WellTimed(c: Config, events: seq<Event>) {
    events != [] ==>
      var before := events[..|events| - 1];
      WellTimed(c, before) && Timely(c, After(c, false, before), events[|events| - 1])
  }

  // ---------- the evicting table keeps up with the other ----------

  /** A client's bucket is its own, and was last used at most `gap` after the client was last seen. */
  ghost predicate ClientOk(c: Config, s: State, ip: Ip)
    requires ip in s.clients
  {
    var cl := s.clients[ip];
    && cl.lim in s.limiters && cl.lim < s.nextId && cl.lastSeen <= s.now
    && BucketOk(c, s.limiters[cl.lim], s.now)
    && (s.limiters[cl.lim].Level? ==> s.limiters[cl.lim].last <= cl.lastSeen + c.gap)
  }

  /** A request in flight holds the bucket its client has in the table. */
  ghost predicate HeldOk(s: State, req: RequestId)
    requires req in s.held
  {
    var h := s.held[req];
    h.ip in s.clients && s.clients[h.ip].lim == h.lim && h.since <= s.clients[h.ip].lastSeen
  }

  ghost predicate OwnBuckets(s: State) {
    forall ip, ip' :: ip in s.clients && ip' in s.clients && ip != ip' ==> s.clients[ip].lim != s.clients[ip'].lim
  }

  /** What one table keeps to itself. */
  ghost predicate TableInv(c: Config, s: State) {
    && (forall ip :: ip in s.clients ==> ClientOk(c, s, ip))
    && (forall req :: req in s.held ==> HeldOk(s, req))
    && OwnBuckets(s)
  }

  predicate InFlightMatches(e: State, f: State) {
    && e.now == f.now
    && e.held.Keys == f.held.Keys
    && (forall req :: req in e.held ==> e.held[req].ip == f.held[req].ip && e.held[req].since == f.held[req].since)
  }

  /** The tokens a client has at time t; an unknown client has a full bucket. */
  function ClientTokens(c: Config, s: State, ip: Ip, t: real): real {
    if ip in s.clients && s.clients[ip].lim in s.limiters then TokensAt(c, s.limiters[s.clients[ip].lim], t)
    else c.burst as real
  }

  /** The evicting table e and the full table f: the same requests are in flight, and every client
      has as many tokens in both, a forgotten one's bucket being full. */
  ghost predicate Matches(c: Config, e: State, f: State) {
    && InFlightMatches(e, f)
    && (forall ip :: ClientTokens(c, e, ip, e.now) == ClientTokens(c, f, ip, e.now))
  }

  // ---------- one table ----------

  lemma GetKeeps(c: Config, s: State, req: RequestId, ip: Ip, t: real)
    requires Sane(c) && TableInv(c, s) && s.now <= t && req !in s.held
    ensures TableInv(c, GetStep(s, req, ip, t))
  {
    var s' := GetStep(s, req, ip, t);
    forall x | x in s'.clients ensures ClientOk(c, s', x) {
      assert x in s.clients ==> ClientOk(c, s, x);
    }
    forall q | q in s'.held ensures HeldOk(s', q) {
      assert q in s.held ==> HeldOk(s, q);
    }
    if ip !in s.clients {
      forall x | x in s.clients ensures s.clients[x].lim != s.nextId {
        assert ClientOk(c, s, x);
      }
    }
  }

  lemma AllowKeeps(c: Config, s: State, req: RequestId, t: real)
    requires Sane(c) && TableInv(c, s) && s.now <= t && req in s.held && t <= s.held[req].since + c.gap
    ensures TableInv(c, AllowStep(c, s, req, t).0)
  {
    var s' := AllowStep(c, s, req, t).0;
    assert HeldOk(s, req);
    forall x | x in s'.clients ensures ClientOk(c, s', x) {
      assert ClientOk(c, s, x);
      assert x != s.held[req].ip ==> s.clients[x].lim != s.held[req].lim;
    }
    forall q | q in s'.held ensures HeldOk(s', q) {
      assert HeldOk(s, q);
    }
  }

  lemma SweepKeeps(c: Config, s: State, t: real, evict: bool)
    requires Sane(c) && TableInv(c, s) && Timely(c, s, Sweep(t)) && (evict ==> c.gap <= c.limit)
    ensures TableInv(c, Step(c, evict, s, Sweep(t)).0)
  {
    var s' := Step(c, evict, s, Sweep(t)).0;
    forall x | x in s'.clients ensures ClientOk(c, s', x) {
      assert ClientOk(c, s, x);
    }
    forall q | q in s'.held ensures HeldOk(s', q) {
      assert HeldOk(s, q);
    }
  }

  lemma StepKeeps(c: Config, evict: bool, s: State, e: Event)
    requires Sane(c) && TableInv(c, s) && Timely(c, s, e) && (evict ==> c.gap <= c.limit)
    ensures TableInv(c, Step(c, evict, s, e).0)
  {
    match e {
      case Get(req, ip, t) => GetKeeps(c, s, req, ip, t);
      case Allow(req, t) => AllowKeeps(c, s, req, t);
      case Sweep(t) => SweepKeeps(c, s, t, evict);
    }
  }

  // ---------- both tables ----------

  /** Clients with equal tokens now have equal tokens later, whatever happens elsewhere. */
  lemma TokensStayEqual(c: Config, e: State, f: State, ip: Ip, t: real)
    requires Sane(c) && TableInv(c, e) && TableInv(c, f) && Matches(c, e, f) && e.now <= t
    ensures ClientTokens(c, e, ip, t) == ClientTokens(c, f, ip, t)
  {
    assert ip in e.clients ==> ClientOk(c, e, ip);
    assert ip in f.clients ==> ClientOk(c, f, ip);
    assert ClientTokens(c, e, ip, e.now) == ClientTokens(c, f, ip, e.now);
  }

  /** Fetching a bucket changes nobody's tokens. */
  lemma GetTokens(c: Config, s: State, req: RequestId, ip: Ip, t: real, x: Ip)
    requires TableInv(c, s)
    ensures ClientTokens(c, GetStep(s, req, ip, t), x, t) == ClientTokens(c, s, x, t)
  {
    assert x in s.clients ==> ClientOk(c, s, x);
  }

  /** Taking a token changes only the tokens of the request's client. */
  lemma AllowTokens(c: Config, s: State, req: RequestId, t: real, x: Ip)
    requires Sane(c) && TableInv(c, s) && req in s.held && s.now <= t
    ensures var ip := s.held[req].ip;
            var before := ClientTokens(c, s, ip, t);
            && AllowStep(c, s, req, t).1 == Decided(ip, before >= 1.0)
            && ClientTokens(c, AllowStep(c, s, req, t).0, x, t) ==
                 if x == ip && before >= 1.0 then before - 1.0 else ClientTokens(c, s, x, t)
  {
    assert HeldOk(s, req) && ClientOk(c, s, s.held[req].ip);
    if x in s.clients {
      assert ClientOk(c, s, x);
      assert x != s.held[req].ip ==> s.clients[x].lim != s.held[req].lim;
    }
  }

  /** Evicting idle clients changes nobody's tokens: an idle bucket has filled up. */
  lemma EvictTokens(c: Config, s: State, t: real, x: Ip)
    requires Sane(c) && TableInv(c, s) && s.now <= t && c.limit - c.gap >= c.burst as real
    ensures ClientTokens(c, Step(c, true, s, Sweep(t)).0, x, t) == ClientTokens(c, s, x, t)
  {
    assert x in s.clients ==> ClientOk(c, s, x);
  }

  /** An event timely for one table is timely for the other. */
  lemma TimelyBoth(c: Config, e: State, f: State, ev: Event)
    requires InFlightMatches(e, f) && Timely(c, f, ev)
    ensures Timely(c, e, ev)
  {
  }

  lemma TokensMatch(c: Config, e: State, f: State, ev: Event, x: Ip)
    requires Sane(c) && TableInv(c, e) && TableInv(c, f) && Matches(c, e, f)
    requires Timely(c, e, ev) && Timely(c, f, ev) && c.limit - c.gap >= c.burst as real
    ensures ClientTokens(c, Step(c, true, e, ev).0, x, ev.time) == ClientTokens(c, Step(c, false, f, ev).0, x, ev.time)
    ensures Step(c, true, e, ev).1 == Step(c, false, f, ev).1
  {
    TokensStayEqual(c, e, f, x, ev.time);
    match ev {
      case Get(req, ip, t) =>
        GetTokens(c, e, req, ip, t, x);
        GetTokens(c, f, req, ip, t, x);
      case Allow(req, t) =>
        TokensStayEqual(c, e, f, e.held[req].ip, t);
        AllowTokens(c, e, req, t, x);
        AllowTokens(c, f, req, t, x);
      case Sweep(t) => EvictTokens(c, e, t, x);
    }
  }

  lemma InFlightStep(c: Config, e: State, f: State, ev: Event)
    requires TableInv(c, e) && TableInv(c, f) && InFlightMatches(e, f) && Timely(c, e, ev)
    ensures InFlightMatches(Step(c, true, e, ev).0, Step(c, false, f, ev).0)
    ensures Step(c, true, e, ev).0.now == ev.time
  {
    if ev.Allow? {
      assert HeldOk(e, ev.req) && ClientOk(c, e, e.held[ev.req].ip);
      assert HeldOk(f, ev.req) && ClientOk(c, f, f.held[ev.req].ip);
    }
  }

  lemma StepMatches(c: Config, e: State, f: State, ev: Event)
    requires Sane(c) && TableInv(c, e) && TableInv(c, f) && Matches(c, e, f) && Timely(c, f, ev)
    requires c.limit - c.gap >= c.burst as real
    ensures Matches(c, Step(c, true, e, ev).0, Step(c, false, f, ev).0)
    ensures Step(c, true, e, ev).1 == Step(c, false, f, ev).1
  {
    TimelyBoth(c, e, f, ev);
    InFlightStep(c, e, f, ev);
    TokensMatch(c, e, f, ev, 0);
    forall x ensures ClientTokens(c, Step(c, true, e, ev).0, x, ev.time) == ClientTokens(c, Step(c, false, f, ev).0, x, ev.time) {
      TokensMatch(c, e, f, ev, x);
    }
  }

  lemma {:induction false} EvictionHidden(c: Config, events: seq<Event>)
    requires Sane(c) && WellTimed(c, events) && c.limit - c.gap >= c.burst as real
    ensures var e, f := After(c, true, events), After(c, false, events); TableInv(c, e) && TableInv(c, f) && Matches(c, e, f)
    ensures Decisions(c, true, events) == Decisions(c, false, events)
    decreases |events|
  {
    if events != [] {
      var before := events[..|events| - 1];
      var last := events[|events| - 1];
      EvictionHidden(c, before);
      TimelyBoth(c, After(c, true, before), After(c, false, before), last);
      StepMatches(c, After(c, true, before), After(c, false, before), last);
      StepKeeps(c, true, After(c, true, before), last);
      StepKeeps(c, false, After(c, false, before), last);
    }
  }

  // ---------- how many requests one client gets through ----------

  /** Accepted requests of one client among the events from position lo on. */
  function Admitted(c: Config, evict: bool, events: seq<Event>, lo: nat, ip: Ip): nat {
    if |events| <= lo then 0
    else
      var before := events[..|events| - 1];
      Admitted(c, evict, before, lo, ip) +
        if Step(c, evict, After(c, evict, before), events[|events| - 1]).1 == Decided(ip, true) then 1 else 0
  }

  lemma {:induction false} TableAlong(c: Config, events: seq<Event>)
    requires Sane(c) && WellTimed(c, events)
    ensures TableInv(c, After(c, false, events))
    decreases |events|
  {
    if events != [] {
      TableAlong(c, events[..|events| - 1]);
      StepKeeps(c, false, After(c, false, events[..|events| - 1]), events[|events| - 1]);
    }
  }

  function Later(x: real, y: real): real { if x <= y then y else x }

  lemma StepTokens(c: Config, s: State, e: Event, ip: Ip)
    requires Sane(c) && TableInv(c, s) && Timely(c, s, e)
    ensures var (s', d) := Step(c, false, s, e);
            s'.now == e.time &&
            ClientTokens(c, s', ip, e.time) == ClientTokens(c, s, ip, e.time) - if d == Decided(ip, true) then 1.0 else 0.0
  {
    match e {
      case Get(req, x, t) => GetTokens(c, s, req, x, t, ip);
      case Allow(req, t) => AllowTokens(c, s, req, t, ip);
      case Sweep(t) =>
    }
  }

  /** Tokens grow with time, but by at most one per unit and never above the burst. */
  lemma TokensGrow(c: Config, s: State, ip: Ip, t: real, t': real)
    requires Sane(c) && TableInv(c, s) && s.now <= t <= t'
    ensures 0.0 <= ClientTokens(c, s, ip, t) <= ClientTokens(c, s, ip, t') <= c.burst as real
    ensures ClientTokens(c, s, ip, t') == Min(c.burst as real, ClientTokens(c, s, ip, t) + (t' - t))
  {
    assert ip in s.clients ==> ClientOk(c, s, ip);
  }

  /** Every accepted request spent a token that was there at the start or came back since. */
  lemma {:induction false} TokensPay(c: Config, events: seq<Event>, lo: nat, ip: Ip, from: real)
    requires Sane(c) && WellTimed(c, events) && lo <= |events|
    requires forall i :: lo <= i < |events| ==> from <= events[i].time
    requires After(c, false, events[..lo]).now <= from
    ensures var s := After(c, false, events);
            var t := Later(s.now, from);
            Admitted(c, false, events, lo, ip) as real + ClientTokens(c, s, ip, t) <= c.burst as real + (t - from)
    decreases |events|
  {
    TableAlong(c, events);
    if |events| == lo {
      assert events[..lo] == events;
      TokensGrow(c, After(c, false, events), ip, from, from);
    } else {
      var before, e := events[..|events| - 1], events[|events| - 1];
      assert before[..lo] == events[..lo];
      TokensPay(c, before, lo, ip, from);
      var s := After(c, false, before);
      TableAlong(c, before);
      StepTokens(c, s, e, ip);
      TokensGrow(c, s, ip, Later(s.now, from), e.time);
    }
  }

  /** Tables that decide alike admit alike. */
  lemma {:induction false} SameAdmitted(c: Config, events: seq<Event>, lo: nat, ip: Ip)
    requires Decisions(c, true, events) == Decisions(c, false, events)
    ensures Admitted(c, true, events, lo, ip) == Admitted(c, false, events, lo, ip)
    decreases |events|
  {
    if |events| > lo {
      var before, e := events[..|events| - 1], events[|events| - 1];
      var d, d' := Decisions(c, true, events), Decisions(c, false, events);
      assert d[..|d| - 1] == Decisions(c, true, before) && d'[..|d'| - 1] == Decisions(c, false, before);
      assert d[|d| - 1] == d'[|d'| - 1];
      SameAdmitted(c, before, lo, ip);
    }
  }

  /** The events from position lo on are those of a window of `span` units that starts at `from`. */
  ghost predicate InWindow(c: Config, events: seq<Event>, lo: nat, from: real, span: real) {
    && WellTimed(c, events) && lo <= |events| && span >= 0.0
    && (forall i :: lo <= i < |events| ==> from <= events[i].time <= from + span)
    && After(c, false, events[..lo]).now <= from
  }

  /** The table that never forgets lets one client through at most burst + span times. */
  lemma RememberingBound(c: Config, events: seq<Event>, lo: nat, ip: Ip, from: real, span: real)
    requires Sane(c) && InWindow(c, events, lo, from, span)
    ensures Admitted(c, false, events, lo, ip) as real <= c.burst as real + span
  {
    TokensPay(c, events, lo, ip, from);
    TableAlong(c, events);
    var s := After(c, false, events);
    TokensGrow(c, s, ip, Later(s.now, from), Later(s.now, from));
    if |events| > lo {
      StepTime(c, After(c, false, events[..|events| - 1]), events[|events| - 1]);
    }
  }

  /** So does the forgetting table, as long as forgetting does not show. */
  lemma AdmissionBound(c: Config, events: seq<Event>, lo: nat, ip: Ip, from: real, span: real)
    requires Sane(c) && InWindow(c, events, lo, from, span) && c.limit - c.gap >= c.burst as real
    ensures Admitted(c, true, events, lo, ip) as real <= c.burst as real + span
  {
    EvictionHidden(c, events);
    SameAdmitted(c, events, lo, ip);
    RememberingBound(c, events, lo, ip, from, span);
  }

  lemma StepTime(c: Config, s: State, e: Event)
    ensures Step(c, false, s, e).0.now == e.time
  {
  }

  // ---------- when eviction shows ----------

  /** n requests of client 0 fetch their bucket, or take from it. */
  function Gets(p: seq<Event>, n: nat, t: real): seq<Event> {
    if n == 0 then p else Gets(p, n - 1, t) + [Get(n - 1, 0, t)]
  }

  function Allows(p: seq<Event>, n: nat, t: real): seq<Event> {
    if n == 0 then p else Allows(p, n - 1, t) + [Allow(n - 1, t)]
  }

  /** Requests lo..hi-1 of client 0 are in flight since `since`, and the client has `tokens` at t. */
  ghost predicate Ready(c: Config, s: State, lo: nat, hi: nat, since: real, t: real, tokens: real) {
    && TableInv(c, s) && s.now <= t
    && (forall req :: req in s.held <==> lo <= req < hi)
    && (forall req :: req in s.held ==> s.held[req].ip == 0 && s.held[req].since == since)
    && (0 in s.clients ==> s.clients[0].lastSeen <= since)
    && ClientTokens(c, s, 0, t) == tokens
  }

  lemma AfterOne(c: Config, evict: bool, p: seq<Event>, e: Event)
    ensures After(c, evict, p + [e]) == Step(c, evict, After(c, evict, p), e).0
    ensures WellTimed(c, p + [e]) <==> WellTimed(c, p) && Timely(c, After(c, false, p), e)
    ensures Decisions(c, evict, p + [e]) == Decisions(c, evict, p) + [Step(c, evict, After(c, evict, p), e).1]
  {
    assert (p + [e])[..|p + [e]| - 1] == p;
  }

  lemma GetReady(c: Config, s: State, n: nat, t: real, t': real, tokens: real)
    requires Sane(c) && Ready(c, s, 0, n, t, t', tokens) && s.now <= t <= t'
    ensures Ready(c, GetStep(s, n, 0, t), 0, n + 1, t, t', tokens) && GetStep(s, n, 0, t).now == t
    ensures 0 in GetStep(s, n, 0, t).clients
    ensures Timely(c, s, Get(n, 0, t))
  {
    GetKeeps(c, s, n, 0, t);
    assert 0 in s.clients ==> ClientOk(c, s, 0);
  }

  /** After these events n requests of client 0 wait for their tokens; `timely` tells that the events
      before them were well timed. */
  ghost predicate Fetched(c: Config, evict: bool, q: seq<Event>, n: nat, t: real, t': real, tokens: real, timely: bool) {
    && Ready(c, After(c, evict, q), 0, n, t, t', tokens) && After(c, evict, q).now <= t
    && (n > 0 ==> 0 in After(c, evict, q).clients)
    && (!evict && timely ==> WellTimed(c, q))
  }

  lemma FetchedNext(c: Config, evict: bool, q: seq<Event>, q': seq<Event>, n: nat, t: real, t': real, tokens: real, timely: bool)
    requires Sane(c) && t <= t' && Fetched(c, evict, q, n, t, t', tokens, timely) && q' == q + [Get(n, 0, t)]
    ensures Fetched(c, evict, q', n + 1, t, t', tokens, timely)
  {
    AfterOne(c, evict, q, Get(n, 0, t));
    GetReady(c, After(c, evict, q), n, t, t', tokens);
  }

  lemma {:induction false} GetsRun(c: Config, evict: bool, p: seq<Event>, n: nat, t: real, t': real, tokens: real)
    requires Sane(c) && t <= t' && Fetched(c, evict, p, 0, t, t', tokens, WellTimed(c, p))
    ensures Fetched(c, evict, Gets(p, n, t), n, t, t', tokens, WellTimed(c, p))
  {
    if n > 0 {
      GetsRun(c, evict, p, n - 1, t, t', tokens);
      FetchedNext(c, evict, Gets(p, n - 1, t), Gets(p, n, t), n - 1, t, t', tokens, WellTimed(c, p));
    }
  }

  /** The state after the first n of these requests have taken their tokens. */
  function AllowMany(c: Config, s: State, n: nat, t: real): State {
    if n == 0 then s else AllowStep(c, AllowMany(c, s, n - 1, t), n - 1, t).0
  }

  lemma AfterStep(c: Config, evict: bool, p: seq<Event>, e: Event)
    ensures After(c, evict, p + [e]) == Step(c, evict, After(c, evict, p), e).0
  {
    assert (p + [e])[..|p + [e]| - 1] == p;
  }

  lemma {:induction false} AllowsAfter(c: Config, evict: bool, p: seq<Event>, n: nat, t: real)
    ensures After(c, evict, Allows(p, n, t)) == AllowMany(c, After(c, evict, p), n, t)
  {
    if n > 0 {
      var q, e := Allows(p, n - 1, t), Allow(n - 1, t);
      AllowsAfter(c, evict, p, n - 1, t);
      AfterStep(c, evict, q, e);
      assert Allows(p, n, t) == q + [e];
      assert Step(c, evict, AllowMany(c, After(c, evict, p), n - 1, t), e).0 == AllowMany(c, After(c, evict, p), n, t);
    }
  }

  lemma AllowReady(c: Config, s: State, n: nat, all: nat, since: real, t: real, tokens: real)
    requires Sane(c) && n < all && Ready(c, s, n, all, since, t, tokens) && since <= t <= since + c.gap && tokens >= 1.0
    ensures Ready(c, AllowStep(c, s, n, t).0, n + 1, all, since, t, tokens - 1.0)
    ensures AllowStep(c, s, n, t).1 == Decided(0, true)
    ensures AllowStep(c, s, n, t).0.clients == s.clients
  {
    AllowKeeps(c, s, n, t);
    AllowTokens(c, s, n, t, 0);
    AllowsHeld(c, s, n, t);
  }

  lemma {:induction false} AllowsRun(c: Config, s: State, n: nat, all: nat, since: real, t: real, tokens: real)
    requires Sane(c) && n <= all && Ready(c, s, 0, all, since, t, tokens)
    requires since <= t <= since + c.gap && n as real <= tokens
    ensures Ready(c, AllowMany(c, s, n, t), n, all, since, t, tokens - n as real)
    ensures AllowMany(c, s, n, t).clients == s.clients
  {
    if n > 0 {
      AllowsRun(c, s, n - 1, all, since, t, tokens);
      var left := tokens - (n - 1) as real;
      assert left - 1.0 == tokens - n as real;
      AllowReady(c, AllowMany(c, s, n - 1, t), n - 1, all, since, t, left);
    }
  }

  lemma AllowsHeld(c: Config, s: State, req: RequestId, t: real)
    requires TableInv(c, s) && req in s.held
    ensures var s' := AllowStep(c, s, req, t).0; s'.held == s.held - {req} && s'.now == t && s'.clients == s.clients
  {
    assert HeldOk(s, req) && ClientOk(c, s, s.held[req].ip);
  }

  /** Drain client 0, let it idle past the limit, sweep, and let a full burst fetch its bucket. */
  function Drained(c: Config): seq<Event> { Allows(Gets([], c.burst, 0.0), c.burst, c.gap) }

  function Refetched(c: Config, t: real): seq<Event> { Gets(Drained(c) + [Sweep(t)], c.burst, t) }

  lemma DrainedIsEmpty(c: Config, evict: bool)
    requires Sane(c)
    ensures Ready(c, After(c, evict, Drained(c)), c.burst, c.burst, 0.0, c.gap, 0.0)
    ensures 0 in After(c, evict, Drained(c)).clients
    ensures !evict ==> WellTimed(c, Drained(c))
  {
    var p := Gets([], c.burst, 0.0);
    GetsRun(c, evict, [], c.burst, 0.0, c.gap, c.burst as real);
    AllowsRun(c, After(c, evict, p), c.burst, c.burst, 0.0, c.gap, c.burst as real);
    AllowsAfter(c, evict, p, c.burst, c.gap);
    if !evict {
      AllowsTimely(c, p, c.burst, c.burst, 0.0, c.gap);
    }
  }

  /** After the sweep the forgetting table grants a full burst, the other only what came back. */
  lemma RefetchedTokens(c: Config, evict: bool, t: real)
    requires Sane(c) && c.gap <= c.limit < t && t - c.gap < c.burst as real
    ensures Ready(c, After(c, evict, Refetched(c, t)), 0, c.burst, t, t, if evict then c.burst as real else t - c.gap)
    ensures !evict ==> WellTimed(c, Refetched(c, t))
  {
    DrainedIsEmpty(c, evict);
    var s := After(c, evict, Drained(c));
    AfterOne(c, evict, Drained(c), Sweep(t));
    TokensGrow(c, s, 0, c.gap, t);
    SweepKeeps(c, s, t, evict);
    GetsRun(c, evict, Drained(c) + [Sweep(t)], c.burst, t, t, if evict then c.burst as real else t - c.gap);
  }

  /** Requests n..all-1 are in flight since `since`. */
  ghost predicate Waiting(c: Config, s: State, n: nat, all: nat, since: real, t: real) {
    && TableInv(c, s) && s.now <= t
    && (forall req :: req in s.held <==> n <= req < all)
    && (forall req :: req in s.held ==> s.held[req].since == since)
  }

  lemma AllowWaiting(c: Config, s: State, n: nat, all: nat, since: real, t: real)
    requires Sane(c) && n < all && Waiting(c, s, n, all, since, t) && since <= t <= since + c.gap
    ensures Waiting(c, AllowStep(c, s, n, t).0, n + 1, all, since, t) && Timely(c, s, Allow(n, t))
  {
    AllowKeeps(c, s, n, t);
    AllowsHeld(c, s, n, t);
  }

  lemma {:induction false} AllowsWait(c: Config, s: State, n: nat, all: nat, since: real, t: real)
    requires Sane(c) && n <= all && Waiting(c, s, 0, all, since, t) && since <= t <= since + c.gap
    ensures Waiting(c, AllowMany(c, s, n, t), n, all, since, t)
  {
    if n > 0 {
      AllowsWait(c, s, n - 1, all, since, t);
      AllowWaiting(c, AllowMany(c, s, n - 1, t), n - 1, all, since, t);
    }
  }

  lemma NextTimely(c: Config, p: seq<Event>, n: nat, all: nat, since: real, t: real)
    requires Sane(c) && n < all && Waiting(c, After(c, false, p), 0, all, since, t) && since <= t <= since + c.gap
    ensures Timely(c, After(c, false, Allows(p, n, t)), Allow(n, t))
  {
    AllowsAfter(c, false, p, n, t);
    AllowsWait(c, After(c, false, p), n, all, since, t);
  }

  lemma {:induction false} AllowsTimely(c: Config, p: seq<Event>, n: nat, all: nat, since: real, t: real)
    requires Sane(c) && n <= all && WellTimed(c, p) && Waiting(c, After(c, false, p), 0, all, since, t) && since <= t <= since + c.gap
    ensures WellTimed(c, Allows(p, n, t))
  {
    if n > 0 {
      var q := Allows(p, n - 1, t);
      AllowsTimely(c, p, n - 1, all, since, t);
      NextTimely(c, p, n - 1, all, since, t);
      assert Allows(p, n, t) == q + [Allow(n - 1, t)];
      AfterOne(c, false, q, Allow(n - 1, t));
    }
  }

  ghost predicate Unobservable(c: Config) {
    forall events :: WellTimed(c, events) ==> Decisions(c, true, events) == Decisions(c, false, events)
  }

  // ---------- a burst too many ----------

  lemma AdmittedOne(c: Config, p: seq<Event>, e: Event, lo: nat, ip: Ip)
    requires lo <= |p|
    ensures Admitted(c, true, p + [e], lo, ip) ==
              Admitted(c, true, p, lo, ip) + if Step(c, true, After(c, true, p), e).1 == Decided(ip, true) then 1 else 0
  {
    assert (p + [e])[..|p + [e]| - 1] == p;
  }

  lemma {:induction false} GetsAdmitted(c: Config, p: seq<Event>, n: nat, t: real, lo: nat)
    requires lo <= |p|
    ensures |Gets(p, n, t)| == |p| + n
    ensures Admitted(c, true, Gets(p, n, t), lo, 0) == Admitted(c, true, p, lo, 0)
  {
    if n > 0 {
      GetsAdmitted(c, p, n - 1, t, lo);
      AdmittedOne(c, Gets(p, n - 1, t), Get(n - 1, 0, t), lo, 0);
    }
  }

  lemma {:induction false} AllowsLength(p: seq<Event>, n: nat, t: real)
    ensures |Allows(p, n, t)| == |p| + n
  {
    if n > 0 {
      AllowsLength(p, n - 1, t);
    }
  }

  lemma AdmittedNext(c: Config, q: seq<Event>, q': seq<Event>, e: Event, lo: nat)
    requires lo <= |q| && q' == q + [e] && Step(c, true, After(c, true, q), e).1 == Decided(0, true)
    ensures Admitted(c, true, q', lo, 0) == Admitted(c, true, q, lo, 0) + 1
  {
    AdmittedOne(c, q, e, lo, 0);
  }

  /** Request k is accepted after the k before it. */
  ghost predicate Accepts(c: Config, p: seq<Event>, k: nat, t: real) {
    Step(c, true, After(c, true, Allows(p, k, t)), Allow(k, t)).1 == Decided(0, true)
  }

  /** With enough tokens every one of these requests gets through. */
  lemma NextAccepted(c: Config, p: seq<Event>, n: nat, all: nat, since: real, t: real, tokens: real)
    requires Sane(c) && n < all && Ready(c, After(c, true, p), 0, all, since, t, tokens)
    requires since <= t <= since + c.gap && n as real + 1.0 <= tokens
    ensures Accepts(c, p, n, t)
  {
    AllowsRun(c, After(c, true, p), n, all, since, t, tokens);
    AllowsAfter(c, true, p, n, t);
    AllowReady(c, AllowMany(c, After(c, true, p), n, t), n, all, since, t, tokens - n as real);
  }

  lemma {:induction false} AllowsAdmitted(c: Config, p: seq<Event>, n: nat, t: real, lo: nat)
    requires lo <= |p| && forall k :: 0 <= k < n ==> Accepts(c, p, k, t)
    ensures Admitted(c, true, Allows(p, n, t), lo, 0) == Admitted(c, true, p, lo, 0) + n
  {
    if n > 0 {
      AllowsAdmitted(c, p, n - 1, t, lo);
      AllowsLength(p, n - 1, t);
      assert Accepts(c, p, n - 1, t);
      AdmittedNext(c, Allows(p, n - 1, t), Allows(p, n, t), Allow(n - 1, t), lo);
    }
  }

  /** The events q go on from p with times in a window. */
  predicate Extends(p: seq<Event>, q: seq<Event>, from: real, to: real) {
    p <= q && forall i :: |p| <= i < |q| ==> from <= q[i].time <= to
  }

  lemma {:induction false} GetsExtend(p: seq<Event>, q: seq<Event>, n: nat, t: real, from: real, to: real)
    requires Extends(p, q, from, to) && from <= t <= to
    ensures Extends(p, Gets(q, n, t), from, to)
  {
    if n > 0 {
      GetsExtend(p, q, n - 1, t, from, to);
    }
  }

  lemma {:induction false} AllowsExtend(p: seq<Event>, q: seq<Event>, n: nat, t: real, from: real, to: real)
    requires Extends(p, q, from, to) && from <= t <= to
    ensures Extends(p, Allows(q, n, t), from, to)
  {
    if n > 0 {
      AllowsExtend(p, q, n - 1, t, from, to);
    }
  }

  /** The burst that drained the bucket, and another one after the sweep, both within the window. */
  function TwoBursts(c: Config, t: real): seq<Event> { Allows(Refetched(c, t), c.burst, t) }

  lemma DrainAdmitted(c: Config)
    requires Sane(c)
    ensures |Drained(c)| == 2 * c.burst && Admitted(c, true, Drained(c), c.burst, 0) == c.burst
  {
    var p := Gets([], c.burst, 0.0);
    GetsAdmitted(c, [], c.burst, 0.0, 0);
    GetsRun(c, true, [], c.burst, 0.0, c.gap, c.burst as real);
    AllowsLength(p, c.burst, c.gap);
    forall k | 0 <= k < c.burst ensures Accepts(c, p, k, c.gap) {
      NextAccepted(c, p, k, c.burst, 0.0, c.gap, c.burst as real);
    }
    AllowsAdmitted(c, p, c.burst, c.gap, c.burst);
  }

  lemma RefetchAdmitted(c: Config, t: real)
    requires Sane(c)
    ensures c.burst <= |Refetched(c, t)| && Admitted(c, true, Refetched(c, t), c.burst, 0) == c.burst
  {
    DrainAdmitted(c);
    AdmittedOne(c, Drained(c), Sweep(t), c.burst, 0);
    GetsAdmitted(c, Drained(c) + [Sweep(t)], c.burst, t, c.burst);
  }

  lemma TwoBurstsAdmitted(c: Config, t: real)
    requires Sane(c) && c.gap <= c.limit < t && t - c.gap < c.burst as real
    ensures Admitted(c, true, TwoBursts(c, t), c.burst, 0) == 2 * c.burst
  {
    RefetchAdmitted(c, t);
    RefetchedTokens(c, true, t);
    forall k | 0 <= k < c.burst ensures Accepts(c, Refetched(c, t), k, t) {
      NextAccepted(c, Refetched(c, t), k, c.burst, t, t, c.burst as real);
    }
    AllowsAdmitted(c, Refetched(c, t), c.burst, t, c.burst);
  }

  lemma TwoBurstsExtend(c: Config, t: real)
    requires Sane(c) && t >= c.gap
    ensures Extends(Gets([], c.burst, 0.0), TwoBursts(c, t), c.gap, t)
  {
    var p := Gets([], c.burst, 0.0);
    AllowsExtend(p, p, c.burst, c.gap, c.gap, t);
    GetsExtend(p, Drained(c) + [Sweep(t)], c.burst, t, c.gap, t);
    AllowsExtend(p, Refetched(c, t), c.burst, t, c.gap, t);
  }

  lemma TwoBurstsInWindow(c: Config, t: real)
    requires Sane(c) && c.gap <= c.limit < t && t - c.gap < c.burst as real
    ensures InWindow(c, TwoBursts(c, t), c.burst, c.gap, t - c.gap)
  {
    GetsAdmitted(c, [], c.burst, 0.0, 0);
    GetsRun(c, false, [], c.burst, 0.0, c.gap, c.burst as real);
    TwoBurstsExtend(c, t);
    assert TwoBursts(c, t)[..c.burst] == Gets([], c.burst, 0.0);
    RefetchedTokens(c, false, t);
    AllowsTimely(c, Refetched(c, t), c.burst, c.burst, t, t);
  }

  /** A client that gets more through in a window than burst + span: it drains its bucket late, idles
      past the limit, is swept, and gets a full burst again. */
  lemma OverAdmits(c: Config) returns (events: seq<Event>, span: real)
    requires Sane(c) && 0.0 <= c.limit - c.gap < c.burst as real
    ensures InWindow(c, events, c.burst, c.gap, span)
    ensures Admitted(c, true, events, c.burst, 0) as real > c.burst as real + span
  {
    var t := c.limit + (c.burst as real - (c.limit - c.gap)) / 2.0;
    events, span := TwoBursts(c, t), t - c.gap;
    TwoBurstsAdmitted(c, t);
    TwoBurstsInWindow(c, t);
  }

  /** The same events tell the tables apart: the one that never forgets keeps the bound. */
  lemma EvictionShows(c: Config) returns (events: seq<Event>)
    requires Sane(c) && 0.0 <= c.limit - c.gap < c.burst as real
    ensures WellTimed(c, events) && Decisions(c, true, events) != Decisions(c, false, events)
  {
    var span;
    events, span := OverAdmits(c);
    RememberingBound(c, events, c.burst, 0, c.gap, span);
    if Decisions(c, true, events) == Decisions(c, false, events) {
      SameAdmitted(c, events, c.burst, 0);
      assert false;
    }
  }

  /** The tables do not look at the length of requests, and a longer one only admits more events. */
  lemma {:induction false} GapAside(c: Config, gap: real, evict: bool, events: seq<Event>)
    requires c.gap <= gap
    ensures After(c.(gap := gap), evict, events) == After(c, evict, events)
    ensures Decisions(c.(gap := gap), evict, events) == Decisions(c, evict, events)
    ensures !evict && WellTimed(c, events) ==> WellTimed(c.(gap := gap), events)
    decreases |events|
  {
    if events != [] {
      var before, e := events[..|events| - 1], events[|events| - 1];
      GapAside(c, gap, evict, before);
      assert Step(c.(gap := gap), evict, After(c, evict, before), e) == Step(c, evict, After(c, evict, before), e);
    }
  }

  /** Forgetting idle clients is unobservable over all timely events if and only if the idle limit,
      less the longest request, is long enough for an empty bucket to fill up. */
  lemma UnobservableIff(c: Config)
    requires Sane(c)
    ensures Unobservable(c) <==> c.limit - c.gap >= c.burst as real
  {
    if c.limit - c.gap >= c.burst as real {
      forall events | WellTimed(c, events) ensures Decisions(c, true, events) == Decisions(c, false, events) {
        EvictionHidden(c, events);
      }
    } else {
      var shorter := c.(gap := Min(c.gap, c.limit));
      var events := EvictionShows(shorter);
      GapAside(shorter, c.gap, true, events);
      GapAside(shorter, c.gap, false, events);
      assert shorter.(gap := c.gap) == c;
    }
  }

  lemma {:induction false} GapAsideAdmitted(c: Config, gap: real, events: seq<Event>, lo: nat, ip: Ip)
    requires c.gap <= gap
    ensures Admitted(c.(gap := gap), true, events, lo, ip) == Admitted(c, true, events, lo, ip)
    decreases |events|
  {
    if |events| > lo {
      var before, e := events[..|events| - 1], events[|events| - 1];
      GapAsideAdmitted(c, gap, before, lo, ip);
      GapAside(c, gap, true, before);
      assert Step(c.(gap := gap), true, After(c, true, before), e) == Step(c, true, After(c, true, before), e);
    }
  }

  ghost predicate Bounded(c: Config) {
    forall events, lo: nat, ip, from: real, span: real ::
      InWindow(c, events, lo, from, span) ==> Admitted(c, true, events, lo, ip) as real <= c.burst as real + span
  }

  /** The forgetting table lets every client through at most burst + span times in every window if and
      only if the idle limit, less the longest request, is long enough for an empty bucket to fill up. */
  lemma AdmissionBoundIff(c: Config)
    requires Sane(c)
    ensures Bounded(c) <==> c.limit - c.gap >= c.burst as real
  {
    if c.limit - c.gap >= c.burst as real {
      forall events, lo: nat, ip, from: real, span: real | InWindow(c, events, lo, from, span)
        ensures Admitted(c, true, events, lo, ip) as real <= c.burst as real + span
      {
        AdmissionBound(c, events, lo, ip, from, span);
      }
    } else {
      var shorter := c.(gap := Min(c.gap, c.limit));
      var events, span := OverAdmits(shorter);
      assert shorter.(gap := c.gap) == c;
      GapAside(shorter, c.gap, false, events);
      GapAside(shorter, c.gap, false, events[..c.burst]);
      GapAsideAdmitted(shorter, c.gap, events, c.burst, 0);
      assert InWindow(c, events, c.burst, shorter.gap, span);
    }
  }

  // ---------- the values of the code ----------

  const RATE: real := 10.0                 // tokens per second
  const LIMIT: real := 300.0               // five minutes idle, in seconds

  /** A burst of 20; `gapSeconds` bounds a request's time between its fetch and its take. */
  function CodeConfig(gapSeconds: real): Config {
    Config(20, RATE * LIMIT, RATE * gapSeconds)
  }

  /** Eviction is unobservable exactly as long as no request takes more than 298 seconds from its
      fetch to its take. */
  lemma CodeLimitsSuffice(gapSeconds: real)
    requires gapSeconds >= 0.0
    ensures Unobservable(CodeConfig(gapSeconds)) <==> gapSeconds <= 298.0
  {
    UnobservableIff(CodeConfig(gapSeconds));
  }

  /** A window in seconds. */
  ghost predicate InSeconds(gapSeconds: real, events: seq<Event>, lo: nat, from: real, seconds: real) {
    InWindow(CodeConfig(gapSeconds), events, lo, RATE * from, RATE * seconds)
  }

  /** In any window of T seconds one client gets at most 20 + 10 T requests through. */
  ghost predicate BoundedPerSecond(gapSeconds: real) {
    forall events, lo: nat, ip, from: real, seconds: real :: InSeconds(gapSeconds, events, lo, from, seconds) ==>
      Admitted(CodeConfig(gapSeconds), true, events, lo, ip) as real <= 20.0 + 10.0 * seconds
  }

  /** It does so exactly as long as no request takes more than 298 seconds. */
  lemma AdmissionPerSecond(gapSeconds: real)
    requires gapSeconds >= 0.0
    ensures BoundedPerSecond(gapSeconds) <==> gapSeconds <= 298.0
  {
    var c := CodeConfig(gapSeconds);
    AdmissionBoundIff(c);
    if gapSeconds > 298.0 {
      var events, lo: nat, ip, from: real, span: real :|
        InWindow(c, events, lo, from, span) && Admitted(c, true, events, lo, ip) as real > c.burst as real + span;
      assert RATE * (from / RATE) == from && RATE * (span / RATE) == span;
      assert InSeconds(gapSeconds, events, lo, from / RATE, span / RATE);
    } else {
      forall events, lo: nat, ip, from: real, seconds: real | InSeconds(gapSeconds, events, lo, from, seconds)
        ensures Admitted(c, true, events, lo, ip) as real <= 20.0 + 10.0 * seconds
      {
        AdmissionBound(c, events, lo, ip, RATE * from, RATE * seconds);
      }
    }
  }
}

/**
 The middleware's objects: buckets shared by reference, a table of entries whose lastSeen is updated
 in place, and the sweep that deletes idle entries.  Time is in seconds here.
 */
module LimiterObject {
  import Spec = Limiter

  type Ip = Spec.Ip

  /** A token bucket in seconds; a new one is full. */
  class TokenBucket {
    ghost const id: Spec.LimiterId
    const burst: nat
    var used: bool
    var tokens: real
    var last: real

    constructor (burst: nat, ghost id: Spec.LimiterId)
      ensures this.burst == burst && this.id == id && !used
    {
      this.burst, this.id := burst, id;
      used, tokens, last := false, burst as real, 0.0;
    }

    /** The bucket in refill intervals. */
    function View(): Spec.Bucket
      reads this
    {
      if used then Spec.Level(tokens, Spec.RATE * last) else Spec.Full
    }

    method Allow(now: real) returns (ok: bool)
      modifies this
      ensures (View(), ok) == Spec.Take(Spec.Config(burst, Spec.RATE * Spec.LIMIT, 0.0), old(View()), Spec.RATE * now)
    {
      var have := if used then tokens + Spec.RATE * (now - last) else burst as real;
      if have > burst as real {
        have := burst as real;
      }
      ok := have - 1.0 >= 0.0;
      if ok {
        used, tokens, last := true, have - 1.0, now;
      }
    }
  }

  class TableEntry {
    ghost const ip: Ip
    const lim: TokenBucket
    var lastSeen: real

    constructor (ghost ip: Ip, lim: TokenBucket, now: real)
      ensures this.ip == ip && this.lim == lim && lastSeen == now
    {
      this.ip, this.lim, lastSeen := ip, lim, now;
    }
  }

  function WithBucket(s: Spec.State): Spec.State {
    s.(limiters := s.limiters[s.nextId := Spec.Full], nextId := s.nextId + 1)
  }

  function WithClient(s: Spec.State, ip: Ip, client: Spec.Client): Spec.State {
    s.(clients := s.clients[ip := client])
  }

  function Added(s: Spec.State, ip: Ip, t: real): Spec.State {
    WithClient(WithBucket(s), ip, Spec.Client(s.nextId, t))
  }

  function Touched(s: Spec.State, ip: Ip, t: real): Spec.State
    requires ip in s.clients
  {
    WithClient(s, ip, Spec.Client(s.clients[ip].lim, t))
  }

  /** `buckets` names every bucket ever handed out, so that those dropped from the table while a
      request still holds them are not lost from sight. */
  class PresignRateLimiter {
    var clients: map<Ip, TableEntry>
    ghost var buckets: map<Spec.LimiterId, TokenBucket>

    ghost predicate Valid()
      reads this
    {
      forall ip :: ip in clients ==> clients[ip].ip == ip
    }

    ghost predicate SameBuckets(s: Spec.State)
      reads this, buckets.Values
    {
      && s.limiters.Keys == buckets.Keys
      && (forall id :: id in buckets ==>
            && id < s.nextId && buckets[id].id == id && buckets[id].burst == 20
            && s.limiters[id] == buckets[id].View())
    }

    ghost predicate SameClients(s: Spec.State)
      reads this, clients.Values
    {
      && s.clients.Keys == clients.Keys
      && (forall ip :: ip in clients ==>
            && s.clients[ip].lim in buckets && buckets[s.clients[ip].lim] == clients[ip].lim
            && s.clients[ip].lastSeen == Spec.RATE * clients[ip].lastSeen)
    }

    /** This table in memory is the table s of the model, its times in seconds. */
    ghost predicate Represents(s: Spec.State)
      reads this, clients.Values, buckets.Values
    {
      SameBuckets(s) && SameClients(s)
    }

    constructor ()
      ensures Valid() && Represents(Spec.START)
    {
      clients, buckets := map[], map[];
    }

    /** An entry with a fresh full bucket, not yet in the table. */
    method NewEntry(ip: Ip, now: real, ghost s: Spec.State) returns (e: TableEntry)
      requires Represents(s)
      modifies this`buckets
      ensures fresh(e) && fresh(e.lim) && e.ip == ip && e.lastSeen == now && buckets == old(buckets)[s.nextId := e.lim]
      ensures Represents(WithBucket(s))
    {
      var lim := new TokenBucket(20, s.nextId);
      e := new TableEntry(ip, lim, now);
      buckets := buckets[s.nextId := lim];
    }

    method Insert(ip: Ip, e: TableEntry, ghost s: Spec.State, ghost id: Spec.LimiterId, ghost s': Spec.State)
      requires s' == WithClient(s, ip, Spec.Client(id, Spec.RATE * e.lastSeen))
      requires Valid() && Represents(s) && ip !in clients && e.ip == ip
      requires id in buckets && e.lim == buckets[id]
      modifies this`clients
      ensures Valid() && clients == old(clients)[ip := e]
      ensures Represents(s')
    {
      clients := clients[ip := e];
    }

    /** A client that is not in the table gets a new entry. */
    method AddClient(ip: Ip, now: real, ghost s: Spec.State)
      requires Valid() && Represents(s) && ip !in clients
      modifies this`clients, this`buckets
      ensures Valid() && ip in clients && fresh(clients[ip].lim)
      ensures Represents(Added(s, ip, Spec.RATE * now))
    {
      var e := NewEntry(ip, now, s);
      Insert(ip, e, WithBucket(s), s.nextId, Added(s, ip, Spec.RATE * now));
    }

    method Touch(ip: Ip, now: real, ghost s: Spec.State)
      requires Valid() && Represents(s) && ip in clients
      modifies clients[ip]
      ensures Represents(Touched(s, ip, Spec.RATE * now))
    {
      clients[ip].lastSeen := now;
    }

    /** The client's own bucket, or a fresh full one; either way the client was seen now. */
    method GetLimiter(ip: Ip, now: real, ghost s: Spec.State, ghost req: Spec.RequestId) returns (lim: TokenBucket)
      requires Valid() && Represents(s)
      modifies this, clients.Values
      ensures Valid() && Represents(Spec.GetStep(s, req, ip, Spec.RATE * now))
      ensures var id := Spec.GetStep(s, req, ip, Spec.RATE * now).held[req].lim; id in buckets && buckets[id] == lim
      ensures if ip in old(clients) then lim == old(clients[ip].lim) else fresh(lim)
    {
      if ip !in clients {
        AddClient(ip, now, s);
      } else {
        Touch(ip, now, s);
      }
      lim := clients[ip].lim;
      HeldAside(s, req, ip, Spec.RATE * now);
    }

    /** The table does not depend on the requests in flight. */
    lemma HeldAside(s: Spec.State, req: Spec.RequestId, ip: Ip, t: real)
      requires ip in s.clients ==> s.clients[ip].lim in s.limiters
      requires Represents(if ip in s.clients then Touched(s, ip, t) else Added(s, ip, t))
      ensures Represents(Spec.GetStep(s, req, ip, t))
    {
    }

    /** The second half of a request, on the bucket it fetched, whether or not a sweep has dropped
        the client in between. */
    method Admit(lim: TokenBucket, now: real, gap: real, ghost s: Spec.State, ghost req: Spec.RequestId) returns (ok: bool)
      requires Valid() && Represents(s)
      requires req in s.held && s.held[req].lim in buckets && buckets[s.held[req].lim] == lim
      modifies lim
      ensures Valid()
      ensures var (s', decision) := Spec.AllowStep(Spec.CodeConfig(gap), s, req, Spec.RATE * now);
              Represents(s') && decision == Spec.Decided(s.held[req].ip, ok)
    {
      ok := lim.Allow(now);
    }

    /** Right after a sweep the table holds exactly the clients seen in the last five minutes. */
    method Evict(now: real)
      modifies this`clients
      ensures clients == map ip | ip in old(clients) && now - old(clients)[ip].lastSeen <= Spec.LIMIT :: old(clients)[ip]
    {
      var rest := clients.Keys;
      ghost var all := clients;
      while rest != {}
        invariant rest <= all.Keys && clients.Keys <= all.Keys && rest <= clients.Keys
        invariant forall ip :: ip in clients ==> clients[ip] == all[ip]
        invariant forall ip :: ip in all && ip !in rest ==> (ip in clients <==> now - all[ip].lastSeen <= Spec.LIMIT)
        decreases rest
      {
        var ip :| ip in rest;
        rest := rest - {ip};
        if now - clients[ip].lastSeen > Spec.LIMIT {
          clients := clients - {ip};
        }
      }
    }

    /** One tick of the evicting goroutine. */
    method Tick(now: real, gap: real, ghost s: Spec.State)
      requires Valid() && Represents(s)
      modifies this`clients
      ensures Valid() && Represents(Spec.Step(Spec.CodeConfig(gap), true, s, Spec.Sweep(Spec.RATE * now)).0)
    {
      Evict(now);
    }
  }
}
