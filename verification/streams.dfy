/**
 The Redis stream with its one consumer group.

 An entry's id is its position in `log`, which keeps every entry ever appended.  `cursor` is the
 next position the group has not looked at, so the undelivered entries are the positions from
 `cursor` on.  `dropped` are entries that were trimmed, or older than the group, before delivery;
 `pending` is the group's pending-entries list and `acked` what left it by XACK.
 */
module Streams {
  import opened Postgres

  type MsgId = nat

  /** A normalised message; a job id wins over an asset id. */
  datatype Payload =
    | JobPayload(job: JobId, asset: AssetId)
    | AssetPayload(asset: AssetId)
    | Malformed      // neither id present
    | Undecodable    // the body is not a JSON object: handling it raises

  datatype Origin = Api | Sweep | Foreign

  datatype Entry = Entry(payload: Payload, origin: Origin)

  datatype Stream = Stream(log: seq<Entry>, grouped: bool, cursor: nat,
                           dropped: set<MsgId>, pending: set<MsgId>, acked: set<MsgId>)

  predicate From(lo: nat, i: nat) { lo <= i }

  function Range(lo: nat, hi: nat): (r: set<nat>)
    ensures forall i :: i in r <==> lo <= i < hi
  {
    set i: nat | i < hi && From(lo, i)
  }

  function Append(st: Stream, p: Payload, o: Origin): Stream {
    st.(log := st.log + [Entry(p, o)])
  }

  /** XADD with MAXLEN may also drop the oldest entries, here any prefix. */
  function Trim(st: Stream, upTo: nat): Stream {
    if st.cursor < upTo <= |st.log|
    then st.(dropped := st.dropped + Range(st.cursor, upTo), cursor := upTo)
    else st
  }

  /** XGROUP CREATE at "$": entries already present are never delivered to the group. */
  function CreateGroup(st: Stream): Stream {
    if st.grouped then st else Trim(st, |st.log|).(grouped := true)
  }

  predicate HasNext(st: Stream) {
    st.grouped && st.cursor < |st.log|
  }

  /** XREADGROUP ">" with COUNT 1. */
  function Deliver(st: Stream): Stream {
    st.(cursor := st.cursor + 1, pending := st.pending + {st.cursor})
  }

  function Ack(st: Stream, msg: MsgId): Stream {
    if msg in st.pending
    then st.(pending := st.pending - {msg}, acked := st.acked + {msg})
    else st
  }

  /** Every entry is undelivered, dropped, pending or acked, and only one of these. */
  ghost predicate StreamInv(st: Stream) {
    && st.cursor <= |st.log|
    && st.dropped + st.pending + st.acked == Range(0, st.cursor)
    && st.dropped !! st.pending && st.dropped !! st.acked && st.pending !! st.acked
  }

  /** The log only grows at its end and nothing delivered becomes undelivered. */
  ghost predicate StreamGrows(st: Stream, st': Stream) {
    && st.log <= st'.log
    && st.cursor <= st'.cursor
    && st.acked <= st'.acked
    && st.dropped <= st'.dropped
    && st.pending <= st'.pending + st'.acked
  }

  lemma AppendKeeps(st: Stream, p: Payload, o: Origin)
    requires StreamInv(st)
    ensures StreamInv(Append(st, p, o)) && StreamGrows(st, Append(st, p, o))
  {
  }

  lemma TrimKeeps(st: Stream, upTo: nat)
    requires StreamInv(st)
    ensures StreamInv(Trim(st, upTo)) && StreamGrows(st, Trim(st, upTo)) && Trim(st, upTo).pending == st.pending
  {
  }

  lemma CreateGroupKeeps(st: Stream)
    requires StreamInv(st)
    ensures StreamInv(CreateGroup(st)) && StreamGrows(st, CreateGroup(st)) && CreateGroup(st).pending == st.pending
  {
    TrimKeeps(st, |st.log|);
  }

  lemma DeliverKeeps(st: Stream)
    requires StreamInv(st) && HasNext(st)
    ensures StreamInv(Deliver(st)) && StreamGrows(st, Deliver(st)) && st.cursor !in st.pending
  {
  }

  lemma AckKeeps(st: Stream, msg: MsgId)
    requires StreamInv(st)
    ensures StreamInv(Ack(st, msg)) && StreamGrows(st, Ack(st, msg))
  {
  }
}
