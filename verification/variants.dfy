/**
 The content-addressed variant cache: rows keyed by a hash of content and parameters, links keyed
 by (asset, role), blobs written before rows.

 SHA-256 is collision-free, so a digest is modelled by what was hashed.  Rendering is any function
 of content and parameters; the raw object of an asset is fixed after upload.
 */
module Variants {
  import opened Postgres
  import opened FiniteSets

  type Content = nat
  type Blob = nat
  type WorkerId = nat

  type Renderer = (Content, Params) -> Blob
  type Uploads = AssetId -> Content

  datatype Params =
    | ImageParams(role: string, width: nat, height: Option<nat>, crop: bool, format: string, quality: nat)
    | PosterParams(role: string, seekSeconds: nat, width: nat, format: string)
    | TranscodeParams(role: string, codec: string, container: string, width: nat, crf: nat, preset: string, audio: string)
    | PreviewParams(role: string, duration: nat, width: nat, muted: bool, codec: string, seekSeconds: nat)

  /** compute_variant_hash: the digest of the content hash and all parameters. */
  datatype Hash = Sha256(content: Content, params: Params)

  /** The image pipeline and ensure_variant_exists use different storage keys. */
  datatype Key = Processed(content: Content, hash: Hash, ext: string) | Shared(hash: Hash, ext: string)

  datatype Table = ImageTable | VideoTable

  datatype RowKey = RowKey(table: Table, hash: Hash)

  datatype LinkKey = LinkKey(table: Table, asset: AssetId, role: string)

  datatype Row = Row(content: Content, role: string, params: Params, url: Key)

  datatype Store = Store(rows: map<RowKey, Row>, links: map<LinkKey, Hash>, blobs: map<Key, Blob>,
                         uploads: nat, ready: set<AssetId>)

  datatype Pipeline = ImagePipeline | VideoPipeline

  datatype Item = Item(table: Table, params: Params)

  const THUMBNAIL: Params := ImageParams("thumbnail", 256, Some(256), true, "webp", 80)
  const DISPLAY_SMALL: Params := ImageParams("display_small", 512, None, false, "webp", 80)
  const DISPLAY_LARGE: Params := ImageParams("display_large", 1280, None, false, "webp", 80)
  const POSTER: Params := PosterParams("poster", 2, 640, "jpg")
  const TRANSCODED: Params := TranscodeParams("transcoded", "h264", "mp4", 1280, 23, "veryfast", "aac-128k")
  const PREVIEW: Params := PreviewParams("preview", 4, 854, true, "h264", 2)

  const IMAGE_VARIANTS: seq<Item> :=
    [Item(ImageTable, THUMBNAIL), Item(ImageTable, DISPLAY_SMALL), Item(ImageTable, DISPLAY_LARGE)]

  const VIDEO_VARIANTS: seq<Item> :=
    [Item(ImageTable, POSTER), Item(VideoTable, TRANSCODED), Item(VideoTable, PREVIEW)]

  function Plan(p: Pipeline): seq<Item> {
    match p case ImagePipeline => IMAGE_VARIANTS case VideoPipeline => VIDEO_VARIANTS
  }

  /** The file extension, with the defaults of params.get. */
  function Extension(params: Params): string {
    match params
    case ImageParams(_, _, _, _, format, _) => format
    case PosterParams(_, _, _, format) => format
    case TranscodeParams(_, _, container, _, _, _, _) => container
    case PreviewParams(_, _, _, _, _, _) => "mp4"
  }

  function KeyOf(p: Pipeline, hash: Hash): Key {
    match p
    case ImagePipeline => Processed(hash.content, hash, Extension(hash.params))
    case VideoPipeline => Shared(hash, Extension(hash.params))
  }

  // ---------- statements ----------

  function PutBlob(st: Store, key: Key, data: Blob): Store {
    st.(blobs := st.blobs[key := data], uploads := st.uploads + 1)
  }

  /** INSERT ... ON CONFLICT (variant_hash) DO NOTHING. */
  function InsertRow(st: Store, p: Pipeline, table: Table, hash: Hash): Store {
    if RowKey(table, hash) in st.rows then st
    else st.(rows := st.rows[RowKey(table, hash) := Row(hash.content, hash.params.role, hash.params, KeyOf(p, hash))])
  }

  /** INSERT ... ON CONFLICT (asset_id, role) DO UPDATE. */
  function PutLink(st: Store, table: Table, a: AssetId, role: string, hash: Hash): Store {
    st.(links := st.links[LinkKey(table, a, role) := hash])
  }

  // ---------- workers, interleaved ----------

  /** How far a worker is with the current item of its plan. */
  datatype Phase =
    | Looking                   // nothing read yet
    | Missing                   // no row seen
    | Stored                    // blob uploaded, row not committed
    | Present                   // row seen, or committed by this worker

  datatype Worker = Resting | Busy(asset: AssetId, content: Content, pipeline: Pipeline, next: nat, phase: Phase)

  datatype Move = Begin(asset: AssetId, pipeline: Pipeline) | Look | Upload | Commit | Link | MarkReady | Quit

  datatype State = State(store: Store, workers: map<WorkerId, Worker>)

  function CurrentItem(wk: Worker): Item
    requires wk.Busy? && wk.next < |Plan(wk.pipeline)|
  {
    Plan(wk.pipeline)[wk.next]
  }

  function CurrentHash(wk: Worker): Hash
    requires wk.Busy? && wk.next < |Plan(wk.pipeline)|
  {
    Sha256(wk.content, CurrentItem(wk).params)
  }

  predicate CanMove(wk: Worker, move: Move) {
    match move
    case Begin(_, _) => wk.Resting?
    case Look => wk.Busy? && wk.next < |Plan(wk.pipeline)| && wk.phase.Looking?
    case Upload => wk.Busy? && wk.next < |Plan(wk.pipeline)| && wk.phase.Missing?
    case Commit => wk.Busy? && wk.next < |Plan(wk.pipeline)| && wk.phase.Stored?
    case Link => wk.Busy? && wk.next < |Plan(wk.pipeline)| && wk.phase.Present?
    case MarkReady => wk.Busy? && wk.next == |Plan(wk.pipeline)|
    case Quit => wk.Busy?
  }

  function NextItem(wk: Worker): Worker
    requires wk.Busy?
  {
    wk.(next := wk.next + 1, phase := Looking)
  }

  /** One step.  The image pipeline commits row and link in one transaction, the video pipeline in
      two; in both the blob is written first and outlives a rollback. */
  function MoveStep(render: Renderer, raw: Uploads, st: Store, wk: Worker, move: Move): (Store, Worker)
    requires CanMove(wk, move)
  {
    match move
    case Begin(a, p) => (st, Busy(a, raw(a), p, 0, Looking))
    case Look =>
      (st, wk.(phase := if RowKey(CurrentItem(wk).table, CurrentHash(wk)) in st.rows then Present else Missing))
    case Upload =>
      var hash := CurrentHash(wk);
      (PutBlob(st, KeyOf(wk.pipeline, hash), render(wk.content, CurrentItem(wk).params)), wk.(phase := Stored))
    case Commit =>
      var item, hash := CurrentItem(wk), CurrentHash(wk);
      var inserted := InsertRow(st, wk.pipeline, item.table, hash);
      if wk.pipeline.ImagePipeline?
      then (PutLink(inserted, item.table, wk.asset, item.params.role, hash), NextItem(wk))
      else (inserted, wk.(phase := Present))
    case Link =>
      var item := CurrentItem(wk);
      (PutLink(st, item.table, wk.asset, item.params.role, CurrentHash(wk)), NextItem(wk))
    case MarkReady => (st.(ready := st.ready + {wk.asset}), Resting)
    case Quit => (st, Resting)
  }

  predicate Enabled(s: State, w: WorkerId, move: Move) {
    w in s.workers && CanMove(s.workers[w], move)
  }

  function Next(render: Renderer, raw: Uploads, s: State, w: WorkerId, move: Move): State
    requires Enabled(s, w, move)
  {
    var (st, wk) := MoveStep(render, raw, s.store, s.workers[w], move);
    State(st, s.workers[w := wk])
  }

  datatype Run = Run(states: seq<State>, moves: seq<(WorkerId, Move)>)

  const EMPTY_STORE: Store := Store(map[], map[], map[], 0, {})

  ghost predicate IsRun(render: Renderer, raw: Uploads, r: Run) {
    && |r.states| == |r.moves| + 1
    && r.states[0].store == EMPTY_STORE && (forall w :: w in r.states[0].workers ==> r.states[0].workers[w].Resting?)
    && forall k :: 0 <= k < |r.moves| ==>
         Enabled(r.states[k], r.moves[k].0, r.moves[k].1)
         && r.states[k + 1] == Next(render, raw, r.states[k], r.moves[k].0, r.moves[k].1)
  }

  // ---------- the cache agrees with recomputation ----------

  function HashIn(key: Key): Hash {
    match key case Processed(_, h, _) => h case Shared(h, _) => h
  }

  /** A blob is the rendering of what its key's hash was computed from. */
  ghost predicate BlobsAgree(render: Renderer, st: Store) {
    forall key :: key in st.blobs ==> st.blobs[key] == render(HashIn(key).content, HashIn(key).params)
  }

  /** A row is filed under the hash of its content and parameters, and its blob exists. */
  ghost predicate RowsAgree(st: Store) {
    forall k :: k in st.rows ==>
      && k.hash == Sha256(st.rows[k].content, st.rows[k].params)
      && st.rows[k].role == st.rows[k].params.role
      && st.rows[k].url in st.blobs && HashIn(st.rows[k].url) == k.hash
  }

  /** The one parameter set the code has for a role in a table. */
  function ParamsFor(table: Table, role: string): Option<Params> {
    if table.ImageTable? then
      if role == "thumbnail" then Some(IMAGE_VARIANTS[0].params)
      else if role == "display_small" then Some(IMAGE_VARIANTS[1].params)
      else if role == "display_large" then Some(IMAGE_VARIANTS[2].params)
      else if role == "poster" then Some(VIDEO_VARIANTS[0].params)
      else None
    else
      if role == "transcoded" then Some(VIDEO_VARIANTS[1].params)
      else if role == "preview" then Some(VIDEO_VARIANTS[2].params)
      else None
  }

  lemma PlansAreRoles(p: Pipeline, i: nat)
    requires i < |Plan(p)|
    ensures ParamsFor(Plan(p)[i].table, Plan(p)[i].params.role) == Some(Plan(p)[i].params)
  {
    var params := Plan(p)[i].params;
    assert |"thumbnail"| == 9 && |"display_small"| == 13 && |"display_large"| == 13 && |"poster"| == 6;
    assert "display_small"[8] != "display_large"[8] by { assert "display_small"[8] == 's' && "display_large"[8] == 'l'; }
    assert |"transcoded"| == 10 && |"preview"| == 7;
  }

  /** A link points to the row that recomputing this asset's role would produce. */
  ghost predicate LinksAgree(raw: Uploads, st: Store) {
    forall l :: l in st.links ==>
      && RowKey(l.table, st.links[l]) in st.rows
      && ParamsFor(l.table, l.role).Some?
      && st.links[l] == Sha256(raw(l.asset), ParamsFor(l.table, l.role).value)
      && st.links[l].params.role == l.role
  }

  predicate Linked(raw: Uploads, st: Store, a: AssetId, item: Item) {
    var l := LinkKey(item.table, a, item.params.role);
    l in st.links && st.links[l] == Sha256(raw(a), item.params)
  }

  ghost predicate WorkerAgrees(raw: Uploads, st: Store, wk: Worker) {
    wk.Busy? ==>
      && wk.content == raw(wk.asset) && wk.next <= |Plan(wk.pipeline)|
      && (forall i :: 0 <= i < wk.next ==> Linked(raw, st, wk.asset, Plan(wk.pipeline)[i]))
      && (wk.next < |Plan(wk.pipeline)| ==>
            && (wk.phase.Stored? ==> KeyOf(wk.pipeline, CurrentHash(wk)) in st.blobs)
            && (wk.phase.Present? ==> RowKey(CurrentItem(wk).table, CurrentHash(wk)) in st.rows))
  }

  ghost predicate AllLinked(raw: Uploads, st: Store, a: AssetId, p: Pipeline) {
    forall i :: 0 <= i < |Plan(p)| ==> Linked(raw, st, a, Plan(p)[i])
  }

  ghost predicate StoreInv(render: Renderer, raw: Uploads, st: Store) {
    BlobsAgree(render, st) && RowsAgree(st) && LinksAgree(raw, st)
  }

  ghost predicate CacheInv(render: Renderer, raw: Uploads, s: State) {
    StoreInv(render, raw, s.store) && forall w :: w in s.workers ==> WorkerAgrees(raw, s.store, s.workers[w])
  }

  /** Rows are immutable, and blobs and links are never removed. */
  ghost predicate StoreGrows(st: Store, st': Store) {
    && (forall k :: k in st.rows ==> k in st'.rows && st'.rows[k] == st.rows[k])
    && (forall key :: key in st.blobs ==> key in st'.blobs)
    && (forall l :: l in st.links ==> l in st'.links)
    && st.ready <= st'.ready
  }

  lemma LinksStay(raw: Uploads, st: Store, st': Store, a: AssetId, p: Pipeline, i: nat)
    requires StoreGrows(st, st') && LinksAgree(raw, st) && LinksAgree(raw, st')
    requires i < |Plan(p)| && Linked(raw, st, a, Plan(p)[i])
    ensures Linked(raw, st', a, Plan(p)[i])
  {
    PlansAreRoles(p, i);
  }

  lemma WorkerStays(raw: Uploads, st: Store, st': Store, wk: Worker)
    requires StoreGrows(st, st') && LinksAgree(raw, st) && LinksAgree(raw, st') && WorkerAgrees(raw, st, wk)
    ensures WorkerAgrees(raw, st', wk)
  {
    if wk.Busy? {
      forall i | 0 <= i < wk.next ensures Linked(raw, st', wk.asset, Plan(wk.pipeline)[i]) {
        LinksStay(raw, st, st', wk.asset, wk.pipeline, i);
      }
    }
  }

  /** The moves that write. */
  lemma UploadKeeps(render: Renderer, raw: Uploads, st: Store, wk: Worker)
    requires StoreInv(render, raw, st) && WorkerAgrees(raw, st, wk) && CanMove(wk, Upload)
    ensures var (st', wk') := MoveStep(render, raw, st, wk, Upload);
            StoreInv(render, raw, st') && StoreGrows(st, st') && WorkerAgrees(raw, st', wk')
  {
    var (st', _) := MoveStep(render, raw, st, wk, Upload);
    WorkerStays(raw, st, st', wk);
  }

  lemma InsertKeeps(render: Renderer, raw: Uploads, st: Store, p: Pipeline, table: Table, hash: Hash)
    requires StoreInv(render, raw, st) && KeyOf(p, hash) in st.blobs
    ensures var st' := InsertRow(st, p, table, hash);
            StoreInv(render, raw, st') && StoreGrows(st, st') && RowKey(table, hash) in st'.rows
  {
  }

  lemma LinkKeeps(render: Renderer, raw: Uploads, st: Store, a: AssetId, p: Pipeline, i: nat)
    requires StoreInv(render, raw, st) && i < |Plan(p)| && RowKey(Plan(p)[i].table, Sha256(raw(a), Plan(p)[i].params)) in st.rows
    ensures var item := Plan(p)[i];
            var st' := PutLink(st, item.table, a, item.params.role, Sha256(raw(a), item.params));
            StoreInv(render, raw, st') && StoreGrows(st, st') && Linked(raw, st', a, item)
  {
    var item := Plan(p)[i];
    var st' := PutLink(st, item.table, a, item.params.role, Sha256(raw(a), item.params));
    PlansAreRoles(p, i);
    assert LinksAgree(raw, st');
  }

  lemma CommitKeeps(render: Renderer, raw: Uploads, st: Store, wk: Worker)
    requires StoreInv(render, raw, st) && WorkerAgrees(raw, st, wk) && CanMove(wk, Commit)
    ensures var (st', wk') := MoveStep(render, raw, st, wk, Commit);
            StoreInv(render, raw, st') && StoreGrows(st, st') && WorkerAgrees(raw, st', wk')
  {
    var item, hash := CurrentItem(wk), CurrentHash(wk);
    var inserted := InsertRow(st, wk.pipeline, item.table, hash);
    InsertKeeps(render, raw, st, wk.pipeline, item.table, hash);
    WorkerStays(raw, st, inserted, wk);
    if wk.pipeline.ImagePipeline? {
      LinkKeeps(render, raw, inserted, wk.asset, wk.pipeline, wk.next);
      WorkerStays(raw, inserted, PutLink(inserted, item.table, wk.asset, item.params.role, hash), wk);
    }
  }

  lemma LinkMoveKeeps(render: Renderer, raw: Uploads, st: Store, wk: Worker)
    requires StoreInv(render, raw, st) && WorkerAgrees(raw, st, wk) && CanMove(wk, Link)
    ensures var (st', wk') := MoveStep(render, raw, st, wk, Link);
            StoreInv(render, raw, st') && StoreGrows(st, st') && WorkerAgrees(raw, st', wk')
  {
    var (st', _) := MoveStep(render, raw, st, wk, Link);
    LinkKeeps(render, raw, st, wk.asset, wk.pipeline, wk.next);
    WorkerStays(raw, st, st', wk);
  }

  lemma MoveKeeps(render: Renderer, raw: Uploads, st: Store, wk: Worker, move: Move)
    requires StoreInv(render, raw, st) && WorkerAgrees(raw, st, wk) && CanMove(wk, move)
    ensures var (st', wk') := MoveStep(render, raw, st, wk, move);
            StoreInv(render, raw, st') && StoreGrows(st, st') && WorkerAgrees(raw, st', wk')
  {
    match move {
      case Upload => UploadKeeps(render, raw, st, wk);
      case Commit => CommitKeeps(render, raw, st, wk);
      case Link => LinkMoveKeeps(render, raw, st, wk);
      case _ =>
    }
  }

  lemma NextKeeps(render: Renderer, raw: Uploads, s: State, w: WorkerId, move: Move)
    requires CacheInv(render, raw, s) && Enabled(s, w, move)
    ensures CacheInv(render, raw, Next(render, raw, s, w, move))
    ensures StoreGrows(s.store, Next(render, raw, s, w, move).store)
  {
    var s' := Next(render, raw, s, w, move);
    MoveKeeps(render, raw, s.store, s.workers[w], move);
    forall v | v in s'.workers && v != w ensures WorkerAgrees(raw, s'.store, s'.workers[v]) {
      WorkerStays(raw, s.store, s'.store, s.workers[v]);
    }
  }

  lemma {:induction false} CacheAlong(render: Renderer, raw: Uploads, r: Run, k: nat)
    requires IsRun(render, raw, r) && k < |r.states|
    ensures CacheInv(render, raw, r.states[k])
  {
    if k > 0 {
      CacheAlong(render, raw, r, k - 1);
      NextKeeps(render, raw, r.states[k - 1], r.moves[k - 1].0, r.moves[k - 1].1);
    }
  }

  /** In every reachable state, under any interleaving of workers and crashes: each row is filed
      under the hash of its content and parameters and its blob is their rendering; each link
      points to an existing row of its role for its asset's raw bytes. */
  lemma CacheAgreement(render: Renderer, raw: Uploads, r: Run, k: nat)
    requires IsRun(render, raw, r) && k < |r.states|
    ensures var st := r.states[k].store;
            && (forall key :: key in st.rows ==>
                  var row := st.rows[key];
                  && key.hash == Sha256(row.content, row.params) && row.role == row.params.role
                  && row.url in st.blobs && st.blobs[row.url] == render(row.content, row.params))
            && (forall l :: l in st.links ==>
                  && RowKey(l.table, st.links[l]) in st.rows
                  && st.rows[RowKey(l.table, st.links[l])].role == l.role
                  && st.rows[RowKey(l.table, st.links[l])].content == raw(l.asset))
  {
    CacheAlong(render, raw, r, k);
  }

  /** Assets with equal bytes link to the same hash for each role they share. */
  lemma EqualBytesShare(render: Renderer, raw: Uploads, r: Run, k: nat, table: Table, role: string, a: AssetId, b: AssetId)
    requires IsRun(render, raw, r) && k < |r.states| && raw(a) == raw(b)
    requires LinkKey(table, a, role) in r.states[k].store.links && LinkKey(table, b, role) in r.states[k].store.links
    ensures r.states[k].store.links[LinkKey(table, a, role)] == r.states[k].store.links[LinkKey(table, b, role)]
  {
    CacheAlong(render, raw, r, k);
  }

  /** Step i is the 'ready' write that ends pipeline p's work on asset a. */
  ghost predicate Completes(r: Run, i: nat, a: AssetId, p: Pipeline) {
    && i < |r.moves| && i < |r.states| && r.moves[i].1.MarkReady?
    && r.moves[i].0 in r.states[i].workers
    && var wk := r.states[i].workers[r.moves[i].0];
       wk.Busy? && wk.next == |Plan(wk.pipeline)| && wk.asset == a && wk.pipeline == p
  }

  lemma AllLinkedStays(raw: Uploads, st: Store, st': Store, a: AssetId, p: Pipeline)
    requires StoreGrows(st, st') && LinksAgree(raw, st) && LinksAgree(raw, st') && AllLinked(raw, st, a, p)
    ensures AllLinked(raw, st', a, p)
  {
    forall i | 0 <= i < |Plan(p)| ensures Linked(raw, st', a, Plan(p)[i]) {
      LinksStay(raw, st, st', a, p, i);
    }
  }

  /** At the 'ready' write of a pipeline, and in every later state, all roles of that very pipeline
      are linked to the hashes of the asset's bytes, whatever the other workers do. */
  lemma {:induction false} ReadyIsComplete(render: Renderer, raw: Uploads, r: Run, i: nat, k: nat, a: AssetId, p: Pipeline)
    requires IsRun(render, raw, r) && Completes(r, i, a, p) && i <= k < |r.states|
    ensures AllLinked(raw, r.states[k].store, a, p)
    decreases k
  {
    if k == i {
      CacheAlong(render, raw, r, i);
    } else {
      ReadyIsComplete(render, raw, r, i, k - 1, a, p);
      CacheAlong(render, raw, r, k - 1);
      NextKeeps(render, raw, r.states[k - 1], r.moves[k - 1].0, r.moves[k - 1].1);
      AllLinkedStays(raw, r.states[k - 1].store, r.states[k].store, a, p);
    }
  }

  /** The link of this role is the hash of the asset's bytes with these parameters. */
  predicate RoleLinked(raw: Uploads, st: Store, table: Table, a: AssetId, role: string, params: Params) {
    LinkKey(table, a, role) in st.links && st.links[LinkKey(table, a, role)] == Sha256(raw(a), params)
  }

  /** By name: an image is 'ready' with its thumbnail and its two display sizes. */
  lemma ImageIsComplete(render: Renderer, raw: Uploads, r: Run, i: nat, k: nat, a: AssetId)
    requires IsRun(render, raw, r) && Completes(r, i, a, ImagePipeline) && i <= k < |r.states|
    ensures var st := r.states[k].store;
            && RoleLinked(raw, st, ImageTable, a, "thumbnail", ImageParams("thumbnail", 256, Some(256), true, "webp", 80))
            && RoleLinked(raw, st, ImageTable, a, "display_small", ImageParams("display_small", 512, None, false, "webp", 80))
            && RoleLinked(raw, st, ImageTable, a, "display_large", ImageParams("display_large", 1280, None, false, "webp", 80))
  {
    ReadyIsComplete(render, raw, r, i, k, a, ImagePipeline);
    var st := r.states[k].store;
    assert Linked(raw, st, a, Plan(ImagePipeline)[0]) && Linked(raw, st, a, Plan(ImagePipeline)[1]);
    assert Linked(raw, st, a, Plan(ImagePipeline)[2]);
  }

  /** By name: a video is 'ready' with its poster, its transcoded form and its preview. */
  lemma VideoIsComplete(render: Renderer, raw: Uploads, r: Run, i: nat, k: nat, a: AssetId)
    requires IsRun(render, raw, r) && Completes(r, i, a, VideoPipeline) && i <= k < |r.states|
    ensures var st := r.states[k].store;
            && RoleLinked(raw, st, ImageTable, a, "poster", PosterParams("poster", 2, 640, "jpg"))
            && RoleLinked(raw, st, VideoTable, a, "transcoded",
                          TranscodeParams("transcoded", "h264", "mp4", 1280, 23, "veryfast", "aac-128k"))
            && RoleLinked(raw, st, VideoTable, a, "preview", PreviewParams("preview", 4, 854, true, "h264", 2))
  {
    ReadyIsComplete(render, raw, r, i, k, a, VideoPipeline);
    var st := r.states[k].store;
    assert Linked(raw, st, a, Plan(VideoPipeline)[0]) && Linked(raw, st, a, Plan(VideoPipeline)[1]);
    assert Linked(raw, st, a, Plan(VideoPipeline)[2]);
  }

  /** A worker may take up any asset and crash after any step; a crash undoes nothing that was stored. */
  lemma QuitEffect(render: Renderer, raw: Uploads, s: State, w: WorkerId, a: AssetId, p: Pipeline)
    requires w in s.workers
    ensures s.workers[w].Busy? ==>
              Enabled(s, w, Quit) && Next(render, raw, s, w, Quit) == State(s.store, s.workers[w := Resting])
    ensures s.workers[w].Resting? ==>
              Enabled(s, w, Begin(a, p)) && Next(render, raw, s, w, Begin(a, p)).workers[w] == Busy(a, raw(a), p, 0, Looking)
  {
  }

  /** What one commit shows to others: an image's row and link appear together, a video's row before
      its link; a row that another worker committed meanwhile is kept. */
  lemma CommitEffect(render: Renderer, raw: Uploads, st: Store, wk: Worker)
    requires CanMove(wk, Commit)
    ensures var (st', wk') := MoveStep(render, raw, st, wk, Commit);
            var item, hash := CurrentItem(wk), CurrentHash(wk);
            && (forall k :: k in st.rows ==> k in st'.rows && st'.rows[k] == st.rows[k])
            && RowKey(item.table, hash) in st'.rows
            && st'.links == (if wk.pipeline.ImagePipeline? then st.links[LinkKey(item.table, wk.asset, item.params.role) := hash]
                             else st.links)
            && st'.blobs == st.blobs && st'.uploads == st.uploads && st'.ready == st.ready
            && (wk'.next == wk.next + 1 <==> wk.pipeline.ImagePipeline?)
  {
  }

  /** An asset is marked 'ready' only by such a write. */
  lemma {:induction false} ReadyWasWritten(render: Renderer, raw: Uploads, r: Run, k: nat, a: AssetId)
    requires IsRun(render, raw, r) && k < |r.states| && a in r.states[k].store.ready
    ensures exists i: nat, p :: i < k && Completes(r, i, a, p)
  {
    var s, w, move := r.states[k - 1], r.moves[k - 1].0, r.moves[k - 1].1;
    if a in s.store.ready {
      ReadyWasWritten(render, raw, r, k - 1, a);
    } else {
      MarksOnlyItsAsset(render, raw, s, w, move, a);
      assert Completes(r, k - 1, a, s.workers[w].pipeline);
    }
  }

  lemma MarksOnlyItsAsset(render: Renderer, raw: Uploads, s: State, w: WorkerId, move: Move, a: AssetId)
    requires Enabled(s, w, move) && a !in s.store.ready && a in Next(render, raw, s, w, move).store.ready
    ensures move.MarkReady? && s.workers[w].asset == a
  {
  }

  // ---------- uploads and rows ----------

  /** Workers that uploaded a blob whose row they have not committed yet. */
  function Owing(s: State): set<WorkerId> {
    set w | w in s.workers && s.workers[w].Busy? && s.workers[w].phase.Stored?
  }

  lemma OwingStep(render: Renderer, raw: Uploads, s: State, w: WorkerId, move: Move)
    requires Enabled(s, w, move)
    ensures var s' := Next(render, raw, s, w, move);
            && (move.Upload? ==> Owing(s') == Owing(s) + {w} && w !in Owing(s))
            && (move.Commit? ==> Owing(s') == Owing(s) - {w} && w in Owing(s))
            && (!move.Upload? && !move.Commit? ==> Owing(s') <= Owing(s))
  {
  }

  /** In every run each row was paid for by an upload of the worker that committed it, so there are
      never more rows than uploads; the difference is orphaned blobs. */
  lemma {:induction false} RowsArePaidFor(render: Renderer, raw: Uploads, r: Run, k: nat)
    requires IsRun(render, raw, r) && k < |r.states|
    ensures |r.states[k].store.rows| + |Owing(r.states[k])| <= r.states[k].store.uploads
  {
    if k == 0 {
      assert Owing(r.states[0]) == {};
    } else {
      RowsArePaidFor(render, raw, r, k - 1);
      var (w, move) := r.moves[k - 1];
      OwingStep(render, raw, r.states[k - 1], w, move);
      SubsetSize(Owing(r.states[k]), if move.Upload? then Owing(r.states[k - 1]) + {w} else Owing(r.states[k - 1]));
    }
  }

  /** The only worker saw no row, so there is none. */
  ghost predicate SoloInv(s: State, w: WorkerId) {
    && w in s.workers
    && (forall v :: v in s.workers && v != w ==> s.workers[v].Resting?)
    && var wk := s.workers[w];
       var owed := if wk.Busy? && wk.phase.Stored? then 1 else 0;
       && s.store.uploads == |s.store.rows| + owed
       && (wk.Busy? ==> wk.next <= |Plan(wk.pipeline)|)
       && (wk.Busy? && wk.next < |Plan(wk.pipeline)| && (wk.phase.Missing? || wk.phase.Stored?) ==>
             RowKey(CurrentItem(wk).table, CurrentHash(wk)) !in s.store.rows)
       && (wk.Busy? && wk.next == |Plan(wk.pipeline)| ==> wk.phase.Looking?)
  }

  lemma SoloStep(render: Renderer, raw: Uploads, s: State, w: WorkerId, move: Move)
    requires SoloInv(s, w) && Enabled(s, w, move) && !move.Quit?
    ensures SoloInv(Next(render, raw, s, w, move), w)
  {
  }

  /** In a crash-free run of one worker every upload became a row: however many assets share
      content, no variant is rendered and uploaded twice. */
  lemma {:induction false} WorkSharing(render: Renderer, raw: Uploads, r: Run, k: nat, w: WorkerId)
    requires IsRun(render, raw, r) && k < |r.states| && w in r.states[0].workers
    requires forall i :: 0 <= i < |r.moves| ==> r.moves[i].0 == w && !r.moves[i].1.Quit?
    ensures SoloInv(r.states[k], w)
    ensures r.states[k].workers[w].Resting? ==> r.states[k].store.uploads == |r.states[k].store.rows|
  {
    if k > 0 {
      WorkSharing(render, raw, r, k - 1, w);
      var (v, move) := r.moves[k - 1];
      SoloStep(render, raw, r.states[k - 1], v, move);
    }
  }
}

/**
 The processing functions over a store they update in place: process_image_file with its loop over
 IMAGE_VARIANTS, and the video pipeline's ensure / link pairs.
 */
module VariantProcessing {
  import opened Postgres
  import opened Variants

  /** One item handled without interruption. */
  function ItemSpec(render: Renderer, st: Store, a: AssetId, content: Content, p: Pipeline, item: Item): Store {
    var hash := Sha256(content, item.params);
    var ensured :=
      if RowKey(item.table, hash) in st.rows then st
      else InsertRow(PutBlob(st, KeyOf(p, hash), render(content, item.params)), p, item.table, hash);
    PutLink(ensured, item.table, a, item.params.role, hash)
  }

  /** The first n items of a plan. */
  function ItemsSpec(render: Renderer, st: Store, a: AssetId, content: Content, p: Pipeline, n: nat): Store
    requires n <= |Plan(p)|
  {
    if n == 0 then st
    else ItemSpec(render, ItemsSpec(render, st, a, content, p, n - 1), a, content, p, Plan(p)[n - 1])
  }

  /** A whole file, up to the pipeline's own 'ready' write. */
  function FileSpec(render: Renderer, st: Store, a: AssetId, content: Content, p: Pipeline): Store {
    var done := ItemsSpec(render, st, a, content, p, |Plan(p)|);
    done.(ready := done.ready + {a})
  }

  // ---------- which variants a file gets ----------

  /** The variant is stored: its row was there before and is kept, or it is new, with its blob under
      this key. */
  predicate StoredAs(render: Renderer, st: Store, st': Store, table: Table, content: Content, params: Params, key: Key) {
    var row := RowKey(table, Sha256(content, params));
    && row in st'.rows
    && if row in st.rows then st'.rows[row] == st.rows[row]
       else st'.rows[row] == Row(content, params.role, params, key) && key in st'.blobs && st'.blobs[key] == render(content, params)
  }

  lemma ItemEffect(render: Renderer, st: Store, a: AssetId, content: Content, p: Pipeline, item: Item)
    ensures var st', hash := ItemSpec(render, st, a, content, p, item), Sha256(content, item.params);
            && st'.links == st.links[LinkKey(item.table, a, item.params.role) := hash]
            && st'.ready == st.ready
            && StoredAs(render, st, st', item.table, content, item.params, KeyOf(p, hash))
            && st'.rows.Keys == st.rows.Keys + {RowKey(item.table, hash)}
  {
  }

  /** Storing one variant leaves another one stored. */
  lemma StoredStays(render: Renderer, st: Store, st1: Store, a: AssetId, content: Content, p: Pipeline, item: Item, other: Item)
    requires StoredAs(render, st, st1, other.table, content, other.params, KeyOf(p, Sha256(content, other.params)))
    requires other.params != item.params
    ensures StoredAs(render, st, ItemSpec(render, st1, a, content, p, item), other.table, content, other.params,
                     KeyOf(p, Sha256(content, other.params)))
  {
  }

  /** A variant stored after others is stored in the end. */
  lemma StoredSince(render: Renderer, st: Store, st1: Store, st2: Store, table: Table, content: Content, params: Params, key: Key)
    requires StoredAs(render, st1, st2, table, content, params, key)
    requires var row := RowKey(table, Sha256(content, params)); (row in st1.rows <==> row in st.rows) && (row in st.rows ==> st1.rows[row] == st.rows[row])
    ensures StoredAs(render, st, st2, table, content, params, key)
  {
  }

  lemma RowsKept(render: Renderer, st: Store, a: AssetId, content: Content, p: Pipeline, item: Item, row: RowKey)
    requires row != RowKey(item.table, Sha256(content, item.params))
    ensures var st' := ItemSpec(render, st, a, content, p, item);
            (row in st'.rows <==> row in st.rows) && (row in st.rows ==> st'.rows[row] == st.rows[row])
  {
  }

  /** Item k of a plan is stored by the three in turn. */
  ghost predicate PlanStored(render: Renderer, st: Store, st': Store, content: Content, p: Pipeline, k: nat)
    requires k < |Plan(p)|
  {
    var item := Plan(p)[k];
    StoredAs(render, st, st', item.table, content, item.params, KeyOf(p, Sha256(content, item.params)))
  }

  lemma {:induction false} PlanIsStored(render: Renderer, st: Store, a: AssetId, content: Content, p: Pipeline, n: nat, k: nat)
    requires k < n <= |Plan(p)|
    ensures PlanStored(render, st, ItemsSpec(render, st, a, content, p, n), content, p, k)
  {
    var before := ItemsSpec(render, st, a, content, p, n - 1);
    var item, last := Plan(p)[k], Plan(p)[n - 1];
    if k < n - 1 {
      PlanIsStored(render, st, a, content, p, n - 1, k);
      PlanIsDistinct(p, k, n - 1);
      StoredStays(render, st, before, a, content, p, last, item);
    } else {
      ItemEffect(render, before, a, content, p, item);
      PlanLeavesRow(render, st, a, content, p, k, k);
      StoredSince(render, st, before, ItemSpec(render, before, a, content, p, item), item.table, content, item.params,
                  KeyOf(p, Sha256(content, item.params)));
    }
  }

  lemma PlanIsDistinct(p: Pipeline, i: nat, k: nat)
    requires i < k < |Plan(p)|
    ensures Plan(p)[i].params != Plan(p)[k].params
  {
  }

  /** The items before number k leave its row as it was. */
  lemma {:induction false} PlanLeavesRow(render: Renderer, st: Store, a: AssetId, content: Content, p: Pipeline, n: nat, k: nat)
    requires n <= k < |Plan(p)|
    ensures var st', row := ItemsSpec(render, st, a, content, p, n), RowKey(Plan(p)[k].table, Sha256(content, Plan(p)[k].params));
            (row in st'.rows <==> row in st.rows) && (row in st.rows ==> st'.rows[row] == st.rows[row])
  {
    if n > 0 {
      PlanLeavesRow(render, st, a, content, p, n - 1, k);
      PlanIsDistinct(p, n - 1, k);
      RowsKept(render, ItemsSpec(render, st, a, content, p, n - 1), a, content, p, Plan(p)[n - 1],
               RowKey(Plan(p)[k].table, Sha256(content, Plan(p)[k].params)));
    }
  }

  /** Links, marks and new rows of the first n items. */
  function PlanLinks(links: map<LinkKey, Hash>, a: AssetId, content: Content, p: Pipeline, n: nat): map<LinkKey, Hash>
    requires n <= |Plan(p)|
  {
    if n == 0 then links
    else
      var item := Plan(p)[n - 1];
      PlanLinks(links, a, content, p, n - 1)[LinkKey(item.table, a, item.params.role) := Sha256(content, item.params)]
  }

  function PlanRows(content: Content, p: Pipeline, n: nat): set<RowKey>
    requires n <= |Plan(p)|
  {
    if n == 0 then {} else PlanRows(content, p, n - 1) + {RowKey(Plan(p)[n - 1].table, Sha256(content, Plan(p)[n - 1].params))}
  }

  lemma {:induction false} PlanLinksAre(render: Renderer, st: Store, a: AssetId, content: Content, p: Pipeline, n: nat)
    requires n <= |Plan(p)|
    ensures var st' := ItemsSpec(render, st, a, content, p, n);
            st'.links == PlanLinks(st.links, a, content, p, n) && st'.ready == st.ready
  {
    if n > 0 {
      PlanLinksAre(render, st, a, content, p, n - 1);
      ItemEffect(render, ItemsSpec(render, st, a, content, p, n - 1), a, content, p, Plan(p)[n - 1]);
    }
  }

  lemma {:induction false} PlanRowsAre(render: Renderer, st: Store, a: AssetId, content: Content, p: Pipeline, n: nat)
    requires n <= |Plan(p)|
    ensures ItemsSpec(render, st, a, content, p, n).rows.Keys == st.rows.Keys + PlanRows(content, p, n)
  {
    if n > 0 {
      PlanRowsAre(render, st, a, content, p, n - 1);
      ItemEffect(render, ItemsSpec(render, st, a, content, p, n - 1), a, content, p, Plan(p)[n - 1]);
    }
  }

  /** The links of an image: three roles in the image table, and no other link changes. */
  function ImageLinks(links: map<LinkKey, Hash>, a: AssetId, content: Content): map<LinkKey, Hash> {
    links[LinkKey(ImageTable, a, "thumbnail") := Sha256(content, THUMBNAIL)]
         [LinkKey(ImageTable, a, "display_small") := Sha256(content, DISPLAY_SMALL)]
         [LinkKey(ImageTable, a, "display_large") := Sha256(content, DISPLAY_LARGE)]
  }

  /** The links of a video: a poster among the images, and two roles in the video table. */
  function VideoLinks(links: map<LinkKey, Hash>, a: AssetId, content: Content): map<LinkKey, Hash> {
    links[LinkKey(ImageTable, a, "poster") := Sha256(content, POSTER)]
         [LinkKey(VideoTable, a, "transcoded") := Sha256(content, TRANSCODED)]
         [LinkKey(VideoTable, a, "preview") := Sha256(content, PREVIEW)]
  }

  function ImageKey(content: Content, params: Params): Key { Processed(content, Sha256(content, params), "webp") }

  function VideoKey(content: Content, params: Params, ext: string): Key { Variants.Shared(Sha256(content, params), ext) }

  /** The rows of an image: no others are added, and each of the three is stored. */
  ghost predicate ImageStored(render: Renderer, st: Store, st': Store, content: Content) {
    && StoredAs(render, st, st', ImageTable, content, THUMBNAIL, ImageKey(content, THUMBNAIL))
    && StoredAs(render, st, st', ImageTable, content, DISPLAY_SMALL, ImageKey(content, DISPLAY_SMALL))
    && StoredAs(render, st, st', ImageTable, content, DISPLAY_LARGE, ImageKey(content, DISPLAY_LARGE))
    && st'.rows.Keys == st.rows.Keys + {RowKey(ImageTable, Sha256(content, THUMBNAIL)),
                                        RowKey(ImageTable, Sha256(content, DISPLAY_SMALL)),
                                        RowKey(ImageTable, Sha256(content, DISPLAY_LARGE))}
  }

  ghost predicate VideoStored(render: Renderer, st: Store, st': Store, content: Content) {
    && StoredAs(render, st, st', ImageTable, content, POSTER, VideoKey(content, POSTER, "jpg"))
    && StoredAs(render, st, st', VideoTable, content, TRANSCODED, VideoKey(content, TRANSCODED, "mp4"))
    && StoredAs(render, st, st', VideoTable, content, PREVIEW, VideoKey(content, PREVIEW, "mp4"))
    && st'.rows.Keys == st.rows.Keys + {RowKey(ImageTable, Sha256(content, POSTER)),
                                        RowKey(VideoTable, Sha256(content, TRANSCODED)),
                                        RowKey(VideoTable, Sha256(content, PREVIEW))}
  }

  lemma ImagePlan(links: map<LinkKey, Hash>, a: AssetId, content: Content)
    ensures PlanLinks(links, a, content, ImagePipeline, 3) == ImageLinks(links, a, content)
    ensures PlanRows(content, ImagePipeline, 3) ==
              {RowKey(ImageTable, Sha256(content, THUMBNAIL)), RowKey(ImageTable, Sha256(content, DISPLAY_SMALL)),
               RowKey(ImageTable, Sha256(content, DISPLAY_LARGE))}
  {
    assert Plan(ImagePipeline)[0] == Item(ImageTable, THUMBNAIL) && Plan(ImagePipeline)[1] == Item(ImageTable, DISPLAY_SMALL);
    assert Plan(ImagePipeline)[2] == Item(ImageTable, DISPLAY_LARGE);
    assert PlanLinks(links, a, content, ImagePipeline, 0) == links;
    assert PlanLinks(links, a, content, ImagePipeline, 1) == links[LinkKey(ImageTable, a, "thumbnail") := Sha256(content, THUMBNAIL)];
    assert PlanRows(content, ImagePipeline, 0) == {};
    assert PlanRows(content, ImagePipeline, 1) == {RowKey(ImageTable, Sha256(content, THUMBNAIL))};
  }

  lemma VideoPlan(links: map<LinkKey, Hash>, a: AssetId, content: Content)
    ensures PlanLinks(links, a, content, VideoPipeline, 3) == VideoLinks(links, a, content)
    ensures PlanRows(content, VideoPipeline, 3) ==
              {RowKey(ImageTable, Sha256(content, POSTER)), RowKey(VideoTable, Sha256(content, TRANSCODED)),
               RowKey(VideoTable, Sha256(content, PREVIEW))}
  {
    assert Plan(VideoPipeline)[0] == Item(ImageTable, POSTER) && Plan(VideoPipeline)[1] == Item(VideoTable, TRANSCODED);
    assert Plan(VideoPipeline)[2] == Item(VideoTable, PREVIEW);
    assert PlanLinks(links, a, content, VideoPipeline, 0) == links;
    assert PlanLinks(links, a, content, VideoPipeline, 1) == links[LinkKey(ImageTable, a, "poster") := Sha256(content, POSTER)];
    assert PlanRows(content, VideoPipeline, 0) == {};
    assert PlanRows(content, VideoPipeline, 1) == {RowKey(ImageTable, Sha256(content, POSTER))};
  }

  /** Processing an image makes exactly its three variants and links them by their roles. */
  lemma ImageFileEffect(render: Renderer, st: Store, a: AssetId, content: Content)
    ensures var st' := FileSpec(render, st, a, content, ImagePipeline);
            st'.links == ImageLinks(st.links, a, content) && st'.ready == st.ready + {a} && ImageStored(render, st, st', content)
  {
    var st3 := ItemsSpec(render, st, a, content, ImagePipeline, 3);
    PlanLinksAre(render, st, a, content, ImagePipeline, 3);
    PlanRowsAre(render, st, a, content, ImagePipeline, 3);
    ImagePlan(st.links, a, content);
    forall k | 0 <= k < 3 ensures PlanStored(render, st, st3, content, ImagePipeline, k) {
      PlanIsStored(render, st, a, content, ImagePipeline, 3, k);
    }
    assert PlanStored(render, st, st3, content, ImagePipeline, 0) && PlanStored(render, st, st3, content, ImagePipeline, 1);
    assert PlanStored(render, st, st3, content, ImagePipeline, 2);
  }

  /** Processing a video makes exactly its three variants and links them by their roles. */
  lemma VideoFileEffect(render: Renderer, st: Store, a: AssetId, content: Content)
    ensures var st' := FileSpec(render, st, a, content, VideoPipeline);
            st'.links == VideoLinks(st.links, a, content) && st'.ready == st.ready + {a} && VideoStored(render, st, st', content)
  {
    var st3 := ItemsSpec(render, st, a, content, VideoPipeline, 3);
    PlanLinksAre(render, st, a, content, VideoPipeline, 3);
    PlanRowsAre(render, st, a, content, VideoPipeline, 3);
    VideoPlan(st.links, a, content);
    forall k | 0 <= k < 3 ensures PlanStored(render, st, st3, content, VideoPipeline, k) {
      PlanIsStored(render, st, a, content, VideoPipeline, 3, k);
    }
    assert PlanStored(render, st, st3, content, VideoPipeline, 0) && PlanStored(render, st, st3, content, VideoPipeline, 1);
    assert PlanStored(render, st, st3, content, VideoPipeline, 2);
  }

  class VariantStore {
    var rows: map<RowKey, Row>
    var links: map<LinkKey, Hash>
    var blobs: map<Key, Blob>
    var uploads: nat
    var ready: set<AssetId>

    function View(): Store
      reads this
    {
      Store(rows, links, blobs, uploads, ready)
    }

    method UploadBytes(key: Key, data: Blob)
      modifies this`blobs, this`uploads
      ensures View() == PutBlob(old(View()), key, data)
    {
      blobs := blobs[key := data];
      uploads := uploads + 1;
    }

    method InsertVariant(p: Pipeline, table: Table, hash: Hash)
      modifies this`rows
      ensures View() == InsertRow(old(View()), p, table, hash)
    {
      if RowKey(table, hash) !in rows {
        rows := rows[RowKey(table, hash) := Row(hash.content, hash.params.role, hash.params, KeyOf(p, hash))];
      }
    }

    method LinkVariantToAsset(table: Table, a: AssetId, role: string, hash: Hash)
      modifies this`links
      ensures View() == PutLink(old(View()), table, a, role, hash)
    {
      links := links[LinkKey(table, a, role) := hash];
    }

    method EnsureVariantExists(render: Renderer, p: Pipeline, item: Item, hash: Hash)
      requires hash.params == item.params
      modifies this`rows, this`blobs, this`uploads
      ensures View() ==
        if RowKey(item.table, hash) in old(rows) then old(View())
        else InsertRow(PutBlob(old(View()), KeyOf(p, hash), render(hash.content, item.params)), p, item.table, hash)
    {
      if RowKey(item.table, hash) in rows {
        return;
      }
      UploadBytes(KeyOf(p, hash), render(hash.content, item.params));
      InsertVariant(p, item.table, hash);
    }

    /** The loop body of process_image_file. */
    method ProcessImageVariant(render: Renderer, a: AssetId, content: Content, item: Item)
      modifies this`rows, this`blobs, this`uploads, this`links
      ensures View() == ItemSpec(render, old(View()), a, content, ImagePipeline, item)
    {
      var hash := Sha256(content, item.params);
      var found := RowKey(item.table, hash) in rows;
      if !found {
        UploadBytes(KeyOf(ImagePipeline, hash), render(content, item.params));
        InsertVariant(ImagePipeline, item.table, hash);
      }
      LinkVariantToAsset(item.table, a, item.params.role, hash);
    }

    method ProcessImageFile(render: Renderer, a: AssetId, content: Content)
      modifies this
      ensures View() == FileSpec(render, old(View()), a, content, ImagePipeline)
      ensures links == ImageLinks(old(links), a, content) && ready == old(ready) + {a}
      ensures ImageStored(render, old(View()), View(), content)
    {
      for i := 0 to |IMAGE_VARIANTS|
        invariant View() == ItemsSpec(render, old(View()), a, content, ImagePipeline, i)
      {
        ProcessImageVariant(render, a, content, IMAGE_VARIANTS[i]);
      }
      ready := ready + {a};
      ImageFileEffect(render, old(View()), a, content);
    }

    method ProcessVariant(render: Renderer, a: AssetId, content: Content, item: Item)
      modifies this
      ensures View() == ItemSpec(render, old(View()), a, content, VideoPipeline, item)
    {
      var hash := Sha256(content, item.params);
      EnsureVariantExists(render, VideoPipeline, item, hash);
      LinkVariantToAsset(item.table, a, item.params.role, hash);
    }

    method ProcessVideoFile(render: Renderer, a: AssetId, content: Content)
      modifies this
      ensures View() == FileSpec(render, old(View()), a, content, VideoPipeline)
      ensures links == VideoLinks(old(links), a, content) && ready == old(ready) + {a}
      ensures VideoStored(render, old(View()), View(), content)
    {
      ghost var before := View();
      ProcessVariant(render, a, content, VIDEO_VARIANTS[0]);
      assert View() == ItemsSpec(render, before, a, content, VideoPipeline, 1);
      ProcessVariant(render, a, content, VIDEO_VARIANTS[1]);
      assert View() == ItemsSpec(render, before, a, content, VideoPipeline, 2);
      ProcessVariant(render, a, content, VIDEO_VARIANTS[2]);
      assert View() == ItemsSpec(render, before, a, content, VideoPipeline, 3);
      ready := ready + {a};
      VideoFileEffect(render, before, a, content);
    }
  }

  // ---------- an uninterrupted call is a run of the interleaved system ----------

  /** One worker gets from (st, wk) to (st', wk') by moves of its own. */
  ghost predicate Path(render: Renderer, raw: Uploads, st: Store, wk: Worker, moves: seq<Move>, st': Store, wk': Worker)
    decreases |moves|
  {
    if moves == [] then st' == st && wk' == wk
    else
      && CanMove(wk, moves[0]) && !moves[0].Quit?
      && var (st1, wk1) := MoveStep(render, raw, st, wk, moves[0]);
         Path(render, raw, st1, wk1, moves[1..], st', wk')
  }

  ghost predicate Leads(render: Renderer, raw: Uploads, st: Store, wk: Worker, st': Store, wk': Worker) {
    exists moves :: Path(render, raw, st, wk, moves, st', wk')
  }

  lemma Before(render: Renderer, raw: Uploads, st: Store, wk: Worker, move: Move, st1: Store, wk1: Worker, st': Store, wk': Worker)
    requires CanMove(wk, move) && !move.Quit? && MoveStep(render, raw, st, wk, move) == (st1, wk1)
    requires Leads(render, raw, st1, wk1, st', wk')
    ensures Leads(render, raw, st, wk, st', wk')
  {
    var moves :| Path(render, raw, st1, wk1, moves, st', wk');
    assert ([move] + moves)[1..] == moves;
    assert Path(render, raw, st, wk, [move] + moves, st', wk');
  }

  /** One item, then whatever follows. */
  lemma ItemLeads(render: Renderer, raw: Uploads, st: Store, wk: Worker, st': Store, wk': Worker)
    requires wk.Busy? && wk.phase.Looking? && wk.next < |Plan(wk.pipeline)|
    requires Leads(render, raw, ItemSpec(render, st, wk.asset, wk.content, wk.pipeline, CurrentItem(wk)), NextItem(wk), st', wk')
    ensures Leads(render, raw, st, wk, st', wk')
  {
    var item, hash := CurrentItem(wk), CurrentHash(wk);
    var linked := ItemSpec(render, st, wk.asset, wk.content, wk.pipeline, item);
    var present, missing, stored := wk.(phase := Present), wk.(phase := Missing), wk.(phase := Stored);
    if RowKey(item.table, hash) in st.rows {
      Before(render, raw, st, present, Link, linked, NextItem(wk), st', wk');
      Before(render, raw, st, wk, Look, st, present, st', wk');
    } else {
      var put := PutBlob(st, KeyOf(wk.pipeline, hash), render(wk.content, item.params));
      if wk.pipeline.ImagePipeline? {
        Before(render, raw, put, stored, Commit, linked, NextItem(wk), st', wk');
      } else {
        var inserted := InsertRow(put, wk.pipeline, item.table, hash);
        Before(render, raw, inserted, present, Link, linked, NextItem(wk), st', wk');
        Before(render, raw, put, stored, Commit, inserted, present, st', wk');
      }
      Before(render, raw, st, missing, Upload, put, stored, st', wk');
      Before(render, raw, st, wk, Look, st, missing, st', wk');
    }
  }

  lemma {:induction false} ItemsLead(render: Renderer, raw: Uploads, st: Store, a: AssetId, p: Pipeline, i: nat)
    requires i <= |Plan(p)|
    ensures Leads(render, raw, ItemsSpec(render, st, a, raw(a), p, i), Busy(a, raw(a), p, i, Looking),
                  FileSpec(render, st, a, raw(a), p), Resting)
    decreases |Plan(p)| - i
  {
    var here, end := ItemsSpec(render, st, a, raw(a), p, i), FileSpec(render, st, a, raw(a), p);
    var wk := Busy(a, raw(a), p, i, Looking);
    if i == |Plan(p)| {
      assert Path(render, raw, end, Resting, [], end, Resting);
      Before(render, raw, here, wk, MarkReady, end, Resting, end, Resting);
    } else {
      ItemsLead(render, raw, st, a, p, i + 1);
      ItemLeads(render, raw, here, wk, end, Resting);
    }
  }

  /** Processing a file in one go is a run of the interleaved system by one worker without a crash:
      it begins resting, ends resting, and leaves the store that FileSpec computes. */
  lemma FileIsARun(render: Renderer, raw: Uploads, st: Store, a: AssetId, p: Pipeline)
    ensures Leads(render, raw, st, Resting, FileSpec(render, st, a, raw(a), p), Resting)
  {
    ItemsLead(render, raw, st, a, p, 0);
    Before(render, raw, st, Resting, Begin(a, p), st, Busy(a, raw(a), p, 0, Looking), FileSpec(render, st, a, raw(a), p), Resting);
  }

  /** Processing an asset again, or another asset with the same bytes, uploads and inserts nothing. */
  lemma SecondTimeIsFree(render: Renderer, raw: Uploads, st: Store, a: AssetId, b: AssetId, p: Pipeline)
    requires raw(a) == raw(b)
    ensures var once := FileSpec(render, st, a, raw(a), p);
            var twice := FileSpec(render, once, b, raw(b), p);
            twice.uploads == once.uploads && twice.rows == once.rows && twice.blobs == once.blobs
  {
    var once := FileSpec(render, st, a, raw(a), p);
    forall i | 0 <= i < |Plan(p)| ensures RowKey(Plan(p)[i].table, Sha256(raw(a), Plan(p)[i].params)) in once.rows {
      RowsAfter(render, st, a, raw(a), p, |Plan(p)|, i);
    }
    NothingNew(render, once, b, raw(b), p, |Plan(p)|);
  }

  lemma {:induction false} RowsAfter(render: Renderer, st: Store, a: AssetId, c: Content, p: Pipeline, n: nat, i: nat)
    requires i < n <= |Plan(p)|
    ensures RowKey(Plan(p)[i].table, Sha256(c, Plan(p)[i].params)) in ItemsSpec(render, st, a, c, p, n).rows
  {
    if i < n - 1 {
      RowsAfter(render, st, a, c, p, n - 1, i);
    }
  }

  lemma {:induction false} NothingNew(render: Renderer, st: Store, a: AssetId, c: Content, p: Pipeline, n: nat)
    requires n <= |Plan(p)|
    requires forall i :: 0 <= i < |Plan(p)| ==> RowKey(Plan(p)[i].table, Sha256(c, Plan(p)[i].params)) in st.rows
    ensures var st' := ItemsSpec(render, st, a, c, p, n);
            st'.rows == st.rows && st'.blobs == st.blobs && st'.uploads == st.uploads
  {
    if n > 0 {
      NothingNew(render, st, a, c, p, n - 1);
    }
  }
}
