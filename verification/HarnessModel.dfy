/** The managed Comfy harness: its durable rows, its journal and the effect of each critical section.

    Every function below named `...Step` is the effect of one section executed under the server mutex.
    What lies outside the program (HTTP replies, file-system outcomes, fresh random tokens) is an argument. */
module HarnessModel {

  datatype Option<+T> = None | Some(value: T)

  datatype Chunk = Chunk(id: string, prompt: string)

  datatype Phase =
    | Running | Cancelling | Uncertain | Cancelled | Completed | Failed | Yielded | Checkpointed
    | UnknownPhase(name: string)

  datatype Submission = NoSubmission | Submitting | Accepted | Unknown | UnknownSubmission(name: string)

  datatype Request = NoRequest | YieldRequest | CheckpointRequest | CancelRequest | UnknownRequest(name: string)

  /** The error text of a row: free text, or one of the texts the harness writes itself. */
  datatype Note =
    | NoNote | Said(text: string)
    | RestartCustody | CompletionLost | CustodyUnresolved | IntentLost | CommitLost | RefUnavailable
    | CancelLost | IdentityUnknown | LateAnswer | IdentityLost | RequestNotBuilt | Fenced

  datatype Execution = Execution(
    id: string, workloadId: string, key: string, planHash: string, payloadHash: string,
    chunks: seq<Chunk>, next: int, prompt: string, submittingChunk: string, submission: Submission,
    epoch: nat, phase: Phase, requested: Request,
    ref: string, refChunk: int, refEpoch: nat,
    histories: map<string, string>, error: Note)

  type Rows = map<string, Execution>

  /** The parts of the environment the harness treats as functions: the payload digest, the JSON
      validators and the encoded size of a state file, with the configured byte limit. */
  datatype World = World(
    hash: seq<Chunk> -> string,
    promptObject: string -> bool,
    validJson: string -> bool,
    size: Rows -> nat,
    limit: nat)

  // ---------------------------------------------------------------- chunk lists

  /** `prompt` is None when the field is absent, empty or JSON null. */
  datatype Payload = Malformed | Envelope(prompt: Option<string>, managed: seq<Chunk>)

  function Decimal(n: nat): string {
    (if n < 10 then "" else Decimal(n / 10)) + [['0', '1', '2', '3', '4', '5', '6', '7', '8', '9'][n % 10]]
  }

  function Padded(digits: string): string
    decreases 4 - |digits|
  {
    if |digits| >= 4 then digits else Padded("0" + digits)
  }

  /** The name given to the chunk at a zero-based index when the payload leaves it blank. */
  function DefaultName(index: nat): string {
    "chunk-" + Padded(Decimal(index + 1))
  }

  function NamedChunk(chunk: Chunk, index: nat): Chunk {
    if chunk.id == "" then chunk.(id := DefaultName(index)) else chunk
  }

  function Named(chunks: seq<Chunk>): seq<Chunk> {
    seq(|chunks|, i requires 0 <= i < |chunks| => NamedChunk(chunks[i], i))
  }

  ghost predicate WellFormedChunks(w: World, chunks: seq<Chunk>) {
    && chunks != []
    && (forall i :: 0 <= i < |chunks| ==> chunks[i].id != "" && w.promptObject(chunks[i].prompt))
    && (forall i, j :: 0 <= i < j < |chunks| ==> chunks[i].id != chunks[j].id)
  }

  function PayloadChunks(payload: Payload): seq<Chunk>
    requires payload.Envelope?
  {
    if payload.managed == [] && payload.prompt.Some?
    then [Chunk(DefaultName(0), payload.prompt.value)]
    else payload.managed
  }

  ghost function ParseChunks(w: World, payload: Payload): Option<seq<Chunk>> {
    if payload.Malformed? then None
    else
      var named := Named(PayloadChunks(payload));
      if WellFormedChunks(w, named) then Some(named) else None
  }

  // ---------------------------------------------------------------- durable rows

  predicate NeedsRecovery(x: Execution) {
    x.phase == Running || x.phase == Cancelling || x.submission != NoSubmission || x.prompt != ""
  }

  function Recover(x: Execution): Execution {
    if NeedsRecovery(x) then x.(phase := Uncertain, error := RestartCustody) else x
  }

  function RecoverAll(rows: Rows): Rows {
    map id | id in rows :: Recover(rows[id])
  }

  predicate HexDigit(c: char) {
    '0' <= c <= '9' || 'a' <= c <= 'f' || 'A' <= c <= 'F'
  }

  const REF_PREFIX := "checkpoint://"

  predicate ValidRef(ref: string) {
    && |ref| == |REF_PREFIX| + 64
    && ref[..|REF_PREFIX|] == REF_PREFIX
    && forall i :: |REF_PREFIX| <= i < |ref| ==> HexDigit(ref[i])
  }

  predicate Resumable(phase: Phase) {
    phase == Yielded || phase == Checkpointed
  }

  /** The payload-hash upgrade for terminal rows written before payload hashing. */
  function UpgradeHash(w: World, x: Execution): Execution {
    if x.payloadHash == "" && (x.phase == Completed || x.phase == Failed || x.phase == Cancelled)
    then x.(payloadHash := w.hash(x.chunks)) else x
  }

  /** Every check the loader applies to one row, after the hash upgrade. */
  ghost predicate RowLoads(w: World, x: Execution) {
    && x.id != "" && x.key != ""
    && 0 <= x.next <= |x.chunks| && |x.histories| == x.next
    && ParseChunks(w, Envelope(None, x.chunks)) == Some(x.chunks)
    && (forall p :: p in x.histories ==> p != "" && w.validJson(x.histories[p]))
    && x.payloadHash == w.hash(x.chunks)
    && !x.phase.UnknownPhase?
    && !x.submission.UnknownSubmission?
    && (x.submission != NoSubmission ==> x.next < |x.chunks| && x.submittingChunk == x.chunks[x.next].id)
    && (x.prompt != "" ==> x.submission == Accepted || x.submission == Unknown)
    && (x.phase == Completed ==> x.next == |x.chunks|)
    && (if x.ref != "" then
          Resumable(x.phase) && ValidRef(x.ref) && x.refChunk == x.next && x.refEpoch != 0 && x.refEpoch == x.epoch
        else x.refChunk == 0 && x.refEpoch == 0)
    && (Resumable(x.phase) ==> x.ref != "")
    && (x.phase == Cancelling ==> x.requested == CancelRequest)
  }

  ghost predicate DistinctKeys(rows: Rows) {
    forall a, b :: a in rows && b in rows && rows[a].key == rows[b].key ==> a == b
  }

  ghost predicate Loads(w: World, rows: Rows) {
    && (forall id :: id in rows ==> rows[id].id == id && RowLoads(w, UpgradeHash(w, rows[id])))
    && DistinctKeys(rows)
  }

  function LoadedRow(w: World, x: Execution): Execution {
    Recover(UpgradeHash(w, x))
  }

  function LoadedRows(w: World, rows: Rows): Rows {
    map id | id in rows :: LoadedRow(w, rows[id])
  }

  predicate Rewrites(w: World, x: Execution) {
    UpgradeHash(w, x) != x || NeedsRecovery(UpgradeHash(w, x))
  }

  // ---------------------------------------------------------------- the journal

  /** Outcome of writing the state file: durable, failed before the rename, or failed after it. */
  datatype Write = Durable | LostBeforeRename | LostAfterRename

  predicate Fits(w: World, rows: Rows) {
    w.size(rows) <= w.limit && w.size(RecoverAll(rows)) <= w.limit
  }

  /** `images` are the file contents a crash may leave behind. */
  function Persist(w: World, images: set<Rows>, rows: Rows, o: Write): (r: (bool, set<Rows>)) {
    if !Fits(w, rows) then (false, images)
    else match o
      case Durable => (true, {rows})
      case LostBeforeRename => (false, images)
      case LostAfterRename => (false, images + {rows})
  }

  // ---------------------------------------------------------------- server state

  /** One submission: chunk number `chunk` of the execution `id` created under idempotency key `key`. */
  datatype Claim = Claim(id: string, key: string, chunk: nat)

  datatype Outcome = Succeeded(prompt: string, record: string) | ChunkFailure(message: Note) | OtherError(message: Note)

  /** Where a run goroutine stands between two critical sections. */
  datatype Pc =
    | Top
    | Submit(chunk: nat)                    // intent recorded, request not sent
    | Await(chunk: nat)                     // request sent, no reply read
    | Poll(chunk: nat, prompt: string)      // acceptance recorded, history polled
    | Result(chunk: nat, outcome: Outcome)  // chunk call returned
    | Gone                                  // returned, active count not yet lowered

  /** What the outside has seen, kept for the statements only. */
  datatype Past = Past(
    claimed: set<Claim>,          // chunks whose submission intent was durably recorded
    posts: seq<Claim>,            // requests sent to Comfy, in order
    origin: map<string, Claim>,   // prompt id -> the request it answers
    refs: map<string, string>,    // checkpoint reference -> execution it was issued for
    resumed: seq<string>)         // references that launched a run, in order

  type RunId = (string, nat)

  /** `bare` names the rows whose output map is nil in memory, which no file records. `stuck` means that a goroutine
      died holding the lock: nobody will ever take it again. */
  datatype State = State(
    up: bool, closed: bool, rows: Rows, keys: map<string, string>,
    runs: map<RunId, Pc>, probes: set<RunId>, stops: set<RunId>,
    images: set<Rows>, past: Past, bare: set<string>, stuck: bool)

  const INIT := State(false, false, map[], map[], map[], {}, {}, {map[]}, Past({}, [], map[], map[], []), {}, false)

  predicate NoLiveRun(s: State, id: string) {
    forall r :: r in s.runs ==> r.0 != id
  }

  /** Store `candidate` and persist; when the write fails the row becomes `fallback`. */
  function TryRow(w: World, s: State, id: string, candidate: Execution, fallback: Execution, o: Write): (bool, State) {
    var (ok, images) := Persist(w, s.images, s.rows[id := candidate], o);
    (ok, s.(rows := s.rows[id := if ok then candidate else fallback], images := images))
  }

  /** The row was put back from its JSON copy, in which an empty output map is omitted and so decoded as nil. */
  function PutBack(s: State, id: string): State {
    s.(bare := if id in s.rows && s.rows[id].histories == map[] then s.bare + {id} else s.bare - {id})
  }

  /** As `TryRow`, but the fallback is made from a copy of the row taken before the change. */
  function TryCopy(w: World, s: State, id: string, candidate: Execution, fallback: Execution, o: Write): (bool, State) {
    var (ok, t) := TryRow(w, s, id, candidate, fallback, o);
    (ok, if ok then t else PutBack(t, id))
  }

  /** Persist the current rows and ignore the result. */
  function Flush(w: World, s: State, o: Write): State {
    s.(images := Persist(w, s.images, s.rows, o).1)
  }

  function SetRun(s: State, r: RunId, pc: Pc): State {
    s.(runs := s.runs[r := pc])
  }

  function Doubtful(x: Execution, error: Note): Execution {
    x.(phase := Uncertain, error := error)
  }

  // ---------------------------------------------------------------- start and resume

  datatype StartRequest = StartRequest(
    versionOk: bool, workloadId: string, key: string, payload: Payload, planHash: string, ref: string)

  datatype Reply = BadRequest | Conflict | Unavailable | Internal | Accept | Ok | NotFound

  function NewExecution(w: World, q: StartRequest, chunks: seq<Chunk>, id: string): Execution {
    Execution(id, q.workloadId, q.key, q.planHash, w.hash(chunks), chunks, 0, "", "", NoSubmission,
              1, Running, NoRequest, "", 0, 0, map[], NoNote)
  }

  function Resumed(x: Execution): Execution {
    x.(phase := Running, requested := NoRequest, error := NoNote, submission := NoSubmission, submittingChunk := "",
       ref := "", refChunk := 0, refEpoch := 0, epoch := x.epoch + 1)
  }

  predicate SameWork(w: World, q: StartRequest, chunks: seq<Chunk>, x: Execution) {
    x.workloadId == q.workloadId && x.planHash == q.planHash && x.payloadHash == w.hash(chunks)
  }

  function ResumeStep(w: World, s: State, x: Execution, o: Write): (Reply, State) {
    var (ok, t) := TryCopy(w, s, x.id, Resumed(x), x, o);
    if !ok then (Internal, t)
    else (Reply.Ok, SetRun(t, (x.id, x.epoch + 1), Top).(past := t.past.(resumed := t.past.resumed + [x.ref])))
  }

  function CreateStep(w: World, s: State, x: Execution, o: Write): (Reply, State) {
    var (ok, images) := Persist(w, s.images, s.rows[x.id := x], o);
    if !ok then (Internal, s.(images := images))
    else (Accept, SetRun(s.(rows := s.rows[x.id := x], keys := s.keys[x.key := x.id], images := images), (x.id, 1), Top))
  }

  ghost function StartStep(w: World, s: State, q: StartRequest, newId: string, o: Write): (Reply, State) {
    var parsed := ParseChunks(w, q.payload);
    if !q.versionOk || q.workloadId == "" || q.key == "" || parsed.None? then (BadRequest, s)
    else if s.closed then (Unavailable, s)
    else if q.key in s.keys then
      if s.keys[q.key] !in s.rows then (Conflict, s)
      else
        var x := s.rows[s.keys[q.key]];
        if !SameWork(w, q, parsed.value, x) || (q.ref != "" && q.ref != x.ref) then (Conflict, s)
        else if !Resumable(x.phase) then (Reply.Ok, s)
        else if q.ref == "" then (Conflict, s)
        else ResumeStep(w, s, x, o)
    else if q.ref != "" then (Conflict, s)
    else CreateStep(w, s, NewExecution(w, q, parsed.value, newId), o)
  }

  // ---------------------------------------------------------------- yield, checkpoint, cancel

  function BoundaryStep(w: World, s: State, id: string, want: Request, o: Write): (Reply, State) {
    if id !in s.rows then (NotFound, s)
    else
      var x := s.rows[id];
      if (want == YieldRequest && x.phase == Yielded) || (want == CheckpointRequest && x.phase == Checkpointed) then (Reply.Ok, s)
      else if x.phase != Running then (Conflict, s)
      else
        var (ok, t) := TryCopy(w, s, id, x.(requested := want), x, o);
        (if ok then Accept else Internal, t)
  }

  /** The reply `Accept` means the handler left the lock to probe or stop Comfy. */
  function CancelStep(w: World, s: State, id: string, o: Write): (Reply, State) {
    if id !in s.rows then (NotFound, s)
    else
      var x := s.rows[id];
      if x.phase in {Cancelled, Completed, Failed, Yielded, Checkpointed} then (Reply.Ok, s)
      else if x.submission == NoSubmission && x.prompt == "" then
        var c := x.(phase := Cancelled, requested := NoRequest, error := NoNote, epoch := x.epoch + 1);
        var (ok, t) := TryRow(w, s, id, c, Doubtful(c, CancelLost), o);
        (if ok then Reply.Ok else Internal, t)
      else if x.submission == Submitting || x.submission == Unknown || x.prompt == "" then
        if NoLiveRun(s, id) then (Accept, s.(probes := s.probes + {(id, x.epoch)}))
        else UnprovenStep(w, s, id, o)
      else
        var c := x.(phase := Cancelling, requested := CancelRequest, epoch := x.epoch + 1);
        var (ok, t) := TryCopy(w, s, id, c, x, o);
        if ok then (Accept, t.(stops := t.stops + {(id, x.epoch + 1)})) else (Internal, t)
  }

  function UnprovenStep(w: World, s: State, id: string, o: Write): (Reply, State)
    requires id in s.rows
  {
    var x := s.rows[id];
    var c := Doubtful(x, IdentityUnknown).(epoch := x.epoch + 1);
    var (ok, t) := TryRow(w, s, id, c, Doubtful(c, CancelLost), o);
    (if ok then Conflict else Internal, t)
  }

  /** Second half of a cancellation that left the lock to ask whether Comfy is idle. */
  function ProbedStep(w: World, s: State, id: string, epoch: nat, idle: bool, o: Write): (Reply, State) {
    if id !in s.rows then (NotFound, s)
    else
      var x := s.rows[id];
      if idle && x.epoch == epoch && NoLiveRun(s, id) && x.phase != Cancelled && x.phase != Completed && x.phase != Failed then
        var c := x.(phase := Cancelled, requested := NoRequest, error := NoNote, submission := NoSubmission,
                    submittingChunk := "", prompt := "", epoch := x.epoch + 1);
        var (ok, t) := TryCopy(w, s, id, c, x, o);
        (if ok then Reply.Ok else Internal, t)
      else UnprovenStep(w, s, id, o)
  }

  /** Second half of a cancellation that left the lock to delete the queued prompt. */
  function StoppedStep(w: World, s: State, id: string, epoch: nat, failure: Option<Note>, o: Write): (Reply, State) {
    if id !in s.rows || s.rows[id].epoch != epoch || s.rows[id].phase != Cancelling then (Conflict, s)
    else
      var x := s.rows[id];
      if failure.Some? then
        var d := Doubtful(x, failure.value);
        (Conflict, TryRow(w, s, id, d, d, o).1)
      else
        var c := x.(phase := Cancelled, requested := NoRequest, prompt := "", submission := NoSubmission,
                    submittingChunk := "", error := NoNote);
        var (ok, t) := TryCopy(w, s, id, c, x, o);
        (if ok then Reply.Ok else Internal, t)
  }

  // ---------------------------------------------------------------- the run loop

  predicate Current(s: State, r: RunId) {
    r.0 in s.rows && s.rows[r.0].epoch == r.1 && s.rows[r.0].phase == Running
  }

  /** Try to store `c`, fall back to `f`, and move the goroutine on. */
  function TryOnce(w: World, s: State, r: RunId, c: Execution, f: Execution, pc: Pc, o: Write): State {
    SetRun(TryCopy(w, s, r.0, c, f, o).1, r, pc)
  }

  /** As above, but a failed write is followed by one unchecked write of the fallback. */
  function TryTwice(w: World, s: State, r: RunId, c: Execution, f: Execution, good: Pc, bad: Pc, o1: Write, o2: Write): (bool, State) {
    var (ok, t) := TryCopy(w, s, r.0, c, f, o1);
    (ok, if ok then SetRun(t, r, good) else SetRun(Flush(w, t, o2), r, bad))
  }

  /** Store a row, write it without looking at the result, and move the goroutine on. */
  function StoreAnyway(w: World, s: State, r: RunId, x: Execution, pc: Pc, o: Write): State {
    SetRun(Flush(w, s.(rows := s.rows[r.0 := x]), o), r, pc)
  }

  function WithIntent(x: Execution): Execution
    requires 0 <= x.next < |x.chunks|
  {
    x.(submittingChunk := x.chunks[x.next].id, submission := Submitting)
  }

  /** Loop head: complete, refuse an unresolved submission, or record the next submission intent. */
  function TopStep(w: World, s: State, r: RunId, o1: Write, o2: Write): State {
    if !Current(s, r) then SetRun(s, r, Gone)
    else
      var x := s.rows[r.0];
      if x.next >= |x.chunks| then
        TryTwice(w, s, r, x.(phase := Completed), Doubtful(x, CompletionLost), Gone, Gone, o1, o2).1
      else if x.next < 0 || x.submission != NoSubmission || x.prompt != "" then
        StoreAnyway(w, s, r, Doubtful(x, CustodyUnresolved), Gone, o1)
      else
        var (ok, t) := TryTwice(w, s, r, WithIntent(x), Doubtful(x, IntentLost), Submit(x.next), Gone, o1, o2);
        if ok then t.(past := t.past.(claimed := t.past.claimed + {Claim(r.0, x.key, x.next)})) else t
  }

  /** The request leaves for Comfy; `sent` is false when it could not even be built. */
  function PostStep(s: State, r: RunId, chunk: nat, sent: bool): State {
    if r.0 !in s.rows then s
    else if !sent then SetRun(s, r, Result(chunk, OtherError(RequestNotBuilt)))
    else SetRun(s, r, Await(chunk)).(past := s.past.(posts := s.past.posts + [Claim(r.0, s.rows[r.0].key, chunk)]))
  }

  /** No usable reply: the submission may or may not have been accepted. */
  function AmbiguousStep(w: World, s: State, r: RunId, chunk: nat, cause: Note, o: Write): State {
    var pc := Result(chunk, OtherError(cause));
    if r.0 in s.rows && s.rows[r.0].epoch == r.1 && s.rows[r.0].submission == Submitting then
      var d := Doubtful(s.rows[r.0], cause);
      TryOnce(w, s, r, d.(submission := Unknown), d, pc, o)
    else SetRun(s, r, pc)
  }

  function Learned(s: State, r: RunId, chunk: nat, p: string): State
    requires r.0 in s.rows
  {
    s.(past := s.past.(origin := s.past.origin[p := Claim(r.0, s.rows[r.0].key, chunk)]))
  }

  /** Comfy answered the request of `chunk` with prompt id `p`. */
  function AcceptedStep(w: World, s: State, r: RunId, chunk: nat, p: string, o1: Write, o2: Write): State {
    if r.0 !in s.rows || chunk >= |s.rows[r.0].chunks| then s
    else
      var x := s.rows[r.0];
      var t := Learned(s, r, chunk, p);
      var here := x.chunks[chunk].id;
      if x.epoch == r.1 && x.submission == Submitting && x.submittingChunk == here then
        TryTwice(w, t, r, x.(prompt := p, submission := Accepted), Doubtful(x, IdentityLost).(prompt := p, submission := Unknown),
                 Poll(chunk, p), Result(chunk, OtherError(IdentityLost)), o1, o2).1
      else if x.submittingChunk == here && x.prompt == "" then
        StoreAnyway(w, t, r, x.(prompt := p, submission := Unknown, error := LateAnswer), Result(chunk, OtherError(Fenced)), o1)
      else SetRun(t, r, Result(chunk, OtherError(Fenced)))
  }

  function Advanced(x: Execution, p: string, record: string): Execution {
    x.(histories := x.histories[p := record], next := x.next + 1, prompt := "", submittingChunk := "", submission := NoSubmission)
  }

  function AtBoundary(x: Execution, ref: string): Execution {
    x.(ref := ref, refChunk := x.next, refEpoch := x.epoch,
       phase := if x.requested == CheckpointRequest then Checkpointed else Yielded, requested := NoRequest)
  }

  function WithFailure(x: Execution, m: Note): Execution {
    x.(phase := Failed, error := m, submission := NoSubmission, submittingChunk := "", prompt := "")
  }

  /** A chunk succeeded: advance, stopping at the boundary a yield or checkpoint asked for. */
  function CommitStep(w: World, s: State, r: RunId, a: Execution, ref: Option<string>, o1: Write, o2: Write): State
    requires r.0 in s.rows
  {
    var x := s.rows[r.0];
    if x.requested != CheckpointRequest && x.requested != YieldRequest then
      TryTwice(w, s, r, a, Doubtful(x, CommitLost), Top, Gone, o1, o2).1
    else if ref.None? then
      PutBack(StoreAnyway(w, s, r, Doubtful(x, RefUnavailable), Gone, o1), r.0)
    else
      var t := s.(past := s.past.(refs := s.past.refs[ref.value := r.0]));
      TryTwice(w, t, r, AtBoundary(a, ref.value), Doubtful(x, CommitLost), Gone, Gone, o1, o2).1
  }

  /** Bottom half of the loop: apply what became of the chunk. `ref` is a fresh reference, if one could be made.
      Storing the output in a nil map panics under the lock, and the deferred exit of the goroutine then waits for it. */
  function ResultStep(w: World, s: State, r: RunId, outcome: Outcome, ref: Option<string>, o1: Write, o2: Write): State {
    if !Current(s, r) then SetRun(s, r, Gone)
    else
      var x := s.rows[r.0];
      match outcome
      case ChunkFailure(m) => TryOnce(w, s, r, WithFailure(x, m), Doubtful(x, m).(submission := Unknown), Gone, o1)
      case OtherError(m) => TryOnce(w, s, r, Doubtful(x, m).(submission := Unknown), Doubtful(x, m), Gone, o1)
      case Succeeded(p, record) => if r.0 in s.bare then s.(stuck := true) else CommitStep(w, s, r, Advanced(x, p, record), ref, o1, o2)
  }

  // ---------------------------------------------------------------- shutdown, crash, restart

  function CrashStep(s: State): State {
    s.(up := false, closed := false, rows := map[], keys := map[], runs := map[], probes := {}, stops := {}, bare := {}, stuck := false)
  }

  function KeySet(rows: Rows): set<string> {
    set id | id in rows :: rows[id].key
  }

  ghost function Holder(rows: Rows, key: string): string
    requires key in KeySet(rows)
  {
    var id :| id in rows && rows[id].key == key; id
  }

  /** Idempotency key -> execution holding it. */
  ghost function KeysOf(rows: Rows): map<string, string> {
    map key | key in KeySet(rows) :: Holder(rows, key)
  }

  /** A new process reads the file it finds; a row that needs recovery makes it rewrite the file first. */
  ghost function RestartStep(w: World, s: State, image: Rows, o: Write): State {
    if !Loads(w, image) then s
    else
      var rows := LoadedRows(w, image);
      var booted := s.(up := true, closed := false, rows := rows, keys := KeysOf(rows), runs := map[], probes := {}, stops := {}, bare := {}, stuck := false);
      if exists id :: id in image && Rewrites(w, image[id]) then
        var (ok, images) := Persist(w, s.images, rows, o);
        if ok then booted.(images := images) else s.(images := images)
      else booted
  }

  // ---------------------------------------------------------------- runs of the whole system

  datatype Event =
    | Start(request: StartRequest, newId: string, o: Write)
    | Boundary(id: string, want: Request, o: Write)
    | Cancel(id: string, o: Write)
    | Probed(id: string, epoch: nat, idle: bool, o: Write)
    | Stopped(id: string, epoch: nat, failure: Option<Note>, o: Write)
    | RunTop(r: RunId, o1: Write, o2: Write)
    | RunPost(r: RunId, sent: bool)
    | RunAmbiguous(r: RunId, cause: Note, o: Write)
    | RunRejected(r: RunId, message: Note)
    | RunAccepted(r: RunId, p: string, o1: Write, o2: Write)
    | RunPolled(r: RunId, outcome: Outcome)
    | RunResult(r: RunId, ref: Option<string>, o1: Write, o2: Write)
    | RunExit(r: RunId)
    | Close
    | Crash
    | Restart(image: Rows, o: Write)

  /** What the environment guarantees: random execution ids and checkpoint references are fresh, Comfy never
      repeats a prompt id, a polled record is valid JSON of the polled prompt, and a restart reads a file that
      the writes so far could have left. */
  ghost predicate Possible(w: World, s: State, e: Event) {
    match e
    case Start(_, newId, _) => newId != "" && newId !in s.rows
    case Boundary(_, want, _) => want == YieldRequest || want == CheckpointRequest
    case RunAccepted(_, p, _, _) => p != "" && p !in s.past.origin
    case RunPolled(r, outcome) =>
      outcome.Succeeded? ==> r in s.runs && s.runs[r].Poll? && outcome.prompt == s.runs[r].prompt && w.validJson(outcome.record)
    case RunResult(_, ref, _, _) => ref.Some? ==> ValidRef(ref.value) && ref.value !in s.past.refs
    case Restart(image, _) => image in s.images
    case _ => true
  }

  /** An event that needs the server lock. */
  predicate Locks(e: Event) {
    !(e.RunPost? || e.RunRejected? || e.RunPolled? || e.Crash? || e.Restart?)
  }

  /** Effect of one event; an event that is not enabled changes nothing. */
  ghost function Apply(w: World, s: State, e: Event): State {
    if !Possible(w, s, e) then s
    else if e.Restart? then (if s.up then s else RestartStep(w, s, e.image, e.o))
    else if e.Crash? then CrashStep(s)
    else if !s.up || (s.stuck && Locks(e)) then s
    else match e
      case Start(q, newId, o) => StartStep(w, s, q, newId, o).1
      case Boundary(id, want, o) => BoundaryStep(w, s, id, want, o).1
      case Cancel(id, o) => CancelStep(w, s, id, o).1
      case Probed(id, epoch, idle, o) => if (id, epoch) in s.probes then ProbedStep(w, s, id, epoch, idle, o).1 else s
      case Stopped(id, epoch, failure, o) => if (id, epoch) in s.stops then StoppedStep(w, s, id, epoch, failure, o).1 else s
      case Close => s.(closed := true)
      case _ => RunApply(w, s, e)
  }

  predicate RunEvent(e: Event) {
    e.RunTop? || e.RunPost? || e.RunAmbiguous? || e.RunRejected? || e.RunAccepted? || e.RunPolled? || e.RunResult? || e.RunExit?
  }

  /** Effect of an event of one run goroutine. */
  function RunApply(w: World, s: State, e: Event): State {
    if !RunEvent(e) || e.r !in s.runs then s
    else
      var pc := s.runs[e.r];
      match e
      case RunTop(r, o1, o2) => if pc.Top? then TopStep(w, s, r, o1, o2) else s
      case RunPost(r, sent) => if pc.Submit? then PostStep(s, r, pc.chunk, sent) else s
      case RunAmbiguous(r, cause, o) => if pc.Await? then AmbiguousStep(w, s, r, pc.chunk, cause, o) else s
      case RunRejected(r, m) => if pc.Await? then SetRun(s, r, Result(pc.chunk, ChunkFailure(m))) else s
      case RunAccepted(r, p, o1, o2) => if pc.Await? then AcceptedStep(w, s, r, pc.chunk, p, o1, o2) else s
      case RunPolled(r, outcome) => if pc.Poll? then SetRun(s, r, Result(pc.chunk, outcome)) else s
      case RunResult(r, ref, o1, o2) => if pc.Result? then ResultStep(w, s, r, pc.outcome, ref, o1, o2) else s
      case RunExit(r) => if pc.Gone? then s.(runs := map q | q in s.runs && q != r :: s.runs[q]) else s
      case _ => s
  }

  ghost function Execute(w: World, events: seq<Event>): State {
    if events == [] then INIT
    else Apply(w, Execute(w, events[..|events| - 1]), events[|events| - 1])
  }
}
