/** The replay journal of checkpoint proofs: admission, compaction, persist-or-roll-back, loading, and what
    they guarantee across sessions, failed writes, crashes and restarts.

    Times are integers with 0 for the zero time. Signature, identity and freshness checks that do not touch
    the journal are one input, `genuine`. */
module ProofJournal {

  datatype Journal = Journal(
    nonces: map<string, string>,    // target|nonce -> proof digest
    issuedAt: map<string, int>,     // target|nonce -> admission time
    high: map<string, nat>,         // node|target -> highest issuance epoch
    fences: map<string, nat>,
    generations: map<string, nat>)

  const EMPTY := Journal(map[], map[], map[], map[], map[])

  /** The environment: issuance epoch of a nonce (0 if it has none), time encoded in a legacy key (0 if none),
      retention, encoded size of a journal, and whether a journal path is configured. */
  datatype World = World(
    epoch: string -> nat, legacyTime: string -> int, retentionSeconds: int, size: Journal -> nat, configured: bool)

  const SECOND := 1_000_000_000
  const MAX_ENTRIES := 10000
  const MAX_BYTES := 0x10_0000

  function Retention(w: World): int {
    if w.retentionSeconds > 0 then w.retentionSeconds * SECOND else 48 * 3600 * SECOND
  }

  // ---------------------------------------------------------------- compaction

  function IssuedTime(w: World, j: Journal, key: string): int {
    if key in j.issuedAt && j.issuedAt[key] != 0 then j.issuedAt[key] else w.legacyTime(key)
  }

  predicate Aged(w: World, j: Journal, key: string, now: int) {
    key in j.nonces && IssuedTime(w, j, key) != 0 && now - IssuedTime(w, j, key) > Retention(w)
  }

  function Compact(w: World, j: Journal, now: int): Journal {
    j.(nonces := map k | k in j.nonces && !Aged(w, j, k, now) :: j.nonces[k],
       issuedAt := map k | k in j.issuedAt && !Aged(w, j, k, now) :: j.issuedAt[k])
  }

  predicate HasSuffix(s: string, suffix: string) {
    |suffix| <= |s| && s[|s| - |suffix|..] == suffix
  }

  predicate Orphan(w: World, j: Journal, session: string, now: int) {
    exists k :: k in j.nonces && Aged(w, j, k, now) && HasSuffix(session, "|" + k)
  }

  function CompactSessions(w: World, j: Journal, sessions: map<string, string>, now: int): map<string, string> {
    map s | s in sessions && !Orphan(w, j, s, now) :: sessions[s]
  }

  // ---------------------------------------------------------------- loading

  datatype Body = Malformed | V2(journal: Journal) | Legacy(digests: map<string, string>)

  predicate Bounded(j: Journal) {
    |j.nonces| <= MAX_ENTRIES && |j.high| <= MAX_ENTRIES && |j.fences| <= MAX_ENTRIES && |j.generations| <= MAX_ENTRIES
  }

  predicate NamedNonces(j: Journal) {
    forall k :: k in j.nonces ==> k != "" && j.nonces[k] != ""
  }

  predicate Stamped(j: Journal) {
    forall k :: k in j.nonces ==> k in j.issuedAt && j.issuedAt[k] != 0
  }

  predicate Positive(m: map<string, nat>) {
    forall k :: k in m ==> k != "" && m[k] != 0
  }

  /** The three counters speak of the same identities, with non-zero values. */
  predicate Aligned(j: Journal) {
    && NamedNonces(j) && j.issuedAt.Keys <= j.nonces.Keys
    && j.high.Keys == j.fences.Keys == j.generations.Keys
    && Positive(j.high) && Positive(j.fences) && Positive(j.generations)
  }

  /** The checks of the loader on the content of a file. */
  predicate Acceptable(j: Journal, legacy: bool) {
    Bounded(j) && Aligned(j) && (legacy || Stamped(j))
  }

  predicate NotBelow(m: map<string, nat>, resident: map<string, nat>) {
    forall k :: k in m && k in resident ==> resident[k] <= m[k]
  }

  /** The checks of the loader against the state it is loaded into. */
  predicate NoDowngrade(j: Journal, resident: Journal) {
    && (forall k :: k in j.nonces && k in resident.nonces ==> resident.nonces[k] == j.nonces[k])
    && NotBelow(j.high, resident.high) && NotBelow(j.fences, resident.fences) && NotBelow(j.generations, resident.generations)
  }

  function Merge(resident: Journal, j: Journal): Journal {
    Journal(resident.nonces + j.nonces, resident.issuedAt + j.issuedAt, resident.high + j.high,
            resident.fences + j.fences, resident.generations + j.generations)
  }

  datatype Loaded = Refused | Loaded(journal: Journal)

  function Envelope(body: Body): Journal
    requires !body.Malformed?
  {
    if body.V2? then body.journal else EMPTY.(nonces := body.digests)
  }

  function LoadBody(w: World, resident: Journal, body: Body, now: int): Loaded {
    if body.Malformed? then Refused
    else if body.Legacy? && (resident.high != map[] || resident.fences != map[] || resident.generations != map[]) then Refused
    else
      var j := Envelope(body);
      if Acceptable(j, body.Legacy?) && NoDowngrade(j, resident) then Loaded(Compact(w, Merge(resident, j), now)) else Refused
  }

  // ---------------------------------------------------------------- admission

  datatype Write = Durable | LostBeforeRename | LostAfterRename

  datatype Request = Request(
    node: string, adapter: string, session: string, nonce: string, digest: string,
    oldFence: nat, newFence: nat, generation: nat, advertised: nat, genuine: bool)

  function Target(q: Request): string { q.node + "-" + q.adapter }

  function NonceKey(q: Request): string { Target(q) + "|" + q.nonce }

  function HighKey(q: Request): string { q.node + "|" + Target(q) }

  /** The checks made before the journal is consulted. */
  predicate Bound(w: World, q: Request) {
    && q.genuine && w.epoch(q.nonce) != 0 && q.advertised != 0 && q.generation == q.advertised && q.oldFence < q.newFence && q.digest != ""
  }

  datatype File = Missing | File(body: Body)

  /** A fresh admission: the identity and the proof's issuance epoch, fence and generation. */
  datatype Admission = Admission(node: string, target: string, nonce: string, epoch: nat, fence: nat, generation: nat)

  function Identity(a: Admission): string { a.node + "|" + a.target }

  /** `failed` is set when the journal could not be loaded; `files` are the contents a crash may leave. */
  datatype State = State(up: bool, failed: bool, journal: Journal, sessions: map<string, string>, files: set<File>, log: seq<Admission>)

  datatype Verdict = Unbound | Unconfigured | Unavailable | NoNonce | Replayed | Refreshed | EpochRollback | FenceRollback | GenerationRollback | WriteFailed | Admitted

  function Counter(m: map<string, nat>, k: string): nat { if k in m then m[k] else 0 }

  function Session(sessions: map<string, string>, k: string): string { if k in sessions then sessions[k] else "" }

  function Entry(w: World, j: Journal, q: Request, time: int): Journal {
    var hw := HighKey(q);
    Journal(j.nonces[NonceKey(q) := q.digest], j.issuedAt[NonceKey(q) := time], j.high[hw := w.epoch(q.nonce)],
            if q.newFence > Counter(j.fences, hw) then j.fences[hw := q.newFence] else j.fences,
            if q.generation > Counter(j.generations, hw) then j.generations[hw := q.generation] else j.generations)
  }

  /** Undo of an entry after a failed write; `before` is the journal the entry was made in. */
  function Undone(j: Journal, before: Journal, q: Request): Journal {
    j.(nonces := j.nonces - {NonceKey(q)}, issuedAt := j.issuedAt - {NonceKey(q)},
       high := before.high, fences := before.fences, generations := before.generations)
  }

  predicate Writable(w: World, j: Journal) {
    Bounded(j) && w.size(j) <= MAX_BYTES
  }

  function Written(w: World, files: set<File>, j: Journal, o: Write): (bool, set<File>) {
    if !Writable(w, j) || o.LostBeforeRename? then (false, files)
    else if o.Durable? then (true, {File(V2(j))})
    else (false, files + {File(V2(j))})
  }

  function AdmissionOf(w: World, q: Request): Admission {
    Admission(q.node, Target(q), q.nonce, w.epoch(q.nonce), q.newFence, q.generation)
  }

  /** What the journal says of a proof before it is entered; None when it may be entered. */
  function Objection(w: World, j: Journal, sessions: map<string, string>, q: Request): (r: Verdict) {
    if q.nonce == "" then NoNonce
    else if NonceKey(q) in j.nonces then
      (if q.session == "" || Session(sessions, q.session + "|" + NonceKey(q)) != j.nonces[NonceKey(q)] then Replayed else Refreshed)
    else if Counter(j.high, HighKey(q)) >= w.epoch(q.nonce) then EpochRollback
    else if Counter(j.fences, HighKey(q)) > q.newFence then FenceRollback
    else if Counter(j.generations, HighKey(q)) > q.generation then GenerationRollback
    else Admitted
  }

  /** Enters a proof without objection, writes the journal, and undoes the entry when the write fails. */
  function EnterStep(w: World, s: State, q: Request, t2: int, t3: int, o: Write): (Verdict, State) {
    var entered := Entry(w, s.journal, q, t2);
    var sessions := if q.session != "" then s.sessions[q.session + "|" + NonceKey(q) := q.digest] else s.sessions;
    var final := Compact(w, entered, t3);
    var (ok, files) := Written(w, s.files, final, o);
    (if ok then Admitted else WriteFailed,
     s.(journal := if ok then final else Undone(final, s.journal, q), sessions := CompactSessions(w, entered, sessions, t3), files := files,
        log := if ok then s.log + [AdmissionOf(w, q)] else s.log))
  }

  /** `t1`, `t2`, `t3` are the clock readings of the compaction, the entry, and the compaction of the write. */
  function AdmitStep(w: World, s: State, q: Request, t1: int, t2: int, t3: int, o: Write): (Verdict, State) {
    if !Bound(w, q) then (Unbound, s)
    else
      var c := s.(journal := Compact(w, s.journal, t1), sessions := CompactSessions(w, s.journal, s.sessions, t1));
      if !w.configured then (Unconfigured, c)
      else if s.failed then (Unavailable, c)
      else if Objection(w, c.journal, c.sessions, q) != Admitted then (Objection(w, c.journal, c.sessions, q), c)
      else EnterStep(w, c, q, t2, t3, o)
  }

  /** A new process reads the file it finds; a file it cannot load closes admission. */
  function RestartStep(w: World, s: State, file: File, now: int): State {
    var booted := s.(up := true, failed := false, journal := EMPTY, sessions := map[]);
    if !w.configured || file.Missing? then booted
    else
      var r := LoadBody(w, EMPTY, file.body, now);
      if r.Refused? || (file.body.V2? && w.size(file.body.journal) > MAX_BYTES) then booted.(failed := true) else booted.(journal := r.journal)
  }

  datatype Event =
    | Admit(q: Request, t1: int, t2: int, t3: int, o: Write)
    | Crash
    | Restart(file: File, now: int)

  /** Effect of one event; the entry time is never the zero time, and a restart finds a file that was left. */
  function Apply(w: World, s: State, e: Event): State {
    match e
    case Admit(q, t1, t2, t3, o) => if s.up && t2 != 0 then AdmitStep(w, s, q, t1, t2, t3, o).1 else s
    case Crash => s.(up := false, failed := false, journal := EMPTY, sessions := map[])
    case Restart(file, now) => if !s.up && file in s.files then RestartStep(w, s, file, now) else s
  }

  function Init(start: File): State {
    State(false, false, EMPTY, map[], {start}, [])
  }

  function Execute(w: World, start: File, events: seq<Event>): State {
    if events == [] then Init(start) else Apply(w, Execute(w, start, events[..|events| - 1]), events[|events| - 1])
  }
}
