/** What the replay journal guarantees over every sequence of admissions, failed writes, crashes and restarts,
    whatever the clock reads and whatever file the first process found. */
module ProofJournalTheorems {
  import opened ProofJournal

  // ---------------------------------------------------------------- admissions advance

  /** The journal remembers every admission, if not its nonce. */
  ghost predicate Covers(j: Journal, log: seq<Admission>) {
    forall a :: a in log ==>
      && Identity(a) in j.high && Identity(a) in j.fences && Identity(a) in j.generations
      && a.epoch <= j.high[Identity(a)] && a.fence <= j.fences[Identity(a)] && a.generation <= j.generations[Identity(a)]
  }

  /** Per identity, epochs strictly increase and fences and generations never decrease. */
  ghost predicate Advancing(log: seq<Admission>) {
    forall i, j :: 0 <= i < j < |log| && Identity(log[i]) == Identity(log[j]) ==>
      log[i].epoch < log[j].epoch && log[i].fence <= log[j].fence && log[i].generation <= log[j].generation
  }

  ghost predicate FileCovers(f: File, log: seq<Admission>) {
    && (log != [] ==> f.File? && f.body.V2?)
    && (f.File? && f.body.V2? ==> Covers(f.body.journal, log))
  }

  ghost predicate Inv(w: World, s: State) {
    && Advancing(s.log)
    && (forall a :: a in s.log ==> a.epoch == w.epoch(a.nonce))
    && (forall f :: f in s.files ==> FileCovers(f, s.log))
    && (s.up && !s.failed ==> Covers(s.journal, s.log))
    && (!w.configured ==> s.log == [])
  }

  predicate SameCounters(a: Journal, b: Journal) {
    a.high == b.high && a.fences == b.fences && a.generations == b.generations
  }

  lemma CoversSame(a: Journal, b: Journal, log: seq<Admission>)
    requires Covers(a, log) && SameCounters(a, b)
    ensures Covers(b, log)
  {}

  lemma EntryCovers(w: World, j: Journal, q: Request, time: int, log: seq<Admission>)
    requires Covers(j, log) && Objection(w, j, map[], q) == Admitted && 0 < q.newFence && 0 < q.generation
    ensures Covers(Entry(w, j, q, time), log) && Covers(Entry(w, j, q, time), log + [AdmissionOf(w, q)])
  {
    var t := Entry(w, j, q, time);
    forall a | a in log + [AdmissionOf(w, q)]
      ensures Identity(a) in t.high && Identity(a) in t.fences && Identity(a) in t.generations
      ensures a.epoch <= t.high[Identity(a)] && a.fence <= t.fences[Identity(a)] && a.generation <= t.generations[Identity(a)]
    {
      assert a in log || a == AdmissionOf(w, q);
    }
  }

  lemma LogAdvances(w: World, j: Journal, q: Request, log: seq<Admission>)
    requires Advancing(log) && Covers(j, log) && Objection(w, j, map[], q) == Admitted
    ensures Advancing(log + [AdmissionOf(w, q)])
  {
    var longer := log + [AdmissionOf(w, q)];
    forall i, k | 0 <= i < k < |longer| && Identity(longer[i]) == Identity(longer[k])
      ensures longer[i].epoch < longer[k].epoch && longer[i].fence <= longer[k].fence && longer[i].generation <= longer[k].generation
    {
      if k == |log| { assert log[i] in log; }
    }
  }

  /** Sessions never turn an objection into an admission. */
  lemma SessionsIrrelevant(w: World, j: Journal, sessions: map<string, string>, q: Request)
    ensures Objection(w, j, sessions, q) == Admitted <==> Objection(w, j, map[], q) == Admitted
  {}

  lemma {:induction false} AdmitKeeps(w: World, s: State, q: Request, t1: int, t2: int, t3: int, o: Write)
    requires Inv(w, s) && s.up
    ensures Inv(w, AdmitStep(w, s, q, t1, t2, t3, o).1)
  {
    hide Covers, Advancing, CompactSessions, Objection, Aged;
    var j := Compact(w, s.journal, t1);
    var sessions := CompactSessions(w, s.journal, s.sessions, t1);
    if Bound(w, q) && !s.failed {
      CoversSame(s.journal, j, s.log);
      if w.configured && Objection(w, j, sessions, q) == Admitted {
        SessionsIrrelevant(w, j, sessions, q);
        var entered := Entry(w, j, q, t2);
        var final := Compact(w, entered, t3);
        EntryCovers(w, j, q, t2, s.log);
        LogAdvances(w, j, q, s.log);
        CoversSame(entered, final, s.log);
        CoversSame(entered, final, s.log + [AdmissionOf(w, q)]);
        CoversSame(j, Undone(final, j, q), s.log);
        assert SameCounters(entered, final);
        hide Entry, Compact, Undone;
        AdmitWrites(w, s, q, final, Undone(final, j, q), o);
      }
    }
  }

  lemma AdmitWrites(w: World, s: State, q: Request, final: Journal, undone: Journal, o: Write)
    requires Inv(w, s) && Advancing(s.log + [AdmissionOf(w, q)]) && Covers(final, s.log) && Covers(final, s.log + [AdmissionOf(w, q)]) && Covers(undone, s.log)
    ensures var (ok, files) := Written(w, s.files, final, o);
            var log := if ok then s.log + [AdmissionOf(w, q)] else s.log;
            && Advancing(log) && (forall a :: a in log ==> a.epoch == w.epoch(a.nonce)) && (forall f :: f in files ==> FileCovers(f, log))
            && Covers(if ok then final else undone, log)
  {
    hide Covers, Advancing, Writable;
  }

  lemma LoadedCounters(w: World, body: Body, now: int)
    requires body.V2? && LoadBody(w, EMPTY, body, now).Loaded?
    ensures SameCounters(body.journal, LoadBody(w, EMPTY, body, now).journal)
  {
    MergeEmpty(body.journal);
    hide Aged, Acceptable, NoDowngrade;
  }

  lemma RestartKeeps(w: World, s: State, file: File, now: int)
    requires Inv(w, s) && file in s.files
    ensures Inv(w, RestartStep(w, s, file, now))
  {
    hide Covers, Advancing, LoadBody;
    assert FileCovers(file, s.log);
    EmptyCovers(EMPTY);
    if w.configured && file.File? {
      var r := LoadBody(w, EMPTY, file.body, now);
      if r.Loaded? {
        EmptyCovers(r.journal);
        if file.body.V2? {
          LoadedCounters(w, file.body, now);
          CoversSame(file.body.journal, r.journal, s.log);
        }
      }
    }
  }

  lemma EmptyCovers(j: Journal)
    ensures Covers(j, [])
  {}

  lemma {:induction false} ExecuteKeeps(w: World, start: File, events: seq<Event>)
    ensures Inv(w, Execute(w, start, events))
  {
    if events == [] {
      EmptyCovers(EMPTY);
    } else {
      var s, e := Execute(w, start, events[..|events| - 1]), events[|events| - 1];
      ExecuteKeeps(w, start, events[..|events| - 1]);
      hide AdmitStep, RestartStep, Covers, Advancing;
      match e
      case Admit(q, t1, t2, t3, o) => if s.up { hide Inv; AdmitKeeps(w, s, q, t1, t2, t3, o); }
      case Crash =>
      case Restart(file, now) => if file in s.files { hide Inv; RestartKeeps(w, s, file, now); }
    }
  }

  /** Freshly admitted epochs of one identity strictly increase; its fences and generations never go back. */
  lemma AdmissionsAdvance(w: World, start: File, events: seq<Event>)
    ensures Advancing(Execute(w, start, events).log)
  {
    ExecuteKeeps(w, start, events);
    hide Advancing, Execute;
  }

  /** No (node, target, nonce) is freshly admitted twice. */
  lemma AdmittedOnce(w: World, start: File, events: seq<Event>, i: nat, j: nat)
    requires i < j < |Execute(w, start, events).log|
    ensures var log := Execute(w, start, events).log;
            log[i].node != log[j].node || log[i].target != log[j].target || log[i].nonce != log[j].nonce
  {
    ExecuteKeeps(w, start, events);
    hide Execute, Covers, FileCovers;
    var log := Execute(w, start, events).log;
    assert log[i] in log && log[j] in log;
  }

  /** Every admitted epoch stays at or below the high-water mark, in memory and in whatever file a crash leaves,
      long after its nonce was compacted away. */
  lemma HighWaterRemembers(w: World, start: File, events: seq<Event>, a: Admission)
    requires a in Execute(w, start, events).log
    ensures var s := Execute(w, start, events);
            && (s.up && !s.failed ==> Identity(a) in s.journal.high && a.epoch <= s.journal.high[Identity(a)])
            && (forall f :: f in s.files ==> f.File? && f.body.V2? && Identity(a) in f.body.journal.high && a.epoch <= f.body.journal.high[Identity(a)])
  {
    ExecuteKeeps(w, start, events);
    hide Execute, Advancing;
  }

  /** A proof that was admitted is never admitted again, by any session, in any later process. */
  lemma ReplayRefused(w: World, start: File, events: seq<Event>, q: Request, t1: int, t2: int, t3: int, o: Write)
    requires Execute(w, start, events).up && AdmissionOf(w, q) in Execute(w, start, events).log
    ensures AdmitStep(w, Execute(w, start, events), q, t1, t2, t3, o).0 != Admitted
  {
    var s := Execute(w, start, events);
    if !s.failed { HighWaterRemembers(w, start, events, AdmissionOf(w, q)); }
    hide Execute, CompactSessions, Entry, Undone, Written, Aged, Bound;
  }

  /** The session entry an admission leaves. */
  function SessionKey(q: Request): string { q.session + "|" + NonceKey(q) }

  /** Within the session that was admitted, presenting the same proof again is a refresh that admits and writes
      nothing, for as long as compaction keeps its nonce and its session entry. */
  lemma RefreshIsIdempotent(w: World, s: State, q: Request, t1: int, t2: int, t3: int, o: Write, u1: int, u2: int, u3: int, o': Write)
    requires AdmitStep(w, s, q, t1, t2, t3, o).0 == Admitted && q.session != ""
    requires var t := AdmitStep(w, s, q, t1, t2, t3, o).1;
             && NonceKey(q) in t.journal.nonces && !Aged(w, t.journal, NonceKey(q), u1)
             && SessionKey(q) in t.sessions && !Orphan(w, t.journal, SessionKey(q), u1)
    ensures var t := AdmitStep(w, s, q, t1, t2, t3, o).1; var (v, again) := AdmitStep(w, t, q, u1, u2, u3, o');
            v == Refreshed && again.log == t.log && again.files == t.files && again.journal == Compact(w, t.journal, u1)
  {
    hide Aged, Orphan, NonceKey, HighKey, Bound;
    AdmittedEntry(w, s, q, t1, t2, t3, o);
    var t := AdmitStep(w, s, q, t1, t2, t3, o).1;
    assert t.journal.nonces[NonceKey(q)] == q.digest && t.sessions[SessionKey(q)] == q.digest;
    hide EnterStep;
  }

  lemma AdmittedEntry(w: World, s: State, q: Request, t1: int, t2: int, t3: int, o: Write)
    requires AdmitStep(w, s, q, t1, t2, t3, o).0 == Admitted && q.session != ""
    ensures var t := AdmitStep(w, s, q, t1, t2, t3, o).1;
            && Bound(w, q) && w.configured && !t.failed && q.nonce != ""
            && (NonceKey(q) in t.journal.nonces ==> t.journal.nonces[NonceKey(q)] == q.digest)
            && (SessionKey(q) in t.sessions ==> t.sessions[SessionKey(q)] == q.digest)
  {
    hide Aged, Orphan, NonceKey, HighKey, Bound, Writable;
  }

  // ---------------------------------------------------------------- loading

  ghost predicate AtLeast(m: map<string, nat>, n: map<string, nat>) {
    forall k :: k in m ==> k in n && m[k] <= n[k]
  }

  /** Loading any body into any resident state is refused, or leaves every counter at least as large, invents no
      nonce, changes no digest, and forgets a resident nonce only if compaction forgets it. */
  lemma LoadIsMonotone(w: World, resident: Journal, body: Body, now: int)
    requires LoadBody(w, resident, body, now).Loaded?
    ensures var out := LoadBody(w, resident, body, now).journal; var j := Envelope(body);
            && AtLeast(resident.high, out.high) && AtLeast(resident.fences, out.fences) && AtLeast(resident.generations, out.generations)
            && AtLeast(j.high, out.high) && AtLeast(j.fences, out.fences) && AtLeast(j.generations, out.generations)
            && (forall k :: k in resident.nonces ==> if k in out.nonces then out.nonces[k] == resident.nonces[k] else Aged(w, Merge(resident, j), k, now))
            && (forall k :: k in j.nonces ==> if k in out.nonces then out.nonces[k] == j.nonces[k] else Aged(w, Merge(resident, j), k, now))
            && (forall k :: k in out.nonces ==> k in resident.nonces || k in j.nonces)
  {
    hide Aged, Acceptable;
  }

  /** A journal the server holds or writes, from whatever start: everything the loader asks for but the stamps. */
  predicate Sturdy(j: Journal, stamped: bool) {
    Aligned(j) && (stamped ==> Stamped(j))
  }

  predicate Clean(w: World, start: File) {
    start.Missing? || (start.body.V2? && Acceptable(start.body.journal, false) && w.size(start.body.journal) <= MAX_BYTES)
  }

  ghost predicate FileSturdy(w: World, f: File, start: File) {
    f == start || (f.File? && f.body.V2? && Sturdy(f.body.journal, Clean(w, start)) && Writable(w, f.body.journal))
  }

  ghost predicate Sound(w: World, start: File, s: State) {
    && (forall f :: f in s.files ==> FileSturdy(w, f, start))
    && Sturdy(s.journal, Clean(w, start))
    && (Clean(w, start) ==> !s.failed)
  }

  lemma CompactSturdy(w: World, j: Journal, now: int, stamped: bool)
    requires Sturdy(j, stamped)
    ensures Sturdy(Compact(w, j, now), stamped)
  {
    hide Aged;
  }

  lemma KeysNamed(q: Request)
    ensures NonceKey(q) != "" && HighKey(q) != ""
  {
    assert |NonceKey(q)| >= 1 && |HighKey(q)| >= 1;
  }

  lemma RaisedPositive(m: map<string, nat>, k: string, v: nat)
    requires Positive(m) && k != "" && 0 < v
    ensures Positive(m[k := v]) && m[k := v].Keys == m.Keys + {k}
  {}

  lemma EntryAligned(w: World, j: Journal, q: Request, time: int)
    requires Aligned(j) && Bound(w, q)
    ensures Aligned(Entry(w, j, q, time))
  {
    var t, hw := Entry(w, j, q, time), HighKey(q);
    KeysNamed(q);
    RaisedPositive(j.high, hw, w.epoch(q.nonce));
    RaisedPositive(j.fences, hw, q.newFence);
    RaisedPositive(j.generations, hw, q.generation);
    hide NonceKey, HighKey, Positive;
    assert hw in j.fences ==> j.fences.Keys == j.fences.Keys + {hw};
    assert hw in j.generations ==> j.generations.Keys == j.generations.Keys + {hw};
    assert t.nonces.Keys == j.nonces.Keys + {NonceKey(q)} && t.issuedAt.Keys == j.issuedAt.Keys + {NonceKey(q)};
  }

  lemma EntrySturdy(w: World, j: Journal, q: Request, time: int, stamped: bool)
    requires Sturdy(j, stamped) && Bound(w, q) && time != 0
    ensures Sturdy(Entry(w, j, q, time), stamped)
  {
    hide Aligned, NonceKey, HighKey, Bound;
    EntryAligned(w, j, q, time);
  }

  lemma UndoneSturdy(j: Journal, before: Journal, q: Request, stamped: bool)
    requires Sturdy(j, stamped) && Sturdy(before, stamped)
    ensures Sturdy(Undone(j, before, q), stamped)
  {}

  lemma AdmitSound(w: World, start: File, s: State, q: Request, t1: int, t2: int, t3: int, o: Write)
    requires Sound(w, start, s) && t2 != 0
    ensures Sound(w, start, AdmitStep(w, s, q, t1, t2, t3, o).1)
  {
    hide Sturdy, Clean, Writable, Objection, CompactSessions, Entry, Compact, Undone;
    if Bound(w, q) {
      var stamped := Clean(w, start);
      var j := Compact(w, s.journal, t1);
      CompactSturdy(w, s.journal, t1, stamped);
      EntrySturdy(w, j, q, t2, stamped);
      CompactSturdy(w, Entry(w, j, q, t2), t3, stamped);
      UndoneSturdy(Compact(w, Entry(w, j, q, t2), t3), j, q, stamped);
    }
    hide Bound;
  }

  lemma MergeEmpty(j: Journal)
    ensures Merge(EMPTY, j) == j
  {
    assert EMPTY.nonces + j.nonces == j.nonces && EMPTY.issuedAt + j.issuedAt == j.issuedAt;
    assert EMPTY.high + j.high == j.high && EMPTY.fences + j.fences == j.fences && EMPTY.generations + j.generations == j.generations;
  }

  /** Into an empty server, a body loads exactly when it is acceptable, and then to its own compaction. */
  lemma FirstLoad(w: World, body: Body, now: int)
    ensures LoadBody(w, EMPTY, body, now) ==
            if !body.Malformed? && Acceptable(Envelope(body), body.Legacy?) then Loaded(Compact(w, Envelope(body), now)) else Refused
  {
    hide Acceptable, Compact;
    if !body.Malformed? { MergeEmpty(Envelope(body)); }
  }

  lemma AcceptableSturdy(j: Journal, legacy: bool)
    requires Acceptable(j, legacy)
    ensures Sturdy(j, !legacy) && Sturdy(j, false)
  {}

  lemma EmptySturdy()
    ensures Sturdy(EMPTY, true) && Sturdy(EMPTY, false)
  {}

  lemma WrittenAccepted(j: Journal, w: World)
    requires Sturdy(j, true) && Writable(w, j)
    ensures Acceptable(j, false) && w.size(j) <= MAX_BYTES
  {}

  lemma RestartSound(w: World, start: File, s: State, file: File, now: int)
    requires Sound(w, start, s) && file in s.files
    ensures Sound(w, start, RestartStep(w, s, file, now))
  {
    assert FileSturdy(w, file, start);
    EmptySturdy();
    if file.File? {
      FirstLoad(w, file.body, now);
      if !file.body.Malformed? {
        var j := Envelope(file.body);
        if Clean(w, start) && file != start { WrittenAccepted(j, w); }
        if Acceptable(j, file.body.Legacy?) {
          AcceptableSturdy(j, file.body.Legacy?);
          assert Sturdy(j, Clean(w, start)) by { hide Sturdy, Acceptable, FileSturdy; CleanBody(w, start, file); }
          CompactSturdy(w, j, now, Clean(w, start));
        }
      }
    }
    hide Sturdy, Acceptable, Writable, LoadBody, Compact;
  }

  lemma CleanBody(w: World, start: File, file: File)
    requires FileSturdy(w, file, start) && file.File? && !file.body.Malformed? && Acceptable(Envelope(file.body), file.body.Legacy?)
    ensures Sturdy(Envelope(file.body), Clean(w, start))
  {}

  lemma {:induction false} ExecuteSound(w: World, start: File, events: seq<Event>)
    ensures Sound(w, start, Execute(w, start, events))
  {
    if events == [] {
      EmptySturdy();
      hide Sturdy, Clean, Writable;
    } else {
      var s, e := Execute(w, start, events[..|events| - 1]), events[|events| - 1];
      ExecuteSound(w, start, events[..|events| - 1]);
      EmptySturdy();
      hide AdmitStep, RestartStep, Sturdy, Clean, FileSturdy;
      match e
      case Admit(q, t1, t2, t3, o) => if t2 != 0 { hide Sound; AdmitSound(w, start, s, q, t1, t2, t3, o); }
      case Crash =>
      case Restart(file, now) => if file in s.files { hide Sound; RestartSound(w, start, s, file, now); }
    }
  }

  /** From no journal, or any v2 journal the loader accepts: every file left behind loads back to itself up to
      compaction, and no restart ever fails closed. */
  lemma JournalReloads(w: World, start: File, events: seq<Event>, file: File, now: int)
    requires Clean(w, start) && file in Execute(w, start, events).files
    ensures file.Missing? || (file.body.V2? && LoadBody(w, EMPTY, file.body, now) == Loaded(Compact(w, file.body.journal, now)))
    ensures !Execute(w, start, events).failed
  {
    ExecuteSound(w, start, events);
    hide Execute, Compact, LoadBody;
    if file.File? {
      FirstLoad(w, file.body, now);
      if file != start { WrittenAccepted(file.body.journal, w); }
    }
  }

  /** From any start, legacy included: a file the server wrote loads back exactly when every nonce in it carries
      an admission time. */
  lemma WrittenFileReloadsIffStamped(w: World, start: File, events: seq<Event>, file: File, now: int)
    requires file in Execute(w, start, events).files && file != start
    ensures file.File? && file.body.V2? && (LoadBody(w, EMPTY, file.body, now).Loaded? <==> Stamped(file.body.journal))
  {
    ExecuteSound(w, start, events);
    hide Execute, Compact, LoadBody;
    FirstLoad(w, file.body, now);
  }

  // ---------------------------------------------------------------- a legacy start

  const LEGACY := File(Legacy(map["k" := "d"]))
  const OLD_ENTRY := EMPTY.(nonces := map["k" := "d"])

  function Proof(nonce: string): Request {
    Request("n", "a", "", nonce, "d", 0, 1, 1, 1, true)
  }

  /** What the server writes after it started on a one-entry legacy file and admitted one proof at time 1. */
  function Mixed(w: World, nonce: string): Journal {
    Entry(w, OLD_ENTRY, Proof(nonce), 1)
  }

  lemma Stepped(w: World, start: File, events: seq<Event>, e: Event)
    ensures Execute(w, start, events + [e]) == Apply(w, Execute(w, start, events), e)
  {
    hide Apply;
    assert (events + [e])[..|events|] == events;
  }

  lemma YoungStays(w: World, j: Journal, now: int)
    requires forall k :: k in j.nonces ==> !Aged(w, j, k, now)
    ensures j.issuedAt.Keys <= j.nonces.Keys ==> Compact(w, j, now) == j
  {
    hide Aged;
  }

  lemma RetentionPositive(w: World)
    ensures Retention(w) > 0
  {}

  lemma OldEntryStays(w: World)
    requires w.legacyTime("k") == 0
    ensures Compact(w, OLD_ENTRY, 1) == OLD_ENTRY
  {
    YoungStays(w, OLD_ENTRY, 1);
  }

  lemma MixedKeys(w: World, nonce: string)
    ensures var key := "n-a|" + nonce; NonceKey(Proof(nonce)) == key && key != "k"
    ensures Mixed(w, nonce).nonces == map["k" := "d"]["n-a|" + nonce := "d"] && Mixed(w, nonce).issuedAt == map["n-a|" + nonce := 1]
  {
    var none: map<string, int> := map[];
    assert NonceKey(Proof(nonce)) == "n-a|" + nonce;
    assert ("n-a|" + nonce)[0] != "k"[0];
    assert none["n-a|" + nonce := 1] == map["n-a|" + nonce := 1];
  }

  lemma MixedStays(w: World, nonce: string)
    requires w.legacyTime("k") == 0
    ensures Compact(w, Mixed(w, nonce), 1) == Mixed(w, nonce)
  {
    MixedKeys(w, nonce);
    RetentionPositive(w);
    hide Mixed, Retention, Compact;
    YoungStays(w, Mixed(w, nonce), 1);
  }

  lemma LegacyBoots(w: World)
    requires w.configured && w.legacyTime("k") == 0
    ensures Apply(w, Init(LEGACY), Restart(LEGACY, 1)) == State(true, false, OLD_ENTRY, map[], {LEGACY}, [])
  {
    FirstLoad(w, LEGACY.body, 1);
    OldEntryStays(w);
    hide LoadBody, Compact;
  }

  lemma NoObjection(w: World, nonce: string)
    requires nonce != "" && w.epoch(nonce) != 0
    ensures Objection(w, OLD_ENTRY, map[], Proof(nonce)) == Admitted
  {
    MixedKeys(w, nonce);
    hide Mixed;
  }

  lemma MixedWritten(w: World, s: State, nonce: string)
    requires w.legacyTime("k") == 0 && Writable(w, Mixed(w, nonce)) && s.journal == OLD_ENTRY
    ensures EnterStep(w, s, Proof(nonce), 1, 1, Durable).1.files == {File(V2(Mixed(w, nonce)))}
  {
    hide Compact, CompactSessions, Writable, Entry;
    MixedStays(w, nonce);
  }

  lemma LegacyAdmits(w: World, nonce: string)
    requires w.configured && nonce != "" && w.epoch(nonce) != 0 && w.legacyTime("k") == 0 && Writable(w, Mixed(w, nonce))
    ensures Apply(w, State(true, false, OLD_ENTRY, map[], {LEGACY}, []), Admit(Proof(nonce), 1, 1, 1, Durable)).files == {File(V2(Mixed(w, nonce)))}
  {
    hide EnterStep, Objection, Compact, CompactSessions, Writable, Mixed;
    var s := State(true, false, OLD_ENTRY, map[], {LEGACY}, []);
    OldEntryStays(w);
    NoSessions(w, OLD_ENTRY, 1);
    NoObjection(w, nonce);
    MixedWritten(w, s, nonce);
    assert s.(journal := OLD_ENTRY, sessions := map[]) == s;
  }

  lemma NoSessions(w: World, j: Journal, now: int)
    ensures CompactSessions(w, j, map[], now) == map[]
  {}

  lemma MixedRefused(w: World, s: State, nonce: string)
    requires w.configured && !s.up && File(V2(Mixed(w, nonce))) in s.files
    ensures Apply(w, s, Restart(File(V2(Mixed(w, nonce))), 1)).failed
  {
    MixedKeys(w, nonce);
    hide Mixed, LoadBody, Bounded, Aligned;
    FirstLoad(w, V2(Mixed(w, nonce)), 1);
    assert "k" in Mixed(w, nonce).nonces && "k" !in Mixed(w, nonce).issuedAt;
  }

  /** The reload guarantee is false of a legacy start: one admission later, the next restart fails closed. `nonce` is any
      nonce with an issuance epoch. */
  lemma LegacyStartFailsClosed(w: World, nonce: string)
    requires w.configured && nonce != "" && w.epoch(nonce) != 0 && w.legacyTime("k") == 0 && Writable(w, Mixed(w, nonce))
    ensures Execute(w, LEGACY, [Restart(LEGACY, 1), Admit(Proof(nonce), 1, 1, 1, Durable), Crash, Restart(File(V2(Mixed(w, nonce))), 1)]).failed
  {
    hide Execute, Apply, Mixed, Writable;
    var a, b, c, d := Restart(LEGACY, 1), Admit(Proof(nonce), 1, 1, 1, Durable), Crash, Restart(File(V2(Mixed(w, nonce))), 1);
    LegacyBoots(w);
    LegacyAdmits(w, nonce);
    FourSteps(w, LEGACY, a, b, c, d);
    var s := Apply(w, Apply(w, Apply(w, Init(LEGACY), a), b), c);
    CrashKeepsFiles(w, Apply(w, Apply(w, Init(LEGACY), a), b));
    MixedRefused(w, s, nonce);
  }

  lemma CrashKeepsFiles(w: World, s: State)
    ensures Apply(w, s, Crash).files == s.files && !Apply(w, s, Crash).up
  {}

  lemma FourSteps(w: World, start: File, a: Event, b: Event, c: Event, d: Event)
    ensures Execute(w, start, [a, b, c, d]) == Apply(w, Apply(w, Apply(w, Apply(w, Init(start), a), b), c), d)
  {
    hide Apply;
    assert Execute(w, start, []) == Init(start);
    Stepped(w, start, [], a);
    Stepped(w, start, [a], b);
    Stepped(w, start, [a, b], c);
    Stepped(w, start, [a, b, c], d);
    assert [] + [a] == [a] && [a] + [b] == [a, b] && [a, b] + [c] == [a, b, c] && [a, b, c] + [d] == [a, b, c, d];
  }
}
