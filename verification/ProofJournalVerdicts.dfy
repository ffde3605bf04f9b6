/** What each verdict on a proof means, in terms of the proof, the clock, the write and what this process was shown
    before; and for how long a nonce is remembered. */
module ProofJournalVerdicts {
  import opened ProofJournal
  import opened ProofJournalTheorems

  // ---------------------------------------------------------------- one proof

  /** The proof is genuine and bound to what the node advertises now: it has an epoch, a digest, the advertised
      generation, and a fence that moves forward. */
  predicate Presentable(w: World, q: Request) {
    && q.genuine && w.epoch(q.nonce) > 0 && q.digest != ""
    && q.advertised > 0 && q.generation == q.advertised && q.newFence > q.oldFence
  }

  /** The journal still holds the nonce when the proof is looked at. */
  predicate Resident(w: World, s: State, q: Request, now: int) {
    NonceKey(q) in s.journal.nonces && !Aged(w, s.journal, NonceKey(q), now)
  }

  /** No earlier admission of the same node and target is ahead of the proof. */
  predicate Ahead(w: World, j: Journal, q: Request) {
    && (HighKey(q) in j.high ==> j.high[HighKey(q)] < w.epoch(q.nonce))
    && (HighKey(q) in j.fences ==> j.fences[HighKey(q)] <= q.newFence)
    && (HighKey(q) in j.generations ==> j.generations[HighKey(q)] <= q.generation)
  }

  /** The session entry this process made for the nonce is still there, and for the digest on record. */
  predicate Recognised(w: World, s: State, q: Request, now: int)
    requires NonceKey(q) in s.journal.nonces
  {
    && q.session != "" && SessionKey(q) in s.sessions && !Orphan(w, s.journal, SessionKey(q), now)
    && s.sessions[SessionKey(q)] == s.journal.nonces[NonceKey(q)]
  }

  /** The journal with the proof entered, as it is about to be written. */
  function Prospect(w: World, s: State, q: Request, t1: int, t2: int, t3: int): Journal {
    Compact(w, Entry(w, Compact(w, s.journal, t1), q, t2), t3)
  }

  predicate Serving(w: World, s: State) {
    w.configured && !s.failed
  }

  /** A proof is freshly admitted if and only if it is presentable, the journal serves, its nonce is not on record, nothing
      is ahead of it, and the journal that records it fits and is written durably. */
  lemma AdmittedIff(w: World, s: State, q: Request, t1: int, t2: int, t3: int, o: Write)
    ensures var v := AdmitStep(w, s, q, t1, t2, t3, o).0;
            var enters := Presentable(w, q) && Serving(w, s) && q.nonce != "" && !Resident(w, s, q, t1) && Ahead(w, s.journal, q);
            var written := Writable(w, Prospect(w, s, q, t1, t2, t3)) && o == Durable;
            (v == Admitted <==> enters && written) && (v == WriteFailed <==> enters && !written)
  {
    hide Aged, Orphan, Entry, Undone, Writable, NonceKey, HighKey;
  }

  /** It is a refresh if and only if its nonce is on record and the entry of its session is for that record. */
  lemma RefreshedIff(w: World, s: State, q: Request, t1: int, t2: int, t3: int, o: Write)
    requires NamedNonces(s.journal)
    ensures AdmitStep(w, s, q, t1, t2, t3, o).0 == Refreshed <==>
            Presentable(w, q) && Serving(w, s) && q.nonce != "" && Resident(w, s, q, t1) && Recognised(w, s, q, t1)
  {
    hide Aged, Orphan, Entry, Undone, Writable, NonceKey, HighKey;
  }

  /** A refresh is recognised by target, nonce and session alone: the journal does not look at what else the proof says,
      so any other presentable proof under that nonce is refreshed with it. */
  lemma RefreshNamesOnlyTheNonce(w: World, s: State, q: Request, p: Request, t1: int, t2: int, t3: int, o: Write)
    requires NamedNonces(s.journal) && Presentable(w, q) && Presentable(w, p)
    requires Target(q) == Target(p) && q.nonce == p.nonce && q.session == p.session
    ensures AdmitStep(w, s, q, t1, t2, t3, o).0 == Refreshed <==> AdmitStep(w, s, p, t1, t2, t3, o).0 == Refreshed
  {
    hide AdmitStep, Target;
    RefreshedIff(w, s, q, t1, t2, t3, o);
    RefreshedIff(w, s, p, t1, t2, t3, o);
  }

  /** Each verdict, and exactly when it is given. */
  predicate VerdictMeans(w: World, s: State, q: Request, t1: int, t2: int, t3: int, o: Write, v: Verdict) {
    var open := Presentable(w, q) && Serving(w, s) && q.nonce != "";
    var clear := open && !Resident(w, s, q, t1);
    var written := Writable(w, Prospect(w, s, q, t1, t2, t3)) && o == Durable;
    var high, fence := Counter(s.journal.high, HighKey(q)), Counter(s.journal.fences, HighKey(q));
    && (v == Unbound <==> !Presentable(w, q))
    && (v == Unconfigured <==> Presentable(w, q) && !w.configured)
    && (v == Unavailable <==> Presentable(w, q) && w.configured && s.failed)
    && (v == NoNonce <==> Presentable(w, q) && Serving(w, s) && q.nonce == "")
    && (NamedNonces(s.journal) ==> (v == Refreshed <==> open && Resident(w, s, q, t1) && Recognised(w, s, q, t1)))
    && (NamedNonces(s.journal) ==> (v == Replayed <==> open && Resident(w, s, q, t1) && !Recognised(w, s, q, t1)))
    && (v == EpochRollback <==> clear && high >= w.epoch(q.nonce))
    && (v == FenceRollback <==> clear && high < w.epoch(q.nonce) && fence > q.newFence)
    && (v == GenerationRollback <==> clear && high < w.epoch(q.nonce) && fence <= q.newFence && Counter(s.journal.generations, HighKey(q)) > q.generation)
    && (v == Admitted <==> clear && Ahead(w, s.journal, q) && written)
    && (v == WriteFailed <==> clear && Ahead(w, s.journal, q) && !written)
  }

  lemma VerdictsMean(w: World, s: State, q: Request, t1: int, t2: int, t3: int, o: Write)
    ensures VerdictMeans(w, s, q, t1, t2, t3, o, AdmitStep(w, s, q, t1, t2, t3, o).0)
  {
    hide EnterStep, Writable, NonceKey, HighKey, NamedNonces, Compact, CompactSessions, Resident, Recognised, Prospect, Objection;
    AdmittedIff(w, s, q, t1, t2, t3, o);
    if NamedNonces(s.journal) { RefreshedIff(w, s, q, t1, t2, t3, o); }
    EnteredVerdicts(w, s.(journal := Compact(w, s.journal, t1), sessions := CompactSessions(w, s.journal, s.sessions, t1)), q, t2, t3, o);
    ObjectionMeans(w, s, q, t1);
  }

  lemma EnteredVerdicts(w: World, s: State, q: Request, t2: int, t3: int, o: Write)
    ensures EnterStep(w, s, q, t2, t3, o).0 == Admitted || EnterStep(w, s, q, t2, t3, o).0 == WriteFailed
  {}

  lemma ObjectionMeans(w: World, s: State, q: Request, t1: int)
    ensures var v := Objection(w, Compact(w, s.journal, t1), CompactSessions(w, s.journal, s.sessions, t1), q);
            var high, fence, generation := Counter(s.journal.high, HighKey(q)), Counter(s.journal.fences, HighKey(q)), Counter(s.journal.generations, HighKey(q));
            && (v == NoNonce <==> q.nonce == "")
            && (v == Replayed || v == Refreshed <==> q.nonce != "" && Resident(w, s, q, t1))
            && (v == EpochRollback <==> q.nonce != "" && !Resident(w, s, q, t1) && high >= w.epoch(q.nonce))
            && (v == FenceRollback <==> q.nonce != "" && !Resident(w, s, q, t1) && high < w.epoch(q.nonce) && fence > q.newFence)
            && (v == GenerationRollback <==> q.nonce != "" && !Resident(w, s, q, t1) && high < w.epoch(q.nonce) && fence <= q.newFence && generation > q.generation)
            && v !in {Unbound, Unconfigured, Unavailable, WriteFailed}
  {
    hide Aged, CompactSessions, NonceKey, HighKey;
  }

  /** No journal a server holds has a nonce without a digest. */
  lemma DigestsNamed(w: World, start: File, events: seq<Event>)
    ensures NamedNonces(Execute(w, start, events).journal)
  {
    ExecuteSound(w, start, events);
    hide Execute, FileSturdy, Clean;
  }

  /** The counters of an identity after an admission are exactly those of the proof; no other identity moves. */
  predicate CountersSet(w: World, j: Journal, j': Journal, q: Request) {
    && j'.high == j.high[HighKey(q) := w.epoch(q.nonce)] && j'.fences == j.fences[HighKey(q) := q.newFence]
    && j'.generations == j.generations[HighKey(q) := q.generation]
  }

  /** The nonces on record are those that were and are not aged at either reading, and the new one. */
  predicate NoncesSet(w: World, j: Journal, j': Journal, q: Request, t1: int, t2: int, t3: int) {
    && (NonceKey(q) in j'.nonces ==> j'.nonces[NonceKey(q)] == q.digest && NonceKey(q) in j'.issuedAt && j'.issuedAt[NonceKey(q)] == t2)
    && (forall k :: k in j'.nonces && k != NonceKey(q) ==> k in j.nonces && j'.nonces[k] == j.nonces[k])
    && (forall k :: k in j.nonces && k != NonceKey(q) ==> (k in j'.nonces <==> !Aged(w, j, k, t1) && !Aged(w, j, k, t3)))
  }

  /** What an admission leaves: the proof in the log, its counters and its nonce in memory, and exactly that on disk. */
  lemma AdmittedLeaves(w: World, s: State, q: Request, t1: int, t2: int, t3: int, o: Write)
    requires AdmitStep(w, s, q, t1, t2, t3, o).0 == Admitted
    ensures var t := AdmitStep(w, s, q, t1, t2, t3, o).1;
            && t.log == s.log + [Admission(q.node, Target(q), q.nonce, w.epoch(q.nonce), q.newFence, q.generation)]
            && t.files == {File(V2(t.journal))} && t.up == s.up && t.failed == s.failed
            && CountersSet(w, s.journal, t.journal, q) && NoncesSet(w, s.journal, t.journal, q, t1, t2, t3)
            && (t3 - t2 <= Retention(w) && t2 != 0 ==> NonceKey(q) in t.journal.nonces)
  {
    AdmittedIff(w, s, q, t1, t2, t3, o);
    AdmittedJournal(w, s, q, t1, t2, t3, o);
    hide CompactSessions, Writable, NonceKey, HighKey, Resident, Entry, Compact, CountersSet, NoncesSet;
    ProspectCounters(w, s, q, t1, t2, t3);
    ProspectNonces(w, s, q, t1, t2, t3);
    ProspectHolds(w, s, q, t1, t2, t3);
  }

  lemma AdmittedJournal(w: World, s: State, q: Request, t1: int, t2: int, t3: int, o: Write)
    requires AdmitStep(w, s, q, t1, t2, t3, o).0 == Admitted
    ensures AdmitStep(w, s, q, t1, t2, t3, o).1.journal == Prospect(w, s, q, t1, t2, t3)
  {
    hide Writable, Compact, CompactSessions, Entry, NonceKey, HighKey, Bound;
    ObjectionNever(w, Compact(w, s.journal, t1), CompactSessions(w, s.journal, s.sessions, t1), q);
  }

  lemma ProspectCounters(w: World, s: State, q: Request, t1: int, t2: int, t3: int)
    requires Presentable(w, q) && Ahead(w, s.journal, q)
    ensures CountersSet(w, s.journal, Prospect(w, s, q, t1, t2, t3), q)
  {
    hide Aged, NonceKey, HighKey;
    MapSet(s.journal.fences, HighKey(q), q.newFence);
    MapSet(s.journal.generations, HighKey(q), q.generation);
  }

  lemma ProspectNonces(w: World, s: State, q: Request, t1: int, t2: int, t3: int)
    ensures NoncesSet(w, s.journal, Prospect(w, s, q, t1, t2, t3), q, t1, t2, t3)
  {
    hide NonceKey, HighKey, Retention;
  }

  lemma ProspectHolds(w: World, s: State, q: Request, t1: int, t2: int, t3: int)
    ensures t3 - t2 <= Retention(w) && t2 != 0 ==> NonceKey(q) in Prospect(w, s, q, t1, t2, t3).nonces
  {
    hide NonceKey, HighKey, Retention;
  }

  lemma MapSet(m: map<string, nat>, k: string, v: nat)
    requires k in m ==> m[k] <= v
    ensures v > 0 ==> (if v > Counter(m, k) then m[k := v] else m) == m[k := v]
  {}

  /** Any other verdict admits nothing. A refusal before the write changes no file and no counter, and forgets nothing but
      aged nonces; a failed write puts the counters back and leaves the nonce unrecorded in memory. */
  lemma RefusedLeaves(w: World, s: State, q: Request, t1: int, t2: int, t3: int, o: Write)
    requires AdmitStep(w, s, q, t1, t2, t3, o).0 != Admitted
    ensures var (v, t) := AdmitStep(w, s, q, t1, t2, t3, o);
            && t.log == s.log && SameCounters(s.journal, t.journal)
            && (forall k :: k in t.journal.nonces ==> k in s.journal.nonces && t.journal.nonces[k] == s.journal.nonces[k])
            && (v != WriteFailed ==> t.files == s.files && (t == s || t.journal == Compact(w, s.journal, t1)))
            && (v == WriteFailed ==> NonceKey(q) !in t.journal.nonces && s.files <= t.files)
  {
    hide Aged, Orphan, Writable, NonceKey, HighKey, Bound;
  }

  // ---------------------------------------------------------------- how long a nonce is remembered

  /** A nonce entered at a known time is dropped by compaction exactly when more than the retention has passed: the
      configured seconds, or two days. Nothing else of the journal is touched. */
  lemma RetainedExactly(w: World, j: Journal, k: string, now: int)
    requires k in j.nonces && k in j.issuedAt && j.issuedAt[k] != 0
    ensures var kept := Compact(w, j, now);
            && (k in kept.nonces <==> now - j.issuedAt[k] <= (if w.retentionSeconds > 0 then w.retentionSeconds * 1_000_000_000 else 172_800_000_000_000))
            && (k in kept.nonces ==> kept.nonces[k] == j.nonces[k] && k in kept.issuedAt && kept.issuedAt[k] == j.issuedAt[k])
            && SameCounters(j, kept)
  {}

  /** A legacy nonce without a time of its own is never dropped. */
  lemma UndatedStays(w: World, j: Journal, k: string, now: int)
    requires k in j.nonces && (k !in j.issuedAt || j.issuedAt[k] == 0) && w.legacyTime(k) == 0
    ensures k in Compact(w, j, now).nonces
  {}

  // ---------------------------------------------------------------- who may refresh

  /** Event `i` is a proof that this session presented for this nonce and that was entered, whether or not its write then
      succeeded, with no crash since. */
  ghost predicate EnteredAt(w: World, start: File, events: seq<Event>, i: int, key: string, digest: string) {
    && 0 <= i < |events| && events[i].Admit? && events[i].q.session != "" && SessionKey(events[i].q) == key && events[i].q.digest == digest
    && Execute(w, start, events[..i]).up
    && EntersAs(w, Execute(w, start, events[..i]), events[i])
    && forall j :: i < j < |events| ==> !events[j].Crash?
  }

  predicate EntersAs(w: World, s: State, e: Event)
    requires e.Admit?
  {
    var v := AdmitStep(w, s, e.q, e.t1, e.t2, e.t3, e.o).0;
    v == Admitted || v == WriteFailed
  }

  ghost predicate SessionsKnown(w: World, start: File, events: seq<Event>) {
    var s := Execute(w, start, events);
    forall key :: key in s.sessions ==> exists i :: EnteredAt(w, start, events, i, key, s.sessions[key])
  }

  /** The session entries after a step: those before it, and that of a proof it entered. */
  lemma SessionsAfter(w: World, s: State, q: Request, t1: int, t2: int, t3: int, o: Write, key: string)
    requires key in AdmitStep(w, s, q, t1, t2, t3, o).1.sessions
    ensures var (v, t) := AdmitStep(w, s, q, t1, t2, t3, o);
            || (key in s.sessions && t.sessions[key] == s.sessions[key])
            || (q.session != "" && key == SessionKey(q) && t.sessions[key] == q.digest && (v == Admitted || v == WriteFailed))
  {
    hide Aged, Orphan, Entry, Undone, Writable, Written, Bound, NonceKey, HighKey, Compact;
    ObjectionNever(w, s.journal, s.sessions, q);
  }

  lemma ObjectionNever(w: World, j: Journal, sessions: map<string, string>, q: Request)
    ensures Objection(w, j, sessions, q) != WriteFailed
  {}

  lemma EnteredStays(w: World, start: File, events: seq<Event>, e: Event, i: int, key: string, digest: string)
    requires EnteredAt(w, start, events, i, key, digest) && !e.Crash?
    ensures EnteredAt(w, start, events + [e], i, key, digest)
  {
    hide Execute, EntersAs;
    assert (events + [e])[..i] == events[..i] && (events + [e])[i] == events[i];
  }

  lemma SessionStep(w: World, s: State, e: Event, key: string)
    requires key in Apply(w, s, e).sessions
    ensures var t := Apply(w, s, e);
            || (key in s.sessions && t.sessions[key] == s.sessions[key] && !e.Crash?)
            || (e.Admit? && s.up && e.q.session != "" && key == SessionKey(e.q) && t.sessions[key] == e.q.digest && EntersAs(w, s, e))
  {
    if e.Admit? && s.up && e.t2 != 0 { SessionsAfter(w, s, e.q, e.t1, e.t2, e.t3, e.o, key); }
    hide AdmitStep;
  }

  lemma {:induction false} SessionsAreKnown(w: World, start: File, events: seq<Event>)
    ensures SessionsKnown(w, start, events)
  {
    if events != [] {
      var front, e := events[..|events| - 1], events[|events| - 1];
      assert events == front + [e];
      SessionsAreKnown(w, start, front);
      Stepped(w, start, front, e);
      var s, t := Execute(w, start, front), Execute(w, start, events);
      hide Execute, Apply, EnteredAt, EntersAs;
      forall key | key in t.sessions ensures exists i :: EnteredAt(w, start, events, i, key, t.sessions[key]) {
        SessionStep(w, s, e, key);
        if key in s.sessions && t.sessions[key] == s.sessions[key] && !e.Crash? {
          var i :| EnteredAt(w, start, front, i, key, s.sessions[key]);
          EnteredStays(w, start, front, e, i, key, s.sessions[key]);
        } else {
          EnteredNow(w, start, front, e, key, t.sessions[key]);
        }
      }
    }
  }

  lemma EnteredNow(w: World, start: File, events: seq<Event>, e: Event, key: string, digest: string)
    requires Execute(w, start, events).up && e.Admit? && e.q.session != "" && SessionKey(e.q) == key && e.q.digest == digest
    requires EntersAs(w, Execute(w, start, events), e)
    ensures EnteredAt(w, start, events + [e], |events|, key, digest)
  {
    hide Execute, EntersAs;
    assert (events + [e])[..|events|] == events;
  }

  /** A repeated proof is a refresh only for a session that this very process was shown it under, since its last start. */
  lemma RefreshMeansEntered(w: World, start: File, events: seq<Event>, q: Request, t1: int, t2: int, t3: int, o: Write)
    requires AdmitStep(w, Execute(w, start, events), q, t1, t2, t3, o).0 == Refreshed
    ensures q.session != "" && exists i, digest :: EnteredAt(w, start, events, i, SessionKey(q), digest)
  {
    var s := Execute(w, start, events);
    SessionsAreKnown(w, start, events);
    DigestsNamed(w, start, events);
    RefreshedIff(w, s, q, t1, t2, t3, o);
    hide Execute, AdmitStep, EnteredAt, Aged, Orphan;
    var i :| EnteredAt(w, start, events, i, SessionKey(q), s.sessions[SessionKey(q)]);
  }

  /** A session name is taken apart from the rest of an entry at its first bar. */
  predicate BarFree(s: string) {
    forall i :: 0 <= i < |s| ==> s[i] != '|'
  }

  lemma SplitAtBar(a: string, x: string, b: string, y: string)
    requires BarFree(a) && BarFree(b) && a + "|" + x == b + "|" + y
    ensures a == b && x == y
  {
    var l, r := a + "|" + x, b + "|" + y;
    FirstBar(a, x);
    FirstBar(b, y);
    assert l[|a|] == '|' && l[|b|] == '|';
    assert l[..|a|] == a && r[..|b|] == b && l[|a| + 1..] == x && r[|b| + 1..] == y;
  }

  lemma FirstBar(a: string, x: string)
    requires BarFree(a)
    ensures var l := a + "|" + x; |a| < |l| && l[|a|] == '|' && forall i :: 0 <= i < |a| ==> l[i] != '|'
  {
    var l := a + "|" + x;
    forall i | 0 <= i < |a| ensures l[i] != '|' { assert l[i] == a[i]; }
  }

  /** With session names free of bars, an entry is for exactly that session and that nonce. */
  lemma SessionKeysApart(q: Request, p: Request)
    requires BarFree(q.session) && BarFree(p.session)
    ensures SessionKey(q) == SessionKey(p) <==> q.session == p.session && NonceKey(q) == NonceKey(p)
  {
    hide NonceKey;
    if SessionKey(q) == SessionKey(p) { SplitAtBar(q.session, NonceKey(q), p.session, NonceKey(p)); }
  }

  lemma SuffixAtBar(a: string, b: string, c: string, k: string)
    requires BarFree(a) && BarFree(b) && BarFree(c) && !BarFree(k)
    ensures HasSuffix(a + "|" + (b + "|" + c), "|" + k) <==> k == b + "|" + c
  {
    var s, part := a + "|" + (b + "|" + c), "|" + k;
    assert s[|a|] == '|' && s[|a| + |b| + 1] == '|';
    assert forall i :: 0 <= i < |a| ==> s[i] == a[i];
    assert forall i :: 0 <= i < |b| ==> s[i + |a| + 1] == b[i];
    assert forall i :: |a| + 1 <= i < |a| + 1 + |b| ==> s[i] == b[i - |a| - 1];
    assert forall i :: |a| + |b| + 2 <= i < |s| ==> s[i] == c[i - |a| - |b| - 2];
    assert s[|a| + 1..] == b + "|" + c && s[|a| + |b| + 2..] == c && s[|a|..] == "|" + (b + "|" + c);
    if HasSuffix(s, part) {
      var at := |s| - |part|;
      assert s[at] == s[at..][0] == '|';
      assert s[at + 1..] == s[at..][1..] == part[1..] == k;
    }
  }

  /** With names free of bars, compaction takes a session's entry away exactly when it takes the nonce it is for. */
  lemma SessionGoesWithItsNonce(w: World, j: Journal, q: Request, now: int)
    requires BarFree(q.session) && BarFree(Target(q)) && BarFree(q.nonce)
    requires forall k :: k in j.nonces ==> !BarFree(k)
    ensures Orphan(w, j, SessionKey(q), now) <==> NonceKey(q) in j.nonces && Aged(w, j, NonceKey(q), now)
  {
    hide HasSuffix, Aged, BarFree, Target;
    forall k | k in j.nonces ensures HasSuffix(SessionKey(q), "|" + k) <==> k == NonceKey(q) {
      SuffixAtBar(q.session, Target(q), q.nonce, k);
    }
  }

  /** Every nonce entered by a request is under such a key. */
  lemma EnteredKeysHaveBars(q: Request)
    ensures !BarFree(NonceKey(q))
  {
    assert NonceKey(q)[|Target(q)|] == '|';
  }

  /** The condition is needed: with a bar in a session name two sessions share an entry. */
  lemma BarsCollide()
    ensures var q := Request("n", "a", "s|x", "1", "d", 0, 1, 1, 1, true); var p := Request("x|n", "a", "s", "1", "d", 0, 1, 1, 1, true);
            SessionKey(q) == SessionKey(p) && q.session != p.session && NonceKey(q) != NonceKey(p)
  {
    var q := Request("n", "a", "s|x", "1", "d", 0, 1, 1, 1, true);
    var p := Request("x|n", "a", "s", "1", "d", 0, 1, 1, 1, true);
    assert NonceKey(q) == "n-a|1" && NonceKey(p) == "x|n-a|1";
    assert SessionKey(q) == "s|x" + "|" + "n-a|1" == "s|x|n-a|1" && SessionKey(p) == "s" + "|" + "x|n-a|1" == "s|x|n-a|1";
    assert NonceKey(q)[0] != NonceKey(p)[0];
  }

  /** A proof that was admitted is accepted again from nobody but a session this process entered it for, and then only as
      a refresh. */
  lemma ReplayAcceptedOnlyAsRefresh(w: World, start: File, events: seq<Event>, q: Request, t1: int, t2: int, t3: int, o: Write)
    requires Execute(w, start, events).up && AdmissionOf(w, q) in Execute(w, start, events).log
    ensures var v := AdmitStep(w, Execute(w, start, events), q, t1, t2, t3, o).0;
            && v != Admitted
            && (v == Refreshed ==> q.session != "" && exists i, digest :: EnteredAt(w, start, events, i, SessionKey(q), digest))
  {
    hide Execute, AdmitStep, EnteredAt;
    ReplayRefused(w, start, events, q, t1, t2, t3, o);
    if AdmitStep(w, Execute(w, start, events), q, t1, t2, t3, o).0 == Refreshed { RefreshMeansEntered(w, start, events, q, t1, t2, t3, o); }
  }

  /** After a restart nothing is refreshed until it is entered again. */
  lemma RestartForgetsSessions(w: World, start: File, events: seq<Event>, file: File, now: int, q: Request, t1: int, t2: int, t3: int, o: Write)
    ensures AdmitStep(w, Execute(w, start, events + [Crash] + [Restart(file, now)]), q, t1, t2, t3, o).0 != Refreshed
  {
    hide Execute, AdmitStep, EntersAs;
    var all := events + [Crash] + [Restart(file, now)];
    assert all[|events|] == Crash && all[|events| + 1] == Restart(file, now);
    assert forall i: int, digest: string :: !EnteredAt(w, start, all, i, SessionKey(q), digest);
    if AdmitStep(w, Execute(w, start, all), q, t1, t2, t3, o).0 == Refreshed { RefreshMeansEntered(w, start, all, q, t1, t2, t3, o); }
  }

  // ---------------------------------------------------------------- entered is not admitted

  /** Two sessions of one node. */
  function By(session: string, nonce: string): Request {
    Request("n", "a", session, nonce, "d", 0, 1, 1, 1, true)
  }

  const BOOTED := State(true, false, EMPTY, map[], {Missing}, [])

  /** What the first session leaves when its write is lost: an entry for a nonce that is not on record. */
  function LeftOver(nonce: string): State {
    BOOTED.(sessions := map[SessionKey(By("n:1", nonce)) := "d"])
  }

  function OneEntry(w: World, nonce: string): Journal {
    Entry(w, EMPTY, By("n:1", nonce), 1)
  }

  lemma OneEntryStays(w: World, nonce: string, sessions: map<string, string>)
    ensures Compact(w, OneEntry(w, nonce), 1) == OneEntry(w, nonce) && CompactSessions(w, OneEntry(w, nonce), sessions, 1) == sessions
    ensures Compact(w, EMPTY, 1) == EMPTY && CompactSessions(w, EMPTY, sessions, 1) == sessions
  {
    RetentionPositive(w);
    hide Retention;
    YoungStays(w, OneEntry(w, nonce), 1);
    YoungStays(w, EMPTY, 1);
  }

  lemma FirstLoses(w: World, nonce: string)
    requires w.configured && nonce != "" && w.epoch(nonce) != 0
    ensures AdmitStep(w, BOOTED, By("n:1", nonce), 1, 1, 1, LostBeforeRename) == (WriteFailed, LeftOver(nonce))
  {
    var q := By("n:1", nonce);
    var none: map<string, string> := map[];
    OneEntryStays(w, nonce, none);
    OneEntryStays(w, nonce, none[SessionKey(q) := "d"]);
    AdmittedIff(w, BOOTED, q, 1, 1, 1, LostBeforeRename);
    assert Undone(OneEntry(w, nonce), EMPTY, q) == EMPTY;
    hide Compact, CompactSessions, Writable;
  }

  lemma SecondAdmits(w: World, nonce: string)
    requires w.configured && nonce != "" && w.epoch(nonce) != 0 && Writable(w, OneEntry(w, nonce))
    ensures var (v, t) := AdmitStep(w, LeftOver(nonce), By("n:2", nonce), 1, 1, 1, Durable);
            && v == Admitted && t.up && !t.failed && t.journal == OneEntry(w, nonce)
            && SessionKey(By("n:1", nonce)) in t.sessions && t.sessions[SessionKey(By("n:1", nonce))] == "d"
  {
    var q, before := By("n:2", nonce), LeftOver(nonce).sessions;
    OneEntryStays(w, nonce, before);
    OneEntryStays(w, nonce, before[SessionKey(q) := "d"]);
    AdmittedIff(w, LeftOver(nonce), q, 1, 1, 1, Durable);
    hide Compact, CompactSessions, Writable;
  }

  lemma FirstRefreshes(w: World, s: State, nonce: string)
    requires w.configured && nonce != "" && w.epoch(nonce) != 0 && !s.failed && s.journal == OneEntry(w, nonce)
    requires SessionKey(By("n:1", nonce)) in s.sessions && s.sessions[SessionKey(By("n:1", nonce))] == "d"
    ensures AdmitStep(w, s, By("n:1", nonce), 1, 1, 1, Durable).0 == Refreshed
  {
    OneEntryStays(w, nonce, s.sessions);
    hide Compact, CompactSessions, EnterStep;
  }

  /** A session whose own entry was never admitted can be refreshed: its write was lost, another session's was not, and its
      leftover entry is for the same proof. */
  lemma EnteredIsNotAdmitted(w: World, nonce: string)
    requires w.configured && nonce != "" && w.epoch(nonce) != 0 && Writable(w, OneEntry(w, nonce))
    ensures var events := [Restart(Missing, 1), Admit(By("n:1", nonce), 1, 1, 1, LostBeforeRename), Admit(By("n:2", nonce), 1, 1, 1, Durable)];
            var s := Execute(w, Missing, events);
            && AdmitStep(w, s, By("n:1", nonce), 1, 1, 1, Durable).0 == Refreshed
            && AdmitStep(w, Execute(w, Missing, events[..1]), By("n:1", nonce), 1, 1, 1, LostBeforeRename).0 == WriteFailed
  {
    var a, b, c := Restart(Missing, 1), Admit(By("n:1", nonce), 1, 1, 1, LostBeforeRename), Admit(By("n:2", nonce), 1, 1, 1, Durable);
    assert Execute(w, Missing, []) == Init(Missing);
    Stepped(w, Missing, [], a);
    Stepped(w, Missing, [a], b);
    Stepped(w, Missing, [a, b], c);
    assert [] + [a] == [a] && [a] + [b] == [a, b] && [a, b] + [c] == [a, b, c] && [a, b, c][..1] == [a];
    assert Apply(w, Init(Missing), a) == BOOTED;
    FirstLoses(w, nonce);
    SecondAdmits(w, nonce);
    hide Execute, AdmitStep, Writable, OneEntry, LeftOver;
    FirstRefreshes(w, Execute(w, Missing, [a, b, c]), nonce);
  }
}
