/** The proof journal as the controller holds it: maps changed in place under the mutex, with explicit roll-back. */
module ProofServer {
  import opened ProofJournal
  import opened ProofJournalVerdicts

  // ---------------------------------------------------------------- checks on a decoded file

  method NoncesValid(j: Journal, legacy: bool) returns (ok: bool)
    ensures ok <==> NamedNonces(j) && (legacy || Stamped(j))
  {
    var left := j.nonces.Keys;
    while left != {}
      invariant left <= j.nonces.Keys
      invariant forall k :: k in j.nonces && k !in left ==> k != "" && j.nonces[k] != "" && (legacy || (k in j.issuedAt && j.issuedAt[k] != 0))
      decreases left
    {
      var k :| k in left;
      if k == "" || j.nonces[k] == "" { return false; }
      if !legacy && (k !in j.issuedAt || j.issuedAt[k] == 0) { return false; }
      left := left - {k};
    }
    return true;
  }

  method StampsKnown(j: Journal) returns (ok: bool)
    ensures ok <==> j.issuedAt.Keys <= j.nonces.Keys
  {
    var left := j.issuedAt.Keys;
    while left != {}
      invariant left <= j.issuedAt.Keys && j.issuedAt.Keys - left <= j.nonces.Keys
      decreases left
    {
      var k :| k in left;
      if k !in j.nonces { return false; }
      left := left - {k};
    }
    return true;
  }

  /** One of the three counter maps: named, non-zero, and present in the other two. */
  method CounterValid(m: map<string, nat>, a: map<string, nat>, b: map<string, nat>) returns (ok: bool)
    ensures ok <==> Positive(m) && m.Keys <= a.Keys && m.Keys <= b.Keys
  {
    var left := m.Keys;
    while left != {}
      invariant left <= m.Keys && m.Keys - left <= a.Keys && m.Keys - left <= b.Keys
      invariant forall k :: k in m && k !in left ==> k != "" && m[k] != 0
      decreases left
    {
      var k :| k in left;
      if k == "" || m[k] == 0 || k !in a || k !in b { return false; }
      left := left - {k};
    }
    return true;
  }

  method Check(j: Journal, legacy: bool) returns (ok: bool)
    ensures ok <==> Acceptable(j, legacy)
  {
    if |j.nonces| > MAX_ENTRIES || |j.high| > MAX_ENTRIES || |j.fences| > MAX_ENTRIES || |j.generations| > MAX_ENTRIES { return false; }
    var nonces := NoncesValid(j, legacy);
    if !nonces { return false; }
    var stamps := StampsKnown(j);
    if !stamps { return false; }
    var high := CounterValid(j.high, j.fences, j.generations);
    if !high { return false; }
    var fences := CounterValid(j.fences, j.high, j.generations);
    if !fences { return false; }
    ok := CounterValid(j.generations, j.high, j.fences);
  }

  method CounterNotBelow(m: map<string, nat>, resident: map<string, nat>) returns (ok: bool)
    ensures ok <==> NotBelow(m, resident)
  {
    var left := m.Keys;
    while left != {}
      invariant left <= m.Keys && forall k :: k in m && k !in left && k in resident ==> resident[k] <= m[k]
      decreases left
    {
      var k :| k in left;
      if k in resident && resident[k] > m[k] { return false; }
      left := left - {k};
    }
    return true;
  }

  method DigestsAgree(m: map<string, string>, resident: map<string, string>) returns (ok: bool)
    ensures ok <==> forall k :: k in m && k in resident ==> resident[k] == m[k]
  {
    var left := m.Keys;
    while left != {}
      invariant left <= m.Keys && forall k :: k in m && k !in left && k in resident ==> resident[k] == m[k]
      decreases left
    {
      var k :| k in left;
      if k in resident && resident[k] != m[k] { return false; }
      left := left - {k};
    }
    return true;
  }

  /** Copies one map over another, entry by entry. */
  method Overlay<V>(m: map<string, V>, over: map<string, V>) returns (r: map<string, V>)
    ensures r == m + over
  {
    r := m;
    var left := over.Keys;
    while left != {}
      invariant left <= over.Keys && r.Keys == m.Keys + (over.Keys - left)
      invariant forall k :: k in r ==> r[k] == if k in over && k !in left then over[k] else m[k]
      decreases left
    {
      var k :| k in left;
      r := r[k := over[k]];
      left := left - {k};
    }
  }

  predicate Linked(session: string, gone: set<string>) {
    exists k :: k in gone && HasSuffix(session, "|" + k)
  }

  /** The session entries that do not belong to a key in `gone`. */
  function Unlinked(sessions: map<string, string>, gone: set<string>): map<string, string> {
    map s | s in sessions && !Linked(s, gone) :: sessions[s]
  }

  lemma UnlinkedMore(sessions: map<string, string>, gone: set<string>, key: string)
    ensures var fewer := Unlinked(sessions, gone);
            Unlinked(sessions, gone + {key}) == map s | s in fewer && !HasSuffix(s, "|" + key) :: fewer[s]
  {
    hide HasSuffix;
    forall s ensures Linked(s, gone + {key}) <==> Linked(s, gone) || HasSuffix(s, "|" + key) {
      if HasSuffix(s, "|" + key) { assert key in gone + {key}; }
    }
  }

  lemma CompactIs(w: World, j: Journal, sessions: map<string, string>, now: int, gone: set<string>)
    requires forall k :: k in gone <==> k in j.nonces && Aged(w, j, k, now)
    ensures Compact(w, j, now) == j.(nonces := j.nonces - gone, issuedAt := j.issuedAt - gone)
    ensures CompactSessions(w, j, sessions, now) == Unlinked(sessions, gone)
  {
    assert forall k :: k in j.issuedAt && Aged(w, j, k, now) ==> k in gone;
    hide Aged, HasSuffix;
    forall s ensures Orphan(w, j, s, now) <==> Linked(s, gone) {
      if Orphan(w, j, s, now) { var k :| k in j.nonces && Aged(w, j, k, now) && HasSuffix(s, "|" + k); assert k in gone; }
      if Linked(s, gone) { var k :| k in gone && HasSuffix(s, "|" + k); assert k in j.nonces; }
    }
  }

  class Server {
    const w: World
    var nonces: map<string, string>
    var issuedAt: map<string, int>
    var sessions: map<string, string>
    var high: map<string, nat>
    var fences: map<string, nat>
    var generations: map<string, nat>
    var failed: bool
    ghost var files: set<File>
    ghost var log: seq<Admission>

    function Resident(): Journal
      reads this
    {
      Journal(nonces, issuedAt, high, fences, generations)
    }

    ghost function View(): State
      reads this
    {
      State(true, failed, Resident(), sessions, files, log)
    }

    /** Removes the session entries of one nonce key. */
    method DropSessions(key: string)
      modifies this`sessions
      ensures sessions == map s | s in old(sessions) && !HasSuffix(s, "|" + key) :: old(sessions)[s]
    {
      hide HasSuffix;
      var left := sessions.Keys;
      while left != {}
        invariant left <= old(sessions).Keys && forall s :: s in sessions <==> s in old(sessions) && (s in left || !HasSuffix(s, "|" + key))
        invariant forall s :: s in sessions ==> sessions[s] == old(sessions)[s]
        decreases left
      {
        var s :| s in left;
        if HasSuffix(s, "|" + key) { sessions := sessions - {s}; }
        left := left - {s};
      }
    }

    /** Deletes the nonces older than the retention, with their times and their session entries. */
    method CompactLocked(now: int)
      modifies this`nonces, this`issuedAt, this`sessions
      ensures Resident() == Compact(w, old(Resident()), now)
      ensures sessions == CompactSessions(w, old(Resident()), old(sessions), now)
    {
      ghost var j, gone: set<string> := Resident(), {};
      var left := nonces.Keys;
      while left != {}
        invariant left <= j.nonces.Keys && nonces == j.nonces - gone && issuedAt == j.issuedAt - gone && gone !! left
        invariant forall k :: k in gone <==> k in j.nonces && k !in left && Aged(w, j, k, now)
        invariant sessions == Unlinked(old(sessions), gone)
        decreases left
      {
        var key :| key in left;
        left := left - {key};
        var issued := if key in issuedAt then issuedAt[key] else 0;
        if issued == 0 { issued := w.legacyTime(key); }
        assert Aged(w, j, key, now) <==> issued != 0 && now - issued > Retention(w);
        hide Aged, HasSuffix;
        if issued != 0 && now - issued > Retention(w) {
          nonces, issuedAt := nonces - {key}, issuedAt - {key};
          UnlinkedMore(old(sessions), gone, key);
          DropSessions(key);
          gone := gone + {key};
        }
      }
      CompactIs(w, j, old(sessions), now, gone);
    }

    /** Validates first, then merges: a refused body leaves everything as it was. */
    method LoadBody(body: Body, now: int) returns (ok: bool)
      modifies this`nonces, this`issuedAt, this`sessions, this`high, this`fences, this`generations
      ensures ok <==> ProofJournal.LoadBody(w, old(Resident()), body, now).Loaded?
      ensures ok ==> Resident() == ProofJournal.LoadBody(w, old(Resident()), body, now).journal
      ensures !ok ==> View() == old(View())
    {
      hide Acceptable, Compact, CompactSessions;
      if body.Malformed? { return false; }
      if body.Legacy? && (high != map[] || fences != map[] || generations != map[]) { return false; }
      var j := Envelope(body);
      ok := Check(j, body.Legacy?);
      if !ok { return; }
      ok := DigestsAgree(j.nonces, nonces);
      if !ok { return; }
      ok := CounterNotBelow(j.high, high);
      if !ok { return; }
      ok := CounterNotBelow(j.fences, fences);
      if !ok { return; }
      ok := CounterNotBelow(j.generations, generations);
      if !ok { return; }
      nonces := Overlay(nonces, j.nonces);
      issuedAt := Overlay(issuedAt, j.issuedAt);
      high := Overlay(high, j.high);
      fences := Overlay(fences, j.fences);
      generations := Overlay(generations, j.generations);
      CompactLocked(now);
    }

    /** Compacts, checks the bounds, and attempts the write. */
    method PersistLocked(now: int, o: Write) returns (ok: bool)
      modifies this`nonces, this`issuedAt, this`sessions, this`files
      ensures Resident() == Compact(w, old(Resident()), now)
      ensures sessions == CompactSessions(w, old(Resident()), old(sessions), now)
      ensures (ok, files) == Written(w, old(files), Resident(), o)
    {
      hide Compact, CompactSessions;
      CompactLocked(now);
      var j := Resident();
      if |j.nonces| > MAX_ENTRIES || |j.high| > MAX_ENTRIES || |j.fences| > MAX_ENTRIES || |j.generations| > MAX_ENTRIES || w.size(j) > MAX_BYTES {
        return false;
      }
      match o
      case LostBeforeRename => return false;
      case Durable => files := {File(V2(j))}; return true;
      case LostAfterRename => files := files + {File(V2(j))}; return false;
    }

    method EnterLocked(q: Request, time: int)
      modifies this`nonces, this`issuedAt, this`sessions, this`high, this`fences, this`generations
      ensures Resident() == Entry(w, old(Resident()), q, time)
      ensures sessions == if q.session != "" then old(sessions)[q.session + "|" + NonceKey(q) := q.digest] else old(sessions)
    {
      hide NonceKey, HighKey;
      var key, hw := NonceKey(q), HighKey(q);
      nonces, issuedAt := nonces[key := q.digest], issuedAt[key := time];
      high := high[hw := w.epoch(q.nonce)];
      if q.newFence > Counter(fences, hw) { fences := fences[hw := q.newFence]; }
      if q.generation > Counter(generations, hw) { generations := generations[hw := q.generation]; }
      if q.session != "" { sessions := sessions[q.session + "|" + key := q.digest]; }
    }

    /** Puts the journal maps back to what they were before the entry. */
    method RollBack(q: Request, before: Journal)
      requires OneApart(high, before.high, HighKey(q)) && OneApart(fences, before.fences, HighKey(q))
      requires OneApart(generations, before.generations, HighKey(q))
      modifies this`nonces, this`issuedAt, this`high, this`fences, this`generations
      ensures Resident() == Undone(old(Resident()), before, q)
    {
      hide NonceKey, HighKey;
      nonces, issuedAt := nonces - {NonceKey(q)}, issuedAt - {NonceKey(q)};
      high := PutBack(high, before.high, HighKey(q));
      fences := PutBack(fences, before.fences, HighKey(q));
      generations := PutBack(generations, before.generations, HighKey(q));
    }

    /** Admits a proof once; a failed write puts the five journal maps back, but not the session entry. */
    method Admit(q: Request, t1: int, t2: int, t3: int, o: Write) returns (verdict: Verdict)
      modifies this
      ensures (verdict, View()) == AdmitStep(w, old(View()), q, t1, t2, t3, o)
      ensures VerdictMeans(w, old(View()), q, t1, t2, t3, o, verdict)
    {
      VerdictsMean(w, View(), q, t1, t2, t3, o);
      hide VerdictMeans;
      if !Bound(w, q) { return Unbound; }
      hide Compact, CompactSessions, Written, NonceKey, HighKey, Bound, Objection;
      CompactLocked(t1);
      if !w.configured { return Unconfigured; }
      if failed { return Unavailable; }
      var objection := Objection(w, Resident(), sessions, q);
      if objection != Admitted { return objection; }
      hide EnterStep;
      verdict := EnterAndPersist(q, t2, t3, o);
    }

    method EnterAndPersist(q: Request, t2: int, t3: int, o: Write) returns (verdict: Verdict)
      modifies this
      ensures (verdict, View()) == EnterStep(w, old(View()), q, t2, t3, o)
    {
      hide Compact, CompactSessions, Written, NonceKey, HighKey, Entry, Undone;
      var before := Resident();
      EnterLocked(q, t2);
      EntryApart(w, before, q, t2, t3);
      var ok := PersistLocked(t3, o);
      if !ok {
        RollBack(q, before);
        return WriteFailed;
      }
      log := log + [AdmissionOf(w, q)];
      return Admitted;
    }
  }

  /** The maps agree except perhaps at `k`. */
  predicate OneApart(m: map<string, nat>, before: map<string, nat>, k: string) {
    m.Keys + {k} == before.Keys + {k} && forall i :: i in m && i != k ==> i in before && m[i] == before[i]
  }

  function PutBack(m: map<string, nat>, before: map<string, nat>, k: string): (r: map<string, nat>)
    requires OneApart(m, before, k)
    ensures r == before
  {
    assert forall i :: i in m || i == k <==> i in m.Keys + {k};
    assert forall i :: i in before || i == k <==> i in before.Keys + {k};
    if k in before then m[k := before[k]] else m - {k}
  }

  lemma EntryApart(w: World, j: Journal, q: Request, t2: int, t3: int)
    ensures var t, hw := Compact(w, Entry(w, j, q, t2), t3), HighKey(q);
            OneApart(t.high, j.high, hw) && OneApart(t.fences, j.fences, hw) && OneApart(t.generations, j.generations, hw)
  {
    hide HighKey, Aged;
  }
}
