/** The invariant of the harness and its preservation by every event. */
module HarnessInvariant {
  import opened HarnessModel

  // ---------------------------------------------------------------- the invariant

  /** Chunk `i` of the row may never be submitted again: it is behind, under custody, or the row cannot run. */
  predicate Spent(x: Execution, i: nat) {
    i < x.next || (i == x.next && (x.submission != NoSubmission || !(x.phase == Running || Resumable(x.phase))))
  }

  predicate Quiet(phase: Phase) {
    phase == Completed || phase == Cancelled || phase == Failed || Resumable(phase)
  }

  ghost predicate HistoriesFrom(past: Past, x: Execution) {
    forall p :: p in x.histories ==>
      p in past.origin && past.origin[p].id == x.id && past.origin[p].key == x.key && past.origin[p].chunk < x.next
  }

  /** What every row satisfies, in memory and in every file a crash may leave. */
  ghost predicate GoodRow(w: World, past: Past, id: string, x: Execution) {
    && x.id == id && RowLoads(w, x)
    && (x.submission == NoSubmission <==> x.submittingChunk == "")
    && (Quiet(x.phase) ==> x.submission == NoSubmission && x.prompt == "")
    && x.epoch >= 1
    && HistoriesFrom(past, x)
    && (forall c :: c in past.claimed && c.id == id ==> c.key == x.key && Spent(x, c.chunk))
    && (x.ref != "" ==> x.ref in past.refs && past.refs[x.ref] == id && x.ref !in past.resumed)
  }

  ghost predicate Good(w: World, past: Past, rows: Rows) {
    && (forall id :: id in rows ==> GoodRow(w, past, id, rows[id]))
    && DistinctKeys(rows)
    && (forall c :: c in past.claimed ==> c.id in rows)
  }

  ghost predicate PastOk(past: Past) {
    && (forall i, j :: 0 <= i < j < |past.posts| ==> past.posts[i] != past.posts[j])
    && (forall c :: c in past.posts ==> c in past.claimed)
    && (forall p :: p in past.origin ==> past.origin[p] in past.posts)
    && (forall p, q :: p in past.origin && q in past.origin && past.origin[p] == past.origin[q] ==> p == q)
    && (forall i, j :: 0 <= i < j < |past.resumed| ==> past.resumed[i] != past.resumed[j])
    && (forall ref :: ref in past.resumed ==> ref in past.refs)
  }

  ghost predicate KeysOk(s: State) {
    && (forall id :: id in s.rows ==> s.rows[id].key in s.keys && s.keys[s.rows[id].key] == id)
    && (forall k :: k in s.keys ==> s.keys[k] in s.rows && s.rows[s.keys[k]].key == k)
  }

  predicate Busy(pc: Pc) {
    pc.Submit? || pc.Await? || pc.Poll? || pc.Result?
  }

  function ClaimOf(s: State, r: RunId, chunk: nat): Claim
    requires r.0 in s.rows
  {
    Claim(r.0, s.rows[r.0].key, chunk)
  }

  ghost predicate RunOk(w: World, s: State, r: RunId) 
    requires r in s.runs
  {
    var pc := s.runs[r];
    && r.0 in s.rows && r.1 <= s.rows[r.0].epoch
    && (Busy(pc) && Current(s, r) ==> s.rows[r.0].next == pc.chunk && s.rows[r.0].submission != NoSubmission)
    && (pc.Submit? || pc.Await? ==>
          ClaimOf(s, r, pc.chunk) in s.past.claimed && (ClaimOf(s, r, pc.chunk) in s.past.posts <==> pc.Await?)
          && forall p :: p in s.past.origin ==> s.past.origin[p] != ClaimOf(s, r, pc.chunk))
    && (pc.Poll? ==> pc.prompt != "" && pc.prompt in s.past.origin && s.past.origin[pc.prompt] == ClaimOf(s, r, pc.chunk))
    && (pc.Result? && pc.outcome.Succeeded? ==>
          pc.outcome.prompt != "" && w.validJson(pc.outcome.record)
          && pc.outcome.prompt in s.past.origin && s.past.origin[pc.outcome.prompt] == ClaimOf(s, r, pc.chunk))
  }

  predicate Unsent(pc: Pc) {
    pc.Submit? || pc.Await?
  }

  /** No two goroutines hold the same open submission. */
  ghost predicate RunsApart(s: State) {
    forall a, b :: a in s.runs && b in s.runs && a != b && a.0 == b.0 && Unsent(s.runs[a]) && Unsent(s.runs[b])
      ==> s.runs[a].chunk != s.runs[b].chunk
  }

  /** Every running row has a goroutine of its epoch that has not returned. */
  ghost predicate Staffed(s: State) {
    forall id :: id in s.rows && s.rows[id].phase == Running ==>
      (id, s.rows[id].epoch) in s.runs && !s.runs[(id, s.rows[id].epoch)].Gone?
  }

  predicate Doomed(phase: Phase) {
    phase in {Cancelling, Uncertain, Cancelled}
  }

  ghost predicate ProbesOk(s: State) {
    forall r :: r in s.probes ==> r.0 in s.rows && Doomed(s.rows[r.0].phase)
  }

  ghost predicate RunsOk(w: World, s: State) {
    forall r :: r in s.runs ==> RunOk(w, s, r)
  }

  ghost predicate Tracks(w: World, s: State) {
    RunsOk(w, s) && RunsApart(s) && Staffed(s) && ProbesOk(s) && KeysOk(s)
  }

  /** Only a row without outputs can have a nil output map. */
  ghost predicate BareOk(s: State) {
    forall id :: id in s.bare ==> id in s.rows && s.rows[id].histories == map[]
  }

  ghost predicate Live(w: World, s: State) {
    Good(w, s.past, s.rows) && Tracks(w, s) && BareOk(s)
  }

  ghost predicate ImagesOk(w: World, past: Past, images: set<Rows>) {
    && images != {}
    && forall rows: Rows :: rows in images ==> Good(w, past, rows) && (rows == map[] || Fits(w, rows))
  }

  ghost predicate Inv(w: World, s: State) {
    && PastOk(s.past)
    && ImagesOk(w, s.past, s.images)
    && (s.up ==> Live(w, s))
  }

  // ---------------------------------------------------------------- building blocks

  lemma PersistKeeps(w: World, past: Past, images: set<Rows>, rows: Rows, o: Write)
    requires ImagesOk(w, past, images) && Good(w, past, rows)
    ensures ImagesOk(w, past, Persist(w, images, rows, o).1)
  {}

  lemma PutKeeps(w: World, past: Past, rows: Rows, id: string, x: Execution)
    requires Good(w, past, rows) && id in rows && x.key == rows[id].key && GoodRow(w, past, id, x)
    ensures Good(w, past, rows[id := x])
  {}

  lemma TryKeeps(w: World, s: State, id: string, candidate: Execution, fallback: Execution, o: Write)
    requires Good(w, s.past, s.rows) && ImagesOk(w, s.past, s.images) && id in s.rows
    requires candidate.key == fallback.key == s.rows[id].key
    requires GoodRow(w, s.past, id, candidate) && GoodRow(w, s.past, id, fallback)
    ensures var (ok, t) := TryRow(w, s, id, candidate, fallback, o);
            && ImagesOk(w, s.past, t.images) && Good(w, s.past, t.rows)
            && (ok ==> t.images == {t.rows})
  {
    PutKeeps(w, s.past, s.rows, id, candidate);
    PutKeeps(w, s.past, s.rows, id, fallback);
    PersistKeeps(w, s.past, s.images, s.rows[id := candidate], o);
  }

  /** The history may grow as long as nothing a row relies on is contradicted. */
  ghost predicate Extends(old_: Past, new_: Past) {
    && new_.claimed == old_.claimed
    && (forall p :: p in old_.origin ==> p in new_.origin && new_.origin[p] == old_.origin[p])
    && (forall r :: r in old_.refs ==> r in new_.refs && new_.refs[r] == old_.refs[r])
  }

  lemma PastGrows(w: World, past: Past, past': Past, rows: Rows)
    requires Good(w, past, rows) && Extends(past, past')
    requires forall id :: id in rows && rows[id].ref != "" ==> rows[id].ref !in past'.resumed
    ensures Good(w, past', rows)
  {
    forall id | id in rows ensures GoodRow(w, past', id, rows[id]) {
      assert GoodRow(w, past, id, rows[id]);
    }
  }

  lemma ImagesGrow(w: World, past: Past, past': Past, images: set<Rows>)
    requires ImagesOk(w, past, images) && Extends(past, past') && past'.resumed == past.resumed
    ensures ImagesOk(w, past', images)
  {
    forall rows: Rows | rows in images ensures Good(w, past', rows) {
      forall id | id in rows && rows[id].ref != "" ensures rows[id].ref !in past'.resumed {
        assert GoodRow(w, past, id, rows[id]);
      }
      PastGrows(w, past, past', rows);
    }
  }

  /** A changed row leaves a goroutine consistent if the goroutine is not current or its chunk is still under custody. */
  lemma RowChangeRun(w: World, s: State, id: string, x: Execution, r: RunId)
    requires r in s.runs && RunOk(w, s, r) && id in s.rows && x.key == s.rows[id].key && s.rows[id].epoch <= x.epoch
    requires r.0 == id && Busy(s.runs[r]) && x.phase == Running && x.epoch == r.1 ==>
               Current(s, r) && x.next == s.rows[id].next && x.submission != NoSubmission
    ensures RunOk(w, s.(rows := s.rows[id := x]), r)
  {}

  /** Replacing a row by one that does not run keeps the goroutines consistent. */
  lemma StopRow(w: World, s: State, id: string, x: Execution)
    requires Tracks(w, s) && id in s.rows && x.key == s.rows[id].key
    requires x.phase != Running && s.rows[id].epoch <= x.epoch && (Doomed(s.rows[id].phase) ==> Doomed(x.phase))
    ensures Tracks(w, s.(rows := s.rows[id := x]))
  {
    hide RunOk;
    var t := s.(rows := s.rows[id := x]);
    forall r | r in t.runs ensures RunOk(w, t, r) {
      RunFact(w, s, r);
      RowChangeRun(w, s, id, x, r);
    }
  }

  /** Replacing a row without touching its progress, epoch or phase keeps the goroutines consistent. */
  lemma KeepRow(w: World, s: State, id: string, x: Execution)
    requires Tracks(w, s) && id in s.rows && x.key == s.rows[id].key
    requires x.phase == s.rows[id].phase && x.epoch == s.rows[id].epoch && x.next == s.rows[id].next
    requires s.rows[id].submission != NoSubmission ==> x.submission != NoSubmission
    ensures Tracks(w, s.(rows := s.rows[id := x]))
  {
    hide RunOk;
    var t := s.(rows := s.rows[id := x]);
    forall r | r in t.runs ensures RunOk(w, t, r) {
      RunFact(w, s, r);
      BusyCustody(w, s, r);
      RowChangeRun(w, s, id, x, r);
    }
  }

  lemma BusyCustody(w: World, s: State, r: RunId)
    requires r in s.runs && RunOk(w, s, r)
    ensures r.0 in s.rows && (Busy(s.runs[r]) && Current(s, r) ==> s.rows[r.0].submission != NoSubmission)
  {}

  lemma RunFact(w: World, s: State, r: RunId)
    requires Tracks(w, s) && r in s.runs
    ensures RunOk(w, s, r)
  {
    hide RunsApart, Staffed, ProbesOk, KeysOk, RunOk;
  }

  /** Moving a goroutine to a point where it holds no open submission keeps the goroutines consistent. */
  lemma MoveRun(w: World, s: State, r: RunId, pc: Pc)
    requires Tracks(w, s) && r in s.runs && !Unsent(pc)
    requires RunOk(w, SetRun(s, r, pc), r)
    requires pc.Gone? ==> !Current(s, r)
    ensures Tracks(w, SetRun(s, r, pc))
  {
    var t := SetRun(s, r, pc);
    forall q | q in t.runs ensures RunOk(w, t, q) { assert q != r ==> RunOk(w, s, q); }
  }

  lemma RetireRun(w: World, s: State, r: RunId)
    requires Tracks(w, s) && r in s.runs && !Current(s, r)
    ensures Tracks(w, SetRun(s, r, Gone))
  {
    assert RunOk(w, s, r);
    MoveRun(w, s, r, Gone);
  }

  lemma SetImages(w: World, s: State, images: set<Rows>)
    requires Tracks(w, s)
    ensures Tracks(w, s.(images := images))
  {
    var t := s.(images := images);
    forall r | r in t.runs ensures RunOk(w, t, r) { assert RunOk(w, s, r); }
  }

  /** A replacement row that is good on its own and either stops the row or leaves its course alone. */
  ghost predicate Fine(w: World, s: State, id: string, x: Execution)
    requires id in s.rows
  {
    var y := s.rows[id];
    && x.key == y.key && GoodRow(w, s.past, id, x) && (id in s.bare ==> x.histories == map[])
    && (|| (x.phase != Running && y.epoch <= x.epoch && (Doomed(y.phase) ==> Doomed(x.phase)))
        || (x.phase == y.phase && x.epoch == y.epoch && x.next == y.next && (y.submission != NoSubmission ==> x.submission != NoSubmission)))
  }

  lemma BarePut(s: State, t: State, id: string, x: Execution)
    requires BareOk(s) && (id in s.bare ==> x.histories == map[]) && t.rows == s.rows[id := x] && t.bare == s.bare
    ensures BareOk(t)
  {}

  lemma ReplaceRow(w: World, s: State, id: string, x: Execution, images: set<Rows>)
    requires Inv(w, s) && s.up && id in s.rows && Fine(w, s, id, x) && ImagesOk(w, s.past, images)
    ensures Inv(w, s.(rows := s.rows[id := x], images := images))
  {
    hide Good, GoodRow, Tracks, ImagesOk, PastOk, BareOk;
    PutKeeps(w, s.past, s.rows, id, x);
    BarePut(s, s.(rows := s.rows[id := x], images := images), id, x);
    if x.phase != Running && s.rows[id].epoch <= x.epoch && (Doomed(s.rows[id].phase) ==> Doomed(x.phase)) {
      StopRow(w, s, id, x);
    } else {
      KeepRow(w, s, id, x);
    }
    SetImages(w, s.(rows := s.rows[id := x]), images);
  }

  lemma TryFine(w: World, s: State, id: string, candidate: Execution, fallback: Execution, o: Write)
    requires Inv(w, s) && s.up && id in s.rows && Fine(w, s, id, candidate) && Fine(w, s, id, fallback)
    ensures var (ok, t) := TryRow(w, s, id, candidate, fallback, o); Inv(w, t) && (ok ==> t.images == {t.rows})
  {
    TryKeeps(w, s, id, candidate, fallback, o);
    var (ok, t) := TryRow(w, s, id, candidate, fallback, o);
    ReplaceRow(w, s, id, if ok then candidate else fallback, t.images);
  }

  lemma FlushKeeps(w: World, s: State, o: Write)
    requires Inv(w, s) && s.up
    ensures Inv(w, Flush(w, s, o))
  {
    PersistKeeps(w, s.past, s.images, s.rows, o);
    SetImages(w, s, Flush(w, s, o).images);
  }

  lemma RetireKeeps(w: World, s: State, r: RunId)
    requires Inv(w, s) && s.up && r in s.runs && !Current(s, r)
    ensures Inv(w, SetRun(s, r, Gone))
  {
    RetireRun(w, s, r);
  }

  /** Storing a row that does not run and retiring its goroutine. */
  lemma GiveUp(w: World, s: State, r: RunId, x: Execution, o: Write)
    requires Inv(w, s) && s.up && r in s.runs && r.0 in s.rows && Fine(w, s, r.0, x) && x.phase != Running
    ensures Inv(w, StoreAnyway(w, s, r, x, Gone, o))
  {
    hide Inv, Fine;
    StoreRow(w, s, r.0, x);
    FlushKeeps(w, s.(rows := s.rows[r.0 := x]), o);
    RetireKeeps(w, Flush(w, s.(rows := s.rows[r.0 := x]), o), r);
  }

  lemma StoreRow(w: World, s: State, id: string, x: Execution)
    requires Inv(w, s) && s.up && id in s.rows && Fine(w, s, id, x)
    ensures Inv(w, s.(rows := s.rows[id := x]))
  {
    hide Good, Tracks, Fine;
    ReplaceRow(w, s, id, x, s.images);
    assert s.(rows := s.rows[id := x]) == s.(rows := s.rows[id := x], images := s.images);
  }

  /** Neither files nor goroutines depend on which output maps are nil, or on the lock. */
  lemma SameKeeps(w: World, s: State, t: State)
    requires Inv(w, s) && (s.up ==> BareOk(t)) && t == s.(closed := t.closed, stops := t.stops, bare := t.bare, stuck := t.stuck)
    ensures Inv(w, t)
  {
    hide Good;
    if s.up {
      forall r | r in t.runs ensures RunOk(w, t, r) { assert RunOk(w, s, r); }
    }
  }

  lemma BareFact(w: World, s: State)
    requires Inv(w, s) && s.up
    ensures BareOk(s)
  {
    hide Good, Tracks;
  }

  lemma PutBackKeeps(w: World, s: State, id: string)
    requires Inv(w, s) && s.up
    ensures Inv(w, PutBack(s, id))
  {
    hide Inv;
    BareFact(w, s);
    SameKeeps(w, s, PutBack(s, id));
  }

  // ---------------------------------------------------------------- rewriting one row

  /** The fields a step other than a chunk commit never touches. */
  predicate SameCore(x: Execution, y: Execution) {
    && y.id == x.id && y.key == x.key && y.payloadHash == x.payloadHash
    && y.chunks == x.chunks && y.next == x.next && y.histories == x.histories
  }

  /** The unquantified part of a good row. */
  predicate Shape(y: Execution) {
    && !y.phase.UnknownPhase? && !y.submission.UnknownSubmission?
    && (y.submission == NoSubmission <==> y.submittingChunk == "")
    && (y.submission != NoSubmission ==> 0 <= y.next < |y.chunks| && y.submittingChunk == y.chunks[y.next].id)
    && (y.prompt != "" ==> y.submission == Accepted || y.submission == Unknown)
    && (Quiet(y.phase) ==> y.submission == NoSubmission && y.prompt == "")
    && (y.phase == Completed ==> y.next == |y.chunks|)
    && y.epoch >= 1
    && (y.ref == "" ==> y.refChunk == 0 && y.refEpoch == 0)
    && (y.ref != "" ==> Resumable(y.phase) && ValidRef(y.ref) && y.refChunk == y.next && y.refEpoch == y.epoch)
    && (Resumable(y.phase) ==> y.ref != "")
    && (y.phase == Cancelling ==> y.requested == CancelRequest)
  }

  /** The chunk at the cursor may not be submitted. */
  predicate Held(x: Execution) {
    x.submission != NoSubmission || !(x.phase == Running || Resumable(x.phase))
  }

  lemma Shaped(w: World, past: Past, id: string, x: Execution)
    requires GoodRow(w, past, id, x)
    ensures Shape(x)
  {}

  lemma Reshape(w: World, past: Past, id: string, x: Execution, y: Execution)
    requires GoodRow(w, past, id, x) && SameCore(x, y) && Shape(y)
    requires Held(x) ==> Held(y)
    requires y.ref == "" || y.ref == x.ref
    ensures GoodRow(w, past, id, y)
  {}

  /** Rewriting a good row into any other shape that does not release its chunk is harmless. */
  predicate Rewrite(x: Execution, y: Execution) {
    && SameCore(x, y) && (Shape(x) ==> Shape(y)) && (Held(x) ==> Held(y)) && y.ref == ""
    && x.epoch <= y.epoch
    && (|| (y.phase != Running && (Doomed(x.phase) ==> Doomed(y.phase)))
        || (y.phase == x.phase && y.epoch == x.epoch && (x.submission != NoSubmission ==> y.submission != NoSubmission)))
  }

  lemma RowOf(w: World, s: State, id: string)
    requires Inv(w, s) && s.up && id in s.rows
    ensures GoodRow(w, s.past, id, s.rows[id]) && Shape(s.rows[id])
  {
    Shaped(w, s.past, id, s.rows[id]);
  }

  lemma RewriteFine(w: World, s: State, id: string, y: Execution)
    requires Inv(w, s) && s.up && id in s.rows && Rewrite(s.rows[id], y)
    ensures Fine(w, s, id, y)
  {
    RowOf(w, s, id);
    BareFact(w, s);
    Reshape(w, s.past, id, s.rows[id], y);
  }

  /** A persisted rewrite, with a rewrite to fall back on, keeps the invariant. */
  lemma TryRewrite(w: World, s: State, id: string, c: Execution, f: Execution, o: Write)
    requires Inv(w, s) && s.up && id in s.rows && Rewrite(s.rows[id], c) && (f == s.rows[id] || Rewrite(s.rows[id], f))
    ensures Inv(w, TryRow(w, s, id, c, f, o).1)
  {
    RewriteFine(w, s, id, c);
    RowOf(w, s, id);
    if f != s.rows[id] { RewriteFine(w, s, id, f); }
    TryFine(w, s, id, c, f, o);
  }

  lemma CopyRewrite(w: World, s: State, id: string, c: Execution, f: Execution, o: Write)
    requires Inv(w, s) && s.up && id in s.rows && Rewrite(s.rows[id], c) && (f == s.rows[id] || Rewrite(s.rows[id], f))
    ensures Inv(w, TryCopy(w, s, id, c, f, o).1) && TryCopy(w, s, id, c, f, o).1.up
  {
    hide Inv, Rewrite;
    TryRewrite(w, s, id, c, f, o);
    PutBackKeeps(w, TryRow(w, s, id, c, f, o).1, id);
  }

  // ---------------------------------------------------------------- control requests

  lemma BoundaryKeeps(w: World, s: State, id: string, want: Request, o: Write)
    requires Inv(w, s) && s.up
    ensures Inv(w, BoundaryStep(w, s, id, want, o).1)
  {
    hide Inv, GoodRow;
    if id in s.rows && s.rows[id].phase == Running {
      RowOf(w, s, id);
      CopyRewrite(w, s, id, s.rows[id].(requested := want), s.rows[id], o);
    }
  }

  lemma UnprovenKeeps(w: World, s: State, id: string, o: Write)
    requires Inv(w, s) && s.up && id in s.rows && (s.rows[id].phase == Running || Doomed(s.rows[id].phase))
    ensures Inv(w, UnprovenStep(w, s, id, o).1)
  {
    hide Inv, GoodRow;
    RowOf(w, s, id);
    var x := s.rows[id];
    var c := Doubtful(x, IdentityUnknown).(epoch := x.epoch + 1);
    TryRewrite(w, s, id, c, Doubtful(c, CancelLost), o);
  }

  lemma ProbeTracks(w: World, s: State, id: string)
    requires Tracks(w, s) && id in s.rows && NoLiveRun(s, id) && !Quiet(s.rows[id].phase) && !s.rows[id].phase.UnknownPhase?
    ensures Tracks(w, s.(probes := s.probes + {(id, s.rows[id].epoch)}))
  {
    assert s.rows[id].phase != Running;
    var t := s.(probes := s.probes + {(id, s.rows[id].epoch)});
    forall r | r in t.runs ensures RunOk(w, t, r) { assert RunOk(w, s, r); }
  }

  lemma AddProbe(w: World, s: State, id: string)
    requires Inv(w, s) && s.up && id in s.rows && NoLiveRun(s, id) && !Quiet(s.rows[id].phase)
    ensures Inv(w, s.(probes := s.probes + {(id, s.rows[id].epoch)}))
  {
    hide Good, GoodRow, Tracks;
    RowOf(w, s, id);
    ProbeTracks(w, s, id);
  }

  lemma AddStop(w: World, s: State, r: RunId)
    requires Inv(w, s) && s.up
    ensures Inv(w, s.(stops := s.stops + {r}))
  {
    hide Inv;
    BareFact(w, s);
    SameKeeps(w, s, s.(stops := s.stops + {r}));
  }

  lemma CancelKeeps(w: World, s: State, id: string, o: Write)
    requires Inv(w, s) && s.up
    ensures Inv(w, CancelStep(w, s, id, o).1)
  {
    hide Inv, GoodRow, TryRow, TryCopy, UnprovenStep, NoLiveRun;
    if id in s.rows && !Quiet(s.rows[id].phase) {
      var x := s.rows[id];
      if x.submission == NoSubmission && x.prompt == "" {
        CancelNowKeeps(w, s, id, o);
      } else if x.submission == Submitting || x.submission == Unknown || x.prompt == "" {
        RowOf(w, s, id);
        hide Shape;
        if NoLiveRun(s, id) { AddProbe(w, s, id); } else { UnprovenKeeps(w, s, id, o); }
      } else {
        BeginStopKeeps(w, s, id, x, x.(phase := Cancelling, requested := CancelRequest, epoch := x.epoch + 1), o);
      }
    }
  }

  lemma CancelNowKeeps(w: World, s: State, id: string, o: Write)
    requires Inv(w, s) && s.up && id in s.rows && s.rows[id].submission == NoSubmission && s.rows[id].prompt == ""
    requires !Quiet(s.rows[id].phase)
    ensures var c := s.rows[id].(phase := Cancelled, requested := NoRequest, error := NoNote, epoch := s.rows[id].epoch + 1);
            Inv(w, TryRow(w, s, id, c, Doubtful(c, CancelLost), o).1)
  {
    hide Inv, GoodRow, TryRow;
    RowOf(w, s, id);
    var c := s.rows[id].(phase := Cancelled, requested := NoRequest, error := NoNote, epoch := s.rows[id].epoch + 1);
    assert Rewrite(s.rows[id], c) && Rewrite(s.rows[id], Doubtful(c, CancelLost));
    hide Rewrite, Shape;
    TryRewrite(w, s, id, c, Doubtful(c, CancelLost), o);
  }

  lemma BeginStopKeeps(w: World, s: State, id: string, x: Execution, c: Execution, o: Write)
    requires Inv(w, s) && s.up && id in s.rows && s.rows[id] == x && !Quiet(x.phase)
    requires c == x.(phase := Cancelling, requested := CancelRequest, epoch := x.epoch + 1)
    ensures var t := TryCopy(w, s, id, c, x, o).1; Inv(w, t) && Inv(w, t.(stops := t.stops + {(id, c.epoch)}))
  {
    hide Inv, GoodRow, TryCopy;
    RowOf(w, s, id);
    assert Rewrite(x, c);
    hide Rewrite, Shape;
    CopyRewrite(w, s, id, c, x, o);
    AddStop(w, TryCopy(w, s, id, c, x, o).1, (id, c.epoch));
  }

  lemma ProbedDoomed(w: World, s: State, r: RunId)
    requires Inv(w, s) && s.up && r in s.probes
    ensures r.0 in s.rows && Doomed(s.rows[r.0].phase)
  {
    hide Good;
  }

  lemma ProbedKeeps(w: World, s: State, id: string, epoch: nat, idle: bool, o: Write)
    requires Inv(w, s) && s.up && (id, epoch) in s.probes
    ensures Inv(w, ProbedStep(w, s, id, epoch, idle, o).1)
  {
    hide Inv, GoodRow, TryCopy, UnprovenStep, NoLiveRun;
    ProbedDoomed(w, s, (id, epoch));
    RowOf(w, s, id);
    var x := s.rows[id];
    if idle && x.epoch == epoch && NoLiveRun(s, id) && x.phase != Cancelled && x.phase != Completed && x.phase != Failed {
      var c := x.(phase := Cancelled, requested := NoRequest, error := NoNote, submission := NoSubmission,
                  submittingChunk := "", prompt := "", epoch := x.epoch + 1);
      CopyRewrite(w, s, id, c, x, o);
    } else {
      UnprovenKeeps(w, s, id, o);
    }
  }

  lemma StoppedKeeps(w: World, s: State, id: string, epoch: nat, failure: Option<Note>, o: Write)
    requires Inv(w, s) && s.up
    ensures Inv(w, StoppedStep(w, s, id, epoch, failure, o).1)
  {
    hide Inv, GoodRow;
    if id in s.rows && s.rows[id].phase == Cancelling {
      RowOf(w, s, id);
      var x := s.rows[id];
      if failure.Some? {
        TryRewrite(w, s, id, Doubtful(x, failure.value), Doubtful(x, failure.value), o);
      } else {
        CopyRewrite(w, s, id, x.(phase := Cancelled, requested := NoRequest, prompt := "", submission := NoSubmission,
                                submittingChunk := "", error := NoNote), x, o);
      }
    }
  }

  // ---------------------------------------------------------------- the run loop

  lemma RunRow(w: World, s: State, r: RunId)
    requires Inv(w, s) && s.up && r in s.runs
    ensures RunOk(w, s, r) && r.0 in s.rows
  {
    hide Good, RunOk;
    assert RunOk(w, s, r);
    RunHasRow(w, s, r);
  }

  lemma RunHasRow(w: World, s: State, r: RunId)
    requires r in s.runs && RunOk(w, s, r)
    ensures r.0 in s.rows
  {}

  /** A write attempt that ends the run either way. */
  lemma EndRun(w: World, s: State, r: RunId, c: Execution, f: Execution, o: Write)
    requires Inv(w, s) && s.up && r in s.runs && r.0 in s.rows
    requires Fine(w, s, r.0, c) && Fine(w, s, r.0, f) && c.phase != Running && f.phase != Running
    ensures Inv(w, TryOnce(w, s, r, c, f, Gone, o))
  {
    hide Inv, GoodRow, Fine;
    TryFine(w, s, r.0, c, f, o);
    PutBackKeeps(w, TryRow(w, s, r.0, c, f, o).1, r.0);
    RetireKeeps(w, TryCopy(w, s, r.0, c, f, o).1, r);
  }

  /** A failed write followed by one more attempt for the fallback row, ending the run. */
  lemma FallBack(w: World, s: State, r: RunId, c: Execution, f: Execution, good: Pc, o1: Write, o2: Write)
    requires Inv(w, s) && s.up && r in s.runs && r.0 in s.rows && c.key == s.rows[r.0].key && GoodRow(w, s.past, r.0, c)
    requires Fine(w, s, r.0, f) && f.phase != Running && !TryRow(w, s, r.0, c, f, o1).0
    ensures Inv(w, TryTwice(w, s, r, c, f, good, Gone, o1, o2).1)
  {
    var t := TryRow(w, s, r.0, c, f, o1).1;
    CandidateImages(w, s, r.0, c, o1);
    hide Inv, GoodRow, Fine;
    ReplaceRow(w, s, r.0, f, t.images);
    PutBackKeeps(w, t, r.0);
    var u := PutBack(t, r.0);
    FlushKeeps(w, u, o2);
    RetireKeeps(w, Flush(w, u, o2), r);
  }

  lemma CandidateImages(w: World, s: State, id: string, a: Execution, o: Write)
    requires Inv(w, s) && s.up && id in s.rows && GoodRow(w, s.past, id, a) && a.key == s.rows[id].key
    ensures ImagesOk(w, s.past, Persist(w, s.images, s.rows[id := a], o).1)
  {
    hide GoodRow, Tracks;
    PutKeeps(w, s.past, s.rows, id, a);
    hide Good;
    PersistKeeps(w, s.past, s.images, s.rows[id := a], o);
  }

  /** A row that ends the run when written, with a fallback that ends it too. */
  lemma EndTwice(w: World, s: State, r: RunId, c: Execution, f: Execution, o1: Write, o2: Write)
    requires Inv(w, s) && s.up && r in s.runs && r.0 in s.rows
    requires Fine(w, s, r.0, c) && Fine(w, s, r.0, f) && c.phase != Running && f.phase != Running
    ensures Inv(w, TryTwice(w, s, r, c, f, Gone, Gone, o1, o2).1)
  {
    hide Inv, GoodRow;
    if TryRow(w, s, r.0, c, f, o1).0 {
      EndRun(w, s, r, c, f, o1);
    } else {
      FallBack(w, s, r, c, f, Gone, o1, o2);
    }
  }

  lemma DoubtFine(w: World, s: State, id: string, error: Note)
    requires Inv(w, s) && s.up && id in s.rows && s.rows[id].phase == Running
    ensures Fine(w, s, id, Doubtful(s.rows[id], error))
    ensures s.rows[id].submission != NoSubmission ==> Fine(w, s, id, Doubtful(s.rows[id], error).(submission := Unknown))
  {
    hide Inv, GoodRow;
    RowOf(w, s, id);
    RewriteFine(w, s, id, Doubtful(s.rows[id], error));
    if s.rows[id].submission != NoSubmission {
      RewriteFine(w, s, id, Doubtful(s.rows[id], error).(submission := Unknown));
    }
  }

  /** Recording the claim of a freshly persisted intent. */
  lemma ClaimGoodRow(w: World, past: Past, id: string, x: Execution, c: Claim)
    requires GoodRow(w, past, id, x) && (c.id == id ==> x.key == c.key && Spent(x, c.chunk))
    ensures GoodRow(w, past.(claimed := past.claimed + {c}), id, x)
  {
    hide RowLoads;
  }

  lemma ClaimGood(w: World, past: Past, rows: Rows, c: Claim)
    requires Good(w, past, rows) && c.id in rows && rows[c.id].key == c.key && Spent(rows[c.id], c.chunk)
    ensures Good(w, past.(claimed := past.claimed + {c}), rows)
  {
    hide GoodRow, Spent;
    forall id | id in rows ensures GoodRow(w, past.(claimed := past.claimed + {c}), id, rows[id]) {
      ClaimGoodRow(w, past, id, rows[id], c);
    }
  }

  lemma ClaimTracks(w: World, s: State, r: RunId, chunk: nat)
    requires Tracks(w, s) && PastOk(s.past) && r in s.runs && s.runs[r] == Top && r.0 in s.rows
    requires s.rows[r.0].next == chunk && s.rows[r.0].submission != NoSubmission
    requires ClaimOf(s, r, chunk) !in s.past.claimed
    ensures var past' := s.past.(claimed := s.past.claimed + {ClaimOf(s, r, chunk)});
            Tracks(w, SetRun(s, r, Submit(chunk)).(past := past')) && PastOk(past')
  {
    var past' := s.past.(claimed := s.past.claimed + {ClaimOf(s, r, chunk)});
    var t := SetRun(s, r, Submit(chunk)).(past := past');
    assert RunOk(w, s, r);
    forall q | q in t.runs ensures RunOk(w, t, q) { assert q != r ==> RunOk(w, s, q); }
    forall a, b | a in t.runs && b in t.runs && a != b && a.0 == b.0 && Unsent(t.runs[a]) && Unsent(t.runs[b])
      ensures t.runs[a].chunk != t.runs[b].chunk
    {
      assert RunOk(w, s, a) && RunOk(w, s, b);
    }
  }

  lemma NotClaimed(w: World, s: State, id: string)
    requires Inv(w, s) && s.up && id in s.rows && s.rows[id].next >= 0 && !Held(s.rows[id])
    ensures Claim(id, s.rows[id].key, s.rows[id].next) !in s.past.claimed
  {
    hide RowLoads, Tracks;
    assert GoodRow(w, s.past, id, s.rows[id]);
  }

  lemma IntentKeeps(w: World, s: State, r: RunId, o1: Write, o2: Write)
    requires Inv(w, s) && s.up && r in s.runs && s.runs[r] == Top && Current(s, r)
    requires 0 <= s.rows[r.0].next < |s.rows[r.0].chunks| && s.rows[r.0].submission == NoSubmission && s.rows[r.0].prompt == ""
    ensures Inv(w, TopStep(w, s, r, o1, o2))
  {
    hide Inv, GoodRow;
    var x := s.rows[r.0];
    RowOf(w, s, r.0);
    NotClaimed(w, s, r.0);
    ChunkNamed(w, s.past, r.0, x);
    var c := WithIntent(x);
    var f := Doubtful(x, IntentLost);
    RewriteFine(w, s, r.0, c);
    DoubtFine(w, s, r.0, IntentLost);
    var (ok, t) := TryRow(w, s, r.0, c, f, o1);
    if ok {
      hide Fine;
      TryFine(w, s, r.0, c, f, o1);
      RecordClaim(w, t, r, x.next);
    } else {
      FallBack(w, s, r, c, f, Submit(x.next), o1, o2);
    }
  }

  lemma ChunkNamed(w: World, past: Past, id: string, x: Execution)
    requires GoodRow(w, past, id, x) && 0 <= x.next < |x.chunks|
    ensures x.chunks[x.next].id != ""
  {}

  lemma RecordClaim(w: World, t: State, r: RunId, chunk: nat)
    requires Inv(w, t) && t.up && r in t.runs && t.runs[r] == Top && r.0 in t.rows && t.images == {t.rows}
    requires t.rows[r.0].next == chunk && t.rows[r.0].submission != NoSubmission
    requires ClaimOf(t, r, chunk) !in t.past.claimed
    ensures Inv(w, SetRun(t, r, Submit(chunk)).(past := t.past.(claimed := t.past.claimed + {ClaimOf(t, r, chunk)})))
  {
    hide Good, Tracks;
    ClaimGood(w, t.past, t.rows, ClaimOf(t, r, chunk));
    ClaimTracks(w, t, r, chunk);
  }

  lemma TopKeeps(w: World, s: State, r: RunId, o1: Write, o2: Write)
    requires Inv(w, s) && s.up && r in s.runs && s.runs[r] == Top
    ensures Inv(w, TopStep(w, s, r, o1, o2))
  {
    hide Inv, GoodRow, Fine;
    if !Current(s, r) {
      RetireKeeps(w, s, r);
    } else {
      var x := s.rows[r.0];
      RowOf(w, s, r.0);
      if x.next >= |x.chunks| {
        DoubtFine(w, s, r.0, CompletionLost);
        Bounded(w, s.past, r.0, x);
        RewriteFine(w, s, r.0, x.(phase := Completed));
        EndTwice(w, s, r, x.(phase := Completed), Doubtful(x, CompletionLost), o1, o2);
      } else if x.next < 0 || x.submission != NoSubmission || x.prompt != "" {
        DoubtFine(w, s, r.0, CustodyUnresolved);
        GiveUp(w, s, r, Doubtful(x, CustodyUnresolved), o1);
      } else {
        IntentKeeps(w, s, r, o1, o2);
      }
    }
  }

  lemma Bounded(w: World, past: Past, id: string, x: Execution)
    requires GoodRow(w, past, id, x)
    ensures 0 <= x.next <= |x.chunks|
  {}

  /** Replacing the part of the history that rows and files do not constrain. */
  lemma SwapPast(w: World, s: State, past': Past, t: State)
    requires Inv(w, s) && s.up && Extends(s.past, past') && past'.resumed == s.past.resumed && PastOk(past')
    requires t.up && t.rows == s.rows && t.bare == s.bare && t.images == s.images && t.past == past' && Tracks(w, t)
    ensures Inv(w, t)
  {
    hide Good, Tracks;
    ImagesGrow(w, s.past, past', s.images);
    RefsApart(w, s);
    PastGrows(w, s.past, past', s.rows);
  }

  lemma RefsApart(w: World, s: State)
    requires Inv(w, s) && s.up
    ensures forall id :: id in s.rows && s.rows[id].ref != "" ==> s.rows[id].ref !in s.past.resumed
  {
    hide RowLoads, Tracks;
    forall id | id in s.rows && s.rows[id].ref != "" ensures s.rows[id].ref !in s.past.resumed {
      assert GoodRow(w, s.past, id, s.rows[id]);
    }
  }

  /** Moving one goroutine and growing the history keeps everything but the goroutines' own conditions. */
  lemma Reframe(w: World, s: State, t: State, r: RunId, pc: Pc)
    requires Tracks(w, s) && r in s.runs && t == SetRun(s, r, pc).(past := t.past)
    requires !pc.Gone? && (Unsent(pc) ==> Unsent(s.runs[r]) && pc.chunk == s.runs[r].chunk)
    requires RunsOk(w, t)
    ensures Tracks(w, t)
  {
    hide RunsOk;
  }

  lemma PostPast(past: Past, c: Claim)
    requires PastOk(past) && c in past.claimed && c !in past.posts
    ensures PastOk(past.(posts := past.posts + [c]))
  {}

  lemma PostOther(w: World, s: State, t: State, r: RunId, q: RunId)
    requires q in s.runs && RunOk(w, s, q) && r.0 in s.rows
    requires t.rows == s.rows && q in t.runs && t.runs[q] == s.runs[q]
    requires r in s.runs && Unsent(s.runs[r]) && t.past == s.past.(posts := s.past.posts + [ClaimOf(s, r, s.runs[r].chunk)])
    requires q.0 == r.0 && Unsent(s.runs[q]) ==> s.runs[q].chunk != s.runs[r].chunk
    ensures RunOk(w, t, q)
  {}

  lemma PostTracks(w: World, s: State, r: RunId, chunk: nat)
    requires Tracks(w, s) && PastOk(s.past) && r in s.runs && s.runs[r] == Submit(chunk) && r.0 in s.rows
    ensures var t := PostStep(s, r, chunk, true); Tracks(w, t) && PastOk(t.past)
  {
    hide PastOk, RunsOk, Tracks;
    var t := PostStep(s, r, chunk, true);
    PostRun(w, s, r, chunk);
    PostPast(s.past, ClaimOf(s, r, chunk));
    PostRuns(w, s, r, chunk);
    Reframe(w, s, t, r, Await(chunk));
  }

  /** A goroutine about to send has claimed its chunk and not sent it. */
  lemma PostRun(w: World, s: State, r: RunId, chunk: nat)
    requires Tracks(w, s) && r in s.runs && s.runs[r] == Submit(chunk) && r.0 in s.rows
    ensures ClaimOf(s, r, chunk) in s.past.claimed && ClaimOf(s, r, chunk) !in s.past.posts
    ensures RunOk(w, PostStep(s, r, chunk, true), r)
  {
    RunFact(w, s, r);
    hide Tracks;
  }

  lemma PostRuns(w: World, s: State, r: RunId, chunk: nat)
    requires Tracks(w, s) && r in s.runs && s.runs[r] == Submit(chunk) && r.0 in s.rows
    ensures RunsOk(w, PostStep(s, r, chunk, true))
  {
    var t := PostStep(s, r, chunk, true);
    PostRun(w, s, r, chunk);
    hide RunOk;
    forall q | q in t.runs && q != r ensures RunOk(w, t, q) {
      RunFact(w, s, q);
      PostOther(w, s, t, r, q);
    }
  }

  lemma PostKeeps(w: World, s: State, r: RunId, chunk: nat, sent: bool)
    requires Inv(w, s) && s.up && r in s.runs && s.runs[r] == Submit(chunk)
    ensures Inv(w, PostStep(s, r, chunk, sent))
  {
    hide Good;
    RunRow(w, s, r);
    if sent {
      PostTracks(w, s, r, chunk);
      hide Tracks;
      SwapPast(w, s, PostStep(s, r, chunk, true).past, PostStep(s, r, chunk, true));
    } else {
      MoveRun(w, s, r, Result(chunk, OtherError(RequestNotBuilt)));
    }
  }

  /** A goroutine that leaves its open submission without an answer stays consistent. */
  lemma UnsentToResult(w: World, s: State, r: RunId, outcome: Outcome)
    requires Inv(w, s) && s.up && r in s.runs && Unsent(s.runs[r]) && !outcome.Succeeded?
    ensures Inv(w, SetRun(s, r, Result(s.runs[r].chunk, outcome)))
  {
    hide Good;
    RunRow(w, s, r);
    MoveRun(w, s, r, Result(s.runs[r].chunk, outcome));
  }

  /** Writing a row and moving a goroutine commute. */
  lemma CopyMoves(w: World, s: State, r: RunId, pc: Pc, id: string, c: Execution, f: Execution, o: Write)
    ensures var (ok, t) := TryCopy(w, s, id, c, f, o); TryCopy(w, SetRun(s, r, pc), id, c, f, o) == (ok, SetRun(t, r, pc))
  {
    hide Persist;
  }

  lemma FlushMoves(w: World, s: State, r: RunId, pc: Pc, o: Write)
    ensures Flush(w, SetRun(s, r, pc), o) == SetRun(Flush(w, s, o), r, pc)
  {
    hide Persist;
  }

  lemma AmbiguousKeeps(w: World, s: State, r: RunId, chunk: nat, cause: Note, o: Write)
    requires Inv(w, s) && s.up && r in s.runs && s.runs[r] == Await(chunk)
    ensures Inv(w, AmbiguousStep(w, s, r, chunk, cause, o))
  {
    hide Inv, GoodRow, RunOk, TryCopy;
    RunRow(w, s, r);
    var s1 := SetRun(s, r, Result(chunk, OtherError(cause)));
    UnsentToResult(w, s, r, OtherError(cause));
    var x := s.rows[r.0];
    RowOf(w, s, r.0);
    if x.epoch == r.1 && x.submission == Submitting {
      var d := Doubtful(x, cause);
      CopyRewrite(w, s1, r.0, d.(submission := Unknown), d, o);
      CopyMoves(w, s, r, Result(chunk, OtherError(cause)), r.0, d.(submission := Unknown), d, o);
    }
  }

  lemma OriginPast(past: Past, p: string, c: Claim)
    requires PastOk(past) && p !in past.origin && c in past.posts && (forall q :: q in past.origin ==> past.origin[q] != c)
    ensures PastOk(past.(origin := past.origin[p := c]))
  {}

  lemma OriginOther(w: World, s: State, t: State, r: RunId, q: RunId, p: string)
    requires q in s.runs && RunOk(w, s, q) && r.0 in s.rows
    requires t.rows == s.rows && q in t.runs && t.runs[q] == s.runs[q] && p !in s.past.origin
    requires r in s.runs && Unsent(s.runs[r])
    requires t.past == s.past.(origin := s.past.origin[p := ClaimOf(s, r, s.runs[r].chunk)])
    requires q.0 == r.0 && Unsent(s.runs[q]) ==> s.runs[q].chunk != s.runs[r].chunk
    ensures RunOk(w, t, q)
  {}

  lemma OriginTracks(w: World, s: State, r: RunId, chunk: nat, p: string, pc: Pc)
    requires Tracks(w, s) && PastOk(s.past) && r in s.runs && s.runs[r] == Await(chunk) && r.0 in s.rows
    requires p != "" && p !in s.past.origin
    requires pc == Poll(chunk, p) || (pc.Result? && pc.chunk == chunk && !pc.outcome.Succeeded?)
    ensures var past' := s.past.(origin := s.past.origin[p := ClaimOf(s, r, chunk)]);
            Tracks(w, SetRun(s, r, pc).(past := past')) && PastOk(past')
  {
    var past' := s.past.(origin := s.past.origin[p := ClaimOf(s, r, chunk)]);
    var t := SetRun(s, r, pc).(past := past');
    RunFact(w, s, r);
    assert ClaimOf(s, r, chunk) in s.past.posts && forall q :: q in s.past.origin ==> s.past.origin[q] != ClaimOf(s, r, chunk) by {
      hide PastOk, Tracks;
    }
    assert RunOk(w, t, r) by { hide PastOk, Tracks; }
    forall q | q in t.runs && q != r ensures RunOk(w, t, q) {
      hide PastOk, RunOk;
      RunFact(w, s, q);
      OriginOther(w, s, t, r, q, p);
    }
    assert RunsOk(w, t) by { hide PastOk, RunOk, Tracks; }
    hide PastOk, RunOk, Tracks;
    OriginPast(s.past, p, ClaimOf(s, r, chunk));
    Reframe(w, s, t, r, pc);
  }

  lemma OriginKeeps(w: World, s: State, r: RunId, chunk: nat, p: string, pc: Pc)
    requires Inv(w, s) && s.up && r in s.runs && s.runs[r] == Await(chunk) && r.0 in s.rows
    requires p != "" && p !in s.past.origin
    requires pc == Poll(chunk, p) || (pc.Result? && pc.chunk == chunk && !pc.outcome.Succeeded?)
    ensures Inv(w, SetRun(Learned(s, r, chunk, p), r, pc))
  {
    hide Good, Tracks;
    OriginTracks(w, s, r, chunk, p, pc);
    SwapPast(w, s, Learned(s, r, chunk, p).past, SetRun(Learned(s, r, chunk, p), r, pc));
  }

  lemma AnyChunkNamed(w: World, past: Past, id: string, x: Execution, i: nat)
    requires GoodRow(w, past, id, x) && i < |x.chunks|
    ensures x.chunks[i].id != ""
  {}

  /** The answer arrives while the intent is still the current one. */
  lemma AcceptedCurrent(w: World, s: State, r: RunId, chunk: nat, p: string, o1: Write, o2: Write)
    requires Inv(w, s) && s.up && r in s.runs && s.runs[r] == Await(chunk) && p != "" && p !in s.past.origin && r.0 in s.rows
    requires chunk < |s.rows[r.0].chunks| && s.rows[r.0].epoch == r.1 && s.rows[r.0].submission == Submitting
    requires s.rows[r.0].submittingChunk == s.rows[r.0].chunks[chunk].id
    ensures Inv(w, AcceptedStep(w, s, r, chunk, p, o1, o2))
  {
    hide Inv, GoodRow, Fine, TryCopy, Flush;
    var x := s.rows[r.0];
    RowOf(w, s, r.0);
    var c := x.(prompt := p, submission := Accepted);
    var f := Doubtful(x, IdentityLost).(prompt := p, submission := Unknown);
    assert Rewrite(x, c) && Rewrite(x, f);
    hide Rewrite, Shape;
    var s0 := Learned(s, r, chunk, p);
    var (ok, t0) := TryCopy(w, s0, r.0, c, f, o1);
    var pc := if ok then Poll(chunk, p) else Result(chunk, OtherError(IdentityLost));
    var s1 := SetRun(s0, r, pc);
    OriginKeeps(w, s, r, chunk, p, pc);
    CopyRewrite(w, s1, r.0, c, f, o1);
    var t := TryCopy(w, s1, r.0, c, f, o1).1;
    CopyMoves(w, s0, r, pc, r.0, c, f, o1);
    hide SetRun;
    FlushMoves(w, t0, r, pc, o2);
    FlushKeeps(w, t, o2);
  }

  /** The answer arrives after another operation fenced the attempt. */
  lemma AcceptedLate(w: World, s: State, r: RunId, chunk: nat, p: string, o1: Write, o2: Write)
    requires Inv(w, s) && s.up && r in s.runs && s.runs[r] == Await(chunk) && p != "" && p !in s.past.origin && r.0 in s.rows
    requires chunk < |s.rows[r.0].chunks|
    requires !(s.rows[r.0].epoch == r.1 && s.rows[r.0].submission == Submitting && s.rows[r.0].submittingChunk == s.rows[r.0].chunks[chunk].id)
    ensures Inv(w, AcceptedStep(w, s, r, chunk, p, o1, o2))
  {
    hide Inv, GoodRow, Fine;
    var x := s.rows[r.0];
    RowOf(w, s, r.0);
    AnyChunkNamed(w, s.past, r.0, x, chunk);
    var pc := Result(chunk, OtherError(Fenced));
    var s1 := SetRun(Learned(s, r, chunk, p), r, pc);
    OriginKeeps(w, s, r, chunk, p, pc);
    if x.submittingChunk == x.chunks[chunk].id && x.prompt == "" {
      var y := x.(prompt := p, submission := Unknown, error := LateAnswer);
      RewriteFine(w, s1, r.0, y);
      StoreRow(w, s1, r.0, y);
      hide Rewrite, Shape;
      FlushKeeps(w, s1.(rows := s1.rows[r.0 := y]), o1);
      assert AcceptedStep(w, s, r, chunk, p, o1, o2) == Flush(w, s1.(rows := s1.rows[r.0 := y]), o1);
    } else {
      hide Rewrite, Shape;
      assert AcceptedStep(w, s, r, chunk, p, o1, o2) == s1;
    }
  }

  lemma AcceptedKeeps(w: World, s: State, r: RunId, chunk: nat, p: string, o1: Write, o2: Write)
    requires Inv(w, s) && s.up && r in s.runs && s.runs[r] == Await(chunk) && p != "" && p !in s.past.origin
    ensures Inv(w, AcceptedStep(w, s, r, chunk, p, o1, o2))
  {
    hide Inv, RunOk;
    RunRow(w, s, r);
    var x := s.rows[r.0];
    if chunk < |x.chunks| {
      if x.epoch == r.1 && x.submission == Submitting && x.submittingChunk == x.chunks[chunk].id {
        AcceptedCurrent(w, s, r, chunk, p, o1, o2);
      } else {
        AcceptedLate(w, s, r, chunk, p, o1, o2);
      }
    }
  }

  // ---------------------------------------------------------------- applying a chunk's outcome

  /** Committing a chunk yields a loadable row exactly when Comfy did not reuse the id of an earlier prompt. */
  lemma CommitLoadsIffFreshPrompt(w: World, x: Execution, p: string, record: string)
    requires RowLoads(w, x) && x.phase == Running && x.submission != NoSubmission && p != "" && w.validJson(record)
    ensures RowLoads(w, Advanced(x, p, record)) <==> p !in x.histories
  {
    hide ParseChunks, ValidRef;
    RecordAdded(w, x.histories, p, record);
  }

  lemma RecordAdded(w: World, histories: map<string, string>, p: string, record: string)
    requires (forall k :: k in histories ==> k != "" && w.validJson(histories[k])) && p != "" && w.validJson(record)
    ensures var more := histories[p := record];
            && (forall k :: k in more ==> k != "" && w.validJson(more[k]))
            && |more| == |histories| + (if p in histories then 0 else 1)
  {
    assert histories[p := record].Keys == histories.Keys + {p};
  }

  /** Committing a chunk adds exactly the history of the prompt that answered its request. */
  lemma AdvancedGood(w: World, past: Past, id: string, x: Execution, p: string, record: string)
    requires GoodRow(w, past, id, x) && x.submission != NoSubmission && x.phase == Running
    requires p != "" && w.validJson(record) && p in past.origin && past.origin[p] == Claim(id, x.key, x.next)
    ensures GoodRow(w, past, id, Advanced(x, p, record))
  {
    assert p !in x.histories;
    CommitLoadsIffFreshPrompt(w, x, p, record);
    hide RowLoads;
  }

  lemma BoundaryGood(w: World, past: Past, id: string, x: Execution, ref: string)
    requires GoodRow(w, past, id, x) && x.phase == Running && x.submission == NoSubmission && x.prompt == ""
    requires ValidRef(ref) && ref in past.refs && past.refs[ref] == id && ref !in past.resumed
    ensures GoodRow(w, past, id, AtBoundary(x, ref))
  {}

  /** Moving a running row's cursor while its goroutine stands at the loop head. */
  lemma AdvanceTracks(w: World, s: State, id: string, x: Execution)
    requires Tracks(w, s) && id in s.rows && x.key == s.rows[id].key && x.phase == Running && s.rows[id].phase == Running
    requires x.epoch == s.rows[id].epoch && (id, x.epoch) in s.runs && s.runs[(id, x.epoch)] == Top
    ensures Tracks(w, s.(rows := s.rows[id := x]))
  {
    hide RunOk;
    var t := s.(rows := s.rows[id := x]);
    forall r | r in t.runs ensures RunOk(w, t, r) {
      RunFact(w, s, r);
      assert r.0 == id && r.1 == x.epoch ==> r == (id, x.epoch);
      RowChangeRun(w, s, id, x, r);
    }
  }

  lemma ToTop(w: World, s: State, r: RunId)
    requires Inv(w, s) && s.up && r in s.runs
    ensures Inv(w, SetRun(s, r, Top))
  {
    hide Good;
    RunRow(w, s, r);
    MoveRun(w, s, r, Top);
  }

  lemma CommitKeeps(w: World, s: State, r: RunId, a: Execution, f: Execution, o: Write)
    requires Inv(w, s) && s.up && r in s.runs && Current(s, r)
    requires a.key == s.rows[r.0].key && a.phase == Running && a.epoch == r.1 && GoodRow(w, s.past, r.0, a) && r.0 !in s.bare
    requires TryRow(w, s, r.0, a, f, o).0
    ensures Inv(w, SetRun(TryRow(w, s, r.0, a, f, o).1, r, Top))
  {
    hide GoodRow, Tracks, Good, ImagesOk, PastOk, BareOk;
    var s1 := SetRun(s, r, Top);
    ToTop(w, s, r);
    assert (r.0, r.1) == r;
    AdvanceTracks(w, s1, r.0, a);
    PutKeeps(w, s.past, s.rows, r.0, a);
    PersistKeeps(w, s.past, s.images, s.rows[r.0 := a], o);
    var t := TryRow(w, s, r.0, a, f, o).1;
    BarePut(s1, SetRun(t, r, Top), r.0, a);
    SetImages(w, s1.(rows := s1.rows[r.0 := a]), t.images);
    assert SetRun(t, r, Top) == s1.(rows := s1.rows[r.0 := a]).(images := t.images);
  }

  lemma RefTracks(w: World, s: State, past': Past)
    requires Tracks(w, s) && past'.claimed == s.past.claimed && past'.posts == s.past.posts && past'.origin == s.past.origin
    ensures Tracks(w, s.(past := past'))
  {
    var t := s.(past := past');
    forall r | r in t.runs ensures RunOk(w, t, r) { assert RunOk(w, s, r); }
  }

  lemma NewRef(w: World, s: State, ref: string, id: string)
    requires Inv(w, s) && s.up && ref !in s.past.refs
    ensures Inv(w, s.(past := s.past.(refs := s.past.refs[ref := id])))
  {
    hide Good, Tracks;
    var past' := s.past.(refs := s.past.refs[ref := id]);
    RefTracks(w, s, past');
    SwapPast(w, s, past', s.(past := past'));
  }

  /** The row reached by a successful chunk, and what the commit may fall back on. */
  lemma OutcomeRow(w: World, s: State, r: RunId)
    requires Inv(w, s) && s.up && r in s.runs && s.runs[r].Result? && s.runs[r].outcome.Succeeded? && Current(s, r)
    ensures var pc := s.runs[r];
            && GoodRow(w, s.past, r.0, Advanced(s.rows[r.0], pc.outcome.prompt, pc.outcome.record))
            && Fine(w, s, r.0, Doubtful(s.rows[r.0], CommitLost)) && Fine(w, s, r.0, Doubtful(s.rows[r.0], RefUnavailable))
  {
    hide Inv, GoodRow, Fine;
    RunRow(w, s, r);
    RowOf(w, s, r.0);
    DoubtFine(w, s, r.0, CommitLost);
    DoubtFine(w, s, r.0, RefUnavailable);
    AdvancedGood(w, s.past, r.0, s.rows[r.0], s.runs[r].outcome.prompt, s.runs[r].outcome.record);
  }

  lemma SucceededKeeps(w: World, s: State, r: RunId, ref: Option<string>, o1: Write, o2: Write)
    requires Inv(w, s) && s.up && r in s.runs && s.runs[r].Result? && s.runs[r].outcome.Succeeded? && Current(s, r)
    requires ref.Some? ==> ValidRef(ref.value) && ref.value !in s.past.refs
    ensures Inv(w, ResultStep(w, s, r, s.runs[r].outcome, ref, o1, o2))
  {
    hide Inv, GoodRow, Fine;
    BareFact(w, s);
    SameKeeps(w, s, s.(stuck := true));
    OutcomeRow(w, s, r);
    var x := s.rows[r.0];
    var a := Advanced(x, s.runs[r].outcome.prompt, s.runs[r].outcome.record);
    var f := Doubtful(x, CommitLost);
    if r.0 in s.bare {
    } else if x.requested != CheckpointRequest && x.requested != YieldRequest {
      if TryRow(w, s, r.0, a, f, o1).0 {
        CommitKeeps(w, s, r, a, f, o1);
      } else {
        FallBack(w, s, r, a, f, Top, o1, o2);
      }
    } else if ref.None? {
      GiveUp(w, s, r, Doubtful(x, RefUnavailable), o1);
      PutBackKeeps(w, StoreAnyway(w, s, r, Doubtful(x, RefUnavailable), Gone, o1), r.0);
    } else {
      BoundaryCommit(w, s, r, a, ref.value, o1, o2);
    }
  }

  lemma RefFine(w: World, s: State, past': Past, id: string, x: Execution)
    requires Inv(w, s) && s.up && id in s.rows && Fine(w, s, id, x) && Extends(s.past, past') && past'.resumed == s.past.resumed
    ensures Fine(w, s.(past := past'), id, x)
  {
    hide RowLoads, Tracks, Good, ImagesOk;
  }

  lemma BoundaryCommit(w: World, s: State, r: RunId, a: Execution, ref: string, o1: Write, o2: Write)
    requires Inv(w, s) && s.up && r in s.runs && Current(s, r) && ValidRef(ref) && ref !in s.past.refs
    requires GoodRow(w, s.past, r.0, a) && a.key == s.rows[r.0].key && a.epoch == s.rows[r.0].epoch
    requires a.phase == Running && a.submission == NoSubmission && a.prompt == ""
    requires Fine(w, s, r.0, Doubtful(s.rows[r.0], CommitLost)) && r.0 !in s.bare
    ensures Inv(w, TryTwice(w, s.(past := s.past.(refs := s.past.refs[ref := r.0])), r, AtBoundary(a, ref),
                            Doubtful(s.rows[r.0], CommitLost), Gone, Gone, o1, o2).1)
  {
    hide Inv, GoodRow, ImagesOk, Good;
    var past' := s.past.(refs := s.past.refs[ref := r.0]);
    var s1 := s.(past := past');
    var c := AtBoundary(a, ref);
    var f := Doubtful(s.rows[r.0], CommitLost);
    NewRef(w, s, ref, r.0);
    RefFine(w, s, past', r.0, f);
    FreshRef(w, s, ref);
    GoodGrows(w, s.past, past', r.0, a);
    BoundaryGood(w, past', r.0, a, ref);
    assert Fine(w, s1, r.0, c);
    EndTwice(w, s1, r, c, f, o1, o2);
  }

  lemma FreshRef(w: World, s: State, ref: string)
    requires Inv(w, s) && ref !in s.past.refs
    ensures ref !in s.past.resumed
  {
    hide ImagesOk, Live;
  }

  lemma GoodGrows(w: World, past: Past, past': Past, id: string, x: Execution)
    requires GoodRow(w, past, id, x) && Extends(past, past') && past'.resumed == past.resumed
    ensures GoodRow(w, past', id, x)
  {}

  lemma ResultKeeps(w: World, s: State, r: RunId, ref: Option<string>, o1: Write, o2: Write)
    requires Inv(w, s) && s.up && r in s.runs && s.runs[r].Result?
    requires ref.Some? ==> ValidRef(ref.value) && ref.value !in s.past.refs
    ensures Inv(w, ResultStep(w, s, r, s.runs[r].outcome, ref, o1, o2))
  {
    hide Inv, GoodRow, Fine;
    if !Current(s, r) {
      RetireKeeps(w, s, r);
    } else if s.runs[r].outcome.Succeeded? {
      SucceededKeeps(w, s, r, ref, o1, o2);
    } else {
      RunRow(w, s, r);
      RowOf(w, s, r.0);
      var x := s.rows[r.0];
      var m := s.runs[r].outcome.message;
      DoubtFine(w, s, r.0, m);
      if s.runs[r].outcome.ChunkFailure? {
        var c := WithFailure(x, m);
        RewriteFine(w, s, r.0, c);
        EndRun(w, s, r, c, Doubtful(x, m).(submission := Unknown), o1);
      } else {
        EndRun(w, s, r, Doubtful(x, m).(submission := Unknown), Doubtful(x, m), o1);
      }
    }
  }

  // ---------------------------------------------------------------- start, exit, crash, restart

  lemma ExitTracks(w: World, s: State, r: RunId)
    requires Tracks(w, s) && r in s.runs && s.runs[r].Gone?
    ensures Tracks(w, s.(runs := map q | q in s.runs && q != r :: s.runs[q]))
  {
    var t := s.(runs := map q | q in s.runs && q != r :: s.runs[q]);
    forall q | q in t.runs ensures RunOk(w, t, q) { assert RunOk(w, s, q); }
  }

  lemma ExitKeeps(w: World, s: State, r: RunId)
    requires Inv(w, s) && s.up && r in s.runs && s.runs[r].Gone?
    ensures Inv(w, s.(runs := map q | q in s.runs && q != r :: s.runs[q]))
  {
    hide Good, Tracks;
    ExitTracks(w, s, r);
  }

  lemma ParseGivesWellFormed(w: World, payload: Payload)
    requires ParseChunks(w, payload).Some?
    ensures WellFormedChunks(w, ParseChunks(w, payload).value)
  {}

  /** Chunk names are final: parsing a well-formed list changes nothing. */
  lemma ParseIsStable(w: World, chunks: seq<Chunk>)
    ensures ParseChunks(w, Envelope(None, chunks)) == Some(chunks) <==> WellFormedChunks(w, chunks)
  {
    if WellFormedChunks(w, chunks) { assert Named(chunks) == chunks; }
  }

  lemma NewGood(w: World, past: Past, q: StartRequest, chunks: seq<Chunk>, id: string)
    requires WellFormedChunks(w, chunks) && id != "" && q.key != "" && forall c :: c in past.claimed ==> c.id != id
    ensures GoodRow(w, past, id, NewExecution(w, q, chunks, id))
  {
    ParseIsStable(w, chunks);
  }

  lemma AddGood(w: World, past: Past, rows: Rows, x: Execution)
    requires Good(w, past, rows) && x.id !in rows && GoodRow(w, past, x.id, x)
    requires forall id :: id in rows ==> rows[id].key != x.key
    ensures Good(w, past, rows[x.id := x])
  {
    hide GoodRow;
  }

  lemma AddRuns(w: World, s: State, t: State, x: Execution)
    requires RunsOk(w, s) && x.id !in s.rows && x.epoch == 1 && t.rows == s.rows[x.id := x] && t.past == s.past && t.runs == s.runs[(x.id, 1) := Top]
    ensures RunsOk(w, t)
  {
    hide RunOk;
    forall r | r in t.runs ensures RunOk(w, t, r) {
      if r == (x.id, 1) { FreshRun(w, t, r); } else { AddedRowRun(w, s, t, x, r); }
    }
  }

  lemma AddIndex(s: State, t: State, x: Execution)
    requires KeysOk(s) && x.id !in s.rows && x.key !in s.keys && t.rows == s.rows[x.id := x] && t.keys == s.keys[x.key := x.id]
    ensures KeysOk(t)
  {}

  lemma AddTracks(w: World, s: State, x: Execution)
    requires Tracks(w, s) && x.id !in s.rows && x.key !in s.keys && x.phase == Running && x.epoch == 1
    ensures Tracks(w, SetRun(s.(rows := s.rows[x.id := x], keys := s.keys[x.key := x.id]), (x.id, 1), Top))
  {
    hide RunsOk, KeysOk;
    var t := SetRun(s.(rows := s.rows[x.id := x], keys := s.keys[x.key := x.id]), (x.id, 1), Top);
    AddRuns(w, s, t, x);
    AddIndex(s, t, x);
  }

  lemma AddedRowRun(w: World, s: State, t: State, x: Execution, r: RunId)
    requires r in s.runs && RunOk(w, s, r) && r in t.runs && t.runs[r] == s.runs[r] && t.past == s.past
    requires x.id !in s.rows && t.rows == s.rows[x.id := x]
    ensures RunOk(w, t, r)
  {}

  lemma UnknownKey(w: World, s: State, key: string)
    requires Tracks(w, s) && key !in s.keys
    ensures forall id :: id in s.rows ==> s.rows[id].key != key
  {
    hide RunsOk, RunsApart;
  }

  lemma CreateKeeps(w: World, s: State, x: Execution, o: Write)
    requires Inv(w, s) && s.up && x.id !in s.rows && x.key !in s.keys && x.phase == Running && x.epoch == 1
    requires GoodRow(w, s.past, x.id, x)
    ensures Inv(w, CreateStep(w, s, x, o).1)
  {
    hide GoodRow, Tracks, Good, PastOk, ImagesOk;
    UnknownKey(w, s, x.key);
    AddGood(w, s.past, s.rows, x);
    PersistKeeps(w, s.past, s.images, s.rows[x.id := x], o);
    AddTracks(w, s, x);
    var (ok, images) := Persist(w, s.images, s.rows[x.id := x], o);
    var t := SetRun(s.(rows := s.rows[x.id := x], keys := s.keys[x.key := x.id]), (x.id, 1), Top);
    SetImages(w, t, images);
    SetImages(w, s, images);
    assert ok ==> CreateStep(w, s, x, o).1 == t.(images := images);
  }

  lemma ResumedGood(w: World, past: Past, id: string, x: Execution)
    requires GoodRow(w, past, id, x) && Resumable(x.phase)
    ensures GoodRow(w, past, id, Resumed(x))
  {
    assert Held(Resumed(x)) == Held(x);
  }

  lemma ResumeTracks(w: World, s: State, id: string, x: Execution)
    requires Tracks(w, s) && id in s.rows && x.key == s.rows[id].key && Resumable(s.rows[id].phase)
    requires x.epoch == s.rows[id].epoch + 1
    ensures Tracks(w, SetRun(s.(rows := s.rows[id := x]), (id, x.epoch), Top))
  {
    hide RunOk;
    var u := s.(rows := s.rows[id := x]);
    var t := SetRun(u, (id, x.epoch), Top);
    forall r | r in t.runs ensures RunOk(w, t, r) {
      if r == (id, x.epoch) {
        FreshRun(w, t, r);
      } else {
        RunFact(w, s, r);
        RunEpoch(w, s, r);
        RowChangeRun(w, s, id, x, r);
        OtherRun(w, u, t, r);
      }
    }
  }

  lemma FreshRun(w: World, t: State, r: RunId)
    requires r in t.runs && t.runs[r] == Top && r.0 in t.rows && r.1 <= t.rows[r.0].epoch
    ensures RunOk(w, t, r)
  {}

  lemma RunEpoch(w: World, s: State, r: RunId)
    requires r in s.runs && RunOk(w, s, r)
    ensures r.0 in s.rows && r.1 <= s.rows[r.0].epoch
  {}

  /** A goroutine's condition depends on the rows, the history and its own position only. */
  lemma OtherRun(w: World, s: State, t: State, r: RunId)
    requires r in s.runs && RunOk(w, s, r) && r in t.runs && t.runs[r] == s.runs[r] && t.rows == s.rows && t.past == s.past
    ensures RunOk(w, t, r)
  {}

  /** Once the resume is durable its reference is held nowhere, in memory or on disk. */
  lemma RefGone(w: World, past: Past, rows: Rows, id: string, x: Execution)
    requires Good(w, past, rows) && id in rows && x.id == id && rows[id].ref != "" && x.ref == "" && GoodRow(w, past, id, x) && x.key == rows[id].key
    ensures Good(w, past.(resumed := past.resumed + [rows[id].ref]), rows[id := x])
  {
    hide RowLoads;
    var past' := past.(resumed := past.resumed + [rows[id].ref]);
    var rows' := rows[id := x];
    forall k | k in rows' ensures GoodRow(w, past', k, rows'[k]) {
      assert GoodRow(w, past, k, rows'[k]) && GoodRow(w, past, id, rows[id]);
    }
  }

  lemma ResumedPast(past: Past, ref: string)
    requires PastOk(past) && ref in past.refs && ref !in past.resumed
    ensures PastOk(past.(resumed := past.resumed + [ref]))
  {}

  lemma RefOf(w: World, past: Past, id: string, x: Execution)
    requires GoodRow(w, past, id, x) && Resumable(x.phase)
    ensures x.ref != "" && x.ref in past.refs && x.ref !in past.resumed && x.id == id
  {}

  lemma OnlyImage(w: World, past: Past, rows: Rows)
    requires Good(w, past, rows) && Fits(w, rows)
    ensures ImagesOk(w, past, {rows})
  {}

  lemma ResumeKeeps(w: World, s: State, id: string, o: Write)
    requires Inv(w, s) && s.up && id in s.rows && Resumable(s.rows[id].phase)
    ensures Inv(w, ResumeStep(w, s, s.rows[id], o).1)
  {
    hide GoodRow, Good, Tracks, PastOk, Shape, ImagesOk;
    var x := s.rows[id];
    RowOf(w, s, id);
    RefOf(w, s.past, id, x);
    ResumedGood(w, s.past, id, x);
    var c := Resumed(x);
    var (ok, t) := TryRow(w, s, id, c, x, o);
    CandidateImages(w, s, id, c, o);
    if ok {
      var past' := s.past.(resumed := s.past.resumed + [x.ref]);
      RefGone(w, s.past, s.rows, id, c);
      ResumeTracks(w, s, id, c);
      ResumedPast(s.past, x.ref);
      OnlyImage(w, past', s.rows[id := c]);
      var u := SetRun(s.(rows := s.rows[id := c]), (id, c.epoch), Top);
      RefTracks(w, u, past');
      SetImages(w, u.(past := past'), t.images);
      assert ResumeStep(w, s, x, o).1 == u.(past := past').(images := t.images);
    } else {
      assert s.rows[id := x] == s.rows;
      SetImages(w, s, t.images);
      PutBackKeeps(w, s.(images := t.images), id);
      assert ResumeStep(w, s, x, o).1 == PutBack(s.(images := t.images), id);
    }
  }

  lemma KnownKey(w: World, s: State, key: string)
    requires Inv(w, s) && s.up && key in s.keys
    ensures s.keys[key] in s.rows
  {
    hide Good, RunsOk, RunsApart;
  }

  lemma ClaimsKnown(w: World, s: State, id: string)
    requires Inv(w, s) && s.up && id !in s.rows
    ensures forall c :: c in s.past.claimed ==> c.id != id
  {
    hide GoodRow, Tracks;
  }

  lemma StartKeeps(w: World, s: State, q: StartRequest, newId: string, o: Write)
    requires Inv(w, s) && s.up && newId != "" && newId !in s.rows
    ensures Inv(w, StartStep(w, s, q, newId, o).1)
  {
    hide Inv, GoodRow, ParseChunks;
    var parsed := ParseChunks(w, q.payload);
    if q.versionOk && q.workloadId != "" && q.key != "" && parsed.Some? && !s.closed {
      if q.key in s.keys {
        KnownKey(w, s, q.key);
        var x := s.rows[s.keys[q.key]];
        if SameWork(w, q, parsed.value, x) && q.ref != "" && q.ref == x.ref && Resumable(x.phase) {
          ResumeKeeps(w, s, s.keys[q.key], o);
        }
      } else if q.ref == "" {
        ParseGivesWellFormed(w, q.payload);
        ClaimsKnown(w, s, newId);
        NewGood(w, s.past, q, parsed.value, newId);
        CreateKeeps(w, s, NewExecution(w, q, parsed.value, newId), o);
      }
    }
  }

  lemma CrashKeeps(w: World, s: State)
    requires Inv(w, s)
    ensures Inv(w, CrashStep(s))
  {
    hide Good, Live;
  }

  // ---------------------------------------------------------------- restart

  /** A good row is accepted by the loader as it stands, and recovery keeps it good. */
  lemma GoodRowReloads(w: World, past: Past, id: string, x: Execution)
    requires GoodRow(w, past, id, x)
    ensures x.id == id && UpgradeHash(w, x) == x && RowLoads(w, x) && LoadedRow(w, x) == Recover(x)
    ensures GoodRow(w, past, id, Recover(x)) && Recover(x).phase != Running && Recover(x).phase != Cancelling
  {
    var y := Recover(x);
    Shaped(w, past, id, x);
    assert UpgradeHash(w, x) == x;
    assert SameCore(x, y) && Shape(y) && (Held(x) ==> Held(y));
    hide GoodRow;
    Reshape(w, past, id, x, y);
  }

  lemma GoodReloads(w: World, past: Past, rows: Rows)
    requires Good(w, past, rows)
    ensures Loads(w, rows) && LoadedRows(w, rows) == RecoverAll(rows) && Good(w, past, RecoverAll(rows))
    ensures forall id :: id in rows ==> RecoverAll(rows)[id].phase != Running && RecoverAll(rows)[id].phase != Cancelling
  {
    hide GoodRow, RowLoads, UpgradeHash, LoadedRow;
    forall id | id in rows
      ensures rows[id].id == id && UpgradeHash(w, rows[id]) == rows[id] && RowLoads(w, rows[id])
      ensures LoadedRow(w, rows[id]) == Recover(rows[id]) && GoodRow(w, past, id, Recover(rows[id]))
      ensures Recover(rows[id]).phase != Running && Recover(rows[id]).phase != Cancelling
    {
      assert GoodRow(w, past, id, rows[id]);
      GoodRowReloads(w, past, id, rows[id]);
    }
    assert LoadedRows(w, rows) == RecoverAll(rows);
  }

  lemma KeysOfOk(rows: Rows, s: State)
    requires DistinctKeys(rows) && s.rows == rows && s.keys == KeysOf(rows)
    ensures KeysOk(s)
  {
    forall id | id in rows ensures rows[id].key in s.keys && s.keys[rows[id].key] == id {
      assert rows[id].key in KeySet(rows);
    }
  }

  /** Recovery settles in one pass, so the rewritten file is its own recovery. */
  lemma RecoverOnce(rows: Rows)
    ensures RecoverAll(RecoverAll(rows)) == RecoverAll(rows)
  {
    forall id | id in rows ensures Recover(Recover(rows[id])) == Recover(rows[id]) {}
  }

  lemma RestartKeeps(w: World, s: State, image: Rows, o: Write)
    requires Inv(w, s) && !s.up && image in s.images
    ensures Inv(w, RestartStep(w, s, image, o))
  {
    hide Good, Tracks, Loads, PastOk, Fits, RecoverAll, LoadedRows;
    GoodReloads(w, s.past, image);
    var rows := RecoverAll(image);
    var booted := s.(up := true, closed := false, rows := rows, keys := KeysOf(rows), runs := map[], probes := {}, stops := {}, bare := {}, stuck := false);
    GoodDistinct(w, s.past, rows);
    KeysOfOk(rows, booted);
    NoRunTracks(w, booted, s.past, image);
    PersistKeeps(w, s.past, s.images, rows, o);
    SetImages(w, booted, Persist(w, s.images, rows, o).1);
  }

  lemma GoodDistinct(w: World, past: Past, rows: Rows)
    requires Good(w, past, rows)
    ensures DistinctKeys(rows)
  {
    hide GoodRow, DistinctKeys;
  }

  lemma NoRunTracks(w: World, t: State, past: Past, image: Rows)
    requires Good(w, past, image) && t.rows == RecoverAll(image) && t.runs == map[] && t.probes == {} && KeysOk(t)
    ensures Tracks(w, t)
  {
    hide Good, KeysOk, RecoverAll, Loads, LoadedRows, RunOk;
    GoodReloads(w, past, image);
    assert RecoverAll(image).Keys == image.Keys by { hide *; RecoverKeys(image); }
  }

  lemma RecoverKeys(rows: Rows)
    ensures RecoverAll(rows).Keys == rows.Keys
  {}

  // ---------------------------------------------------------------- every event, every run

  lemma RunKeeps(w: World, s: State, e: Event)
    requires Inv(w, s) && s.up && RunEvent(e) && e.r in s.runs && Possible(w, s, e)
    ensures Inv(w, RunApply(w, s, e))
  {
    hide Inv;
    var pc := s.runs[e.r];
    match e
    case RunTop(r, o1, o2) => if pc.Top? { TopKeeps(w, s, r, o1, o2); }
    case RunPost(r, sent) => if pc.Submit? { PostKeeps(w, s, r, pc.chunk, sent); }
    case RunAmbiguous(r, cause, o) => if pc.Await? { AmbiguousKeeps(w, s, r, pc.chunk, cause, o); }
    case RunRejected(r, m) => if pc.Await? { UnsentToResult(w, s, r, ChunkFailure(m)); }
    case RunAccepted(r, p, o1, o2) => if pc.Await? { AcceptedKeeps(w, s, r, pc.chunk, p, o1, o2); }
    case RunPolled(r, outcome) => if pc.Poll? { PolledKeeps(w, s, r, outcome); }
    case RunResult(r, ref, o1, o2) => if pc.Result? { ResultKeeps(w, s, r, ref, o1, o2); }
    case RunExit(r) => if pc.Gone? { ExitKeeps(w, s, r); }
  }

  lemma PolledKeeps(w: World, s: State, r: RunId, outcome: Outcome)
    requires Inv(w, s) && s.up && r in s.runs && s.runs[r].Poll?
    requires outcome.Succeeded? ==> outcome.prompt == s.runs[r].prompt && w.validJson(outcome.record)
    ensures Inv(w, SetRun(s, r, Result(s.runs[r].chunk, outcome)))
  {
    hide Good;
    RunRow(w, s, r);
    MoveRun(w, s, r, Result(s.runs[r].chunk, outcome));
  }

  lemma CloseKeeps(w: World, s: State)
    requires Inv(w, s) && s.up
    ensures Inv(w, s.(closed := true))
  {
    hide Inv;
    BareFact(w, s);
    SameKeeps(w, s, s.(closed := true));
  }

  lemma ApplyKeeps(w: World, s: State, e: Event)
    requires Inv(w, s)
    ensures Inv(w, Apply(w, s, e))
  {
    hide Inv;
    if Possible(w, s, e) {
      if e.Restart? {
        if !s.up { RestartKeeps(w, s, e.image, e.o); }
      } else if e.Crash? {
        CrashKeeps(w, s);
      } else if s.up && !(s.stuck && Locks(e)) && RunEvent(e) {
        if e.r in s.runs { RunKeeps(w, s, e); }
      } else if s.up && !(s.stuck && Locks(e)) {
        match e
        case Start(q, newId, o) => StartKeeps(w, s, q, newId, o);
        case Boundary(id, want, o) => BoundaryKeeps(w, s, id, want, o);
        case Cancel(id, o) => CancelKeeps(w, s, id, o);
        case Probed(id, epoch, idle, o) => if (id, epoch) in s.probes { ProbedKeeps(w, s, id, epoch, idle, o); }
        case Stopped(id, epoch, failure, o) => if (id, epoch) in s.stops { StoppedKeeps(w, s, id, epoch, failure, o); }
        case Close => CloseKeeps(w, s);
        case _ =>
      }
    }
  }

  lemma {:induction false} ExecuteKeeps(w: World, events: seq<Event>)
    ensures Inv(w, Execute(w, events))
  {
    if events == [] {
    } else {
      hide Inv;
      ExecuteKeeps(w, events[..|events| - 1]);
      ApplyKeeps(w, Execute(w, events[..|events| - 1]), events[|events| - 1]);
    }
  }
}
