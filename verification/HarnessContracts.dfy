/** What each critical section promises its caller, in terms of the rows, the files a crash may leave, and the
    goroutine that ran it. */
module HarnessContracts {
  import opened HarnessModel

  /** Every file a crash may leave holds the rows as they are. */
  predicate Recorded(t: State) {
    t.images == {t.rows}
  }

  predicate SameOutputs(x: Execution, y: Execution) {
    y.next == x.next && y.histories == x.histories && y.chunks == x.chunks && y.key == x.key
  }

  /** The row `id` became one of two others and every file holds it if it became the first. */
  ghost predicate Replaced(s: State, t: State, id: string, c: Execution, f: Execution, ok: bool) {
    t.rows == s.rows[id := if ok then c else f] && (ok ==> Recorded(t)) && t.past == s.past && t.stuck == s.stuck
  }

  lemma CopyReplaces(w: World, s: State, id: string, c: Execution, f: Execution, o: Write)
    ensures var (ok, t) := TryCopy(w, s, id, c, f, o); Replaced(s, t, id, c, f, ok) && t.runs == s.runs
    ensures var (ok, t) := TryRow(w, s, id, c, f, o); Replaced(s, t, id, c, f, ok) && t.runs == s.runs
  {}

  lemma OnceReplaces(w: World, s: State, r: RunId, c: Execution, f: Execution, pc: Pc, o: Write)
    ensures var t := TryOnce(w, s, r, c, f, pc, o); t.runs == s.runs[r := pc] && exists ok :: Replaced(s, t, r.0, c, f, ok)
  {
    hide TryCopy;
    CopyReplaces(w, s, r.0, c, f, o);
    var (ok, u) := TryCopy(w, s, r.0, c, f, o);
    assert Replaced(s, SetRun(u, r, pc), r.0, c, f, ok);
  }

  lemma TwiceReplaces(w: World, s: State, r: RunId, c: Execution, f: Execution, good: Pc, bad: Pc, o1: Write, o2: Write)
    ensures var (ok, t) := TryTwice(w, s, r, c, f, good, bad, o1, o2);
            && Replaced(s, t, r.0, c, f, ok) && t.runs == s.runs[r := if ok then good else bad]
  {
    hide Persist;
    CopyReplaces(w, s, r.0, c, f, o1);
    hide Replaced;
    var (ok, t) := TryCopy(w, s, r.0, c, f, o1);
    if ok { MovedReplaces(s, t, SetRun(t, r, good), r.0, c, f); } else { FlushReplaces(w, s, t, r, c, f, bad, o2); }
  }

  lemma MovedReplaces(s: State, t: State, u: State, id: string, c: Execution, f: Execution)
    requires Replaced(s, t, id, c, f, true) && u.rows == t.rows && u.images == t.images && u.past == t.past && u.stuck == t.stuck
    ensures Replaced(s, u, id, c, f, true)
  {}

  lemma FlushReplaces(w: World, s: State, t: State, r: RunId, c: Execution, f: Execution, bad: Pc, o: Write)
    requires Replaced(s, t, r.0, c, f, false)
    ensures Replaced(s, SetRun(Flush(w, t, o), r, bad), r.0, c, f, false)
  {
    hide Persist;
  }

  // ---------------------------------------------------------------- requests

  /** The start, or the resume, is refused without effect. */
  ghost predicate RefusesStart(w: World, s: State, q: StartRequest, newId: string, o: Write) {
    StartStep(w, s, q, newId, o) == (BadRequest, s) || StartStep(w, s, q, newId, o) == (Unavailable, s)
  }

  lemma ClosedRefuses(w: World, s: State, q: StartRequest, newId: string, o: Write)
    requires s.closed
    ensures RefusesStart(w, s, q, newId, o)
  {
    hide ParseChunks, ResumeStep, CreateStep;
  }

  /** A file is written exactly when it fits, as it is and as a restart would rewrite it, and the write is durable; a crash
      then finds that file, and otherwise an old one, or either after a write lost behind the rename. */
  ghost predicate WriteReply(w: World, before: set<Rows>, after: set<Rows>, rows: Rows, o: Write, ok: bool) {
    var fits := w.size(rows) <= w.limit && w.size(RecoverAll(rows)) <= w.limit;
    && (ok <==> fits && o == Durable)
    && after == (if ok then {rows} else if fits && o == LostAfterRename then before + {rows} else before)
  }

  lemma WriteMeans(w: World, before: set<Rows>, rows: Rows, o: Write)
    ensures var (ok, after) := Persist(w, before, rows, o); WriteReply(w, before, after, rows, o, ok)
  {
    hide RecoverAll;
  }

  /** The request can be read: version, workload, key, and a payload that parses. */
  ghost predicate Readable(w: World, q: StartRequest) {
    q.versionOk && q.workloadId != "" && q.key != "" && ParseChunks(w, q.payload).Some?
  }

  /** The row is the work the request asks for: same workload, same plan, same chunks by digest. */
  ghost predicate Asks(w: World, q: StartRequest, x: Execution)
    requires ParseChunks(w, q.payload).Some?
  {
    x.workloadId == q.workloadId && x.planHash == q.planHash && x.payloadHash == w.hash(ParseChunks(w, q.payload).value)
  }

  /** The row held under the key of the request, if any. */
  ghost predicate HeldUnder(s: State, key: string, id: string) {
    key in s.keys && s.keys[key] == id && id in s.rows
  }

  /** A row as a start makes it: the fields and chunks of the request, nothing done, nothing asked, nothing in custody. */
  ghost predicate Begins(w: World, q: StartRequest, x: Execution, id: string)
    requires ParseChunks(w, q.payload).Some?
  {
    && x.id == id && x.key == q.key && Asks(w, q, x) && x.chunks == ParseChunks(w, q.payload).value
    && x.next == 0 && x.histories == map[] && x.phase == Running && x.requested == NoRequest && x.epoch == 1
    && x.submission == NoSubmission && x.submittingChunk == "" && x.prompt == "" && x.ref == "" && x.refChunk == 0 && x.refEpoch == 0
    && x.error == NoNote
  }

  /** The row after a resume: running under the next epoch, its reference used up. */
  function Reopened(x: Execution): Execution {
    x.(phase := Running, requested := NoRequest, error := NoNote, submission := NoSubmission, submittingChunk := "",
       ref := "", refChunk := 0, refEpoch := 0, epoch := x.epoch + 1)
  }

  /** What each reply to a start says. Both positive replies are for exactly the work requested, and only a lost or
      oversized write keeps a readable request without conflict from one of them. */
  ghost predicate StartReply(w: World, s: State, t: State, q: StartRequest, newId: string, o: Write, reply: Reply) {
    && (reply == BadRequest <==> !Readable(w, q))
    && (reply == Unavailable <==> Readable(w, q) && s.closed)
    && (reply == BadRequest || reply == Unavailable || reply == Conflict ==> t == s)
    && (Readable(w, q) && !s.closed ==> (reply == Conflict <==> Clashes(w, s, q)))
    && (reply == Accept ==> Created(w, s, t, q, newId))
    && (reply == Reply.Ok ==> exists id :: HeldUnder(s, q.key, id) && Replayed(w, s, t, q, id))
    && (reply == Internal ==> t.rows == s.rows && t.keys == s.keys && t.runs == s.runs && t.past == s.past && StartUnwritten(w, s, q, newId, o))
    && reply != NotFound
  }

  /** The file the request needs was not written. */
  ghost predicate StartUnwritten(w: World, s: State, q: StartRequest, newId: string, o: Write) {
    || o != Durable
    || (Readable(w, q) && q.key !in s.keys && exists x :: Begins(w, q, x, newId) && !Fits(w, s.rows[newId := x]))
    || (q.key in s.keys && s.keys[q.key] in s.rows && !Fits(w, s.rows[s.keys[q.key] := Reopened(s.rows[s.keys[q.key]])]))
  }

  /** A readable request conflicts exactly when its key stands for other work, when it names a reference that is not the
      one held, when it would resume without naming one, or when it names one for a key nobody holds. */
  ghost predicate Clashes(w: World, s: State, q: StartRequest)
    requires Readable(w, q)
  {
    if q.key !in s.keys then q.ref != ""
    else
      || s.keys[q.key] !in s.rows
      || var x := s.rows[s.keys[q.key]];
         !Asks(w, q, x) || (q.ref != "" && q.ref != x.ref) || (Resumable(x.phase) && q.ref == "")
  }

  /** Exactly one new row and one goroutine for it, in every file. */
  ghost predicate Created(w: World, s: State, t: State, q: StartRequest, newId: string) {
    && Readable(w, q) && q.key !in s.keys && newId in t.rows && Begins(w, q, t.rows[newId], newId)
    && t.rows == s.rows[newId := t.rows[newId]] && t.keys == s.keys[q.key := newId]
    && t.runs == s.runs[(newId, 1) := Top] && Recorded(t) && t.past == s.past
  }

  /** The execution under the key does the work requested. If it had stopped at a boundary it runs again, under the next
      epoch, the reference named by the request being its own and now used up; otherwise nothing changed. */
  ghost predicate Replayed(w: World, s: State, t: State, q: StartRequest, id: string)
    requires id in s.rows
  {
    var x := s.rows[id];
    && Readable(w, q) && Asks(w, q, x)
    && (!Resumable(x.phase) ==> t == s)
    && (Resumable(x.phase) ==>
          && q.ref != "" && q.ref == x.ref && Recorded(t) && t.keys == s.keys
          && t.rows == s.rows[id := Reopened(x)]
          && t.runs == s.runs[(id, x.epoch + 1) := Top])
  }

  lemma CreateMeans(w: World, s: State, q: StartRequest, newId: string, o: Write)
    requires Readable(w, q) && q.key !in s.keys && newId !in s.rows
    ensures var (reply, t) := CreateStep(w, s, NewExecution(w, q, ParseChunks(w, q.payload).value, newId), o);
            && (reply == Accept || reply == Internal) && (reply == Accept ==> Created(w, s, t, q, newId))
            && (reply == Internal ==> t.rows == s.rows && t.keys == s.keys && t.runs == s.runs && t.past == s.past)
            && (reply == Internal ==> StartUnwritten(w, s, q, newId, o))
  {
    hide ParseChunks, Fits;
    var x := NewExecution(w, q, ParseChunks(w, q.payload).value, newId);
    assert Begins(w, q, x, newId);
  }

  lemma ResumeMeans(w: World, s: State, q: StartRequest, id: string, o: Write)
    requires Readable(w, q) && id in s.rows && s.rows[id].id == id && Resumable(s.rows[id].phase)
    requires Asks(w, q, s.rows[id]) && q.ref != "" && q.ref == s.rows[id].ref
    ensures var (reply, t) := ResumeStep(w, s, s.rows[id], o);
            && (reply == Reply.Ok || reply == Internal) && (reply == Reply.Ok ==> Replayed(w, s, t, q, id))
            && (reply == Internal ==> t.rows == s.rows && t.keys == s.keys && t.runs == s.runs && t.past == s.past)
            && (reply == Internal ==> o != Durable || !Fits(w, s.rows[id := Reopened(s.rows[id])]))
  {
    hide ParseChunks, TryCopy, Readable, Asks, Fits;
    var x := s.rows[id];
    CopyReplaces(w, s, id, Resumed(x), x, o);
    CopyWrites(w, s, id, Resumed(x), x, o);
    CopyKeys(w, s, id, Resumed(x), x, o);
    assert s.rows[id := x] == s.rows;
  }

  /** A write attempt succeeds if and only if it is durable and the file fits. */
  lemma CopyWrites(w: World, s: State, id: string, c: Execution, f: Execution, o: Write)
    ensures TryCopy(w, s, id, c, f, o).0 <==> o == Durable && Fits(w, s.rows[id := c])
    ensures TryRow(w, s, id, c, f, o).0 <==> o == Durable && Fits(w, s.rows[id := c])
  {
    hide Fits;
  }

  lemma CopyKeys(w: World, s: State, id: string, c: Execution, f: Execution, o: Write)
    ensures TryCopy(w, s, id, c, f, o).1.keys == s.keys
  {}

  lemma StartMeans(w: World, s: State, q: StartRequest, newId: string, o: Write)
    requires newId !in s.rows && forall id :: id in s.rows ==> s.rows[id].id == id
    ensures var (reply, t) := StartStep(w, s, q, newId, o); StartReply(w, s, t, q, newId, o, reply)
  {
    hide ParseChunks, ResumeStep, CreateStep, Created, Replayed, Fits;
    if Readable(w, q) && !s.closed {
      if q.key in s.keys && s.keys[q.key] in s.rows {
        var id := s.keys[q.key];
        assert HeldUnder(s, q.key, id);
        if !Clashes(w, s, q) {
          if Resumable(s.rows[id].phase) { ResumeMeans(w, s, q, id, o); } else { SameReplay(w, s, q, id); }
        }
      } else if q.key !in s.keys {
        CreateMeans(w, s, q, newId, o);
      }
    }
  }

  lemma SameReplay(w: World, s: State, q: StartRequest, id: string)
    requires id in s.rows && Readable(w, q) && Asks(w, q, s.rows[id]) && !Resumable(s.rows[id].phase)
    ensures Replayed(w, s, s, q, id)
  {}

  /** A boundary request is accepted exactly for a running row, once every file holds it; any other reply leaves all
      rows alone. `Ok` means the execution already stopped at the boundary asked for. */
  ghost predicate BoundaryReply(w: World, s: State, t: State, id: string, want: Request, o: Write, reply: Reply) {
    && (reply == NotFound <==> id !in s.rows)
    && (id in s.rows ==>
          var x := s.rows[id];
          && (reply == Reply.Ok <==> (want == YieldRequest && x.phase == Yielded) || (want == CheckpointRequest && x.phase == Checkpointed))
          && (reply == Accept || reply == Internal <==> x.phase == Running)
          && (reply == Accept <==> x.phase == Running && o == Durable && Fits(w, s.rows[id := x.(requested := want)]))
          && (reply == Accept ==> Recorded(t) && t.rows == s.rows[id := x.(requested := want)]))
    && (reply != Accept ==> t.rows == s.rows)
    && t.runs == s.runs && t.keys == s.keys && t.past == s.past
  }

  lemma BoundaryMeans(w: World, s: State, id: string, want: Request, o: Write)
    ensures var (reply, t) := BoundaryStep(w, s, id, want, o); BoundaryReply(w, s, t, id, want, o, reply)
  {
    hide TryCopy, Fits;
    if id in s.rows {
      CopyReplaces(w, s, id, s.rows[id].(requested := want), s.rows[id], o);
      CopyWrites(w, s, id, s.rows[id].(requested := want), s.rows[id], o);
      CopyKeys(w, s, id, s.rows[id].(requested := want), s.rows[id], o);
      assert s.rows[id := s.rows[id]] == s.rows;
    }
  }

  /** Without proof the row is uncertain under an epoch no goroutine has, with custody, progress and outputs kept. The
      caller hears a conflict exactly when every file says so. */
  ghost predicate UnprovenReply(w: World, s: State, t: State, id: string, o: Write, reply: Reply)
    requires id in s.rows
  {
    && id in t.rows && (reply == Conflict || reply == Internal) && (reply == Conflict ==> Recorded(t))
    && t.rows == s.rows[id := t.rows[id]]
    && t.rows[id] == s.rows[id].(phase := Uncertain, epoch := s.rows[id].epoch + 1, error := t.rows[id].error)
    && (o == Durable && Fits(w, s.rows[id := s.rows[id].(phase := Uncertain, epoch := s.rows[id].epoch + 1, error := IdentityUnknown)]) <==> reply == Conflict)
    && (forall r :: r in t.runs && r.0 == id ==> !Current(t, r))
    && t.runs == s.runs && t.probes == s.probes && t.stops == s.stops
  }

  lemma UnprovenMeans(w: World, s: State, id: string, o: Write)
    requires id in s.rows
    ensures var (reply, t) := UnprovenStep(w, s, id, o); UnprovenReply(w, s, t, id, o, reply) && reply != NotFound
  {
    hide Fits;
    var c := Doubtful(s.rows[id], IdentityUnknown).(epoch := s.rows[id].epoch + 1);
    CopyReplaces(w, s, id, c, Doubtful(c, CancelLost), o);
    CopyWrites(w, s, id, c, Doubtful(c, CancelLost), o);
    hide Persist;
  }

  predicate Finished(phase: Phase) {
    phase in {Cancelled, Completed, Failed, Yielded, Checkpointed}
  }

  /** No goroutine of the execution is left, current or fenced. */
  predicate Unattended(s: State, id: string) {
    forall r: RunId :: r in s.runs ==> r.0 != id
  }

  lemma NobodyLeft(s: State, id: string)
    ensures NoLiveRun(s, id) <==> Unattended(s, id)
  {
  }

  function CancelledAt(x: Execution): Execution {
    x.(phase := Cancelled, requested := NoRequest, error := NoNote, epoch := x.epoch + 1)
  }

  function StoppingAt(x: Execution): Execution {
    x.(phase := Cancelling, requested := CancelRequest, epoch := x.epoch + 1)
  }

  /** The first half of a cancellation, by what the row holds. A finished row is left alone. A row that holds no
      submission is cancelled under a new epoch, in every file, or uncertain. One whose prompt is unknown waits for a
      probe if no goroutine is live, and otherwise becomes uncertain. One whose prompt is known is cancelling under a
      new epoch, in every file, and waits for a stop. */
  ghost predicate CancelReply(w: World, s: State, t: State, id: string, o: Write, reply: Reply) {
    && (reply == NotFound <==> id !in s.rows) && (id !in s.rows ==> t == s)
    && (id in s.rows ==>
          var x := s.rows[id];
          if Finished(x.phase) then reply == Reply.Ok && t == s
          else if x.submission == NoSubmission && x.prompt == "" then CancelsNow(w, s, t, id, o, reply)
          else if x.submission == Submitting || x.submission == Unknown || x.prompt == "" then
            if Unattended(s, id) then reply == Accept && t == s.(probes := s.probes + {(id, x.epoch)})
            else UnprovenReply(w, s, t, id, o, reply)
          else CancelsLater(w, s, t, id, o, reply))
  }

  ghost predicate CancelsNow(w: World, s: State, t: State, id: string, o: Write, reply: Reply)
    requires id in s.rows
  {
    var x := s.rows[id];
    && (reply == Reply.Ok || reply == Internal) && (reply == Reply.Ok <==> o == Durable && Fits(w, s.rows[id := CancelledAt(x)]))
    && id in t.rows && t.rows == s.rows[id := t.rows[id]]
    && (reply == Reply.Ok ==> Recorded(t) && t.rows[id] == CancelledAt(x))
    && (reply == Internal ==> t.rows[id] == CancelledAt(x).(phase := Uncertain, error := CancelLost))
    && t.runs == s.runs && t.probes == s.probes && t.stops == s.stops && t.past == s.past
  }

  ghost predicate CancelsLater(w: World, s: State, t: State, id: string, o: Write, reply: Reply)
    requires id in s.rows
  {
    var x := s.rows[id];
    && (reply == Accept || reply == Internal) && (reply == Accept <==> o == Durable && Fits(w, s.rows[id := StoppingAt(x)]))
    && (reply == Accept ==> Recorded(t) && t.rows == s.rows[id := StoppingAt(x)] && t.stops == s.stops + {(id, x.epoch + 1)})
    && (reply == Internal ==> t.rows == s.rows && t.stops == s.stops)
    && t.runs == s.runs && t.probes == s.probes && t.past == s.past
  }

  lemma CancelNowMeans(w: World, s: State, id: string, o: Write)
    requires id in s.rows
    ensures var c := CancelledAt(s.rows[id]); var (ok, t) := TryRow(w, s, id, c, Doubtful(c, CancelLost), o);
            CancelsNow(w, s, t, id, o, if ok then Reply.Ok else Internal)
  {
    hide Fits;
    var c := CancelledAt(s.rows[id]);
    CopyReplaces(w, s, id, c, Doubtful(c, CancelLost), o);
    CopyWrites(w, s, id, c, Doubtful(c, CancelLost), o);
    hide Persist;
  }

  lemma CancelLaterMeans(w: World, s: State, id: string, o: Write)
    requires id in s.rows
    ensures var x := s.rows[id]; var (ok, t) := TryCopy(w, s, id, StoppingAt(x), x, o);
            CancelsLater(w, s, if ok then t.(stops := t.stops + {(id, x.epoch + 1)}) else t, id, o, if ok then Accept else Internal)
  {
    hide Fits;
    var x := s.rows[id];
    CopyReplaces(w, s, id, StoppingAt(x), x, o);
    CopyWrites(w, s, id, StoppingAt(x), x, o);
    assert s.rows[id := x] == s.rows;
    hide Persist;
  }

  lemma CancelMeans(w: World, s: State, id: string, o: Write)
    ensures var (reply, t) := CancelStep(w, s, id, o); CancelReply(w, s, t, id, o, reply)
  {
    NobodyLeft(s, id);
    hide TryRow, TryCopy, UnprovenStep, UnprovenReply, CancelsNow, CancelsLater, NoLiveRun, Unattended, Doubtful;
    if id in s.rows {
      UnprovenMeans(w, s, id, o);
      CancelNowMeans(w, s, id, o);
      CancelLaterMeans(w, s, id, o);
    }
  }

  /** `Ok` to a cancellation: the execution is finished, in every file if that is new, and no goroutine may act for it. */
  lemma CancelOkMeansFinished(w: World, s: State, id: string, o: Write)
    requires CancelStep(w, s, id, o).0 == Reply.Ok
    ensures var t := CancelStep(w, s, id, o).1;
            && id in t.rows && Finished(t.rows[id].phase) && (t.rows != s.rows ==> Recorded(t))
            && (forall r :: r in t.runs && r.0 == id ==> !Current(t, r))
  {
    hide CancelStep;
    CancelMeans(w, s, id, o);
  }

  function ProvenAt(x: Execution): Execution {
    x.(phase := Cancelled, requested := NoRequest, error := NoNote, submission := NoSubmission, submittingChunk := "", prompt := "", epoch := x.epoch + 1)
  }

  /** An idle answer proves a cancellation exactly for the epoch it was asked under, with no goroutine live, on a row not
      already ended; then the row is cancelled under a new epoch with nothing in custody, in every file, or as it was.
      Any other answer proves nothing. */
  ghost predicate ProbeReply(w: World, s: State, t: State, id: string, epoch: nat, idle: bool, o: Write, reply: Reply) {
    && (reply == NotFound <==> id !in s.rows) && (id !in s.rows ==> t == s)
    && (id in s.rows ==>
          var x := s.rows[id];
          if idle && x.epoch == epoch && Unattended(s, id) && x.phase !in {Cancelled, Completed, Failed} then Proves(w, s, t, id, o, reply)
          else UnprovenReply(w, s, t, id, o, reply))
  }

  ghost predicate Proves(w: World, s: State, t: State, id: string, o: Write, reply: Reply)
    requires id in s.rows
  {
    && (reply == Reply.Ok || reply == Internal) && (reply == Reply.Ok <==> o == Durable && Fits(w, s.rows[id := ProvenAt(s.rows[id])]))
    && (reply == Reply.Ok ==> Recorded(t) && t.rows == s.rows[id := ProvenAt(s.rows[id])])
    && (reply == Internal ==> t.rows == s.rows)
    && t.runs == s.runs && t.past == s.past
  }

  lemma ProofMeans(w: World, s: State, id: string, o: Write)
    requires id in s.rows
    ensures var x := s.rows[id]; var (ok, t) := TryCopy(w, s, id, ProvenAt(x), x, o); Proves(w, s, t, id, o, if ok then Reply.Ok else Internal)
  {
    hide TryCopy, Fits;
    var x := s.rows[id];
    CopyReplaces(w, s, id, ProvenAt(x), x, o);
    CopyWrites(w, s, id, ProvenAt(x), x, o);
    assert s.rows[id := x] == s.rows;
  }

  lemma ProbeMeans(w: World, s: State, id: string, epoch: nat, idle: bool, o: Write)
    ensures var (reply, t) := ProbedStep(w, s, id, epoch, idle, o); ProbeReply(w, s, t, id, epoch, idle, o, reply)
  {
    NobodyLeft(s, id);
    hide TryCopy, UnprovenStep, UnprovenReply, Proves, NoLiveRun, Unattended;
    if id in s.rows {
      UnprovenMeans(w, s, id, o);
      ProofMeans(w, s, id, o);
    }
  }

  function StoppedAt(x: Execution): Execution {
    x.(phase := Cancelled, requested := NoRequest, prompt := "", submission := NoSubmission, submittingChunk := "", error := NoNote)
  }

  /** A stop touches only a row that is still cancelling under the epoch that asked for it. One that failed makes the row
      uncertain with custody kept. One that was confirmed cancels it with nothing in custody; `Ok` is exactly such a
      cancellation held by every file, and without it the row is as it was. */
  ghost predicate StopReply(w: World, s: State, t: State, id: string, epoch: nat, failure: Option<Note>, o: Write, reply: Reply) {
    var due := id in s.rows && s.rows[id].epoch == epoch && s.rows[id].phase == Cancelling;
    && (!due ==> reply == Conflict && t == s)
    && (due && failure.Some? ==> reply == Conflict && t.rows == s.rows[id := s.rows[id].(phase := Uncertain, error := failure.value)])
    && (due && failure.None? ==>
          && (reply == Reply.Ok || reply == Internal) && (reply == Reply.Ok <==> o == Durable && Fits(w, s.rows[id := StoppedAt(s.rows[id])]))
          && (reply == Reply.Ok ==> Recorded(t) && t.rows == s.rows[id := StoppedAt(s.rows[id])])
          && (reply == Internal ==> t.rows == s.rows))
    && t.runs == s.runs && t.past == s.past
  }

  lemma StopMeans(w: World, s: State, id: string, epoch: nat, failure: Option<Note>, o: Write)
    ensures var (reply, t) := StoppedStep(w, s, id, epoch, failure, o); StopReply(w, s, t, id, epoch, failure, o, reply)
  {
    hide TryCopy, TryRow, Fits;
    if id in s.rows {
      var x := s.rows[id];
      CopyReplaces(w, s, id, StoppedAt(x), x, o);
      CopyWrites(w, s, id, StoppedAt(x), x, o);
      assert s.rows[id := x] == s.rows;
      if failure.Some? { CopyReplaces(w, s, id, Doubtful(x, failure.value), Doubtful(x, failure.value), o); }
    }
  }

  // ---------------------------------------------------------------- the run goroutine

  /** No output, cursor or epoch moved, and no other row changed. */
  ghost predicate Standing(s: State, t: State, id: string) {
    && t.rows.Keys == s.rows.Keys && t.stuck == s.stuck
    && (forall k :: k in s.rows ==> SameOutputs(s.rows[k], t.rows[k]) && t.rows[k].epoch == s.rows[k].epoch)
    && (forall k :: k in s.rows && k != id ==> t.rows[k] == s.rows[k])
  }

  predicate InPlace(x: Execution, y: Execution) {
    SameOutputs(x, y) && y.epoch == x.epoch
  }

  lemma ReplacedStands(s: State, t: State, id: string, c: Execution, f: Execution, ok: bool)
    requires id in s.rows && Replaced(s, t, id, c, f, ok) && InPlace(s.rows[id], c) && InPlace(s.rows[id], f)
    ensures Standing(s, t, id) && id in t.rows && t.rows[id] == (if ok then c else f) && (ok ==> Recorded(t)) && t.past == s.past
  {}

  lemma Still(s: State, t: State, id: string)
    requires t.rows == s.rows && t.stuck == s.stuck
    ensures Standing(s, t, id)
  {}

  lemma TwiceStands(w: World, s: State, r: RunId, c: Execution, f: Execution, good: Pc, bad: Pc, o1: Write, o2: Write)
    requires r.0 in s.rows && InPlace(s.rows[r.0], c) && InPlace(s.rows[r.0], f)
    ensures var (ok, t) := TryTwice(w, s, r, c, f, good, bad, o1, o2);
            && Standing(s, t, r.0) && r.0 in t.rows && t.rows[r.0] == (if ok then c else f) && (ok ==> Recorded(t))
            && t.runs == s.runs[r := if ok then good else bad] && t.past == s.past
  {
    hide TryTwice, Replaced, Standing, InPlace;
    TwiceReplaces(w, s, r, c, f, good, bad, o1, o2);
    var (ok, t) := TryTwice(w, s, r, c, f, good, bad, o1, o2);
    ReplacedStands(s, t, r.0, c, f, ok);
  }

  lemma StoreStands(w: World, s: State, r: RunId, x: Execution, pc: Pc, o: Write)
    requires r.0 in s.rows && InPlace(s.rows[r.0], x)
    ensures var t := StoreAnyway(w, s, r, x, pc, o);
            Standing(s, t, r.0) && r.0 in t.rows && t.rows[r.0] == x && t.runs == s.runs[r := pc] && t.past == s.past
  {
    hide Persist;
  }

  /** The goroutine goes on to send a chunk only if its row is current, the chunk was under nobody's custody, and every
      file now holds the intent. Otherwise it returns, and its row is not left running; a row completes only at the
      end of its chunks and only if every file says so. */
  ghost predicate TopReply(s: State, t: State, r: RunId)
    requires r in s.runs
  {
    && r in t.runs && (t.runs[r].Submit? || t.runs[r].Gone?) && Standing(s, t, r.0)
    && (t.runs[r].Submit? ==>
          && Current(s, r) && Current(t, r) && Recorded(t) && s.rows[r.0].submission == NoSubmission
          && t.rows[r.0].next == t.runs[r].chunk < |t.rows[r.0].chunks|
          && t.rows[r.0].submission == Submitting && t.rows[r.0].submittingChunk == t.rows[r.0].chunks[t.runs[r].chunk].id
          && Claim(r.0, t.rows[r.0].key, t.runs[r].chunk) in t.past.claimed)
    && (t.runs[r].Gone? ==> !Current(t, r) && t.past == s.past)
    && (r.0 in t.rows && r.0 in s.rows && t.rows[r.0].phase == Completed && s.rows[r.0].phase != Completed ==>
          Recorded(t) && t.rows[r.0].next >= |t.rows[r.0].chunks|)
  }

  lemma TopMeans(w: World, s: State, r: RunId, o1: Write, o2: Write)
    requires r in s.runs
    ensures TopReply(s, TopStep(w, s, r, o1, o2), r)
  {
    hide TryTwice, StoreAnyway, Standing;
    if !Current(s, r) {
      Still(s, SetRun(s, r, Gone), r.0);
    } else {
      var x := s.rows[r.0];
      if x.next >= |x.chunks| {
        TwiceStands(w, s, r, x.(phase := Completed), Doubtful(x, CompletionLost), Gone, Gone, o1, o2);
      } else if x.next < 0 || x.submission != NoSubmission || x.prompt != "" {
        StoreStands(w, s, r, Doubtful(x, CustodyUnresolved), Gone, o1);
      } else {
        IntentMeans(w, s, r, o1, o2);
      }
    }
  }

  lemma IntentMeans(w: World, s: State, r: RunId, o1: Write, o2: Write)
    requires r in s.runs && Current(s, r) && 0 <= s.rows[r.0].next < |s.rows[r.0].chunks|
    requires s.rows[r.0].submission == NoSubmission && s.rows[r.0].prompt == ""
    ensures TopReply(s, TopStep(w, s, r, o1, o2), r)
  {
    hide TryTwice, Standing;
    var x := s.rows[r.0];
    TwiceStands(w, s, r, WithIntent(x), Doubtful(x, IntentLost), Submit(x.next), Gone, o1, o2);
    StandingMoves(s, TryTwice(w, s, r, WithIntent(x), Doubtful(x, IntentLost), Submit(x.next), Gone, o1, o2).1, TopStep(w, s, r, o1, o2), r.0);
  }

  lemma StandingMoves(s: State, t: State, u: State, id: string)
    requires Standing(s, t, id) && u.rows == t.rows && u.stuck == t.stuck
    ensures Standing(s, u, id)
  {}

  /** Without a usable reply the goroutine reports an error, custody is never released, and a row whose submission was
      open under this goroutine's epoch is no longer running. */
  ghost predicate AmbiguousReply(s: State, t: State, r: RunId, cause: Note)
    requires r in s.runs
  {
    && r in t.runs && t.runs[r].Result? && t.runs[r].outcome == OtherError(cause) && Standing(s, t, r.0) && t.past == s.past
    && (r.0 in s.rows && s.rows[r.0].submission != NoSubmission ==> r.0 in t.rows && t.rows[r.0].submission != NoSubmission)
    && (r.0 in s.rows && s.rows[r.0].epoch == r.1 && s.rows[r.0].submission == Submitting ==> r.0 in t.rows && t.rows[r.0].phase == Uncertain)
  }

  lemma AmbiguousMeans(w: World, s: State, r: RunId, chunk: nat, cause: Note, o: Write)
    requires r in s.runs
    ensures AmbiguousReply(s, AmbiguousStep(w, s, r, chunk, cause, o), r, cause)
  {
    hide TryOnce, Standing, Replaced;
    var pc := Result(chunk, OtherError(cause));
    Still(s, SetRun(s, r, pc), r.0);
    if r.0 in s.rows {
      var d := Doubtful(s.rows[r.0], cause);
      OnceReplaces(w, s, r, d.(submission := Unknown), d, pc, o);
      var t := TryOnce(w, s, r, d.(submission := Unknown), d, pc, o);
      var ok :| Replaced(s, t, r.0, d.(submission := Unknown), d, ok);
      ReplacedStands(s, t, r.0, d.(submission := Unknown), d, ok);
    }
  }

  /** The goroutine goes on to poll a prompt only if its row is under its epoch and every file names that prompt as
      accepted. A row that moved on to another epoch keeps its state, and custody is never released. */
  ghost predicate AcceptedReply(s: State, t: State, r: RunId, chunk: nat, p: string)
    requires r in s.runs && r.0 in s.rows
  {
    && r in t.runs && r.0 in t.rows && Standing(s, t, r.0) && t.past.posts == s.past.posts && t.past.claimed == s.past.claimed
    && (t.runs[r] == Poll(chunk, p) || (t.runs[r].Result? && t.runs[r].chunk == chunk && t.runs[r].outcome.OtherError?))
    && (t.runs[r].Poll? ==> Recorded(t) && t.rows[r.0].epoch == r.1 && t.rows[r.0].prompt == p && t.rows[r.0].submission == Accepted
                            && t.rows[r.0].phase == s.rows[r.0].phase)
    && (s.rows[r.0].epoch != r.1 ==> t.rows[r.0].phase == s.rows[r.0].phase)
    && (s.rows[r.0].submission != NoSubmission ==> t.rows[r.0].submission != NoSubmission)
  }

  lemma AcceptedMeans(w: World, s: State, r: RunId, chunk: nat, p: string, o1: Write, o2: Write)
    requires r in s.runs && r.0 in s.rows && chunk < |s.rows[r.0].chunks|
    ensures AcceptedReply(s, AcceptedStep(w, s, r, chunk, p, o1, o2), r, chunk, p)
  {
    hide TryTwice, StoreAnyway, AcceptedReply;
    var x, t := s.rows[r.0], Learned(s, r, chunk, p);
    InTimeMeans(w, t, r, chunk, p, o1, o2);
    LateMeans(w, t, r, chunk, p, o1);
    FencedMeans(t, r, chunk, p);
    RepliesFrom(s, t, AcceptedStep(w, s, r, chunk, p, o1, o2), r, chunk, p);
  }

  lemma RepliesFrom(s: State, t: State, u: State, r: RunId, chunk: nat, p: string)
    requires r in s.runs && r.0 in s.rows && t == s.(past := t.past) && t.past.posts == s.past.posts && t.past.claimed == s.past.claimed
    requires AcceptedReply(t, u, r, chunk, p)
    ensures AcceptedReply(s, u, r, chunk, p)
  {}

  lemma InTimeMeans(w: World, s: State, r: RunId, chunk: nat, p: string, o1: Write, o2: Write)
    requires r in s.runs && r.0 in s.rows
    ensures var x := s.rows[r.0];
            x.epoch == r.1 ==>
              AcceptedReply(s, TryTwice(w, s, r, x.(prompt := p, submission := Accepted), Doubtful(x, IdentityLost).(prompt := p, submission := Unknown),
                                        Poll(chunk, p), Result(chunk, OtherError(IdentityLost)), o1, o2).1, r, chunk, p)
  {
    hide TryTwice, Standing;
    var x := s.rows[r.0];
    TwiceStands(w, s, r, x.(prompt := p, submission := Accepted), Doubtful(x, IdentityLost).(prompt := p, submission := Unknown),
                Poll(chunk, p), Result(chunk, OtherError(IdentityLost)), o1, o2);
  }

  lemma LateMeans(w: World, s: State, r: RunId, chunk: nat, p: string, o: Write)
    requires r in s.runs && r.0 in s.rows
    ensures AcceptedReply(s, StoreAnyway(w, s, r, s.rows[r.0].(prompt := p, submission := Unknown, error := LateAnswer),
                                         Result(chunk, OtherError(Fenced)), o), r, chunk, p)
  {
    hide StoreAnyway, Standing;
    StoreStands(w, s, r, s.rows[r.0].(prompt := p, submission := Unknown, error := LateAnswer), Result(chunk, OtherError(Fenced)), o);
  }

  lemma FencedMeans(s: State, r: RunId, chunk: nat, p: string)
    requires r in s.runs && r.0 in s.rows
    ensures AcceptedReply(s, SetRun(s, r, Result(chunk, OtherError(Fenced))), r, chunk, p)
  {
    hide Standing;
    Still(s, SetRun(s, r, Result(chunk, OtherError(Fenced))), r.0);
  }

  /** The goroutine goes round again only if the chunk succeeded and every file holds its output and the next cursor.
      The cursor moves in no other case, by one, with exactly that output, and never in memory alone. Otherwise the
      goroutine returns with its row not left running, or dies on a nil output map with nothing changed. */
  ghost predicate ResultReply(s: State, t: State, r: RunId, outcome: Outcome)
    requires r in s.runs && r.0 in s.rows
  {
    && r in t.runs && r.0 in t.rows && t.rows == s.rows[r.0 := t.rows[r.0]]
    && t.past.posts == s.past.posts && t.past.claimed == s.past.claimed
    && (t.rows[r.0].next == s.rows[r.0].next ==> t.rows[r.0].histories == s.rows[r.0].histories)
    && (t.rows[r.0].next != s.rows[r.0].next ==>
          && Recorded(t) && outcome.Succeeded? && Current(s, r) && r.0 !in s.bare && t.rows[r.0].next == s.rows[r.0].next + 1
          && t.rows[r.0].histories == s.rows[r.0].histories[outcome.prompt := outcome.record])
    && (t.stuck != s.stuck ==> outcome.Succeeded? && r.0 in s.bare && t.rows == s.rows)
    && (t.stuck == s.stuck ==> (t.runs[r].Top? && Current(t, r) && t.rows[r.0].next == s.rows[r.0].next + 1) || (t.runs[r].Gone? && !Current(t, r)))
  }

  /** The parts of a result that depend on the row it leaves. */
  lemma ReplacedResult(s: State, t: State, r: RunId, outcome: Outcome, c: Execution, f: Execution, ok: bool, pc: Pc)
    requires r in s.runs && Current(s, r) && Replaced(s, t, r.0, c, f, ok) && t.runs == s.runs[r := pc]
    requires var x := s.rows[r.0];
             var y := if ok then c else f;
             || (y.next == x.next && y.histories == x.histories && y.phase != Running && pc.Gone?)
             || (ok && outcome.Succeeded? && r.0 !in s.bare && y.next == x.next + 1 && y.histories == x.histories[outcome.prompt := outcome.record]
                 && ((pc.Top? && y.phase == Running && y.epoch == x.epoch) || (pc.Gone? && y.phase != Running)))
    ensures ResultReply(s, t, r, outcome)
  {}

  lemma CommitMeans(w: World, s: State, r: RunId, outcome: Outcome, ref: Option<string>, o1: Write, o2: Write)
    requires r in s.runs && Current(s, r) && outcome.Succeeded? && r.0 !in s.bare
    ensures ResultReply(s, CommitStep(w, s, r, Advanced(s.rows[r.0], outcome.prompt, outcome.record), ref, o1, o2), r, outcome)
  {
    hide TryTwice, StoreAnyway, ResultReply, Replaced;
    var x := s.rows[r.0];
    var a, f := Advanced(x, outcome.prompt, outcome.record), Doubtful(x, CommitLost);
    TwiceReplaces(w, s, r, a, f, Top, Gone, o1, o2);
    var (ok, t) := TryTwice(w, s, r, a, f, Top, Gone, o1, o2);
    ReplacedResult(s, t, r, outcome, a, f, ok, if ok then Top else Gone);
    UnnamedMeans(w, s, r, outcome, o1);
    if ref.Some? { BoundaryCommitMeans(w, s, r, outcome, ref.value, o1, o2); }
  }

  lemma UnnamedMeans(w: World, s: State, r: RunId, outcome: Outcome, o: Write)
    requires r in s.runs && Current(s, r)
    ensures ResultReply(s, PutBack(StoreAnyway(w, s, r, Doubtful(s.rows[r.0], RefUnavailable), Gone, o), r.0), r, outcome)
  {
    hide ResultReply, Persist;
    var d := Doubtful(s.rows[r.0], RefUnavailable);
    ReplacedResult(s, PutBack(StoreAnyway(w, s, r, d, Gone, o), r.0), r, outcome, d, d, false, Gone);
  }

  lemma BoundaryCommitMeans(w: World, s: State, r: RunId, outcome: Outcome, ref: string, o1: Write, o2: Write)
    requires r in s.runs && Current(s, r) && outcome.Succeeded? && r.0 !in s.bare
    ensures var x := s.rows[r.0];
            ResultReply(s, TryTwice(w, s.(past := s.past.(refs := s.past.refs[ref := r.0])), r, AtBoundary(Advanced(x, outcome.prompt, outcome.record), ref),
                                    Doubtful(x, CommitLost), Gone, Gone, o1, o2).1, r, outcome)
  {
    hide TryTwice, ResultReply, Replaced;
    var x := s.rows[r.0];
    var b, f := AtBoundary(Advanced(x, outcome.prompt, outcome.record), ref), Doubtful(x, CommitLost);
    var s1 := s.(past := s.past.(refs := s.past.refs[ref := r.0]));
    TwiceReplaces(w, s1, r, b, f, Gone, Gone, o1, o2);
    var (ok, t) := TryTwice(w, s1, r, b, f, Gone, Gone, o1, o2);
    ReplacedResult(s1, t, r, outcome, b, f, ok, Gone);
    ResultFrom(s, s1, t, r, outcome);
  }

  lemma ResultFrom(s: State, s1: State, t: State, r: RunId, outcome: Outcome)
    requires r in s.runs && r.0 in s.rows && s1 == s.(past := s1.past) && s1.past.posts == s.past.posts && s1.past.claimed == s.past.claimed
    requires ResultReply(s1, t, r, outcome)
    ensures ResultReply(s, t, r, outcome)
  {}

  lemma ResultMeans(w: World, s: State, r: RunId, outcome: Outcome, ref: Option<string>, o1: Write, o2: Write)
    requires r in s.runs && r.0 in s.rows && !s.stuck
    ensures ResultReply(s, ResultStep(w, s, r, outcome, ref, o1, o2), r, outcome)
  {
    hide CommitStep, TryOnce, Replaced;
    if !Current(s, r) {
      assert s.rows[r.0 := s.rows[r.0]] == s.rows;
    } else {
      var x := s.rows[r.0];
      match outcome
      case ChunkFailure(m) => FailureMeans(w, s, r, outcome, WithFailure(x, m), Doubtful(x, m).(submission := Unknown), o1);
      case OtherError(m) => FailureMeans(w, s, r, outcome, Doubtful(x, m).(submission := Unknown), Doubtful(x, m), o1);
      case Succeeded(_, _) =>
        assert s.rows[r.0 := s.rows[r.0]] == s.rows;
        if r.0 !in s.bare { CommitMeans(w, s, r, outcome, ref, o1, o2); }
    }
  }

  lemma FailureMeans(w: World, s: State, r: RunId, outcome: Outcome, c: Execution, f: Execution, o: Write)
    requires r in s.runs && Current(s, r) && c.phase != Running && f.phase != Running
    requires c.next == f.next == s.rows[r.0].next && c.histories == f.histories == s.rows[r.0].histories
    ensures ResultReply(s, TryOnce(w, s, r, c, f, Gone, o), r, outcome)
  {
    hide TryOnce, ResultReply, Replaced;
    OnceReplaces(w, s, r, c, f, Gone, o);
    var t := TryOnce(w, s, r, c, f, Gone, o);
    var ok :| Replaced(s, t, r.0, c, f, ok);
    ReplacedResult(s, t, r, outcome, c, f, ok, Gone);
  }

  // ---------------------------------------------------------------- which row a goroutine leaves, and on disk

  /** The row becomes `c` and every file holds it, if and only if the first write is durable and fits; otherwise it
      becomes `f`, and every file holds that if the second write is durable and fits. */
  ghost predicate Lands(w: World, s: State, t: State, id: string, c: Execution, f: Execution, o1: Write, o2: Write) {
    if o1 == Durable && Fits(w, s.rows[id := c]) then t.rows == s.rows[id := c] && Recorded(t)
    else t.rows == s.rows[id := f] && (o2 == Durable && Fits(w, t.rows) ==> Recorded(t))
  }

  lemma TwiceLands(w: World, s: State, r: RunId, c: Execution, f: Execution, good: Pc, bad: Pc, o1: Write, o2: Write)
    ensures var (ok, t) := TryTwice(w, s, r, c, f, good, bad, o1, o2);
            && Lands(w, s, t, r.0, c, f, o1, o2) && (ok <==> o1 == Durable && Fits(w, s.rows[r.0 := c]))
            && t.runs == s.runs[r := if ok then good else bad] && t.past == s.past && t.stuck == s.stuck
  {
    hide TryCopy, Fits;
    CopyReplaces(w, s, r.0, c, f, o1);
    CopyWrites(w, s, r.0, c, f, o1);
  }

  lemma OnceLands(w: World, s: State, r: RunId, c: Execution, f: Execution, pc: Pc, o: Write)
    ensures var t := TryOnce(w, s, r, c, f, pc, o);
            && Lands(w, s, t, r.0, c, f, o, LostBeforeRename) && t.runs == s.runs[r := pc] && t.past == s.past && t.stuck == s.stuck
  {
    hide TryCopy, Fits;
    CopyReplaces(w, s, r.0, c, f, o);
    CopyWrites(w, s, r.0, c, f, o);
  }

  lemma StoreLands(w: World, s: State, r: RunId, x: Execution, pc: Pc, o: Write)
    ensures var t := StoreAnyway(w, s, r, x, pc, o);
            && t.rows == s.rows[r.0 := x] && (o == Durable && Fits(w, t.rows) ==> Recorded(t))
            && t.runs == s.runs[r := pc] && t.past == s.past && t.stuck == s.stuck
  {
    hide Fits;
  }

  /** The row was marked uncertain for a reason, and nothing else about it changed. */
  function Doubted(x: Execution, why: Note): Execution {
    x.(phase := Uncertain, error := why)
  }

  /** Loop head. A goroutine without its row changes nothing. At the end of the chunks the row is completed, with custody
      left over it is doubted, and otherwise the intent of the chunk at the cursor is recorded and claimed. */
  ghost predicate TopRow(w: World, s: State, t: State, r: RunId, o1: Write, o2: Write)
    requires r in s.runs
  {
    if !Current(s, r) then t == s.(runs := s.runs[r := Gone])
    else
      var x := s.rows[r.0];
      if x.next >= |x.chunks| then
        Lands(w, s, t, r.0, x.(phase := Completed), Doubted(x, CompletionLost), o1, o2) && t.runs == s.runs[r := Gone] && t.past == s.past
      else if x.next < 0 || x.submission != NoSubmission || x.prompt != "" then
        t.rows == s.rows[r.0 := Doubted(x, CustodyUnresolved)] && t.runs == s.runs[r := Gone] && t.past == s.past
      else
        var c := x.(submission := Submitting, submittingChunk := x.chunks[x.next].id);
        var ok := o1 == Durable && Fits(w, s.rows[r.0 := c]);
        && Lands(w, s, t, r.0, c, Doubted(x, IntentLost), o1, o2) && t.runs == s.runs[r := if ok then Submit(x.next) else Gone]
        && t.past == s.past.(claimed := if ok then s.past.claimed + {Claim(r.0, x.key, x.next)} else s.past.claimed)
  }

  lemma TopLands(w: World, s: State, r: RunId, o1: Write, o2: Write)
    requires r in s.runs
    ensures TopRow(w, s, TopStep(w, s, r, o1, o2), r, o1, o2)
  {
    hide TryTwice, StoreAnyway, Lands, Fits;
    if Current(s, r) {
      var x := s.rows[r.0];
      TwiceLands(w, s, r, x.(phase := Completed), Doubtful(x, CompletionLost), Gone, Gone, o1, o2);
      StoreLands(w, s, r, Doubtful(x, CustodyUnresolved), Gone, o1);
      if 0 <= x.next < |x.chunks| { IntentLands(w, s, r, o1, o2); }
    }
  }

  lemma IntentLands(w: World, s: State, r: RunId, o1: Write, o2: Write)
    requires r in s.runs && Current(s, r) && 0 <= s.rows[r.0].next < |s.rows[r.0].chunks|
    ensures s.rows[r.0].submission == NoSubmission && s.rows[r.0].prompt == "" ==> TopRow(w, s, TopStep(w, s, r, o1, o2), r, o1, o2)
  {
    hide TryTwice, Fits;
    var x := s.rows[r.0];
    TwiceLands(w, s, r, WithIntent(x), Doubtful(x, IntentLost), Submit(x.next), Gone, o1, o2);
  }

  /** No usable reply: a submission open under this goroutine's epoch becomes unknown, in every file, or stays as it was;
      either way its row is uncertain. Any other row is left alone. */
  ghost predicate AmbiguousRow(w: World, s: State, t: State, r: RunId, chunk: nat, cause: Note, o: Write)
    requires r in s.runs
  {
    && t.runs == s.runs[r := Result(chunk, OtherError(cause))] && t.past == s.past
    && (if r.0 in s.rows && s.rows[r.0].epoch == r.1 && s.rows[r.0].submission == Submitting
        then Lands(w, s, t, r.0, Doubted(s.rows[r.0], cause).(submission := Unknown), Doubted(s.rows[r.0], cause), o, LostBeforeRename)
        else t.rows == s.rows)
  }

  lemma AmbiguousLands(w: World, s: State, r: RunId, chunk: nat, cause: Note, o: Write)
    requires r in s.runs
    ensures AmbiguousRow(w, s, AmbiguousStep(w, s, r, chunk, cause, o), r, chunk, cause, o)
  {
    hide TryOnce, Lands;
    if r.0 in s.rows {
      var d := Doubtful(s.rows[r.0], cause);
      OnceLands(w, s, r, d.(submission := Unknown), d, Result(chunk, OtherError(cause)), o);
    }
  }

  /** Comfy's answer: recorded as accepted while the intent is current; kept as unknown on a row that moved on without a
      prompt of its own; otherwise not recorded. The prompt is remembered as the answer to this chunk in all cases. */
  ghost predicate AcceptedRow(w: World, s: State, t: State, r: RunId, chunk: nat, p: string, o1: Write, o2: Write)
    requires r in s.runs && r.0 in s.rows && chunk < |s.rows[r.0].chunks|
  {
    var x := s.rows[r.0];
    var mine := x.submittingChunk == x.chunks[chunk].id;
    && t.past == s.past.(origin := s.past.origin[p := Claim(r.0, x.key, chunk)])
    && (if x.epoch == r.1 && x.submission == Submitting && mine then
          var c := x.(prompt := p, submission := Accepted);
          var ok := o1 == Durable && Fits(w, s.rows[r.0 := c]);
          && Lands(w, s, t, r.0, c, Doubted(x, IdentityLost).(prompt := p, submission := Unknown), o1, o2)
          && t.runs == s.runs[r := if ok then Poll(chunk, p) else Result(chunk, OtherError(IdentityLost))]
        else
          && t.runs == s.runs[r := Result(chunk, OtherError(Fenced))]
          && t.rows == if mine && x.prompt == "" then s.rows[r.0 := x.(prompt := p, submission := Unknown, error := LateAnswer)] else s.rows)
  }

  lemma AcceptedLands(w: World, s: State, r: RunId, chunk: nat, p: string, o1: Write, o2: Write)
    requires r in s.runs && r.0 in s.rows && chunk < |s.rows[r.0].chunks|
    ensures AcceptedRow(w, s, AcceptedStep(w, s, r, chunk, p, o1, o2), r, chunk, p, o1, o2)
  {
    hide TryTwice, StoreAnyway, Fits, Lands;
    var x, t := s.rows[r.0], Learned(s, r, chunk, p);
    TwiceLands(w, t, r, x.(prompt := p, submission := Accepted), Doubtful(x, IdentityLost).(prompt := p, submission := Unknown),
               Poll(chunk, p), Result(chunk, OtherError(IdentityLost)), o1, o2);
    LandsFrom(w, s, t, AcceptedStep(w, s, r, chunk, p, o1, o2), r.0, x.(prompt := p, submission := Accepted),
              Doubtful(x, IdentityLost).(prompt := p, submission := Unknown), o1, o2);
    StoreLands(w, t, r, x.(prompt := p, submission := Unknown, error := LateAnswer), Result(chunk, OtherError(Fenced)), o1);
  }

  lemma LandsFrom(w: World, s: State, s1: State, t: State, id: string, c: Execution, f: Execution, o1: Write, o2: Write)
    requires s1.rows == s.rows
    ensures Lands(w, s1, t, id, c, f, o1, o2) <==> Lands(w, s, t, id, c, f, o1, o2)
  {}

  /** The row after one more chunk. */
  function OneOn(x: Execution, p: string, record: string): Execution {
    x.(histories := x.histories[p := record], next := x.next + 1, prompt := "", submittingChunk := "", submission := NoSubmission)
  }

  /** The row stopped at the boundary it was asked to stop at: yielded on a yield, checkpointed on a checkpoint. */
  function AtRest(x: Execution, ref: string): Execution {
    x.(ref := ref, refChunk := x.next, refEpoch := x.epoch, requested := NoRequest,
       phase := match x.requested case YieldRequest => Yielded case _ => Checkpointed)
  }

  /** What becomes of a chunk whose call returned. A failure Comfy reported fails the execution with nothing in custody;
      any other error leaves it uncertain with the submission unknown. A success moves on, or stops at the boundary asked
      for; without a reference, or if it cannot be written, the execution is uncertain as it was before the chunk. */
  ghost predicate ResultRow(w: World, s: State, t: State, r: RunId, outcome: Outcome, ref: Option<string>, o1: Write, o2: Write)
    requires r in s.runs
  {
    if !Current(s, r) then t == s.(runs := s.runs[r := Gone])
    else
      var x := s.rows[r.0];
      match outcome
      case ChunkFailure(m) =>
        && Lands(w, s, t, r.0, x.(phase := Failed, error := m, submission := NoSubmission, submittingChunk := "", prompt := ""),
                 Doubted(x, m).(submission := Unknown), o1, LostBeforeRename)
        && t.runs == s.runs[r := Gone] && t.past == s.past
      case OtherError(m) =>
        && Lands(w, s, t, r.0, Doubted(x, m).(submission := Unknown), Doubted(x, m), o1, LostBeforeRename)
        && t.runs == s.runs[r := Gone] && t.past == s.past
      case Succeeded(p, record) =>
        if r.0 in s.bare then t == s.(stuck := true) else CommitRow(w, s, t, r, OneOn(x, p, record), ref, o1, o2)
  }

  ghost predicate CommitRow(w: World, s: State, t: State, r: RunId, a: Execution, ref: Option<string>, o1: Write, o2: Write)
    requires r in s.runs && r.0 in s.rows
  {
    var x := s.rows[r.0];
    if x.requested == YieldRequest || x.requested == CheckpointRequest then
      && t.runs == s.runs[r := Gone]
      && (if ref.None? then t.rows == s.rows[r.0 := Doubted(x, RefUnavailable)] && t.past == s.past
          else Lands(w, s, t, r.0, AtRest(a, ref.value), Doubted(x, CommitLost), o1, o2)
               && t.past == s.past.(refs := s.past.refs[ref.value := r.0]))
    else
      var ok := o1 == Durable && Fits(w, s.rows[r.0 := a]);
      && Lands(w, s, t, r.0, a, Doubted(x, CommitLost), o1, o2) && t.runs == s.runs[r := if ok then Top else Gone] && t.past == s.past
  }

  lemma CommitLands(w: World, s: State, r: RunId, a: Execution, ref: Option<string>, o1: Write, o2: Write)
    requires r in s.runs && r.0 in s.rows && a.requested == s.rows[r.0].requested
    ensures CommitRow(w, s, CommitStep(w, s, r, a, ref, o1, o2), r, a, ref, o1, o2)
  {
    hide TryTwice, StoreAnyway, Fits, Lands, AtBoundary, AtRest;
    var x := s.rows[r.0];
    TwiceLands(w, s, r, a, Doubtful(x, CommitLost), Top, Gone, o1, o2);
    StoreLands(w, s, r, Doubtful(x, RefUnavailable), Gone, o1);
    if ref.Some? && (x.requested == YieldRequest || x.requested == CheckpointRequest) { RestLands(w, s, r, a, ref.value, o1, o2); }
  }

  lemma RestLands(w: World, s: State, r: RunId, a: Execution, ref: string, o1: Write, o2: Write)
    requires r in s.runs && r.0 in s.rows && (a.requested == YieldRequest || a.requested == CheckpointRequest)
    ensures var past := s.past.(refs := s.past.refs[ref := r.0]); var f := Doubtful(s.rows[r.0], CommitLost);
            var t := TryTwice(w, s.(past := past), r, AtBoundary(a, ref), f, Gone, Gone, o1, o2).1;
            Lands(w, s, t, r.0, AtRest(a, ref), f, o1, o2) && t.runs == s.runs[r := Gone] && t.past == past
  {
    hide TryTwice, Fits, Lands;
    var s1, b, f := s.(past := s.past.(refs := s.past.refs[ref := r.0])), AtBoundary(a, ref), Doubtful(s.rows[r.0], CommitLost);
    assert b == AtRest(a, ref);
    TwiceLands(w, s1, r, b, f, Gone, Gone, o1, o2);
    LandsFrom(w, s, s1, TryTwice(w, s1, r, b, f, Gone, Gone, o1, o2).1, r.0, b, f, o1, o2);
  }

  lemma ResultLands(w: World, s: State, r: RunId, outcome: Outcome, ref: Option<string>, o1: Write, o2: Write)
    requires r in s.runs
    ensures ResultRow(w, s, ResultStep(w, s, r, outcome, ref, o1, o2), r, outcome, ref, o1, o2)
  {
    hide TryOnce, CommitStep, CommitRow, Lands, Fits;
    if Current(s, r) {
      var x := s.rows[r.0];
      match outcome
      case ChunkFailure(m) => OnceLands(w, s, r, WithFailure(x, m), Doubtful(x, m).(submission := Unknown), Gone, o1);
      case OtherError(m) => OnceLands(w, s, r, Doubtful(x, m).(submission := Unknown), Doubtful(x, m), Gone, o1);
      case Succeeded(p, record) => CommitLands(w, s, r, Advanced(x, p, record), ref, o1, o2);
    }
  }
}
