/** The harness server as the program holds it. Each method is one critical section: it changes a row field by field,
    persists, and when the write fails puts back the copy it took, or marks the row, in place. It is proved equal to
    the step the theorems are about, and states what its caller may rely on. */
module HarnessServer {
  import opened HarnessModel
  import opened HarnessLoader
  import opened HarnessContracts

  function CountOf(active: map<string, int>, id: string): int {
    if id in active then active[id] else 0
  }

  ghost function RunsOf(runs: map<RunId, Pc>, id: string): set<RunId> {
    set r | r in runs && r.0 == id
  }

  /** The per-execution counters count the live goroutines. */
  ghost predicate Counted(active: map<string, int>, runs: map<RunId, Pc>) {
    forall id :: CountOf(active, id) == |RunsOf(runs, id)|
  }

  /** Rows sit under their own id, and no goroutine is ahead of the epoch of its row. */
  ghost predicate Sane(rows: Rows, runs: map<RunId, Pc>) {
    && (forall id :: id in rows ==> rows[id].id == id)
    && (forall r :: r in runs ==> r.0 in rows && r.1 <= rows[r.0].epoch)
  }

  lemma MovedRun(active: map<string, int>, runs: map<RunId, Pc>, r: RunId, pc: Pc)
    requires Counted(active, runs) && r in runs
    ensures Counted(active, runs[r := pc])
  {
    forall id ensures RunsOf(runs[r := pc], id) == RunsOf(runs, id) {}
  }

  lemma RunsAdded(runs: map<RunId, Pc>, r: RunId, pc: Pc, id: string)
    requires r !in runs
    ensures |RunsOf(runs[r := pc], id)| == |RunsOf(runs, id)| + (if id == r.0 then 1 else 0)
  {
    assert RunsOf(runs[r := pc], id) == if id == r.0 then RunsOf(runs, id) + {r} else RunsOf(runs, id);
  }

  lemma LaunchedRun(active: map<string, int>, runs: map<RunId, Pc>, r: RunId, pc: Pc)
    requires Counted(active, runs) && r !in runs
    ensures Counted(active[r.0 := CountOf(active, r.0) + 1], runs[r := pc])
  {
    hide RunsOf;
    var more := active[r.0 := CountOf(active, r.0) + 1];
    forall id ensures CountOf(more, id) == |RunsOf(runs[r := pc], id)| {
      RunsAdded(runs, r, pc, id);
    }
  }

  lemma RunsRemoved(runs: map<RunId, Pc>, r: RunId, id: string)
    requires r in runs
    ensures |RunsOf(map q | q in runs && q != r :: runs[q], id)| == |RunsOf(runs, id)| - (if id == r.0 then 1 else 0)
  {
    var rest := map q | q in runs && q != r :: runs[q];
    assert RunsOf(rest, id) == if id == r.0 then RunsOf(runs, id) - {r} else RunsOf(runs, id);
  }

  lemma EndedRun(active: map<string, int>, runs: map<RunId, Pc>, r: RunId)
    requires Counted(active, runs) && r in runs
    ensures Counted(active[r.0 := CountOf(active, r.0) - 1], map q | q in runs && q != r :: runs[q])
  {
    hide RunsOf;
    var fewer, rest := active[r.0 := CountOf(active, r.0) - 1], map q | q in runs && q != r :: runs[q];
    forall id ensures CountOf(fewer, id) == |RunsOf(rest, id)| {
      RunsRemoved(runs, r, id);
    }
  }

  lemma NoneCounted(active: map<string, int>, runs: map<RunId, Pc>, id: string)
    requires Counted(active, runs)
    ensures CountOf(active, id) == 0 <==> forall r :: r in runs ==> r.0 != id
  {
    assert CountOf(active, id) == |RunsOf(runs, id)|;
    if exists r :: r in runs && r.0 == id {
      var r :| r in runs && r.0 == id;
      assert r in RunsOf(runs, id);
    } else {
      assert RunsOf(runs, id) == {};
    }
  }

  lemma SanePut(rows: Rows, runs: map<RunId, Pc>, id: string, y: Execution)
    requires Sane(rows, runs) && id in rows && y.id == rows[id].id && rows[id].epoch <= y.epoch
    ensures Sane(rows[id := y], runs)
  {}

  /** Storing a row and, on a lost write, putting another back from the copy, is the step of the model. */
  lemma CopyIs(w: World, s: State, t: State, id: string, c: Execution, f: Execution, o: Write)
    requires t == s.(rows := t.rows, images := t.images, bare := t.bare)
    requires var (ok, images) := Persist(w, s.images, s.rows[id := c], o);
             && t.images == images
             && t.rows == s.rows[id := if ok then c else f]
             && t.bare == if ok then s.bare else if f.histories == map[] then s.bare + {id} else s.bare - {id}
    ensures TryCopy(w, s, id, c, f, o) == (Persist(w, s.images, s.rows[id := c], o).0, t)
  {
    hide Persist;
  }

  lemma RowIs(w: World, s: State, t: State, id: string, c: Execution, f: Execution, o: Write)
    requires t == s.(rows := t.rows, images := t.images)
    requires var (ok, images) := Persist(w, s.images, s.rows[id := c], o); t.images == images && t.rows == s.rows[id := if ok then c else f]
    ensures TryRow(w, s, id, c, f, o) == (Persist(w, s.images, s.rows[id := c], o).0, t)
  {
    hide Persist;
  }

  lemma TwiceIs(w: World, s: State, r: RunId, c: Execution, f: Execution, good: Pc, bad: Pc, o1: Write, o2: Write)
    ensures var (ok, images) := Persist(w, s.images, s.rows[r.0 := c], o1);
            TryTwice(w, s, r, c, f, good, bad, o1, o2)
            == (ok, if ok then SetRun(s.(rows := s.rows[r.0 := c], images := images), r, good)
                    else SetRun(Flush(w, PutBack(s.(rows := s.rows[r.0 := f], images := images), r.0), o2), r, bad))
  {
    hide Persist, PutBack, Flush, SetRun;
  }

  lemma PutBackIs(s: State, t: State, id: string, f: Execution)
    requires id in s.rows && s.rows[id] == f && t == s.(bare := if f.histories == map[] then s.bare + {id} else s.bare - {id})
    ensures t == PutBack(s, id)
  {}

  lemma SaneAt(rows: Rows, runs: map<RunId, Pc>, id: string)
    requires Sane(rows, runs) && id in rows
    ensures rows[id].id == id && (id, rows[id].epoch + 1) !in runs
  {}

  lemma SaneAdd(rows: Rows, runs: map<RunId, Pc>, x: Execution)
    requires Sane(rows, runs) && x.id !in rows
    ensures Sane(rows[x.id := x], runs) && forall n: nat :: (x.id, n) !in runs
  {}

  /** No process is running. */
  function Down(images: set<Rows>, past: Past): State {
    State(false, false, map[], map[], map[], {}, {}, images, past, {}, false)
  }

  lemma BootsSane(w: World, image: Rows)
    requires Loads(w, image)
    ensures Sane(LoadedRows(w, image), map[]) && Counted(map[], map[])
  {
    hide RowLoads;
    forall id ensures RunsOf(map[], id) == {} {}
  }

  class Server {
    const w: World
    var rows: Rows
    var nilOutputs: set<string>   // rows whose output map is nil
    var keys: map<string, string>
    var active: map<string, int>
    var closed: bool
    ghost var runs: map<RunId, Pc>
    ghost var probes: set<RunId>
    ghost var stops: set<RunId>
    ghost var images: set<Rows>
    ghost var past: Past
    ghost var stuck: bool

    ghost function View(): State
      reads this
    {
      State(true, closed, rows, keys, runs, probes, stops, images, past, nilOutputs, stuck)
    }

    ghost predicate Valid()
      reads this
    {
      Counted(active, runs) && Sane(rows, runs)
    }

    // -------------------------------------------------------------- the journal

    /** The rows as the next process would rewrite them. */
    method RecoveryRows() returns (recovered: Rows)
      ensures recovered == RecoverAll(rows)
    {
      hide Recover;
      recovered := map[];
      var left := rows.Keys;
      while left != {}
        invariant left <= rows.Keys && recovered.Keys == rows.Keys - left
        invariant forall id :: id in recovered ==> recovered[id] == Recover(rows[id])
        decreases left
      {
        var id :| id in left;
        recovered := recovered[id := Recover(rows[id])];
        left := left - {id};
      }
    }

    /** Refuses a file that, now or after restart recovery, would not fit; otherwise attempts the write. */
    method PersistLocked(o: Write) returns (ok: bool)
      modifies this`images
      ensures (ok, images) == Persist(w, old(images), rows, o)
      ensures WriteReply(w, old(images), images, rows, o, ok)
      ensures ok ==> Recorded(View())
    {
      hide RecoverAll;
      var recovered := RecoveryRows();
      if w.size(rows) > w.limit || w.size(recovered) > w.limit { return false; }
      match o
      case Durable => images := {rows}; return true;
      case LostBeforeRename => return false;
      case LostAfterRename => images := images + {rows}; return false;
    }

    /** Put a copied row back. The copy went through JSON, which omits an empty output map and so decodes it as nil. */
    method PutRowBack(id: string, before: Execution)
      modifies this`rows, this`nilOutputs
      ensures rows == old(rows)[id := before]
      ensures nilOutputs == if before.histories == map[] then old(nilOutputs) + {id} else old(nilOutputs) - {id}
    {
      rows := rows[id := before];
      nilOutputs := if before.histories == map[] then nilOutputs + {id} else nilOutputs - {id};
    }

    /** Persist a row already changed to `c`, and put the copy back when the write fails. */
    method PersistOrPutBack(ghost s: State, id: string, before: Execution, ghost c: Execution, o: Write) returns (ok: bool)
      requires View() == s.(rows := s.rows[id := c])
      modifies this`rows, this`nilOutputs, this`images
      ensures (ok, View()) == TryCopy(w, s, id, c, before, o)
      ensures rows == s.rows[id := if ok then c else before]
    {
      hide WriteReply, Persist, TryCopy;
      ok := PersistLocked(o);
      if !ok {
        PutRowBack(id, before);
        assert rows == s.rows[id := before];
      }
      CopyIs(w, s, View(), id, c, before, o);
    }

    method LaunchLocked(id: string, epoch: nat)
      requires Valid() && id in rows && epoch <= rows[id].epoch && (id, epoch) !in runs
      modifies this`active, this`runs
      ensures Valid() && View() == SetRun(old(View()), (id, epoch), Top)
    {
      LaunchedRun(active, runs, (id, epoch), Top);
      active := active[id := CountOf(active, id) + 1];
      runs := runs[(id, epoch) := Top];
    }

    /** Start of a process: load the file it finds and, if recovery changed it, write it back before serving. */
    method Boot(file: File, ghost image: Rows, o: Write) returns (ok: bool)
      requires Lists(file, image)
      modifies this
      ensures var t := RestartStep(w, Down(old(images), old(past)), image, o);
              && ok == t.up && (ok ==> Valid() && View() == t) && (!ok ==> images == t.images)
    {
      hide WriteReply, Loads, LoadedRows, KeysOf, Rewrites, Persist, IngestAll, Lists, Counted, Sane;
      ListedFileIsTheMap(w, file, image);
      var m := Load(w, file);
      if m.Refused? { return false; }
      BootsSane(w, image);
      rows, nilOutputs, keys, active, closed := m.rows, {}, m.keys, map[], false;
      runs, probes, stops, stuck := map[], {}, {}, false;
      if m.recovered {
        ok := PersistLocked(o);
        return;
      }
      return true;
    }

    // -------------------------------------------------------------- requests

    /** `newId` is the random identity drawn for a new execution. */
    method HandleStart(q: StartRequest, newId: string, o: Write) returns (reply: Reply)
      requires Valid() && newId !in rows
      modifies this`rows, this`nilOutputs, this`keys, this`active, this`runs, this`images, this`past
      ensures Valid() && (reply, View()) == StartStep(w, old(View()), q, newId, o)
      ensures StartReply(w, old(View()), View(), q, newId, o, reply)
    {
      assert forall id :: id in rows ==> rows[id].id == id;
      hide ParseChunks, Counted, Sane, ResumeStep, CreateStep, StartReply;
      StartMeans(w, View(), q, newId, o);
      var parsed := ParsePayload(w, q.payload);
      if !q.versionOk || q.workloadId == "" || q.key == "" || parsed.None? { return BadRequest; }
      if closed { return Unavailable; }
      if q.key in keys {
        if keys[q.key] !in rows { return Conflict; }
        var x := rows[keys[q.key]];
        if !SameWork(w, q, parsed.value, x) || (q.ref != "" && q.ref != x.ref) { return Conflict; }
        if !Resumable(x.phase) { return Reply.Ok; }
        if q.ref == "" { return Conflict; }
        reply := Resume(keys[q.key], o);
      } else {
        if q.ref != "" { return Conflict; }
        reply := Create(NewExecution(w, q, parsed.value, newId), o);
      }
    }

    method Resume(id: string, o: Write) returns (reply: Reply)
      requires Valid() && id in rows
      modifies this`rows, this`nilOutputs, this`active, this`runs, this`images, this`past
      ensures Valid() && (reply, View()) == ResumeStep(w, old(View()), old(rows[id]), o)
    {
      SaneAt(rows, runs, id);
      hide TryCopy, Counted, Sane, SetRun;
      var before := rows[id];
      var ok := ReopenRow(id, o);
      if !ok { return Internal; }
      LaunchLocked(id, rows[id].epoch);
      past := past.(resumed := past.resumed + [before.ref]);
      return Reply.Ok;
    }

    /** Make the row running under a new epoch, its reference used up. */
    method ReopenRow(id: string, o: Write) returns (ok: bool)
      requires Valid() && id in rows
      modifies this`rows, this`nilOutputs, this`images
      ensures Valid() && (ok, View()) == TryCopy(w, old(View()), id, Resumed(old(rows[id])), old(rows[id]), o)
      ensures id in rows && (ok ==> rows[id].epoch == old(rows[id]).epoch + 1)
    {
      hide TryCopy, Counted, Sane;
      ghost var s := View();
      var before := rows[id];
      rows := rows[id := rows[id].(phase := Running, requested := NoRequest, error := NoNote)];
      rows := rows[id := rows[id].(submission := NoSubmission, submittingChunk := "")];
      rows := rows[id := rows[id].(ref := "", refChunk := 0, refEpoch := 0)];
      rows := rows[id := rows[id].(epoch := rows[id].epoch + 1)];
      assert rows == s.rows[id := Resumed(before)];
      SanePut(s.rows, runs, id, Resumed(before));
      SanePut(s.rows, runs, id, before);
      ok := PersistOrPutBack(s, id, before, Resumed(before), o);
    }

    method Create(x: Execution, o: Write) returns (reply: Reply)
      requires Valid() && x.id !in rows && x.key !in keys && x.epoch == 1
      modifies this`rows, this`keys, this`active, this`runs, this`images
      ensures Valid() && (reply, View()) == CreateStep(w, old(View()), x, o)
    {
      hide WriteReply, Persist, Counted, Sane;
      SaneAdd(rows, runs, x);
      rows := rows[x.id := x];
      keys := keys[x.key := x.id];
      var ok := PersistLocked(o);
      if !ok {
        rows := rows - {x.id};
        keys := keys - {x.key};
        assert rows == old(rows) && keys == old(keys);
        return Internal;
      }
      LaunchLocked(x.id, 1);
      return Accept;
    }

    /** Yield and checkpoint: the boundary is only requested here; the run loop stops at it. */
    method HandleBoundary(id: string, want: Request, o: Write) returns (reply: Reply)
      requires Valid()
      modifies this`rows, this`nilOutputs, this`images
      ensures Valid() && (reply, View()) == BoundaryStep(w, old(View()), id, want, o)
      ensures BoundaryReply(w, old(View()), View(), id, want, o, reply)
    {
      hide TryCopy, Counted, Sane, BoundaryReply;
      BoundaryMeans(w, View(), id, want, o);
      if id !in rows { return NotFound; }
      if (want == YieldRequest && rows[id].phase == Yielded) || (want == CheckpointRequest && rows[id].phase == Checkpointed) { return Reply.Ok; }
      if rows[id].phase != Running { return Conflict; }
      ghost var s := View();
      var before := rows[id];
      rows := rows[id := rows[id].(requested := want)];
      SanePut(s.rows, runs, id, before.(requested := want));
      SanePut(s.rows, runs, id, before);
      var ok := PersistOrPutBack(s, id, before, before.(requested := want), o);
      return if ok then Accept else Internal;
    }

    /** First half of a cancellation; `Accept` means the handler goes on to probe or stop Comfy. */
    method HandleCancel(id: string, o: Write) returns (reply: Reply)
      requires Valid()
      modifies this`rows, this`nilOutputs, this`images, this`probes, this`stops
      ensures Valid() && (reply, View()) == CancelStep(w, old(View()), id, o)
      ensures CancelReply(w, old(View()), View(), id, o, reply)
    {
      hide TryRow, TryCopy, Counted, Sane, UnprovenStep, CancelReply;
      CancelMeans(w, View(), id, o);
      if id !in rows { return NotFound; }
      if rows[id].phase in {Cancelled, Completed, Failed, Yielded, Checkpointed} { return Reply.Ok; }
      if rows[id].submission == NoSubmission && rows[id].prompt == "" {
        reply := CancelNow(id, o);
        return;
      }
      if rows[id].submission == Submitting || rows[id].submission == Unknown || rows[id].prompt == "" {
        NoneCounted(active, runs, id);
        if CountOf(active, id) != 0 {
          reply := MarkUnproven(id, o);
          return;
        }
        probes := probes + {(id, rows[id].epoch)};
        return Accept;
      }
      var epoch := rows[id].epoch + 1;
      var ok := BeginStop(id, o);
      if !ok { return Internal; }
      stops := stops + {(id, epoch)};
      return Accept;
    }

    /** Record the intent to stop the prompt, under a new epoch. */
    method BeginStop(id: string, o: Write) returns (ok: bool)
      requires Valid() && id in rows
      modifies this`rows, this`nilOutputs, this`images
      ensures var x := old(rows[id]);
              Valid() && (ok, View()) == TryCopy(w, old(View()), id, x.(phase := Cancelling, requested := CancelRequest, epoch := x.epoch + 1), x, o)
    {
      hide TryCopy, Counted, Sane;
      ghost var s := View();
      var before := rows[id];
      rows := rows[id := rows[id].(phase := Cancelling, requested := CancelRequest)];
      rows := rows[id := rows[id].(epoch := rows[id].epoch + 1)];
      ghost var c := before.(phase := Cancelling, requested := CancelRequest, epoch := before.epoch + 1);
      assert rows == s.rows[id := c];
      SanePut(s.rows, runs, id, c);
      SanePut(s.rows, runs, id, before);
      ok := PersistOrPutBack(s, id, before, c, o);
    }

    /** No submission to wait for: cancelled at once, or uncertain if that cannot be written. */
    method CancelNow(id: string, o: Write) returns (reply: Reply)
      requires Valid() && id in rows
      modifies this`rows, this`images
      ensures var c := old(rows[id]).(phase := Cancelled, requested := NoRequest, error := NoNote, epoch := old(rows[id]).epoch + 1);
              var (ok, t) := TryRow(w, old(View()), id, c, Doubtful(c, CancelLost), o);
              Valid() && reply == (if ok then Reply.Ok else Internal) && View() == t
    {
      hide WriteReply, Persist, Counted, Sane, TryRow;
      ghost var s := View();
      rows := rows[id := rows[id].(phase := Cancelled, requested := NoRequest, error := NoNote)];
      rows := rows[id := rows[id].(epoch := rows[id].epoch + 1)];
      ghost var c := rows[id];
      assert rows == s.rows[id := c];
      SanePut(s.rows, runs, id, c);
      SanePut(s.rows, runs, id, Doubtful(c, CancelLost));
      var ok := PersistLocked(o);
      if !ok {
        rows := rows[id := rows[id].(phase := Uncertain, error := CancelLost)];
        assert rows == s.rows[id := Doubtful(c, CancelLost)];
      }
      RowIs(w, s, View(), id, c, Doubtful(c, CancelLost), o);
      return if ok then Reply.Ok else Internal;
    }

    method MarkUnproven(id: string, o: Write) returns (reply: Reply)
      requires Valid() && id in rows
      modifies this`rows, this`images
      ensures Valid() && (reply, View()) == UnprovenStep(w, old(View()), id, o)
      ensures UnprovenReply(w, old(View()), View(), id, o, reply)
    {
      hide WriteReply, Persist, Counted, Sane, UnprovenReply, TryRow;
      ghost var s := View();
      UnprovenMeans(w, s, id, o);
      rows := rows[id := rows[id].(phase := Uncertain, error := IdentityUnknown)];
      rows := rows[id := rows[id].(epoch := rows[id].epoch + 1)];
      ghost var c := rows[id];
      assert rows == s.rows[id := c];
      SanePut(s.rows, runs, id, c);
      SanePut(s.rows, runs, id, Doubtful(c, CancelLost));
      var ok := PersistLocked(o);
      if !ok {
        rows := rows[id := rows[id].(phase := Uncertain, error := CancelLost)];
        assert rows == s.rows[id := Doubtful(c, CancelLost)];
      }
      RowIs(w, s, View(), id, c, Doubtful(c, CancelLost), o);
      return if ok then Conflict else Internal;
    }

    /** Second half of a cancellation that asked whether Comfy is idle; `epoch` was captured in the first. */
    method FinishProbe(id: string, epoch: nat, idle: bool, o: Write) returns (reply: Reply)
      requires Valid()
      modifies this`rows, this`nilOutputs, this`images
      ensures Valid() && (reply, View()) == ProbedStep(w, old(View()), id, epoch, idle, o)
      ensures ProbeReply(w, old(View()), View(), id, epoch, idle, o, reply)
    {
      hide TryCopy, Counted, Sane, UnprovenStep, ProbeReply;
      ProbeMeans(w, View(), id, epoch, idle, o);
      if id !in rows { return NotFound; }
      NoneCounted(active, runs, id);
      if idle && rows[id].epoch == epoch && CountOf(active, id) == 0 && rows[id].phase != Cancelled && rows[id].phase != Completed && rows[id].phase != Failed {
        var ok := CancelProven(id, o);
        return if ok then Reply.Ok else Internal;
      }
      reply := MarkUnproven(id, o);
    }

    /** Comfy is idle and no goroutine is live: whatever was submitted has ended. */
    method CancelProven(id: string, o: Write) returns (ok: bool)
      requires Valid() && id in rows
      modifies this`rows, this`nilOutputs, this`images
      ensures var x := old(rows[id]);
              var c := x.(phase := Cancelled, requested := NoRequest, error := NoNote, submission := NoSubmission,
                          submittingChunk := "", prompt := "", epoch := x.epoch + 1);
              Valid() && (ok, View()) == TryCopy(w, old(View()), id, c, x, o)
    {
      hide TryCopy, Counted, Sane;
      ghost var s := View();
      var before := rows[id];
      rows := rows[id := rows[id].(phase := Cancelled, requested := NoRequest, error := NoNote)];
      rows := rows[id := rows[id].(submission := NoSubmission, submittingChunk := "", prompt := "")];
      rows := rows[id := rows[id].(epoch := rows[id].epoch + 1)];
      ghost var c := rows[id];
      assert rows == s.rows[id := c];
      SanePut(s.rows, runs, id, c);
      SanePut(s.rows, runs, id, before);
      ok := PersistOrPutBack(s, id, before, c, o);
    }

    /** Second half of a cancellation that stopped the prompt; `epoch` was installed in the first. */
    method FinishStop(id: string, epoch: nat, failure: Option<Note>, o: Write) returns (reply: Reply)
      requires Valid()
      modifies this`rows, this`nilOutputs, this`images
      ensures Valid() && (reply, View()) == StoppedStep(w, old(View()), id, epoch, failure, o)
      ensures StopReply(w, old(View()), View(), id, epoch, failure, o, reply)
    {
      hide WriteReply, TryCopy, Persist, Counted, Sane, StopReply;
      StopMeans(w, View(), id, epoch, failure, o);
      if id !in rows || rows[id].epoch != epoch || rows[id].phase != Cancelling { return Conflict; }
      ghost var s := View();
      if failure.Some? {
        rows := rows[id := rows[id].(phase := Uncertain, error := failure.value)];
        SanePut(s.rows, runs, id, rows[id]);
        var _ := PersistLocked(o);
        return Conflict;
      }
      var before := rows[id];
      rows := rows[id := rows[id].(phase := Cancelled, requested := NoRequest)];
      rows := rows[id := rows[id].(prompt := "", submission := NoSubmission, submittingChunk := "", error := NoNote)];
      ghost var c := rows[id];
      assert rows == s.rows[id := c];
      SanePut(s.rows, runs, id, c);
      SanePut(s.rows, runs, id, before);
      var ok := PersistOrPutBack(s, id, before, c, o);
      return if ok then Reply.Ok else Internal;
    }

    // -------------------------------------------------------------- the run goroutine

    method MoveTo(r: RunId, pc: Pc)
      requires Valid() && r in runs
      modifies this`runs
      ensures Valid() && View() == SetRun(old(View()), r, pc)
    {
      MovedRun(active, runs, r, pc);
      runs := runs[r := pc];
    }

    /** Write the current rows and ignore the outcome. */
    method WriteAgain(o: Write)
      modifies this`images
      ensures View() == Flush(w, old(View()), o)
    {
      hide WriteReply, Persist;
      var _ := PersistLocked(o);
    }

    /** Put the copy back, mark it uncertain with a note, and write that without looking at the outcome. */
    method GiveUp(r: RunId, before: Execution, note: Note, o: Write)
      requires Valid() && r in runs && r.0 in rows && before.id == rows[r.0].id && rows[r.0].epoch == before.epoch
      modifies this`rows, this`nilOutputs, this`images, this`runs
      ensures Valid()
      ensures View() == SetRun(Flush(w, PutBack(old(View()).(rows := old(rows)[r.0 := Doubtful(before, note)]), r.0), o), r, Gone)
    {
      hide Counted, Sane, Persist, SetRun;
      SanePut(rows, runs, r.0, Doubtful(before, note));
      PutRowBack(r.0, before);
      rows := rows[r.0 := rows[r.0].(phase := Uncertain, error := note)];
      assert rows == old(rows)[r.0 := Doubtful(before, note)];
      WriteAgain(o);
      MoveTo(r, Gone);
    }

    /** Persist a row already changed to `c`; when that fails, give up. */
    method PersistOrGiveUp(ghost s: State, r: RunId, before: Execution, ghost c: Execution, note: Note, good: Pc, o1: Write, o2: Write)
      returns (ok: bool)
      requires Valid() && r in runs && r.0 in s.rows && before.id == c.id && before.epoch == c.epoch
      requires View() == s.(rows := s.rows[r.0 := c])
      modifies this`rows, this`nilOutputs, this`images, this`runs
      ensures Valid() && (ok, View()) == TryTwice(w, s, r, c, Doubtful(before, note), good, Gone, o1, o2)
    {
      hide WriteReply, Counted, Sane, Persist, SetRun, Flush, TryTwice, PutBack, Doubtful;
      TwiceIs(w, s, r, c, Doubtful(before, note), good, Gone, o1, o2);
      ok := PersistLocked(o1);
      if ok {
        MoveTo(r, good);
      } else {
        assert rows[r.0 := Doubtful(before, note)] == s.rows[r.0 := Doubtful(before, note)];
        GiveUp(r, before, note, o2);
      }
    }

    /** Head of the run loop. The request of the next chunk may be sent only after this moves the goroutine to `Submit`. */
    method RunTop(r: RunId, o1: Write, o2: Write)
      requires Valid() && r in runs
      modifies this`rows, this`nilOutputs, this`images, this`runs, this`past
      ensures Valid() && View() == TopStep(w, old(View()), r, o1, o2)
      ensures TopReply(old(View()), View(), r) && TopRow(w, old(View()), View(), r, o1, o2)
    {
      hide TryTwice, StoreAnyway, Counted, Sane, TopReply, TopRow;
      ghost var s := View();
      TopMeans(w, s, r, o1, o2);
      TopLands(w, s, r, o1, o2);
      if r.0 !in rows || rows[r.0].phase != Running || rows[r.0].epoch != r.1 {
        MoveTo(r, Gone);
        return;
      }
      var id := r.0;
      if rows[id].next >= |rows[id].chunks| {
        var before := rows[id];
        rows := rows[id := rows[id].(phase := Completed)];
        SanePut(s.rows, runs, id, rows[id]);
        var _ := PersistOrGiveUp(s, r, before, before.(phase := Completed), CompletionLost, Gone, o1, o2);
        return;
      }
      if rows[id].next < 0 || rows[id].submission != NoSubmission || rows[id].prompt != "" {
        rows := rows[id := rows[id].(phase := Uncertain, error := CustodyUnresolved)];
        StoreHere(s, r, Gone, o1);
        return;
      }
      var current := rows[id].chunks[rows[id].next];
      var before := rows[id];
      rows := rows[id := rows[id].(submittingChunk := current.id, submission := Submitting)];
      SanePut(s.rows, runs, id, rows[id]);
      var ok := PersistOrGiveUp(s, r, before, WithIntent(before), IntentLost, Submit(before.next), o1, o2);
      if ok { past := past.(claimed := past.claimed + {Claim(id, before.key, before.next)}); }
    }

    /** Write the row as it stands without looking at the outcome, and move the goroutine on. */
    method StoreHere(ghost s: State, r: RunId, pc: Pc, o: Write)
      requires r in runs && r.0 in s.rows && r.0 in rows && Counted(active, runs) && Sane(s.rows, runs)
      requires rows[r.0].id == s.rows[r.0].id && s.rows[r.0].epoch <= rows[r.0].epoch
      requires View() == s.(rows := s.rows[r.0 := rows[r.0]])
      modifies this`images, this`runs
      ensures Valid() && View() == StoreAnyway(w, s, r, rows[r.0], pc, o)
    {
      hide Counted, Sane, Flush;
      SanePut(s.rows, runs, r.0, rows[r.0]);
      WriteAgain(o);
      MoveTo(r, pc);
    }

    /** No usable reply to the request of `chunk`. */
    method MarkSubmissionUnknown(r: RunId, chunk: nat, cause: Note, o: Write)
      requires Valid() && r in runs
      modifies this`rows, this`nilOutputs, this`images, this`runs
      ensures Valid() && View() == AmbiguousStep(w, old(View()), r, chunk, cause, o)
      ensures AmbiguousReply(old(View()), View(), r, cause) && AmbiguousRow(w, old(View()), View(), r, chunk, cause, o)
    {
      hide TryCopy, Counted, Sane, AmbiguousReply, AmbiguousRow;
      AmbiguousMeans(w, View(), r, chunk, cause, o);
      AmbiguousLands(w, View(), r, chunk, cause, o);
      if r.0 in rows && rows[r.0].epoch == r.1 && rows[r.0].submission == Submitting {
        ghost var s := View();
        var before := rows[r.0];
        rows := rows[r.0 := rows[r.0].(phase := Uncertain, submission := Unknown, error := cause)];
        PersistOrDoubt(s, r, before, rows[r.0], before.submission, cause, o);
      }
      MoveTo(r, Result(chunk, OtherError(cause)));
    }

    /** Persist a row already changed to `c`; when that fails, put the copy back and mark it uncertain. */
    method PersistOrDoubt(ghost s: State, r: RunId, before: Execution, ghost c: Execution, submission: Submission, note: Note, o: Write)
      requires r in runs && Counted(active, runs) && Sane(s.rows, runs) && r.0 in s.rows && before == s.rows[r.0]
      requires c.id == before.id && before.epoch <= c.epoch
      requires View() == s.(rows := s.rows[r.0 := c])
      modifies this`rows, this`nilOutputs, this`images
      ensures Valid() && View() == TryCopy(w, s, r.0, c, Doubtful(before, note).(submission := submission), o).1
    {
      hide WriteReply, Counted, Sane, Persist, TryCopy;
      ghost var f := Doubtful(before, note).(submission := submission);
      SanePut(s.rows, runs, r.0, c);
      SanePut(s.rows, runs, r.0, f);
      var ok := PersistLocked(o);
      if !ok {
        PutRowBack(r.0, before);
        rows := rows[r.0 := rows[r.0].(phase := Uncertain, submission := submission)];
        rows := rows[r.0 := rows[r.0].(error := note)];
        assert rows == s.rows[r.0 := f];
      }
      CopyIs(w, s, View(), r.0, c, f, o);
    }

    /** Comfy answered the request of `chunk` with prompt id `p`. */
    method RecordAcceptance(r: RunId, chunk: nat, p: string, o1: Write, o2: Write)
      requires Valid() && r in runs && r.0 in rows && chunk < |rows[r.0].chunks|
      modifies this`rows, this`nilOutputs, this`images, this`runs, this`past
      ensures Valid() && View() == AcceptedStep(w, old(View()), r, chunk, p, o1, o2)
      ensures AcceptedReply(old(View()), View(), r, chunk, p) && AcceptedRow(w, old(View()), View(), r, chunk, p, o1, o2)
    {
      hide TryTwice, StoreAnyway, Counted, Sane, AcceptedReply, AcceptedRow;
      AcceptedMeans(w, View(), r, chunk, p, o1, o2);
      AcceptedLands(w, View(), r, chunk, p, o1, o2);
      var id := r.0;
      var here := rows[id].chunks[chunk].id;
      past := past.(origin := past.origin[p := Claim(id, rows[id].key, chunk)]);
      ghost var s := View();
      assert s == Learned(old(View()), r, chunk, p);
      if rows[id].epoch == r.1 && rows[id].submission == Submitting && rows[id].submittingChunk == here {
        AcceptInTime(r, chunk, p, o1, o2);
      } else if rows[id].submittingChunk == here && rows[id].prompt == "" {
        rows := rows[id := rows[id].(prompt := p, submission := Unknown)];
        rows := rows[id := rows[id].(error := LateAnswer)];
        assert rows == s.rows[id := rows[id]];
        StoreHere(s, r, Result(chunk, OtherError(Fenced)), o1);
      } else {
        MoveTo(r, Result(chunk, OtherError(Fenced)));
      }
    }

    method AcceptInTime(r: RunId, chunk: nat, p: string, o1: Write, o2: Write)
      requires Valid() && r in runs && r.0 in rows
      modifies this`rows, this`nilOutputs, this`images, this`runs
      ensures var x := old(rows[r.0]);
              Valid() && View() == TryTwice(w, old(View()), r, x.(prompt := p, submission := Accepted), Doubtful(x, IdentityLost).(prompt := p, submission := Unknown),
                                            Poll(chunk, p), Result(chunk, OtherError(IdentityLost)), o1, o2).1
    {
      hide WriteReply, Counted, Sane, Persist, SetRun, Flush, TryTwice, PutBack;
      ghost var s := View();
      var before := rows[r.0];
      TwiceIs(w, s, r, before.(prompt := p, submission := Accepted), Doubtful(before, IdentityLost).(prompt := p, submission := Unknown),
              Poll(chunk, p), Result(chunk, OtherError(IdentityLost)), o1, o2);
      rows := rows[r.0 := rows[r.0].(prompt := p, submission := Accepted)];
      SanePut(s.rows, runs, r.0, rows[r.0]);
      var ok := PersistLocked(o1);
      if ok {
        MoveTo(r, Poll(chunk, p));
      } else {
        PutRowBack(r.0, before);
        rows := rows[r.0 := rows[r.0].(prompt := p, submission := Unknown, phase := Uncertain, error := IdentityLost)];
        ghost var f := Doubtful(before, IdentityLost).(prompt := p, submission := Unknown);
        assert rows == s.rows[r.0 := f];
        SanePut(s.rows, runs, r.0, f);
        PutBackIs(s.(rows := s.rows[r.0 := f], images := images), View(), r.0, f);
        WriteAgain(o2);
        MoveTo(r, Result(chunk, OtherError(IdentityLost)));
      }
    }

    /** Bottom half of the run loop; `ref` is a fresh checkpoint reference, if one could be made. */
    method RunResult(r: RunId, outcome: Outcome, ref: Option<string>, o1: Write, o2: Write)
      requires Valid() && r in runs && !stuck
      modifies this`rows, this`nilOutputs, this`images, this`runs, this`past, this`stuck
      ensures Valid() && View() == ResultStep(w, old(View()), r, outcome, ref, o1, o2)
      ensures ResultReply(old(View()), View(), r, outcome) && ResultRow(w, old(View()), View(), r, outcome, ref, o1, o2)
    {
      assert r.0 in rows;
      hide TryOnce, CommitStep, Counted, Sane, ResultReply, ResultRow;
      ResultMeans(w, View(), r, outcome, ref, o1, o2);
      ResultLands(w, View(), r, outcome, ref, o1, o2);
      if rows[r.0].epoch != r.1 || rows[r.0].phase != Running {
        MoveTo(r, Gone);
        return;
      }
      match outcome
      case ChunkFailure(m) => FailChunk(r, m, o1);
      case OtherError(m) => DoubtChunk(r, m, o1);
      case Succeeded(p, record) => CommitChunk(r, p, record, ref, o1, o2);
    }

    /** Comfy itself reported that the chunk failed, or refused it. */
    method FailChunk(r: RunId, m: Note, o: Write)
      requires Valid() && r in runs && r.0 in rows
      modifies this`rows, this`nilOutputs, this`images, this`runs
      ensures var x := old(rows[r.0]); Valid() && View() == TryOnce(w, old(View()), r, WithFailure(x, m), Doubtful(x, m).(submission := Unknown), Gone, o)
    {
      hide TryCopy, Counted, Sane;
      ghost var s := View();
      var before := rows[r.0];
      rows := rows[r.0 := rows[r.0].(phase := Failed, error := m)];
      rows := rows[r.0 := rows[r.0].(submission := NoSubmission, submittingChunk := "", prompt := "")];
      assert rows == s.rows[r.0 := WithFailure(before, m)];
      PersistOrDoubt(s, r, before, WithFailure(before, m), Unknown, m, o);
      MoveTo(r, Gone);
    }

    /** The chunk call returned any other error. */
    method DoubtChunk(r: RunId, m: Note, o: Write)
      requires Valid() && r in runs && r.0 in rows
      modifies this`rows, this`nilOutputs, this`images, this`runs
      ensures var x := old(rows[r.0]); Valid() && View() == TryOnce(w, old(View()), r, Doubtful(x, m).(submission := Unknown), Doubtful(x, m), Gone, o)
    {
      hide TryCopy, Counted, Sane;
      ghost var s := View();
      var before := rows[r.0];
      rows := rows[r.0 := rows[r.0].(phase := Uncertain, submission := Unknown)];
      rows := rows[r.0 := rows[r.0].(error := m)];
      assert rows == s.rows[r.0 := Doubtful(before, m).(submission := Unknown)];
      PersistOrDoubt(s, r, before, Doubtful(before, m).(submission := Unknown), before.submission, m, o);
      MoveTo(r, Gone);
    }

    /** Store the output and advance; a nil output map makes the store panic with the lock held. */
    method CommitChunk(r: RunId, p: string, record: string, ref: Option<string>, o1: Write, o2: Write)
      requires Valid() && r in runs && r.0 in rows
      modifies this`rows, this`nilOutputs, this`images, this`runs, this`past, this`stuck
      ensures Valid()
      ensures View() == if r.0 in old(nilOutputs) then old(View()).(stuck := true)
                        else CommitStep(w, old(View()), r, Advanced(old(rows[r.0]), p, record), ref, o1, o2)
      ensures Current(old(View()), r) && !old(stuck) ==> ResultReply(old(View()), View(), r, Succeeded(p, record))
    {
      hide TryTwice, StoreAnyway, Counted, Sane, ResultReply;
      ghost var s := View();
      if Current(s, r) && !stuck { ResultMeans(w, s, r, Succeeded(p, record), ref, o1, o2); }
      var before := rows[r.0];
      if r.0 in nilOutputs {
        stuck := true;
        return;
      }
      rows := rows[r.0 := rows[r.0].(histories := rows[r.0].histories[p := record])];
      rows := rows[r.0 := rows[r.0].(next := rows[r.0].next + 1)];
      rows := rows[r.0 := rows[r.0].(prompt := "", submittingChunk := "", submission := NoSubmission)];
      ghost var a := Advanced(before, p, record);
      assert rows == s.rows[r.0 := a];
      SanePut(s.rows, runs, r.0, a);
      if rows[r.0].requested == CheckpointRequest || rows[r.0].requested == YieldRequest {
        StopAtBoundary(s, r, before, a, ref, o1, o2);
      } else {
        var _ := PersistOrGiveUp(s, r, before, a, CommitLost, Top, o1, o2);
      }
    }

    /** The boundary asked for is reached: stop under a fresh reference, or give up if there is none. */
    method StopAtBoundary(ghost s: State, r: RunId, before: Execution, ghost a: Execution, ref: Option<string>, o1: Write, o2: Write)
      requires Valid() && r in runs && r.0 in s.rows && before == s.rows[r.0] && a.id == before.id && a.epoch == before.epoch
      requires a.requested == before.requested && (before.requested == CheckpointRequest || before.requested == YieldRequest)
      requires Sane(s.rows, runs) && View() == s.(rows := s.rows[r.0 := a])
      modifies this`rows, this`nilOutputs, this`images, this`runs, this`past
      ensures Valid() && View() == CommitStep(w, s, r, a, ref, o1, o2)
    {
      hide TryTwice, Counted, Sane, Persist;
      if ref.None? {
        GiveUp(r, before, RefUnavailable, o1);
        assert s.rows[r.0 := a][r.0 := Doubtful(before, RefUnavailable)] == s.rows[r.0 := Doubtful(before, RefUnavailable)];
        return;
      }
      past := past.(refs := past.refs[ref.value := r.0]);
      ghost var s1 := s.(past := past);
      rows := rows[r.0 := rows[r.0].(ref := ref.value, refChunk := rows[r.0].next, refEpoch := rows[r.0].epoch)];
      rows := rows[r.0 := rows[r.0].(phase := if rows[r.0].requested == CheckpointRequest then Checkpointed else Yielded)];
      rows := rows[r.0 := rows[r.0].(requested := NoRequest)];
      ghost var b := AtBoundary(a, ref.value);
      assert rows == s.rows[r.0 := b];
      SanePut(s.rows, runs, r.0, b);
      var _ := PersistOrGiveUp(s1, r, before, b, CommitLost, Gone, o1, o2);
    }

    /** The goroutine returned: lower the active count. */
    method Leave(r: RunId)
      requires Valid() && r in runs
      modifies this`active, this`runs
      ensures Valid() && View() == old(View()).(runs := map q | q in old(runs) && q != r :: old(runs)[q])
    {
      EndedRun(active, runs, r);
      active := active[r.0 := CountOf(active, r.0) - 1];
      runs := map q | q in runs && q != r :: runs[q];
    }

    method Close()
      modifies this`closed
      ensures View() == old(View()).(closed := true)
      ensures forall q: StartRequest, newId: string, o: Write :: RefusesStart(w, View(), q, newId, o)
    {
      closed := true;
      forall q: StartRequest, newId: string, o: Write ensures RefusesStart(w, View(), q, newId, o) {
        ClosedRefuses(w, View(), q, newId, o);
      }
    }
  }
}
