/** Shutdown, and the nil output map: what a closed server still does, when an output map is nil, and what follows
    when a goroutine stores into one. */
module HarnessLifecycle {
  import opened HarnessModel
  import opened HarnessContracts
  import opened HarnessInvariant
  import opened HarnessTheorems

  // ---------------------------------------------------------------- shutdown

  /** The process goes on, as closed as it was, with no goroutine, no row and no claim for a row it did not have. */
  ghost predicate Drains(s: State, t: State) {
    && t.up == s.up && t.closed == s.closed && t.runs.Keys <= s.runs.Keys && t.rows.Keys <= s.rows.Keys
    && forall c :: c in t.past.claimed && c !in s.past.claimed ==> c.id in s.rows
  }

  lemma CopyDrains(w: World, s: State, id: string, c: Execution, f: Execution, o: Write)
    requires id in s.rows
    ensures Drains(s, TryRow(w, s, id, c, f, o).1)
    ensures Drains(s, TryCopy(w, s, id, c, f, o).1) && TryCopy(w, s, id, c, f, o).1.runs == s.runs
  {
    hide Persist;
  }

  lemma SetDrains(s: State, t: State, r: RunId, pc: Pc)
    requires r in s.runs && Drains(s, t) && t.runs == s.runs
    ensures Drains(s, SetRun(t, r, pc))
  {}

  lemma OnceDrains(w: World, s: State, r: RunId, c: Execution, f: Execution, pc: Pc, o: Write)
    requires r in s.runs && r.0 in s.rows
    ensures Drains(s, TryOnce(w, s, r, c, f, pc, o))
  {
    hide TryCopy, SetRun, Drains;
    CopyDrains(w, s, r.0, c, f, o);
    SetDrains(s, TryCopy(w, s, r.0, c, f, o).1, r, pc);
  }

  lemma TwiceDrains(w: World, s: State, r: RunId, c: Execution, f: Execution, good: Pc, bad: Pc, o1: Write, o2: Write)
    requires r in s.runs && r.0 in s.rows
    ensures Drains(s, TryTwice(w, s, r, c, f, good, bad, o1, o2).1)
  {
    hide TryCopy, SetRun, Persist;
    CopyDrains(w, s, r.0, c, f, o1);
    var t := TryCopy(w, s, r.0, c, f, o1).1;
    SetDrains(s, t, r, good);
    SetDrains(s, Flush(w, t, o2), r, bad);
  }

  lemma StoreDrains(w: World, s: State, r: RunId, x: Execution, pc: Pc, o: Write)
    requires r in s.runs && r.0 in s.rows
    ensures Drains(s, StoreAnyway(w, s, r, x, pc, o))
  {
    hide SetRun, Persist;
    SetDrains(s, Flush(w, s.(rows := s.rows[r.0 := x]), o), r, pc);
  }

  lemma UnprovenDrains(w: World, s: State, id: string, o: Write)
    requires id in s.rows
    ensures Drains(s, UnprovenStep(w, s, id, o).1)
  {
    hide TryRow, Drains;
    var c := Doubtful(s.rows[id], IdentityUnknown).(epoch := s.rows[id].epoch + 1);
    CopyDrains(w, s, id, c, Doubtful(c, CancelLost), o);
  }

  lemma CancelDrains(w: World, s: State, id: string, o: Write)
    ensures Drains(s, CancelStep(w, s, id, o).1)
  {
    hide TryRow, TryCopy, UnprovenStep, NoLiveRun, Doubtful;
    if id in s.rows {
      var x := s.rows[id];
      UnprovenDrains(w, s, id, o);
      var a := x.(phase := Cancelled, requested := NoRequest, error := NoNote, epoch := x.epoch + 1);
      CopyDrains(w, s, id, a, Doubtful(a, CancelLost), o);
      CopyDrains(w, s, id, x.(phase := Cancelling, requested := CancelRequest, epoch := x.epoch + 1), x, o);
    }
  }

  lemma ProbedDrains(w: World, s: State, id: string, epoch: nat, idle: bool, o: Write)
    ensures Drains(s, ProbedStep(w, s, id, epoch, idle, o).1)
  {
    hide TryCopy, UnprovenStep, NoLiveRun;
    if id in s.rows {
      var x := s.rows[id];
      UnprovenDrains(w, s, id, o);
      CopyDrains(w, s, id, x.(phase := Cancelled, requested := NoRequest, error := NoNote, submission := NoSubmission,
                              submittingChunk := "", prompt := "", epoch := x.epoch + 1), x, o);
    }
  }

  lemma ControlDrains(w: World, s: State, e: Event)
    requires e.Boundary? || e.Cancel? || e.Probed? || e.Stopped? || (s.closed && e.Close?)
    ensures Drains(s, Apply(w, s, e))
  {
    hide CancelStep, ProbedStep, RunApply, StartStep, Persist;
    if e.Cancel? { CancelDrains(w, s, e.id, e.o); }
    if e.Probed? { ProbedDrains(w, s, e.id, e.epoch, e.idle, e.o); }
  }

  lemma TopDrains(w: World, s: State, r: RunId, o1: Write, o2: Write)
    requires r in s.runs
    ensures Drains(s, TopStep(w, s, r, o1, o2))
  {
    hide TryTwice, StoreAnyway, Doubtful;
    SetDrains(s, s, r, Gone);
    if Current(s, r) {
      var x := s.rows[r.0];
      TwiceDrains(w, s, r, x.(phase := Completed), Doubtful(x, CompletionLost), Gone, Gone, o1, o2);
      StoreDrains(w, s, r, Doubtful(x, CustodyUnresolved), Gone, o1);
      if 0 <= x.next < |x.chunks| { TwiceDrains(w, s, r, WithIntent(x), Doubtful(x, IntentLost), Submit(x.next), Gone, o1, o2); }
    }
  }

  lemma LearnedDrains(s: State, t: State, r: RunId, chunk: nat, p: string)
    requires r.0 in s.rows && Drains(Learned(s, r, chunk, p), t)
    ensures Drains(s, t)
  {
  }

  lemma AcceptedDrains(w: World, s: State, r: RunId, chunk: nat, p: string, o1: Write, o2: Write)
    requires r in s.runs
    ensures Drains(s, AcceptedStep(w, s, r, chunk, p, o1, o2))
  {
    if r.0 in s.rows && chunk < |s.rows[r.0].chunks| {
      hide TryTwice, StoreAnyway, Doubtful, SetRun, Drains;
      var x, t := s.rows[r.0], Learned(s, r, chunk, p);
      TwiceDrains(w, t, r, x.(prompt := p, submission := Accepted), Doubtful(x, IdentityLost).(prompt := p, submission := Unknown),
                  Poll(chunk, p), Result(chunk, OtherError(IdentityLost)), o1, o2);
      StoreDrains(w, t, r, x.(prompt := p, submission := Unknown, error := LateAnswer), Result(chunk, OtherError(Fenced)), o1);
      SetDrains(t, t, r, Result(chunk, OtherError(Fenced)));
      LearnedDrains(s, AcceptedStep(w, s, r, chunk, p, o1, o2), r, chunk, p);
    }
  }

  lemma CommitDrains(w: World, s: State, r: RunId, a: Execution, ref: Option<string>, o1: Write, o2: Write)
    requires r in s.runs && r.0 in s.rows
    ensures Drains(s, CommitStep(w, s, r, a, ref, o1, o2))
  {
    hide TryTwice, StoreAnyway, AtBoundary, Doubtful;
    var x := s.rows[r.0];
    TwiceDrains(w, s, r, a, Doubtful(x, CommitLost), Top, Gone, o1, o2);
    StoreDrains(w, s, r, Doubtful(x, RefUnavailable), Gone, o1);
    if ref.Some? {
      var t := s.(past := s.past.(refs := s.past.refs[ref.value := r.0]));
      TwiceDrains(w, t, r, AtBoundary(a, ref.value), Doubtful(x, CommitLost), Gone, Gone, o1, o2);
    }
  }

  lemma ResultDrains(w: World, s: State, r: RunId, outcome: Outcome, ref: Option<string>, o1: Write, o2: Write)
    requires r in s.runs
    ensures Drains(s, ResultStep(w, s, r, outcome, ref, o1, o2))
  {
    hide TryOnce, CommitStep, Doubtful, WithFailure, Advanced;
    SetDrains(s, s, r, Gone);
    if Current(s, r) {
      var x := s.rows[r.0];
      match outcome
      case ChunkFailure(m) => OnceDrains(w, s, r, WithFailure(x, m), Doubtful(x, m).(submission := Unknown), Gone, o1);
      case OtherError(m) => OnceDrains(w, s, r, Doubtful(x, m).(submission := Unknown), Doubtful(x, m), Gone, o1);
      case Succeeded(p, record) => CommitDrains(w, s, r, Advanced(x, p, record), ref, o1, o2);
    }
  }

  lemma AmbiguousDrains(w: World, s: State, r: RunId, chunk: nat, cause: Note, o: Write)
    requires r in s.runs
    ensures Drains(s, AmbiguousStep(w, s, r, chunk, cause, o))
  {
    hide TryOnce, Doubtful, SetRun;
    SetDrains(s, s, r, Result(chunk, OtherError(cause)));
    if r.0 in s.rows {
      var d := Doubtful(s.rows[r.0], cause);
      OnceDrains(w, s, r, d.(submission := Unknown), d, Result(chunk, OtherError(cause)), o);
    }
  }

  lemma RunDrains(w: World, s: State, e: Event)
    ensures Drains(s, RunApply(w, s, e))
  {
    hide TopStep, AmbiguousStep, AcceptedStep, ResultStep;
    if RunEvent(e) && e.r in s.runs {
      var pc := s.runs[e.r];
      if e.RunTop? { TopDrains(w, s, e.r, e.o1, e.o2); }
      else if e.RunAmbiguous? && pc.Await? { AmbiguousDrains(w, s, e.r, pc.chunk, e.cause, e.o); }
      else if e.RunAccepted? && pc.Await? { AcceptedDrains(w, s, e.r, pc.chunk, e.p, e.o1, e.o2); }
      else if e.RunResult? && pc.Result? { ResultDrains(w, s, e.r, pc.outcome, e.ref, e.o1, e.o2); }
    }
  }

  lemma ClosedDrains(w: World, s: State, e: Event)
    requires s.up && s.closed && !e.Crash?
    ensures Drains(s, Apply(w, s, e))
  {
    hide StartStep, RunApply, BoundaryStep, CancelStep, ProbedStep, StoppedStep, RestartStep;
    if e.Start? {
      ClosedRefuses(w, s, e.request, e.newId, e.o);
    } else if e.Boundary? || e.Cancel? || e.Probed? || e.Stopped? || e.Close? {
      ControlDrains(w, s, e);
    } else {
      RunDrains(w, s, e);
    }
  }

  /** Once closed, and until the process ends, every start and every resume is refused without effect, and no
      goroutine is launched. */
  lemma {:induction false} ClosedRefusesStarts(w: World, events: seq<Event>, later: seq<Event>, q: StartRequest, newId: string, o: Write)
    requires CrashFree(later) && Execute(w, events).up && Execute(w, events).closed
    ensures var s, t := Execute(w, events), Execute(w, events + later);
            Drains(s, t) && RefusesStart(w, t, q, newId, o)
    decreases |later|
  {
    hide Execute, Apply, RefusesStart;
    if later == [] {
      assert events + later == events;
    } else {
      var most, e := later[..|later| - 1], later[|later| - 1];
      assert events + later == events + most + [e];
      ClosedRefusesStarts(w, events, most, q, newId, o);
      Stepped(w, events + most, e);
      ClosedDrains(w, Execute(w, events + most), e);
    }
    ClosedRefuses(w, Execute(w, events + later), q, newId, o);
  }

  // ---------------------------------------------------------------- nothing is sent for an execution that does not run

  /** A start makes a goroutine for the execution. */
  ghost predicate Launches(w: World, s: State, e: Event, id: string) {
    e.Start? && exists r :: r in Apply(w, s, e).runs && r !in s.runs && r.0 == id
  }

  predicate AtRestIn(s: State, id: string) {
    s.up && id in s.rows ==> s.rows[id].phase != Running
  }

  lemma DormantStep(w: World, s: State, e: Event, id: string)
    requires Inv(w, s) && AtRestIn(s, id) && !Launches(w, s, e, id)
    ensures AtRestIn(Apply(w, s, e), id) && NoNewClaim(s, Apply(w, s, e), id)
  {
    hide Inv, RunApply, StartStep, RestartStep, BoundaryStep, CancelStep, ProbedStep, StoppedStep, Launches;
    if Possible(w, s, e) {
      if e.Restart? {
        if !s.up { RestartDormant(w, s, e.image, e.o, id); }
      } else if e.Crash? {
      } else if s.up && !(s.stuck && Locks(e)) {
        if e.Start? {
          StartDormant(w, s, e, id);
        } else if e.Boundary? || e.Cancel? || e.Probed? || e.Stopped? {
          ControlDrains(w, s, e);
          if id in s.rows { ControlStaysSettled(w, s, e, id); }
        } else if RunEvent(e) {
          RunDrains(w, s, e);
          if id in s.rows { RunStaysSettled(w, s, e, id); }
        }
      }
    }
  }

  lemma RestartDormant(w: World, s: State, image: Rows, o: Write, id: string)
    requires Inv(w, s) && !s.up && image in s.images
    ensures AtRestIn(RestartStep(w, s, image, o), id) && NoNewClaim(s, RestartStep(w, s, image, o), id)
  {
    hide Good, Loads, LoadedRows, RecoverAll, Persist, Live, PastOk, KeysOf, Rewrites;
    GoodReloads(w, s.past, image);
    assert RecoverAll(image).Keys == image.Keys by { hide *; RecoverKeys(image); }
  }

  lemma StartDormant(w: World, s: State, e: Event, id: string)
    requires Inv(w, s) && s.up && !s.stuck && e.Start? && Possible(w, s, e) && AtRestIn(s, id) && !Launches(w, s, e, id)
    ensures AtRestIn(Apply(w, s, e), id) && NoNewClaim(s, Apply(w, s, e), id)
  {
    hide Inv, StartStep, ParseChunks, RunApply;
    forall i | i in s.rows ensures s.rows[i].id == i { IdOf(w, s, i); }
    StartMeans(w, s, e.request, e.newId, e.o);
    var t := StartStep(w, s, e.request, e.newId, e.o).1;
    assert t == Apply(w, s, e);
    if id in t.rows && t.rows[id].phase == Running { LaunchedThen(w, s, t, e, id); }
    StartClaims(w, s, e.request, e.newId, e.o);
  }

  lemma StartClaims(w: World, s: State, q: StartRequest, newId: string, o: Write)
    ensures StartStep(w, s, q, newId, o).1.past.claimed == s.past.claimed
  {
    hide ParseChunks, Persist, NewExecution, SameWork;
  }

  /** A start sets a row running only with a goroutine that was not there before. */
  lemma LaunchedThen(w: World, s: State, t: State, e: Event, id: string)
    requires Inv(w, s) && s.up && e.Start? && t == Apply(w, s, e) && AtRestIn(s, id) && id in t.rows && t.rows[id].phase == Running
    requires Possible(w, s, e) && StartReply(w, s, t, e.request, e.newId, e.o, StartStep(w, s, e.request, e.newId, e.o).0)
    ensures Launches(w, s, e, id)
  {
    hide Inv, Apply, StartStep, ParseChunks, StartUnwritten, Clashes, Asks;
    var reply := StartStep(w, s, e.request, e.newId, e.o).0;
    forall r | r in s.runs ensures r.0 in s.rows && r.1 <= s.rows[r.0].epoch { RunEpochs(w, s, r); }
    if reply == Accept {
      assert (e.newId, 1) in t.runs && (e.newId, 1) !in s.runs;
    } else if reply == Reply.Ok {
      var i :| HeldUnder(s, e.request.key, i) && Replayed(w, s, t, e.request, i);
      assert (i, s.rows[i].epoch + 1) !in s.runs;
      assert id == i && (id, s.rows[i].epoch + 1) in t.runs;
    }
  }

  lemma RunEpochs(w: World, s: State, r: RunId)
    requires Inv(w, s) && s.up && r in s.runs
    ensures r.0 in s.rows && r.1 <= s.rows[r.0].epoch
  {
    hide Inv, RunOk;
    RunRow(w, s, r);
    RunEpoch(w, s, r);
  }

  /** From the moment an execution does not run, and over everything that follows, crashes and restarts included, no chunk
      of it is claimed for submission until a start launches a goroutine for it. */
  lemma {:induction false} NoClaimUntilLaunch(w: World, events: seq<Event>, later: seq<Event>, id: string)
    requires AtRestIn(Execute(w, events), id)
    requires forall i :: 0 <= i < |later| ==> !Launches(w, Execute(w, events + later[..i]), later[i], id)
    ensures AtRestIn(Execute(w, events + later), id) && NoNewClaim(Execute(w, events), Execute(w, events + later), id)
    decreases |later|
  {
    hide Execute, Apply, Launches, AtRestIn;
    if later == [] {
      assert events + later == events;
    } else {
      var most, e := later[..|later| - 1], later[|later| - 1];
      assert events + later == events + most + [e] && later[..|later| - 1] == most;
      forall i | 0 <= i < |most| ensures !Launches(w, Execute(w, events + most[..i]), most[i], id) {
        assert most[..i] == later[..i] && most[i] == later[i];
      }
      NoClaimUntilLaunch(w, events, most, id);
      Stepped(w, events + most, e);
      ExecuteKeeps(w, events + most);
      DormantStep(w, Execute(w, events + most), e, id);
    }
  }

  /** In particular after a cancellation was answered `Ok`. */
  lemma CancelledThenSilent(w: World, events: seq<Event>, id: string, o: Write, later: seq<Event>)
    requires Execute(w, events).up && !Execute(w, events).stuck && CancelStep(w, Execute(w, events), id, o).0 == Reply.Ok
    requires forall i :: 0 <= i < |later| ==> !Launches(w, Execute(w, events + [Cancel(id, o)] + later[..i]), later[i], id)
    ensures NoNewClaim(Execute(w, events), Execute(w, events + [Cancel(id, o)] + later), id)
  {
    hide Execute, CancelStep, Launches;
    var s := Execute(w, events);
    Stepped(w, events, Cancel(id, o));
    CancelOkMeansFinished(w, s, id, o);
    CancelMeans(w, s, id, o);
    NoClaimUntilLaunch(w, events + [Cancel(id, o)], later, id);
  }

  // ---------------------------------------------------------------- a lock nobody can take

  /** After a panic under the lock no row, no file and no reply changes any more until the process is killed. */
  lemma {:induction false} StuckForGood(w: World, events: seq<Event>, later: seq<Event>)
    requires CrashFree(later) && Execute(w, events).up && Execute(w, events).stuck
    ensures var s, t := Execute(w, events), Execute(w, events + later);
            && t.up && t.stuck && t.rows == s.rows && t.images == s.images && t.runs.Keys == s.runs.Keys
            && t.past.claimed == s.past.claimed
    decreases |later|
  {
    hide Execute, Apply;
    if later == [] {
      assert events + later == events;
    } else {
      var most, e := later[..|later| - 1], later[|later| - 1];
      assert events + later == events + most + [e];
      StuckForGood(w, events, most);
      Stepped(w, events + most, e);
      StuckStep(w, Execute(w, events + most), e);
    }
  }

  lemma StuckStep(w: World, s: State, e: Event)
    requires s.up && s.stuck && !e.Crash?
    ensures var t := Apply(w, s, e);
            && t.up && t.stuck && t.rows == s.rows && t.images == s.images && t.runs.Keys == s.runs.Keys
            && t.past.claimed == s.past.claimed
  {
    hide StartStep, BoundaryStep, CancelStep, ProbedStep, StoppedStep, RestartStep, TopStep, AmbiguousStep, AcceptedStep, ResultStep;
  }

  // ---------------------------------------------------------------- the nil output map

  /** The output map of a row can be nil only before its first output: an execution with one commits safely. */
  lemma BareBeforeFirstOutput(w: World, events: seq<Event>, id: string)
    requires Execute(w, events).up && id in Execute(w, events).bare
    ensures var s := Execute(w, events); id in s.rows && s.rows[id].histories == map[] && s.rows[id].next == 0
  {
    hide Execute;
    ExecuteKeeps(w, events);
    BareFact(w, Execute(w, events));
    RowOf(w, Execute(w, events), id);
    RowFacts(w, Execute(w, events).past, id, Execute(w, events).rows[id]);
  }
}
