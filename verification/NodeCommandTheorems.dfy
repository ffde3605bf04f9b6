/** What the durable command protocol guarantees over every interleaving of sends, results, expiries, reconnects
    and recovery timers, each acting on whatever version of the row it happened to read. */
module NodeCommandTheorems {
  import opened Evidence
  import opened NodeCommands

  // ---------------------------------------------------------------- the invariant

  /** The stored result of a settled row shows the tier its status claims. */
  predicate Truthful(r: Row) {
    && r.command.Mutate? && r.status.Done? && !r.uncertain && r.result.Some?
    && Says(r.result.value, Tier, if r.status.verdict == Succeeded then Desired(r.command.action) else Inverse(r.command.action))
  }

  predicate RowOk(r: Row, marked: bool) {
    && (r.authoritative ==> Truthful(r))
    && (!Query(r.command) && r.uncertain ==> r.status == Sent)
    && (!Query(r.command) && marked ==> r.uncertain || Settled(r))
    && (r.uncertain ==> marked)
  }

  ghost predicate Current(s: State) {
    && (forall id :: id in s.rows ==> s.rows[id].id == id && s.rows[id] in s.seen && RowOk(s.rows[id], id in s.marked))
    && (forall r :: r in s.seen ==> r.id in s.rows && Older(r, s.rows[r.id]))
    && (forall id :: id in s.marked ==> id in s.rows)
  }

  /** `r` is `now`, or an earlier version of it. */
  predicate Older(r: Row, now: Row) {
    r.revision < now.revision || r == now
  }

  function SendsOf(log: seq<Delivery>, id: string): nat {
    if log == [] then 0 else SendsOf(log[..|log| - 1], id) + if log[|log| - 1].row.id == id then 1 else 0
  }

  predicate Proper(d: Delivery) {
    !Query(d.row.command) ==> !d.row.uncertain && !d.marked
  }

  ghost predicate Logged(s: State) {
    && (forall d :: d in s.log ==> Proper(d) && d.row.id in s.rows)
    && (forall id :: id in s.rows ==> s.rows[id].attempts == SendsOf(s.log, id))
  }

  ghost predicate Inv(s: State) {
    Current(s) && Logged(s)
  }

  // ---------------------------------------------------------------- one commit

  /** A swap made from a version that was read succeeds only while that version is the stored one. */
  lemma SwapMeansCurrent(s: State, was: Row, after: Row, allowed: set<Status>)
    requires Current(s) && was in s.seen && after.id == was.id && Commit(s, was, after, allowed).0
    ensures was.id in s.rows && s.rows[was.id] == was && was.status in allowed
    ensures Commit(s, was, after, allowed).1 == Put(s, after.(revision := was.revision + 1))
  {
    assert Older(was, s.rows[was.id]);
  }

  lemma PutCurrent(s: State, r: Row)
    requires Current(s) && r.id in s.rows && r.revision == s.rows[r.id].revision + 1
    requires RowOk(r, r.uncertain || r.id in s.marked)
    ensures Current(Put(s, r))
  {
    hide RowOk;
    var t := Put(s, r);
    forall id | id in t.rows ensures t.rows[id].id == id && t.rows[id] in t.seen && RowOk(t.rows[id], id in t.marked) {
      if id != r.id { assert id in t.marked <==> id in s.marked; }
    }
    forall v | v in t.seen ensures v.id in t.rows && Older(v, t.rows[v.id]) {
      if v != r { assert Older(v, s.rows[v.id]); }
    }
  }

  lemma PutLogged(s: State, r: Row)
    requires Logged(s) && r.id in s.rows && r.attempts == s.rows[r.id].attempts
    ensures Logged(Put(s, r))
  {}

  /** A commit that does not send: `after` keeps the attempts and is a sound next version. */
  lemma CommitKeeps(s: State, was: Row, after: Row, allowed: set<Status>)
    requires Inv(s) && was in s.seen && after.id == was.id && after.attempts == was.attempts
    requires was.status in allowed && RowOk(was, was.id in s.marked) ==> RowOk(after, after.uncertain || was.id in s.marked)
    ensures Inv(Commit(s, was, after, allowed).1)
  {
    hide RowOk;
    if Commit(s, was, after, allowed).0 {
      SwapMeansCurrent(s, was, after, allowed);
      var next := after.(revision := was.revision + 1);
      assert RowOk(next, next.uncertain || next.id in s.marked) by { RevisionIrrelevant(after, was.revision + 1, after.uncertain || was.id in s.marked); }
      hide Current, Logged, Commit;
      assert s.rows[was.id] == was;
      PutCurrent(s, next);
      PutLogged(s, next);
    }
  }

  lemma RevisionIrrelevant(r: Row, revision: nat, marked: bool)
    requires RowOk(r, marked)
    ensures RowOk(r.(revision := revision), marked)
  {}

  // ---------------------------------------------------------------- every step

  lemma CreateKeeps(s: State, r: Row)
    requires Inv(s) && r.attempts == 0 && !r.uncertain && !r.authoritative && r.status == Queued
    ensures Inv(Create(s, r))
  {
    hide Current, Logged;
    if (r.node, r.key) !in s.keys && r.id !in s.rows {
      CreateCurrent(s, r);
      CreateLogged(s, r);
    }
  }

  lemma CreateCurrent(s: State, r: Row)
    requires Current(s) && !r.uncertain && !r.authoritative && r.status == Queued && (r.node, r.key) !in s.keys && r.id !in s.rows
    ensures Current(Create(s, r))
  {
    hide Proper;
    var t := Create(s, r);
    forall v | v in t.seen ensures v.id in t.rows && Older(v, t.rows[v.id]) { if v in s.seen { assert Older(v, s.rows[v.id]); } }
  }

  lemma CreateLogged(s: State, r: Row)
    requires Inv(s) && r.attempts == 0 && !r.uncertain && (r.node, r.key) !in s.keys && r.id !in s.rows
    ensures Logged(Create(s, r))
  {
    assert forall d :: d in s.log ==> d.row.id != r.id;
    NoSends(s.log, r.id);
    hide RowOk, Current;
  }

  lemma {:induction false} NoSends(log: seq<Delivery>, id: string)
    requires forall d :: d in log ==> d.row.id != id
    ensures SendsOf(log, id) == 0
  {
    if log != [] { NoSends(log[..|log| - 1], id); }
  }

  lemma SendsGrow(log: seq<Delivery>, d: Delivery, id: string)
    ensures SendsOf(log + [d], id) == SendsOf(log, id) + if d.row.id == id then 1 else 0
  {
    assert (log + [d])[..|log|] == log;
  }

  /** A row that may be sent by callers that looked has never been uncertain. */
  lemma SendIsProper(s: State, was: Row, query: bool)
    requires Current(s) && was.id in s.rows && s.rows[was.id] == was && MaySend(was, query)
    ensures Proper(Delivery(was, was.id in s.marked))
  {
    assert RowOk(was, was.id in s.marked);
  }

  lemma SendKeeps(s: State, was: Row, query: bool)
    requires Inv(s) && was in s.seen
    ensures Inv(Send(s, was, query).1)
  {
    if MaySend(was, query) && Commit(s, was, Dispatched(was), UNDONE).0 {
      SwapMeansCurrent(s, was, Dispatched(was), UNDONE);
      SendIsProper(s, was, query);
      var next := Dispatched(was).(revision := was.revision + 1);
      var t := Send(s, was, query).1;
      var d := Delivery(was, was.id in s.marked);
      assert t == Put(s, next).(log := s.log + [d]);
      assert RowOk(next, next.uncertain || next.id in s.marked) by { assert RowOk(was, was.id in s.marked); }
      hide RowOk, Send, Commit, Proper;
      PutCurrent(s, next);
      forall id | id in t.rows ensures t.rows[id].attempts == SendsOf(t.log, id) { SendsGrow(s.log, d, id); }
    }
  }

  lemma PromoteKeeps(s: State, id: string, node: string, result: Option<Fields>)
    requires Inv(s)
    ensures Inv(Promote(s, id, node, result))
  {
    if id in s.rows && s.rows[id].node == node && !Settled(s.rows[id]) {
      var r := s.rows[id];
      assert RowOk(r, id in s.marked);
      assert RowOk(Promoted(r, result), true);
      hide RowOk, Current, Logged;
      RowIds(s, id);
      PutCurrent(s, Promoted(r, result));
      PutLogged(s, Promoted(r, result));
    }
  }

  lemma RowIds(s: State, id: string)
    requires Current(s) && id in s.rows
    ensures s.rows[id].id == id && RowOk(s.rows[id], id in s.marked)
  {
    hide RowOk;
  }

  lemma AdvanceKeeps(s: State, id: string)
    requires Inv(s)
    ensures Inv(Advance(s, id))
  {
    hide Current, Logged;
    if id in s.rows && s.rows[id].uncertain && !s.rows[id].authoritative {
      RowIds(s, id);
      var r := s.rows[id];
      assert id in s.marked;
      hide RowOk;
      RevisionIrrelevant(r, r.revision + 1, id in s.marked);
      PutCurrent(s, r.(revision := r.revision + 1));
      PutLogged(s, r.(revision := r.revision + 1));
    }
  }

  /** Ordinary results, expiries and requeues cannot touch a mutation that was ever uncertain. */
  lemma ReportedOk(was: Row, rep: Report, timing: Timing, marked: bool)
    requires RowOk(was, marked) && was.status in UNDONE + {Expired} && (was.command == ModelQuery || (!rep.uncertain && !was.uncertain))
    ensures RowOk(Reported(was, rep, timing), Reported(was, rep, timing).uncertain || marked)
  {}

  lemma ReceiveKeeps(s: State, was: Row, rep: Report, timing: Timing, observationOk: bool)
    requires Inv(s) && was in s.seen
    ensures Inv(Receive(s, was, rep, timing, observationOk))
  {
    hide Inv, Promote;
    if rep.uncertain && was.command != ModelQuery {
      PromoteKeeps(s, was.id, was.node, Some(rep.result));
    } else if !was.status.Done? && !(was.uncertain && was.command != ModelQuery) {
      if was.status in UNDONE + {Expired} && RowOk(was, was.id in s.marked) { ReportedOk(was, rep, timing, was.id in s.marked); }
      var refused := was.(status := Done(Failed), result := Some(rep.result));
      assert was.command == ModelQuery && was.status in UNDONE && RowOk(was, was.id in s.marked) ==> RowOk(refused, refused.uncertain || was.id in s.marked);
      hide RowOk, Commit;
      CommitKeeps(s, was, Reported(was, rep, timing), UNDONE + {Expired});
      if was.command == ModelQuery { CommitKeeps(s, was, refused, UNDONE); }
    }
  }

  /** Settlement writes what the evidence shows. */
  lemma ResolvedOk(was: Row, observed: Fields, fingerprint: string, signed: bool, marked: bool)
    requires Settlement(fingerprint, OriginalOf(was, signed), observed).Some?
    ensures RowOk(Resolved(was, observed, Settlement(fingerprint, OriginalOf(was, signed), observed).value), marked)
  {
    hide Settlement, MutationEvidence, Desired, Inverse, HotForm, WarmForm, ColdForm, Name, HOT, WARM, COLD;
    var x := OriginalOf(was, signed);
    SettlementReadsTheTier(fingerprint, x, observed);
    AcceptedHasOneForm(fingerprint, x, observed);
  }

  lemma SettleKeeps(s: State, was: Row, observed: Fields, fingerprint: string, signed: bool)
    requires Inv(s) && was in s.seen
    ensures Inv(Settle(s, was, observed, fingerprint, signed).1)
  {
    hide Inv, Settlement, RowOk, Commit;
    var v := Settlement(fingerprint, OriginalOf(was, signed), observed);
    if v.Some? {
      ResolvedOk(was, observed, fingerprint, signed, false || was.id in s.marked);
      CommitKeeps(s, was, Resolved(was, observed, v.value), {Sent});
    }
  }

  lemma ApplyKeeps(s: State, e: Event)
    requires Inv(s)
    ensures Inv(Apply(s, e))
  {
    hide Inv, Create, Send, Promote, Advance, Receive, Settle, Commit;
    if Possible(s, e) {
      match e
      case CreateRow(r) => CreateKeeps(s, r);
      case SendRow(was, query) => SendKeeps(s, was, query);
      case RequeueRow(was) => if !was.uncertain && was.status == Sent { CommitKeeps(s, was, was.(status := Queued), {Sent}); }
      case ExpireRow(was) => if !was.uncertain && was.status in UNDONE { CommitKeeps(s, was, was.(status := Expired), UNDONE); }
      case PromoteRow(id, node, result) => PromoteKeeps(s, id, node, result);
      case AdvanceRow(id) => AdvanceKeeps(s, id);
      case PostponeRow(was) => if was.uncertain { CommitKeeps(s, was, was, {Sent}); }
      case ReceiveResult(was, report, timing, ok) => ReceiveKeeps(s, was, report, timing, ok);
      case SettleRow(was, observed, fingerprint, signed) => SettleKeeps(s, was, observed, fingerprint, signed);
    }
  }

  lemma {:induction false} ExecuteKeeps(events: seq<Event>)
    ensures Inv(Execute(events))
  {
    if events != [] {
      ExecuteKeeps(events[..|events| - 1]);
      hide Inv, Apply;
      ApplyKeeps(Execute(events[..|events| - 1]), events[|events| - 1]);
    }
  }

  // ---------------------------------------------------------------- what follows

  /** No send was ever committed on a mutation that was uncertain, or that had ever been uncertain before. */
  lemma UncertainNeverSent(events: seq<Event>, d: Delivery)
    requires d in Execute(events).log && !Query(d.row.command)
    ensures !d.row.uncertain && !d.marked
  {
    ExecuteKeeps(events);
    hide Execute, Current;
  }

  /** The attempt count of a row is the number of sends committed on it. */
  lemma AttemptsCountSends(events: seq<Event>, id: string)
    requires id in Execute(events).rows
    ensures Execute(events).rows[id].attempts == SendsOf(Execute(events).log, id)
  {
    ExecuteKeeps(events);
    hide Execute, Current;
  }

  /** Settlement is truthful: a settled row is a residency command whose stored evidence shows the tier it was
      meant to reach exactly if it says succeeded, and the one it leaves behind exactly if it says failed. */
  lemma SettledTruthfully(events: seq<Event>, id: string)
    requires id in Execute(events).rows && Execute(events).rows[id].authoritative
    ensures Truthful(Execute(events).rows[id])
  {
    ExecuteKeeps(events);
    RowIds(Execute(events), id);
    hide Execute, Inv, Truthful;
  }

  lemma Stepped(events: seq<Event>, e: Event)
    ensures Execute(events + [e]) == Apply(Execute(events), e)
  {
    hide Apply;
    assert (events + [e])[..|events|] == events;
  }

  /** A commit changes at most the row it was made from, and only while that is the stored version. */
  lemma CommitTouches(s: State, was: Row, after: Row, allowed: set<Status>, id: string)
    requires Current(s) && was in s.seen && after.id == was.id && id in s.rows
    ensures var t := Commit(s, was, after, allowed).1;
            && id in t.rows && (t.rows[id] == s.rows[id] || (was == s.rows[id] && was.status in allowed && t.rows[id] == after.(revision := was.revision + 1)))
            && t.log == s.log
  {
    if Commit(s, was, after, allowed).0 { SwapMeansCurrent(s, was, after, allowed); }
    hide Current, Older;
  }

  lemma SendTouches(s: State, was: Row, query: bool, id: string)
    requires Current(s) && was in s.seen && id in s.rows
    ensures var t := Send(s, was, query).1;
            && id in t.rows && (t.rows[id] == s.rows[id] || (was == s.rows[id] && MaySend(was, query) && t.rows[id] == Dispatched(was).(revision := was.revision + 1)))
            && (t.log == s.log || t.log == s.log + [Delivery(was, was.id in s.marked)])
            && (t.log != s.log ==> was.id in s.rows && s.rows[was.id] == was && MaySend(was, query))
  {
    CommitTouches(s, was, Dispatched(was), UNDONE, id);
    if Commit(s, was, Dispatched(was), UNDONE).0 { SwapMeansCurrent(s, was, Dispatched(was), UNDONE); }
    hide Current, Commit;
  }

  /** The step resolved row `was` from evidence that the checks accept. */
  predicate Settles(e: Event, was: Row) {
    e.SettleRow? && e.was == was && Settlement(e.fingerprint, OriginalOf(was, e.signed), e.observed).Some?
  }

  lemma ReceiveTouches(s: State, was: Row, rep: Report, timing: Timing, ok: bool, id: string)
    requires Current(s) && was in s.seen && id in s.rows && !Query(s.rows[id].command) && s.rows[id].uncertain
    ensures var t := Receive(s, was, rep, timing, ok); id in t.rows && t.rows[id].uncertain
  {
    hide Current, Commit, Promote;
    PromoteTouches(s, was.id, was.node, Some(rep.result), id);
    CommitTouches(s, was, Reported(was, rep, timing), UNDONE + {Expired}, id);
    CommitTouches(s, was, was.(status := Done(Failed), result := Some(rep.result)), UNDONE, id);
  }

  lemma UncertainStep(s: State, e: Event, id: string)
    requires Current(s) && id in s.rows && !Query(s.rows[id].command) && s.rows[id].uncertain
    ensures var t := Apply(s, e);
            && id in t.rows && t.rows[id].command == s.rows[id].command
            && (t.rows[id].uncertain || (Settles(e, s.rows[id]) && Settled(t.rows[id])))
  {
    if Possible(s, e) {
      hide Commit, Send, Receive, RowOk, Promote, Settle, Settlement;
      match e
      case CreateRow(r) =>
      case SendRow(was, query) => SendTouches(s, was, query, id);
      case RequeueRow(was) => CommitTouches(s, was, was.(status := Queued), {Sent}, id);
      case ExpireRow(was) => CommitTouches(s, was, was.(status := Expired), UNDONE, id);
      case PromoteRow(i, node, result) => PromoteTouches(s, i, node, result, id);
      case AdvanceRow(i) => if i in s.rows { RowIds(s, i); }
      case PostponeRow(was) => CommitTouches(s, was, was, {Sent}, id);
      case ReceiveResult(was, report, timing, ok) => ReceiveTouches(s, was, report, timing, ok, id); ReceiveSame(s, was, report, timing, ok, id);
      case SettleRow(was, observed, fingerprint, signed) => SettleTouches(s, was, observed, fingerprint, signed, id);
    }
  }

  lemma PromoteTouches(s: State, i: string, node: string, result: Option<Fields>, id: string)
    requires Current(s) && id in s.rows
    ensures var t := Promote(s, i, node, result);
            && id in t.rows && t.rows[id].command == s.rows[id].command && t.log == s.log
            && (t.rows[id] == s.rows[id] || (t.rows[id].uncertain && !Settled(s.rows[id])))
  {
    if i in s.rows { RowIds(s, i); }
    hide Current, RowOk;
  }

  lemma ReceiveSame(s: State, was: Row, rep: Report, timing: Timing, ok: bool, id: string)
    requires Current(s) && was in s.seen && id in s.rows
    ensures var t := Receive(s, was, rep, timing, ok);
            id in t.rows && t.rows[id].command == s.rows[id].command && t.log == s.log
  {
    hide Current, Commit, Promote;
    PromoteTouches(s, was.id, was.node, Some(rep.result), id);
    CommitTouches(s, was, Reported(was, rep, timing), UNDONE + {Expired}, id);
    CommitTouches(s, was, was.(status := Done(Failed), result := Some(rep.result)), UNDONE, id);
  }

  lemma SettleTouches(s: State, was: Row, observed: Fields, fingerprint: string, signed: bool, id: string)
    requires Current(s) && was in s.seen && id in s.rows
    ensures var t := Settle(s, was, observed, fingerprint, signed).1;
            && id in t.rows && t.rows[id].command == s.rows[id].command && t.log == s.log
            && (t.rows[id] == s.rows[id]
                || (was == s.rows[id] && was.status == Sent && Settlement(fingerprint, OriginalOf(was, signed), observed).Some? && Settled(t.rows[id])))
  {
    hide Settlement;
    var v := Settlement(fingerprint, OriginalOf(was, signed), observed);
    if v.Some? { CommitTouches(s, was, Resolved(was, observed, v.value), {Sent}, id); }
    hide Current, Commit;
  }

  /** The uncertain mark of a mutation is cleared by no step but a settlement whose evidence was accepted. */
  lemma MarkClearedOnlyByEvidence(events: seq<Event>, e: Event, id: string)
    requires id in Execute(events).rows && !Query(Execute(events).rows[id].command) && Execute(events).rows[id].uncertain
    ensures var s, t := Execute(events), Execute(events + [e]);
            && id in t.rows && t.rows[id].command == s.rows[id].command
            && (t.rows[id].uncertain || (Settles(e, s.rows[id]) && Settled(t.rows[id])))
  {
    ExecuteKeeps(events);
    Stepped(events, e);
    hide Execute, Apply, Logged, Current;
    UncertainStep(Execute(events), e, id);
  }

  /** And accepted evidence does clear it: settlement of the stored version of an uncertain mutation commits. */
  lemma EvidenceSettles(events: seq<Event>, id: string, observed: Fields, fingerprint: string, signed: bool)
    requires id in Execute(events).rows && !Query(Execute(events).rows[id].command) && Execute(events).rows[id].uncertain
    requires Settlement(fingerprint, OriginalOf(Execute(events).rows[id], signed), observed).Some?
    ensures var t := Execute(events + [SettleRow(Execute(events).rows[id], observed, fingerprint, signed)]);
            id in t.rows && Settled(t.rows[id]) && t.rows[id].result == Some(observed)
  {
    hide Execute, Current, Logged, Settlement, Settle;
    var s := Execute(events);
    ExecuteKeeps(events);
    StoredFacts(s, id);
    Stepped(events, SettleRow(s.rows[id], observed, fingerprint, signed));
    SettleCommits(s, s.rows[id], observed, fingerprint, signed);
  }

  lemma StoredFacts(s: State, id: string)
    requires Current(s) && id in s.rows && !Query(s.rows[id].command) && s.rows[id].uncertain
    ensures s.rows[id].id == id && s.rows[id] in s.seen && s.rows[id].status == Sent
  {
    assert RowOk(s.rows[id], id in s.marked);
    hide Truthful;
  }

  lemma SettleCommits(s: State, was: Row, observed: Fields, fingerprint: string, signed: bool)
    requires was.id in s.rows && s.rows[was.id] == was && was.uncertain && was.status == Sent
    requires Settlement(fingerprint, OriginalOf(was, signed), observed).Some?
    ensures var t := Settle(s, was, observed, fingerprint, signed).1;
            was.id in t.rows && Settled(t.rows[was.id]) && t.rows[was.id].result == Some(observed)
  {
    hide Settlement;
  }

  // ---------------------------------------------------------------- settled for good, never sent again

  lemma ReceiveSettled(s: State, was: Row, rep: Report, timing: Timing, ok: bool, id: string)
    requires Current(s) && was in s.seen && id in s.rows && Settled(s.rows[id])
    ensures var t := Receive(s, was, rep, timing, ok); id in t.rows && t.rows[id] == s.rows[id]
  {
    hide Current, Commit, Promote;
    PromoteTouches(s, was.id, was.node, Some(rep.result), id);
    CommitTouches(s, was, Reported(was, rep, timing), UNDONE + {Expired}, id);
    CommitTouches(s, was, was.(status := Done(Failed), result := Some(rep.result)), UNDONE, id);
  }

  lemma SettledStep(s: State, e: Event, id: string)
    requires Current(s) && id in s.rows && Settled(s.rows[id])
    ensures var t := Apply(s, e); id in t.rows && t.rows[id] == s.rows[id]
  {
    hide Commit, Send, RowOk, Promote, Settle, Settlement, Receive, Current, SameCommand;
    if Possible(s, e) {
      match e
      case CreateRow(r) =>
      case SendRow(was, query) => SendTouches(s, was, query, id);
      case RequeueRow(was) => CommitTouches(s, was, was.(status := Queued), {Sent}, id);
      case ExpireRow(was) => CommitTouches(s, was, was.(status := Expired), UNDONE, id);
      case PromoteRow(i, node, result) => PromoteTouches(s, i, node, result, id);
      case AdvanceRow(i) => if i in s.rows { RowIds(s, i); }
      case PostponeRow(was) => CommitTouches(s, was, was, {Sent}, id);
      case ReceiveResult(was, rep, timing, ok) => ReceiveSettled(s, was, rep, timing, ok, id);
      case SettleRow(was, observed, fingerprint, signed) => SettleTouches(s, was, observed, fingerprint, signed, id);
    }
  }

  /** A settled row never changes again. */
  lemma {:induction false} SettledForGood(events: seq<Event>, later: seq<Event>, id: string)
    requires id in Execute(events).rows && Settled(Execute(events).rows[id])
    ensures id in Execute(events + later).rows && Execute(events + later).rows[id] == Execute(events).rows[id]
    decreases |later|
  {
    if later == [] {
      assert events + later == events;
    } else {
      var front, e := later[..|later| - 1], later[|later| - 1];
      assert events + later == (events + front) + [e];
      SettledForGood(events, front, id);
      ExecuteKeeps(events + front);
      Stepped(events + front, e);
      hide Execute, Apply, Logged, Current;
      SettledStep(Execute(events + front), e, id);
    }
  }

  /** Either still uncertain or settled: in both cases out of reach of every sender. */
  ghost predicate Withdrawn(s: State, id: string) {
    id in s.rows && !Query(s.rows[id].command) && (s.rows[id].uncertain || Settled(s.rows[id]))
  }

  lemma WithdrawnStep(s: State, e: Event, id: string)
    requires Inv(s) && Withdrawn(s, id)
    ensures Withdrawn(Apply(s, e), id) && SendsOf(Apply(s, e).log, id) == SendsOf(s.log, id)
  {
    hide Logged, Current;
    if s.rows[id].uncertain { UncertainStep(s, e, id); } else { SettledStep(s, e, id); }
    hide Apply;
    LogStep(s, e, id);
  }

  lemma LogStep(s: State, e: Event, id: string)
    requires Inv(s) && Withdrawn(s, id)
    ensures SendsOf(Apply(s, e).log, id) == SendsOf(s.log, id)
  {
    hide Commit, Send, Settle, SendsOf, RowOk, Settlement, Receive;
    if Possible(s, e) {
      match e
      case CreateRow(r) =>
      case SendRow(was, query) =>
        SendTouches(s, was, query, id);
        SendsGrow(s.log, Delivery(was, was.id in s.marked), id);
      case RequeueRow(was) => CommitTouches(s, was, was.(status := Queued), {Sent}, id);
      case ExpireRow(was) => CommitTouches(s, was, was.(status := Expired), UNDONE, id);
      case PromoteRow(i, node, result) =>
      case AdvanceRow(i) =>
      case PostponeRow(was) => CommitTouches(s, was, was, {Sent}, id);
      case ReceiveResult(was, rep, timing, ok) => ReceiveSame(s, was, rep, timing, ok, id);
      case SettleRow(was, observed, fingerprint, signed) => SettleTouches(s, was, observed, fingerprint, signed, id);
    }
  }

  /** Once a mutation was uncertain it is never sent again: whatever happens later, no send of it is committed. */
  lemma {:induction false} WithdrawnForGood(events: seq<Event>, later: seq<Event>, id: string)
    requires Withdrawn(Execute(events), id)
    ensures Withdrawn(Execute(events + later), id) && SendsOf(Execute(events + later).log, id) == SendsOf(Execute(events).log, id)
    decreases |later|
  {
    if later == [] {
      assert events + later == events;
    } else {
      var front, e := later[..|later| - 1], later[|later| - 1];
      assert events + later == (events + front) + [e];
      WithdrawnForGood(events, front, id);
      ExecuteKeeps(events + front);
      Stepped(events + front, e);
      hide Execute, Apply, Inv, Withdrawn;
      WithdrawnStep(Execute(events + front), e, id);
    }
  }
}
