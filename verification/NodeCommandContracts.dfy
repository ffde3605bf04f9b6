/** The life of a command row: what each event makes of the version it finds stored, as one table, and what follows from
    the table over runs. */
module NodeCommandContracts {
  import opened Evidence
  import opened NodeCommands
  import opened NodeCommandTheorems

  // ---------------------------------------------------------------- the table

  predicate Open(x: Row) {
    x.status == Queued || x.status == Sent
  }

  /** A row marked uncertain, whatever it was, with the report that made it so. */
  function Marked(x: Row, result: Option<Fields>): Row {
    x.(status := Sent, uncertain := true, result := result)
  }

  /** The verdict of a report: succeeded exactly on an ok one. */
  function VerdictOf(rep: Report): Verdict {
    if rep.ok then Succeeded else Failed
  }

  /** A row whose result is final: reported, or expired with one kept. */
  predicate Answered(x: Row) {
    x.status.Done? || (x.status == Expired && x.result.Some?)
  }

  /** The observation of a linked model query was refused. */
  predicate Refused(x: Row, rep: Report, observationOk: bool) {
    x.command == ModelQuery && rep.ok && x.reconciles != "" && !observationOk
  }

  /** A report on the stored version. An uncertain one about anything but a model query marks the row, unless evidence
      settled it. A certain one is dropped if the row has its answer or is an uncertain mutation. Otherwise, in the
      window or late but made in it, the row is done with the verdict of the report; out of the window it is expired;
      the result is kept, except that of a failure in the window. */
  function AfterReport(x: Row, rep: Report, timing: Timing, observationOk: bool): Option<Row> {
    if Answered(x) || (x.uncertain && x.command != ModelQuery) then None
    else if Refused(x, rep, observationOk) then (if Open(x) then Some(x.(status := Done(Failed), result := Some(rep.result))) else None)
    else match timing
      case InWindow =>
        if rep.uncertain then Some(Marked(x, Some(rep.result)))
        else Some(x.(status := Done(VerdictOf(rep)), result := if rep.ok then Some(rep.result) else x.result))
      case LateButMadeInWindow => Some(x.(status := Done(VerdictOf(rep)), result := Some(rep.result), uncertain := rep.uncertain))
      case Late => Some(x.(status := Expired, result := Some(rep.result), uncertain := rep.uncertain))
  }

  /** Done on the word of evidence, and not doubted since. */
  predicate SettledByEvidence(x: Row) {
    x.status.Done? && x.authoritative && !x.uncertain
  }

  predicate Marks(x: Row, rep: Report) {
    rep.uncertain && x.command != ModelQuery
  }

  /** What an event makes of the version `x` it finds stored, before the revision is raised; None if it leaves it alone.
      Events that act on a version they read find nothing to do on another. */
  function Next(x: Row, e: Event): Option<Row> {
    match e
    case CreateRow(_) => None
    case SendRow(was, query) =>
      if was == x && Open(x) && (if query then x.command in {ModelQuery, CheckpointQuery} else !x.uncertain) then Some(x.(status := Sent, attempts := x.attempts + 1)) else None
    case RequeueRow(was) => if was == x && x.status == Sent && !x.uncertain then Some(x.(status := Queued)) else None
    case ExpireRow(was) => if was == x && Open(x) && !x.uncertain then Some(x.(status := Expired)) else None
    case PromoteRow(_, node, result) => if x.node == node && !SettledByEvidence(x) then Some(Marked(x, result)) else None
    case AdvanceRow(_) => if x.uncertain && !x.authoritative then Some(x) else None
    case PostponeRow(was) => if was == x && x.uncertain && x.status == Sent then Some(x) else None
    case ReceiveResult(was, rep, timing, ok) =>
      if Marks(was, rep) then (if x.node == was.node && !SettledByEvidence(x) then Some(Marked(x, Some(rep.result))) else None)
      else if was == x then AfterReport(x, rep, timing, ok)
      else None
    case SettleRow(was, observed, fingerprint, signed) =>
      var v := Settlement(fingerprint, OriginalOf(x, signed), observed);
      if was == x && x.status == Sent && v.Some?
      then Some(x.(status := Done(v.value), result := Some(observed), uncertain := false, authoritative := true)) else None
  }

  function RowOf(e: Event): string {
    match e
    case CreateRow(row) => row.id
    case PromoteRow(id, _, _) => id
    case AdvanceRow(id) => id
    case _ => e.was.id
  }

  /** The row `id` becomes `y` under the next revision, and nothing else is touched. */
  ghost predicate Rewritten(s: State, t: State, id: string, y: Row)
    requires id in s.rows
  {
    && t.rows == s.rows[id := y.(revision := s.rows[id].revision + 1)] && t.keys == s.keys
    && t.seen == s.seen + {y.(revision := s.rows[id].revision + 1)} && t.marked == if y.uncertain then s.marked + {id} else s.marked
  }

  ghost predicate EventReply(s: State, t: State, e: Event) {
    var id := RowOf(e);
    if id in s.rows && Next(s.rows[id], e).Some?
    then Rewritten(s, t, id, Next(s.rows[id], e).value) && t.log == if e.SendRow? then s.log + [Delivery(s.rows[id], id in s.marked)] else s.log
    else t == s
  }

  // ---------------------------------------------------------------- every step is the table

  /** A commit from a version read earlier takes effect if and only if that version is stored and its status allowed. */
  lemma CommitMeans(s: State, was: Row, after: Row, allowed: set<Status>)
    requires Current(s) && was in s.seen && after.id == was.id && SameCommand(was, after) && after.signature == was.signature
    ensures was.id in s.rows
    ensures var (ok, t) := Commit(s, was, after, allowed);
            && (ok <==> s.rows[was.id] == was && was.status in allowed)
            && (ok ==> Rewritten(s, t, was.id, after) && t.log == s.log) && (!ok ==> t == s)
  {
    assert Older(was, s.rows[was.id]) && s.rows[was.id].id == was.id;
  }

  lemma SendMeans(s: State, was: Row, query: bool)
    requires Current(s) && was in s.seen
    ensures EventReply(s, Send(s, was, query).1, SendRow(was, query))
    ensures was.id in s.rows && (Send(s, was, query).0 <==> Next(s.rows[was.id], SendRow(was, query)).Some?)
  {
    hide Current;
    CommitMeans(s, was, Dispatched(was), UNDONE);
    hide Commit;
  }

  lemma RequeueMeans(s: State, was: Row)
    requires Current(s) && was in s.seen
    ensures EventReply(s, Requeue(s, was), RequeueRow(was))
  {
    hide Current;
    CommitMeans(s, was, was.(status := Queued), {Sent});
    hide Commit;
  }

  lemma ExpireMeans(s: State, was: Row)
    requires Current(s) && was in s.seen
    ensures EventReply(s, ExpireUndelivered(s, was), ExpireRow(was))
  {
    hide Current;
    CommitMeans(s, was, was.(status := Expired), UNDONE);
    hide Commit;
  }

  lemma PostponeMeans(s: State, was: Row)
    requires Current(s) && was in s.seen
    ensures EventReply(s, Postpone(s, was), PostponeRow(was))
  {
    hide Current;
    CommitMeans(s, was, was, {Sent});
    hide Commit;
  }

  lemma PromoteMeans(s: State, id: string, node: string, result: Option<Fields>)
    requires Current(s)
    ensures EventReply(s, Promote(s, id, node, result), PromoteRow(id, node, result))
  {
    if id in s.rows { RowIds(s, id); }
    hide Current;
  }

  lemma AdvanceMeans(s: State, id: string)
    requires Current(s)
    ensures EventReply(s, Advance(s, id), AdvanceRow(id))
  {
    if id in s.rows { RowIds(s, id); }
    hide Current;
  }

  lemma ReceiveMeans(s: State, was: Row, rep: Report, timing: Timing, observationOk: bool)
    requires Current(s) && was in s.seen
    ensures EventReply(s, Receive(s, was, rep, timing, observationOk), ReceiveResult(was, rep, timing, observationOk))
  {
    hide Current, Promote, Commit, Rewritten, Reported, AfterReport, Answered, Refused;
    if rep.uncertain && was.command != ModelQuery {
      PromoteMeans(s, was.id, was.node, Some(rep.result));
    } else {
      CertainMeans(s, was, rep, timing, observationOk);
    }
  }

  lemma CertainMeans(s: State, was: Row, rep: Report, timing: Timing, observationOk: bool)
    requires Current(s) && was in s.seen && !Marks(was, rep)
    ensures EventReply(s, Receive(s, was, rep, timing, observationOk), ReceiveResult(was, rep, timing, observationOk))
  {
    hide Current, Commit, Rewritten, Reported;
    ReportCommand(was, rep, timing);
    CommitMeans(s, was, Reported(was, rep, timing), UNDONE + {Expired});
    CommitMeans(s, was, was.(status := Done(Failed), result := Some(rep.result)), UNDONE);
    ReportAgrees(was, rep, timing, observationOk);
  }

  lemma ReportCommand(was: Row, rep: Report, timing: Timing)
    ensures SameIdentity(was, Reported(was, rep, timing))
  {}

  lemma ReportAgrees(was: Row, rep: Report, timing: Timing, observationOk: bool)
    ensures !Answered(was) && !(was.uncertain && was.command != ModelQuery) && !Refused(was, rep, observationOk) ==>
              was.status in UNDONE + {Expired} && AfterReport(was, rep, timing, observationOk) == Some(Reported(was, rep, timing))
  {}

  lemma SettleMeans(s: State, was: Row, observed: Fields, fingerprint: string, signed: bool)
    requires Current(s) && was in s.seen
    ensures EventReply(s, Settle(s, was, observed, fingerprint, signed).1, SettleRow(was, observed, fingerprint, signed))
    ensures was.id in s.rows && (Settle(s, was, observed, fingerprint, signed).0 <==> Next(s.rows[was.id], SettleRow(was, observed, fingerprint, signed)).Some?)
  {
    hide Current, Settlement;
    var v := Settlement(fingerprint, OriginalOf(was, signed), observed);
    CommitMeans(s, was, if v.Some? then Resolved(was, observed, v.value) else was, {Sent});
    hide Commit;
  }

  /** Every event but a creation does what the table says. */
  lemma EventMeans(s: State, e: Event)
    requires Current(s) && Possible(s, e) && !e.CreateRow?
    ensures EventReply(s, Apply(s, e), e)
  {
    hide Current, EventReply, Send, Requeue, ExpireUndelivered, Promote, Advance, Postpone, Receive, Settle;
    match e
    case SendRow(was, query) => SendMeans(s, was, query);
    case RequeueRow(was) => RequeueMeans(s, was);
    case ExpireRow(was) => ExpireMeans(s, was);
    case PromoteRow(id, node, result) => PromoteMeans(s, id, node, result);
    case AdvanceRow(id) => AdvanceMeans(s, id);
    case PostponeRow(was) => PostponeMeans(s, was);
    case ReceiveResult(was, rep, timing, ok) => ReceiveMeans(s, was, rep, timing, ok);
    case SettleRow(was, observed, fingerprint, signed) => SettleMeans(s, was, observed, fingerprint, signed);
  }

  /** A new command is stored as it was made, under revision one or its own, and found under its key; a repeated key or
      id stores nothing. */
  lemma CreateMeans(s: State, r: Row)
    ensures var t := Create(s, r);
            if (r.node, r.key) in s.keys || r.id in s.rows then t == s
            else && t.rows == s.rows[r.id := r.(revision := if r.revision > 0 then r.revision else 1)]
                 && t.keys == s.keys[(r.node, r.key) := r.id] && t.log == s.log
  {}

  /** The row a new command meets: the one under its key, and else the one under its id. */
  function Met(s: State, r: Row): Option<Row> {
    if (r.node, r.key) in s.keys && s.keys[(r.node, r.key)] in s.rows then Some(s.rows[s.keys[(r.node, r.key)]])
    else if r.id in s.rows then Some(s.rows[r.id]) else None
  }

  /** What the creator hears: its own row if it met none, the row it met if that is the same command to the same node
      under the same key, and otherwise nothing. */
  predicate CreateReply(s: State, r: Row, stored: Option<Row>, created: bool) {
    match Met(s, r)
    case None => created && stored == Some(r.(revision := if r.revision > 0 then r.revision else 1))
    case Some(x) => !created && stored == if x.node == r.node && x.key == r.key && x.command == r.command && x.args == r.args then Some(x) else None
  }

  /** A swap succeeds exactly on a stored row with the revision, attempts and mark expected, in one of the statuses
      expected, that is the same signed command; then the new row stands under the next revision. */
  ghost predicate SwapReply(s: State, t: State, r: Row, revision: nat, attempts: nat, uncertain: bool, expected: seq<Status>, ok: bool) {
    && (ok <==>
          && r.id in s.rows && s.rows[r.id].revision == revision && s.rows[r.id].attempts == attempts && s.rows[r.id].uncertain == uncertain
          && s.rows[r.id].status in expected && s.rows[r.id].signature == r.signature
          && s.rows[r.id].node == r.node && s.rows[r.id].key == r.key && s.rows[r.id].command == r.command && s.rows[r.id].args == r.args)
    && (ok ==> t.rows == s.rows[r.id := r.(revision := revision + 1)] && t.keys == s.keys && t.log == s.log)
    && (!ok ==> t == s)
  }

  lemma SwapMeans(s: State, r: Row, revision: nat, attempts: nat, uncertain: bool, expected: seq<Status>)
    ensures var (ok, t) := Swap(s, r, revision, attempts, uncertain, set x | x in expected); SwapReply(s, t, r, revision, attempts, uncertain, expected, ok)
  {
  }

  // ---------------------------------------------------------------- identity

  /** What was signed, and what the command is about. */
  predicate SameIdentity(x: Row, y: Row) {
    && y.id == x.id && y.node == x.node && y.key == x.key && y.command == x.command && y.args == x.args
    && y.signature == x.signature && y.reconciles == x.reconciles
  }

  lemma NextKeepsIdentity(x: Row, e: Event)
    requires Next(x, e).Some?
    ensures SameIdentity(x, Next(x, e).value)
  {
    hide Settlement;
  }

  lemma IdentityStep(s: State, e: Event, id: string)
    requires Current(s) && id in s.rows
    ensures id in Apply(s, e).rows && SameIdentity(s.rows[id], Apply(s, e).rows[id])
  {
    hide Current, Next, Apply;
    if Possible(s, e) && !e.CreateRow? {
      EventMeans(s, e);
      if RowOf(e) == id && Next(s.rows[id], e).Some? { NextKeepsIdentity(s.rows[id], e); }
    } else {
      IdleIdentity(s, e, id);
    }
  }

  lemma IdleIdentity(s: State, e: Event, id: string)
    requires id in s.rows && (!Possible(s, e) || e.CreateRow?)
    ensures id in Apply(s, e).rows && Apply(s, e).rows[id] == s.rows[id]
  {
    hide Send, Receive, Settle, Promote, Commit;
  }

  /** Whatever is stored under an id is the same signed command for good. */
  lemma {:induction false} IdentityForGood(events: seq<Event>, later: seq<Event>, id: string)
    requires id in Execute(events).rows
    ensures id in Execute(events + later).rows && SameIdentity(Execute(events).rows[id], Execute(events + later).rows[id])
    decreases |later|
  {
    if later == [] {
      assert events + later == events;
    } else {
      var front, e := later[..|later| - 1], later[|later| - 1];
      assert events + later == (events + front) + [e];
      IdentityForGood(events, front, id);
      ExecuteKeeps(events + front);
      Stepped(events + front, e);
      hide Execute, Apply, Logged, Current;
      IdentityStep(Execute(events + front), e, id);
    }
  }

  // ---------------------------------------------------------------- whose verdict a row carries

  /** Event `i` is a report received on the stored version of `id` that the verdict of `x` is taken from: an ok one for a
      success, with its result; one that was not ok, or whose observation was refused, for a failure. */
  ghost predicate VerdictFrom(events: seq<Event>, i: int, id: string, x: Row) {
    && 0 <= i < |events| && events[i].ReceiveResult? && events[i].was.id == id
    && id in Execute(events[..i]).rows && Execute(events[..i]).rows[id] == events[i].was
    && Supports(events[i], x)
  }

  predicate Supports(e: Event, x: Row)
    requires e.ReceiveResult?
  {
    && x.status.Done?
    && (x.status.verdict == Succeeded ==> e.report.ok && x.result == Some(e.report.result))
    && (x.status.verdict == Failed ==> !e.report.ok || Refused(e.was, e.report, e.observationOk))
  }

  /** Done by a report and not by authoritative evidence. */
  predicate Ordinary(x: Row) {
    x.status.Done? && !x.authoritative
  }

  lemma NextVerdict(x: Row, e: Event)
    requires Next(x, e).Some? && Ordinary(Next(x, e).value)
    ensures var y := Next(x, e).value;
            || (Ordinary(x) && y.status == x.status && y.result == x.result)
            || (e.ReceiveResult? && e.was == x && Supports(e, y))
  {
    hide Settlement;
  }

  lemma VerdictStep(s: State, e: Event, id: string)
    requires Current(s) && id in Apply(s, e).rows && Ordinary(Apply(s, e).rows[id])
    ensures var y := Apply(s, e).rows[id];
            || (id in s.rows && Ordinary(s.rows[id]) && y.status == s.rows[id].status && y.result == s.rows[id].result)
            || (e.ReceiveResult? && id in s.rows && e.was == s.rows[id] && e.was.id == id && Supports(e, y))
  {
    hide Current, Next, Apply;
    if Possible(s, e) && !e.CreateRow? {
      EventMeans(s, e);
      if RowOf(e) == id && id in s.rows && Next(s.rows[id], e).Some? {
        OrdinaryBump(Next(s.rows[id], e).value, s.rows[id].revision + 1);
        NextVerdict(s.rows[id], e);
      }
    } else {
      IdleVerdict(s, e, id);
    }
  }

  lemma OrdinaryBump(y: Row, revision: nat)
    ensures Ordinary(y) <==> Ordinary(y.(revision := revision))
    ensures forall e: Event :: e.ReceiveResult? ==> (Supports(e, y) <==> Supports(e, y.(revision := revision)))
  {}

  lemma IdleVerdict(s: State, e: Event, id: string)
    requires (!Possible(s, e) || e.CreateRow?) && id in Apply(s, e).rows && Ordinary(Apply(s, e).rows[id])
    ensures id in s.rows && Apply(s, e).rows[id] == s.rows[id]
  {
    hide Send, Receive, Settle, Promote, Commit;
  }

  lemma SupportsSame(e: Event, x: Row, y: Row)
    requires e.ReceiveResult? && Supports(e, x) && y.status == x.status && y.result == x.result
    ensures Supports(e, y)
  {}

  /** Over every run the verdict of a row that evidence did not settle is that of a report received on its stored version:
      succeeded only on an ok report, whose result is the one stored, and failed only on one that was not ok or whose
      observation was refused. */
  lemma {:induction false} VerdictIsReported(events: seq<Event>, id: string)
    requires id in Execute(events).rows && Ordinary(Execute(events).rows[id])
    ensures exists i :: VerdictFrom(events, i, id, Execute(events).rows[id])
  {
    if events != [] {
      var front, e := events[..|events| - 1], events[|events| - 1];
      assert events == front + [e];
      ExecuteKeeps(front);
      Stepped(front, e);
      var s, y := Execute(front), Execute(events).rows[id];
      hide Execute, Apply, Logged, Current, Supports;
      VerdictStep(s, e, id);
      if id in s.rows && Ordinary(s.rows[id]) && y.status == s.rows[id].status && y.result == s.rows[id].result {
        VerdictIsReported(front, id);
        var i :| VerdictFrom(front, i, id, s.rows[id]);
        assert events[..i] == front[..i] && events[i] == front[i];
        SupportsSame(events[i], s.rows[id], y);
        assert VerdictFrom(events, i, id, y);
      } else {
        assert events[..|front|] == front && events[|front|] == e;
        assert VerdictFrom(events, |front|, id, y);
      }
    }
  }
}
