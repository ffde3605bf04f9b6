/** Durable node commands: the store's compare-and-swap, and every controller step that commits through it.

    A handler works on a row it read earlier, so a step names the version it acts on; `seen` holds every version
    the store ever held. `log` and `marked` record the past for the statements only. */
module NodeCommands {
  import opened Evidence

  datatype Status = Queued | Sent | Done(verdict: Verdict) | Expired

  datatype Row = Row(
    id: string, node: string, key: string, command: Command, args: Fields, signature: string,
    status: Status, attempts: nat, revision: nat, uncertain: bool, authoritative: bool,
    result: Option<Fields>, reconciles: string)

  /** A committed send: the version it was committed on, and whether that row had ever been uncertain. */
  datatype Delivery = Delivery(row: Row, marked: bool)

  datatype State = State(rows: map<string, Row>, keys: map<(string, string), string>, seen: set<Row>, log: seq<Delivery>, marked: set<string>)

  const INIT := State(map[], map[], {}, [], {})

  /** The two read-only queries; everything else may change the node. */
  predicate Query(c: Command) { c == ModelQuery || c == CheckpointQuery }

  // ---------------------------------------------------------------- the store

  predicate SameCommand(a: Row, b: Row) {
    a.node == b.node && a.key == b.key && a.command == b.command && a.args == b.args
  }

  function Put(s: State, r: Row): State {
    s.(rows := s.rows[r.id := r], seen := s.seen + {r}, marked := if r.uncertain then s.marked + {r.id} else s.marked)
  }

  function Created(r: Row): Row {
    r.(revision := if r.revision == 0 then 1 else r.revision)
  }

  /** Keeps an existing row of the same key or id; otherwise stores the new one. */
  function Create(s: State, r: Row): State {
    if (r.node, r.key) in s.keys || r.id in s.rows then s
    else Put(s, Created(r)).(keys := s.keys[(r.node, r.key) := r.id])
  }

  predicate Matches(current: Row, revision: nat, attempts: nat, uncertain: bool, allowed: set<Status>) {
    current.status in allowed && current.revision == revision && current.attempts == attempts && current.uncertain == uncertain
  }

  /** Replaces the row if it is still the version expected and the same signed command. */
  function Swap(s: State, r: Row, revision: nat, attempts: nat, uncertain: bool, allowed: set<Status>): (bool, State) {
    if r.id in s.rows && Matches(s.rows[r.id], revision, attempts, uncertain, allowed)
       && SameCommand(s.rows[r.id], r) && s.rows[r.id].signature == r.signature
    then (true, Put(s, r.(revision := revision + 1)))
    else (false, s)
  }

  /** Commit of `after`, made from the version `was`. */
  function Commit(s: State, was: Row, after: Row, allowed: set<Status>): (bool, State) {
    Swap(s, after, was.revision, was.attempts, was.uncertain, allowed)
  }

  predicate Settled(r: Row) {
    !r.uncertain && r.status.Done? && r.authoritative
  }

  function Promoted(r: Row, result: Option<Fields>): Row {
    r.(status := Sent, uncertain := true, result := result, revision := r.revision + 1)
  }

  /** Marks a row uncertain, whatever its state, unless authoritative evidence already settled it. */
  function Promote(s: State, id: string, node: string, result: Option<Fields>): State {
    if id !in s.rows || s.rows[id].node != node || Settled(s.rows[id]) then s else Put(s, Promoted(s.rows[id], result))
  }

  function Advance(s: State, id: string): State {
    if id !in s.rows || !s.rows[id].uncertain || s.rows[id].authoritative then s
    else Put(s, s.rows[id].(revision := s.rows[id].revision + 1))
  }

  // ---------------------------------------------------------------- controller steps

  const UNDONE := {Queued, Sent}

  /** Callers send a row they saw as certain; only the query path sends without looking. */
  predicate MaySend(was: Row, query: bool) {
    was.status in UNDONE && (if query then Query(was.command) else !was.uncertain)
  }

  function Dispatched(was: Row): Row {
    was.(status := Sent, attempts := was.attempts + 1)
  }

  /** The send itself looks at the status only. */
  function Transmit(s: State, was: Row): (bool, State) {
    if was.status !in UNDONE then (false, s)
    else
      var (ok, t) := Commit(s, was, Dispatched(was), UNDONE);
      (ok, if ok then t.(log := t.log + [Delivery(was, was.id in s.marked)]) else t)
  }

  /** A send as its callers make it. */
  function Send(s: State, was: Row, query: bool): (bool, State) {
    if !MaySend(was, query) then (false, s) else Transmit(s, was)
  }

  /** The write to the node failed: reopen a row that is still sent and certain. */
  function Requeue(s: State, was: Row): State {
    if was.status != Sent || was.uncertain then s else Commit(s, was, was.(status := Queued), {Sent}).1
  }

  function ExpireUndelivered(s: State, was: Row): State {
    if was.status !in UNDONE || was.uncertain then s else Commit(s, was, was.(status := Expired), UNDONE).1
  }

  /** A recovery attempt ended without settling: only the time of the next one changes. */
  function Postpone(s: State, was: Row): State {
    if !was.uncertain then s else Commit(s, was, was, {Sent}).1
  }

  /** What a node reports. `late` tells how it relates to the signed window. */
  datatype Timing = InWindow | LateButMadeInWindow | Late

  datatype Report = Report(ok: bool, uncertain: bool, result: Fields)

  function Outcome(ok: bool): Status { Done(if ok then Succeeded else Failed) }

  function Reported(was: Row, rep: Report, timing: Timing): Row {
    match timing
    case LateButMadeInWindow => was.(result := Some(rep.result), uncertain := rep.uncertain, status := Outcome(rep.ok))
    case Late => was.(result := Some(rep.result), uncertain := rep.uncertain, status := Expired)
    case InWindow =>
      if rep.uncertain then was.(status := Sent, uncertain := true, result := Some(rep.result))
      else if rep.ok then was.(status := Outcome(true), result := Some(rep.result))
      else was.(status := Outcome(false))
  }

  /** A result arrives. `observationOk` is the verdict on a query's observation, where there is one. */
  function Receive(s: State, was: Row, rep: Report, timing: Timing, observationOk: bool): State {
    if rep.uncertain && was.command != ModelQuery then Promote(s, was.id, was.node, Some(rep.result))
    else if was.status.Done? || (was.status == Expired && was.result.Some?) then s
    else if was.uncertain && was.command != ModelQuery then s
    else if was.command == ModelQuery && rep.ok && was.reconciles != "" && !observationOk then
      Commit(s, was, was.(status := Done(Failed), result := Some(rep.result)), UNDONE).1
    else Commit(s, was, Reported(was, rep, timing), UNDONE + {Expired}).1
  }

  function OriginalOf(r: Row, signed: bool): Original {
    Original(r.id, r.node, r.key, r.command, r.args, r.result, signed)
  }

  function Resolved(was: Row, observed: Fields, v: Verdict): Row {
    was.(result := Some(observed), uncertain := false, authoritative := true, status := Done(v))
  }

  /** Settlement of a command from an authoritative observation. */
  function Settle(s: State, was: Row, observed: Fields, fingerprint: string, signed: bool): (bool, State) {
    if was.status.Done? || (!was.uncertain && was.status != Sent) then (false, s)
    else
      var v := Settlement(fingerprint, OriginalOf(was, signed), observed);
      if v.None? then (false, s) else Commit(s, was, Resolved(was, observed, v.value), {Sent})
  }

  // ---------------------------------------------------------------- runs

  datatype Event =
    | CreateRow(row: Row)
    | SendRow(was: Row, query: bool)
    | RequeueRow(was: Row)
    | ExpireRow(was: Row)
    | PromoteRow(id: string, node: string, result: Option<Fields>)
    | AdvanceRow(id: string)
    | PostponeRow(was: Row)
    | ReceiveResult(was: Row, report: Report, timing: Timing, observationOk: bool)
    | SettleRow(was: Row, observed: Fields, fingerprint: string, signed: bool)

  /** A new command starts queued, unsent and certain; a handler acts on a version it read. */
  predicate Possible(s: State, e: Event) {
    match e
    case CreateRow(r) => r.status == Queued && r.attempts == 0 && !r.uncertain && !r.authoritative && r.id != ""
    case PromoteRow(_, _, _) => true
    case AdvanceRow(_) => true
    case _ => e.was in s.seen
  }

  function Apply(s: State, e: Event): State {
    if !Possible(s, e) then s
    else match e
      case CreateRow(r) => Create(s, r)
      case SendRow(was, query) => Send(s, was, query).1
      case RequeueRow(was) => Requeue(s, was)
      case ExpireRow(was) => ExpireUndelivered(s, was)
      case PromoteRow(id, node, result) => Promote(s, id, node, result)
      case AdvanceRow(id) => Advance(s, id)
      case PostponeRow(was) => Postpone(s, was)
      case ReceiveResult(was, report, timing, ok) => Receive(s, was, report, timing, ok)
      case SettleRow(was, observed, fingerprint, signed) => Settle(s, was, observed, fingerprint, signed).1
  }

  function Execute(events: seq<Event>): State {
    if events == [] then INIT else Apply(Execute(events[..|events| - 1]), events[|events| - 1])
  }
}
