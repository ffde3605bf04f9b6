/** The command store and the controller's handlers as the program holds them: rows replaced in place under the
    store lock, handlers that edit a copy and commit it by compare-and-swap. */
module NodeCommandStore {
  import opened Evidence
  import opened NodeCommands
  import opened NodeCommandTheorems
  import opened NodeCommandContracts

  /** What a reconnecting node is sent, in listing order: certain rows only, expired ones closed instead. */
  function Plan(listing: seq<Row>, late: set<string>): seq<Event> {
    if listing == [] then []
    else
      var r := listing[|listing| - 1];
      Plan(listing[..|listing| - 1], late)
      + (if r.status !in UNDONE || r.uncertain then [] else if r.id in late then [ExpireRow(r)] else [SendRow(r, false)])
  }

  /** The uncertain rows of a listing: each gets a query instead. */
  function Inquiries(listing: seq<Row>): seq<string> {
    if listing == [] then []
    else
      var r := listing[|listing| - 1];
      Inquiries(listing[..|listing| - 1]) + if r.status in UNDONE && r.uncertain then [r.id] else []
  }

  function ApplyAll(s: State, events: seq<Event>): State {
    if events == [] then s else Apply(ApplyAll(s, events[..|events| - 1]), events[|events| - 1])
  }

  lemma ApplyOneMore(s: State, events: seq<Event>, e: Event)
    ensures ApplyAll(s, events + [e]) == Apply(ApplyAll(s, events), e)
  {
    hide Apply;
    assert (events + [e])[..|events|] == events;
  }

  /** Reconnecting never puts an uncertain row on the wire: no planned send names one, and every uncertain row
      that is not done is asked about instead. */
  lemma {:induction false} PlanIsQueryFirst(listing: seq<Row>, late: set<string>, r: Row)
    ensures SendRow(r, false) in Plan(listing, late) <==> r in listing && Open(r) && !r.uncertain && r.id !in late
    ensures ExpireRow(r) in Plan(listing, late) <==> r in listing && Open(r) && !r.uncertain && r.id in late
    ensures r in listing && Open(r) && r.uncertain ==> r.id in Inquiries(listing)
  {
    if listing != [] {
      PlanIsQueryFirst(listing[..|listing| - 1], late, r);
      assert listing == listing[..|listing| - 1] + [listing[|listing| - 1]];
    }
  }

  /** Nothing else is planned, and nothing else is asked about. */
  lemma {:induction false} PlanIsAll(listing: seq<Row>, late: set<string>)
    ensures forall e :: e in Plan(listing, late) ==> (e.SendRow? && !e.query) || e.ExpireRow?
    ensures forall id :: id in Inquiries(listing) ==> exists r :: r in listing && r.id == id && Open(r) && r.uncertain
  {
    if listing != [] {
      PlanIsAll(listing[..|listing| - 1], late);
      assert forall r :: r in listing[..|listing| - 1] ==> r in listing;
    }
  }

  class Store {
    var rows: map<string, Row>
    var keys: map<(string, string), string>
    ghost var seen: set<Row>
    ghost var log: seq<Delivery>
    ghost var marked: set<string>

    ghost function View(): State
      reads this
    {
      State(rows, keys, seen, log, marked)
    }

    ghost predicate Indexed()
      reads this
    {
      (forall k :: k in keys ==> keys[k] in rows) && forall id :: id in rows ==> rows[id].id == id
    }

    method Replace(r: Row)
      modifies this`rows, this`seen, this`marked
      ensures View() == Put(old(View()), r)
    {
      rows := rows[r.id := r];
      seen := seen + {r};
      if r.uncertain { marked := marked + {r.id}; }
    }

    /** A repeated key or id returns the row already stored, unless it is a different command. */
    method CreateNodeCommand(r: Row) returns (stored: Option<Row>, created: bool)
      requires Indexed()
      modifies this
      ensures Indexed() && View() == Create(old(View()), r) && (created <==> View() != old(View()))
      ensures stored.Some? ==> stored.value.id in rows && rows[stored.value.id] == stored.value && SameCommand(stored.value, r)
      ensures CreateReply(old(View()), r, stored, created)
    {
      if (r.node, r.key) in keys {
        var existing := rows[keys[(r.node, r.key)]];
        return if SameCommand(existing, r) then Some(existing) else None, false;
      }
      if r.id in rows {
        return if SameCommand(rows[r.id], r) then Some(rows[r.id]) else None, false;
      }
      var entry := r.(revision := if r.revision == 0 then 1 else r.revision);
      Replace(entry);
      keys := keys[(r.node, r.key) := r.id];
      assert r.id in View().rows && r.id !in old(View()).rows;
      return Some(entry), true;
    }

    /** Succeeds only on the expected revision, attempts and mark, from an allowed status, for the same command. */
    method CompareAndSwap(r: Row, revision: nat, attempts: nat, uncertain: bool, expected: seq<Status>) returns (ok: bool)
      modifies this`rows, this`seen, this`marked
      ensures (ok, View()) == Swap(old(View()), r, revision, attempts, uncertain, set s | s in expected)
      ensures SwapReply(old(View()), View(), r, revision, attempts, uncertain, expected, ok)
    {
      SwapMeans(View(), r, revision, attempts, uncertain, expected);
      hide SwapReply;
      if r.id !in rows { return false; }
      var current := rows[r.id];
      var allowed, i := false, 0;
      while i < |expected| && !allowed
        invariant 0 <= i <= |expected| && (allowed ==> current.status in expected) && (!allowed ==> current.status !in expected[..i])
        decreases |expected| - i, !allowed
      {
        if current.status == expected[i] { allowed := true; } else { i := i + 1; }
      }
      if !allowed || current.revision != revision || current.attempts != attempts || current.uncertain != uncertain { return false; }
      if !SameCommand(current, r) || current.signature != r.signature { return false; }
      Replace(r.(revision := current.revision + 1));
      return true;
    }

    method PromoteUncertain(id: string, node: string, result: Option<Fields>)
      modifies this`rows, this`seen, this`marked
      ensures View() == Promote(old(View()), id, node, result)
    {
      if id !in rows || rows[id].node != node { return; }
      var current := rows[id];
      if !current.uncertain && current.status.Done? && current.authoritative { return; }
      Replace(current.(status := Sent, uncertain := true, result := result, revision := current.revision + 1));
    }

    method AdvanceRecovery(id: string)
      modifies this`rows, this`seen, this`marked
      ensures View() == Advance(old(View()), id)
    {
      if id !in rows || !rows[id].uncertain || rows[id].authoritative { return; }
      Replace(rows[id].(revision := rows[id].revision + 1));
    }

    // -------------------------------------------------------------- handlers

    /** Marks the row sent before the node can answer; the caller writes to the node only on success. Whether the row is
        uncertain is for the callers to ask. */
    method SendNodeCommand(was: Row) returns (ok: bool)
      modifies this`rows, this`seen, this`marked, this`log
      ensures (ok, View()) == Transmit(old(View()), was)
      ensures ok ==> rows == old(rows)[was.id := was.(status := Sent, attempts := was.attempts + 1, revision := was.revision + 1)] && |log| == |old(log)| + 1
      ensures !ok ==> View() == old(View())
      ensures was.id in old(rows) && old(rows)[was.id] == was ==> (ok <==> was.status == Queued || was.status == Sent)
    {
      if was.status != Queued && was.status != Sent { return false; }
      var command := was;
      command := command.(status := Sent);
      command := command.(attempts := command.attempts + 1);
      assert (set s | s in [Queued, Sent]) == UNDONE;
      ghost var before := marked;
      ok := CompareAndSwap(command, was.revision, was.attempts, was.uncertain, [Queued, Sent]);
      if ok { log := log + [Delivery(was, was.id in before)]; }
    }

    /** A command is submitted, or submitted again: what is stored is sent at once unless it is uncertain, in which case
        recovery asks about it. */
    method SubmitNodeCommand(r: Row) returns (stored: Option<Row>, ok: bool)
      requires Indexed()
      modifies this
      ensures var t := Create(old(View()), r);
              if stored.None? || stored.value.uncertain then !ok && View() == t else (ok, View()) == Send(t, stored.value, false)
      ensures stored.Some? && stored.value.uncertain ==> log == old(log)
    {
      hide Transmit;
      var created;
      stored, created := CreateNodeCommand(r);
      if stored.None? || stored.value.uncertain { return stored, false; }
      UndoneOrSame(View(), stored.value);
      ok := SendNodeCommand(stored.value);
    }

    method RequeueAfterFailedWrite(was: Row)
      modifies this`rows, this`seen, this`marked
      ensures View() == Requeue(old(View()), was)
    {
      if was.status != Sent || was.uncertain { return; }
      assert (set s | s in [Sent]) == {Sent};
      var _ := CompareAndSwap(was.(status := Queued), was.revision, was.attempts, was.uncertain, [Sent]);
    }

    method ExpireUndeliveredRow(was: Row)
      modifies this`rows, this`seen, this`marked
      ensures View() == ExpireUndelivered(old(View()), was)
    {
      if (was.status != Queued && was.status != Sent) || was.uncertain { return; }
      assert (set s | s in [Queued, Sent]) == UNDONE;
      var _ := CompareAndSwap(was.(status := Expired), was.revision, was.attempts, was.uncertain, [Queued, Sent]);
    }

    /** Reconnect: certain rows are sent or closed, uncertain ones only asked about. */
    method DispatchNodeCommands(listing: seq<Row>, late: set<string>) returns (inquiries: seq<string>)
      requires forall r :: r in listing ==> r in seen
      modifies this`rows, this`seen, this`marked, this`log
      ensures View() == ApplyAll(old(View()), Plan(listing, late)) && inquiries == Inquiries(listing)
    {
      hide Transmit, ExpireUndelivered;
      ghost var s := View();
      inquiries := [];
      var i := 0;
      while i < |listing|
        invariant 0 <= i <= |listing| && View() == ApplyAll(s, Plan(listing[..i], late)) && inquiries == Inquiries(listing[..i])
        invariant s.seen <= seen
      {
        var command := listing[i];
        assert command in listing && listing[..i + 1][..i] == listing[..i];
        assert Plan(listing[..i], late) + [] == Plan(listing[..i], late) && inquiries + [] == inquiries;
        if command.status != Queued && command.status != Sent {
        } else if command.uncertain {
          inquiries := inquiries + [command.id];
        } else if command.id in late {
          ApplyOneMore(s, Plan(listing[..i], late), ExpireRow(command));
          SeenGrows(View(), command);
          ExpireUndeliveredRow(command);
        } else {
          ApplyOneMore(s, Plan(listing[..i], late), SendRow(command, false));
          SeenGrows(View(), command);
          var _ := SendNodeCommand(command);
        }
        i := i + 1;
      }
      assert listing[..i] == listing;
    }

    /** A node reports on a command; the row was read before and may have moved on. */
    method HandleResult(was: Row, rep: Report, timing: Timing, observationOk: bool)
      modifies this`rows, this`seen, this`marked
      ensures View() == Receive(old(View()), was, rep, timing, observationOk)
      ensures Current(old(View())) && was in old(seen) ==> EventReply(old(View()), View(), ReceiveResult(was, rep, timing, observationOk))
    {
      hide Swap, Promote, Current, EventReply;
      if Current(View()) && was in seen { ReceiveMeans(View(), was, rep, timing, observationOk); }
      if rep.uncertain && was.command != ModelQuery {
        PromoteUncertain(was.id, was.node, Some(rep.result));
        return;
      }
      if was.status.Done? || (was.status == Expired && was.result.Some?) { return; }
      if was.uncertain && was.command != ModelQuery && !rep.uncertain { return; }
      assert (set s | s in [Queued, Sent]) == UNDONE && (set s | s in [Queued, Sent, Expired]) == UNDONE + {Expired};
      var command := was;
      if command.command == ModelQuery && rep.ok && command.reconciles != "" && !observationOk {
        command := command.(status := Done(Failed), result := Some(rep.result));
        var _ := CompareAndSwap(command, was.revision, was.attempts, was.uncertain, [Queued, Sent]);
        return;
      }
      if timing.LateButMadeInWindow? {
        command := command.(result := Some(rep.result), uncertain := rep.uncertain);
        command := command.(status := Outcome(rep.ok));
      } else if timing.Late? {
        command := command.(status := Expired, result := Some(rep.result), uncertain := rep.uncertain);
      } else if rep.uncertain {
        command := command.(status := Sent, uncertain := true, result := Some(rep.result));
      } else if rep.ok {
        command := command.(status := Outcome(true), result := Some(rep.result));
      } else {
        command := command.(status := Outcome(false));
      }
      var _ := CompareAndSwap(command, was.revision, was.attempts, was.uncertain, [Queued, Sent, Expired]);
    }

    /** Resolves an uncertain command from evidence; refuses without changing anything. */
    method SettleUncertain(was: Row, observed: Fields, fingerprint: string, signed: bool) returns (ok: bool)
      modifies this`rows, this`seen, this`marked
      ensures (ok, View()) == Settle(old(View()), was, observed, fingerprint, signed)
      ensures Current(old(View())) && was in old(seen) ==> EventReply(old(View()), View(), SettleRow(was, observed, fingerprint, signed))
    {
      hide Swap, Settlement, Current, EventReply;
      if Current(View()) && was in seen { SettleMeans(View(), was, observed, fingerprint, signed); }
      if was.status.Done? || (!was.uncertain && was.status != Sent) { return false; }
      var v := Settlement(fingerprint, OriginalOf(was, signed), observed);
      if v.None? { return false; }
      var original := was.(result := Some(observed), uncertain := false, authoritative := true, status := Done(v.value));
      assert (set s | s in [Sent]) == {Sent};
      ok := CompareAndSwap(original, was.revision, was.attempts, was.uncertain, [Sent]);
    }
  }

  lemma UndoneOrSame(s: State, was: Row)
    ensures was.status !in UNDONE ==> Transmit(s, was) == (false, s)
  {}

  lemma SeenGrows(s: State, was: Row)
    ensures s.seen <= Send(s, was, false).1.seen && s.seen <= ExpireUndelivered(s, was).seen
  {}
}
