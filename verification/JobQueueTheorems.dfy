/** What the work queue guarantees over every interleaving of submissions, registrations, worker outcomes,
    lease expiries, pauses and cancellations, and every random choice of worker. */
module JobQueueTheorems {
  import opened JobQueueModel
  import opened JobQueueInvariant

  // ---------------------------------------------------------------- leases and calls

  predicate Carries(q: Queue, c: Call, k: Key) {
    c in q.calls && c.key == k && c.token == Tok(q, k)
  }

  /** An item is in flight exactly when some pending worker call carries its current token; that call is unique
      and belongs to the lease owner. */
  lemma InFlightIsOneCall(max: int, events: seq<Event>, k: Key)
    requires k in Execute(max, events).items
    ensures var q := Execute(max, events);
            && (InFlight(q.items[k]) <==> exists c :: Carries(q, c, k))
            && (forall c :: Carries(q, c, k) ==> c == Call(k, q.items[k].owner, Tok(q, k)))
  {
    var q := Execute(max, events);
    ExecuteKeeps(max, events);
    hide Lists, ItemsOk, JobsOk, WorkersOk, LogOk, Execute;
    assert HeldOk(q, k);
    if InFlight(q.items[k]) { assert Carries(q, Call(k, q.items[k].owner, Tok(q, k)), k); }
    forall c | Carries(q, c, k) ensures InFlight(q.items[k]) && c == Call(k, q.items[k].owner, Tok(q, k)) { assert CallOk(q, c); }
  }

  /** At most one outcome per lease counts: a report under the current token ends the lease and leaves no call
      carrying that token; any other report changes no item and no job. */
  lemma OneOutcomePerLease(max: int, events: seq<Event>, c: Call, outcome: Option<string>)
    requires c in Execute(max, events).calls
    ensures var q := Execute(max, events); c.key in q.items && c.key.job in q.jobs
    ensures var q := Execute(max, events); var t := Report(q, c, outcome);
            if c.token == Tok(q, c.key) then !InFlight(t.items[c.key]) && forall d :: !Carries(t, d, c.key)
            else t.items == q.items && t.jobs == q.jobs
  {
    var q := Execute(max, events);
    ExecuteKeeps(max, events);
    hide Execute, Inv;
    CallFacts(q, c);
    if c.token == Tok(q, c.key) {
      FlyingFacts(q, c.key);
      ReportKeeps(q, c, outcome);
      SettledEnds(q.items[c.key], q.jobs[c.key.job], outcome, q.workers.Keys);
      hide SettledItem, SettledJob, Freed, ItemOk, Unfinished;
      var t := Report(q, c, outcome);
      forall d | Carries(t, d, c.key) ensures false { CallFacts(t, d); }
    }
  }

  // ---------------------------------------------------------------- zero-gap dispatch

  /** No queued item of a dispatchable job coexists with a free worker it has not tried. */
  ghost predicate ZeroGap(q: Queue) {
    forall k: Key :: k.job in q.itemOrder && k in q.itemOrder[k.job] ==> !Ready(q, k)
  }

  lemma LeaseClosesGap(q: Queue, k: Key, w: string, other: Key)
    requires k in q.items && k.job in q.jobs && w in q.workers && (other == k || !Ready(q, other))
    ensures !Ready(LeaseItem(q, k, w), other)
  {
    var t := LeaseItem(q, k, w);
    if other != k && other in q.items {
      forall v | v in t.workers && Eligible(t, q.items[other], v) ensures Eligible(q, q.items[other], v) {}
    }
  }

  lemma {:induction false} OfferAllClosesGaps(q: Queue, keys: seq<Key>, pick: map<nat, string>, k: Key)
    requires k in keys
    ensures !Ready(OfferAll(q, keys, pick), k)
  {
    hide LeaseItem, Ready;
    var before, last := OfferAll(q, keys[..|keys| - 1], pick), keys[|keys| - 1];
    if k != last { OfferAllClosesGaps(q, keys[..|keys| - 1], pick, k); }
    OfferCloses(before, last, pick, k);
  }

  lemma OfferCloses(q: Queue, k: Key, pick: map<nat, string>, other: Key)
    requires other == k || !Ready(q, other)
    ensures !Ready(OfferItem(q, k, pick), other)
  {
    hide LeaseItem, SomeEligible;
    if Ready(q, k) { LeaseClosesGap(q, k, Chosen(q, q.items[k], pick), other); }
  }

  lemma DispatchClosesGaps(q: Queue, pick: map<nat, string>)
    requires Inv(q)
    ensures ZeroGap(Dispatch(q, pick))
  {
    ListsOf(q);
    DispatchKeeps(q, pick);
    hide Inv, Lists, Ready, OfferAll;
    AgendaListed(q);
    var t := Dispatch(q, pick);
    forall k: Key | k.job in t.itemOrder && k in t.itemOrder[k.job] ensures !Ready(t, k) {
      OfferAllClosesGaps(q, Agenda(q, q.jobOrder), pick, k);
    }
  }

  /** Fewer queued items, fewer dispatchable jobs, no more headroom: gaps stay closed. */
  ghost predicate Shrinks(q: Queue, t: Queue) {
    && t.workers == q.workers && t.itemOrder == q.itemOrder
    && (forall k :: k in t.items && t.items[k].state == Queued && k.job in t.itemOrder ==> k in q.items && t.items[k] == q.items[k])
    && (forall j :: j in t.jobs && Dispatchable(t.jobs[j].status) && j in t.itemOrder ==> j in q.jobs && Dispatchable(q.jobs[j].status))
  }

  lemma ShrinkKeepsGaps(q: Queue, t: Queue)
    requires ZeroGap(q) && Shrinks(q, t)
    ensures ZeroGap(t)
  {
    forall k: Key | k.job in t.itemOrder && k in t.itemOrder[k.job] ensures !Ready(t, k) {
      assert !Ready(q, k);
      if k in t.items && k in q.items && t.items[k] == q.items[k] { assert SomeEligible(t, t.items[k]) == SomeEligible(q, q.items[k]); }
    }
  }

  lemma CancelItemShrinks(q: Queue, t: Queue, k: Key)
    requires Shrinks(q, t)
    ensures Shrinks(q, CancelItem(t, k))
  {}

  lemma {:induction false} CancelAllShrinks(q: Queue, keys: seq<Key>)
    ensures Shrinks(q, CancelAll(q, keys))
  {
    hide Shrinks;
    if keys == [] {
      ShrinksSelf(q);
    } else {
      CancelAllShrinks(q, keys[..|keys| - 1]);
      CancelItemShrinks(q, CancelAll(q, keys[..|keys| - 1]), keys[|keys| - 1]);
    }
  }

  lemma ShrinksSelf(q: Queue)
    ensures Shrinks(q, q)
  {}

  lemma CancelShrinks(q: Queue, job: string)
    ensures Shrinks(q, CancelStep(q, job))
  {
    hide CancelAll;
    CancelAllShrinks(q, Listed(q, job));
  }

  lemma EnteredShrinks(q: Queue, t: Queue, job: string, keys: seq<Key>, j: Job)
    requires Lists(q) && Entered(q, t, job, keys, j) && t.itemOrder == q.itemOrder
    ensures Shrinks(q, t)
  {
    assert job in q.itemOrder ==> ListOk(q, job);
    hide Lists;
  }

  lemma RejectedShrinks(q: Queue, job: string, inputs: seq<Input>, maxAttempts: int)
    requires Inv(q) && job !in q.jobs && !Admit(q, job, inputs, maxAttempts).0
    ensures Shrinks(q, Admit(q, job, inputs, maxAttempts).1)
  {
    if inputs == [] {
      ShrinksSelf(q);
    } else {
      hide Lists, ItemsOk, CallsOk, Held, JobsOk, WorkersOk, LogOk, Entered, Shrinks, AddItems;
      DefaultPositive(q);
      AdmitEnters(q, job, inputs, maxAttempts);
      EnteredShrinks(q, Admit(q, job, inputs, maxAttempts).1, job, Identities(job, inputs), NewJob(q, |inputs|, maxAttempts));
    }
  }

  lemma DefaultPositive(q: Queue)
    requires Lists(q)
    ensures q.defaultMax >= 1
  {}

  /** Zero-gap dispatch: whenever the lock is free there is no gap. */
  lemma {:induction false} ExecuteClosesGaps(max: int, events: seq<Event>)
    ensures ZeroGap(Execute(max, events))
  {
    if events != [] {
      var q := Execute(max, events[..|events| - 1]);
      ExecuteClosesGaps(max, events[..|events| - 1]);
      ExecuteKeeps(max, events[..|events| - 1]);
      ApplyClosesGaps(q, events[|events| - 1]);
    }
  }

  lemma ApplyClosesGaps(q: Queue, e: Event)
    requires Inv(q) && ZeroGap(q)
    ensures ZeroGap(Apply(q, e))
  {
    hide Inv, ZeroGap, Dispatch, Admit, Enrol, Report, ExpireAll, CancelStep, Shrinks;
    match e
    case Submit(job, inputs, maxAttempts, pick) =>
      if job !in q.jobs {
        var (ok, t) := Admit(q, job, inputs, maxAttempts);
        AdmitKeeps(q, job, inputs, maxAttempts);
        if ok { DispatchClosesGaps(t, pick); } else { RejectedShrinks(q, job, inputs, maxAttempts); ShrinkKeepsGaps(q, t); }
      }
    case Register(w, concurrency, pick) =>
      EnrolKeeps(q, w, concurrency);
      DispatchClosesGaps(Enrol(q, w, concurrency), pick);
    case Begin(c) => BeginShrinks(q, c); ShrinkKeepsGaps(q, BeginStep(q, c));
    case Finish(c, outcome, pick) =>
      if c in q.calls {
        CallFacts(q, c);
        ReportKeeps(q, c, outcome);
        DispatchClosesGaps(Report(q, c, outcome), pick);
      }
    case Reap(keys, pick) =>
      ExpireAllKeeps(q, keys);
      DispatchClosesGaps(ExpireAll(q, keys), pick);
    case Pause(job) => PauseShrinks(q, job); ShrinkKeepsGaps(q, PauseStep(q, job));
    case Cancel(job) => CancelShrinks(q, job); ShrinkKeepsGaps(q, CancelStep(q, job));
  }

  lemma BeginShrinks(q: Queue, c: Call)
    ensures Shrinks(q, BeginStep(q, c))
  {}

  lemma PauseShrinks(q: Queue, job: string)
    ensures Shrinks(q, PauseStep(q, job))
  {}

  // ---------------------------------------------------------------- terminal items

  /** Every item that was terminal is still there, unchanged. */
  ghost predicate Frozen(q: Queue, t: Queue) {
    forall k :: k in q.items && Terminal(q.items[k]) ==> k in t.items && t.items[k] == q.items[k]
  }

  lemma {:induction false} OfferAllFreezes(q: Queue, keys: seq<Key>, pick: map<nat, string>)
    ensures Frozen(q, OfferAll(q, keys, pick))
  {
    hide SomeEligible;
    if keys != [] { OfferAllFreezes(q, keys[..|keys| - 1], pick); }
  }

  lemma {:induction false} ExpireAllFreezes(q: Queue, keys: seq<Key>)
    ensures Frozen(q, ExpireAll(q, keys))
  {
    hide PunishedItem, PunishedJob, Recompute;
    if keys != [] { ExpireAllFreezes(q, keys[..|keys| - 1]); }
  }

  lemma {:induction false} CancelAllFreezes(q: Queue, keys: seq<Key>)
    ensures Frozen(q, CancelAll(q, keys))
  {
    if keys != [] { CancelAllFreezes(q, keys[..|keys| - 1]); }
  }

  lemma ReportFreezes(q: Queue, c: Call, outcome: Option<string>)
    requires Inv(q) && c in q.calls && c.key in q.items && c.key.job in q.jobs
    ensures Frozen(q, Report(q, c, outcome))
  {
    hide Inv, SettledItem, SettledJob, Freed;
    CallFacts(q, c);
  }

  lemma AdmitFreezes(q: Queue, job: string, inputs: seq<Input>, maxAttempts: int)
    ensures Frozen(q, Admit(q, job, inputs, maxAttempts).1)
  {
    AddItemsIs(q.items, Identities(job, inputs));
    hide AddItems;
  }

  lemma ApplyFreezes(q: Queue, e: Event)
    requires Inv(q)
    ensures Frozen(q, Apply(q, e))
  {
    hide Inv, OfferAll, Admit, Report, ExpireAll, CancelAll, Agenda;
    match e
    case Submit(job, inputs, maxAttempts, pick) =>
      var t := Admit(q, job, inputs, maxAttempts).1;
      AdmitFreezes(q, job, inputs, maxAttempts);
      OfferAllFreezes(t, Agenda(t, t.jobOrder), pick);
    case Register(w, concurrency, pick) =>
      var t := Enrol(q, w, concurrency);
      OfferAllFreezes(t, Agenda(t, t.jobOrder), pick);
    case Begin(c) =>
    case Finish(c, outcome, pick) =>
      if c in q.calls {
        CallFacts(q, c);
        ReportFreezes(q, c, outcome);
        var t := Report(q, c, outcome);
        OfferAllFreezes(t, Agenda(t, t.jobOrder), pick);
      }
    case Reap(keys, pick) =>
      ExpireAllFreezes(q, keys);
      var t := ExpireAll(q, keys);
      OfferAllFreezes(t, Agenda(t, t.jobOrder), pick);
    case Pause(job) =>
    case Cancel(job) => CancelAllFreezes(q, Listed(q, job));
  }

  lemma Extended(max: int, events: seq<Event>, e: Event)
    ensures Execute(max, events + [e]) == Apply(Execute(max, events), e)
  {
    assert (events + [e])[..|events|] == events;
  }

  /** A succeeded, failed or cancelled item never changes again, whatever happens afterwards. */
  lemma {:induction false} TerminalForGood(max: int, events: seq<Event>, later: seq<Event>)
    ensures Frozen(Execute(max, events), Execute(max, events + later))
    decreases |later|
  {
    if later == [] {
      assert events + later == events;
    } else {
      var front, e := later[..|later| - 1], later[|later| - 1];
      assert events + later == (events + front) + [e];
      TerminalForGood(max, events, front);
      Extended(max, events + front, e);
      ExecuteKeeps(max, events + front);
      hide Execute, Apply, Inv;
      ApplyFreezes(Execute(max, events + front), e);
    }
  }

  // ---------------------------------------------------------------- job accounts

  /** A submitted job that is still active has an item left to do. */
  ghost predicate Awake(q: Queue) {
    forall job :: job in q.itemOrder && job in q.jobs && Dispatchable(q.jobs[job].status) ==> q.jobs[job].queued + q.jobs[job].running > 0
  }

  lemma {:induction false} OfferAllAwake(q: Queue, keys: seq<Key>, pick: map<nat, string>)
    requires Awake(q)
    ensures Awake(OfferAll(q, keys, pick))
  {
    hide SomeEligible;
    if keys != [] { OfferAllAwake(q, keys[..|keys| - 1], pick); }
  }

  lemma PunishedAwake(x: Item, j: Job, w: string, pool: nat)
    ensures var j' := Recompute(PunishedJob(x, j, w, pool)); Dispatchable(j'.status) ==> j'.queued + j'.running > 0 || j'.queued < 0 || j'.running < 0
  {}

  lemma SettledAwake(x: Item, j: Job, w: string, outcome: Option<string>, pool: nat)
    requires InFlight(x)
    ensures var j' := SettledJob(x, j, w, outcome, pool); Dispatchable(j'.status) ==> j'.queued + j'.running > 0 || j'.queued < 0 || j'.running < 0
  {}

  lemma ReportAwake(q: Queue, c: Call, outcome: Option<string>)
    requires Inv(q) && Awake(q) && c in q.calls && c.key in q.items && c.key.job in q.jobs
    ensures Awake(Report(q, c, outcome))
  {
    hide Inv, SettledJob, SettledItem, Freed;
    CallFacts(q, c);
    ReportKeeps(q, c, outcome);
    Tallies(Report(q, c, outcome));
    if Tok(q, c.key) == c.token { SettledAwake(q.items[c.key], q.jobs[c.key.job], c.worker, outcome, |q.workers|); }
  }

  lemma Tallies(q: Queue)
    requires Inv(q)
    ensures forall job :: job in q.itemOrder ==> job in q.jobs && q.jobs[job].queued >= 0 && q.jobs[job].running >= 0
  {}

  lemma {:induction false} ExpireAllAwake(q: Queue, keys: seq<Key>)
    requires Inv(q) && Awake(q)
    ensures Awake(ExpireAll(q, keys))
  {
    if keys != [] {
      hide Inv, Awake, ExpireItem;
      ExpireAllAwake(q, keys[..|keys| - 1]);
      ExpireAllKeeps(q, keys);
      ExpireAllKeeps(q, keys[..|keys| - 1]);
      var before, k := ExpireAll(q, keys[..|keys| - 1]), keys[|keys| - 1];
      if Reapable(before, k) { ExpireAwake(before, k); }
    }
  }

  lemma ExpireAwake(q: Queue, k: Key)
    requires Awake(q) && k in q.items && k.job in q.jobs && Inv(ExpireItem(q, k))
    ensures Awake(ExpireItem(q, k))
  {
    Tallies(ExpireItem(q, k));
    hide Inv, PunishedItem;
    PunishedAwake(q.items[k], q.jobs[k.job], q.items[k].owner, |q.workers|);
    hide PunishedJob, Recompute;
  }

  lemma CancelAwake(q: Queue, job: string)
    requires Inv(q) && Awake(q)
    ensures Awake(CancelStep(q, job))
  {
    hide Inv;
    if job in q.jobs && !Over(q.jobs[job].status) && job in q.itemOrder {
      ListKeys(q, job);
      CancelAllKeeps(q, job, Listed(q, job));
    }
    hide CancelAll;
  }

  lemma AdmitAwake(q: Queue, job: string, inputs: seq<Input>, maxAttempts: int)
    requires Awake(q)
    ensures Awake(Admit(q, job, inputs, maxAttempts).1)
  {
    hide AddItems;
  }

  lemma ApplyAwake(q: Queue, e: Event)
    requires Inv(q) && Awake(q)
    ensures Awake(Apply(q, e))
  {
    hide Inv, OfferAll, Admit, Report, ExpireAll, CancelStep, Agenda;
    match e
    case Submit(job, inputs, maxAttempts, pick) =>
      var t := Admit(q, job, inputs, maxAttempts).1;
      AdmitAwake(q, job, inputs, maxAttempts);
      OfferAllAwake(t, Agenda(t, t.jobOrder), pick);
    case Register(w, concurrency, pick) =>
      var t := Enrol(q, w, concurrency);
      OfferAllAwake(t, Agenda(t, t.jobOrder), pick);
    case Begin(c) =>
    case Finish(c, outcome, pick) =>
      if c in q.calls {
        CallFacts(q, c);
        ReportAwake(q, c, outcome);
        var t := Report(q, c, outcome);
        OfferAllAwake(t, Agenda(t, t.jobOrder), pick);
      }
    case Reap(keys, pick) =>
      ExpireAllAwake(q, keys);
      var t := ExpireAll(q, keys);
      OfferAllAwake(t, Agenda(t, t.jobOrder), pick);
    case Pause(job) =>
    case Cancel(job) => CancelAwake(q, job);
  }

  lemma {:induction false} ExecuteAwake(max: int, events: seq<Event>)
    ensures Awake(Execute(max, events))
  {
    if events != [] {
      ExecuteAwake(max, events[..|events| - 1]);
      ExecuteKeeps(max, events[..|events| - 1]);
      hide Inv, Awake, Apply;
      ApplyAwake(Execute(max, events[..|events| - 1]), events[|events| - 1]);
    }
  }

  predicate Done(status: Status) {
    status == Completed || status == CompletedWithErrors
  }

  /** The account of one submitted job. */
  ghost predicate Balanced(q: Queue, job: string)
    requires job in q.itemOrder && job in q.jobs
  {
    var j, keys := q.jobs[job], q.itemOrder[job];
    && Tallied(j, q.items, job) && j.total == |keys|
    && (forall k :: k in keys ==> k in q.items)
    && (Done(j.status) ==> forall k :: k in keys ==> Terminal(q.items[k]))
    && (Dispatchable(j.status) ==> exists k :: k in keys && !Terminal(q.items[k]))
    && (Done(j.status) ==> (j.status == CompletedWithErrors <==> exists k :: k in keys && q.items[k].state == Failed))
  }

  lemma KindsShow(q: Queue, job: string)
    requires job in q.itemOrder && ListOk(q, job) && JobOk(q.jobs[job], q.items, job)
    ensures var j, keys := q.jobs[job], q.itemOrder[job];
            && (j.queued + j.running == 0 ==> forall k :: k in keys ==> Terminal(q.items[k]))
            && (j.queued + j.running > 0 ==> exists k :: k in keys && !Terminal(q.items[k]))
            && (j.failed > 0 <==> exists k :: k in keys && q.items[k].state == Failed)
  {
    var j, keys := q.jobs[job], q.itemOrder[job];
    var waiting, flying, bad := Of(q.items, job, Waiting), Of(q.items, job, Flying), Of(q.items, job, Bad);
    if j.queued > 0 { var k :| k in waiting; assert k in keys; }
    if j.running > 0 { var k :| k in flying; assert k in keys; }
    if j.failed > 0 { var k :| k in bad; assert k in keys; }
    if j.queued + j.running == 0 {
      assert waiting == {} && flying == {};
      forall k | k in keys ensures Terminal(q.items[k]) { assert k !in waiting && k !in flying; }
    }
    if k :| k in keys && q.items[k].state == Failed { assert k in bad; }
  }

  /** For every submitted job the counters are the counts of its items and sum to its total; it is marked
      completed exactly when every item is terminal (unless paused or cancelled), with errors exactly when
      some item failed. */
  lemma JobsBalance(max: int, events: seq<Event>, job: string)
    requires job in Execute(max, events).itemOrder
    ensures var q := Execute(max, events); job in q.jobs && Balanced(q, job)
  {
    var q := Execute(max, events);
    ExecuteKeeps(max, events);
    ExecuteAwake(max, events);
    JobFacts(q, job);
    hide Inv, Execute, Of;
    KindsShow(q, job);
  }

  lemma JobFacts(q: Queue, job: string)
    requires Inv(q) && job in q.itemOrder
    ensures ListOk(q, job) && JobOk(q.jobs[job], q.items, job) && q.jobs[job].total == |q.itemOrder[job]|
  {
    hide ItemsOk, CallsOk, Held, WorkersOk, LogOk, Tallied;
  }

  // ---------------------------------------------------------------- slots

  ghost function CallsTo(q: Queue, w: string): set<Call> {
    set c | c in q.calls && c.worker == w
  }

  /** Pending calls to a worker whose lease has ended: their token is no longer the item's. */
  ghost function StaleCalls(q: Queue, w: string): set<Call> {
    set c | c in q.calls && c.worker == w && c.token != Tok(q, c.key)
  }

  ghost function LiveCalls(q: Queue, w: string): set<Call> {
    set c | c in q.calls && c.worker == w && c.token == Tok(q, c.key)
  }

  /** Slot accounting never leaks: the count stays within the slots and below the items in flight on the worker. The
      calls pending on a worker are one for each item in flight on it and those whose lease has ended. Without expiry
      or re-registration there are none of those and the count is exact, so calls never exceed slots. */
  lemma SlotsNeverLeak(max: int, events: seq<Event>, w: string)
    requires w in Execute(max, events).workers
    ensures var q := Execute(max, events); var s := q.workers[w];
            && 0 <= s.active <= s.slots && s.active <= |OwnedBy(q.items, w)|
            && |CallsTo(q, w)| == |OwnedBy(q.items, w)| + |StaleCalls(q, w)|
            && (q.calm ==> s.active == |OwnedBy(q.items, w)| && StaleCalls(q, w) == {})
  {
    var q := Execute(max, events);
    ExecuteKeeps(max, events);
    hide Execute, Lists, ItemsOk, JobsOk, LogOk, OwnedBy;
    LiveCount(q, w);
    CallsSplit(q, w);
    if q.calm { CalmCalls(q, w); }
    hide CallsOk, Held, CallsTo, StaleCalls, LiveCalls;
  }

  lemma CallsSplit(q: Queue, w: string)
    ensures |CallsTo(q, w)| == |LiveCalls(q, w)| + |StaleCalls(q, w)|
  {
    assert CallsTo(q, w) == LiveCalls(q, w) + StaleCalls(q, w) && LiveCalls(q, w) !! StaleCalls(q, w);
  }

  lemma LiveCount(q: Queue, w: string)
    requires CallsOk(q) && Held(q)
    ensures |OwnedBy(q.items, w)| == |LiveCalls(q, w)|
  {
    var calls, owned := LiveCalls(q, w), OwnedBy(q.items, w);
    forall c | c in calls ensures c.key in owned && c == Call(c.key, w, Tok(q, c.key)) { assert CallOk(q, c); }
    forall k | k in owned ensures Call(k, w, Tok(q, k)) in calls { assert HeldOk(q, k); }
    hide CallsOk, Held, OwnedBy, LiveCalls;
    SameCount(q, calls, owned, w);
  }

  lemma CalmCalls(q: Queue, w: string)
    requires CallsOk(q) && q.calm
    ensures StaleCalls(q, w) == {}
  {
    forall c | c in q.calls ensures c.token == Tok(q, c.key) { assert CallOk(q, c); }
  }

  lemma {:induction false} SameCount(q: Queue, calls: set<Call>, owned: set<Key>, w: string)
    requires forall c :: c in calls ==> c.key in owned && c == Call(c.key, w, Tok(q, c.key))
    requires forall k :: k in owned ==> Call(k, w, Tok(q, k)) in calls
    ensures |owned| == |calls|
  {
    if k :| k in owned {
      SameCount(q, calls - {Call(k, w, Tok(q, k))}, owned - {k}, w);
    } else {
      assert calls == {};
    }
  }

  /** One worker with one slot, one job of two items; the lease of the first expires while its call hangs. */
  const HUNG := [Register("w", None, map[]), Submit("j", [Input("a", ""), Input("b", "")], 1, map[]), Reap([Key("j", "a", "v1")], map[])]

  lemma OnlyOneEligible(q: Queue, x: Item)
    requires q.workers.Keys == {"w"}
    ensures SomeEligible(q, x) <==> Eligible(q, x, "w")
    ensures forall pick: map<nat, string> :: SomeEligible(q, x) ==> Chosen(q, x, pick) == "w"
  {
    if SomeEligible(q, x) {
      forall pick: map<nat, string> ensures Chosen(q, x, pick) == "w" {
        assert Chosen(q, x, pick) in q.workers.Keys;
      }
    }
  }

  const KA := Key("j", "a", "v1")
  const KB := Key("j", "b", "v1")

  lemma TwoOffers(q: Queue)
    ensures OfferAll(q, [KA, KB], map[]) == OfferItem(OfferItem(q, KA, map[]), KB, map[])
  {
    hide OfferItem;
    assert [KA, KB][..1] == [KA];
    assert [KA][..0] == [];
    assert OfferAll(q, [KA], map[]) == OfferItem(OfferAll(q, [], map[]), KA, map[]);
  }

  /** The queue once the worker is known, the job admitted, and its first item leased. */
  function HungLeased(): Queue {
    Queue(1, map["j" := Job(Active, 1, 2, 1, 1, 0, 0)], ["j"],
          map[KA := Item(Leased, "w", 1, [], ""), KB := FRESH], map["j" := [KA, KB]], map["w" := Slot(1, 1)],
          map[KA := 1], map[Call(KA, "w", 1) := false], [Lease(KA, "w")], 0, true)
  }

  const HUNG_ADMITTED :=
    Queue(1, map["j" := Job(Active, 1, 2, 2, 0, 0, 0)], ["j"], map[KA := FRESH, KB := FRESH], map["j" := [KA, KB]],
          map["w" := Slot(1, 0)], map[], map[], [], 0, true)

  lemma HungAdmits()
    ensures Admit(Enrol(Init(1), "w", None), "j", HUNG[1].inputs, 1) == (true, HUNG_ADMITTED)
  {
    var none: map<Key, Item> := map[];
    assert Identities("j", HUNG[1].inputs) == [KA, KB];
    assert [KA, KB][1..] == [KB] && [KB][1..] == [];
    assert none[KA := FRESH][KB := FRESH] == map[KA := FRESH, KB := FRESH];
    assert AddItems(none[KA := FRESH], [KB]) == (true, none[KA := FRESH][KB := FRESH]);
    assert AddItems(none, [KA, KB]) == AddItems(none[KA := FRESH], [KB]);
    var q1 := Enrol(Init(1), "w", None);
    var t := Admit(q1, "j", HUNG[1].inputs, 1).1;
    assert q1.workers == map["w" := Slot(1, 0)];
    assert t.jobs == map["j" := Job(Active, 1, 2, 2, 0, 0, 0)];
    assert t.jobOrder == ["j"] && t.itemOrder == map["j" := [KA, KB]];
  }

  lemma HungDispatches()
    ensures Dispatch(HUNG_ADMITTED, map[]) == HungLeased()
  {
    assert Agenda(HUNG_ADMITTED, ["j"]) == [KA, KB];
    TwoOffers(HUNG_ADMITTED);
    HungOffersFirst();
    HungOffersSecond();
    hide OfferItem, OfferAll, Agenda, HungLeased;
  }

  lemma HungOffersFirst()
    ensures OfferItem(HUNG_ADMITTED, KA, map[]) == HungLeased()
  {
    OnlyOneEligible(HUNG_ADMITTED, FRESH);
    hide SomeEligible, Chosen;
  }

  lemma HungOffersSecond()
    ensures OfferItem(HungLeased(), KB, map[]) == HungLeased()
  {
    OnlyOneEligible(HungLeased(), FRESH);
    hide SomeEligible, Chosen;
  }

  lemma HungStarts()
    ensures Execute(1, HUNG[..2]) == HungLeased()
  {
    var first, second := HUNG[0], HUNG[1];
    var q1 := Enrol(Init(1), "w", None);
    assert Execute(1, [first]) == q1 by {
      Extended(1, [], first);
      assert [] + [first] == [first];
      assert Agenda(q1, []) == [];
    }
    HungAdmits();
    HungDispatches();
    assert HUNG[..2] == [first] + [second];
    hide Admit, Dispatch, Execute;
    Extended(1, [first], second);
  }

  /** One slot free again and the second item still queued. */
  predicate OneLeft(t: Queue) {
    && t.jobOrder == ["j"] && t.itemOrder == map["j" := [KA, KB]] && t.items.Keys == {KA, KB} && t.jobs.Keys == {"j"}
    && t.jobs["j"].status == Active && t.items[KA].state != Queued && t.items[KB] == FRESH && t.workers == map["w" := Slot(1, 0)]
  }

  lemma RestOffered(t: Queue)
    requires OneLeft(t)
    ensures Dispatch(t, map[]) == LeaseItem(t, KB, "w")
  {
    assert Agenda(t, t.jobOrder) == [KA, KB] by { hide OfferAll, OfferItem; OneAgenda(t); }
    assert OfferItem(t, KA, map[]) == t;
    TwoOffers(t);
    SecondOffered(t);
    hide OfferItem, OfferAll, Agenda, LeaseItem;
  }

  lemma OneAgenda(t: Queue)
    requires t.jobOrder == ["j"] && t.itemOrder == map["j" := [KA, KB]]
    ensures Agenda(t, t.jobOrder) == [KA, KB]
  {
    assert ["j"][..0] == [];
    assert Agenda(t, []) + [KA, KB] == [KA, KB];
  }

  lemma SecondOffered(t: Queue)
    requires OneLeft(t)
    ensures OfferItem(t, KB, map[]) == LeaseItem(t, KB, "w")
  {
    OnlyOneEligible(t, FRESH);
    hide SomeEligible, Chosen;
  }

  /** The lease of the first item has expired; its call has not returned. */
  function HungExpired(): Queue {
    Queue(1, map["j" := Job(Active, 1, 2, 1, 0, 0, 1)], ["j"],
          map[KA := Item(Failed, "w", 1, ["w"], ""), KB := FRESH], map["j" := [KA, KB]], map["w" := Slot(1, 0)],
          map[KA := 2], map[Call(KA, "w", 1) := false], [Lease(KA, "w")], 0, false)
  }

  lemma HungExpires()
    ensures ExpireAll(HungLeased(), [KA]) == HungExpired()
  {
    assert [KA][..0] == [];
    assert ExpireAll(HungLeased(), []) == HungLeased();
    assert WithTried([], "w") == ["w"];
    assert HungLeased().workers.Keys == {"w"};
    var t := ExpireItem(HungLeased(), KA);
    assert t.items == HungExpired().items;
    assert t.jobs == HungExpired().jobs && t.workers == HungExpired().workers && t.tok == HungExpired().tok;
  }

  lemma HungEnds()
    ensures Execute(1, HUNG) == LeaseItem(HungExpired(), KB, "w")
  {
    hide Dispatch, ExpireAll, Execute, LeaseItem, HungLeased, HungExpired;
    HungStarts();
    HungExpires();
    assert OneLeft(HungExpired()) by { HungIsOneLeft(); }
    RestOffered(HungExpired());
    assert HUNG == HUNG[..2] + [HUNG[2]];
    Extended(1, HUNG[..2], HUNG[2]);
  }

  lemma HungIsOneLeft()
    ensures OneLeft(HungExpired()) && OneLeft(Enrol(HungLeased(), "w", None))
  {}

  /** A worker with one slot and two pending calls. */
  lemma TwoCalls(t: Queue)
    requires OneLeft(t) && Call(KA, "w", 1) in t.calls && Tok(t, KB) == 0
    ensures var q := LeaseItem(t, KB, "w"); "w" in q.workers && |CallsTo(q, "w")| > q.workers["w"].slots
  {
    var q := LeaseItem(t, KB, "w");
    SubsetFits({Call(KA, "w", 1), Call(KB, "w", 1)}, CallsTo(q, "w"));
  }

  /** The calls of a worker can exceed its slots once a lease expired: the reaper frees the slot of a call that is still
      pending. */
  lemma ExpiryOvercommits()
    ensures var q := Execute(1, HUNG); "w" in q.workers && |CallsTo(q, "w")| > q.workers["w"].slots
  {
    hide Execute, LeaseItem, CallsTo;
    HungEnds();
    HungIsOneLeft();
    TwoCalls(HungExpired());
  }

  /** The same worker and job; the worker registers again while its first call is pending. */
  const REJOINED := HUNG[..2] + [Register("w", None, map[])]

  /** They can also exceed them once a worker registered again: its count starts anew. */
  lemma RejoiningOvercommits()
    ensures var q := Execute(1, REJOINED); "w" in q.workers && |CallsTo(q, "w")| > q.workers["w"].slots
  {
    hide Execute, LeaseItem, CallsTo, HungLeased, Dispatch, Enrol;
    HungStarts();
    HungIsOneLeft();
    RestOffered(Enrol(HungLeased(), "w", None));
    Extended(1, HUNG[..2], Register("w", None, map[]));
    RejoinedKeeps();
    TwoCalls(Enrol(HungLeased(), "w", None));
  }

  lemma RejoinedKeeps()
    ensures var t := Enrol(HungLeased(), "w", None); Call(KA, "w", 1) in t.calls && Tok(t, KB) == 0
  {}

  // ---------------------------------------------------------------- attempts

  /** The attempts are the workers tried, and one more exactly when the last lease, to the owner, did not end in
      failure or expiry: always in flight or after success, never while queued or failed, and for a cancelled item
      according to the lease it was cancelled under. */
  predicate AttemptsExact(x: Item) {
    && NoDup(x.tried)
    && (x.attempt == |x.tried| || x.attempt == |x.tried| + 1)
    && (x.attempt == |x.tried| + 1 <==> x.attempt > 0 && x.owner !in x.tried)
    && (InFlight(x) || x.state == Success ==> x.attempt == |x.tried| + 1)
    && (x.state == Queued || x.state == Failed ==> x.attempt == |x.tried|)
  }

  lemma TriedFit(x: Item, max: int, pool: set<string>)
    requires ItemOk(x, max, pool)
    ensures x.attempt <= |pool|
  {
    var used := (set w | w in x.tried) + if Outstanding(x) then {x.owner} else {};
    NoDupCount(x.tried);
    assert used <= pool;
    SubsetFits(used, pool);
  }

  lemma SubsetFits<T>(a: set<T>, b: set<T>)
    requires a <= b
    ensures |a| <= |b|
  {
    assert b == a + (b - a);
  }

  lemma UntriedWorker(x: Item, max: int, pool: set<string>)
    requires ItemOk(x, max, pool) && x.state == Queued && pool != {}
    ensures exists w :: w in pool && w !in x.tried
  {
    var tried := set w | w in x.tried;
    NoDupCount(x.tried);
    if pool <= tried { SubsetFits(pool, tried); }
    var w :| w in pool && w !in tried;
  }

  /** Each item is leased at most once per worker and at most `maxAttempts` times; leases and expiries together
      are bounded; every lease is pending or reported; a queued item has an untried worker if any exists. */
  lemma LeasesAreBounded(max: int, events: seq<Event>, k: Key)
    requires k in Execute(max, events).items
    ensures var q := Execute(max, events); var x := q.items[k];
            && k.job in q.jobs && NoDup(q.log) && CountFor(q.log, k) == x.attempt && (x.attempt > 0 ==> LastTo(q.log, k) == x.owner)
            && x.attempt <= q.jobs[k.job].maxAttempts && x.attempt <= |q.workers|
            && AttemptsExact(x) && Tok(q, k) <= 2 * q.jobs[k.job].maxAttempts
            && |q.calls| + q.finished == |q.log|
            && (x.state == Queued && q.workers != map[] ==> exists w :: w in q.workers.Keys && w !in x.tried)
  {
    var q := Execute(max, events);
    ExecuteKeeps(max, events);
    hide Execute, Lists, CallsOk, Held, JobsOk, WorkersOk;
    var x, cap := q.items[k], q.jobs[k.job].maxAttempts;
    assert CountOk(q, k);
    TriedFit(x, cap, q.workers.Keys);
    if x.state == Queued && q.workers != map[] {
      assert q.workers.Keys != {};
      UntriedWorker(x, cap, q.workers.Keys);
    }
    hide ItemsOk;
  }
}
