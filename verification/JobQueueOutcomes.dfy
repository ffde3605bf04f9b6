/** What each operation of the work queue does to an item, a job and a worker, and what follows over runs: which
    outcome an item ends with, and that a stopped job is never leased. */
module JobQueueOutcomes {
  import opened JobQueueModel
  import opened JobQueueInvariant
  import opened JobQueueTheorems

  // ---------------------------------------------------------------- one report

  /** Some registered worker has not been tried. */
  ghost predicate Untried(q: Queue, tried: seq<string>) {
    exists w :: w in q.workers && w !in tried
  }

  /** A lease to `w` ended without a result: the worker joins the tried list, and the item waits again exactly when
      another worker and another attempt remain. */
  ghost predicate Punished(q: Queue, x: Item, j: Job, y: Item, j': Job, w: string) {
    var again := Untried(q, x.tried + [w]) && x.attempt < j.maxAttempts;
    && y == x.(tried := x.tried + [w], state := if again then Queued else Failed)
    && j'.queued == j.queued + (if again then 1 else 0) && j'.failed == j.failed + (if again then 0 else 1)
    && j'.running == j.running - 1 && j'.success == j.success && SameTerms(j, j')
  }

  predicate SameTerms(j: Job, j': Job) {
    j'.total == j.total && j'.maxAttempts == j.maxAttempts
  }

  /** A job's status after an item of it ended: unchanged while anything is left or it was stopped, and otherwise
      completed, with errors exactly if something failed. */
  predicate StatusFollows(j: Job, j': Job) {
    if j.status == Aborted || j.status == Paused || j'.queued > 0 || j'.running > 0 then j'.status == j.status
    else j'.status == if j'.failed > 0 then CompletedWithErrors else Completed
  }

  /** What a report under the current token makes of its item and job: a result is success with that result, an error
      punishes, and under a cancelled job either is dropped for display only. */
  ghost predicate Settles(q: Queue, x: Item, j: Job, y: Item, j': Job, w: string, outcome: Option<string>) {
    if j.status == Aborted then y == x.(state := Cancelled) && j' == j.(running := j.running - 1)
    else
      && StatusFollows(j, j')
      && (if outcome.Some?
          then && y == x.(state := Success, result := outcome.value)
               && j'.success == j.success + 1 && j'.running == j.running - 1 && j'.queued == j.queued && j'.failed == j.failed && SameTerms(j, j')
          else Punished(q, x, j, y, j', w))
  }

  /** The slot of the worker is freed, no other slot is touched. */
  predicate FreesSlot(before: map<string, Slot>, after: map<string, Slot>, w: string) {
    && after.Keys == before.Keys
    && (forall v :: v in before && v != w ==> after[v] == before[v])
    && (w in before ==> after[w] == before[w].(active := if before[w].active > 0 then before[w].active - 1 else before[w].active))
  }

  ghost predicate ReportReply(q: Queue, t: Queue, c: Call, outcome: Option<string>)
    requires c.key in q.items && c.key.job in q.jobs
  {
    && t.calls == q.calls - {c} && t.finished == q.finished + 1 && t.tok == q.tok && t.log == q.log && FreesSlot(q.workers, t.workers, c.worker)
    && (if c.token == Tok(q, c.key)
        then && c.key in t.items && c.key.job in t.jobs
             && t.items == q.items[c.key := t.items[c.key]] && t.jobs == q.jobs[c.key.job := t.jobs[c.key.job]]
             && Settles(q, q.items[c.key], q.jobs[c.key.job], t.items[c.key], t.jobs[c.key.job], c.worker, outcome)
        else t.items == q.items && t.jobs == q.jobs)
  }

  lemma TriedAll(q: Queue, tried: seq<string>)
    requires NoDup(tried) && forall w :: w in tried ==> w in q.workers
    ensures |tried| >= |q.workers| <==> !Untried(q, tried)
  {
    var used := set w | w in tried;
    NoDupCount(tried);
    assert used <= q.workers.Keys && |q.workers| == |q.workers.Keys|;
    assert |q.workers.Keys - used| == |q.workers.Keys| - |used|;
    if !Untried(q, tried) {
      assert q.workers.Keys <= used;
      SubsetFits(q.workers.Keys, used);
    }
  }

  lemma PunishMeans(q: Queue, x: Item, j: Job)
    requires ItemOk(x, j.maxAttempts, q.workers.Keys) && InFlight(x)
    ensures Punished(q, x, j, PunishedItem(x, j, x.owner, |q.workers|), PunishedJob(x, j, x.owner, |q.workers|), x.owner)
  {
    TriedAll(q, x.tried + [x.owner]);
    assert |q.workers| > 0 by { assert x.owner in q.workers.Keys; }
  }

  lemma RecomputeFollows(j: Job, j': Job)
    requires j'.status == j.status
    ensures StatusFollows(j, Recompute(j')) && Recompute(j') == j'.(status := Recompute(j').status)
  {}

  lemma SettleMeans(q: Queue, x: Item, j: Job, outcome: Option<string>)
    requires ItemOk(x, j.maxAttempts, q.workers.Keys) && InFlight(x)
    ensures Settles(q, x, j, SettledItem(x, j, x.owner, outcome, |q.workers|), SettledJob(x, j, x.owner, outcome, |q.workers|), x.owner, outcome)
  {
    PunishMeans(q, x, j);
    RecomputeFollows(j, j.(running := j.running - 1, success := j.success + 1));
    RecomputeFollows(j, PunishedJob(x, j, x.owner, |q.workers|));
    hide ItemOk, Recompute, PunishedItem, StatusFollows, Untried;
  }

  lemma ReportMeans(q: Queue, c: Call, outcome: Option<string>)
    requires Inv(q) && c in q.calls
    ensures c.key in q.items && c.key.job in q.jobs && ReportReply(q, Report(q, c, outcome), c, outcome)
  {
    hide Inv, SettledItem, SettledJob, Settles;
    CallFacts(q, c);
    if c.token == Tok(q, c.key) {
      FlyingFacts(q, c.key);
      SettleMeans(q, q.items[c.key], q.jobs[c.key.job], outcome);
    }
  }

  // ---------------------------------------------------------------- one expiry

  /** An expired lease frees the slot of its owner, outdates the token of its call, and punishes the owner. */
  ghost predicate ExpiryReply(q: Queue, t: Queue, k: Key)
    requires k in q.items && k.job in q.jobs
  {
    var x, j := q.items[k], q.jobs[k.job];
    && k in t.items && k.job in t.jobs && t.items == q.items[k := t.items[k]] && t.jobs == q.jobs[k.job := t.jobs[k.job]]
    && Punished(q, x, j, t.items[k], t.jobs[k.job], x.owner) && StatusFollows(j, t.jobs[k.job])
    && FreesSlot(q.workers, t.workers, x.owner) && t.tok == q.tok[k := Tok(q, k) + 1] && t.calls == q.calls && t.log == q.log
  }

  lemma ExpiryMeans(q: Queue, k: Key)
    requires Inv(q) && k in q.items && InFlight(q.items[k])
    ensures k.job in q.jobs && ExpiryReply(q, ExpireItem(q, k), k)
  {
    hide Inv, PunishedItem, Recompute, StatusFollows, Untried;
    FlyingFacts(q, k);
    var x, j := q.items[k], q.jobs[k.job];
    PunishMeans(q, x, j);
    RecomputeFollows(j, PunishedJob(x, j, x.owner, |q.workers|));
  }

  // ---------------------------------------------------------------- which outcome an item ends with

  /** Event `i` is the report, under the current token and for a job that is not cancelled, of result `r` for `k`. */
  ghost predicate ReportedAt(max: int, events: seq<Event>, i: int, k: Key, r: string) {
    && 0 <= i < |events| && events[i].Finish? && events[i].c.key == k && events[i].outcome == Some(r)
    && var q := Execute(max, events[..i]); var c := events[i].c;
       c in q.calls && q.calls[c] && c.token == Tok(q, k) && k in q.items && k.job in q.jobs && q.jobs[k.job].status != Aborted
  }

  /** Items that succeed, or already had. */
  ghost predicate Unsuccessful(q: Queue, t: Queue, but: set<Key>) {
    forall k :: k in t.items && t.items[k].state == Success && k !in but ==> k in q.items && q.items[k] == t.items[k]
  }

  lemma {:induction false} OfferAllSame(q: Queue, keys: seq<Key>, pick: map<nat, string>)
    ensures Unsuccessful(q, OfferAll(q, keys, pick), {})
  {
    hide SomeEligible;
    if keys != [] { OfferAllSame(q, keys[..|keys| - 1], pick); }
  }

  lemma DispatchSame(q: Queue, t: Queue, but: set<Key>, pick: map<nat, string>)
    requires Unsuccessful(q, t, but)
    ensures Unsuccessful(q, Dispatch(t, pick), but)
  {
    OfferAllSame(t, Agenda(t, t.jobOrder), pick);
    hide OfferAll, Agenda;
  }

  lemma {:induction false} ExpireAllSame(q: Queue, keys: seq<Key>)
    ensures Unsuccessful(q, ExpireAll(q, keys), {})
  {
    hide GivesUp, PunishedJob, Recompute;
    if keys != [] { ExpireAllSame(q, keys[..|keys| - 1]); }
  }

  lemma {:induction false} CancelAllSame(q: Queue, keys: seq<Key>)
    ensures Unsuccessful(q, CancelAll(q, keys), {})
  {
    if keys != [] { CancelAllSame(q, keys[..|keys| - 1]); }
  }

  lemma AdmitSame(q: Queue, job: string, inputs: seq<Input>, maxAttempts: int)
    ensures Unsuccessful(q, Admit(q, job, inputs, maxAttempts).1, {})
  {
    AddItemsIs(q.items, Identities(job, inputs));
    hide AddItems;
  }

  /** A successful item that the event did not just report was there before. */
  lemma ApplySame(q: Queue, e: Event)
    ensures Unsuccessful(q, Apply(q, e), if e.Finish? then {e.c.key} else {})
  {
    hide Dispatch, Admit, ExpireAll, CancelAll, Unsuccessful;
    SelfSame(q);
    match e
    case Submit(job, inputs, maxAttempts, pick) =>
      AdmitSame(q, job, inputs, maxAttempts);
      DispatchSame(q, Admit(q, job, inputs, maxAttempts).1, {}, pick);
    case Register(w, concurrency, pick) =>
      ItemsSame(q, q, Enrol(q, w, concurrency));
      DispatchSame(q, Enrol(q, w, concurrency), {}, pick);
    case Begin(c) => BeginSame(q, c);
    case Finish(c, outcome, pick) => FinishSame(q, c, outcome, pick);
    case Reap(keys, pick) =>
      ExpireAllSame(q, keys);
      DispatchSame(q, ExpireAll(q, keys), {}, pick);
    case Pause(job) => ItemsSame(q, q, PauseStep(q, job));
    case Cancel(job) =>
      CancelAllSame(q, Listed(q, job));
      ItemsSame(q, CancelAll(q, Listed(q, job)), CancelStep(q, job));
      ItemsSame(q, q, CancelStep(q, job));
  }

  lemma SelfSame(q: Queue)
    ensures Unsuccessful(q, q, {}) && forall but: set<Key> :: Unsuccessful(q, q, but)
  {}

  lemma ItemsSame(q: Queue, t: Queue, u: Queue)
    ensures Unsuccessful(q, t, {}) && u.items == t.items ==> Unsuccessful(q, u, {})
  {}

  lemma BeginSame(q: Queue, c: Call)
    ensures Unsuccessful(q, BeginStep(q, c), {})
  {}

  lemma FinishSame(q: Queue, c: Call, outcome: Option<string>, pick: map<nat, string>)
    ensures Unsuccessful(q, FinishStep(q, c, outcome, pick), {c.key})
  {
    hide Dispatch, SettledItem, SettledJob, Freed;
    if c.key in q.items && c.key.job in q.jobs { DispatchSame(q, Report(q, c, outcome), {c.key}, pick); }
  }

  /** Dispatch leaves an item that is not waiting as it is. */
  lemma {:induction false} OfferAllKeeps(q: Queue, keys: seq<Key>, pick: map<nat, string>, k: Key)
    requires k in q.items && q.items[k].state != Queued
    ensures var t := OfferAll(q, keys, pick); k in t.items && t.items[k] == q.items[k]
  {
    hide SomeEligible;
    if keys != [] { OfferAllKeeps(q, keys[..|keys| - 1], pick, k); }
  }

  /** A report under the current token, dispatch included: success with the reported result exactly on a result for a job
      that is not cancelled; on an error the worker is tried, and the item is given up, waiting, or already leased to
      another. */
  ghost predicate FinishReply(q: Queue, t: Queue, c: Call, outcome: Option<string>) {
    && c.key in q.items && c.key.job in q.jobs && c.key in t.items
    && (t.items[c.key].state == Success <==> q.jobs[c.key.job].status != Aborted && outcome.Some?)
    && (t.items[c.key].state == Success ==> t.items[c.key] == q.items[c.key].(state := Success, result := outcome.value))
    && (q.jobs[c.key.job].status == Aborted ==> t.items[c.key].state == Cancelled)
    && (q.jobs[c.key.job].status != Aborted && outcome.None? ==> t.items[c.key].tried == q.items[c.key].tried + [c.worker])
  }

  lemma FinishMeans(q: Queue, c: Call, outcome: Option<string>, pick: map<nat, string>)
    requires Inv(q) && c in q.calls && c.token == Tok(q, c.key)
    ensures FinishReply(q, FinishStep(q, c, outcome, pick), c, outcome)
  {
    hide Inv, Report, OfferAll, Agenda;
    ReportMeans(q, c, outcome);
    var t := Report(q, c, outcome);
    if t.items[c.key].state != Queued { OfferAllKeeps(t, Agenda(t, t.jobOrder), pick, c.key); }
    OfferAllSame(t, Agenda(t, t.jobOrder), pick);
    OfferAllNames(t, Agenda(t, t.jobOrder), pick);
    OfferAllTried(t, Agenda(t, t.jobOrder), pick, c.key);
  }

  lemma {:induction false} OfferAllTried(q: Queue, keys: seq<Key>, pick: map<nat, string>, k: Key)
    requires k in q.items
    ensures var t := OfferAll(q, keys, pick); k in t.items && t.items[k].tried == q.items[k].tried
  {
    hide SomeEligible;
    if keys != [] { OfferAllTried(q, keys[..|keys| - 1], pick, k); }
  }

  lemma {:induction false} OfferAllNames(q: Queue, keys: seq<Key>, pick: map<nat, string>)
    ensures OfferAll(q, keys, pick).items.Keys == q.items.Keys && OfferAll(q, keys, pick).jobs.Keys == q.jobs.Keys
  {
    hide SomeEligible;
    if keys != [] { OfferAllNames(q, keys[..|keys| - 1], pick); }
  }

  lemma Prefixed(max: int, events: seq<Event>, k: Key, r: string)
    requires events != []
    ensures var front := events[..|events| - 1];
            (exists i :: ReportedAt(max, events, i, k, r)) <==> (exists i :: ReportedAt(max, front, i, k, r)) || ReportedAt(max, events, |events| - 1, k, r)
  {
    hide Execute;
    var front := events[..|events| - 1];
    forall i | 0 <= i < |front| ensures ReportedAt(max, events, i, k, r) <==> ReportedAt(max, front, i, k, r) {
      assert front[..i] == events[..i] && front[i] == events[i];
    }
    if j :| ReportedAt(max, front, j, k, r) { assert ReportedAt(max, events, j, k, r); }
  }

  /** Over every run an item is successful with result `r` if and only if a worker reported `r` for it under its current
      lease, before its job was cancelled. */
  lemma {:induction false} SuccessIffReported(max: int, events: seq<Event>, k: Key, r: string)
    ensures var q := Execute(max, events);
            (k in q.items && q.items[k].state == Success && q.items[k].result == r) <==> exists i :: ReportedAt(max, events, i, k, r)
  {
    if events != [] {
      var front, e := events[..|events| - 1], events[|events| - 1];
      assert events == front + [e] && events[..|events| - 1] == front;
      SuccessIffReported(max, front, k, r);
      Prefixed(max, events, k, r);
      Extended(max, front, e);
      ExecuteKeeps(max, front);
      hide Execute, Inv, Apply;
      SuccessStep(Execute(max, front), e, k, r);
    }
  }

  lemma SuccessStep(q: Queue, e: Event, k: Key, r: string)
    requires Inv(q)
    ensures var t := Apply(q, e);
            (k in t.items && t.items[k].state == Success && t.items[k].result == r) <==>
            || (k in q.items && q.items[k].state == Success && q.items[k].result == r)
            || (e.Finish? && e.c.key == k && e.outcome == Some(r) && e.c in q.calls && q.calls[e.c] && e.c.token == Tok(q, k)
                && k in q.items && k.job in q.jobs && q.jobs[k.job].status != Aborted)
  {
    hide Inv, FinishStep, SubmitStep, RegisterStep, ReapStep, CancelStep, PauseStep, BeginStep;
    ApplyFreezes(q, e);
    ApplySame(q, e);
    if e.Finish? && e.c in q.calls && q.calls[e.c] && e.c.key == k {
      if e.c.token == Tok(q, k) { FinishMeans(q, e.c, e.outcome, e.pick); CallFacts(q, e.c); } else { StaleSame(q, e.c, e.outcome, e.pick); }
    }
  }

  lemma StaleSame(q: Queue, c: Call, outcome: Option<string>, pick: map<nat, string>)
    requires Inv(q) && c in q.calls && c.token != Tok(q, c.key)
    ensures Unsuccessful(q, FinishStep(q, c, outcome, pick), {})
  {
    hide Inv, Dispatch;
    ReportMeans(q, c, outcome);
    DispatchSame(q, Report(q, c, outcome), {}, pick);
  }

  // ---------------------------------------------------------------- a stopped job

  /** Paused, cancelled or completed. */
  predicate Halted(q: Queue, job: string) {
    job in q.jobs && !Dispatchable(q.jobs[job].status)
  }

  /** Leases were only added, and none for the job. */
  predicate NoLeaseFor(q: Queue, t: Queue, job: string) {
    q.log <= t.log && forall i :: |q.log| <= i < |t.log| ==> t.log[i].key.job != job
  }

  ghost predicate StaysHalted(q: Queue, t: Queue, job: string) {
    Halted(q, job) ==> Halted(t, job) && NoLeaseFor(q, t, job)
  }

  lemma Relay(q: Queue, t: Queue, u: Queue, job: string)
    requires StaysHalted(q, t, job) && StaysHalted(t, u, job)
    ensures StaysHalted(q, u, job)
  {
    forall i | |q.log| <= i < |u.log| && Halted(q, job) ensures u.log[i].key.job != job {
      if i < |t.log| { assert u.log[i] == t.log[i]; }
    }
  }

  lemma OfferHalts(q: Queue, k: Key, pick: map<nat, string>, job: string)
    ensures StaysHalted(q, OfferItem(q, k, pick), job)
  {
    hide SomeEligible;
  }

  lemma {:induction false} OfferAllHalts(q: Queue, keys: seq<Key>, pick: map<nat, string>, job: string)
    ensures StaysHalted(q, OfferAll(q, keys, pick), job)
  {
    hide OfferItem;
    if keys != [] {
      hide StaysHalted;
      var front := keys[..|keys| - 1];
      OfferAllHalts(q, front, pick, job);
      OfferHalts(OfferAll(q, front, pick), keys[|keys| - 1], pick, job);
      Relay(q, OfferAll(q, front, pick), OfferAll(q, keys, pick), job);
    }
  }

  lemma DispatchHalts(q: Queue, t: Queue, pick: map<nat, string>, job: string)
    requires StaysHalted(q, t, job)
    ensures StaysHalted(q, Dispatch(t, pick), job)
  {
    hide StaysHalted, OfferAll, Agenda;
    OfferAllHalts(t, Agenda(t, t.jobOrder), pick, job);
    Relay(q, t, Dispatch(t, pick), job);
  }

  lemma ExpireHalts(q: Queue, k: Key, job: string)
    requires k in q.items && k.job in q.jobs
    ensures StaysHalted(q, ExpireItem(q, k), job)
  {
    hide PunishedItem, GivesUp;
  }

  lemma {:induction false} ExpireAllHalts(q: Queue, keys: seq<Key>, job: string)
    ensures StaysHalted(q, ExpireAll(q, keys), job)
  {
    hide ExpireItem;
    if keys != [] {
      hide StaysHalted;
      var before, k := ExpireAll(q, keys[..|keys| - 1]), keys[|keys| - 1];
      ExpireAllHalts(q, keys[..|keys| - 1], job);
      if Reapable(before, k) {
        ExpireHalts(before, k, job);
        Relay(q, before, ExpireItem(before, k), job);
      }
    }
  }

  lemma {:induction false} CancelAllHalts(q: Queue, keys: seq<Key>, job: string)
    ensures StaysHalted(q, CancelAll(q, keys), job) && CancelAll(q, keys).log == q.log
  {
    if keys != [] { CancelAllHalts(q, keys[..|keys| - 1], job); }
  }

  lemma ReportHalts(q: Queue, c: Call, outcome: Option<string>, job: string)
    requires c.key in q.items && c.key.job in q.jobs
    ensures StaysHalted(q, Report(q, c, outcome), job)
  {
    hide SettledItem, Freed, GivesUp;
  }

  lemma HaltedStep(q: Queue, e: Event, job: string)
    ensures StaysHalted(q, Apply(q, e), job)
  {
    hide Dispatch, ExpireAll, CancelAll, Report, StaysHalted, AddItems;
    SelfHalts(q, job);
    match e
    case Submit(j, inputs, maxAttempts, pick) =>
      if j !in q.jobs {
        var t := Admit(q, j, inputs, maxAttempts).1;
        SameJobHalts(q, t, job);
        DispatchHalts(q, t, pick, job);
      }
    case Register(w, concurrency, pick) =>
      SameJobHalts(q, Enrol(q, w, concurrency), job);
      DispatchHalts(q, Enrol(q, w, concurrency), pick, job);
    case Begin(c) => SameJobHalts(q, BeginStep(q, c), job);
    case Finish(c, outcome, pick) =>
      if c.key in q.items && c.key.job in q.jobs {
        ReportHalts(q, c, outcome, job);
        DispatchHalts(q, Report(q, c, outcome), pick, job);
      } else {
        SameJobHalts(q, FinishStep(q, c, outcome, pick), job);
      }
    case Reap(keys, pick) =>
      ExpireAllHalts(q, keys, job);
      DispatchHalts(q, ExpireAll(q, keys), pick, job);
    case Pause(j) => PauseHalts(q, j, job);
    case Cancel(j) => CancelHalts(q, j, job);
  }

  lemma SelfHalts(q: Queue, job: string)
    ensures StaysHalted(q, q, job)
  {}

  lemma SameJobHalts(q: Queue, t: Queue, job: string)
    requires t.log == q.log && (job in q.jobs ==> job in t.jobs && t.jobs[job] == q.jobs[job])
    ensures StaysHalted(q, t, job)
  {}

  lemma PauseHalts(q: Queue, j: string, job: string)
    ensures StaysHalted(q, PauseStep(q, j), job)
  {}

  lemma CancelHalts(q: Queue, j: string, job: string)
    ensures StaysHalted(q, CancelStep(q, j), job)
  {
    CancelAllHalts(q, Listed(q, j), job);
    hide CancelAll;
  }

  /** Once a job is paused, cancelled or completed, no item of it is ever leased again. */
  lemma {:induction false} HaltedForGood(max: int, events: seq<Event>, later: seq<Event>, job: string)
    ensures StaysHalted(Execute(max, events), Execute(max, events + later), job)
    decreases |later|
  {
    if later == [] {
      assert events + later == events;
    } else {
      hide StaysHalted, Execute, Apply;
      var front, e := later[..|later| - 1], later[|later| - 1];
      assert events + later == (events + front) + [e];
      HaltedForGood(max, events, front, job);
      Extended(max, events + front, e);
      HaltedStep(Execute(max, events + front), e, job);
      Relay(Execute(max, events), Execute(max, events + front), Execute(max, events + later), job);
    }
  }

  /** Pausing stops a job that was pending or active and touches nothing else. */
  lemma PauseMeans(q: Queue, job: string)
    ensures var t := PauseStep(q, job);
            && (job in q.jobs && (q.jobs[job].status == Pending || q.jobs[job].status == Active) ==>
                  Halted(t, job) && t == q.(jobs := q.jobs[job := q.jobs[job].(status := Paused)]))
            && (job in q.jobs && q.jobs[job].status != Pending && q.jobs[job].status != Active ==> t == q)
            && (job !in q.jobs ==> t == q)
  {}

  /** What cancelling does to the items of a job: those waiting are cancelled, all others are left to end by themselves. */
  ghost predicate CancelledItems(q: Queue, t: Queue, keys: set<Key>) {
    && t.items.Keys == q.items.Keys && t.jobs.Keys == q.jobs.Keys
    && forall k :: k in q.items ==>
         t.items[k] == if k in keys && k.job in q.jobs && q.items[k].state == Queued then q.items[k].(state := Cancelled) else q.items[k]
  }

  lemma {:induction false} CancelAllMeans(q: Queue, keys: seq<Key>)
    ensures CancelledItems(q, CancelAll(q, keys), set k | k in keys)
    ensures forall job :: job in q.jobs ==> CancelAll(q, keys).jobs[job].status == q.jobs[job].status
  {
    if keys != [] {
      hide CancelItem, CancelledItems;
      var front, k := keys[..|keys| - 1], keys[|keys| - 1];
      CancelAllMeans(q, front);
      CancelItemMeans(q, CancelAll(q, front), (set i | i in front), k);
      assert keys == front + [k] && (set i | i in keys) == (set i | i in front) + {k};
    } else {
      assert (set i | i in keys) == {};
    }
  }

  lemma CancelItemMeans(q: Queue, t: Queue, keys: set<Key>, k: Key)
    requires CancelledItems(q, t, keys)
    ensures CancelledItems(q, CancelItem(t, k), keys + {k})
    ensures CancelItem(t, k).jobs.Keys == t.jobs.Keys && forall job :: job in t.jobs ==> CancelItem(t, k).jobs[job].status == t.jobs[job].status
  {
    var u := CancelItem(t, k);
    assert u.jobs.Keys == t.jobs.Keys && u.items.Keys == t.items.Keys;
    OneCancelled(t, k);
    hide CancelItem;
  }

  lemma OneCancelled(t: Queue, k: Key)
    ensures var u := CancelItem(t, k);
            && u.items.Keys == t.items.Keys && (forall i :: i in t.items && i != k ==> u.items[i] == t.items[i])
            && (k in t.items ==> u.items[k] == if k.job in t.jobs && t.items[k].state == Queued then t.items[k].(state := Cancelled) else t.items[k])
            && (forall job :: job in t.jobs ==> job in u.jobs && u.jobs[job].status == t.jobs[job].status)
  {}

  /** Cancelling a job that is not over aborts it, cancels exactly its waiting items, and touches no other job's. */
  lemma CancelMeans(max: int, events: seq<Event>, job: string)
    ensures var q := Execute(max, events); var t := CancelStep(q, job);
            if job !in q.jobs || q.jobs[job].status in {Aborted, Completed, CompletedWithErrors} then t == q
            else && job in t.jobs && t.jobs[job].status == Aborted && Halted(t, job)
                 && (job in q.itemOrder ==> forall k :: k in q.items && k.job == job ==>
                       k in t.items && t.items[k] == if q.items[k].state == Queued then q.items[k].(state := Cancelled) else q.items[k])
                 && (forall k :: k in q.items && k.job != job ==> k in t.items && t.items[k] == q.items[k])
                 && t.workers == q.workers && t.calls == q.calls && t.tok == q.tok && t.log == q.log
  {
    var q := Execute(max, events);
    ExecuteKeeps(max, events);
    hide Execute, Inv, CancelAll;
    CancelAllMeans(q, Listed(q, job));
    CancelAllRest(q, Listed(q, job));
    ListedIs(q, job);
  }

  lemma ListedIs(q: Queue, job: string)
    requires Inv(q)
    ensures forall k :: k in Listed(q, job) ==> k.job == job
    ensures job in q.itemOrder ==> forall k :: k in q.items && k.job == job ==> k in Listed(q, job)
  {
    hide ItemsOk, CallsOk, Held, JobsOk, WorkersOk, LogOk;
    if job in q.itemOrder { assert ListOk(q, job); }
  }

  lemma {:induction false} CancelAllRest(q: Queue, keys: seq<Key>)
    ensures var t := CancelAll(q, keys); t.workers == q.workers && t.calls == q.calls && t.tok == q.tok && t.log == q.log && t.itemOrder == q.itemOrder
  {
    if keys != [] { CancelAllRest(q, keys[..|keys| - 1]); }
  }

  // ---------------------------------------------------------------- registration and submission

  /** A worker gets the slots its profile measured, or one, all of them free. */
  lemma EnrolMeans(q: Queue, w: string, concurrency: Option<int>)
    ensures var t := Enrol(q, w, concurrency);
            && w in t.workers && t.workers[w].active == 0 && t.workers[w].slots >= 1
            && (concurrency.Some? && concurrency.value >= 1 ==> t.workers[w].slots == concurrency.value)
            && (concurrency.None? || concurrency.value < 1 ==> t.workers[w].slots == 1)
            && (forall v :: v in q.workers && v != w ==> v in t.workers && t.workers[v] == q.workers[v]) && t.workers.Keys == q.workers.Keys + {w}
            && t.items == q.items && t.jobs == q.jobs && t.calls == q.calls && t.log == q.log && t.tok == q.tok
  {}

  /** An accepted job is active with all its items waiting and untried, under the requested attempt cap or the default. */
  lemma SubmitMeans(q: Queue, job: string, inputs: seq<Input>, maxAttempts: int)
    requires Foreign(q.items, job) && Admit(q, job, inputs, maxAttempts).0
    ensures var t := Admit(q, job, inputs, maxAttempts).1; var keys := Identities(job, inputs);
            && job in t.jobs && job in t.itemOrder && t.itemOrder[job] == keys && t.jobOrder == q.jobOrder + [job]
            && t.jobs[job] == Job(Active, if maxAttempts >= 1 then maxAttempts else q.defaultMax, |inputs|, |inputs|, 0, 0, 0)
            && (forall k :: k in keys ==> k in t.items && t.items[k] == Item(Queued, "", 0, [], ""))
            && (forall k :: k in q.items ==> k in t.items && t.items[k] == q.items[k])
            && t.workers == q.workers && t.calls == q.calls
  {
    AddItemsIs(q.items, Identities(job, inputs));
    hide AddItems;
  }

  /** The goroutine of a call marks a leased item as running, and nothing else. */
  lemma BeginMeans(q: Queue, c: Call)
    requires c in q.calls
    ensures var t := BeginStep(q, c);
            && t.calls == q.calls[c := true] && t.jobs == q.jobs && t.workers == q.workers && t.tok == q.tok && t.log == q.log
            && t.items.Keys == q.items.Keys
            && (forall k :: k in q.items ==> t.items[k] == if k == c.key && q.items[k].state == Leased then q.items[k].(state := Running) else q.items[k])
  {}

  // ---------------------------------------------------------------- names of unnamed items

  lemma {:induction false} DecimalApart(a: nat, b: nat)
    requires Decimal(a) == Decimal(b)
    ensures a == b
    decreases a + b
  {
    var x, y := Decimal(a), Decimal(b);
    DecimalEnds(a);
    DecimalEnds(b);
    if a >= 10 && b >= 10 {
      assert Decimal(a / 10) == x[..|x| - 1] && Decimal(b / 10) == y[..|y| - 1];
      DecimalApart(a / 10, b / 10);
    }
  }

  lemma DecimalEnds(n: nat)
    ensures |Decimal(n)| >= 1 && Decimal(n)[|Decimal(n)| - 1] as int == '0' as int + n % 10
    ensures n < 10 <==> |Decimal(n)| == 1
  {}

  /** A list of unnamed items is always accepted: each gets a name of its own. */
  lemma UnnamedAccepted(q: Queue, job: string, inputs: seq<Input>, maxAttempts: int)
    requires Foreign(q.items, job) && inputs != [] && forall i :: 0 <= i < |inputs| ==> inputs[i].item == ""
    ensures Admit(q, job, inputs, maxAttempts).0
  {
    hide Admit;
    AdmitGrows(q, job, inputs, maxAttempts);
    var keys := Identities(job, inputs);
    forall i, j | 0 <= i < j < |keys| ensures keys[i] != keys[j] {
      if keys[i].item == keys[j].item {
        assert ("item-" + Decimal(i))[5..] == Decimal(i) && ("item-" + Decimal(j))[5..] == Decimal(j);
        DecimalApart(i, j);
      }
    }
  }
}
