/** The invariant of the work queue and its preservation by every event. */
module JobQueueInvariant {
  import opened JobQueueModel

  // ---------------------------------------------------------------- the invariant

  predicate NoDup<T(==)>(s: seq<T>) {
    forall i, j :: 0 <= i < j < |s| ==> s[i] != s[j]
  }

  /** The last lease of the item did not end in failure or expiry. */
  predicate Outstanding(x: Item) {
    x.attempt == |x.tried| + 1
  }

  /** `pool` is the set of registered workers, `max` the attempt cap of the job. */
  predicate ItemOk(x: Item, max: int, pool: set<string>) {
    && NoDup(x.tried) && (forall w :: w in x.tried ==> w in pool)
    && x.attempt <= max && (x.attempt == |x.tried| || Outstanding(x))
    && (Outstanding(x) ==> x.owner in pool && x.owner !in x.tried)
    && (x.attempt > 0 && !Outstanding(x) ==> x.owner in x.tried)
    && (InFlight(x) || x.state == Success ==> Outstanding(x))
    && (x.state == Queued || x.state == Failed ==> !Outstanding(x))
    && (x.state == Queued ==> x.attempt < max && (pool != {} ==> |x.tried| < |pool|))
  }

  ghost predicate ItemsOk(q: Queue) {
    forall k :: k in q.items ==> k.job in q.jobs && ItemOk(q.items[k], q.jobs[k.job].maxAttempts, q.workers.Keys)
  }

  /** A pending call carries the current token exactly when it is the lease its item is in flight under. */
  ghost predicate CallOk(q: Queue, c: Call) {
    && c.key in q.items && c.worker in q.workers && 1 <= c.token <= Tok(q, c.key)
    && (c.token == Tok(q, c.key) ==> InFlight(q.items[c.key]) && q.items[c.key].owner == c.worker)
    && (q.calm ==> c.token == Tok(q, c.key))
  }

  ghost predicate CallsOk(q: Queue) {
    forall c :: c in q.calls ==> CallOk(q, c)
  }

  ghost predicate HeldOk(q: Queue, k: Key)
    requires k in q.items
  {
    InFlight(q.items[k]) ==> Call(k, q.items[k].owner, Tok(q, k)) in q.calls && k.job in q.itemOrder
  }

  ghost predicate Held(q: Queue) {
    && (forall k :: k in q.items ==> HeldOk(q, k))
    && (forall k :: k in q.tok ==> k in q.items)
  }

  datatype Kind = Waiting | Flying | Good | Bad | Dropped

  function KindOf(x: Item): Kind {
    match x.state
    case Queued => Waiting
    case Leased => Flying
    case Running => Flying
    case Success => Good
    case Failed => Bad
    case Cancelled => Dropped
  }

  /** The items of `job` of one kind. */
  ghost function Of(items: map<Key, Item>, job: string, kind: Kind): set<Key> {
    set k | k in items && k.job == job && KindOf(items[k]) == kind
  }

  ghost predicate Tallied(j: Job, items: map<Key, Item>, job: string) {
    && j.queued == |Of(items, job, Waiting)|
    && j.running == |Of(items, job, Flying)|
    && j.success == |Of(items, job, Good)|
    && j.failed == |Of(items, job, Bad)|
    && j.total == j.queued + j.running + j.success + j.failed + |Of(items, job, Dropped)|
  }

  ghost predicate JobOk(j: Job, items: map<Key, Item>, job: string) {
    && Tallied(j, items, job)
    && (j.status == Completed || j.status == CompletedWithErrors ==> j.queued == 0 && j.running == 0)
    && (j.status == Completed ==> j.failed == 0)
    && (j.status == CompletedWithErrors ==> j.failed > 0)
  }

  ghost predicate JobsOk(q: Queue) {
    forall job :: job in q.itemOrder ==> job in q.jobs && JobOk(q.jobs[job], q.items, job) && q.jobs[job].total == |q.itemOrder[job]|
  }

  /** The items in flight under a lease to `w`. */
  ghost function OwnedBy(items: map<Key, Item>, w: string): set<Key> {
    set k | k in items && InFlight(items[k]) && items[k].owner == w
  }

  ghost predicate SlotOk(s: Slot, owned: nat, calm: bool) {
    0 <= s.active <= s.slots && 1 <= s.slots && s.active <= owned && (calm ==> s.active == owned)
  }

  ghost predicate WorkersOk(q: Queue) {
    forall w :: w in q.workers ==> SlotOk(q.workers[w], |OwnedBy(q.items, w)|, q.calm)
  }

  function CountFor(log: seq<Lease>, k: Key): nat {
    if log == [] then 0 else CountFor(log[..|log| - 1], k) + if log[|log| - 1].key == k then 1 else 0
  }

  /** The worker the item was last leased to. */
  function LastTo(log: seq<Lease>, k: Key): string {
    if log == [] then "" else if log[|log| - 1].key == k then log[|log| - 1].worker else LastTo(log[..|log| - 1], k)
  }

  /** The workers an item was leased to. */
  predicate Used(x: Item, w: string) {
    w in x.tried || (Outstanding(x) && x.owner == w)
  }

  ghost predicate OncePerWorker(q: Queue) {
    && NoDup(q.log)
    && (forall l :: l in q.log ==> l.key in q.items && Used(q.items[l.key], l.worker))
  }

  predicate CountOk(q: Queue, k: Key)
    requires k in q.items
  {
    && CountFor(q.log, k) == q.items[k].attempt && Tok(q, k) <= q.items[k].attempt + |q.items[k].tried|
    && (q.items[k].attempt > 0 ==> LastTo(q.log, k) == q.items[k].owner)
  }

  ghost predicate Counts(q: Queue) {
    forall k :: k in q.items ==> CountOk(q, k)
  }

  /** Leases are granted once per item and worker, counted by attempts, and each is pending or reported. */
  ghost predicate LogOk(q: Queue) {
    OncePerWorker(q) && Counts(q) && |q.calls| + q.finished == |q.log|
  }

  ghost predicate ListOk(q: Queue, job: string)
    requires job in q.itemOrder
  {
    && job in q.jobs && job in q.jobOrder && NoDup(q.itemOrder[job])
    && (forall k :: k in q.itemOrder[job] <==> k in q.items && k.job == job)
  }

  ghost predicate Lists(q: Queue) {
    && q.defaultMax >= 1
    && (forall i :: 0 <= i < |q.jobOrder| ==> q.jobOrder[i] in q.jobs)
    && (forall job :: job in q.itemOrder ==> ListOk(q, job))
  }

  ghost predicate Inv(q: Queue) {
    Lists(q) && ItemsOk(q) && CallsOk(q) && Held(q) && JobsOk(q) && WorkersOk(q) && LogOk(q)
  }

  // ---------------------------------------------------------------- counting

  lemma SameBut<T>(a: set<T>, b: set<T>, k: T)
    requires a - {k} == b - {k}
    ensures |b| == |a| - (if k in a then 1 else 0) + (if k in b then 1 else 0)
  {
    assert k in a ==> a == (a - {k}) + {k};
    assert k !in a ==> a == a - {k};
    assert k in b ==> b == (b - {k}) + {k};
    assert k !in b ==> b == b - {k};
  }

  lemma OneMoved(items: map<Key, Item>, k: Key, x: Item, job: string, kind: Kind)
    requires k in items
    ensures |Of(items[k := x], job, kind)| ==
            |Of(items, job, kind)| - (if k.job == job && KindOf(items[k]) == kind then 1 else 0) + (if k.job == job && KindOf(x) == kind then 1 else 0)
  {
    hide KindOf;
    SameBut(Of(items, job, kind), Of(items[k := x], job, kind), k);
  }

  lemma OneOwnerMoved(items: map<Key, Item>, k: Key, x: Item, w: string)
    requires k in items
    ensures |OwnedBy(items[k := x], w)| ==
            |OwnedBy(items, w)| - (if InFlight(items[k]) && items[k].owner == w then 1 else 0) + (if InFlight(x) && x.owner == w then 1 else 0)
  {
    hide InFlight;
    SameBut(OwnedBy(items, w), OwnedBy(items[k := x], w), k);
  }

  /** The change of one counter when an item leaves `from` and enters `to`. */
  function Shift(from: Kind, to: Kind, kind: Kind): int {
    (if to == kind then 1 else 0) - (if from == kind then 1 else 0)
  }

  /** Job counters that follow one item from `from` to `to`. */
  predicate Follows(j: Job, j': Job, from: Kind, to: Kind) {
    && j'.queued == j.queued + Shift(from, to, Waiting) && j'.running == j.running + Shift(from, to, Flying)
    && j'.success == j.success + Shift(from, to, Good) && j'.failed == j.failed + Shift(from, to, Bad)
    && j'.total == j.total
  }

  lemma TallyMoves(items: map<Key, Item>, k: Key, x: Item, j: Job, j': Job)
    requires k in items && Tallied(j, items, k.job) && Follows(j, j', KindOf(items[k]), KindOf(x))
    ensures Tallied(j', items[k := x], k.job)
  {
    hide Of;
    OneMoved(items, k, x, k.job, Waiting);
    OneMoved(items, k, x, k.job, Flying);
    OneMoved(items, k, x, k.job, Good);
    OneMoved(items, k, x, k.job, Bad);
    OneMoved(items, k, x, k.job, Dropped);
  }

  lemma TallyStays(items: map<Key, Item>, k: Key, x: Item, j: Job, job: string)
    requires k in items && Tallied(j, items, job) && k.job != job
    ensures Tallied(j, items[k := x], job)
  {
    hide Of;
    OneMoved(items, k, x, job, Waiting);
    OneMoved(items, k, x, job, Flying);
    OneMoved(items, k, x, job, Good);
    OneMoved(items, k, x, job, Bad);
    OneMoved(items, k, x, job, Dropped);
  }

  /** A status is consistent with the counters. */
  predicate StatusOk(j: Job) {
    && (j.status == Completed || j.status == CompletedWithErrors ==> j.queued == 0 && j.running == 0)
    && (j.status == Completed ==> j.failed == 0)
    && (j.status == CompletedWithErrors ==> j.failed > 0)
  }

  /** One item and the counters of its job change together. */
  lemma PutJobs(q: Queue, k: Key, x: Item, j: Job, t: Queue)
    requires JobsOk(q) && k in q.items && k.job in q.itemOrder && k.job in q.jobs
    requires Follows(q.jobs[k.job], j, KindOf(q.items[k]), KindOf(x)) && StatusOk(j)
    requires t.items == q.items[k := x] && t.jobs == q.jobs[k.job := j] && t.itemOrder == q.itemOrder
    ensures JobsOk(t)
  {
    assert j.total == q.jobs[k.job].total;
    hide Tallied, Follows;
    forall job | job in t.itemOrder ensures job in t.jobs && JobOk(t.jobs[job], t.items, job) && t.jobs[job].total == |t.itemOrder[job]| {
      if job == k.job {
        TallyMoves(q.items, k, x, q.jobs[job], j);
      } else {
        TallyStays(q.items, k, x, q.jobs[job], job);
      }
    }
  }

  // ---------------------------------------------------------------- granting a lease

  predicate Grantable(q: Queue, k: Key, w: string) {
    && k in q.items && k.job in q.jobs && k.job in q.itemOrder && Dispatchable(q.jobs[k.job].status)
    && q.items[k].state == Queued && Eligible(q, q.items[k], w)
  }

  lemma LeaseItems(q: Queue, k: Key, w: string)
    requires ItemsOk(q) && Grantable(q, k, w)
    ensures ItemsOk(LeaseItem(q, k, w))
  {
    var t := LeaseItem(q, k, w);
    assert t.workers.Keys == q.workers.Keys;
  }

  lemma LeaseCalls(q: Queue, k: Key, w: string)
    requires CallsOk(q) && Held(q) && Grantable(q, k, w)
    ensures CallsOk(LeaseItem(q, k, w)) && Held(LeaseItem(q, k, w))
    ensures Call(k, w, Tok(q, k) + 1) !in q.calls
  {
    var t := LeaseItem(q, k, w);
    forall c | c in t.calls ensures CallOk(t, c) {
      if c in q.calls { assert CallOk(q, c); }
    }
    assert Call(k, w, Tok(q, k) + 1) in q.calls ==> CallOk(q, Call(k, w, Tok(q, k) + 1));
    forall i | i in t.items ensures HeldOk(t, i) { assert HeldOk(q, i); }
  }

  lemma LeaseWorkers(q: Queue, k: Key, w: string)
    requires WorkersOk(q) && Grantable(q, k, w)
    ensures WorkersOk(LeaseItem(q, k, w))
  {
    hide OwnedBy;
    var t := LeaseItem(q, k, w);
    forall v | v in t.workers ensures SlotOk(t.workers[v], |OwnedBy(t.items, v)|, t.calm) {
      OneOwnerMoved(q.items, k, t.items[k], v);
    }
  }

  lemma CountGrows(log: seq<Lease>, l: Lease, k: Key)
    ensures CountFor(log + [l], k) == CountFor(log, k) + if l.key == k then 1 else 0
    ensures LastTo(log + [l], k) == if l.key == k then l.worker else LastTo(log, k)
  {
    assert (log + [l])[..|log|] == log;
  }

  lemma LeaseOncePerWorker(q: Queue, k: Key, w: string)
    requires OncePerWorker(q) && ItemsOk(q) && Grantable(q, k, w)
    ensures OncePerWorker(LeaseItem(q, k, w))
  {
    var x := q.items[k];
    assert ItemOk(x, q.jobs[k.job].maxAttempts, q.workers.Keys);
    assert x.attempt == |x.tried| && w !in x.tried;
    hide ItemsOk, ItemOk;
    assert Lease(k, w) !in q.log;
  }

  lemma LeaseCounts(q: Queue, k: Key, w: string)
    requires Counts(q) && Grantable(q, k, w)
    ensures Counts(LeaseItem(q, k, w))
  {
    var t := LeaseItem(q, k, w);
    forall i | i in t.items ensures CountOk(t, i) {
      assert CountOk(q, i);
      CountGrows(q.log, Lease(k, w), i);
    }
  }

  lemma LeaseLog(q: Queue, k: Key, w: string)
    requires LogOk(q) && ItemsOk(q) && Grantable(q, k, w) && Call(k, w, Tok(q, k) + 1) !in q.calls
    ensures LogOk(LeaseItem(q, k, w))
  {
    hide ItemsOk, OncePerWorker, Counts;
    LeaseOncePerWorker(q, k, w);
    LeaseCounts(q, k, w);
    assert LeaseItem(q, k, w).calls.Keys == q.calls.Keys + {Call(k, w, Tok(q, k) + 1)};
  }

  lemma LeaseLists(q: Queue, k: Key, w: string)
    requires Lists(q) && Grantable(q, k, w)
    ensures Lists(LeaseItem(q, k, w))
  {
    var t := LeaseItem(q, k, w);
    SameLists(q, t);
  }

  /** Lists depend on the item and job names only. */
  lemma SameLists(q: Queue, t: Queue)
    requires Lists(q) && t.defaultMax == q.defaultMax && t.items.Keys == q.items.Keys && q.jobs.Keys <= t.jobs.Keys
    requires t.jobOrder == q.jobOrder && t.itemOrder == q.itemOrder
    ensures Lists(t)
  {
    forall job | job in t.itemOrder ensures ListOk(t, job) {
      assert ListOk(q, job);
      assert forall k :: k in t.items <==> k in t.items.Keys;
      assert forall k :: k in q.items <==> k in q.items.Keys;
    }
  }

  lemma LeaseKeeps(q: Queue, k: Key, w: string)
    requires Inv(q) && Grantable(q, k, w)
    ensures Inv(LeaseItem(q, k, w))
  {
    hide Lists, ItemsOk, CallsOk, Held, JobsOk, WorkersOk, LogOk;
    LeaseLists(q, k, w);
    LeaseItems(q, k, w);
    LeaseCalls(q, k, w);
    LeaseWorkers(q, k, w);
    LeaseLog(q, k, w);
    LeaseJobs(q, k, w);
  }

  lemma LeaseJobs(q: Queue, k: Key, w: string)
    requires JobsOk(q) && Grantable(q, k, w)
    ensures JobsOk(LeaseItem(q, k, w))
  {
    hide Tallied;
    var t := LeaseItem(q, k, w);
    PutJobs(q, k, t.items[k], t.jobs[k.job], t);
  }

  // ---------------------------------------------------------------- dispatch

  lemma OfferKeeps(q: Queue, k: Key, pick: map<nat, string>)
    requires Inv(q) && k.job in q.itemOrder
    ensures Inv(OfferItem(q, k, pick))
  {
    hide Inv, LeaseItem;
    if Ready(q, k) { LeaseKeeps(q, k, Chosen(q, q.items[k], pick)); }
  }

  predicate SameOrder(q: Queue, t: Queue) {
    t.jobOrder == q.jobOrder && t.itemOrder == q.itemOrder
  }

  lemma {:induction false} OfferAllKeeps(q: Queue, keys: seq<Key>, pick: map<nat, string>)
    requires Inv(q) && forall k :: k in keys ==> k.job in q.itemOrder
    ensures Inv(OfferAll(q, keys, pick)) && SameOrder(q, OfferAll(q, keys, pick))
  {
    hide Inv;
    if keys != [] {
      OfferAllKeeps(q, keys[..|keys| - 1], pick);
      OfferKeeps(OfferAll(q, keys[..|keys| - 1], pick), keys[|keys| - 1], pick);
    }
  }

  lemma {:induction false} AgendaIs(q: Queue, jobs: seq<string>)
    ensures forall k :: k in Agenda(q, jobs) <==> exists i :: 0 <= i < |jobs| && k in Listed(q, jobs[i])
  {
    if jobs != [] {
      var rest := jobs[..|jobs| - 1];
      AgendaIs(q, rest);
      forall k ensures k in Agenda(q, jobs) <==> exists i :: 0 <= i < |jobs| && k in Listed(q, jobs[i]) {
        if k in Agenda(q, rest) {
          var i :| 0 <= i < |rest| && k in Listed(q, rest[i]);
          assert k in Listed(q, jobs[i]);
        } else if exists i :: 0 <= i < |jobs| && k in Listed(q, jobs[i]) {
          var i :| 0 <= i < |jobs| && k in Listed(q, jobs[i]);
          assert i < |rest| ==> k in Listed(q, rest[i]);
        }
      }
    }
  }

  lemma AgendaListed(q: Queue)
    requires Lists(q)
    ensures forall k :: k in Agenda(q, q.jobOrder) <==> k.job in q.itemOrder && k in q.itemOrder[k.job]
  {
    AgendaIs(q, q.jobOrder);
    forall k ensures k in Agenda(q, q.jobOrder) <==> k.job in q.itemOrder && k in q.itemOrder[k.job] {
      if k in Agenda(q, q.jobOrder) {
        var i :| 0 <= i < |q.jobOrder| && k in Listed(q, q.jobOrder[i]);
        assert ListOk(q, q.jobOrder[i]);
      }
      if k.job in q.itemOrder && k in q.itemOrder[k.job] {
        assert ListOk(q, k.job);
        var i :| 0 <= i < |q.jobOrder| && q.jobOrder[i] == k.job;
        assert k in Listed(q, q.jobOrder[i]);
      }
    }
  }

  lemma ListsOf(q: Queue)
    requires Inv(q)
    ensures Lists(q)
  {}

  lemma DispatchKeeps(q: Queue, pick: map<nat, string>)
    requires Inv(q)
    ensures Inv(Dispatch(q, pick)) && SameOrder(q, Dispatch(q, pick))
  {
    ListsOf(q);
    hide Inv, Lists;
    AgendaListed(q);
    OfferAllKeeps(q, Agenda(q, q.jobOrder), pick);
  }

  // ---------------------------------------------------------------- the end of a lease

  /** What every way of ending the lease of item `k` has in common. */
  ghost predicate Lands(q: Queue, t: Queue, k: Key, y: Item, j: Job) {
    && k in q.items && k.job in q.jobs && InFlight(q.items[k]) && !InFlight(y)
    && t.items == q.items[k := y] && t.jobs == q.jobs[k.job := j]
    && t.workers == Freed(q.workers, q.items[k].owner)
    && t.defaultMax == q.defaultMax && SameOrder(q, t) && t.log == q.log
    && j.maxAttempts == q.jobs[k.job].maxAttempts
    && y.owner == q.items[k].owner && y.attempt == q.items[k].attempt && |q.items[k].tried| <= |y.tried|
    && (forall w :: Used(q.items[k], w) ==> Used(y, w))
    && (t.calm ==> q.calm)
  }

  lemma LandItems(q: Queue, t: Queue, k: Key, y: Item, j: Job)
    requires ItemsOk(q) && Lands(q, t, k, y, j) && ItemOk(y, j.maxAttempts, q.workers.Keys)
    ensures ItemsOk(t)
  {
    hide ItemOk;
    assert t.workers.Keys == q.workers.Keys;
  }

  lemma LandLists(q: Queue, t: Queue, k: Key, y: Item, j: Job)
    requires Lists(q) && Lands(q, t, k, y, j)
    ensures Lists(t)
  {
    hide Lists;
    SameLists(q, t);
  }

  lemma LandWorkers(q: Queue, t: Queue, k: Key, y: Item, j: Job)
    requires WorkersOk(q) && Lands(q, t, k, y, j)
    ensures WorkersOk(t)
  {
    hide OwnedBy, Used;
    forall w | w in t.workers ensures SlotOk(t.workers[w], |OwnedBy(t.items, w)|, t.calm) {
      OneOwnerMoved(q.items, k, y, w);
    }
  }

  lemma LandLog(q: Queue, t: Queue, k: Key, y: Item, j: Job)
    requires OncePerWorker(q) && Lands(q, t, k, y, j)
    ensures OncePerWorker(t)
  {
    hide Used;
  }

  predicate Unfinished(j: Job) {
    j.status != Completed && j.status != CompletedWithErrors && j.queued >= 0 && j.running >= 1 && j.failed >= 0
  }

  /** A job with an item in flight is not completed. */
  lemma NotOver(q: Queue, k: Key)
    requires JobsOk(q) && Held(q) && k in q.items && InFlight(q.items[k])
    ensures k.job in q.itemOrder && k.job in q.jobs
    ensures Unfinished(q.jobs[k.job])
  {
    assert HeldOk(q, k);
    assert k in Of(q.items, k.job, Flying);
  }

  lemma LandJobs(q: Queue, t: Queue, k: Key, y: Item, j: Job)
    requires JobsOk(q) && k.job in q.itemOrder && Lands(q, t, k, y, j) && StatusOk(j)
    requires Follows(q.jobs[k.job], j, Flying, KindOf(y))
    ensures JobsOk(t)
  {
    hide JobsOk, Used, StatusOk, Follows;
    PutJobs(q, k, y, j, t);
  }

  lemma PunishOk(x: Item, j: Job, pool: set<string>)
    requires ItemOk(x, j.maxAttempts, pool) && InFlight(x)
    ensures var y := PunishedItem(x, j, x.owner, |pool|);
            ItemOk(y, j.maxAttempts, pool) && !InFlight(y) && (forall w :: Used(x, w) ==> Used(y, w)) && |y.tried| == |x.tried| + 1
  {}

  lemma PunishJobOk(x: Item, j: Job, w: string, pool: nat)
    requires Unfinished(j)
    ensures var j' := Recompute(PunishedJob(x, j, w, pool));
            Follows(j, j', Flying, KindOf(PunishedItem(x, j, w, pool))) && StatusOk(j') && j'.maxAttempts == j.maxAttempts
  {}

  /** The three ways the outcome of a current call ends its lease. */
  ghost predicate Ends(x: Item, j: Job, y: Item, j': Job, pool: set<string>) {
    && !InFlight(y) && ItemOk(y, j.maxAttempts, pool) && y.owner == x.owner && y.attempt == x.attempt && |x.tried| <= |y.tried|
    && (forall w :: Used(x, w) ==> Used(y, w))
    && j'.maxAttempts == j.maxAttempts && StatusOk(j') && Follows(j, j', Flying, KindOf(y))
  }

  lemma DropEnds(x: Item, j: Job, pool: set<string>)
    requires ItemOk(x, j.maxAttempts, pool) && InFlight(x) && j.status == Aborted
    ensures Ends(x, j, x.(state := Cancelled), j.(running := j.running - 1), pool)
  {}

  lemma SuccessEnds(x: Item, j: Job, pool: set<string>, result: string)
    requires ItemOk(x, j.maxAttempts, pool) && InFlight(x)
    requires Unfinished(j)
    ensures Ends(x, j, x.(state := Success, result := result), Recompute(j.(running := j.running - 1, success := j.success + 1)), pool)
  {}

  lemma PunishEnds(x: Item, j: Job, pool: set<string>)
    requires ItemOk(x, j.maxAttempts, pool) && InFlight(x)
    requires Unfinished(j)
    ensures Ends(x, j, PunishedItem(x, j, x.owner, |pool|), Recompute(PunishedJob(x, j, x.owner, |pool|)), pool)
  {
    hide Used, ItemOk, StatusOk, Follows, Recompute, PunishedJob;
    PunishOk(x, j, pool);
    PunishJobOk(x, j, x.owner, |pool|);
  }

  /** Everything but the calls, for a lease that ended. */
  lemma LandKeeps(q: Queue, t: Queue, k: Key, y: Item, j: Job)
    requires Inv(q) && Lands(q, t, k, y, j) && Ends(q.items[k], q.jobs[k.job], y, j, q.workers.Keys)
    ensures Lists(t) && ItemsOk(t) && JobsOk(t) && WorkersOk(t) && OncePerWorker(t)
  {
    NotOver(q, k);
    hide Lists, ItemsOk, CallsOk, Held, JobsOk, WorkersOk, OncePerWorker, Counts, Lands, Used, ItemOk, StatusOk, Follows;
    LandLists(q, t, k, y, j);
    LandItems(q, t, k, y, j);
    LandJobs(q, t, k, y, j);
    LandWorkers(q, t, k, y, j);
    LandLog(q, t, k, y, j);
  }

  // ---------------------------------------------------------------- a worker reports

  lemma FlyingFacts(q: Queue, k: Key)
    requires Inv(q) && k in q.items && InFlight(q.items[k])
    ensures k.job in q.itemOrder && k.job in q.jobs && ItemOk(q.items[k], q.jobs[k.job].maxAttempts, q.workers.Keys)
    ensures Unfinished(q.jobs[k.job])
  {
    hide JobOk, ItemOk, CallOk;
    NotOver(q, k);
  }

  lemma CallFacts(q: Queue, c: Call)
    requires Inv(q) && c in q.calls
    ensures CallOk(q, c) && c.key.job in q.jobs
  {
    hide ItemOk, HeldOk, JobOk;
  }

  /** A call that reports is gone from the calls, and the lease it carried has ended. */
  lemma LandCalls(q: Queue, t: Queue, c: Call, y: Item, j: Job)
    requires CallsOk(q) && Held(q) && c in q.calls && c.token == Tok(q, c.key) && Lands(q, t, c.key, y, j)
    requires t.calls == q.calls - {c} && t.tok == q.tok && t.calm == q.calm
    ensures CallsOk(t) && Held(t)
  {
    hide Used;
    assert t.workers.Keys == q.workers.Keys;
    forall d | d in t.calls ensures CallOk(t, d) {
      assert CallOk(q, d) && CallOk(q, c);
    }
    forall k | k in t.items ensures HeldOk(t, k) { assert HeldOk(q, k); }
  }

  lemma LandCounts(q: Queue, t: Queue, k: Key, y: Item, j: Job)
    requires Counts(q) && Lands(q, t, k, y, j) && forall i :: i in q.items ==> Tok(t, i) <= Tok(q, i) + (if i == k then |y.tried| - |q.items[k].tried| else 0)
    ensures Counts(t)
  {
    hide Used;
    forall i | i in t.items ensures CountOk(t, i) { assert CountOk(q, i); }
  }

  lemma CallRemoved(calls: map<Call, bool>, c: Call)
    requires c in calls
    ensures |calls - {c}| == |calls| - 1
  {
    assert (calls - {c}).Keys == calls.Keys - {c};
  }

  lemma SettledEnds(x: Item, j: Job, outcome: Option<string>, pool: set<string>)
    requires ItemOk(x, j.maxAttempts, pool) && InFlight(x) && Unfinished(j)
    ensures Ends(x, j, SettledItem(x, j, x.owner, outcome, |pool|), SettledJob(x, j, x.owner, outcome, |pool|), pool)
  {
    hide ItemOk, Ends, Recompute, PunishedJob, PunishedItem;
    if j.status == Aborted { DropEnds(x, j, pool); }
    else if outcome.Some? { SuccessEnds(x, j, pool, outcome.value); }
    else { PunishEnds(x, j, pool); }
  }

  lemma SettleLands(q: Queue, c: Call, outcome: Option<string>)
    requires c.key in q.items && c.key.job in q.jobs && c.token == Tok(q, c.key)
    requires InFlight(q.items[c.key]) && q.items[c.key].owner == c.worker
    requires ItemOk(q.items[c.key], q.jobs[c.key.job].maxAttempts, q.workers.Keys) && Unfinished(q.jobs[c.key.job])
    ensures var t := Report(q, c, outcome);
            Lands(q, t, c.key, t.items[c.key], t.jobs[c.key.job]) && Ends(q.items[c.key], q.jobs[c.key.job], t.items[c.key], t.jobs[c.key.job], q.workers.Keys)
  {
    hide ItemOk, Used, SettledItem, SettledJob, Unfinished;
    SettledEnds(q.items[c.key], q.jobs[c.key.job], outcome, q.workers.Keys);
  }

  lemma SettleLog(q: Queue, c: Call, outcome: Option<string>, y: Item, j: Job)
    requires LogOk(q) && c in q.calls && c.key in q.items && c.key.job in q.jobs
    requires Lands(q, Report(q, c, outcome), c.key, y, j)
    ensures LogOk(Report(q, c, outcome))
  {
    var t := Report(q, c, outcome);
    assert t.calls == q.calls - {c} && t.finished == q.finished + 1 && t.tok == q.tok && t.log == q.log;
    assert |q.items[c.key].tried| <= |y.tried|;
    hide Counts, OncePerWorker, Lands, Report;
    LandLog(q, t, c.key, y, j);
    LandCounts(q, t, c.key, y, j);
    CallRemoved(q.calls, c);
  }

  lemma SettleCalls(q: Queue, c: Call, outcome: Option<string>, y: Item, j: Job)
    requires CallsOk(q) && Held(q) && c in q.calls && c.key in q.items && c.key.job in q.jobs && c.token == Tok(q, c.key)
    requires Lands(q, Report(q, c, outcome), c.key, y, j)
    ensures CallsOk(Report(q, c, outcome)) && Held(Report(q, c, outcome))
  {
    hide CallsOk, Held, Lands;
    LandCalls(q, Report(q, c, outcome), c, y, j);
  }

  lemma SettleKeeps(q: Queue, c: Call, outcome: Option<string>)
    requires Inv(q) && c in q.calls && c.key in q.items && c.key.job in q.jobs && c.token == Tok(q, c.key)
    ensures Inv(Report(q, c, outcome))
  {
    CallFacts(q, c);
    FlyingFacts(q, c.key);
    hide Lists, ItemsOk, CallsOk, Held, JobsOk, WorkersOk, LogOk, Unfinished, ItemOk, Lands, Ends, Report;
    SettleLands(q, c, outcome);
    var t := Report(q, c, outcome);
    LandKeeps(q, t, c.key, t.items[c.key], t.jobs[c.key.job]);
    SettleCalls(q, c, outcome, t.items[c.key], t.jobs[c.key.job]);
    SettleLog(q, c, outcome, t.items[c.key], t.jobs[c.key.job]);
  }

  lemma StaleCalls(q: Queue, c: Call, outcome: Option<string>)
    requires CallsOk(q) && Held(q) && c in q.calls && c.key in q.items && c.key.job in q.jobs && c.token != Tok(q, c.key)
    ensures CallsOk(Report(q, c, outcome)) && Held(Report(q, c, outcome))
  {
    var t := Report(q, c, outcome);
    assert t.workers.Keys == q.workers.Keys;
    forall d | d in t.calls ensures CallOk(t, d) { assert CallOk(q, d); }
    forall k | k in t.items ensures HeldOk(t, k) { assert HeldOk(q, k); }
  }

  lemma StaleWorkers(q: Queue, c: Call, outcome: Option<string>)
    requires WorkersOk(q) && !q.calm && c.key in q.items && c.key.job in q.jobs && c.token != Tok(q, c.key)
    ensures WorkersOk(Report(q, c, outcome))
  {
    hide OwnedBy;
  }

  lemma StaleLog(q: Queue, c: Call, outcome: Option<string>)
    requires LogOk(q) && c in q.calls && c.key in q.items && c.key.job in q.jobs && c.token != Tok(q, c.key)
    ensures LogOk(Report(q, c, outcome))
  {
    hide Used, OncePerWorker;
    var t := Report(q, c, outcome);
    CallRemoved(q.calls, c);
    assert OncePerWorker(t) by { SameLog(q, t); }
    forall k | k in t.items ensures CountOk(t, k) { assert CountOk(q, k); }
  }

  lemma SameLog(q: Queue, t: Queue)
    requires OncePerWorker(q) && t.log == q.log && t.items == q.items
    ensures OncePerWorker(t)
  {}

  lemma SameItems(q: Queue, t: Queue)
    requires ItemsOk(q) && t.items == q.items && t.jobs == q.jobs && t.workers.Keys == q.workers.Keys
    ensures ItemsOk(t)
  {
    hide ItemOk;
  }

  lemma SameJobs(q: Queue, t: Queue)
    requires JobsOk(q) && t.items == q.items && t.jobs == q.jobs && t.itemOrder == q.itemOrder
    ensures JobsOk(t)
  {
    hide JobOk;
  }

  lemma StaleRest(q: Queue, c: Call, outcome: Option<string>)
    requires Lists(q) && ItemsOk(q) && JobsOk(q) && c.key in q.items && c.key.job in q.jobs && c.token != Tok(q, c.key)
    ensures var t := Report(q, c, outcome); Lists(t) && ItemsOk(t) && JobsOk(t)
  {
    hide Lists, ItemsOk, JobsOk;
    var t := Report(q, c, outcome);
    SameLists(q, t);
    SameItems(q, t);
    SameJobs(q, t);
  }

  lemma StaleKeeps(q: Queue, c: Call, outcome: Option<string>)
    requires Inv(q) && c in q.calls && c.key in q.items && c.key.job in q.jobs && c.token != Tok(q, c.key)
    ensures Inv(Report(q, c, outcome))
  {
    CallFacts(q, c);
    hide Lists, ItemsOk, CallsOk, Held, JobsOk, WorkersOk, LogOk, Report;
    StaleCalls(q, c, outcome);
    StaleWorkers(q, c, outcome);
    StaleLog(q, c, outcome);
    StaleRest(q, c, outcome);
  }

  lemma ReportKeeps(q: Queue, c: Call, outcome: Option<string>)
    requires Inv(q) && c in q.calls && c.key in q.items && c.key.job in q.jobs
    ensures Inv(Report(q, c, outcome))
  {
    hide Inv, Report;
    if c.token == Tok(q, c.key) { SettleKeeps(q, c, outcome); } else { StaleKeeps(q, c, outcome); }
  }

  // ---------------------------------------------------------------- a lease expires

  lemma ExpireLands(q: Queue, k: Key)
    requires k in q.items && k.job in q.jobs && InFlight(q.items[k])
    requires ItemOk(q.items[k], q.jobs[k.job].maxAttempts, q.workers.Keys) && Unfinished(q.jobs[k.job])
    ensures var t := ExpireItem(q, k);
            Lands(q, t, k, t.items[k], t.jobs[k.job]) && Ends(q.items[k], q.jobs[k.job], t.items[k], t.jobs[k.job], q.workers.Keys)
  {
    PunishEnds(q.items[k], q.jobs[k.job], q.workers.Keys);
    hide ItemOk, Used, PunishedItem, PunishedJob, Recompute, Unfinished, Follows, StatusOk;
  }

  lemma ExpireTried(q: Queue, k: Key)
    requires k in q.items && k.job in q.jobs && InFlight(q.items[k])
    requires ItemOk(q.items[k], q.jobs[k.job].maxAttempts, q.workers.Keys)
    ensures |ExpireItem(q, k).items[k].tried| == |q.items[k].tried| + 1
  {}

  lemma ExpireCalls(q: Queue, k: Key, y: Item, j: Job)
    requires CallsOk(q) && Held(q) && k in q.items && k.job in q.jobs && Lands(q, ExpireItem(q, k), k, y, j)
    ensures CallsOk(ExpireItem(q, k)) && Held(ExpireItem(q, k))
  {
    hide Used, PunishedItem, PunishedJob, Recompute;
    var t := ExpireItem(q, k);
    assert t.workers.Keys == q.workers.Keys;
    forall c | c in t.calls ensures CallOk(t, c) { assert CallOk(q, c); }
    forall i | i in t.items ensures HeldOk(t, i) { assert HeldOk(q, i); }
  }

  lemma ExpireLog(q: Queue, k: Key, y: Item, j: Job)
    requires LogOk(q) && k in q.items && k.job in q.jobs && Lands(q, ExpireItem(q, k), k, y, j)
    requires |y.tried| == |q.items[k].tried| + 1
    ensures LogOk(ExpireItem(q, k))
  {
    var t := ExpireItem(q, k);
    assert t.calls == q.calls && t.finished == q.finished && t.log == q.log && t.tok == q.tok[k := Tok(q, k) + 1];
    hide Counts, OncePerWorker, Lands, ExpireItem;
    LandLog(q, t, k, y, j);
    LandCounts(q, t, k, y, j);
  }

  lemma ExpireKeeps(q: Queue, k: Key)
    requires Inv(q) && Reapable(q, k)
    ensures Inv(ExpireItem(q, k)) && SameOrder(q, ExpireItem(q, k))
  {
    FlyingFacts(q, k);
    ExpireTried(q, k);
    hide Lists, ItemsOk, CallsOk, Held, JobsOk, WorkersOk, LogOk, Unfinished, ItemOk, Lands, Ends, PunishedItem, PunishedJob, Recompute;
    ExpireLands(q, k);
    assert SameOrder(q, ExpireItem(q, k));
    hide ExpireItem;
    var t := ExpireItem(q, k);
    LandKeeps(q, t, k, t.items[k], t.jobs[k.job]);
    ExpireCalls(q, k, t.items[k], t.jobs[k.job]);
    ExpireLog(q, k, t.items[k], t.jobs[k.job]);
  }

  lemma {:induction false} ExpireAllKeeps(q: Queue, keys: seq<Key>)
    requires Inv(q)
    ensures Inv(ExpireAll(q, keys)) && SameOrder(q, ExpireAll(q, keys))
  {
    hide Inv, ExpireItem;
    if keys != [] {
      ExpireAllKeeps(q, keys[..|keys| - 1]);
      var before := ExpireAll(q, keys[..|keys| - 1]);
      if Reapable(before, keys[|keys| - 1]) { ExpireKeeps(before, keys[|keys| - 1]); }
    }
  }

  // ---------------------------------------------------------------- other steps

  lemma BeginJobs(q: Queue, c: Call)
    requires JobsOk(q) && c.key in q.items && q.items[c.key].state == Leased && c.key.job in q.itemOrder && c.key.job in q.jobs
    ensures JobsOk(BeginStep(q, c))
  {
    hide Tallied;
    var j := q.jobs[c.key.job];
    assert JobOk(j, q.items, c.key.job);
    assert q.jobs[c.key.job := j] == q.jobs;
    PutJobs(q, c.key, q.items[c.key].(state := Running), j, BeginStep(q, c));
  }

  lemma BeginWorkers(q: Queue, c: Call)
    requires WorkersOk(q) && c.key in q.items && q.items[c.key].state == Leased
    ensures WorkersOk(BeginStep(q, c))
  {
    hide OwnedBy;
    var t := BeginStep(q, c);
    forall w | w in t.workers ensures SlotOk(t.workers[w], |OwnedBy(t.items, w)|, t.calm) {
      OneOwnerMoved(q.items, c.key, t.items[c.key], w);
    }
  }

  /** Marking a lease as running changes nothing the invariant looks at but the state, within flight. */
  lemma BegunLike(items: map<Key, Item>, k: Key)
    ensures Begun(items, k).Keys == items.Keys
    ensures forall i :: i in items ==> AlikeItem(items[i], Begun(items, k)[i])
  {}

  predicate AlikeItem(x: Item, y: Item) {
    y.owner == x.owner && y.attempt == x.attempt && y.tried == x.tried && (y.state == x.state || (InFlight(x) && InFlight(y)))
  }

  lemma BeginCalls(q: Queue, c: Call)
    requires CallsOk(q) && Held(q) && c in q.calls
    ensures CallsOk(BeginStep(q, c)) && Held(BeginStep(q, c))
  {
    BegunLike(q.items, c.key);
    hide Begun;
    var t := BeginStep(q, c);
    assert t.calls.Keys == q.calls.Keys;
    forall d | d in t.calls ensures CallOk(t, d) { assert CallOk(q, d); }
    forall k | k in t.items ensures HeldOk(t, k) { assert HeldOk(q, k); }
  }

  lemma BeginLog(q: Queue, c: Call)
    requires LogOk(q) && c in q.calls
    ensures LogOk(BeginStep(q, c))
  {
    BegunLike(q.items, c.key);
    hide Begun;
    var t := BeginStep(q, c);
    assert t.calls.Keys == q.calls.Keys;
    assert OncePerWorker(t) by { hide Counts; }
    forall k | k in t.items ensures CountOk(t, k) { hide OncePerWorker; assert CountOk(q, k); }
    hide OncePerWorker, Counts;
  }

  lemma BeginItems(q: Queue, c: Call)
    requires ItemsOk(q) && Lists(q)
    ensures ItemsOk(BeginStep(q, c)) && Lists(BeginStep(q, c))
  {
    BegunLike(q.items, c.key);
    hide Lists, Begun, ItemOk;
    var t := BeginStep(q, c);
    SameLists(q, t);
    forall k | k in t.items ensures ItemOk(t.items[k], t.jobs[k.job].maxAttempts, t.workers.Keys) {
      AlikeOk(q.items[k], t.items[k], q.jobs[k.job].maxAttempts, q.workers.Keys);
    }
  }

  lemma AlikeOk(x: Item, y: Item, max: int, pool: set<string>)
    requires ItemOk(x, max, pool) && AlikeItem(x, y)
    ensures ItemOk(y, max, pool)
  {}

  lemma BeginKeeps(q: Queue, c: Call)
    requires Inv(q) && c in q.calls
    ensures Inv(BeginStep(q, c))
  {
    CallFacts(q, c);
    hide Lists, ItemsOk, CallsOk, Held, JobsOk, WorkersOk, LogOk, ItemOk;
    BeginItems(q, c);
    BeginCalls(q, c);
    BeginLog(q, c);
    if q.items[c.key].state == Leased {
      FlyingFacts(q, c.key);
      BeginJobs(q, c);
      BeginWorkers(q, c);
    } else {
      SameJobs(q, BeginStep(q, c));
      SameWorkers(q, BeginStep(q, c));
    }
  }

  lemma SameWorkers(q: Queue, t: Queue)
    requires WorkersOk(q) && t.workers == q.workers && t.items == q.items && t.calm == q.calm
    ensures WorkersOk(t)
  {}

  predicate Droppable(q: Queue, k: Key) {
    k in q.items && k.job in q.jobs && k.job in q.itemOrder && q.items[k].state == Queued && !Over(q.jobs[k.job].status)
  }

  lemma CancelCalls(q: Queue, k: Key)
    requires CallsOk(q) && Held(q) && Droppable(q, k)
    ensures CallsOk(CancelItem(q, k)) && Held(CancelItem(q, k))
  {
    var t := CancelItem(q, k);
    forall c | c in t.calls ensures CallOk(t, c) { assert CallOk(q, c); }
    forall i | i in t.items ensures HeldOk(t, i) { assert HeldOk(q, i); }
  }

  lemma CancelItems(q: Queue, k: Key)
    requires ItemsOk(q) && Lists(q) && Droppable(q, k)
    ensures ItemsOk(CancelItem(q, k)) && Lists(CancelItem(q, k))
  {
    hide Lists;
    SameLists(q, CancelItem(q, k));
  }

  lemma CancelWorkers(q: Queue, k: Key)
    requires WorkersOk(q) && Droppable(q, k)
    ensures WorkersOk(CancelItem(q, k))
  {
    hide OwnedBy;
    var t := CancelItem(q, k);
    forall w | w in t.workers ensures SlotOk(t.workers[w], |OwnedBy(t.items, w)|, t.calm) {
      OneOwnerMoved(q.items, k, t.items[k], w);
    }
  }

  lemma CancelLog(q: Queue, k: Key)
    requires LogOk(q) && Droppable(q, k)
    ensures LogOk(CancelItem(q, k))
  {
    var t := CancelItem(q, k);
    assert OncePerWorker(t) by { hide Counts; }
    forall i | i in t.items ensures CountOk(t, i) { hide OncePerWorker; assert CountOk(q, i); }
    hide OncePerWorker, Counts;
  }

  lemma CancelJobs(q: Queue, k: Key)
    requires JobsOk(q) && Droppable(q, k)
    ensures JobsOk(CancelItem(q, k))
  {
    hide Tallied;
    var t := CancelItem(q, k);
    PutJobs(q, k, t.items[k], t.jobs[k.job], t);
  }

  lemma CancelItemKeeps(q: Queue, k: Key)
    requires Inv(q) && Droppable(q, k)
    ensures Inv(CancelItem(q, k))
  {
    hide Lists, ItemsOk, CallsOk, Held, JobsOk, WorkersOk, LogOk, CancelItem;
    CancelItems(q, k);
    CancelCalls(q, k);
    CancelJobs(q, k);
    CancelWorkers(q, k);
    CancelLog(q, k);
  }

  /** Cancelling the queued items of one job leaves every other job and every status alone. */
  lemma {:induction false} CancelAllKeeps(q: Queue, job: string, keys: seq<Key>)
    requires Inv(q) && job in q.itemOrder && job in q.jobs && !Over(q.jobs[job].status) && forall k :: k in keys ==> k.job == job
    ensures var t := CancelAll(q, keys);
            && Inv(t) && SameOrder(q, t) && t.jobs.Keys == q.jobs.Keys && t.jobs[job].status == q.jobs[job].status
            && (forall j :: j in q.jobs && j != job ==> t.jobs[j] == q.jobs[j])
  {
    hide Inv;
    if keys != [] {
      CancelAllKeeps(q, job, keys[..|keys| - 1]);
      var t := CancelAll(q, keys[..|keys| - 1]);
      if Droppable(t, keys[|keys| - 1]) { CancelItemKeeps(t, keys[|keys| - 1]); }
    }
  }

  lemma StatusJobs(q: Queue, job: string, status: Status)
    requires JobsOk(q) && job in q.jobs && status != Completed && status != CompletedWithErrors
    ensures JobsOk(q.(jobs := q.jobs[job := q.jobs[job].(status := status)]))
  {
    hide Of;
  }

  lemma StatusItems(q: Queue, job: string, status: Status)
    requires ItemsOk(q) && job in q.jobs
    ensures ItemsOk(q.(jobs := q.jobs[job := q.jobs[job].(status := status)]))
  {
    hide ItemOk;
  }

  /** Only the status of one job changes. */
  lemma StatusKeeps(q: Queue, job: string, status: Status)
    requires Inv(q) && job in q.jobs && status != Completed && status != CompletedWithErrors
    ensures Inv(q.(jobs := q.jobs[job := q.jobs[job].(status := status)]))
  {
    hide Lists, ItemsOk, CallsOk, Held, JobsOk, WorkersOk, LogOk;
    var t := q.(jobs := q.jobs[job := q.jobs[job].(status := status)]);
    SameLists(q, t);
    StatusItems(q, job, status);
    StatusJobs(q, job, status);
    SameCalls(q, t);
    SameWorkers(q, t);
  }

  lemma SameCalls(q: Queue, t: Queue)
    requires CallsOk(q) && Held(q) && LogOk(q)
    requires t.calls == q.calls && t.items == q.items && t.tok == q.tok && t.itemOrder == q.itemOrder && t.log == q.log
    requires t.finished == q.finished && q.workers.Keys <= t.workers.Keys && (t.calm ==> q.calm)
    ensures CallsOk(t) && Held(t) && LogOk(t)
  {
    forall c | c in t.calls ensures CallOk(t, c) { assert CallOk(q, c); }
    forall k | k in t.items ensures HeldOk(t, k) { assert HeldOk(q, k); }
    forall k | k in t.items ensures CountOk(t, k) { assert CountOk(q, k); }
    assert OncePerWorker(t) by { SameLog(q, t); }
  }

  lemma CancelKeeps(q: Queue, job: string)
    requires Inv(q)
    ensures Inv(CancelStep(q, job))
  {
    hide Inv;
    if job in q.jobs && !Over(q.jobs[job].status) {
      if job in q.itemOrder {
        ListKeys(q, job);
        CancelAllKeeps(q, job, Listed(q, job));
      }
      StatusKeeps(CancelAll(q, Listed(q, job)), job, Aborted);
    }
  }

  lemma ListKeys(q: Queue, job: string)
    requires Inv(q) && job in q.itemOrder
    ensures job in q.jobs && ListOk(q, job)
  {}

  lemma PauseKeeps(q: Queue, job: string)
    requires Inv(q)
    ensures Inv(PauseStep(q, job))
  {
    hide Inv;
    if job in q.jobs && Dispatchable(q.jobs[job].status) { StatusKeeps(q, job, Paused); }
  }

  // ---------------------------------------------------------------- registration

  lemma PoolGrows(x: Item, max: int, pool: set<string>, w: string)
    requires ItemOk(x, max, pool)
    ensures ItemOk(x, max, pool + {w})
  {
    assert w in pool + {w} && (x.tried != [] ==> x.tried[0] in pool);
    assert w in pool ==> pool + {w} == pool;
    assert w !in pool ==> |pool + {w}| == |pool| + 1;
  }

  lemma EnrolItems(q: Queue, w: string, concurrency: Option<int>)
    requires ItemsOk(q)
    ensures ItemsOk(Enrol(q, w, concurrency))
  {
    hide ItemOk;
    var t := Enrol(q, w, concurrency);
    assert t.workers.Keys == q.workers.Keys + {w};
    forall k | k in t.items ensures ItemOk(t.items[k], t.jobs[k.job].maxAttempts, t.workers.Keys) {
      PoolGrows(q.items[k], q.jobs[k.job].maxAttempts, q.workers.Keys, w);
    }
  }

  lemma NothingOwned(q: Queue, w: string)
    requires ItemsOk(q) && w !in q.workers
    ensures OwnedBy(q.items, w) == {}
  {
    forall k | k in q.items && InFlight(q.items[k]) ensures q.items[k].owner != w {
      assert ItemOk(q.items[k], q.jobs[k.job].maxAttempts, q.workers.Keys);
    }
  }

  lemma EnrolWorkers(q: Queue, w: string, concurrency: Option<int>)
    requires ItemsOk(q) && WorkersOk(q)
    ensures WorkersOk(Enrol(q, w, concurrency))
  {
    if w !in q.workers { NothingOwned(q, w); }
    hide ItemsOk, OwnedBy;
  }

  lemma EnrolKeeps(q: Queue, w: string, concurrency: Option<int>)
    requires Inv(q)
    ensures Inv(Enrol(q, w, concurrency))
  {
    hide Lists, ItemsOk, CallsOk, Held, JobsOk, WorkersOk, LogOk;
    var t := Enrol(q, w, concurrency);
    SameLists(q, t);
    EnrolItems(q, w, concurrency);
    EnrolWorkers(q, w, concurrency);
    SameCalls(q, t);
    SameJobs(q, t);
  }

  // ---------------------------------------------------------------- submission

  lemma {:induction false} AddItemsIs(items: map<Key, Item>, keys: seq<Key>)
    ensures var (ok, out) := AddItems(items, keys);
            && (ok <==> NoDup(keys) && forall k :: k in keys ==> k !in items)
            && (forall k :: k in items ==> k in out && out[k] == items[k])
            && (forall k :: k in out && k !in items ==> k in keys && out[k] == FRESH)
            && (ok ==> forall k :: k in keys ==> k in out)
    decreases |keys|
  {
    if keys != [] && keys[0] !in items {
      var rest := keys[1..];
      AddItemsIs(items[keys[0] := FRESH], rest);
      assert keys == [keys[0]] + rest;
      assert NoDup(keys) <==> NoDup(rest) && keys[0] !in rest;
    }
  }

  /** `out` is `items` with new queued items of `job`. */
  ghost predicate Grown(items: map<Key, Item>, out: map<Key, Item>, job: string) {
    && (forall k :: k in items ==> k in out && out[k] == items[k])
    && (forall k :: k in out && k !in items ==> k.job == job && out[k] == FRESH)
  }

  ghost predicate Foreign(items: map<Key, Item>, job: string) {
    forall k :: k in items ==> k.job != job
  }

  lemma AdmitGrows(q: Queue, job: string, inputs: seq<Input>, maxAttempts: int)
    requires Foreign(q.items, job)
    ensures var t := Admit(q, job, inputs, maxAttempts).1; Grown(q.items, t.items, job)
    ensures Admit(q, job, inputs, maxAttempts).0 <==> inputs != [] && NoDup(Identities(job, inputs))
    ensures Admit(q, job, inputs, maxAttempts).0 ==>
              forall k :: k in Identities(job, inputs) <==> k in Admit(q, job, inputs, maxAttempts).1.items && k.job == job
  {
    AddItemsIs(q.items, Identities(job, inputs));
  }

  lemma GrownOf(items: map<Key, Item>, out: map<Key, Item>, job: string, other: string, kind: Kind)
    requires Grown(items, out, job) && other != job
    ensures Of(out, other, kind) == Of(items, other, kind)
  {}

  lemma GrownTally(items: map<Key, Item>, out: map<Key, Item>, job: string, other: string, j: Job)
    requires Grown(items, out, job) && other != job && JobOk(j, items, other)
    ensures JobOk(j, out, other)
  {
    hide Of;
    GrownOf(items, out, job, other, Waiting);
    GrownOf(items, out, job, other, Flying);
    GrownOf(items, out, job, other, Good);
    GrownOf(items, out, job, other, Bad);
    GrownOf(items, out, job, other, Dropped);
  }

  lemma {:induction false} NoDupCount<T>(s: seq<T>)
    requires NoDup(s)
    ensures |set x | x in s| == |s|
  {
    if s != [] {
      NoDupCount(s[1..]);
      assert (set x | x in s) == (set x | x in s[1..]) + {s[0]};
      assert s[0] !in s[1..];
    }
  }

  lemma NewTally(items: map<Key, Item>, out: map<Key, Item>, job: string, keys: seq<Key>, j: Job)
    requires Grown(items, out, job) && Foreign(items, job) && NoDup(keys) && (forall k :: k in keys <==> k in out && k.job == job)
    requires j == Job(Active, j.maxAttempts, |keys|, |keys|, 0, 0, 0)
    ensures JobOk(j, out, job)
  {
    NoDupCount(keys);
    assert Of(out, job, Waiting) == set k | k in keys;
    assert Of(out, job, Flying) == {};
    assert Of(out, job, Good) == {};
    assert Of(out, job, Bad) == {};
    assert Of(out, job, Dropped) == {};
  }

  lemma NewForeign(q: Queue, job: string)
    requires ItemsOk(q) && job !in q.jobs
    ensures Foreign(q.items, job)
  {
    hide ItemOk;
  }

  lemma AdmitItems(q: Queue, t: Queue, job: string, j: Job)
    requires ItemsOk(q) && job !in q.jobs && Grown(q.items, t.items, job) && t.jobs == q.jobs[job := j] && t.workers == q.workers && j.maxAttempts >= 1
    ensures ItemsOk(t)
  {
    hide ItemOk;
    forall k | k in t.items ensures k.job in t.jobs && ItemOk(t.items[k], t.jobs[k.job].maxAttempts, t.workers.Keys) {
      if k !in q.items { FreshOk(t.jobs[k.job].maxAttempts, t.workers.Keys); }
    }
  }

  lemma FreshOk(max: int, pool: set<string>)
    requires max >= 1
    ensures ItemOk(FRESH, max, pool)
  {
    assert pool != {} ==> |pool| > 0;
  }

  lemma AdmitCalls(q: Queue, t: Queue, job: string)
    requires CallsOk(q) && Held(q) && Grown(q.items, t.items, job)
    requires t.calls == q.calls && t.tok == q.tok && t.workers == q.workers && t.calm == q.calm
    requires forall j :: j in q.itemOrder ==> j in t.itemOrder
    ensures CallsOk(t) && Held(t)
  {
    forall c | c in t.calls ensures CallOk(t, c) { assert CallOk(q, c); }
    forall k | k in t.items ensures HeldOk(t, k) { if k in q.items { assert HeldOk(q, k); } }
  }

  lemma {:induction false} CountZero(log: seq<Lease>, k: Key)
    requires forall l :: l in log ==> l.key != k
    ensures CountFor(log, k) == 0
  {
    if log != [] { CountZero(log[..|log| - 1], k); }
  }

  lemma AdmitLog(q: Queue, t: Queue, job: string)
    requires LogOk(q) && Held(q) && Grown(q.items, t.items, job)
    requires t.calls == q.calls && t.tok == q.tok && t.log == q.log && t.finished == q.finished
    ensures LogOk(t)
  {
    forall k | k in t.items ensures CountOk(t, k) {
      hide HeldOk;
      if k in q.items { assert CountOk(q, k); } else { CountZero(q.log, k); }
    }
    assert OncePerWorker(t) by { hide Counts, HeldOk, Used; }
    hide OncePerWorker, Counts;
  }

  lemma AdmitWorkers(q: Queue, t: Queue, job: string)
    requires WorkersOk(q) && Grown(q.items, t.items, job) && t.workers == q.workers && t.calm == q.calm
    ensures WorkersOk(t)
  {
    forall w ensures OwnedBy(t.items, w) == OwnedBy(q.items, w) {}
  }

  /** A new job, listed or (when an identity repeats) not. */
  ghost predicate Entered(q: Queue, t: Queue, job: string, keys: seq<Key>, j: Job) {
    && job !in q.jobs && Foreign(q.items, job) && Grown(q.items, t.items, job)
    && t.jobs == q.jobs[job := j] && t.jobOrder == q.jobOrder + [job] && t.defaultMax == q.defaultMax
    && t.workers == q.workers && t.tok == q.tok && t.calls == q.calls && t.log == q.log && t.finished == q.finished && t.calm == q.calm
    && (t.itemOrder == q.itemOrder || (t.itemOrder == q.itemOrder[job := keys] && NoDup(keys) && forall k :: k in keys <==> k in t.items && k.job == job))
    && j == Job(Active, j.maxAttempts, |keys|, |keys|, 0, 0, 0) && j.maxAttempts >= 1
  }

  lemma AdmitLists(q: Queue, t: Queue, job: string, keys: seq<Key>, j: Job)
    requires Lists(q) && Entered(q, t, job, keys, j)
    ensures Lists(t)
  {
    forall i | 0 <= i < |t.jobOrder| ensures t.jobOrder[i] in t.jobs {
      if i < |q.jobOrder| { assert q.jobOrder[i] in q.jobs; }
    }
    assert job in q.itemOrder ==> ListOk(q, job);
    forall o | o in t.itemOrder ensures ListOk(t, o) {
      if o != job { assert ListOk(q, o); }
    }
  }

  lemma AdmitJobs(q: Queue, t: Queue, job: string, keys: seq<Key>, j: Job)
    requires JobsOk(q) && Entered(q, t, job, keys, j)
    ensures JobsOk(t)
  {
    hide JobOk;
    forall o | o in t.itemOrder ensures o in t.jobs && JobOk(t.jobs[o], t.items, o) && t.jobs[o].total == |t.itemOrder[o]| {
      if o in q.itemOrder {
        GrownTally(q.items, t.items, job, o, q.jobs[o]);
      } else {
        NewTally(q.items, t.items, job, keys, j);
      }
    }
  }

  lemma AdmitEnters(q: Queue, job: string, inputs: seq<Input>, maxAttempts: int)
    requires q.defaultMax >= 1 && ItemsOk(q) && job !in q.jobs && inputs != []
    ensures Entered(q, Admit(q, job, inputs, maxAttempts).1, job, Identities(job, inputs), NewJob(q, |inputs|, maxAttempts))
  {
    hide ItemsOk, Grown, Foreign, AddItems, NoDup;
    NewForeign(q, job);
    AdmitGrows(q, job, inputs, maxAttempts);
  }

  lemma EnteredKeeps(q: Queue, t: Queue, job: string, keys: seq<Key>, j: Job)
    requires Inv(q) && Entered(q, t, job, keys, j)
    ensures Inv(t)
  {
    hide Lists, ItemsOk, CallsOk, Held, JobsOk, WorkersOk, LogOk, Grown, Foreign;
    AdmitLists(q, t, job, keys, j);
    AdmitItems(q, t, job, j);
    AdmitCalls(q, t, job);
    AdmitJobs(q, t, job, keys, j);
    AdmitWorkers(q, t, job);
    AdmitLog(q, t, job);
  }

  lemma AdmitKeeps(q: Queue, job: string, inputs: seq<Input>, maxAttempts: int)
    requires Inv(q) && job !in q.jobs
    ensures Inv(Admit(q, job, inputs, maxAttempts).1)
  {
    if inputs != [] {
      AdmitEnters(q, job, inputs, maxAttempts);
      hide Inv, Entered, Admit;
      EnteredKeeps(q, Admit(q, job, inputs, maxAttempts).1, job, Identities(job, inputs), NewJob(q, |inputs|, maxAttempts));
    }
  }

  // ---------------------------------------------------------------- every event

  lemma FinishKeeps(q: Queue, c: Call, outcome: Option<string>, pick: map<nat, string>)
    requires Inv(q) && c in q.calls
    ensures Inv(FinishStep(q, c, outcome, pick))
  {
    CallFacts(q, c);
    hide Inv, Dispatch, Report;
    ReportKeeps(q, c, outcome);
    DispatchKeeps(Report(q, c, outcome), pick);
  }

  lemma ApplyKeeps(q: Queue, e: Event)
    requires Inv(q)
    ensures Inv(Apply(q, e))
  {
    hide Inv, Dispatch, Admit, Enrol, BeginStep, FinishStep, ExpireAll, PauseStep, CancelStep;
    match e
    case Submit(job, inputs, maxAttempts, pick) =>
      if job !in q.jobs {
        AdmitKeeps(q, job, inputs, maxAttempts);
        DispatchKeeps(Admit(q, job, inputs, maxAttempts).1, pick);
      }
    case Register(w, concurrency, pick) =>
      EnrolKeeps(q, w, concurrency);
      DispatchKeeps(Enrol(q, w, concurrency), pick);
    case Begin(c) => if c in q.calls { BeginKeeps(q, c); }
    case Finish(c, outcome, pick) => if c in q.calls { FinishKeeps(q, c, outcome, pick); }
    case Reap(keys, pick) =>
      ExpireAllKeeps(q, keys);
      DispatchKeeps(ExpireAll(q, keys), pick);
    case Pause(job) => PauseKeeps(q, job);
    case Cancel(job) => CancelKeeps(q, job);
  }

  lemma {:induction false} ExecuteKeeps(max: int, events: seq<Event>)
    ensures Inv(Execute(max, events))
  {
    if events != [] {
      ExecuteKeeps(max, events[..|events| - 1]);
      ApplyKeeps(Execute(max, events[..|events| - 1]), events[|events| - 1]);
    }
  }
}
