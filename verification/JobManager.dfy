/** The queue engine as the program holds it: maps changed in place under the mutex, one method per critical
    section, each proved equal to the step the theorems are about. */
module JobManager {
  import opened JobQueueModel
  import opened JobQueueInvariant
  import opened JobQueueDispatch
  import opened JobQueueOutcomes

  // ---------------------------------------------------------------- weighted choice

  function Sum(weights: seq<int>): int {
    if weights == [] then 0 else Sum(weights[..|weights| - 1]) + weights[|weights| - 1]
  }

  lemma {:induction false} SumGrows(weights: seq<int>, i: nat, j: nat)
    requires i <= j <= |weights| && forall n :: 0 <= n < |weights| ==> weights[n] > 0
    ensures Sum(weights[..i]) <= Sum(weights[..j])
  {
    if i < j {
      SumGrows(weights, i, j - 1);
      assert weights[..j][..j - 1] == weights[..j - 1];
    }
  }

  /** The candidate whose stretch of `[0, total)` holds `r`; each candidate owns a stretch as long as its weight,
      so the scan always stops inside the list. */
  method WeightedIndex(weights: seq<int>, r: int) returns (i: nat)
    requires (forall n :: 0 <= n < |weights| ==> weights[n] > 0) && 0 <= r < Sum(weights)
    ensures i < |weights| && Sum(weights[..i]) <= r < Sum(weights[..i]) + weights[i]
    ensures forall j :: 0 <= j < |weights| && Sum(weights[..j]) <= r < Sum(weights[..j]) + weights[j] ==> j == i
  {
    i := 0;
    var left := r;
    assert weights[..|weights|] == weights;
    while left >= weights[i]
      invariant i < |weights| && left == r - Sum(weights[..i]) && left >= 0
      decreases |weights| - i
    {
      assert weights[..i + 1][..i] == weights[..i];
      left := left - weights[i];
      i := i + 1;
    }
    forall j | 0 <= j < |weights| && Sum(weights[..j]) <= r < Sum(weights[..j]) + weights[j] ensures j == i {
      assert weights[..i + 1][..i] == weights[..i] && weights[..j + 1][..j] == weights[..j];
      if j < i { SumGrows(weights, j + 1, i); }
      if i < j { SumGrows(weights, i + 1, j); }
    }
  }

  // ---------------------------------------------------------------- recorded choices

  lemma {:induction false} LogGrows(q: Queue, keys: seq<Key>, pick: map<nat, string>)
    ensures |q.log| <= |OfferAll(q, keys, pick).log|
  {
    hide Ready;
    if keys != [] { LogGrows(q, keys[..|keys| - 1], pick); }
  }

  /** Two records of choices that agree on the leases granted dispatch alike. */
  lemma {:induction false} SameChoices(q: Queue, keys: seq<Key>, p: map<nat, string>, p': map<nat, string>)
    requires forall n :: n in p ==> n in p' && p'[n] == p[n]
    requires forall n :: n in p' && n !in p ==> n >= |OfferAll(q, keys, p).log|
    ensures OfferAll(q, keys, p') == OfferAll(q, keys, p)
  {
    if keys != [] {
      var before := OfferAll(q, keys[..|keys| - 1], p);
      assert |before.log| <= |OfferItem(before, keys[|keys| - 1], p).log| by { hide Ready; }
      SameChoices(q, keys[..|keys| - 1], p, p');
      hide SomeEligible;
    }
  }

  ghost predicate Extends(p: map<nat, string>, p': map<nat, string>, from: nat, to: nat) {
    && (forall n :: n in p ==> n in p' && p'[n] == p[n])
    && (forall n :: n in p' && n !in p ==> n >= from)
    && (forall n :: n in p' ==> n < to)
  }

  predicate SameNames(q: Queue, t: Queue) {
    t.jobOrder == q.jobOrder && t.itemOrder == q.itemOrder && t.items.Keys == q.items.Keys && t.jobs.Keys == q.jobs.Keys
  }

  lemma OfferNames(q: Queue, k: Key)
    ensures forall pick: map<nat, string> :: SameNames(q, OfferItem(q, k, pick))
  {
    hide SomeEligible;
  }

  lemma NothingOffered(q: Queue, pick: map<nat, string>)
    ensures OfferAll(q, [], pick) == q
  {}

  lemma {:induction false} IdleJob(q: Queue, done: seq<Key>, keys: seq<Key>, pick: map<nat, string>)
    requires var t := OfferAll(q, done, pick); forall k :: k in keys ==> k.job !in t.jobs || !Dispatchable(t.jobs[k.job].status)
    ensures OfferAll(q, done + keys, pick) == OfferAll(q, done, pick)
  {
    if keys == [] {
      assert done + keys == done;
    } else {
      IdleJob(q, done, keys[..|keys| - 1], pick);
      assert (done + keys)[..|done + keys| - 1] == done + keys[..|keys| - 1];
    }
  }

  lemma ReportNames(q: Queue, c: Call, outcome: Option<string>)
    requires c.key in q.items && c.key.job in q.jobs
    ensures SameNames(q, Report(q, c, outcome)) && Report(q, c, outcome).defaultMax == q.defaultMax
  {}

  lemma ExpireNames(q: Queue, k: Key)
    requires k in q.items && k.job in q.jobs
    ensures SameNames(q, ExpireItem(q, k)) && !InFlight(ExpireItem(q, k).items[k])
    ensures forall i :: i in q.items && i != k ==> ExpireItem(q, k).items[i] == q.items[i]
  {}

  lemma NothingExpired(q: Queue)
    ensures ExpireAll(q, []) == q
  {}

  /** One reaper pass over `keys`: exactly the leases added to `met` ended, all of them expired. */
  ghost predicate Ended(was: map<Key, Item>, now: map<Key, Item>, before: seq<Key>, met: seq<Key>, keys: seq<Key>, expired: set<Key>) {
    && now.Keys == was.Keys
    && (forall k :: k in met && k !in before ==> k in keys && k in expired && k in was && InFlight(was[k]) && !InFlight(now[k]))
    && (forall k :: k in was && k !in met ==> now[k] == was[k])
    && (forall k :: k in before ==> k in met)
    && (forall k :: k in was && !InFlight(was[k]) ==> !InFlight(now[k]))
  }

  lemma EndedGrows(was: map<Key, Item>, now: map<Key, Item>, before: seq<Key>, met: seq<Key>, keys: seq<Key>, expired: set<Key>, k: Key, y: Item)
    requires Ended(was, now, before, met, keys, expired) && k in keys && k in expired && k in now && InFlight(now[k]) && !InFlight(y)
    ensures Ended(was, now[k := y], before, met + [k], keys, expired)
  {
    hide InFlight;
  }

  /** No expired lease is left among the first `n` of `keys`. */
  ghost predicate Swept(items: map<Key, Item>, keys: seq<Key>, n: nat, expired: set<Key>) {
    n <= |keys| && forall i :: 0 <= i < n && keys[i] in expired ==> keys[i] in items && !InFlight(items[keys[i]])
  }

  lemma SweptMore(was: map<Key, Item>, now: map<Key, Item>, keys: seq<Key>, n: nat, expired: set<Key>)
    requires Swept(was, keys, n, expired) && n < |keys| && keys[n] in now && (keys[n] in expired ==> !InFlight(now[keys[n]]))
    requires now == was || (now == was[keys[n] := now[keys[n]]] && !InFlight(now[keys[n]]))
    ensures Swept(now, keys, n + 1, expired)
  {
    hide InFlight;
  }

  lemma OneMoreExpired(q: Queue, met: seq<Key>, k: Key)
    requires Reapable(ExpireAll(q, met), k)
    ensures ExpireAll(q, met + [k]) == ExpireItem(ExpireAll(q, met), k)
  {
    hide ExpireItem;
    assert (met + [k])[..|met|] == met;
  }

  lemma AdmittedLists(q: Queue, job: string, inputs: seq<Input>, maxAttempts: int)
    requires Lists(q) && job !in q.jobs && Foreign(q.items, job) && inputs != []
    ensures Lists(Admit(q, job, inputs, maxAttempts).1)
  {
    AdmitGrows(q, job, inputs, maxAttempts);
    var t := Admit(q, job, inputs, maxAttempts).1;
    hide Grown, Foreign, AddItems;
    AdmitLists(q, t, job, Identities(job, inputs), NewJob(q, |inputs|, maxAttempts));
  }

  lemma OneMoreCancelled(q: Queue, keys: seq<Key>, i: nat)
    requires i < |keys|
    ensures CancelAll(q, keys[..i + 1]) == CancelItem(CancelAll(q, keys[..i]), keys[i])
  {
    hide CancelItem;
    assert keys[..i + 1][..i] == keys[..i];
  }

  lemma CancelNames(q: Queue, k: Key)
    ensures SameNames(q, CancelItem(q, k))
  {}

  class Manager {
    const defaultMax: int
    var jobs: map<string, Job>
    var jobOrder: seq<string>
    var items: map<Key, Item>
    var itemOrder: map<string, seq<Key>>
    var workers: map<string, Slot>
    var leaseTok: map<Key, nat>
    ghost var calls: map<Call, bool>
    ghost var log: seq<Lease>
    ghost var finished: nat
    ghost var calm: bool

    ghost function View(): Queue
      reads this
    {
      Queue(defaultMax, jobs, jobOrder, items, itemOrder, workers, leaseTok, calls, log, finished, calm)
    }

    constructor (defaultMaxAttempts: int)
      ensures View() == Init(defaultMaxAttempts)
      ensures defaultMax >= 1 && (defaultMaxAttempts >= 1 ==> defaultMax == defaultMaxAttempts) && (defaultMaxAttempts < 1 ==> defaultMax == 8)
      ensures items == map[] && jobs == map[] && workers == map[] && calls == map[]
    {
      defaultMax := if defaultMaxAttempts <= 0 then 8 else defaultMaxAttempts;
      jobs, jobOrder, items, itemOrder, workers, leaseTok := map[], [], map[], map[], map[], map[];
      calls, log, finished, calm := map[], [], 0, true;
    }

    /** Collects the workers with headroom that the item has not tried, each once, with its headroom as weight. */
    method Candidates(x: Item) returns (ids: seq<string>, weights: seq<int>)
      ensures |ids| == |weights| && NoDup(ids) && forall w :: w in ids <==> Eligible(View(), x, w)
      ensures forall i :: 0 <= i < |ids| ==> ids[i] in workers && weights[i] == workers[ids[i]].slots - workers[ids[i]].active
    {
      ids, weights := [], [];
      var left := workers.Keys;
      while left != {}
        invariant left <= workers.Keys && |ids| == |weights| && NoDup(ids)
        invariant forall w :: w in ids <==> w !in left && Eligible(View(), x, w)
        invariant forall i :: 0 <= i < |ids| ==> ids[i] in workers && weights[i] == workers[ids[i]].slots - workers[ids[i]].active
        decreases left
      {
        var w :| w in left;
        left := left - {w};
        if workers[w].active < workers[w].slots && w !in x.tried {
          ids, weights := ids + [w], weights + [workers[w].slots - workers[w].active];
        }
      }
    }

    method PickWorker(x: Item) returns (w: Option<string>)
      ensures w.None? <==> !SomeEligible(View(), x)
      ensures w.Some? ==> Eligible(View(), x, w.value)
    {
      var ids, weights := Candidates(x);
      if ids == [] { return None; }
      assert forall i :: 0 <= i < |ids| ==> ids[i] in ids;
      SumGrows(weights, 1, |weights|);
      assert weights[..1][..0] == [] && weights[..|weights|] == weights;
      var r :| 0 <= r < Sum(weights);
      var i := WeightedIndex(weights, r);
      return Some(ids[i]);
    }

    method LeaseLocked(k: Key, w: string)
      requires k in items && k.job in jobs && w in workers
      modifies this`items, this`jobs, this`workers, this`leaseTok, this`calls, this`log
      ensures View() == LeaseItem(old(View()), k, w)
    {
      var x, j := items[k], jobs[k.job];
      items := items[k := x.(state := Leased, owner := w, attempt := x.attempt + 1)];
      workers := workers[w := workers[w].(active := workers[w].active + 1)];
      jobs := jobs[k.job := j.(queued := j.queued - 1, running := j.running + 1)];
      var token := (if k in leaseTok then leaseTok[k] else 0) + 1;
      leaseTok := leaseTok[k := token];
      calls, log := calls[Call(k, w, token) := false], log + [Lease(k, w)];
    }

    /** Offers one item; `pick` is `before` with the choice made here, if any. */
    method OfferLocked(k: Key, ghost before: map<nat, string>) returns (ghost pick: map<nat, string>)
      requires k in items && k.job in jobs && forall n :: n in before ==> n < |log|
      modifies this`items, this`jobs, this`workers, this`leaseTok, this`calls, this`log
      ensures View() == OfferItem(old(View()), k, pick)
      ensures Extends(before, pick, |old(log)|, |log|)
    {
      pick := before;
      if Dispatchable(jobs[k.job].status) && items[k].state == Queued {
        var w := PickWorker(items[k]);
        if w.Some? {
          pick := before[|log| := w.value];
          assert Chosen(View(), items[k], pick) == w.value;
          hide SomeEligible, Eligible, Chosen;
          LeaseLocked(k, w.value);
        }
      }
    }

    /** Offers the items of one job in order. `done` is what was offered before, starting from `q`. */
    method DispatchJob(keys: seq<Key>, ghost q: Queue, ghost done: seq<Key>, ghost before: map<nat, string>) returns (ghost pick: map<nat, string>)
      requires View() == OfferAll(q, done, before) && (forall n :: n in before ==> n < |log|)
      requires forall k :: k in keys ==> k in items && k.job in jobs
      modifies this`items, this`jobs, this`workers, this`leaseTok, this`calls, this`log
      ensures View() == OfferAll(q, done + keys, pick) && (forall n :: n in pick ==> n < |log|) && SameNames(old(View()), View())
    {
      hide OfferItem;
      pick := before;
      var j := 0;
      assert done + keys[..0] == done;
      while j < |keys|
        invariant 0 <= j <= |keys| && SameNames(old(View()), View())
        invariant View() == OfferAll(q, done + keys[..j], pick)
        invariant forall n :: n in pick ==> n < |log|
      {
        ghost var earlier, offered := pick, done + keys[..j];
        assert keys[j] in keys;
        OfferNames(View(), keys[j]);
        pick := OfferLocked(keys[j], earlier);
        SameChoices(q, offered, earlier, pick);
        assert done + keys[..j + 1] == offered + [keys[j]];
        assert (offered + [keys[j]])[..|offered|] == offered;
        j := j + 1;
      }
      assert keys[..j] == keys;
    }

    /** Fills every slot it can, over the jobs in submission order; `pick` records the random choices. */
    method TryDispatchLocked() returns (ghost pick: map<nat, string>)
      requires Lists(View())
      modifies this`items, this`jobs, this`workers, this`leaseTok, this`calls, this`log
      ensures View() == Dispatch(old(View()), pick)
      ensures DispatchReply(old(View()), View())
    {
      hide OfferAll, DispatchReply;
      ghost var q := View();
      pick := map[];
      var i := 0;
      NothingOffered(q, pick);
      while i < |jobOrder|
        invariant 0 <= i <= |jobOrder| && SameNames(q, View())
        invariant View() == OfferAll(q, Agenda(q, jobOrder[..i]), pick)
        invariant forall n :: n in pick ==> n < |log|
      {
        var job := jobOrder[i];
        assert jobOrder[..i + 1][..i] == jobOrder[..i];
        var keys := if job in itemOrder then itemOrder[job] else [];
        assert job in q.itemOrder ==> ListOk(q, job);
        if Dispatchable(jobs[job].status) {
          pick := DispatchJob(keys, q, Agenda(q, jobOrder[..i]), pick);
        } else {
          IdleJob(q, Agenda(q, jobOrder[..i]), keys, pick);
        }
        i := i + 1;
      }
      assert jobOrder[..i] == jobOrder;
      DispatchMeans(q, pick);
    }

    /** First section of the goroutine of a call. */
    method BeginItem(c: Call)
      modifies this`items, this`calls
      ensures View() == BeginStep(old(View()), c)
    {
      if c.key in items && items[c.key].state == Leased {
        items := items[c.key := items[c.key].(state := Running)];
      }
      calls := calls[c := true];
    }

    method FreeSlot(w: string)
      modifies this`workers
      ensures workers == Freed(old(workers), w)
    {
      if w in workers && workers[w].active > 0 {
        workers := workers[w := workers[w].(active := workers[w].active - 1)];
      }
    }

    /** A worker reported: the slot is freed in any case, the outcome counts only under the current token. */
    method CompleteItem(c: Call, outcome: Option<string>) returns (ghost pick: map<nat, string>)
      requires Lists(View())
      modifies this
      ensures View() == FinishStep(old(View()), c, outcome, pick)
      ensures Inv(old(View())) && c in old(calls) && c.token == Tok(old(View()), c.key) ==> FinishReply(old(View()), View(), c, outcome)
    {
      hide FinishStep, Lists, Inv, FinishReply;
      ghost var q := View();
      pick := ReportAndDispatch(c, outcome);
      if Inv(q) && c in q.calls && c.token == Tok(q, c.key) { FinishMeans(q, c, outcome, pick); }
    }

    method ReportAndDispatch(c: Call, outcome: Option<string>) returns (ghost pick: map<nat, string>)
      requires Lists(View())
      modifies this
      ensures View() == FinishStep(old(View()), c, outcome, pick)
    {
      hide Dispatch, Lists;
      pick := map[];
      calls, finished := calls - {c}, finished + 1;
      if c.key in items && c.key.job in jobs {
        SettleLocked(c, outcome);
        assert View() == Report(old(View()), c, outcome);
        ReportNames(old(View()), c, outcome);
        SameLists(old(View()), View());
        hide Report;
        pick := TryDispatchLocked();
      }
    }

    method SettleLocked(c: Call, outcome: Option<string>)
      requires c.key in items && c.key.job in jobs
      modifies this`workers, this`items, this`jobs
      ensures View() == old(Report(View(), c, outcome)).(calls := calls, finished := finished)
      ensures var x, j := old(items[c.key]), old(jobs[c.key.job]);
              c.token == Tok(old(View()), c.key) && InFlight(x) && x.owner == c.worker && ItemOk(x, j.maxAttempts, old(workers).Keys) ==>
                Settles(old(View()), x, j, items[c.key], jobs[c.key.job], c.worker, outcome)
    {
      hide Settles, ItemOk, SettledItem, SettledJob, Freed;
      if InFlight(items[c.key]) && ItemOk(items[c.key], jobs[c.key.job].maxAttempts, workers.Keys) {
        SettleMeans(View(), items[c.key], jobs[c.key.job], outcome);
      }
      ApplyOutcome(c, outcome);
    }

    method ApplyOutcome(c: Call, outcome: Option<string>)
      requires c.key in items && c.key.job in jobs
      modifies this`workers, this`items, this`jobs
      ensures View() == old(Report(View(), c, outcome)).(calls := calls, finished := finished)
    {
      var k := c.key;
      var x, j, pool := items[k], jobs[k.job], |workers|;
      FreeSlot(c.worker);
      if (if k in leaseTok then leaseTok[k] else 0) != c.token { return; }
      if j.status == Aborted {
        if InFlight(x) {
          items, jobs := items[k := x.(state := Cancelled)], jobs[k.job := j.(running := j.running - 1)];
        } else {
          assert items[k := x] == items && jobs[k.job := j] == jobs;
        }
        return;
      }
      if x.state == Success || x.state == Failed {
        assert items[k := x] == items && jobs[k.job := j] == jobs;
        return;
      }
      if outcome.Some? {
        items := items[k := x.(state := Success, result := outcome.value)];
        jobs := jobs[k.job := Recompute(j.(running := j.running - 1, success := j.success + 1))];
      } else {
        FailItemLocked(k, c.worker, pool);
      }
    }

    /** The worker joins the tried list; the item is retried elsewhere or fails for good. */
    method FailItemLocked(k: Key, w: string, pool: nat)
      requires k in items && k.job in jobs
      modifies this`items, this`jobs
      ensures items == old(items)[k := PunishedItem(old(items[k]), old(jobs[k.job]), w, pool)]
      ensures jobs == old(jobs)[k.job := Recompute(PunishedJob(old(items[k]), old(jobs[k.job]), w, pool))]
    {
      var x, j := items[k], jobs[k.job];
      var tried := if w in x.tried then x.tried else x.tried + [w];
      j := j.(running := j.running - 1);
      if (pool > 0 && |tried| >= pool) || x.attempt >= j.maxAttempts {
        items, j := items[k := x.(tried := tried, state := Failed)], j.(failed := j.failed + 1);
      } else {
        items, j := items[k := x.(tried := tried, state := Queued)], j.(queued := j.queued + 1);
      }
      jobs := jobs[k.job := Recompute(j)];
    }

    // -------------------------------------------------------------- the reaper

    method ExpireLocked(k: Key)
      requires k in items && k.job in jobs
      modifies this`items, this`jobs, this`workers, this`leaseTok, this`calm
      ensures View() == ExpireItem(old(View()), k)
    {
      hide PunishedItem, PunishedJob, Recompute, GivesUp;
      var owner, pool := items[k].owner, |workers|;
      leaseTok := leaseTok[k := (if k in leaseTok then leaseTok[k] else 0) + 1];
      FreeSlot(owner);
      FailItemLocked(k, owner, pool);
      calm := false;
    }

    method EndLease(k: Key, ghost q: Queue, ghost met: seq<Key>)
      requires View() == ExpireAll(q, met) && Reapable(View(), k)
      modifies this`items, this`jobs, this`workers, this`leaseTok, this`calm
      ensures View() == ExpireAll(q, met + [k]) && SameNames(old(View()), View())
      ensures items == old(items)[k := items[k]] && !InFlight(items[k])
    {
      hide ExpireItem, ExpireAll;
      ExpireNames(View(), k);
      OneMoreExpired(q, met, k);
      ExpireLocked(k);
    }

    /** The reaper meets one item; `hit` tells whether its lease ended. */
    method ReapItem(k: Key, expired: set<Key>, ghost q: Queue, ghost met: seq<Key>) returns (hit: bool)
      requires View() == ExpireAll(q, met) && k in items && k.job in jobs && k in Listed(View(), k.job)
      modifies this`items, this`jobs, this`workers, this`leaseTok, this`calm
      ensures hit == (InFlight(old(items)[k]) && k in expired) && SameNames(old(View()), View())
      ensures if hit then View() == ExpireAll(q, met + [k]) && items == old(items)[k := items[k]] && !InFlight(items[k]) else View() == old(View())
    {
      hide ExpireAll;
      hit := InFlight(items[k]) && k in expired;
      if hit { EndLease(k, q, met); }
    }

    /** The reaper's pass over one job; `met` lists the leases it ended, before and in this pass. */
    method ReapJob(keys: seq<Key>, expired: set<Key>, ghost q: Queue, ghost before: seq<Key>) returns (ghost met: seq<Key>, any: bool)
      requires View() == ExpireAll(q, before) && forall k :: k in keys ==> k in items && k.job in jobs && k in Listed(View(), k.job)
      modifies this`items, this`jobs, this`workers, this`leaseTok, this`calm
      ensures View() == ExpireAll(q, met) && |before| <= |met| && (any <==> |before| < |met|)
      ensures SameNames(old(View()), View())
      ensures Swept(items, keys, |keys|, expired)
      ensures Ended(old(items), items, before, met, keys, expired)
    {
      met, any := before, false;
      assert Ended(items, items, before, met, keys, expired) && Swept(items, keys, 0, expired);
      hide ExpireAll, Ended, Swept;
      var i := 0;
      while i < |keys|
        invariant 0 <= i <= |keys| && View() == ExpireAll(q, met) && |before| <= |met| && (any <==> |before| < |met|)
        invariant SameNames(old(View()), View()) && Ended(old(items), items, before, met, keys, expired)
        invariant Swept(items, keys, i, expired)
      {
        var k := keys[i];
        assert k in keys && k in items.Keys && k.job in jobs.Keys;
        ghost var was := items;
        var hit := ReapItem(k, expired, q, met);
        SweptMore(was, items, keys, i, expired);
        if hit {
          EndedGrows(old(items), was, before, met, keys, expired, k, items[k]);
          met, any := met + [k], true;
        }
        i := i + 1;
      }
    }

    /** The reaper's pass over all jobs, in any order. */
    method ReapAll(expired: set<Key>) returns (ghost met: seq<Key>, any: bool)
      requires Lists(View())
      modifies this`items, this`jobs, this`workers, this`leaseTok, this`calm
      ensures View() == ExpireAll(old(View()), met) && SameNames(old(View()), View()) && (any <==> met != [])
      ensures forall k: Key :: k in met <==> k in expired && k in Listed(old(View()), k.job) && InFlight(old(items)[k])
    {
      ghost var q := View();
      met := [];
      any := false;
      var left := itemOrder.Keys;
      NothingExpired(q);
      hide ExpireAll;
      while left != {}
        invariant left <= itemOrder.Keys && View() == ExpireAll(q, met) && SameNames(q, View()) && (any <==> met != [])
        invariant forall k :: k in met ==> k in expired && k in q.items && InFlight(q.items[k]) && k in Listed(q, k.job)
        invariant forall k :: k in q.items && k !in met ==> items[k] == q.items[k]
        invariant forall k: Key :: k in Listed(q, k.job) && k.job !in left && k in expired ==> k in q.items && (InFlight(q.items[k]) ==> k in met)
        decreases left
      {
        var job :| job in left;
        left := left - {job};
        assert ListOk(q, job);
        hide Lists;
        var some;
        ghost var before := met;
        met, some := ReapJob(itemOrder[job], expired, q, before);
        any := any || some;
      }
      assert forall job :: job in q.itemOrder ==> ListOk(q, job);
    }

    /** Ends every listed lease in `expired` and refills the slots this freed. */
    method ReapExpiredLeases(expired: set<Key>) returns (ghost met: seq<Key>, ghost pick: map<nat, string>)
      requires Lists(View())
      modifies this
      ensures View() == ReapStep(old(View()), met, pick)
      ensures forall k: Key :: k in met <==> k in expired && k in Listed(old(View()), k.job) && InFlight(old(items)[k])
    {
      assert forall job :: job in itemOrder ==> ListOk(View(), job);
      hide ExpireAll, Dispatch, Lists;
      pick := map[];
      var any;
      met, any := ReapAll(expired);
      assert met == [] ==> View() == old(View()) by { NothingExpired(old(View())); }
      if any {
        SameLists(old(View()), View());
        pick := TryDispatchLocked();
      }
    }

    // -------------------------------------------------------------- submission, registration, control

    /** Enters items one by one and lists them; stops at an identity already present. */
    method EnterItems(job: string, inputs: seq<Input>) returns (ok: bool, order: seq<Key>)
      modifies this`items
      ensures (ok, items) == AddItems(old(items), Identities(job, inputs)) && (ok ==> order == Identities(job, inputs))
    {
      order := [];
      ghost var keys := Identities(job, inputs);
      var i := 0;
      while i < |inputs|
        invariant 0 <= i <= |inputs| && order == keys[..i] && AddItems(old(items), keys) == AddItems(items, keys[i..])
      {
        var key := Identity(job, inputs[i], i);
        assert keys[i..][0] == key && keys[i..][1..] == keys[i + 1..];
        if key in items { return false, order; }
        items := items[key := FRESH];
        order := order + [key];
        i := i + 1;
      }
      assert keys[i..] == [] && order == keys;
      return true, order;
    }

    /** Enters a job and its items; on a repeated identity the job stays without a list. */
    method SubmitJob(job: string, inputs: seq<Input>, maxAttempts: int) returns (ok: bool, ghost pick: map<nat, string>)
      requires Lists(View()) && job !in jobs && Foreign(items, job)
      modifies this
      ensures (ok, View()) == SubmitStep(old(View()), job, inputs, maxAttempts, pick)
    {
      hide Dispatch, Lists, AddItems, Foreign;
      pick := map[];
      if inputs == [] { return false, pick; }
      ghost var q := View();
      var cap := if maxAttempts <= 0 then defaultMax else maxAttempts;
      jobs := jobs[job := Job(Active, cap, |inputs|, |inputs|, 0, 0, 0)];
      jobOrder := jobOrder + [job];
      var order;
      ok, order := EnterItems(job, inputs);
      if !ok { return; }
      itemOrder := itemOrder[job := order];
      AdmittedLists(q, job, inputs, maxAttempts);
      pick := TryDispatchLocked();
    }

    method RegisterWorker(w: string, concurrency: Option<int>) returns (ghost pick: map<nat, string>)
      requires Lists(View())
      modifies this
      ensures View() == RegisterStep(old(View()), w, concurrency, pick)
    {
      var slots := 1;
      if concurrency.Some? && concurrency.value > 0 { slots := concurrency.value; }
      calm := calm && w !in workers;
      workers := workers[w := Slot(slots, 0)];
      SameLists(old(View()), View());
      hide Dispatch, Lists;
      pick := TryDispatchLocked();
    }

    method PauseJob(job: string) returns (found: bool)
      modifies this`jobs
      ensures View() == PauseStep(old(View()), job) && (found <==> job in old(jobs))
    {
      if job !in jobs { return false; }
      if jobs[job].status == Active || jobs[job].status == Pending {
        jobs := jobs[job := jobs[job].(status := Paused)];
      }
      return true;
    }

    method DropItem(k: Key)
      requires k in items && k.job in jobs
      modifies this`items, this`jobs
      ensures View() == CancelItem(old(View()), k)
    {
      if items[k].state == Queued {
        items := items[k := items[k].(state := Cancelled)];
        jobs := jobs[k.job := jobs[k.job].(queued := jobs[k.job].queued - 1)];
      }
    }

    method DropQueued(keys: seq<Key>)
      requires forall k :: k in keys ==> k in items && k.job in jobs
      modifies this`items, this`jobs
      ensures View() == CancelAll(old(View()), keys) && SameNames(old(View()), View())
    {
      ghost var q := View();
      assert CancelAll(q, []) == q;
      hide CancelAll, CancelItem;
      var i := 0;
      while i < |keys|
        invariant 0 <= i <= |keys| && View() == CancelAll(q, keys[..i]) && SameNames(q, View())
      {
        assert keys[i] in keys && keys[i] in items.Keys && keys[i].job in jobs.Keys;
        OneMoreCancelled(q, keys, i);
        CancelNames(View(), keys[i]);
        DropItem(keys[i]);
        i := i + 1;
      }
      assert keys[..i] == keys;
    }

    /** Drops the queued items of a job; those in flight are left for their outcome to be dropped. */
    method CancelJob(job: string) returns (found: bool)
      requires Lists(View())
      modifies this`items, this`jobs
      ensures View() == CancelStep(old(View()), job) && (found <==> job in old(jobs))
    {
      if job !in jobs { return false; }
      found := true;
      if jobs[job].status == Aborted || jobs[job].status == Completed || jobs[job].status == CompletedWithErrors { return; }
      assert job in itemOrder ==> ListOk(View(), job);
      hide Lists, CancelAll;
      DropQueued(if job in itemOrder then itemOrder[job] else []);
      assert job in jobs.Keys;
      jobs := jobs[job := jobs[job].(status := Aborted)];
    }
  }
}
