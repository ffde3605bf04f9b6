/** What one pass of the dispatcher does, told by the leases it grants. */
module JobQueueDispatch {
  import opened JobQueueModel

  // ---------------------------------------------------------------- the contract

  /** A lease that may be granted: a waiting item of a job that is neither stopped nor over, and a registered worker not
      tried for it. */
  predicate Grantable(q: Queue, l: Lease) {
    && l.key in q.items && l.key.job in q.jobs && Dispatchable(q.jobs[l.key.job].status) && q.items[l.key].state == Queued
    && l.worker in q.workers && l.worker !in q.items[l.key].tried
  }

  ghost predicate LeasedBy(made: seq<Lease>, k: Key) {
    exists i :: 0 <= i < |made| && made[i].key == k
  }

  /** The item is in flight with the worker, one attempt and one token on. */
  predicate TakenUp(q: Queue, t: Queue, l: Lease) {
    && Grantable(q, l) && l.key in t.items && Tok(t, l.key) == Tok(q, l.key) + 1
    && t.items[l.key] == q.items[l.key].(state := Leased, owner := l.worker, attempt := q.items[l.key].attempt + 1)
  }

  predicate LeftAlone(q: Queue, t: Queue, k: Key) {
    Tok(t, k) == Tok(q, k) && (k in t.items <==> k in q.items) && (k in q.items ==> t.items[k] == q.items[k])
  }

  /** Every lease is taken up, no item is leased twice, and no other item changes. */
  ghost predicate ItemsLeased(q: Queue, t: Queue, made: seq<Lease>) {
    && (forall i :: 0 <= i < |made| ==> TakenUp(q, t, made[i]))
    && (forall i, j :: 0 <= i < j < |made| ==> made[i].key != made[j].key)
    && (forall k :: !LeasedBy(made, k) ==> LeftAlone(q, t, k))
  }

  function ToWorker(made: seq<Lease>, w: string): nat {
    if made == [] then 0 else ToWorker(made[..|made| - 1], w) + if made[|made| - 1].worker == w then 1 else 0
  }

  function OfJob(made: seq<Lease>, job: string): nat {
    if made == [] then 0 else OfJob(made[..|made| - 1], job) + if made[|made| - 1].key.job == job then 1 else 0
  }

  /** Each worker has as many more slots in use as it got leases, within its slots. */
  predicate SlotsUsed(q: Queue, t: Queue, made: seq<Lease>) {
    && t.workers.Keys == q.workers.Keys
    && forall w :: w in q.workers ==>
         && t.workers[w] == q.workers[w].(active := q.workers[w].active + ToWorker(made, w))
         && (ToWorker(made, w) > 0 ==> t.workers[w].active <= t.workers[w].slots)
  }

  /** Each job has as many items moved from waiting to running as it got leases. */
  predicate JobsMoved(q: Queue, t: Queue, made: seq<Lease>) {
    && t.jobs.Keys == q.jobs.Keys
    && forall job :: job in q.jobs ==>
         t.jobs[job] == q.jobs[job].(queued := q.jobs[job].queued - OfJob(made, job), running := q.jobs[job].running + OfJob(made, job))
  }

  /** One call for each lease, under its token. */
  ghost predicate CallsMade(q: Queue, t: Queue, made: seq<Lease>) {
    forall c :: c in t.calls <==> c in q.calls || exists i :: 0 <= i < |made| && c == CallOf(q, made[i])
  }

  function CallOf(q: Queue, l: Lease): Call {
    Call(l.key, l.worker, Tok(q, l.key) + 1)
  }

  /** `k` is item `m` of the job submitted as number `i`. */
  predicate ListedAt(q: Queue, i: int, m: int, k: Key) {
    0 <= i < |q.jobOrder| && q.jobOrder[i] in q.itemOrder && 0 <= m < |q.itemOrder[q.jobOrder[i]]| && q.itemOrder[q.jobOrder[i]][m] == k
  }

  /** Earlier job first, and within a job earlier item first. */
  ghost predicate Precedes(q: Queue, k: Key, l: Key) {
    exists i, m, j, n :: ListedAt(q, i, m, k) && ListedAt(q, j, n, l) && (i < j || (i == j && m < n))
  }

  ghost predicate InOrder(q: Queue, made: seq<Lease>) {
    forall i, j :: 0 <= i < j < |made| ==> Precedes(q, made[i].key, made[j].key)
  }

  predicate ListsKept(q: Queue, t: Queue) {
    t.jobOrder == q.jobOrder && t.itemOrder == q.itemOrder && t.finished == q.finished && t.calm == q.calm && t.defaultMax == q.defaultMax
  }

  ghost predicate DispatchReply(q: Queue, t: Queue) {
    && q.log <= t.log && ListsKept(q, t)
    && var made := t.log[|q.log|..];
       ItemsLeased(q, t, made) && SlotsUsed(q, t, made) && JobsMoved(q, t, made) && CallsMade(q, t, made) && InOrder(q, made)
  }

  // ---------------------------------------------------------------- one offer

  /** `t` is `q` after the leases `made`. */
  ghost predicate After(q: Queue, t: Queue, made: seq<Lease>) {
    t.log == q.log + made && ListsKept(q, t) && ItemsLeased(q, t, made) && SlotsUsed(q, t, made) && JobsMoved(q, t, made) && CallsMade(q, t, made)
  }

  lemma LastLeased(made: seq<Lease>, l: Lease)
    ensures forall k :: LeasedBy(made + [l], k) <==> LeasedBy(made, k) || k == l.key
  {
    forall k ensures LeasedBy(made + [l], k) <==> LeasedBy(made, k) || k == l.key {
      if LeasedBy(made, k) { var i :| 0 <= i < |made| && made[i].key == k; assert (made + [l])[i].key == k; }
      if k == l.key { assert (made + [l])[|made|].key == k; }
    }
  }

  lemma LastCounted(made: seq<Lease>, l: Lease)
    ensures forall w :: ToWorker(made + [l], w) == ToWorker(made, w) + if l.worker == w then 1 else 0
    ensures forall job :: OfJob(made + [l], job) == OfJob(made, job) + if l.key.job == job then 1 else 0
  {
    assert (made + [l])[..|made|] == made;
  }

  lemma Waiting(q: Queue, t: Queue, made: seq<Lease>, k: Key)
    requires ItemsLeased(q, t, made) && k in t.items && t.items[k].state == Queued
    ensures !LeasedBy(made, k) && LeftAlone(q, t, k)
  {
    hide LeftAlone, Grantable, Tok;
  }

  lemma MayGrant(q: Queue, t: Queue, made: seq<Lease>, k: Key, w: string)
    requires LeftAlone(q, t, k) && SlotsUsed(q, t, made) && JobsMoved(q, t, made) && Ready(t, k) && Eligible(t, t.items[k], w)
    ensures Grantable(q, Lease(k, w))
  {
    hide ToWorker, OfJob, Tok, SomeEligible;
  }

  lemma LeaseItems(q: Queue, t: Queue, made: seq<Lease>, k: Key, w: string)
    requires ItemsLeased(q, t, made) && Ready(t, k) && Eligible(t, t.items[k], w) && Grantable(q, Lease(k, w))
    ensures ItemsLeased(q, LeaseItem(t, k, w), made + [Lease(k, w)])
  {
    var all, u := made + [Lease(k, w)], LeaseItem(t, k, w);
    Waiting(q, t, made, k);
    hide Ready, Eligible, Grantable;
    assert TakenUp(q, u, Lease(k, w));
    LastLeased(made, Lease(k, w));
    forall l ensures l != k && LeftAlone(q, t, l) ==> LeftAlone(q, u, l) {}
    assert forall l: Lease :: l.key != k && TakenUp(q, t, l) ==> TakenUp(q, u, l);
    hide TakenUp, LeftAlone;
    assert forall i :: 0 <= i < |made| ==> all[i] == made[i];
    forall i | 0 <= i < |made| ensures made[i].key != k { assert made[i].key == k ==> LeasedBy(made, k); }
    hide LeasedBy;
  }

  lemma LeaseSlots(q: Queue, t: Queue, made: seq<Lease>, k: Key, w: string)
    requires SlotsUsed(q, t, made) && Ready(t, k) && Eligible(t, t.items[k], w)
    ensures SlotsUsed(q, LeaseItem(t, k, w), made + [Lease(k, w)])
  {
    LastCounted(made, Lease(k, w));
    hide ToWorker, OfJob, Tok, SomeEligible;
  }

  lemma LeaseJobs(q: Queue, t: Queue, made: seq<Lease>, k: Key, w: string)
    requires JobsMoved(q, t, made) && Ready(t, k) && Eligible(t, t.items[k], w)
    ensures JobsMoved(q, LeaseItem(t, k, w), made + [Lease(k, w)])
  {
    LastCounted(made, Lease(k, w));
    hide ToWorker, OfJob, Tok, SomeEligible;
  }

  lemma LeaseCalls(q: Queue, t: Queue, made: seq<Lease>, k: Key, w: string)
    requires CallsMade(q, t, made) && Ready(t, k) && Eligible(t, t.items[k], w) && Tok(t, k) == Tok(q, k)
    ensures CallsMade(q, LeaseItem(t, k, w), made + [Lease(k, w)])
  {
    var all, u := made + [Lease(k, w)], LeaseItem(t, k, w);
    assert all[|made|] == Lease(k, w) && forall i :: 0 <= i < |made| ==> all[i] == made[i];
    assert forall c :: c in u.calls <==> c in t.calls || c == CallOf(q, Lease(k, w));
    hide LeaseItem, CallOf;
    forall c ensures c in u.calls <==> c in q.calls || exists i :: 0 <= i < |all| && c == CallOf(q, all[i]) {
      if i :| 0 <= i < |made| && c == CallOf(q, made[i]) { assert c == CallOf(q, all[i]); }
      if c == CallOf(q, Lease(k, w)) { assert c == CallOf(q, all[|made|]); }
    }
  }

  lemma OfferAfter(q: Queue, t: Queue, made: seq<Lease>, k: Key, pick: map<nat, string>) returns (more: seq<Lease>)
    requires After(q, t, made)
    ensures After(q, OfferItem(t, k, pick), made + more) && (more == [] || (|more| == 1 && more[0].key == k))
  {
    if Ready(t, k) {
      var w := Chosen(t, t.items[k], pick);
      more := [Lease(k, w)];
      LeaseAfter(q, t, made, k, w);
    } else {
      more := [];
      assert made + more == made;
    }
  }

  lemma LeaseAfter(q: Queue, t: Queue, made: seq<Lease>, k: Key, w: string)
    requires After(q, t, made) && Ready(t, k) && Eligible(t, t.items[k], w)
    ensures After(q, LeaseItem(t, k, w), made + [Lease(k, w)])
  {
    hide ItemsLeased, SlotsUsed, JobsMoved, CallsMade, Eligible, Grantable, SomeEligible, Tok;
    Waiting(q, t, made, k);
    MayGrant(q, t, made, k, w);
    LeaseItems(q, t, made, k, w);
    LeaseSlots(q, t, made, k, w);
    LeaseJobs(q, t, made, k, w);
    LeaseCalls(q, t, made, k, w);
  }

  // ---------------------------------------------------------------- all offers

  ghost predicate Has(keys: seq<Key>, k: Key) {
    exists a :: 0 <= a < |keys| && keys[a] == k
  }

  ghost predicate Has2(keys: seq<Key>, k: Key, l: Key) {
    exists a, b :: 0 <= a < b < |keys| && keys[a] == k && keys[b] == l
  }

  /** The leases are for some of the keys, in the order of the keys. */
  ghost predicate Picks(keys: seq<Key>, made: seq<Lease>) {
    (forall i :: 0 <= i < |made| ==> Has(keys, made[i].key)) && forall i, j :: 0 <= i < j < |made| ==> Has2(keys, made[i].key, made[j].key)
  }

  lemma HasMore(keys: seq<Key>, k: Key)
    ensures Has(keys + [k], k)
    ensures forall l :: Has(keys, l) ==> Has(keys + [k], l) && Has2(keys + [k], l, k)
    ensures forall l, m :: Has2(keys, l, m) ==> Has2(keys + [k], l, m)
  {
    var wide := keys + [k];
    assert wide[|keys|] == k && forall a :: 0 <= a < |keys| ==> wide[a] == keys[a];
  }

  lemma PicksMore(keys: seq<Key>, made: seq<Lease>, k: Key, more: seq<Lease>)
    requires Picks(keys, made) && (more == [] || (|more| == 1 && more[0].key == k))
    ensures Picks(keys + [k], made + more)
  {
    HasMore(keys, k);
    hide Has, Has2;
    var all := made + more;
    assert forall i :: 0 <= i < |made| ==> all[i] == made[i];
    assert more != [] ==> |all| == |made| + 1 && all[|made|].key == k;
  }

  lemma {:induction false} OffersAfter(q: Queue, keys: seq<Key>, pick: map<nat, string>) returns (made: seq<Lease>)
    ensures After(q, OfferAll(q, keys, pick), made) && Picks(keys, made)
  {
    if keys == [] {
      made := [];
      assert After(q, q, []);
    } else {
      var front, k := keys[..|keys| - 1], keys[|keys| - 1];
      var first := OffersAfter(q, front, pick);
      hide After, Picks, OfferItem;
      var more := OfferAfter(q, OfferAll(q, front, pick), first, k, pick);
      PicksMore(front, first, k, more);
      assert front + [k] == keys;
      made := first + more;
    }
  }

  // ---------------------------------------------------------------- the order of the agenda

  lemma {:induction false} AgendaAt(q: Queue, n: nat, a: nat) returns (i: nat, m: nat)
    requires n <= |q.jobOrder| && a < |Agenda(q, q.jobOrder[..n])|
    ensures i < n && ListedAt(q, i, m, Agenda(q, q.jobOrder[..n])[a])
  {
    var front := q.jobOrder[..n];
    assert front != [] && front[..n - 1] == q.jobOrder[..n - 1];
    var before := Agenda(q, q.jobOrder[..n - 1]);
    if a < |before| {
      i, m := AgendaAt(q, n - 1, a);
    } else {
      i, m := n - 1, a - |before|;
    }
  }

  /** Earlier in the agenda is earlier in submission order. */
  lemma {:induction false} AgendaOrder(q: Queue, n: nat, a: nat, b: nat)
    requires n <= |q.jobOrder| && a < b < |Agenda(q, q.jobOrder[..n])|
    ensures Precedes(q, Agenda(q, q.jobOrder[..n])[a], Agenda(q, q.jobOrder[..n])[b])
  {
    var front := q.jobOrder[..n];
    assert front != [] && front[..n - 1] == q.jobOrder[..n - 1];
    var before := Agenda(q, q.jobOrder[..n - 1]);
    if b < |before| {
      AgendaOrder(q, n - 1, a, b);
    } else if a < |before| {
      var i, m := AgendaAt(q, n - 1, a);
      assert ListedAt(q, n - 1, b - |before|, Agenda(q, front)[b]);
    } else {
      assert ListedAt(q, n - 1, a - |before|, Agenda(q, front)[a]) && ListedAt(q, n - 1, b - |before|, Agenda(q, front)[b]);
    }
  }

  lemma PicksInOrder(q: Queue, made: seq<Lease>)
    requires Picks(Agenda(q, q.jobOrder), made)
    ensures InOrder(q, made)
  {
    hide Agenda, Precedes;
    assert q.jobOrder[..|q.jobOrder|] == q.jobOrder;
    forall i, j | 0 <= i < j < |made| ensures Precedes(q, made[i].key, made[j].key) {
      var keys := Agenda(q, q.jobOrder);
      assert Has2(keys, made[i].key, made[j].key);
      var a, b :| 0 <= a < b < |keys| && keys[a] == made[i].key && keys[b] == made[j].key;
      AgendaOrder(q, |q.jobOrder|, a, b);
    }
  }

  /** A pass of the dispatcher grants leases in submission order, each for a waiting item of a running job to a worker with
      a free slot not tried for it, at most one an item; items, tokens, calls, slots and counters change by exactly those. */
  lemma DispatchMeans(q: Queue, pick: map<nat, string>)
    ensures DispatchReply(q, Dispatch(q, pick))
  {
    hide OfferAll, Agenda, ItemsLeased, SlotsUsed, JobsMoved, CallsMade, InOrder, Picks;
    var made := OffersAfter(q, Agenda(q, q.jobOrder), pick);
    PicksInOrder(q, made);
    assert (q.log + made)[|q.log|..] == made;
  }
}
