/** The work queue: jobs, work items, workers, leases, and the effect of each critical section.

    Random choice, lease expiry and worker outcomes are arguments. A worker call in progress is an element of
    `calls`; `log`, `finished` and `calm` record the past for the statements only. */
module JobQueueModel {

  datatype Option<+T> = None | Some(value: T)

  datatype Key = Key(job: string, item: string, version: string)

  datatype ItemState = Queued | Leased | Running | Success | Failed | Cancelled

  datatype Item = Item(state: ItemState, owner: string, attempt: nat, tried: seq<string>, result: string)

  datatype Status = Pending | Active | Paused | Aborted | Completed | CompletedWithErrors

  datatype Job = Job(status: Status, maxAttempts: int, total: int, queued: int, running: int, success: int, failed: int)

  datatype Slot = Slot(slots: int, active: int)

  datatype Call = Call(key: Key, worker: string, token: nat)

  datatype Lease = Lease(key: Key, worker: string)

  datatype Queue = Queue(
    defaultMax: int, jobs: map<string, Job>, jobOrder: seq<string>, items: map<Key, Item>,
    itemOrder: map<string, seq<Key>>, workers: map<string, Slot>, tok: map<Key, nat>,
    calls: map<Call, bool>,   // call in progress -> its goroutine has passed its first section
    log: seq<Lease>,          // every lease granted
    finished: nat,            // calls that reported an outcome
    calm: bool)               // no lease expired, no worker registered twice

  function Init(defaultMaxAttempts: int): Queue {
    Queue(if defaultMaxAttempts <= 0 then 8 else defaultMaxAttempts, map[], [], map[], map[], map[], map[], map[], [], 0, true)
  }

  predicate InFlight(x: Item) {
    x.state == Leased || x.state == Running
  }

  predicate Terminal(x: Item) {
    x.state == Success || x.state == Failed || x.state == Cancelled
  }

  function Tok(q: Queue, k: Key): nat {
    if k in q.tok then q.tok[k] else 0
  }

  predicate Dispatchable(status: Status) {
    status == Pending || status == Active
  }

  // ---------------------------------------------------------------- dispatch

  /** A worker with headroom that has not been tried for the item. */
  predicate Eligible(q: Queue, x: Item, w: string) {
    w in q.workers && q.workers[w].active < q.workers[w].slots && w !in x.tried
  }

  predicate SomeEligible(q: Queue, x: Item) {
    exists w :: w in q.workers && Eligible(q, x, w)
  }

  /** The random choice: any eligible worker, the one named by `pick` if it qualifies. */
  ghost function Chosen(q: Queue, x: Item, pick: map<nat, string>): (w: string)
    requires SomeEligible(q, x)
    ensures Eligible(q, x, w)
  {
    if |q.log| in pick && Eligible(q, x, pick[|q.log|]) then pick[|q.log|]
    else var w :| w in q.workers && Eligible(q, x, w); w
  }

  function LeaseItem(q: Queue, k: Key, w: string): Queue
    requires k in q.items && k.job in q.jobs && w in q.workers
  {
    var x, j := q.items[k], q.jobs[k.job];
    q.(items := q.items[k := x.(state := Leased, owner := w, attempt := x.attempt + 1)],
       jobs := q.jobs[k.job := j.(queued := j.queued - 1, running := j.running + 1)],
       workers := q.workers[w := q.workers[w].(active := q.workers[w].active + 1)],
       tok := q.tok[k := Tok(q, k) + 1],
       calls := q.calls[Call(k, w, Tok(q, k) + 1) := false],
       log := q.log + [Lease(k, w)])
  }

  /** The item may be leased now. */
  predicate Ready(q: Queue, k: Key) {
    && k in q.items && k.job in q.jobs && Dispatchable(q.jobs[k.job].status)
    && q.items[k].state == Queued && SomeEligible(q, q.items[k])
  }

  ghost function OfferItem(q: Queue, k: Key, pick: map<nat, string>): Queue {
    if Ready(q, k) then LeaseItem(q, k, Chosen(q, q.items[k], pick)) else q
  }

  ghost function OfferAll(q: Queue, keys: seq<Key>, pick: map<nat, string>): Queue {
    if keys == [] then q else OfferItem(OfferAll(q, keys[..|keys| - 1], pick), keys[|keys| - 1], pick)
  }

  function Listed(q: Queue, job: string): seq<Key> {
    if job in q.itemOrder then q.itemOrder[job] else []
  }

  /** All listed items, jobs in submission order. */
  function Agenda(q: Queue, jobs: seq<string>): seq<Key> {
    if jobs == [] then [] else Agenda(q, jobs[..|jobs| - 1]) + Listed(q, jobs[|jobs| - 1])
  }

  ghost function Dispatch(q: Queue, pick: map<nat, string>): Queue {
    OfferAll(q, Agenda(q, q.jobOrder), pick)
  }

  // ---------------------------------------------------------------- outcomes

  function Freed(workers: map<string, Slot>, w: string): map<string, Slot> {
    if w in workers && workers[w].active > 0 then workers[w := workers[w].(active := workers[w].active - 1)] else workers
  }

  function WithTried(tried: seq<string>, w: string): seq<string> {
    if w in tried then tried else tried + [w]
  }

  /** A lease of `x` to `w` ended badly: retry elsewhere, or give up when every worker or attempt is used. */
  predicate GivesUp(x: Item, j: Job, w: string, pool: nat) {
    (pool > 0 && |WithTried(x.tried, w)| >= pool) || x.attempt >= j.maxAttempts
  }

  function PunishedItem(x: Item, j: Job, w: string, pool: nat): Item {
    x.(tried := WithTried(x.tried, w), state := if GivesUp(x, j, w, pool) then Failed else Queued)
  }

  function PunishedJob(x: Item, j: Job, w: string, pool: nat): Job {
    var ended := j.(running := j.running - 1);
    if GivesUp(x, j, w, pool) then ended.(failed := j.failed + 1) else ended.(queued := j.queued + 1)
  }

  function Recompute(j: Job): Job {
    if j.status == Aborted || j.status == Paused || j.queued > 0 || j.running > 0 then j
    else j.(status := if j.failed > 0 then CompletedWithErrors else Completed)
  }

  /** The item after the outcome of a call whose token is current. `outcome` is the result, or None for an error. */
  function SettledItem(x: Item, j: Job, w: string, outcome: Option<string>, pool: nat): Item {
    if j.status == Aborted then (if InFlight(x) then x.(state := Cancelled) else x)
    else if x.state == Success || x.state == Failed then x
    else if outcome.Some? then x.(state := Success, result := outcome.value)
    else PunishedItem(x, j, w, pool)
  }

  function SettledJob(x: Item, j: Job, w: string, outcome: Option<string>, pool: nat): Job {
    if j.status == Aborted then (if InFlight(x) then j.(running := j.running - 1) else j)
    else if x.state == Success || x.state == Failed then j
    else if outcome.Some? then Recompute(j.(running := j.running - 1, success := j.success + 1))
    else Recompute(PunishedJob(x, j, w, pool))
  }

  /** A worker call returns: its slot is freed, and the outcome counts only if its token is current. */
  function Report(q: Queue, c: Call, outcome: Option<string>): Queue
    requires c.key in q.items && c.key.job in q.jobs
  {
    var k := c.key;
    var x, j, current := q.items[k], q.jobs[k.job], Tok(q, k) == c.token;
    q.(workers := Freed(q.workers, c.worker), calls := q.calls - {c}, finished := q.finished + 1,
       items := if current then q.items[k := SettledItem(x, j, c.worker, outcome, |q.workers|)] else q.items,
       jobs := if current then q.jobs[k.job := SettledJob(x, j, c.worker, outcome, |q.workers|)] else q.jobs)
  }

  ghost function FinishStep(q: Queue, c: Call, outcome: Option<string>, pick: map<nat, string>): Queue {
    if c.key !in q.items || c.key.job !in q.jobs then q.(calls := q.calls - {c}, finished := q.finished + 1)
    else Dispatch(Report(q, c, outcome), pick)
  }

  function Begun(items: map<Key, Item>, k: Key): map<Key, Item> {
    if k in items && items[k].state == Leased then items[k := items[k].(state := Running)] else items
  }

  /** First section of the goroutine of a call: it marks whatever lease the item is under as running. */
  function BeginStep(q: Queue, c: Call): Queue {
    q.(calls := q.calls[c := true], items := Begun(q.items, c.key))
  }

  // ---------------------------------------------------------------- the reaper

  predicate Reapable(q: Queue, k: Key) {
    k in q.items && k.job in q.jobs && k in Listed(q, k.job) && InFlight(q.items[k])
  }

  function ExpireItem(q: Queue, k: Key): Queue
    requires k in q.items && k.job in q.jobs
  {
    var x, j := q.items[k], q.jobs[k.job];
    q.(items := q.items[k := PunishedItem(x, j, x.owner, |q.workers|)],
       jobs := q.jobs[k.job := Recompute(PunishedJob(x, j, x.owner, |q.workers|))],
       workers := Freed(q.workers, x.owner), tok := q.tok[k := Tok(q, k) + 1], calm := false)
  }

  /** The listed leases that ran out, in the order the reaper meets them. */
  function ExpireAll(q: Queue, keys: seq<Key>): Queue {
    if keys == [] then q
    else
      var before := ExpireAll(q, keys[..|keys| - 1]);
      var k := keys[|keys| - 1];
      if Reapable(before, k) then ExpireItem(before, k) else before
  }

  ghost function ReapStep(q: Queue, keys: seq<Key>, pick: map<nat, string>): Queue {
    if keys == [] then q else Dispatch(ExpireAll(q, keys), pick)
  }

  // ---------------------------------------------------------------- submission, registration, control

  datatype Input = Input(item: string, version: string)

  function Decimal(n: nat): string {
    (if n < 10 then "" else Decimal(n / 10)) + [['0', '1', '2', '3', '4', '5', '6', '7', '8', '9'][n % 10]]
  }

  function Identity(job: string, input: Input, index: nat): Key {
    Key(job, if input.item == "" then "item-" + Decimal(index) else input.item, if input.version == "" then "v1" else input.version)
  }

  function Identities(job: string, inputs: seq<Input>): seq<Key> {
    seq(|inputs|, i requires 0 <= i < |inputs| => Identity(job, inputs[i], i))
  }

  const FRESH := Item(Queued, "", 0, [], "")

  function NewJob(q: Queue, n: nat, maxAttempts: int): Job {
    Job(Active, if maxAttempts <= 0 then q.defaultMax else maxAttempts, n, n, 0, 0, 0)
  }

  /** Adds items one by one; stops at the first identity already present. */
  function AddItems(items: map<Key, Item>, keys: seq<Key>): (bool, map<Key, Item>)
    decreases |keys|
  {
    if keys == [] then (true, items)
    else if keys[0] in items then (false, items)
    else AddItems(items[keys[0] := FRESH], keys[1..])
  }

  /** What submission does before the dispatch that follows; false when it reports an error. */
  function Admit(q: Queue, job: string, inputs: seq<Input>, maxAttempts: int): (bool, Queue) {
    if inputs == [] then (false, q)
    else
      var keys := Identities(job, inputs);
      var (ok, items) := AddItems(q.items, keys);
      var entered := q.(jobs := q.jobs[job := NewJob(q, |inputs|, maxAttempts)], jobOrder := q.jobOrder + [job], items := items);
      (ok, if ok then entered.(itemOrder := q.itemOrder[job := keys]) else entered)
  }

  ghost function SubmitStep(q: Queue, job: string, inputs: seq<Input>, maxAttempts: int, pick: map<nat, string>): (bool, Queue) {
    var (ok, t) := Admit(q, job, inputs, maxAttempts);
    (ok, if ok then Dispatch(t, pick) else t)
  }

  /** `concurrency` is the measured profile, if there is one. */
  function Enrol(q: Queue, w: string, concurrency: Option<int>): Queue {
    var slots := if concurrency.Some? && concurrency.value > 0 then concurrency.value else 1;
    q.(workers := q.workers[w := Slot(slots, 0)], calm := q.calm && w !in q.workers)
  }

  ghost function RegisterStep(q: Queue, w: string, concurrency: Option<int>, pick: map<nat, string>): Queue {
    Dispatch(Enrol(q, w, concurrency), pick)
  }

  function PauseStep(q: Queue, job: string): Queue {
    if job in q.jobs && Dispatchable(q.jobs[job].status) then q.(jobs := q.jobs[job := q.jobs[job].(status := Paused)]) else q
  }

  function CancelItem(q: Queue, k: Key): Queue {
    if k in q.items && k.job in q.jobs && q.items[k].state == Queued
    then q.(items := q.items[k := q.items[k].(state := Cancelled)],
            jobs := q.jobs[k.job := q.jobs[k.job].(queued := q.jobs[k.job].queued - 1)])
    else q
  }

  function CancelAll(q: Queue, keys: seq<Key>): Queue {
    if keys == [] then q else CancelItem(CancelAll(q, keys[..|keys| - 1]), keys[|keys| - 1])
  }

  predicate Over(status: Status) {
    status == Aborted || status == Completed || status == CompletedWithErrors
  }

  function CancelStep(q: Queue, job: string): Queue {
    if job !in q.jobs || Over(q.jobs[job].status) then q
    else
      var t := CancelAll(q, Listed(q, job));
      if job in t.jobs then t.(jobs := t.jobs[job := t.jobs[job].(status := Aborted)]) else t
  }

  // ---------------------------------------------------------------- runs

  datatype Event =
    | Submit(job: string, inputs: seq<Input>, maxAttempts: int, pick: map<nat, string>)
    | Register(worker: string, concurrency: Option<int>, pick: map<nat, string>)
    | Begin(c: Call)
    | Finish(c: Call, outcome: Option<string>, pick: map<nat, string>)
    | Reap(keys: seq<Key>, pick: map<nat, string>)
    | Pause(job: string)
    | Cancel(job: string)

  /** Effect of one event. Generated job ids are new; a call begins once and then reports once. */
  ghost function Apply(q: Queue, e: Event): Queue {
    match e
    case Submit(job, inputs, maxAttempts, pick) => if job in q.jobs then q else SubmitStep(q, job, inputs, maxAttempts, pick).1
    case Register(w, concurrency, pick) => RegisterStep(q, w, concurrency, pick)
    case Begin(c) => if c in q.calls && !q.calls[c] then BeginStep(q, c) else q
    case Finish(c, outcome, pick) => if c in q.calls && q.calls[c] then FinishStep(q, c, outcome, pick) else q
    case Reap(keys, pick) => ReapStep(q, keys, pick)
    case Pause(job) => PauseStep(q, job)
    case Cancel(job) => CancelStep(q, job)
  }

  ghost function Execute(defaultMaxAttempts: int, events: seq<Event>): Queue {
    if events == [] then Init(defaultMaxAttempts)
    else Apply(Execute(defaultMaxAttempts, events[..|events| - 1]), events[|events| - 1])
  }
}
