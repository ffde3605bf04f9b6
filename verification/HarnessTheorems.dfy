/** What the managed Comfy harness guarantees over every interleaving of requests, goroutine steps,
    write failures, crashes and restarts. */
module HarnessTheorems {
  import opened HarnessModel
  import opened HarnessInvariant

  // ---------------------------------------------------------------- submissions

  ghost predicate OncePerChunk(posts: seq<Claim>) {
    forall i, j :: 0 <= i < j < |posts| ==> posts[i].key != posts[j].key || posts[i].chunk != posts[j].chunk
  }

  /** A file in which chunk `p.chunk` of the execution of `p.key` is past, under custody, or cannot run. */
  predicate Settles(image: Rows, p: Claim) {
    p.id in image && image[p.id].key == p.key && Spent(image[p.id], p.chunk)
  }

  lemma ClaimSettled(w: World, past: Past, image: Rows, c: Claim)
    requires Good(w, past, image) && c in past.claimed
    ensures Settles(image, c)
  {
    hide RowLoads;
    assert GoodRow(w, past, c.id, image[c.id]);
  }

  lemma AtMostOnce(w: World, past: Past, image: Rows)
    requires PastOk(past) && Good(w, past, image)
    ensures OncePerChunk(past.posts)
  {
    hide GoodRow;
    forall i, j | 0 <= i < j < |past.posts| ensures past.posts[i].key != past.posts[j].key || past.posts[i].chunk != past.posts[j].chunk {
      assert past.posts[i] in past.posts && past.posts[j] in past.posts;
      ClaimSettled(w, past, image, past.posts[i]);
      ClaimSettled(w, past, image, past.posts[j]);
    }
  }

  /** Every (idempotency key, chunk) is sent to Comfy at most once. */
  lemma EachChunkPostedOnce(w: World, events: seq<Event>)
    ensures OncePerChunk(Execute(w, events).past.posts)
  {
    ExecuteKeeps(w, events);
    var s := Execute(w, events);
    hide Good, Live, PastOk, OncePerChunk;
    var image :| image in s.images;
    AtMostOnce(w, s.past, image);
  }

  /** Whatever file a crash leaves, each request ever sent is accounted for in it. */
  lemma PostedMeansDurable(w: World, events: seq<Event>, image: Rows, p: Claim)
    requires image in Execute(w, events).images && p in Execute(w, events).past.posts
    ensures Settles(image, p)
  {
    ExecuteKeeps(w, events);
    hide Good, Live;
    ClaimSettled(w, Execute(w, events).past, image, p);
  }

  // ---------------------------------------------------------------- outputs

  /** `histories` holds one record for each of the first `n` chunks, each keyed by the prompt that answered
      the one request sent for that chunk. */
  ghost predicate OneRecordPerChunk(past: Past, id: string, key: string, histories: map<string, string>, n: int) {
    && |histories| == n
    && (forall p :: p in histories ==> p in past.origin && past.origin[p] in past.posts
                                       && past.origin[p].id == id && past.origin[p].key == key && past.origin[p].chunk < n)
    && (forall p, q :: p in histories && q in histories && past.origin[p] == past.origin[q] ==> p == q)
    && (forall j: nat :: j < n ==> exists p :: p in histories && past.origin[p] == Claim(id, key, j))
  }

  /** The claims of the first `n` chunks of one execution. */
  function ClaimsBelow(id: string, key: string, n: nat): set<Claim> {
    if n == 0 then {} else ClaimsBelow(id, key, n - 1) + {Claim(id, key, n - 1)}
  }

  lemma {:induction false} ClaimsBelowCount(id: string, key: string, n: nat)
    ensures |ClaimsBelow(id, key, n)| == n
    ensures forall c :: c in ClaimsBelow(id, key, n) <==> c.id == id && c.key == key && c.chunk < n
  {
    if n > 0 { ClaimsBelowCount(id, key, n - 1); }
  }

  lemma {:induction false} InjectiveCount(keys: set<string>, f: map<string, Claim>)
    requires forall p :: p in keys ==> p in f
    requires forall p, q :: p in keys && q in keys && f[p] == f[q] ==> p == q
    ensures |set p | p in keys :: f[p]| == |keys|
  {
    if keys == {} {
      assert (set p | p in keys :: f[p]) == {};
    } else {
      var k :| k in keys;
      InjectiveCount(keys - {k}, f);
      assert (set p | p in keys :: f[p]) == (set p | p in keys - {k} :: f[p]) + {f[k]};
    }
  }

  lemma SubsetOfSameSize<T>(a: set<T>, b: set<T>)
    requires a <= b && |a| == |b|
    ensures a == b
  {
    assert |b - a| == |b| - |a|;
    assert b == a + (b - a);
  }

  lemma RecordsCover(past: Past, id: string, key: string, histories: map<string, string>, n: nat)
    requires PastOk(past) && |histories| == n
    requires forall p :: p in histories ==> p in past.origin && past.origin[p].id == id && past.origin[p].key == key && past.origin[p].chunk < n
    ensures OneRecordPerChunk(past, id, key, histories, n)
  {
    OriginFacts(past);
    hide PastOk;
    EachChunkSeen(past, id, key, histories, n);
  }

  lemma OriginFacts(past: Past)
    requires PastOk(past)
    ensures forall p :: p in past.origin ==> past.origin[p] in past.posts
    ensures forall p, q :: p in past.origin && q in past.origin && past.origin[p] == past.origin[q] ==> p == q
  {}

  lemma EachChunkSeen(past: Past, id: string, key: string, histories: map<string, string>, n: nat)
    requires |histories| == n
    requires forall p, q :: p in past.origin && q in past.origin && past.origin[p] == past.origin[q] ==> p == q
    requires forall p :: p in histories ==> p in past.origin && past.origin[p].id == id && past.origin[p].key == key && past.origin[p].chunk < n
    ensures forall j: nat :: j < n ==> exists p :: p in histories && past.origin[p] == Claim(id, key, j)
  {
    var seen := set p | p in histories.Keys :: past.origin[p];
    InjectiveCount(histories.Keys, past.origin);
    ClaimsBelowCount(id, key, n);
    SubsetOfSameSize(seen, ClaimsBelow(id, key, n));
    forall j: nat | j < n ensures exists p :: p in histories && past.origin[p] == Claim(id, key, j) {
      assert Claim(id, key, j) in seen;
    }
  }

  /** At every moment the recorded outputs are exactly those of the chunks behind the cursor, none lost,
      none repeated, however often the execution yielded, checkpointed, resumed or was reloaded. */
  lemma OutputsMatchProgress(w: World, events: seq<Event>, id: string)
    requires Execute(w, events).up && id in Execute(w, events).rows
    ensures var s := Execute(w, events); var x := s.rows[id];
            && OneRecordPerChunk(s.past, id, x.key, x.histories, x.next)
            && (x.phase == Completed ==> x.next == |x.chunks|)
  {
    ExecuteKeeps(w, events);
    var s := Execute(w, events);
    RowOf(w, s, id);
    hide RowLoads, Live, ImagesOk, PastOk;
    var x := s.rows[id];
    RowFacts(w, s.past, id, x);
    RecordsCover(s.past, id, x.key, x.histories, x.next);
  }

  lemma RowFacts(w: World, past: Past, id: string, x: Execution)
    requires GoodRow(w, past, id, x)
    ensures x.id == id && 0 <= x.next && |x.histories| == x.next && (x.phase == Completed ==> x.next == |x.chunks|) && HistoriesFrom(past, x)
  {}

  /** A checkpoint reference launches at most one resumed run. */
  lemma RefLaunchesOnce(w: World, events: seq<Event>, i: nat, j: nat)
    requires i < j < |Execute(w, events).past.resumed|
    ensures Execute(w, events).past.resumed[i] != Execute(w, events).past.resumed[j]
  {
    ExecuteKeeps(w, events);
    hide Live, ImagesOk;
  }

  // ---------------------------------------------------------------- state files

  /** A row with something under way when the process died: running, cancelling, or with a submission or prompt. */
  predicate UnderWay(x: Execution) {
    x.phase == Running || x.phase == Cancelling || x.submission != NoSubmission || x.prompt != ""
  }

  /** What a row is loaded as: uncertain, for the reason of the restart, if something was under way, and otherwise itself;
      custody, progress and outputs are kept in both cases. */
  predicate LoadedAs(x: Execution, y: Execution) {
    if UnderWay(x) then y == x.(phase := Uncertain, error := RestartCustody) else y == x
  }

  /** Every file the harness can leave is accepted by the loader; each row is loaded as it stands or as uncertain, what
      is loaded is its own recovery, and its rewrite passes the size check of the writer. */
  lemma FilesReload(w: World, events: seq<Event>, image: Rows)
    requires image in Execute(w, events).images
    ensures var rows := LoadedRows(w, image);
            && Loads(w, image)
            && rows.Keys == image.Keys
            && (forall id :: id in image ==> LoadedAs(image[id], rows[id]))
            && Loads(w, rows) && LoadedRows(w, rows) == rows
            && (image != map[] ==> Fits(w, rows))
  {
    hide Good, Inv, Loads, UpgradeHash, LoadedRows, RecoverAll, LoadedAs, Execute;
    ImageGood(w, events, image);
    var past := Execute(w, events).past;
    GoodReloads(w, past, image);
    GoodReloads(w, past, RecoverAll(image));
    RecoverOnce(image);
    RecoveryIsLoading(image);
  }

  lemma RecoveryIsLoading(rows: Rows)
    ensures RecoverAll(rows).Keys == rows.Keys && forall id :: id in rows ==> LoadedAs(rows[id], RecoverAll(rows)[id])
  {}

  lemma ImageGood(w: World, events: seq<Event>, image: Rows)
    requires image in Execute(w, events).images
    ensures Good(w, Execute(w, events).past, image) && (image == map[] || Fits(w, image))
  {
    ExecuteKeeps(w, events);
    hide Good, Live, PastOk, Fits;
  }

  /** A restart on a file the harness left fails only if writing the recovered file fails. It serves exactly the rows of
      that file, each as it is loaded, with no goroutine, nothing pending, and every file the same as what is served if
      anything was under way. */
  lemma RestartSucceeds(w: World, events: seq<Event>, image: Rows)
    requires !Execute(w, events).up && image in Execute(w, events).images
    ensures var s, t := Execute(w, events), Execute(w, events + [Restart(image, Durable)]);
            && t.up && !t.closed && !t.stuck && t.rows.Keys == image.Keys && (forall id :: id in image ==> LoadedAs(image[id], t.rows[id]))
            && t.runs == map[] && t.probes == {} && t.stops == {} && t.bare == {} && t.past == s.past
            && (forall id :: id in image ==> image[id].key in t.keys && t.keys[image[id].key] == id)
            && (t.images == if exists id :: id in image && UnderWay(image[id]) then {t.rows} else s.images)
  {
    hide Loads, LoadedRows, Fits, Rewrites, Execute, KeysOf, LoadedAs, UnderWay;
    FilesReload(w, events, image);
    Stepped(w, events, Restart(image, Durable));
    RewritesIsUnderWay(w, events, image);
    KeysFound(w, events, image);
  }

  lemma RewritesIsUnderWay(w: World, events: seq<Event>, image: Rows)
    requires image in Execute(w, events).images
    ensures forall id :: id in image ==> (Rewrites(w, image[id]) <==> UnderWay(image[id]))
  {
    ImageGood(w, events, image);
    hide GoodRow, UpgradeHash, Execute;
    forall id | id in image ensures Rewrites(w, image[id]) <==> UnderWay(image[id]) {
      GoodRowReloads(w, Execute(w, events).past, id, image[id]);
    }
  }

  lemma KeysFound(w: World, events: seq<Event>, image: Rows)
    requires image in Execute(w, events).images
    ensures var rows := LoadedRows(w, image);
            && DistinctKeys(rows) && forall id :: id in image ==> image[id].key in KeysOf(rows) && KeysOf(rows)[image[id].key] == id
  {
    ImageGood(w, events, image);
    var past := Execute(w, events).past;
    hide Good, Execute, LoadedRows, RecoverAll, Loads;
    GoodReloads(w, past, image);
    GoodDistinct(w, past, RecoverAll(image));
    hide KeysOf;
    forall id | id in image ensures image[id].key in KeysOf(LoadedRows(w, image)) && KeysOf(LoadedRows(w, image))[image[id].key] == id {
      OneKeyFound(image, id);
    }
  }

  lemma OneKeyFound(image: Rows, id: string)
    requires DistinctKeys(RecoverAll(image)) && id in image
    ensures var rows := RecoverAll(image); image[id].key in KeysOf(rows) && KeysOf(rows)[image[id].key] == id
  {
    var rows := RecoverAll(image);
    assert rows[id].key == image[id].key && rows[id].key in KeySet(rows);
  }

  lemma Stepped(w: World, events: seq<Event>, e: Event)
    ensures Execute(w, events + [e]) == Apply(w, Execute(w, events), e)
  {
    hide Apply;
    assert (events + [e])[..|events|] == events;
  }

  /** For an arbitrary file the loader accepts, the file it would write back is accepted again exactly when no
      yielded or checkpointed row still carries a submission or a prompt. */
  lemma AcceptedFileReloads(w: World, rows: Rows)
    requires Loads(w, rows)
    ensures Loads(w, LoadedRows(w, rows)) <==> forall id :: id in rows ==> !Entangled(rows[id])
  {
    hide RowLoads, UpgradeHash, Recover;
    var loaded := LoadedRows(w, rows);
    forall id | id in rows
      ensures loaded[id].id == rows[id].id && loaded[id].key == rows[id].key
      ensures RowLoads(w, UpgradeHash(w, loaded[id])) <==> !Entangled(rows[id])
    {
      LoadedRowReloads(w, rows[id]);
    }
  }

  /** A resumable row that still carries a submission or a prompt. */
  predicate Entangled(x: Execution) {
    Resumable(x.phase) && (x.submission != NoSubmission || x.prompt != "")
  }

  lemma LoadedRowReloads(w: World, x: Execution)
    requires RowLoads(w, UpgradeHash(w, x))
    ensures LoadedRow(w, x).id == x.id && LoadedRow(w, x).key == x.key
    ensures RowLoads(w, UpgradeHash(w, LoadedRow(w, x))) <==> !Entangled(x)
  {
    var u := UpgradeHash(w, x);
    var y := LoadedRow(w, x);
    assert y.phase == Uncertain || y == u;
    assert UpgradeHash(w, y) == y;
  }

  // ---------------------------------------------------------------- fencing

  /** The fields a fenced goroutine may still touch: prompt identity, submission mark, error text. */
  predicate FencedChange(x: Execution, y: Execution) {
    && y == x.(prompt := y.prompt, submission := y.submission, error := y.error)
    && (y.submission == x.submission || y.submission == Unknown)
  }

  /** Only the row `id` of `s` may differ in `t`, and it became `a` or `b`. */
  ghost predicate OnlyRow(s: State, t: State, id: string, a: Execution, b: Execution) {
    && t.up == s.up && t.past == s.past
    && t.rows.Keys == s.rows.Keys + {id}
    && (t.rows[id] == a || t.rows[id] == b)
    && forall k :: k in s.rows && k != id ==> t.rows[k] == s.rows[k]
  }

  lemma TryOneRow(w: World, s: State, id: string, c: Execution, f: Execution, o: Write)
    ensures OnlyRow(s, TryRow(w, s, id, c, f, o).1, id, c, f)
  {
    hide Persist;
  }

  lemma CopyOneRow(w: World, s: State, id: string, c: Execution, f: Execution, o: Write)
    ensures OnlyRow(s, TryCopy(w, s, id, c, f, o).1, id, c, f)
  {
    hide TryRow;
    TryOneRow(w, s, id, c, f, o);
  }

  lemma OnceOneRow(w: World, s: State, r: RunId, c: Execution, f: Execution, pc: Pc, o: Write)
    ensures OnlyRow(s, TryOnce(w, s, r, c, f, pc, o), r.0, c, f)
  {
    hide TryCopy;
    CopyOneRow(w, s, r.0, c, f, o);
  }

  lemma MovedSame(w: World, t: State, r: RunId, good: Pc, bad: Pc, o: Write)
    ensures var u := SetRun(t, r, good); u.rows == t.rows && u.past == t.past && u.up == t.up
    ensures var u := SetRun(Flush(w, t, o), r, bad); u.rows == t.rows && u.past == t.past && u.up == t.up
  {
    hide Persist;
  }

  lemma OnlyRowMoves(s: State, t: State, u: State, id: string, a: Execution, b: Execution)
    requires OnlyRow(s, t, id, a, b) && u.rows == t.rows && u.past == t.past && u.up == t.up
    ensures OnlyRow(s, u, id, a, b)
  {}

  lemma TwiceOneRow(w: World, s: State, r: RunId, c: Execution, f: Execution, good: Pc, bad: Pc, o1: Write, o2: Write)
    ensures OnlyRow(s, TryTwice(w, s, r, c, f, good, bad, o1, o2).1, r.0, c, f)
  {
    hide TryCopy, Flush, SetRun, OnlyRow;
    CopyOneRow(w, s, r.0, c, f, o1);
    var t := TryCopy(w, s, r.0, c, f, o1).1;
    MovedSame(w, t, r, good, bad, o2);
    OnlyRowMoves(s, t, SetRun(t, r, good), r.0, c, f);
    OnlyRowMoves(s, t, SetRun(Flush(w, t, o2), r, bad), r.0, c, f);
  }

  lemma StoreOneRow(w: World, s: State, r: RunId, x: Execution, pc: Pc, o: Write)
    ensures OnlyRow(s, StoreAnyway(w, s, r, x, pc, o), r.0, x, x)
  {
    hide Persist;
  }

  ghost predicate Harmless(s: State, t: State, id: string)
    requires id in s.rows
  {
    && t.rows.Keys == s.rows.Keys
    && FencedChange(s.rows[id], t.rows[id])
    && (forall k :: k in s.rows && k != id ==> t.rows[k] == s.rows[k])
    && t.past.claimed == s.past.claimed && t.past.resumed == s.past.resumed
  }

  lemma FencedAnswerIsHarmless(w: World, s: State, r: RunId, chunk: nat, p: string, o1: Write, o2: Write)
    requires r.0 in s.rows && s.rows[r.0].epoch != r.1
    ensures Harmless(s, AcceptedStep(w, s, r, chunk, p, o1, o2), r.0)
  {
    hide StoreAnyway, TryTwice, Harmless, Doubtful;
    UnchangedIsHarmless(s, s, r.0);
    if chunk < |s.rows[r.0].chunks| {
      var t, pc := Learned(s, r, chunk, p), Result(chunk, OtherError(Fenced));
      LateIsHarmless(w, s, t, r, p, pc, o1);
      UnchangedIsHarmless(s, SetRun(t, r, pc), r.0);
    }
  }

  lemma UnchangedIsHarmless(s: State, t: State, id: string)
    requires id in s.rows && t.rows == s.rows && t.past.claimed == s.past.claimed && t.past.resumed == s.past.resumed
    ensures Harmless(s, t, id)
  {}

  lemma LateIsHarmless(w: World, s: State, t: State, r: RunId, p: string, pc: Pc, o: Write)
    requires r.0 in s.rows && t.rows == s.rows && t.past.claimed == s.past.claimed && t.past.resumed == s.past.resumed
    ensures Harmless(s, StoreAnyway(w, t, r, s.rows[r.0].(prompt := p, submission := Unknown, error := LateAnswer), pc, o), r.0)
  {
    hide StoreAnyway;
    StoreOneRow(w, t, r, s.rows[r.0].(prompt := p, submission := Unknown, error := LateAnswer), pc, o);
  }

  /** A goroutine whose epoch is no longer current cannot move state, progress, outputs or epoch of its
      execution, and touches no other execution. */
  lemma FencedRunIsHarmless(w: World, s: State, e: Event)
    requires RunEvent(e) && e.r.0 in s.rows && s.rows[e.r.0].epoch != e.r.1
    ensures Harmless(s, RunApply(w, s, e), e.r.0)
  {
    hide AcceptedStep, CommitStep, TryTwice, TryOnce, StoreAnyway;
    if e.RunAccepted? && e.r in s.runs && s.runs[e.r].Await? {
      FencedAnswerIsHarmless(w, s, e.r, s.runs[e.r].chunk, e.p, e.o1, e.o2);
    }
  }

  predicate Settled(phase: Phase) {
    phase == Cancelling || phase == Uncertain || phase == Cancelled || phase == Failed || phase == Completed
  }

  /** What a step may do to an execution: never lower its epoch and, if it is settled, keep it so. */
  ghost predicate KeptSettled(s: State, t: State, id: string)
    requires id in s.rows
  {
    && t.up == s.up && id in t.rows && s.rows[id].epoch <= t.rows[id].epoch
    && (Settled(s.rows[id].phase) ==> Settled(t.rows[id].phase))
    && (Settled(s.rows[id].phase) ==> NoNewClaim(s, t, id))
  }

  ghost predicate NoNewClaim(s: State, t: State, id: string) {
    forall c :: c in t.past.claimed && c !in s.past.claimed ==> c.id != id
  }

  /** Steps other than a start: an execution that does not run is not set running and has no chunk claimed. */
  ghost predicate StaysSettled(s: State, t: State, id: string)
    requires id in s.rows
  {
    && KeptSettled(s, t, id)
    && (s.rows[id].phase != Running ==> t.rows[id].phase != Running && NoNewClaim(s, t, id))
  }

  lemma StartStaysSettled(w: World, s: State, q: StartRequest, newId: string, o: Write, id: string)
    requires Inv(w, s) && s.up && id in s.rows && newId !in s.rows
    ensures KeptSettled(s, StartStep(w, s, q, newId, o).1, id)
  {
    hide Inv, ParseChunks, ResumeStep, CreateStep, StaysSettled, NewExecution;
    UnchangedStaysSettled(s, id);
    if q.key in s.keys {
      KnownKey(w, s, q.key);
      IdOf(w, s, s.keys[q.key]);
      ResumeStaysSettled(w, s, s.keys[q.key], o, id);
    }
    var parsed := ParseChunks(w, q.payload);
    if parsed.Some? { CreateStaysSettled(w, s, q, parsed.value, newId, o, id); }
  }

  lemma ResumeStaysSettled(w: World, s: State, i: string, o: Write, id: string)
    requires id in s.rows && i in s.rows && s.rows[i].id == i
    ensures Resumable(s.rows[i].phase) ==> KeptSettled(s, ResumeStep(w, s, s.rows[i], o).1, id)
  {
    hide TryCopy, OnlyRow;
    var x := s.rows[i];
    CopyOneRow(w, s, i, Resumed(x), x, o);
    if Resumable(x.phase) { ReplacedKeptSettled(s, TryCopy(w, s, i, Resumed(x), x, o).1, i, Resumed(x), x, id); }
  }

  lemma CreateStaysSettled(w: World, s: State, q: StartRequest, chunks: seq<Chunk>, newId: string, o: Write, id: string)
    requires id in s.rows && newId !in s.rows
    ensures KeptSettled(s, CreateStep(w, s, NewExecution(w, q, chunks, newId), o).1, id)
  {
    hide Persist;
  }

  lemma IdOf(w: World, s: State, id: string)
    requires Inv(w, s) && s.up && id in s.rows
    ensures s.rows[id].id == id
  {
    hide RowLoads, Tracks;
  }

  lemma ReplacedKeptSettled(s: State, t: State, id: string, a: Execution, b: Execution, other: string)
    requires other in s.rows && id in s.rows && OnlyRow(s, t, id, a, b)
    requires s.rows[id].epoch <= a.epoch && s.rows[id].epoch <= b.epoch
    requires Settled(s.rows[id].phase) ==> Settled(a.phase) && Settled(b.phase)
    ensures KeptSettled(s, t, other)
  {}

  lemma ReplacedStaysSettled(s: State, t: State, id: string, a: Execution, b: Execution, other: string)
    requires other in s.rows && id in s.rows && OnlyRow(s, t, id, a, b)
    requires s.rows[id].epoch <= a.epoch && s.rows[id].epoch <= b.epoch
    requires Settled(s.rows[id].phase) ==> Settled(a.phase) && Settled(b.phase)
    requires s.rows[id].phase != Running ==> a.phase != Running && b.phase != Running
    ensures StaysSettled(s, t, other)
  {}

  lemma UnchangedStaysSettled(s: State, id: string)
    requires id in s.rows
    ensures StaysSettled(s, s, id)
  {}

  lemma StaysSettledFrom(s: State, t: State, u: State, id: string)
    requires id in s.rows && t.up == s.up && t.rows == s.rows && t.past.claimed == s.past.claimed && StaysSettled(t, u, id)
    ensures StaysSettled(s, u, id)
  {}

  lemma UnprovenStaysSettled(w: World, s: State, id: string, o: Write, other: string)
    requires id in s.rows && other in s.rows
    ensures StaysSettled(s, UnprovenStep(w, s, id, o).1, other)
  {
    hide TryRow, StaysSettled, OnlyRow;
    var c := Doubtful(s.rows[id], IdentityUnknown).(epoch := s.rows[id].epoch + 1);
    TryOneRow(w, s, id, c, Doubtful(c, CancelLost), o);
    ReplacedStaysSettled(s, UnprovenStep(w, s, id, o).1, id, c, Doubtful(c, CancelLost), other);
  }

  lemma CancelStaysSettled(w: World, s: State, id: string, o: Write, other: string)
    requires other in s.rows
    ensures StaysSettled(s, CancelStep(w, s, id, o).1, other)
  {
    hide TryRow, TryCopy, NoLiveRun, OnlyRow, UnprovenStep, StaysSettled, Doubtful;
    UnchangedStaysSettled(s, other);
    if id in s.rows && !Quiet(s.rows[id].phase) {
      var x := s.rows[id];
      UnprovenStaysSettled(w, s, id, o, other);
      SameStaysSettled(s, s, s.(probes := s.probes + {(id, x.epoch)}), other);
      CancelNowStaysSettled(w, s, id, o, other);
      StopBeginStaysSettled(w, s, id, o, other);
    }
  }

  lemma SameStaysSettled(s: State, t: State, u: State, id: string)
    requires id in s.rows && StaysSettled(s, t, id) && u.up == t.up && u.rows == t.rows && u.past == t.past
    ensures StaysSettled(s, u, id)
  {}

  lemma CancelNowStaysSettled(w: World, s: State, id: string, o: Write, other: string)
    requires other in s.rows && id in s.rows
    ensures var c := s.rows[id].(phase := Cancelled, requested := NoRequest, error := NoNote, epoch := s.rows[id].epoch + 1);
            StaysSettled(s, TryRow(w, s, id, c, Doubtful(c, CancelLost), o).1, other)
  {
    hide TryRow, OnlyRow, StaysSettled;
    var c := s.rows[id].(phase := Cancelled, requested := NoRequest, error := NoNote, epoch := s.rows[id].epoch + 1);
    TryOneRow(w, s, id, c, Doubtful(c, CancelLost), o);
    ReplacedStaysSettled(s, TryRow(w, s, id, c, Doubtful(c, CancelLost), o).1, id, c, Doubtful(c, CancelLost), other);
  }

  lemma StopBeginStaysSettled(w: World, s: State, id: string, o: Write, other: string)
    requires other in s.rows && id in s.rows
    ensures var x := s.rows[id];
            var t := TryCopy(w, s, id, x.(phase := Cancelling, requested := CancelRequest, epoch := x.epoch + 1), x, o).1;
            StaysSettled(s, t, other) && StaysSettled(s, t.(stops := t.stops + {(id, x.epoch + 1)}), other)
  {
    hide TryCopy, OnlyRow, StaysSettled;
    var x := s.rows[id];
    var c := x.(phase := Cancelling, requested := CancelRequest, epoch := x.epoch + 1);
    CopyOneRow(w, s, id, c, x, o);
    var t := TryCopy(w, s, id, c, x, o).1;
    ReplacedStaysSettled(s, t, id, c, x, other);
    SameStaysSettled(s, t, t.(stops := t.stops + {(id, x.epoch + 1)}), other);
  }


  lemma ProbedStaysSettled(w: World, s: State, id: string, epoch: nat, idle: bool, o: Write, other: string)
    requires other in s.rows
    ensures StaysSettled(s, ProbedStep(w, s, id, epoch, idle, o).1, other)
  {
    hide TryCopy, NoLiveRun, OnlyRow, UnprovenStep, StaysSettled;
    UnchangedStaysSettled(s, other);
    if id in s.rows {
      var x := s.rows[id];
      var c := x.(phase := Cancelled, requested := NoRequest, error := NoNote, submission := NoSubmission,
                  submittingChunk := "", prompt := "", epoch := x.epoch + 1);
      UnprovenStaysSettled(w, s, id, o, other);
      CopyOneRow(w, s, id, c, x, o);
      ReplacedStaysSettled(s, TryCopy(w, s, id, c, x, o).1, id, c, x, other);
    }
  }

  lemma BoundaryStaysSettled(w: World, s: State, id: string, want: Request, o: Write, other: string)
    requires other in s.rows
    ensures StaysSettled(s, BoundaryStep(w, s, id, want, o).1, other)
  {
    hide TryCopy, OnlyRow, StaysSettled;
    UnchangedStaysSettled(s, other);
    if id in s.rows {
      var x := s.rows[id];
      CopyOneRow(w, s, id, x.(requested := want), x, o);
      ReplacedStaysSettled(s, TryCopy(w, s, id, x.(requested := want), x, o).1, id, x.(requested := want), x, other);
    }
  }

  lemma StoppedStaysSettled(w: World, s: State, id: string, epoch: nat, failure: Option<Note>, o: Write, other: string)
    requires other in s.rows
    ensures StaysSettled(s, StoppedStep(w, s, id, epoch, failure, o).1, other)
  {
    hide TryCopy, TryRow, OnlyRow, StaysSettled;
    UnchangedStaysSettled(s, other);
    if id in s.rows {
      var x := s.rows[id];
      var c := x.(phase := Cancelled, requested := NoRequest, prompt := "", submission := NoSubmission, submittingChunk := "", error := NoNote);
      CopyOneRow(w, s, id, c, x, o);
      ReplacedStaysSettled(s, TryCopy(w, s, id, c, x, o).1, id, c, x, other);
      if failure.Some? {
        var d := Doubtful(x, failure.value);
        TryOneRow(w, s, id, d, d, o);
        ReplacedStaysSettled(s, TryRow(w, s, id, d, d, o).1, id, d, d, other);
      }
    }
  }

  lemma ControlStaysSettled(w: World, s: State, e: Event, id: string)
    requires s.up && id in s.rows && (e.Boundary? || e.Cancel? || e.Probed? || e.Stopped? || e.Close?)
    ensures StaysSettled(s, Apply(w, s, e), id)
  {
    hide BoundaryStep, CancelStep, ProbedStep, StoppedStep, RunApply, StartStep;
    if e.Boundary? { BoundaryStaysSettled(w, s, e.id, e.want, e.o, id); }
    if e.Cancel? { CancelStaysSettled(w, s, e.id, e.o, id); }
    if e.Probed? { ProbedStaysSettled(w, s, e.id, e.epoch, e.idle, e.o, id); }
    if e.Stopped? { StoppedStaysSettled(w, s, e.id, e.epoch, e.failure, e.o, id); }
  }

  lemma RunStaysSettled(w: World, s: State, e: Event, id: string)
    requires s.up && id in s.rows
    ensures StaysSettled(s, RunApply(w, s, e), id)
  {
    hide TopStep, ResultStep, AcceptedStep, AmbiguousStep;
    if RunEvent(e) && e.r in s.runs {
      if e.RunTop? { TopStaysSettled(w, s, e.r, e.o1, e.o2, id); }
      else if e.RunAmbiguous? && s.runs[e.r].Await? { AmbiguousStaysSettled(w, s, e.r, s.runs[e.r].chunk, e.cause, e.o, id); }
      else if e.RunResult? && s.runs[e.r].Result? { ResultStaysSettled(w, s, e.r, s.runs[e.r].outcome, e.ref, e.o1, e.o2, id); }
      else if e.RunAccepted? && s.runs[e.r].Await? { AcceptedStaysSettled(w, s, e.r, s.runs[e.r].chunk, e.p, e.o1, e.o2, id); }
    }
  }

  lemma TopStaysSettled(w: World, s: State, r: RunId, o1: Write, o2: Write, id: string)
    requires id in s.rows
    ensures StaysSettled(s, TopStep(w, s, r, o1, o2), id)
  {
    hide StoreAnyway, TryTwice, TryOnce, OnlyRow;
    if Current(s, r) {
      var x := s.rows[r.0];
      if x.next >= |x.chunks| {
        var a, b := x.(phase := Completed), Doubtful(x, CompletionLost);
        TwiceOneRow(w, s, r, a, b, Gone, Gone, o1, o2);
        ReplacedStaysSettled(s, TryTwice(w, s, r, a, b, Gone, Gone, o1, o2).1, r.0, a, b, id);
      } else if x.next < 0 || x.submission != NoSubmission || x.prompt != "" {
        var a := Doubtful(x, CustodyUnresolved);
        StoreOneRow(w, s, r, a, Gone, o1);
        ReplacedStaysSettled(s, StoreAnyway(w, s, r, a, Gone, o1), r.0, a, a, id);
      } else {
        var a, b := WithIntent(x), Doubtful(x, IntentLost);
        TwiceOneRow(w, s, r, a, b, Submit(x.next), Gone, o1, o2);
        ReplacedStaysSettled(s, TryTwice(w, s, r, a, b, Submit(x.next), Gone, o1, o2).1, r.0, a, b, id);
      }
    }
  }

  lemma CommitStaysSettled(w: World, s: State, r: RunId, a: Execution, ref: Option<string>, o1: Write, o2: Write, id: string)
    requires id in s.rows && Current(s, r) && s.rows[r.0].epoch <= a.epoch
    ensures StaysSettled(s, CommitStep(w, s, r, a, ref, o1, o2), id)
  {
    hide StoreAnyway, TryTwice, OnlyRow;
    var x := s.rows[r.0];
    var d, lost := Doubtful(x, CommitLost), Doubtful(x, RefUnavailable);
    TwiceOneRow(w, s, r, a, d, Top, Gone, o1, o2);
    ReplacedStaysSettled(s, TryTwice(w, s, r, a, d, Top, Gone, o1, o2).1, r.0, a, d, id);
    StoreOneRow(w, s, r, lost, Gone, o1);
    ReplacedStaysSettled(s, StoreAnyway(w, s, r, lost, Gone, o1), r.0, lost, lost, id);
    if ref.Some? {
      var t := s.(past := s.past.(refs := s.past.refs[ref.value := r.0]));
      var b := AtBoundary(a, ref.value);
      TwiceOneRow(w, t, r, b, d, Gone, Gone, o1, o2);
      ReplacedStaysSettled(t, TryTwice(w, t, r, b, d, Gone, Gone, o1, o2).1, r.0, b, d, id);
    }
  }

  lemma ResultStaysSettled(w: World, s: State, r: RunId, outcome: Outcome, ref: Option<string>, o1: Write, o2: Write, id: string)
    requires id in s.rows
    ensures StaysSettled(s, ResultStep(w, s, r, outcome, ref, o1, o2), id)
  {
    hide CommitStep, TryOnce;
    if Current(s, r) {
      hide StaysSettled;
      var x := s.rows[r.0];
      match outcome
      case ChunkFailure(m) => OnceStaysSettled(w, s, r, WithFailure(x, m), Doubtful(x, m).(submission := Unknown), Gone, o1, id);
      case OtherError(m) => OnceStaysSettled(w, s, r, Doubtful(x, m).(submission := Unknown), Doubtful(x, m), Gone, o1, id);
      case Succeeded(p, record) =>
        StuckStaysSettled(s, id);
        CommitStaysSettled(w, s, r, Advanced(x, p, record), ref, o1, o2, id);
    }
  }

  lemma StuckStaysSettled(s: State, id: string)
    requires id in s.rows
    ensures StaysSettled(s, s.(stuck := true), id)
  {}

  lemma OnceStaysSettled(w: World, s: State, r: RunId, c: Execution, f: Execution, pc: Pc, o: Write, id: string)
    requires id in s.rows && r.0 in s.rows && c.epoch == f.epoch == s.rows[r.0].epoch && Settled(c.phase) && Settled(f.phase)
    ensures StaysSettled(s, TryOnce(w, s, r, c, f, pc, o), id)
  {
    hide TryOnce, OnlyRow, StaysSettled;
    OnceOneRow(w, s, r, c, f, pc, o);
    ReplacedStaysSettled(s, TryOnce(w, s, r, c, f, pc, o), r.0, c, f, id);
  }

  lemma AmbiguousStaysSettled(w: World, s: State, r: RunId, chunk: nat, cause: Note, o: Write, id: string)
    requires id in s.rows
    ensures StaysSettled(s, AmbiguousStep(w, s, r, chunk, cause, o), id)
  {
    hide TryOnce;
    if r.0 in s.rows {
      var d := Doubtful(s.rows[r.0], cause);
      OnceStaysSettled(w, s, r, d.(submission := Unknown), d, Result(chunk, OtherError(cause)), o, id);
    }
  }

  lemma AcceptedStaysSettled(w: World, s: State, r: RunId, chunk: nat, p: string, o1: Write, o2: Write, id: string)
    requires id in s.rows
    ensures StaysSettled(s, AcceptedStep(w, s, r, chunk, p, o1, o2), id)
  {
    hide StoreAnyway, TryTwice, Doubtful, StaysSettled;
    UnchangedStaysSettled(s, id);
    if r.0 in s.rows && chunk < |s.rows[r.0].chunks| {
      var t := Learned(s, r, chunk, p);
      var pc := Result(chunk, OtherError(Fenced));
      InTimeStaysSettled(w, t, r, chunk, p, o1, o2, id);
      LateStaysSettled(w, t, r, s.rows[r.0].(prompt := p, submission := Unknown, error := LateAnswer), pc, o1, id);
      UnchangedStaysSettled(SetRun(t, r, pc), id);
      StaysSettledFrom(t, SetRun(t, r, pc), SetRun(t, r, pc), id);
      StaysSettledFrom(s, t, AcceptedStep(w, s, r, chunk, p, o1, o2), id);
    }
  }

  lemma LateStaysSettled(w: World, t: State, r: RunId, late: Execution, pc: Pc, o: Write, id: string)
    requires id in t.rows && r.0 in t.rows && late.phase == t.rows[r.0].phase && late.epoch == t.rows[r.0].epoch
    ensures StaysSettled(t, StoreAnyway(w, t, r, late, pc, o), id)
  {
    hide StoreAnyway, OnlyRow, StaysSettled;
    StoreOneRow(w, t, r, late, pc, o);
    ReplacedStaysSettled(t, StoreAnyway(w, t, r, late, pc, o), r.0, late, late, id);
  }

  lemma InTimeStaysSettled(w: World, t: State, r: RunId, chunk: nat, p: string, o1: Write, o2: Write, id: string)
    requires id in t.rows && r.0 in t.rows
    ensures var x := t.rows[r.0];
            StaysSettled(t, TryTwice(w, t, r, x.(prompt := p, submission := Accepted), Doubtful(x, IdentityLost).(prompt := p, submission := Unknown),
                                     Poll(chunk, p), Result(chunk, OtherError(IdentityLost)), o1, o2).1, id)
  {
    hide TryTwice, OnlyRow, StaysSettled;
    var x := t.rows[r.0];
    var a, b := x.(prompt := p, submission := Accepted), Doubtful(x, IdentityLost).(prompt := p, submission := Unknown);
    TwiceOneRow(w, t, r, a, b, Poll(chunk, p), Result(chunk, OtherError(IdentityLost)), o1, o2);
    ReplacedStaysSettled(t, TryTwice(w, t, r, a, b, Poll(chunk, p), Result(chunk, OtherError(IdentityLost)), o1, o2).1, r.0, a, b, id);
  }

  /** Within one process no epoch goes back, and an execution that is cancelling, uncertain, cancelled, failed or
      completed stays in that set and has no further chunk claimed for submission. */
  lemma SettledForGood(w: World, events: seq<Event>, e: Event, id: string)
    requires Execute(w, events).up && !e.Crash? && id in Execute(w, events).rows
    ensures KeptSettled(Execute(w, events), Execute(w, events + [e]), id)
  {
    var s := Execute(w, events);
    Stepped(w, events, e);
    ExecuteKeeps(w, events);
    hide Inv, RunApply, StartStep, Execute;
    if Possible(w, s, e) {
      if e.Start? {
        StartStaysSettled(w, s, e.request, e.newId, e.o, id);
      } else if e.Boundary? || e.Cancel? || e.Probed? || e.Stopped? || e.Close? {
        ControlStaysSettled(w, s, e, id);
      } else if !e.Restart? {
        RunStaysSettled(w, s, e, id);
      }
    }
  }

  // ---------------------------------------------------------------- how final is a cancellation

  /** A probing cancellation of `id` that left the lock finishes now. */
  predicate LateProbe(s: State, e: Event, id: string) {
    e.Probed? && e.id == id && (id, e.epoch) in s.probes && !s.stuck
  }

  lemma ProbeRewrites(w: World, s: State, id: string, epoch: nat, idle: bool, o: Write)
    requires id in s.rows && s.rows[id].phase == Cancelled
    ensures var t := ProbedStep(w, s, id, epoch, idle, o).1;
            id in t.rows && t.rows[id].phase == Uncertain && t.rows[id].epoch == s.rows[id].epoch + 1
  {
    hide Persist, NoLiveRun;
  }

  /** Every other step leaves a row alone if it is cancelled and carries no submission. */
  lemma RunLeavesCancelled(w: World, s: State, e: Event, id: string)
    requires id in s.rows && s.rows[id].phase == Cancelled && s.rows[id].submission == NoSubmission && s.rows[id].submittingChunk == ""
    requires forall i :: 0 <= i < |s.rows[id].chunks| ==> s.rows[id].chunks[i].id != ""
    ensures id in RunApply(w, s, e).rows && RunApply(w, s, e).rows[id] == s.rows[id]
  {
    hide TopStep, ResultStep, AcceptedStep, AmbiguousStep;
    if RunEvent(e) && e.r in s.runs {
      var pc := s.runs[e.r];
      if e.RunTop? { TopLeavesCancelled(w, s, e.r, e.o1, e.o2, id); }
      else if e.RunResult? && pc.Result? { ResultLeavesCancelled(w, s, e.r, pc.outcome, e.ref, e.o1, e.o2, id); }
      else if e.RunAccepted? && pc.Await? { AnswerLeavesCancelled(w, s, e.r, pc.chunk, e.p, e.o1, e.o2, id); }
      else if e.RunAmbiguous? && pc.Await? { AmbiguityLeavesCancelled(w, s, e.r, pc.chunk, e.cause, e.o, id); }
    }
  }

  lemma TopLeavesCancelled(w: World, s: State, r: RunId, o1: Write, o2: Write, id: string)
    requires id in s.rows && s.rows[id].phase == Cancelled
    ensures var t := TopStep(w, s, r, o1, o2); id in t.rows && t.rows[id] == s.rows[id]
  {
    hide StoreAnyway, TryTwice;
    if Current(s, r) {
      var x := s.rows[r.0];
      TwiceOneRow(w, s, r, x.(phase := Completed), Doubtful(x, CompletionLost), Gone, Gone, o1, o2);
      StoreOneRow(w, s, r, Doubtful(x, CustodyUnresolved), Gone, o1);
      if 0 <= x.next < |x.chunks| { TwiceOneRow(w, s, r, WithIntent(x), Doubtful(x, IntentLost), Submit(x.next), Gone, o1, o2); }
    }
  }

  lemma CommitLeavesCancelled(w: World, s: State, r: RunId, a: Execution, ref: Option<string>, o1: Write, o2: Write, id: string)
    requires id in s.rows && r.0 in s.rows && id != r.0
    ensures var t := CommitStep(w, s, r, a, ref, o1, o2); id in t.rows && t.rows[id] == s.rows[id]
  {
    hide StoreAnyway, TryTwice;
    var x := s.rows[r.0];
    TwiceOneRow(w, s, r, a, Doubtful(x, CommitLost), Top, Gone, o1, o2);
    StoreOneRow(w, s, r, Doubtful(x, RefUnavailable), Gone, o1);
    if ref.Some? {
      var t := s.(past := s.past.(refs := s.past.refs[ref.value := r.0]));
      TwiceOneRow(w, t, r, AtBoundary(a, ref.value), Doubtful(x, CommitLost), Gone, Gone, o1, o2);
    }
  }

  lemma ResultLeavesCancelled(w: World, s: State, r: RunId, outcome: Outcome, ref: Option<string>, o1: Write, o2: Write, id: string)
    requires id in s.rows && s.rows[id].phase == Cancelled
    ensures var t := ResultStep(w, s, r, outcome, ref, o1, o2); id in t.rows && t.rows[id] == s.rows[id]
  {
    hide CommitStep, TryOnce;
    if Current(s, r) {
      var x := s.rows[r.0];
      match outcome
      case ChunkFailure(m) => OnceOneRow(w, s, r, WithFailure(x, m), Doubtful(x, m).(submission := Unknown), Gone, o1);
      case OtherError(m) => OnceOneRow(w, s, r, Doubtful(x, m).(submission := Unknown), Doubtful(x, m), Gone, o1);
      case Succeeded(p, record) => CommitLeavesCancelled(w, s, r, Advanced(x, p, record), ref, o1, o2, id);
    }
  }

  lemma AnswerLeavesOthers(w: World, s: State, r: RunId, chunk: nat, p: string, o1: Write, o2: Write, id: string)
    requires id in s.rows && r.0 in s.rows && r.0 != id && chunk < |s.rows[r.0].chunks|
    ensures var t := AcceptedStep(w, s, r, chunk, p, o1, o2); id in t.rows && t.rows[id] == s.rows[id]
  {
    hide StoreAnyway, TryTwice;
    var x := s.rows[r.0];
    var t := Learned(s, r, chunk, p);
    var a, b := x.(prompt := p, submission := Accepted), Doubtful(x, IdentityLost).(prompt := p, submission := Unknown);
    TwiceOneRow(w, t, r, a, b, Poll(chunk, p), Result(chunk, OtherError(IdentityLost)), o1, o2);
    StoreOneRow(w, t, r, x.(prompt := p, submission := Unknown, error := LateAnswer), Result(chunk, OtherError(Fenced)), o1);
    hide Doubtful;
  }

  lemma AnswerLeavesCancelled(w: World, s: State, r: RunId, chunk: nat, p: string, o1: Write, o2: Write, id: string)
    requires id in s.rows && s.rows[id].submission == NoSubmission && s.rows[id].submittingChunk == ""
    requires forall i :: 0 <= i < |s.rows[id].chunks| ==> s.rows[id].chunks[i].id != ""
    ensures var t := AcceptedStep(w, s, r, chunk, p, o1, o2); id in t.rows && t.rows[id] == s.rows[id]
  {
    hide StoreAnyway, TryTwice;
    if r.0 in s.rows && r.0 != id && chunk < |s.rows[r.0].chunks| {
      hide AcceptedStep;
      AnswerLeavesOthers(w, s, r, chunk, p, o1, o2, id);
    }
  }

  lemma AmbiguityLeavesCancelled(w: World, s: State, r: RunId, chunk: nat, cause: Note, o: Write, id: string)
    requires id in s.rows && s.rows[id].submission == NoSubmission
    ensures var t := AmbiguousStep(w, s, r, chunk, cause, o); id in t.rows && t.rows[id] == s.rows[id]
  {
    hide TryOnce;
    if r.0 in s.rows && r.0 != id {
      var d := Doubtful(s.rows[r.0], cause);
      OnceOneRow(w, s, r, d.(submission := Unknown), d, Result(chunk, OtherError(cause)), o);
    }
  }

  lemma StartLeavesCancelled(w: World, s: State, q: StartRequest, newId: string, o: Write, id: string)
    requires Inv(w, s) && s.up && id in s.rows && s.rows[id].phase == Cancelled && newId !in s.rows
    ensures var t := StartStep(w, s, q, newId, o).1; id in t.rows && t.rows[id] == s.rows[id]
  {
    hide Inv, ParseChunks, Persist;
    if q.key in s.keys {
      KnownKey(w, s, q.key);
      IdOf(w, s, s.keys[q.key]);
    }
  }

  lemma OthersLeft(s: State, t: State, i: string, a: Execution, b: Execution, id: string)
    requires OnlyRow(s, t, i, a, b) && id in s.rows && id != i
    ensures id in t.rows && t.rows[id] == s.rows[id]
  {}

  lemma UnprovenLeavesOthers(w: World, s: State, i: string, o: Write, id: string)
    requires id in s.rows && i in s.rows && i != id
    ensures var t := UnprovenStep(w, s, i, o).1; id in t.rows && t.rows[id] == s.rows[id]
  {
    hide TryRow;
    var c := Doubtful(s.rows[i], IdentityUnknown).(epoch := s.rows[i].epoch + 1);
    TryOneRow(w, s, i, c, Doubtful(c, CancelLost), o);
  }

  lemma CancelLeavesCancelled(w: World, s: State, i: string, o: Write, id: string)
    requires id in s.rows && s.rows[id].phase == Cancelled
    ensures var t := CancelStep(w, s, i, o).1; id in t.rows && t.rows[id] == s.rows[id]
  {
    hide TryRow, TryCopy, NoLiveRun, UnprovenStep, OnlyRow, Doubtful;
    if i in s.rows && i != id {
      var x := s.rows[i];
      UnprovenLeavesOthers(w, s, i, o, id);
      var a := x.(phase := Cancelled, requested := NoRequest, error := NoNote, epoch := x.epoch + 1);
      TryOneRow(w, s, i, a, Doubtful(a, CancelLost), o);
      OthersLeft(s, TryRow(w, s, i, a, Doubtful(a, CancelLost), o).1, i, a, Doubtful(a, CancelLost), id);
      var b := x.(phase := Cancelling, requested := CancelRequest, epoch := x.epoch + 1);
      CopyOneRow(w, s, i, b, x, o);
      OthersLeft(s, TryCopy(w, s, i, b, x, o).1, i, b, x, id);
    }
  }

  lemma ProbeLeavesOthers(w: World, s: State, i: string, epoch: nat, idle: bool, o: Write, id: string)
    requires id in s.rows && i != id
    ensures var t := ProbedStep(w, s, i, epoch, idle, o).1; id in t.rows && t.rows[id] == s.rows[id]
  {
    hide Persist, NoLiveRun;
  }

  lemma ControlLeavesCancelled(w: World, s: State, e: Event, id: string)
    requires s.up && id in s.rows && s.rows[id].phase == Cancelled && !LateProbe(s, e, id)
    requires e.Boundary? || e.Cancel? || e.Probed? || e.Stopped? || e.Close?
    ensures id in Apply(w, s, e).rows && Apply(w, s, e).rows[id] == s.rows[id]
  {
    hide Persist, CancelStep, ProbedStep, RunApply, StartStep;
    if e.Cancel? { CancelLeavesCancelled(w, s, e.id, e.o, id); }
    if e.Probed? && e.id != id { ProbeLeavesOthers(w, s, e.id, e.epoch, e.idle, e.o, id); }
  }

  /** Within one process a cancelled execution leaves that state if and only if a cancellation that went off to ask
      whether Comfy is idle comes back late; it then becomes uncertain. */
  lemma CancelledLostIffLateProbe(w: World, events: seq<Event>, e: Event, id: string)
    requires Execute(w, events).up && !e.Crash? && id in Execute(w, events).rows && Execute(w, events).rows[id].phase == Cancelled
    ensures var s, t := Execute(w, events), Execute(w, events + [e]);
            && id in t.rows && (t.rows[id].phase == Uncertain <==> LateProbe(s, e, id))
            && (if LateProbe(s, e, id) then t.rows[id].epoch == s.rows[id].epoch + 1 else t.rows[id] == s.rows[id])
  {
    var s := Execute(w, events);
    Stepped(w, events, e);
    ExecuteKeeps(w, events);
    hide Inv, RunApply, StartStep, ProbedStep, CancelStep, BoundaryStep, StoppedStep, Execute;
    if LateProbe(s, e, id) {
      ProbeRewrites(w, s, id, e.epoch, e.idle, e.o);
    } else if e.Boundary? || e.Cancel? || e.Probed? || e.Stopped? || e.Close? {
      ControlLeavesCancelled(w, s, e, id);
    } else if e.Start? {
      if e.newId !in s.rows { StartLeavesCancelled(w, s, e.request, e.newId, e.o, id); }
    } else if !e.Restart? {
      QuietRow(w, s, id);
      RunLeavesCancelled(w, s, e, id);
    }
  }

  lemma QuietRow(w: World, s: State, id: string)
    requires Inv(w, s) && s.up && id in s.rows && s.rows[id].phase == Cancelled
    ensures s.rows[id].submission == NoSubmission && s.rows[id].submittingChunk == ""
    ensures forall i :: 0 <= i < |s.rows[id].chunks| ==> s.rows[id].chunks[i].id != ""
  {
    hide Inv, ImagesOk, Tracks;
    RowOf(w, s, id);
    var x := s.rows[id];
    assert WellFormedChunks(w, Named(x.chunks)) && Named(x.chunks) == x.chunks;
  }

  ghost predicate CrashFree(later: seq<Event>) {
    forall i :: 0 <= i < |later| ==> !later[i].Crash?
  }

  /** Somewhere in `later` a probing cancellation of `id` comes back. */
  ghost predicate ProbedLate(w: World, events: seq<Event>, later: seq<Event>, id: string) {
    exists i :: 0 <= i < |later| && LateProbe(Execute(w, events + later[..i]), later[i], id)
  }

  lemma ProbedLateSplits(w: World, events: seq<Event>, later: seq<Event>, e: Event, id: string)
    ensures ProbedLate(w, events, later + [e], id) <==> ProbedLate(w, events, later, id) || LateProbe(Execute(w, events + later), e, id)
  {
    hide Execute, LateProbe;
    var all := later + [e];
    assert all[..|later|] == later && all[|later|] == e;
    forall i | 0 <= i < |later| ensures all[..i] == later[..i] && all[i] == later[i] {}
    if ProbedLate(w, events, later, id) {
      var i :| 0 <= i < |later| && LateProbe(Execute(w, events + later[..i]), later[i], id);
      assert LateProbe(Execute(w, events + all[..i]), all[i], id);
    }
  }

  /** Over any stretch without a crash a cancelled execution keeps its row if and only if no cancellation that went
      off to ask whether Comfy is idle comes back in it. */
  lemma {:induction false} CancelledUntilLateProbe(w: World, events: seq<Event>, later: seq<Event>, id: string)
    requires CrashFree(later)
    requires Execute(w, events).up && id in Execute(w, events).rows && Execute(w, events).rows[id].phase == Cancelled
    ensures var s, t := Execute(w, events), Execute(w, events + later);
            && t.up && id in t.rows && (t.rows[id] == s.rows[id] <==> !ProbedLate(w, events, later, id))
            && (ProbedLate(w, events, later, id) ==> s.rows[id].epoch < t.rows[id].epoch)
    decreases |later|
  {
    hide Execute, Apply, LateProbe, KeptSettled, ProbedLate;
    if later == [] {
      assert events + later == events;
      NeverProbed(w, events, id);
    } else {
      var most, e := later[..|later| - 1], later[|later| - 1];
      assert later == most + [e] && events + later == events + most + [e];
      CancelledUntilLateProbe(w, events, most, id);
      ProbedLateSplits(w, events, most, e, id);
      SettledForGood(w, events + most, e, id);
      EpochKept(Execute(w, events + most), Execute(w, events + later), id);
      if !ProbedLate(w, events, most, id) { CancelledLostIffLateProbe(w, events + most, e, id); }
    }
  }

  lemma NeverProbed(w: World, events: seq<Event>, id: string)
    ensures !ProbedLate(w, events, [], id)
  {}

  lemma EpochKept(s: State, t: State, id: string)
    requires id in s.rows && KeptSettled(s, t, id)
    ensures t.up == s.up && id in t.rows && s.rows[id].epoch <= t.rows[id].epoch
  {}
}
