/** Runs and files of the harness at which a property one might expect fails. */
module HarnessExamples {
  import opened HarnessModel
  import opened HarnessInvariant
  import opened HarnessTheorems
  import opened HarnessLifecycle

  const RUN: RunId := ("e", 1)
  const CLAIM := Claim("e", "k", 0)

  /** A start request for one chunk with a given prompt. */
  function OneChunk(prompt: string): StartRequest {
    StartRequest(true, "w", "k", Envelope(None, [Chunk("c", prompt)]), "", "")
  }

  function NewRow(w: World, prompt: string): Execution {
    NewExecution(w, OneChunk(prompt), [Chunk("c", prompt)], "e")
  }

  function IntentRow(w: World, prompt: string): Execution {
    WithIntent(NewRow(w, prompt))
  }

  function AnsweredRow(w: World, prompt: string): Execution {
    IntentRow(w, prompt).(prompt := "q", submission := Accepted)
  }

  function File(x: Execution): Rows {
    map["e" := x]
  }

  const NOTHING := Past({}, [], map[], map[], [])

  /** One row, one goroutine, one file. */
  function At(x: Execution, pc: Pc, past: Past, image: Rows, bare: set<string>): State {
    State(true, false, File(x), map["k" := "e"], map[RUN := pc], {}, {}, {image}, past, bare, false)
  }

  // ---------------------------------------------------------------- the first two events of every run here

  const BOOT := Restart(map[], Durable)

  function Begin(prompt: string): Event {
    Start(OneChunk(prompt), "e", Durable)
  }

  lemma Booted(w: World)
    ensures Apply(w, INIT, BOOT) == INIT.(up := true)
  {
    assert LoadedRows(w, map[]) == map[] && KeysOf(map[]) == map[];
  }

  lemma Parsed(w: World, prompt: string)
    requires w.promptObject(prompt)
    ensures ParseChunks(w, Envelope(None, [Chunk("c", prompt)])) == Some([Chunk("c", prompt)])
  {
    ParseIsStable(w, [Chunk("c", prompt)]);
  }

  lemma Began(w: World, prompt: string)
    requires w.promptObject(prompt) && Fits(w, File(NewRow(w, prompt)))
    ensures var x := NewRow(w, prompt); Apply(w, INIT.(up := true), Begin(prompt)) == At(x, Top, NOTHING, File(x), {})
  {
    hide ParseChunks, Fits;
    Parsed(w, prompt);
    var x := NewRow(w, prompt);
    assert map[][x.id := x] == File(x);
  }

  lemma TwoEvents(w: World, a: Event, b: Event)
    ensures Execute(w, [a, b]) == Apply(w, Apply(w, INIT, a), b)
  {
    hide Apply;
    assert Execute(w, []) == INIT;
    Stepped(w, [], a);
    Stepped(w, [a], b);
    assert [a] + [b] == [a, b] && [] + [a] == [a];
  }

  // ---------------------------------------------------------------- the lock is lost

  /** A yield request whose write fails before the first output, then an untroubled chunk. */
  function HangRun(prompt: string, record: string): seq<Event> {
    [BOOT, Begin(prompt), Boundary("e", YieldRequest, LostBeforeRename), RunTop(RUN, Durable, Durable), RunPost(RUN, true),
     RunAccepted(RUN, "q", Durable, Durable), RunPolled(RUN, Succeeded("q", record)), RunResult(RUN, None, Durable, Durable)]
  }

  lemma YieldLost(w: World, prompt: string)
    ensures var x := NewRow(w, prompt);
            Apply(w, At(x, Top, NOTHING, File(x), {}), Boundary("e", YieldRequest, LostBeforeRename)) == At(x, Top, NOTHING, File(x), {"e"})
  {
    hide Fits;
    var x := NewRow(w, prompt);
    assert File(x)["e" := x] == File(x);
  }

  lemma Claimed(w: World, prompt: string, bare: set<string>)
    requires Fits(w, File(IntentRow(w, prompt)))
    ensures var x, y := NewRow(w, prompt), IntentRow(w, prompt);
            Apply(w, At(x, Top, NOTHING, File(x), bare), RunTop(RUN, Durable, Durable)) == At(y, Submit(0), NOTHING.(claimed := {CLAIM}), File(y), bare)
  {
    hide Fits;
    var x, y := NewRow(w, prompt), IntentRow(w, prompt);
    assert File(x)["e" := y] == File(y) && map[RUN := Top][RUN := Submit(0)] == map[RUN := Submit(0)];
  }

  lemma Posted(w: World, prompt: string)
    ensures var y := IntentRow(w, prompt); var past := NOTHING.(claimed := {CLAIM});
            Apply(w, At(y, Submit(0), past, File(y), {"e"}), RunPost(RUN, true)) == At(y, Await(0), past.(posts := [CLAIM]), File(y), {"e"})
  {
    assert map[RUN := Submit(0)][RUN := Await(0)] == map[RUN := Await(0)];
  }

  lemma Answered(w: World, prompt: string)
    requires Fits(w, File(AnsweredRow(w, prompt)))
    ensures var y, z := IntentRow(w, prompt), AnsweredRow(w, prompt); var past := NOTHING.(claimed := {CLAIM}, posts := [CLAIM]);
            Apply(w, At(y, Await(0), past, File(y), {"e"}), RunAccepted(RUN, "q", Durable, Durable))
            == At(z, Poll(0, "q"), past.(origin := map["q" := CLAIM]), File(z), {"e"})
  {
    hide Fits;
    var y, z := IntentRow(w, prompt), AnsweredRow(w, prompt);
    assert File(y)["e" := z] == File(z) && map[RUN := Await(0)][RUN := Poll(0, "q")] == map[RUN := Poll(0, "q")];
    assert map[]["q" := CLAIM] == map["q" := CLAIM];
  }

  lemma Polled(w: World, x: Execution, past: Past, record: string)
    requires w.validJson(record)
    ensures Apply(w, At(x, Poll(0, "q"), past, File(x), {"e"}), RunPolled(RUN, Succeeded("q", record)))
            == At(x, Result(0, Succeeded("q", record)), past, File(x), {"e"})
  {
    var pc := Result(0, Succeeded("q", record));
    assert map[RUN := Poll(0, "q")][RUN := pc] == map[RUN := pc];
  }

  lemma Hung(w: World, prompt: string, past: Past, record: string)
    ensures var z := AnsweredRow(w, prompt); var s := At(z, Result(0, Succeeded("q", record)), past, File(z), {"e"});
            Apply(w, s, RunResult(RUN, None, Durable, Durable)) == s.(stuck := true)
  {}

  lemma SixMore(w: World, events: seq<Event>, a: Event, b: Event, c: Event, d: Event, e: Event, f: Event)
    ensures Execute(w, events + [a, b, c, d, e, f]) == Apply(w, Apply(w, Apply(w, Apply(w, Apply(w, Apply(w, Execute(w, events), a), b), c), d), e), f)
  {
    hide Apply, Execute;
    Stepped(w, events, a);
    Stepped(w, events + [a], b);
    Stepped(w, events + [a] + [b], c);
    Stepped(w, events + [a] + [b] + [c], d);
    Stepped(w, events + [a] + [b] + [c] + [d], e);
    Stepped(w, events + [a] + [b] + [c] + [d] + [e], f);
    assert events + [a, b, c, d, e, f] == events + [a] + [b] + [c] + [d] + [e] + [f];
  }

  /** A yield request that could not be written leaves a nil output map, and the next chunk that succeeds ends with the
      lock held for good and its output not recorded. */
  lemma NilOutputsHang(w: World, prompt: string, record: string)
    requires w.promptObject(prompt) && w.validJson(record)
    requires Fits(w, File(NewRow(w, prompt))) && Fits(w, File(IntentRow(w, prompt))) && Fits(w, File(AnsweredRow(w, prompt)))
    ensures var s := Execute(w, HangRun(prompt, record)); s.up && s.stuck && s.rows == File(AnsweredRow(w, prompt))
  {
    hide Apply, Execute, Fits, At, NewRow, IntentRow, AnsweredRow;
    Booted(w);
    Began(w, prompt);
    TwoEvents(w, BOOT, Begin(prompt));
    YieldLost(w, prompt);
    Claimed(w, prompt, {"e"});
    Posted(w, prompt);
    Answered(w, prompt);
    var past := NOTHING.(claimed := {CLAIM}, posts := [CLAIM], origin := map["q" := CLAIM]);
    Polled(w, AnsweredRow(w, prompt), past, record);
    Hung(w, prompt, past, record);
    SixMore(w, [BOOT, Begin(prompt)], Boundary("e", YieldRequest, LostBeforeRename), RunTop(RUN, Durable, Durable), RunPost(RUN, true),
            RunAccepted(RUN, "q", Durable, Durable), RunPolled(RUN, Succeeded("q", record)), RunResult(RUN, None, Durable, Durable));
    assert HangRun(prompt, record) == [BOOT, Begin(prompt)] + HangRun(prompt, record)[2..];
    HungRow(w, prompt, past, record);
  }

  lemma HungRow(w: World, prompt: string, past: Past, record: string)
    ensures var z := AnsweredRow(w, prompt); var s := At(z, Result(0, Succeeded("q", record)), past, File(z), {"e"});
            s.up && s.rows == File(z)
  {}

  // ---------------------------------------------------------------- a cancellation is undone

  const LATE := Probed("e", 1, true, Durable)

  function UncertainRow(w: World, prompt: string): Execution {
    Recover(IntentRow(w, prompt))
  }

  function CancelledRow(w: World, prompt: string): Execution {
    UncertainRow(w, prompt).(phase := Cancelled, requested := NoRequest, error := NoNote, submission := NoSubmission,
                             submittingChunk := "", epoch := 2)
  }

  /** A crash between intent and request, a restart, and two cancellations that both go off to ask whether Comfy is
      idle. The first comes back and cancels. */
  function LateRun(w: World, prompt: string): seq<Event> {
    [BOOT, Begin(prompt), RunTop(RUN, Durable, Durable), Crash, Restart(File(IntentRow(w, prompt)), Durable),
     Cancel("e", Durable), Cancel("e", Durable), LATE]
  }

  /** One row and no goroutine. */
  function Idle(x: Execution, probes: set<RunId>, past: Past): State {
    State(true, false, File(x), map["k" := "e"], map[], probes, {}, {File(x)}, past, {}, false)
  }

  lemma IntentLoads(w: World, prompt: string)
    requires w.promptObject(prompt)
    ensures Loads(w, File(IntentRow(w, prompt))) && LoadedRows(w, File(IntentRow(w, prompt))) == File(UncertainRow(w, prompt))
  {
    hide ParseChunks;
    Parsed(w, prompt);
  }

  lemma RecoveredFits(w: World, prompt: string)
    requires Fits(w, File(IntentRow(w, prompt)))
    ensures Fits(w, File(UncertainRow(w, prompt)))
  {
    assert RecoverAll(File(IntentRow(w, prompt))) == File(UncertainRow(w, prompt));
    assert RecoverAll(File(UncertainRow(w, prompt))) == File(UncertainRow(w, prompt));
  }

  lemma OneKey(x: Execution)
    requires x.key == "k"
    ensures KeysOf(File(x)) == map["k" := "e"]
  {
    assert KeySet(File(x)) == {"k"} by { assert File(x)["e"].key in KeySet(File(x)); }
  }

  lemma Rebooted(w: World, prompt: string, past: Past)
    requires w.promptObject(prompt) && Fits(w, File(IntentRow(w, prompt)))
    ensures var y := IntentRow(w, prompt);
            Apply(w, Apply(w, At(y, Submit(0), past, File(y), {}), Crash), Restart(File(y), Durable)) == Idle(UncertainRow(w, prompt), {}, past)
  {
    hide Fits, Loads, LoadedRows, KeysOf;
    var y, u := IntentRow(w, prompt), UncertainRow(w, prompt);
    IntentLoads(w, prompt);
    RecoveredFits(w, prompt);
    OneKey(u);
    assert "e" in File(y) && Rewrites(w, File(y)["e"]);
  }

  lemma Asked(w: World, prompt: string, probes: set<RunId>, past: Past)
    ensures var u := UncertainRow(w, prompt); Apply(w, Idle(u, probes, past), Cancel("e", Durable)) == Idle(u, probes + {RUN}, past)
  {
    hide TryRow, TryCopy, UnprovenStep;
  }

  lemma AnsweredIdle(w: World, prompt: string, past: Past)
    requires Fits(w, File(CancelledRow(w, prompt)))
    ensures Apply(w, Idle(UncertainRow(w, prompt), {RUN}, past), LATE) == Idle(CancelledRow(w, prompt), {RUN}, past)
  {
    hide Fits, UnprovenStep;
    var u, c := UncertainRow(w, prompt), CancelledRow(w, prompt);
    assert File(u)["e" := c] == File(c);
  }

  lemma Reached(w: World, prompt: string)
    requires w.promptObject(prompt) && Fits(w, File(NewRow(w, prompt))) && Fits(w, File(IntentRow(w, prompt))) && Fits(w, File(CancelledRow(w, prompt)))
    ensures Execute(w, LateRun(w, prompt)) == Idle(CancelledRow(w, prompt), {RUN}, NOTHING.(claimed := {CLAIM}))
  {
    hide Apply, Execute, Fits, At, Idle, NewRow, IntentRow, UncertainRow, CancelledRow;
    Booted(w);
    Began(w, prompt);
    TwoEvents(w, BOOT, Begin(prompt));
    Claimed(w, prompt, {});
    var past := NOTHING.(claimed := {CLAIM});
    Rebooted(w, prompt, past);
    Asked(w, prompt, {}, past);
    Asked(w, prompt, {RUN}, past);
    assert {} + {RUN} == {RUN} && {RUN} + {RUN} == {RUN};
    AnsweredIdle(w, prompt, past);
    SixMore(w, [BOOT, Begin(prompt)], RunTop(RUN, Durable, Durable), Crash, Restart(File(IntentRow(w, prompt)), Durable),
            Cancel("e", Durable), Cancel("e", Durable), LATE);
    assert LateRun(w, prompt) == [BOOT, Begin(prompt)] + LateRun(w, prompt)[2..];
  }

  /** The second of two concurrent cancellations finds the row cancelled and makes it uncertain. */
  lemma LateProbeUndoesCancellation(w: World, prompt: string)
    requires w.promptObject(prompt) && Fits(w, File(NewRow(w, prompt))) && Fits(w, File(IntentRow(w, prompt))) && Fits(w, File(CancelledRow(w, prompt)))
    ensures var s, t := Execute(w, LateRun(w, prompt)), Execute(w, LateRun(w, prompt) + [LATE]);
            && s.up && "e" in s.rows && s.rows["e"].phase == Cancelled && LateProbe(s, LATE, "e")
            && "e" in t.rows && t.rows["e"].phase == Uncertain
  {
    hide Apply, Execute, Fits, LateRun;
    Reached(w, prompt);
    CancelledLostIffLateProbe(w, LateRun(w, prompt), LATE, "e");
  }

  // ---------------------------------------------------------------- rows at the edge of the loader

  function Zeros(n: nat): (digits: string)
    ensures |digits| == n && forall i :: 0 <= i < n ==> digits[i] == '0'
  {
    if n == 0 then "" else Zeros(n - 1) + "0"
  }

  function Ref(): string {
    REF_PREFIX + Zeros(64)
  }

  /** One of two chunks done. */
  function HalfRow(w: World, prompt: string, record: string): Execution {
    var chunks := [Chunk("c", prompt), Chunk("d", prompt)];
    Execution("e", "w", "k", "", w.hash(chunks), chunks, 1, "", "", NoSubmission, 1, Running, NoRequest, "", 0, 0, map["q" := record], NoNote)
  }

  /** Yielded, and yet its second chunk is marked as submitted. */
  function EntangledRow(w: World, prompt: string, record: string): Execution {
    HalfRow(w, prompt, record).(phase := Yielded, ref := Ref(), refChunk := 1, refEpoch := 1, submission := Unknown, submittingChunk := "d", prompt := "r")
  }

  /** Its second chunk was answered under the prompt id of its first. */
  function ReusedRow(w: World, prompt: string, record: string): Execution {
    HalfRow(w, prompt, record).(submission := Accepted, submittingChunk := "d", prompt := "q")
  }

  lemma RefIsValid()
    ensures ValidRef(Ref())
  {
    hide Zeros;
    assert Ref()[..|REF_PREFIX|] == REF_PREFIX;
  }

  lemma TwoParsed(w: World, prompt: string)
    requires w.promptObject(prompt)
    ensures var chunks := [Chunk("c", prompt), Chunk("d", prompt)]; ParseChunks(w, Envelope(None, chunks)) == Some(chunks)
  {
    var chunks := [Chunk("c", prompt), Chunk("d", prompt)];
    assert chunks[0].id[0] != chunks[1].id[0];
    ParseIsStable(w, chunks);
  }

  /** A file the loader accepts, whose recovered form it refuses. */
  lemma EntangledFileIsLost(w: World, prompt: string, record: string)
    requires w.promptObject(prompt) && w.validJson(record)
    ensures var file := File(EntangledRow(w, prompt, record)); Loads(w, file) && !Loads(w, LoadedRows(w, file))
  {
    hide RowLoads, LoadedRows;
    EntangledRowLoads(w, prompt, record);
    var file := File(EntangledRow(w, prompt, record));
    forall id | id in file ensures file[id].id == id && RowLoads(w, UpgradeHash(w, file[id])) {
      assert UpgradeHash(w, file["e"]) == file["e"];
    }
    AcceptedFileReloads(w, file);
    assert "e" in file && Entangled(file["e"]);
  }

  lemma EntangledRowLoads(w: World, prompt: string, record: string)
    requires w.promptObject(prompt) && w.validJson(record)
    ensures RowLoads(w, EntangledRow(w, prompt, record))
  {
    hide ParseChunks, ValidRef;
    var x := EntangledRow(w, prompt, record);
    RefIsValid();
    TwoParsed(w, prompt);
    assert |x.histories| == 1 by { assert x.histories.Keys == {"q"}; }
  }

  /** A row that loads, whose commit under a reused prompt id does not. */
  lemma ReusedPromptIsLost(w: World, prompt: string, record: string)
    requires w.promptObject(prompt) && w.validJson(record)
    ensures var x := ReusedRow(w, prompt, record); RowLoads(w, x) && !RowLoads(w, Advanced(x, "q", record))
  {
    hide ParseChunks, ValidRef;
    var x := ReusedRow(w, prompt, record);
    TwoParsed(w, prompt);
    assert |x.histories| == 1 by { assert x.histories.Keys == {"q"}; }
    CommitLoadsIffFreshPrompt(w, x, "q", record);
  }
}
