/** The other side of the safety theorems: exactly when a run moves on, chunk by chunk, to completion, given that no
    write is lost and Comfy answers. */
module HarnessProgress {
  import opened HarnessModel

  /** A goroutine at the head of the loop whose row is current, unclaimed, and asked for nothing else. */
  predicate ReadyRun(s: State, r: RunId) {
    && s.up && !s.stuck && r in s.runs && s.runs[r] == Top && Current(s, r)
    && s.rows[r.0].submission == NoSubmission && s.rows[r.0].prompt == "" && s.rows[r.0].requested == NoRequest
    && s.rows[r.0].submittingChunk == "" && 0 <= s.rows[r.0].next
  }

  /** A goroutine that none of the events of an untroubled round can move: it returned, or waits for a lost lock. */
  predicate Halted(s: State, r: RunId) {
    s.up && r in s.runs && (s.runs[r].Gone? || (s.stuck && s.runs[r].Result?))
  }

  /** What one step makes of the goroutine and its row; other rows, and what was not said, stay. */
  ghost predicate Moves(s: State, t: State, r: RunId, x: Execution, pc: Pc) {
    && t.up == s.up && t.stuck == s.stuck && t.bare == s.bare
    && t.runs == s.runs[r := pc] && t.rows == s.rows[r.0 := x]
  }

  /** The row after a step whose file did not fit. */
  ghost predicate Fails(s: State, t: State, r: RunId) {
    t.up == s.up && t.stuck == s.stuck && t.runs.Keys == s.runs.Keys && r.0 in t.rows && r in t.runs && t.rows[r.0].phase == Uncertain
  }

  lemma TryFits(w: World, s: State, id: string, c: Execution, f: Execution)
    ensures var (ok, t) := TryCopy(w, s, id, c, f, Durable);
            && ok == Fits(w, s.rows[id := c])
            && (ok ==> t == s.(rows := s.rows[id := c], images := {s.rows[id := c]}))
            && (!ok ==> t == PutBack(s.(rows := s.rows[id := f]), id))
  {}

  lemma TwiceFits(w: World, s: State, r: RunId, c: Execution, f: Execution, good: Pc, bad: Pc)
    requires r in s.runs && f.phase == Uncertain
    ensures var (ok, t) := TryTwice(w, s, r, c, f, good, bad, Durable, Durable);
            && ok == Fits(w, s.rows[r.0 := c]) && t.past == s.past
            && (ok ==> Moves(s, t, r, c, good))
            && (!ok ==> Fails(s, t, r) && t.runs[r] == bad)
  {
    hide Fits, Persist, TryCopy;
    TryFits(w, s, r.0, c, f);
  }

  // ---------------------------------------------------------------- the five events of a round

  lemma Claims(w: World, s: State, r: RunId)
    requires ReadyRun(s, r) && s.rows[r.0].next < |s.rows[r.0].chunks|
    ensures var t := Apply(w, s, RunTop(r, Durable, Durable)); var x := s.rows[r.0];
            if Fits(w, s.rows[r.0 := WithIntent(x)])
            then Moves(s, t, r, WithIntent(x), Submit(x.next)) && t.past.posts == s.past.posts && t.past.origin == s.past.origin
            else Fails(s, t, r) && Halted(t, r)
  {
    hide TryTwice, Fits;
    var x := s.rows[r.0];
    TwiceFits(w, s, r, WithIntent(x), Doubtful(x, IntentLost), Submit(x.next), Gone);
  }

  lemma Posts(w: World, s: State, r: RunId, chunk: nat)
    requires s.up && r in s.runs && s.runs[r] == Submit(chunk) && r.0 in s.rows
    ensures var t := Apply(w, s, RunPost(r, true));
            && Moves(s, t, r, s.rows[r.0], Await(chunk)) && t.past.posts == s.past.posts + [Claim(r.0, s.rows[r.0].key, chunk)]
            && t.past.origin == s.past.origin
  {
    assert s.rows[r.0 := s.rows[r.0]] == s.rows;
  }

  /** The row once Comfy's answer is recorded. */
  function WithPrompt(x: Execution, p: string): Execution {
    x.(prompt := p, submission := Accepted)
  }

  lemma Accepts(w: World, s: State, r: RunId, chunk: nat, p: string)
    requires s.up && !s.stuck && r in s.runs && s.runs[r] == Await(chunk) && r.0 in s.rows && chunk < |s.rows[r.0].chunks|
    requires s.rows[r.0].epoch == r.1 && s.rows[r.0].submission == Submitting && s.rows[r.0].submittingChunk == s.rows[r.0].chunks[chunk].id
    requires p != "" && p !in s.past.origin
    ensures var t := Apply(w, s, RunAccepted(r, p, Durable, Durable));
            if Fits(w, s.rows[r.0 := WithPrompt(s.rows[r.0], p)])
            then Moves(s, t, r, WithPrompt(s.rows[r.0], p), Poll(chunk, p)) && t.past.posts == s.past.posts
                 && t.past.origin.Keys == s.past.origin.Keys + {p}
            else Fails(s, t, r) && t.runs[r].Result?
  {
    hide TryTwice, Fits;
    var x := s.rows[r.0];
    TwiceFits(w, Learned(s, r, chunk, p), r, WithPrompt(x, p), Doubtful(x, IdentityLost).(prompt := p, submission := Unknown),
              Poll(chunk, p), Result(chunk, OtherError(IdentityLost)));
  }

  lemma Polls(w: World, s: State, r: RunId, chunk: nat, p: string, record: string)
    requires s.up && r in s.runs && s.runs[r] == Poll(chunk, p) && r.0 in s.rows && w.validJson(record)
    ensures var t := Apply(w, s, RunPolled(r, Succeeded(p, record)));
            Moves(s, t, r, s.rows[r.0], Result(chunk, Succeeded(p, record))) && t.past == s.past
  {
    assert s.rows[r.0 := s.rows[r.0]] == s.rows;
  }

  lemma Commits(w: World, s: State, r: RunId, chunk: nat, p: string, record: string)
    requires s.up && !s.stuck && r in s.runs && s.runs[r] == Result(chunk, Succeeded(p, record)) && Current(s, r) && s.rows[r.0].requested == NoRequest
    ensures var t := Apply(w, s, RunResult(r, None, Durable, Durable));
            if r.0 in s.bare then t == s.(stuck := true)
            else if Fits(w, s.rows[r.0 := Advanced(s.rows[r.0], p, record)])
            then Moves(s, t, r, Advanced(s.rows[r.0], p, record), Top) && t.past == s.past
            else Fails(s, t, r) && Halted(t, r)
  {
    hide TryTwice, Fits;
    var x := s.rows[r.0];
    TwiceFits(w, s, r, Advanced(x, p, record), Doubtful(x, CommitLost), Top, Gone);
  }

  // ---------------------------------------------------------------- one round

  /** The five events of one untroubled chunk. */
  ghost function Round(w: World, s: State, r: RunId, p: string, record: string): State {
    Apply(w, Apply(w, Apply(w, Apply(w, Apply(w, s,
      RunTop(r, Durable, Durable)), RunPost(r, true)), RunAccepted(r, p, Durable, Durable)), RunPolled(r, Succeeded(p, record))), RunResult(r, None, Durable, Durable))
  }

  /** The three files a round writes fit: the intent, the answer, the commit. */
  predicate RoundFits(w: World, rows: Rows, id: string, p: string, record: string)
    requires id in rows && 0 <= rows[id].next < |rows[id].chunks|
  {
    var x := rows[id];
    && Fits(w, rows[id := WithIntent(x)])
    && Fits(w, rows[id := WithPrompt(WithIntent(x), p)])
    && Fits(w, rows[id := Advanced(x, p, record)])
  }

  lemma HaltedStays(w: World, s: State, r: RunId, p: string, record: string)
    requires Halted(s, r)
    ensures Apply(w, s, RunTop(r, Durable, Durable)) == Apply(w, s, RunPost(r, true)) == Apply(w, s, RunAccepted(r, p, Durable, Durable)) == s
    ensures Apply(w, s, RunPolled(r, Succeeded(p, record))) == Apply(w, s, RunResult(r, None, Durable, Durable)) == s
  {
    hide TopStep, PostStep, AcceptedStep, ResultStep, Apply;
    HaltedEarly(w, s, r, p);
    HaltedLate(w, s, r, p, record);
  }

  lemma HaltedEarly(w: World, s: State, r: RunId, p: string)
    requires Halted(s, r)
    ensures Apply(w, s, RunTop(r, Durable, Durable)) == Apply(w, s, RunPost(r, true)) == Apply(w, s, RunAccepted(r, p, Durable, Durable)) == s
  {
    hide TopStep, PostStep, AcceptedStep;
  }

  lemma HaltedLate(w: World, s: State, r: RunId, p: string, record: string)
    requires Halted(s, r)
    ensures Apply(w, s, RunPolled(r, Succeeded(p, record))) == Apply(w, s, RunResult(r, None, Durable, Durable)) == s
  {
    hide ResultStep;
  }

  /** The answer was not recorded, so the goroutine returns at the next check of its row. */
  lemma Unrecorded(w: World, s: State, r: RunId, p: string, record: string)
    requires s.up && !s.stuck && r in s.runs && s.runs[r].Result? && r.0 in s.rows && s.rows[r.0].phase == Uncertain
    ensures Apply(w, s, RunPolled(r, Succeeded(p, record))) == s
    ensures Apply(w, s, RunResult(r, None, Durable, Durable)) == SetRun(s, r, Gone)
  {}

  /** What a round that commits leaves. */
  ghost predicate Committed(s: State, t: State, r: RunId, p: string, record: string)
    requires ReadyRun(s, r)
  {
    var x := s.rows[r.0];
    && ReadyRun(t, r) && t.bare == s.bare
    && t.rows == s.rows[r.0 := x.(next := x.next + 1, histories := x.histories[p := record])]
    && t.past.posts == s.past.posts + [Claim(r.0, x.key, x.next)] && t.past.origin.Keys == s.past.origin.Keys + {p}
  }

  /** One untroubled round sends exactly one request, for the chunk at the cursor, records its output under the
      prompt that answered, advances the cursor by one, and leaves the run ready for the next, if and only if its
      three files fit and the output map is not nil. Otherwise the run has halted short of that. */
  lemma RoundCommitsOneChunk(w: World, s: State, r: RunId, p: string, record: string)
    requires ReadyRun(s, r) && s.rows[r.0].next < |s.rows[r.0].chunks| && p != "" && p !in s.past.origin && w.validJson(record)
    ensures var t := Round(w, s, r, p, record); var commits := RoundFits(w, s.rows, r.0, p, record) && r.0 !in s.bare;
            && (Committed(s, t, r, p, record) <==> commits)
            && (!commits ==> Halted(t, r) && r.0 in t.rows && (t.rows[r.0].phase == Running || t.rows[r.0].phase == Uncertain))
  {
    hide Apply, Fits;
    var x := s.rows[r.0];
    Claims(w, s, r);
    var a := Apply(w, s, RunTop(r, Durable, Durable));
    if Halted(a, r) {
      HaltedStays(w, a, r, p, record);
    } else {
      Posts(w, a, r, x.next);
      var b := Apply(w, a, RunPost(r, true));
      Answered(w, s, b, r, p, record);
    }
  }

  /** The second half of a round, from the request on. */
  lemma Answered(w: World, s: State, b: State, r: RunId, p: string, record: string)
    requires ReadyRun(s, r) && s.rows[r.0].next < |s.rows[r.0].chunks| && p != "" && p !in s.past.origin && w.validJson(record)
    requires Moves(s, b, r, WithIntent(s.rows[r.0]), Await(s.rows[r.0].next)) && b.past.origin == s.past.origin
    requires b.past.posts == s.past.posts + [Claim(r.0, s.rows[r.0].key, s.rows[r.0].next)] && Fits(w, b.rows)
    ensures var t := Apply(w, Apply(w, Apply(w, b, RunAccepted(r, p, Durable, Durable)), RunPolled(r, Succeeded(p, record))), RunResult(r, None, Durable, Durable));
            var commits := RoundFits(w, s.rows, r.0, p, record) && r.0 !in s.bare;
            && (Committed(s, t, r, p, record) <==> commits)
            && (!commits ==> Halted(t, r) && r.0 in t.rows && (t.rows[r.0].phase == Running || t.rows[r.0].phase == Uncertain))
  {
    hide Apply, Fits;
    var x := s.rows[r.0];
    Accepts(w, b, r, x.next, p);
    var c := Apply(w, b, RunAccepted(r, p, Durable, Durable));
    assert b.rows[r.0 := WithPrompt(WithIntent(x), p)] == s.rows[r.0 := WithPrompt(WithIntent(x), p)];
    if !c.runs[r].Poll? {
      Unrecorded(w, c, r, p, record);
    } else {
      Polls(w, c, r, x.next, p, record);
      var d := Apply(w, c, RunPolled(r, Succeeded(p, record)));
      assert Advanced(d.rows[r.0], p, record) == Advanced(x, p, record);
      assert d.rows[r.0 := Advanced(x, p, record)] == s.rows[r.0 := Advanced(x, p, record)];
      Commits(w, d, r, x.next, p, record);
    }
  }

  /** Past the last chunk the run completes if and only if the completed file fits. */
  lemma LastRoundCompletes(w: World, s: State, r: RunId)
    requires ReadyRun(s, r) && s.rows[r.0].next == |s.rows[r.0].chunks|
    ensures var t := Apply(w, s, RunTop(r, Durable, Durable)); var c := s.rows[r.0].(phase := Completed);
            if Fits(w, s.rows[r.0 := c]) then t.rows == s.rows[r.0 := c] && t.past.posts == s.past.posts
            else r.0 in t.rows && t.rows[r.0].phase == Uncertain
  {
    hide TryTwice, Fits;
    var x := s.rows[r.0];
    TwiceFits(w, s, r, x.(phase := Completed), Doubtful(x, CompletionLost), Gone, Gone);
  }

  // ---------------------------------------------------------------- whole runs

  ghost function Rounds(w: World, s: State, r: RunId, prompts: seq<string>, records: seq<string>): State
    requires |prompts| == |records|
    decreases |prompts|
  {
    if prompts == [] then s else Rounds(w, Round(w, s, r, prompts[0], records[0]), r, prompts[1..], records[1..])
  }

  /** Every file the rest of the run writes fits. */
  predicate RunFits(w: World, rows: Rows, id: string, prompts: seq<string>, records: seq<string>)
    requires id in rows && 0 <= rows[id].next && |prompts| == |records| == |rows[id].chunks| - rows[id].next
    decreases |prompts|
  {
    if prompts == [] then Fits(w, rows[id := rows[id].(phase := Completed)])
    else
      && RoundFits(w, rows, id, prompts[0], records[0])
      && RunFits(w, rows[id := rows[id].(next := rows[id].next + 1, histories := rows[id].histories[prompts[0] := records[0]])],
                 id, prompts[1..], records[1..])
  }

  /** The requests of the chunks from `next` on, in order. */
  function Requests(id: string, key: string, next: nat, count: nat): seq<Claim>
    decreases count
  {
    if count == 0 then [] else [Claim(id, key, next)] + Requests(id, key, next + 1, count - 1)
  }

  ghost predicate FreshPrompts(s: State, prompts: seq<string>) {
    && (forall i :: 0 <= i < |prompts| ==> prompts[i] != "" && prompts[i] !in s.past.origin)
    && (forall i, j :: 0 <= i < j < |prompts| ==> prompts[i] != prompts[j])
  }

  lemma RestFresh(s: State, t: State, prompts: seq<string>)
    requires FreshPrompts(s, prompts) && prompts != [] && t.past.origin.Keys == s.past.origin.Keys + {prompts[0]}
    ensures FreshPrompts(t, prompts[1..])
  {
    forall i | 0 <= i < |prompts[1..]| ensures prompts[1..][i] != "" && prompts[1..][i] !in t.past.origin {
      assert prompts[1..][i] == prompts[i + 1];
      assert prompts[i + 1] !in t.past.origin.Keys;
    }
  }

  lemma FirstFresh(s: State, prompts: seq<string>)
    requires FreshPrompts(s, prompts) && prompts != []
    ensures prompts[0] != "" && prompts[0] !in s.past.origin
  {}

  lemma {:induction false} HaltedForGood(w: World, s: State, r: RunId, prompts: seq<string>, records: seq<string>)
    requires Halted(s, r) && |prompts| == |records|
    ensures Apply(w, Rounds(w, s, r, prompts, records), RunTop(r, Durable, Durable)) == s
    decreases |prompts|
  {
    hide Apply;
    if prompts == [] {
      HaltedStays(w, s, r, "", "");
    } else {
      HaltedStays(w, s, r, prompts[0], records[0]);
      HaltedForGood(w, s, r, prompts[1..], records[1..]);
    }
  }

  /** With no write lost and every request answered, a run sends each remaining chunk once, in order, and ends
      completed, if and only if every file it writes fits and, when a chunk remains, its output map is not nil. */
  lemma {:induction false} UntroubledRunCompletes(w: World, s: State, r: RunId, prompts: seq<string>, records: seq<string>)
    requires ReadyRun(s, r) && |prompts| == |records| == |s.rows[r.0].chunks| - s.rows[r.0].next
    requires FreshPrompts(s, prompts) && forall i :: 0 <= i < |records| ==> w.validJson(records[i])
    ensures var x := s.rows[r.0]; var t := Apply(w, Rounds(w, s, r, prompts, records), RunTop(r, Durable, Durable));
            && r.0 in t.rows
            && (t.rows[r.0].phase == Completed <==> RunFits(w, s.rows, r.0, prompts, records) && (prompts == [] || r.0 !in s.bare))
            && (t.rows[r.0].phase == Completed ==>
                  t.rows[r.0].next == |x.chunks| && t.past.posts == s.past.posts + Requests(r.0, x.key, x.next, |prompts|))
    decreases |prompts|
  {
    hide Apply, Fits, FreshPrompts, Round, RoundFits;
    var x := s.rows[r.0];
    if prompts == [] {
      LastRoundCompletes(w, s, r);
      assert s.past.posts + [] == s.past.posts;
    } else {
      FirstFresh(s, prompts);
      RoundCommitsOneChunk(w, s, r, prompts[0], records[0]);
      var t := Round(w, s, r, prompts[0], records[0]);
      if Halted(t, r) {
        HaltedForGood(w, t, r, prompts[1..], records[1..]);
      } else {
        RestFresh(s, t, prompts);
        UntroubledRunCompletes(w, t, r, prompts[1..], records[1..]);
        assert s.past.posts + [Claim(r.0, x.key, x.next)] + Requests(r.0, x.key, x.next + 1, |prompts| - 1)
            == s.past.posts + Requests(r.0, x.key, x.next, |prompts|);
      }
    }
  }
}
