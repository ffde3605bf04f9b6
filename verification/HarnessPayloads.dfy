/** What a payload is read as, and what the loader demands of a row, told without the parser and the loader. */
module HarnessPayloads {
  import opened HarnessModel

  // ---------------------------------------------------------------- names by position

  predicate Digits(s: string) {
    forall i :: 0 <= i < |s| ==> '0' <= s[i] <= '9'
  }

  /** The number a string of digits stands for. */
  function Value(s: string): nat
    requires Digits(s)
  {
    if s == "" then 0 else 10 * Value(s[..|s| - 1]) + (s[|s| - 1] as int - '0' as int)
  }

  lemma Digit(n: nat)
    requires n < 10
    ensures var c := ['0', '1', '2', '3', '4', '5', '6', '7', '8', '9'][n]; '0' <= c <= '9' && c as int == '0' as int + n
  {
  }

  lemma {:induction false} DecimalIs(n: nat)
    ensures Digits(Decimal(n)) && Value(Decimal(n)) == n && |Decimal(n)| >= 1 && (n > 0 ==> Decimal(n)[0] != '0')
  {
    var d := Decimal(n);
    Digit(n % 10);
    if n < 10 {
      assert d[..|d| - 1] == "";
    } else {
      DecimalIs(n / 10);
      assert d[..|d| - 1] == Decimal(n / 10);
      assert d[0] == Decimal(n / 10)[0];
    }
  }

  lemma {:induction false} LeadingZero(s: string)
    requires Digits(s)
    ensures Digits("0" + s) && Value("0" + s) == Value(s)
  {
    var z := "0" + s;
    assert forall i :: 0 <= i < |s| ==> z[i + 1] == s[i];
    assert forall i :: 1 <= i < |z| ==> z[i] == s[i - 1];
    assert Digits(z);
    if s == "" {
      assert z[..0] == "" && Value(z[..0]) == 0;
    } else {
      LeadingZero(s[..|s| - 1]);
      assert z[..|z| - 1] == "0" + s[..|s| - 1];
    }
  }

  lemma {:induction false} PaddedIs(s: string)
    requires Digits(s)
    ensures Digits(Padded(s)) && Value(Padded(s)) == Value(s)
    ensures |s| >= 4 ==> Padded(s) == s
    ensures |s| < 4 ==> |Padded(s)| == 4
    decreases 4 - |s|
  {
    if |s| < 4 {
      LeadingZero(s);
      PaddedIs("0" + s);
    }
  }

  /** `name` is the name of the chunk at a zero-based position: its number from one, in four digits or as many as needed. */
  ghost predicate NamesPosition(name: string, index: nat) {
    && |name| >= 10 && name[..6] == "chunk-" && Digits(name[6..]) && Value(name[6..]) == index + 1
    && (|name| > 10 ==> name[6] != '0')
  }

  lemma DefaultNameIs(index: nat)
    ensures NamesPosition(DefaultName(index), index)
  {
    var d := Decimal(index + 1);
    DecimalIs(index + 1);
    PaddedIs(d);
    assert DefaultName(index)[..6] == "chunk-" && DefaultName(index)[6..] == Padded(d);
    hide Decimal, Padded, Value;
  }

  /** No two positions share a name. */
  lemma PositionsApart(i: nat, j: nat)
    requires DefaultName(i) == DefaultName(j)
    ensures i == j
  {
    DefaultNameIs(i);
    DefaultNameIs(j);
    hide DefaultName, Value;
  }

  // ---------------------------------------------------------------- payloads

  /** The chunk list is read in order, prompts as given; a name given is kept, a blank one is that of the position. */
  ghost predicate ReadAs(managed: seq<Chunk>, chunks: seq<Chunk>) {
    && |chunks| == |managed|
    && forall i :: 0 <= i < |managed| ==>
         chunks[i].prompt == managed[i].prompt && (if managed[i].id != "" then chunks[i].id == managed[i].id else NamesPosition(chunks[i].id, i))
  }

  predicate NamesDistinct(chunks: seq<Chunk>) {
    forall i, j :: 0 <= i < j < |chunks| ==> chunks[i].id != chunks[j].id
  }

  predicate PromptsObjects(w: World, chunks: seq<Chunk>) {
    forall i :: 0 <= i < |chunks| ==> w.promptObject(chunks[i].prompt)
  }

  /** What a payload is read as. Without a list a prompt alone is one chunk; without either there is nothing to run. A list
      is refused exactly when a prompt is no object or a name repeats. */
  ghost predicate PayloadReply(w: World, payload: Payload, r: Option<seq<Chunk>>) {
    match payload
    case Malformed => r == None
    case Envelope(prompt, managed) =>
      if managed != [] then
        && (r.Some? ==> ReadAs(managed, r.value) && NamesDistinct(r.value) && PromptsObjects(w, r.value))
        && (r.None? ==> !PromptsObjects(w, managed) || exists all :: ReadAs(managed, all) && !NamesDistinct(all))
      else match prompt
        case None => r == None
        case Some(p) => if w.promptObject(p) then r == Some([Chunk("chunk-0001", p)]) else r == None
  }

  lemma NamedReads(managed: seq<Chunk>)
    ensures ReadAs(managed, Named(managed)) && forall i :: 0 <= i < |managed| ==> Named(managed)[i].id != ""
  {
    forall i: nat ensures NamesPosition(DefaultName(i), i) { DefaultNameIs(i); }
    hide DefaultName;
  }

  lemma FirstName()
    ensures DefaultName(0) == "chunk-0001"
  {
    assert Decimal(1) == "1";
    assert "0" + "1" == "01" && "0" + "01" == "001" && "0" + "001" == "0001";
    assert Padded("0001") == "0001";
    assert Padded("001") == Padded("0" + "001");
    assert Padded("01") == Padded("0" + "01");
    assert Padded("1") == Padded("0" + "1");
  }

  lemma PayloadMeans(w: World, payload: Payload)
    ensures PayloadReply(w, payload, ParseChunks(w, payload))
  {
    if payload.Envelope? {
      if payload.managed != [] {
        NamedReads(payload.managed);
        hide Named, ReadAs;
        assert PromptsObjects(w, payload.managed) <==> PromptsObjects(w, Named(payload.managed)) by { PromptsKept(w, payload.managed); }
      } else if payload.prompt.Some? {
        FirstName();
        hide DefaultName;
        var one := [Chunk("chunk-0001", payload.prompt.value)];
        assert PayloadChunks(payload) == one && Named(one) == one && one[0].prompt == payload.prompt.value;
      }
    }
  }

  lemma PromptsKept(w: World, managed: seq<Chunk>)
    ensures PromptsObjects(w, managed) <==> PromptsObjects(w, Named(managed))
  {
    var all := Named(managed);
    assert forall i :: 0 <= i < |managed| ==> all[i].prompt == managed[i].prompt;
  }

  /** A list that names nothing is refused only for its prompts. */
  lemma UnnamedListReads(w: World, prompt: Option<string>, managed: seq<Chunk>)
    requires managed != [] && PromptsObjects(w, managed) && forall i :: 0 <= i < |managed| ==> managed[i].id == ""
    ensures ParseChunks(w, Envelope(prompt, managed)).Some?
  {
    var all := Named(managed);
    assert forall i :: 0 <= i < |managed| ==> all[i].id == DefaultName(i);
    forall i: nat, j: nat ensures i < j ==> DefaultName(i) != DefaultName(j) { if DefaultName(i) == DefaultName(j) { PositionsApart(i, j); } }
    forall i: nat ensures DefaultName(i) != "" { DefaultNameIs(i); }
    hide DefaultName;
  }

  // ---------------------------------------------------------------- rows

  /** A checkpoint reference: the scheme and 64 hexadecimal digits. */
  ghost predicate Reference(ref: string) {
    |ref| == 77 && ref[..13] == "checkpoint://" && forall i :: 13 <= i < 77 ==> ref[i] in "0123456789abcdefABCDEF"
  }

  lemma HexIs(c: char)
    ensures HexDigit(c) <==> c in "0123456789abcdefABCDEF"
  {
    var all := "0123456789abcdefABCDEF";
    if '0' <= c <= '9' { assert c == all[c as int - '0' as int]; }
    if 'a' <= c <= 'f' { assert c == all[c as int - 'a' as int + 10]; }
    if 'A' <= c <= 'F' { assert c == all[c as int - 'A' as int + 16]; }
  }

  lemma ReferenceIs(ref: string)
    ensures ValidRef(ref) <==> Reference(ref)
  {
    forall c ensures HexDigit(c) <==> c in "0123456789abcdefABCDEF" { HexIs(c); }
    hide HexDigit;
    assert |REF_PREFIX| == 13;
  }

  /** The chunks are a list the parser would leave as it is. */
  ghost predicate Settled(w: World, chunks: seq<Chunk>) {
    chunks != [] && NamesDistinct(chunks) && PromptsObjects(w, chunks) && forall i :: 0 <= i < |chunks| ==> chunks[i].id != ""
  }

  lemma ChunksSettled(w: World, chunks: seq<Chunk>)
    ensures ParseChunks(w, Envelope(None, chunks)) == Some(chunks) <==> Settled(w, chunks)
  {
    hide DefaultName;
    if forall i :: 0 <= i < |chunks| ==> chunks[i].id != "" {
      assert Named(chunks) == chunks;
    } else if ParseChunks(w, Envelope(None, chunks)).Some? {
      var i :| 0 <= i < |chunks| && chunks[i].id == "";
      assert Named(chunks)[i].id != "";
    }
  }

  /** An accepted row: as many outputs as chunks behind the cursor, the digest of its own chunks, custody only of the chunk
      at the cursor, completed only at the end, and a reference exactly on a stopped row, naming its cursor and epoch. */
  ghost predicate Consistent(w: World, x: Execution) {
    && x.id != "" && x.key != "" && Settled(w, x.chunks) && x.payloadHash == w.hash(x.chunks)
    && 0 <= x.next == |x.histories| <= |x.chunks| && "" !in x.histories && (forall p :: p in x.histories ==> w.validJson(x.histories[p]))
    && x.phase in {Running, Cancelling, Uncertain, Yielded, Checkpointed, Completed, Failed, Cancelled}
    && x.submission in {NoSubmission, Submitting, Accepted, Unknown}
    && (x.submission != NoSubmission ==> x.next < |x.chunks| && x.submittingChunk == x.chunks[x.next].id)
    && (x.submission == NoSubmission || x.submission == Submitting ==> x.prompt == "")
    && (x.phase == Completed ==> x.next == |x.chunks|) && (x.phase == Cancelling ==> x.requested == CancelRequest)
    && (if x.phase == Yielded || x.phase == Checkpointed then Reference(x.ref) && x.refChunk == x.next && x.refEpoch == x.epoch != 0
        else x.ref == "" && x.refChunk == 0 && x.refEpoch == 0)
  }

  /** The loader accepts a row if and only if it is consistent. */
  lemma RowLoadsIffConsistent(w: World, x: Execution)
    ensures RowLoads(w, x) <==> Consistent(w, x)
  {
    ChunksSettled(w, x.chunks);
    ReferenceIs(x.ref);
    hide ParseChunks, ValidRef, Settled;
  }

  /** What an accepted row is loaded as: uncertain for the reason of the restart if anything was under way, with a missing
      digest filled in if it had ended; nothing else changes. */
  lemma LoadedRowIs(w: World, x: Execution)
    requires RowLoads(w, UpgradeHash(w, x))
    ensures var y := LoadedRow(w, x);
            && y == x.(payloadHash := w.hash(x.chunks), phase := y.phase, error := y.error)
            && (x.payloadHash == "" && x.payloadHash != w.hash(x.chunks) ==> x.phase in {Completed, Failed, Cancelled})
            && (x.payloadHash != "" ==> x.payloadHash == w.hash(x.chunks))
            && (if x.phase == Running || x.phase == Cancelling || x.submission != NoSubmission || x.prompt != ""
                then y.phase == Uncertain && y.error == RestartCustody else y.phase == x.phase && y.error == x.error)
  {
    hide ParseChunks, ValidRef;
  }
}
