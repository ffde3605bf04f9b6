/** Reading chunk lists and state files: the loops of the parser and the loader, and what they accept. */
module HarnessLoader {
  import opened HarnessModel
  import opened HarnessPayloads

  // ---------------------------------------------------------------- chunk lists and rows

  /** Names unnamed chunks and rejects duplicates and empty prompts, in one pass over the list. */
  method ParsePayload(w: World, payload: Payload) returns (r: Option<seq<Chunk>>)
    ensures r == ParseChunks(w, payload) && PayloadReply(w, payload, r)
  {
    hide PayloadReply, DefaultName, ReadAs;
    PayloadMeans(w, payload);
    if payload.Malformed? { return None; }
    var chunks := PayloadChunks(payload);
    ghost var named := Named(chunks);
    NamedReads(chunks);
    if chunks == [] { return None; }
    var seen: set<string> := {};
    var i := 0;
    var out: seq<Chunk> := [];
    while i < |chunks|
      invariant 0 <= i <= |chunks| && out == named[..i]
      invariant forall s :: s in seen <==> exists j :: 0 <= j < i && named[j].id == s
      invariant forall j :: 0 <= j < i ==> named[j].id != "" && w.promptObject(named[j].prompt)
      invariant forall j, k :: 0 <= j < k < i ==> named[j].id != named[k].id
    {
      var chunk := NamedChunk(chunks[i], i);
      assert chunk == named[i];
      if chunk.id in seen { return None; }
      seen := seen + {chunk.id};
      if !w.promptObject(chunk.prompt) { return None; }
      out := out + [chunk];
      i := i + 1;
    }
    assert out == named;
    return Some(out);
  }

  /** The loader's scan over one row's outputs. */
  method HistoriesValid(w: World, histories: map<string, string>) returns (ok: bool)
    ensures ok <==> forall p :: p in histories ==> p != "" && w.validJson(histories[p])
  {
    var left := histories.Keys;
    while left != {}
      invariant left <= histories.Keys
      invariant forall p :: p in histories && p !in left ==> p != "" && w.validJson(histories[p])
      decreases left
    {
      var p :| p in left;
      if p == "" || !w.validJson(histories[p]) { return false; }
      left := left - {p};
    }
    return true;
  }

  /** The loader's checks on one row, in the order the program makes them. */
  method CheckRow(w: World, x: Execution) returns (ok: bool)
    ensures ok <==> RowLoads(w, x)
    ensures ok <==> Consistent(w, x)
  {
    RowLoadsIffConsistent(w, x);
    hide Consistent;
    if x.id == "" || x.key == "" { return false; }
    if x.next < 0 || x.next > |x.chunks| || |x.histories| != x.next { return false; }
    var chunks := ParsePayload(w, Envelope(None, x.chunks));
    if chunks != Some(x.chunks) { return false; }
    var histories := HistoriesValid(w, x.histories);
    if !histories || x.payloadHash != w.hash(x.chunks) { return false; }
    if x.phase.UnknownPhase? || x.submission.UnknownSubmission? { return false; }
    if x.submission != NoSubmission && (x.next >= |x.chunks| || x.submittingChunk != x.chunks[x.next].id) { return false; }
    if x.prompt != "" && x.submission != Accepted && x.submission != Unknown { return false; }
    if x.phase == Completed && x.next != |x.chunks| { return false; }
    if x.ref != "" {
      if !Resumable(x.phase) || !ValidRef(x.ref) || x.refChunk != x.next || x.refEpoch == 0 || x.refEpoch != x.epoch { return false; }
    } else if x.refChunk != 0 || x.refEpoch != 0 {
      return false;
    }
    if Resumable(x.phase) && x.ref == "" { return false; }
    return !(x.phase == Cancelling && x.requested != CancelRequest);
  }

  // ---------------------------------------------------------------- the file as a list

  /** A decoded file: a list of rows, possibly with null entries. */
  type File = seq<Option<Execution>>

  ghost predicate FileLoads(w: World, file: File) {
    && (forall i :: 0 <= i < |file| ==> file[i].Some? && RowLoads(w, UpgradeHash(w, file[i].value)))
    && (forall i, j :: 0 <= i < j < |file| ==> file[i].value.id != file[j].value.id && file[i].value.key != file[j].value.key)
  }

  datatype Memory = Refused | Memory(rows: Rows, keys: map<string, string>, recovered: bool)

  /** One turn of the loader's loop. */
  ghost function Ingest(w: World, m: Memory, entry: Option<Execution>): Memory {
    if m.Refused? || entry.None? || entry.value.id in m.rows || entry.value.key in m.keys
       || !RowLoads(w, UpgradeHash(w, entry.value)) then Refused
    else
      var x := entry.value;
      Memory(m.rows[x.id := LoadedRow(w, x)], m.keys[x.key := x.id], m.recovered || Rewrites(w, x))
  }

  ghost function IngestAll(w: World, file: File): Memory {
    if file == [] then Memory(map[], map[], false)
    else Ingest(w, IngestAll(w, file[..|file| - 1]), file[|file| - 1])
  }

  lemma {:induction false} RefusedStays(w: World, file: File, n: nat)
    requires n <= |file|
    ensures IngestAll(w, file[..n]).Refused? ==> IngestAll(w, file).Refused?
  {
    if n == |file| {
      assert file[..n] == file;
    } else {
      RefusedStays(w, file[..|file| - 1], n);
      assert file[..|file| - 1][..n] == file[..n];
    }
  }

  /** Reads a file into empty maps; stops at the first bad or duplicate entry. */
  method Load(w: World, file: File) returns (m: Memory)
    ensures m == IngestAll(w, file)
  {
    hide RowLoads, UpgradeHash, Recover, Rewrites;
    m := Memory(map[], map[], false);
    var i := 0;
    while i < |file|
      invariant 0 <= i <= |file| && m.Memory? && m == IngestAll(w, file[..i])
    {
      assert file[..i + 1][..i] == file[..i];
      RefusedStays(w, file, i + 1);
      if file[i].None? { return Refused; }
      var x := file[i].value;
      if x.id in m.rows || x.key in m.keys { return Refused; }
      var upgraded := UpgradeHash(w, x);
      var good := CheckRow(w, upgraded);
      if !good { return Refused; }
      m := Memory(m.rows[x.id := Recover(upgraded)], m.keys[x.key := x.id], m.recovered || Rewrites(w, x));
      i := i + 1;
    }
    assert file[..i] == file;
  }

  /** What the maps hold after a whole file was read. */
  ghost predicate RowsOf(w: World, file: File, rows: Rows)
    requires forall i :: 0 <= i < |file| ==> file[i].Some?
  {
    && (forall i :: 0 <= i < |file| ==> file[i].value.id in rows && rows[file[i].value.id] == LoadedRow(w, file[i].value))
    && (forall id :: id in rows ==> exists i :: 0 <= i < |file| && file[i].value.id == id)
  }

  ghost predicate IndexOf(file: File, keys: map<string, string>)
    requires forall i :: 0 <= i < |file| ==> file[i].Some?
  {
    && (forall i :: 0 <= i < |file| ==> file[i].value.key in keys && keys[file[i].value.key] == file[i].value.id)
    && (forall key :: key in keys ==> exists i :: 0 <= i < |file| && file[i].value.key == key)
  }

  lemma RowsGrow(w: World, file: File, x: Execution, rows: Rows)
    requires (forall i :: 0 <= i < |file| ==> file[i].Some?) && RowsOf(w, file, rows) && x.id !in rows
    ensures RowsOf(w, file + [Some(x)], rows[x.id := LoadedRow(w, x)])
  {
    hide LoadedRow;
    var longer := file + [Some(x)];
    forall id | id in rows ensures exists i :: 0 <= i < |longer| && longer[i].value.id == id {
      var i :| 0 <= i < |file| && file[i].value.id == id;
      assert longer[i].value.id == id;
    }
    assert longer[|file|].value.id == x.id;
  }

  lemma IndexGrows(file: File, x: Execution, keys: map<string, string>)
    requires (forall i :: 0 <= i < |file| ==> file[i].Some?) && IndexOf(file, keys) && x.key !in keys
    ensures IndexOf(file + [Some(x)], keys[x.key := x.id])
  {
    var longer := file + [Some(x)];
    forall key | key in keys ensures exists i :: 0 <= i < |longer| && longer[i].value.key == key {
      var i :| 0 <= i < |file| && file[i].value.key == key;
      assert longer[i].value.key == key;
    }
    assert longer[|file|].value.key == x.key;
  }

  lemma FileLoadsGrows(w: World, file: File, entry: Option<Execution>, rows: Rows, keys: map<string, string>)
    requires FileLoads(w, file) && RowsOf(w, file, rows) && IndexOf(file, keys)
    ensures FileLoads(w, file + [entry]) <==>
            entry.Some? && entry.value.id !in rows && entry.value.key !in keys && RowLoads(w, UpgradeHash(w, entry.value))
  {
    hide LoadedRow, RowLoads, UpgradeHash;
    var longer := file + [entry];
    assert longer[|file|] == entry;
    assert forall i :: 0 <= i < |file| ==> longer[i] == file[i];
  }

  lemma FileLoadsPrefix(w: World, file: File, entry: Option<Execution>)
    requires FileLoads(w, file + [entry])
    ensures FileLoads(w, file)
  {
    hide RowLoads, UpgradeHash;
    assert forall i :: 0 <= i < |file| ==> (file + [entry])[i] == file[i];
  }

  /** The loader accepts a file exactly when every entry is a valid row and no id or key repeats, and then holds
      each row, recovered, under its id and its key. */
  lemma {:induction false} LoaderAccepts(w: World, file: File)
    ensures IngestAll(w, file).Memory? <==> FileLoads(w, file)
    ensures IngestAll(w, file).Memory? ==> RowsOf(w, file, IngestAll(w, file).rows) && IndexOf(file, IngestAll(w, file).keys)
  {
    hide RowLoads, UpgradeHash, LoadedRow, Rewrites, FileLoads, RowsOf, IndexOf;
    if file == [] {
      EmptyFile(w);
    } else {
      var rest, entry := file[..|file| - 1], file[|file| - 1];
      assert file == rest + [entry];
      LoaderAccepts(w, rest);
      var m := IngestAll(w, rest);
      if m.Refused? {
        if FileLoads(w, file) { FileLoadsPrefix(w, rest, entry); }
      } else {
        AllPresent(w, rest);
        FileLoadsGrows(w, rest, entry, m.rows, m.keys);
        if IngestAll(w, file).Memory? {
          RowsGrow(w, rest, entry.value, m.rows);
          IndexGrows(rest, entry.value, m.keys);
        }
      }
      if FileLoads(w, file) { AllPresent(w, file); }
    }
  }

  lemma EmptyFile(w: World)
    ensures FileLoads(w, []) && RowsOf(w, [], map[]) && IndexOf([], map[])
  {}

  lemma AllPresent(w: World, file: File)
    requires FileLoads(w, file)
    ensures forall i :: 0 <= i < |file| ==> file[i].Some?
  {}

  /** `file` holds each row of `rows` once, in some order. */
  ghost predicate Lists(file: File, rows: Rows) {
    && (forall i :: 0 <= i < |file| ==> file[i].Some? && file[i].value.id in rows && rows[file[i].value.id] == file[i].value)
    && (forall i, j :: 0 <= i < j < |file| ==> file[i].value.id != file[j].value.id)
    && (forall id :: id in rows ==> exists i :: 0 <= i < |file| && file[i].value.id == id)
  }

  lemma ListedFileLoads(w: World, file: File, rows: Rows)
    requires Lists(file, rows)
    ensures FileLoads(w, file) <==> Loads(w, rows)
  {
    hide RowLoads, UpgradeHash;
    forall id | id in rows ensures rows[id].id == id {
      var i :| 0 <= i < |file| && file[i].value.id == id;
    }
    if Loads(w, rows) {
      forall i, j | 0 <= i < j < |file| ensures file[i].value.key != file[j].value.key {
        assert file[i].value.id in rows && file[j].value.id in rows;
      }
    }
    if FileLoads(w, file) {
      forall id | id in rows ensures RowLoads(w, UpgradeHash(w, rows[id])) {
        var i :| 0 <= i < |file| && file[i].value.id == id;
      }
      forall a, b | a in rows && b in rows && rows[a].key == rows[b].key ensures a == b {
        var i :| 0 <= i < |file| && file[i].value.id == a;
        var j :| 0 <= j < |file| && file[j].value.id == b;
      }
    }
  }

  lemma ListedFileGives(w: World, file: File, rows: Rows, loaded: Rows)
    requires Lists(file, rows) && RowsOf(w, file, loaded)
    ensures loaded == LoadedRows(w, rows)
  {
    hide LoadedRow;
    forall id | id in rows ensures id in loaded && loaded[id] == LoadedRow(w, rows[id]) {
      var i :| 0 <= i < |file| && file[i].value.id == id;
    }
    forall id | id in loaded ensures id in rows {
      var i :| 0 <= i < |file| && file[i].value.id == id;
    }
  }

  ghost predicate Indexes(keys: map<string, string>, rows: Rows) {
    && (forall id :: id in rows ==> rows[id].key in keys && keys[rows[id].key] == id)
    && (forall key :: key in keys ==> keys[key] in rows && rows[keys[key]].key == key)
  }

  lemma IndexUnique(rows: Rows, keys: map<string, string>)
    requires Indexes(keys, rows)
    ensures keys == KeysOf(rows)
  {
    forall key | key in keys ensures key in KeySet(rows) && keys[key] == Holder(rows, key) {
      assert rows[keys[key]].key == key;
    }
  }

  lemma ListedIndexes(file: File, rows: Rows, keys: map<string, string>)
    requires Lists(file, rows) && IndexOf(file, keys)
    ensures Indexes(keys, rows)
  {
    forall id | id in rows ensures rows[id].key in keys && keys[rows[id].key] == id {
      var i :| 0 <= i < |file| && file[i].value.id == id;
    }
    forall key | key in keys ensures keys[key] in rows && rows[keys[key]].key == key {
      var i :| 0 <= i < |file| && file[i].value.key == key;
    }
  }

  lemma ListedFileIndexes(w: World, file: File, rows: Rows, keys: map<string, string>)
    requires Lists(file, rows) && IndexOf(file, keys)
    ensures keys == KeysOf(LoadedRows(w, rows))
  {
    hide KeysOf, Lists, IndexOf;
    ListedIndexes(file, rows, keys);
    assert forall id :: id in rows ==> LoadedRow(w, rows[id]).key == rows[id].key;
    IndexUnique(LoadedRows(w, rows), keys);
  }

  lemma {:induction false} RecoveredIff(w: World, file: File)
    requires IngestAll(w, file).Memory?
    ensures IngestAll(w, file).recovered <==> exists i :: 0 <= i < |file| && file[i].Some? && Rewrites(w, file[i].value)
  {
    hide Rewrites, RowLoads, UpgradeHash, LoadedRow;
    if file != [] {
      RecoveredIff(w, file[..|file| - 1]);
    }
  }

  /** Whatever order the rows are written in, reading the list back is loading the map the other theorems
      speak of: same verdict, same rows, same key index, same decision to rewrite the file. */
  lemma ListedFileIsTheMap(w: World, file: File, rows: Rows)
    requires Lists(file, rows)
    ensures IngestAll(w, file).Memory? <==> Loads(w, rows)
    ensures Loads(w, rows) ==> IngestAll(w, file).rows == LoadedRows(w, rows)
    ensures Loads(w, rows) ==> IngestAll(w, file).keys == KeysOf(LoadedRows(w, rows))
    ensures Loads(w, rows) ==> (IngestAll(w, file).recovered <==> exists id :: id in rows && Rewrites(w, rows[id]))
  {
    hide RowLoads, UpgradeHash, LoadedRow, LoadedRows, KeysOf, Rewrites, Loads, FileLoads, RowsOf, IndexOf;
    ListedFileLoads(w, file, rows);
    LoaderAccepts(w, file);
    if Loads(w, rows) {
      var m := IngestAll(w, file);
      ListedFileGives(w, file, rows, m.rows);
      ListedFileIndexes(w, file, rows, m.keys);
      RecoveredIff(w, file);
    }
  }
}
