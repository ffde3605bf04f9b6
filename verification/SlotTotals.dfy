/** The slot totals a model listing reports: per accelerator the largest slot count seen, and over accelerators the
    sum of the largest few. */
module SlotTotals {

  type Capacities = map<string, int>

  // ---------------------------------------------------------------- per-accelerator maxima

  datatype Target = Target(id: string, accelerator: string, slots: int)

  function CapacityKey(t: Target): string {
    if t.accelerator == "" then "target/" + t.id else t.accelerator
  }

  /** Targets share an entry exactly when they name the same accelerator, or name none and are the same target; a target
      without one meets an accelerator only if that is named after it. */
  lemma SharesEntryIff(a: Target, b: Target)
    ensures a.accelerator != "" && b.accelerator != "" ==> (CapacityKey(a) == CapacityKey(b) <==> a.accelerator == b.accelerator)
    ensures a.accelerator == "" && b.accelerator == "" ==> (CapacityKey(a) == CapacityKey(b) <==> a.id == b.id)
    ensures a.accelerator == "" && b.accelerator != "" ==> (CapacityKey(a) == CapacityKey(b) <==> b.accelerator == "target/" + a.id)
  {
    assert ("target/" + a.id)[7..] == a.id && ("target/" + b.id)[7..] == b.id;
  }

  /** `m` holds, for each accelerator with a positive slot count, the largest one. */
  ghost predicate Maxima(targets: seq<Target>, m: Capacities) {
    && (forall k :: k in m ==> m[k] > 0 && exists i :: 0 <= i < |targets| && CapacityKey(targets[i]) == k && targets[i].slots == m[k])
    && (forall i :: 0 <= i < |targets| && targets[i].slots > 0 ==> CapacityKey(targets[i]) in m && targets[i].slots <= m[CapacityKey(targets[i])])
  }

  method RecordMaxima(targets: seq<Target>) returns (m: Capacities)
    ensures Maxima(targets, m)
  {
    hide CapacityKey;
    m := map[];
    var i := 0;
    while i < |targets|
      invariant 0 <= i <= |targets| && Maxima(targets[..i], m)
    {
      var key := CapacityKey(targets[i]);
      ghost var before := m;
      if targets[i].slots > (if key in m then m[key] else 0) { m := m[key := targets[i].slots]; }
      MaximaGrow(targets, i, before, m);
      i := i + 1;
    }
    assert targets[..i] == targets;
  }

  lemma MaximaGrow(targets: seq<Target>, i: nat, before: Capacities, m: Capacities)
    requires i < |targets| && Maxima(targets[..i], before)
    requires var key := CapacityKey(targets[i]);
             m == if targets[i].slots > (if key in before then before[key] else 0) then before[key := targets[i].slots] else before
    ensures Maxima(targets[..i + 1], m)
  {
    hide CapacityKey;
    var longer := targets[..i + 1];
    assert longer[i] == targets[i] && forall n :: 0 <= n < i ==> longer[n] == targets[..i][n];
    forall k | k in m ensures m[k] > 0 && exists n :: 0 <= n < |longer| && CapacityKey(longer[n]) == k && longer[n].slots == m[k] {
      if k in before && m[k] == before[k] {
        var n :| 0 <= n < i && CapacityKey(targets[..i][n]) == k && targets[..i][n].slots == before[k];
        assert CapacityKey(longer[n]) == k && longer[n].slots == m[k];
      } else {
        assert CapacityKey(longer[i]) == k && longer[i].slots == m[k];
      }
    }
  }

  // ---------------------------------------------------------------- sums

  function Sum(s: seq<int>): int {
    if s == [] then 0 else Sum(s[..|s| - 1]) + s[|s| - 1]
  }

  ghost function SumOver(values: Capacities, keys: set<string>): int
    requires keys <= values.Keys
  {
    if keys == {} then 0 else var k :| k in keys; values[k] + SumOver(values, keys - {k})
  }

  lemma {:induction false} SumOverWithout(values: Capacities, keys: set<string>, k: string)
    requires keys <= values.Keys && k in keys
    ensures SumOver(values, keys) == values[k] + SumOver(values, keys - {k})
    decreases |keys|
  {
    var j :| j in keys && SumOver(values, keys) == values[j] + SumOver(values, keys - {j});
    if j != k {
      SumOverWithout(values, keys - {j}, k);
      SumOverWithout(values, keys - {k}, j);
      assert keys - {j} - {k} == keys - {k} - {j};
    }
  }

  /** `total` is the largest sum over any choice of at most `limit` accelerators. */
  ghost predicate Best(values: Capacities, limit: nat, total: int) {
    && (exists keys :: keys <= values.Keys && |keys| <= limit && SumOver(values, keys) == total)
    && (forall keys :: keys <= values.Keys && |keys| <= limit ==> SumOver(values, keys) <= total)
  }

  // ---------------------------------------------------------------- sorting

  function Insert(x: int, s: seq<int>): seq<int> {
    if s == [] || x >= s[0] then [x] + s else [s[0]] + Insert(x, s[1..])
  }

  /** Sorting, largest first. */
  function Descending(s: seq<int>): seq<int> {
    if s == [] then [] else Insert(s[|s| - 1], Descending(s[..|s| - 1]))
  }

  function InsertKey(values: Capacities, k: string, ks: seq<string>): seq<string>
    requires k in values && forall i :: 0 <= i < |ks| ==> ks[i] in values
  {
    if ks == [] || values[k] >= values[ks[0]] then [k] + ks else [ks[0]] + InsertKey(values, k, ks[1..])
  }

  function Values(values: Capacities, ks: seq<string>): seq<int>
    requires forall i :: 0 <= i < |ks| ==> ks[i] in values
  {
    seq(|ks|, i requires 0 <= i < |ks| => values[ks[i]])
  }

  ghost predicate Ranked(values: Capacities, ks: seq<string>) {
    && (forall i :: 0 <= i < |ks| ==> ks[i] in values)
    && (forall i, j :: 0 <= i < j < |ks| ==> ks[i] != ks[j] && values[ks[i]] >= values[ks[j]])
  }

  ghost function Elements<T>(s: seq<T>): set<T> { set i | 0 <= i < |s| :: s[i] }

  lemma ElementsCons<T>(x: T, s: seq<T>)
    ensures Elements([x] + s) == {x} + Elements(s)
  {
    ElementsSplit([x] + s);
    assert ([x] + s)[1..] == s;
  }

  lemma {:induction false} InsertKeyElements(values: Capacities, k: string, ks: seq<string>)
    requires k in values && forall i :: 0 <= i < |ks| ==> ks[i] in values
    ensures Elements(InsertKey(values, k, ks)) == Elements(ks) + {k} && forall i :: 0 <= i < |InsertKey(values, k, ks)| ==> InsertKey(values, k, ks)[i] in values
  {
    hide Elements;
    if ks == [] || values[k] >= values[ks[0]] {
      ElementsCons(k, ks);
    } else {
      InsertKeyElements(values, k, ks[1..]);
      ElementsCons(ks[0], InsertKey(values, k, ks[1..]));
      ElementsCons(ks[0], ks[1..]);
      assert [ks[0]] + ks[1..] == ks;
    }
  }

  lemma {:induction false} InsertKeyValues(values: Capacities, k: string, ks: seq<string>)
    requires k in values && forall i :: 0 <= i < |ks| ==> ks[i] in values
    ensures forall i :: 0 <= i < |InsertKey(values, k, ks)| ==> InsertKey(values, k, ks)[i] in values
    ensures Values(values, InsertKey(values, k, ks)) == Insert(values[k], Values(values, ks))
  {
    if ks != [] && values[k] < values[ks[0]] {
      InsertKeyValues(values, k, ks[1..]);
      assert Values(values, ks)[1..] == Values(values, ks[1..]);
      assert Values(values, InsertKey(values, k, ks)) == [values[ks[0]]] + Values(values, InsertKey(values, k, ks[1..]));
    }
  }

  lemma {:induction false} InsertKeyRanked(values: Capacities, k: string, ks: seq<string>)
    requires k in values && Ranked(values, ks) && k !in ks
    ensures Ranked(values, InsertKey(values, k, ks))
  {
    if ks != [] && values[k] < values[ks[0]] {
      var rest := InsertKey(values, k, ks[1..]);
      InsertKeyRanked(values, k, ks[1..]);
      InsertKeyElements(values, k, ks[1..]);
      forall i | 0 <= i < |rest| ensures rest[i] != ks[0] && values[ks[0]] >= values[rest[i]] {
        assert rest[i] in Elements(rest);
        assert rest[i] in Elements(ks[1..]) + {k};
      }
    }
  }

  /** Inserting a key in rank order is inserting its value. */
  lemma InsertKeyRanks(values: Capacities, k: string, ks: seq<string>)
    requires k in values && Ranked(values, ks) && k !in ks
    ensures var out := InsertKey(values, k, ks);
            && Ranked(values, out) && Elements(out) == Elements(ks) + {k} && Values(values, out) == Insert(values[k], Values(values, ks))
  {
    InsertKeyElements(values, k, ks);
    InsertKeyValues(values, k, ks);
    InsertKeyRanked(values, k, ks);
  }

  lemma ElementsSplit<T>(s: seq<T>)
    requires s != []
    ensures Elements(s) == {s[0]} + Elements(s[1..])
  {
    forall x | x in Elements(s) ensures x in {s[0]} + Elements(s[1..]) {
      var i :| 0 <= i < |s| && s[i] == x;
      if i > 0 { assert s[1..][i - 1] == x; }
    }
    forall x | x in Elements(s[1..]) ensures x in Elements(s) {
      var i :| 0 <= i < |s[1..]| && s[1..][i] == x;
      assert s[i + 1] == x;
    }
  }

  lemma ElementsLast<T>(s: seq<T>)
    requires s != []
    ensures Elements(s) == Elements(s[..|s| - 1]) + {s[|s| - 1]}
  {
    forall x | x in Elements(s) ensures x in Elements(s[..|s| - 1]) + {s[|s| - 1]} {
      var i :| 0 <= i < |s| && s[i] == x;
      if i < |s| - 1 { assert s[..|s| - 1][i] == x; }
    }
    forall x | x in Elements(s[..|s| - 1]) ensures x in Elements(s) {
      var i :| 0 <= i < |s| - 1 && s[..|s| - 1][i] == x;
      assert s[i] == x;
    }
  }

  /** However the accelerators are listed, sorting their values ranks them. */
  lemma {:induction false} DescendingRanks(values: Capacities, ks: seq<string>) returns (ranked: seq<string>)
    requires (forall i :: 0 <= i < |ks| ==> ks[i] in values) && forall i, j :: 0 <= i < j < |ks| ==> ks[i] != ks[j]
    ensures Ranked(values, ranked) && Elements(ranked) == Elements(ks) && Values(values, ranked) == Descending(Values(values, ks))
  {
    if ks == [] {
      ranked := [];
    } else {
      var front, k := ks[..|ks| - 1], ks[|ks| - 1];
      var before := DescendingRanks(values, front);
      assert Values(values, ks)[..|ks| - 1] == Values(values, front);
      assert k in before ==> k in Elements(before);
      assert k !in Elements(front);
      InsertKeyRanks(values, k, before);
      ranked := InsertKey(values, k, before);
      ElementsLast(ks);
    }
  }

  // ---------------------------------------------------------------- the largest few are the best choice

  lemma {:induction false} SizeOfDistinct<T>(s: seq<T>)
    requires forall i, j :: 0 <= i < j < |s| ==> s[i] != s[j]
    ensures |Elements(s)| == |s|
  {
    if s != [] {
      SizeOfDistinct(s[1..]);
      ElementsSplit(s);
      assert s[0] !in Elements(s[1..]);
    }
  }

  lemma SizeAtMost<T>(a: set<T>, b: set<T>)
    requires a <= b
    ensures |a| <= |b|
  {
    assert b == a + (b - a);
  }

  lemma {:induction false} ListedSum(values: Capacities, ks: seq<string>)
    requires Ranked(values, ks)
    ensures Elements(ks) <= values.Keys && SumOver(values, Elements(ks)) == Sum(Values(values, ks))
  {
    if ks != [] {
      var front, k := ks[..|ks| - 1], ks[|ks| - 1];
      ListedSum(values, front);
      ElementsLast(ks);
      assert k !in Elements(front);
      assert Elements(ks) - {k} == Elements(front);
      assert Values(values, ks)[..|ks| - 1] == Values(values, front);
      hide Elements, Ranked;
      SumOverWithout(values, Elements(ks), k);
    }
  }

  lemma TopIsSum(values: Capacities, ks: seq<string>, m: nat)
    requires Ranked(values, ks) && m <= |ks|
    ensures Elements(ks[..m]) <= values.Keys && |Elements(ks[..m])| == m && SumOver(values, Elements(ks[..m])) == Sum(Values(values, ks)[..m])
  {
    SizeOfDistinct(ks[..m]);
    ListedSum(values, ks[..m]);
    assert Values(values, ks)[..m] == Values(values, ks[..m]);
    hide Elements, SumOver, Sum;
  }

  lemma SumNext(s: seq<int>, n: nat)
    requires 0 < n <= |s|
    ensures Sum(s[..n]) == Sum(s[..n - 1]) + s[n - 1]
  {
    assert s[..n][..n - 1] == s[..n - 1];
  }

  lemma SumMonotone(s: seq<int>, m: nat, n: nat)
    requires m <= n <= |s| && forall i :: 0 <= i < |s| ==> s[i] >= 0
    ensures 0 <= Sum(s[..m]) <= Sum(s[..n])
    decreases n
  {
    if n > 0 {
      assert s[..n][..n - 1] == s[..n - 1];
      SumMonotone(s, if m < n then m else n - 1, n - 1);
    }
  }

  /** Among `n` distinct accelerators one ranks no better than place `n`. */
  lemma LowRanked(values: Capacities, ks: seq<string>, keys: set<string>) returns (k: string)
    requires Ranked(values, ks) && keys <= Elements(ks) && keys != {}
    ensures k in keys && k in values && |keys| <= |ks| && values[k] <= values[ks[|keys| - 1]]
  {
    var n := |keys|;
    SizeOfDistinct(ks);
    SizeAtMost(keys, Elements(ks));
    var top := Elements(ks[..n - 1]);
    SizeOfDistinct(ks[..n - 1]);
    if keys <= top { SizeAtMost(keys, top); }
    forall i | 0 <= i < n - 1 ensures ks[i] in top { assert ks[..n - 1][i] == ks[i]; }
    k :| k in keys && k !in top;
    var i :| 0 <= i < |ks| && ks[i] == k;
  }

  /** No choice of accelerators beats as many from the top of the ranking. */
  lemma {:induction false} NoChoiceBeatsTop(values: Capacities, ks: seq<string>, keys: set<string>)
    requires Ranked(values, ks) && keys <= Elements(ks)
    ensures keys <= values.Keys && |keys| <= |ks| && SumOver(values, keys) <= Sum(Values(values, ks)[..|keys|])
    decreases |keys|
  {
    KeysKnown(values, ks);
    if keys == {} {
      assert Values(values, ks)[..0] == [];
    } else {
      hide Ranked, Elements, Sum, SumOver;
      var k := LowRanked(values, ks, keys);
      assert |keys - {k}| == |keys| - 1;
      NoChoiceBeatsTop(values, ks, keys - {k});
      SumOverWithout(values, keys, k);
      SumNext(Values(values, ks), |keys|);
    }
  }

  lemma KeysKnown(values: Capacities, ks: seq<string>)
    requires Ranked(values, ks)
    ensures Elements(ks) <= values.Keys && forall i :: 0 <= i < |ks| ==> ks[i] in values
  {}

  lemma TopIsBest(values: Capacities, ks: seq<string>, limit: nat)
    requires Ranked(values, ks) && Elements(ks) == values.Keys && forall k :: k in values ==> values[k] >= 0
    ensures var m := if |ks| > limit then limit else |ks|; Best(values, limit, Sum(Values(values, ks)[..m]))
  {
    var m := if |ks| > limit then limit else |ks|;
    var s := Values(values, ks);
    TopIsSum(values, ks, m);
    forall keys | keys <= values.Keys && |keys| <= limit ensures SumOver(values, keys) <= Sum(s[..m]) {
      NoChoiceBeatsTop(values, ks, keys);
      SumMonotone(s, |keys|, m);
    }
  }

  /** The total is determined by the capacities and the limit, not by the order a map is iterated in. */
  lemma BestIsUnique(values: Capacities, limit: nat, a: int, b: int)
    requires Best(values, limit, a) && Best(values, limit, b)
    ensures a == b
  {
    var x :| x <= values.Keys && |x| <= limit && SumOver(values, x) == a;
    var y :| y <= values.Keys && |y| <= limit && SumOver(values, y) == b;
  }

  /** Lists the capacities in whatever order the map yields them. */
  method ListCapacities(values: Capacities) returns (capacities: seq<int>, ghost ks: seq<string>)
    ensures (forall i :: 0 <= i < |ks| ==> ks[i] in values) && (forall i, j :: 0 <= i < j < |ks| ==> ks[i] != ks[j])
    ensures capacities == Values(values, ks) && Elements(ks) == values.Keys
  {
    capacities, ks := [], [];
    var left := values.Keys;
    while left != {}
      invariant left <= values.Keys && (forall i :: 0 <= i < |ks| ==> ks[i] in values && ks[i] !in left)
      invariant capacities == Values(values, ks) && (forall i, j :: 0 <= i < j < |ks| ==> ks[i] != ks[j])
      invariant Elements(ks) == values.Keys - left
      decreases left
    {
      var k :| k in left;
      left := left - {k};
      ghost var longer := ks + [k];
      ElementsLast(longer);
      assert longer[..|ks|] == ks;
      capacities, ks := capacities + [values[k]], longer;
    }
  }

  method AddUp(s: seq<int>) returns (total: int)
    ensures total == Sum(s)
  {
    total := 0;
    var i := 0;
    while i < |s|
      invariant 0 <= i <= |s| && total == Sum(s[..i])
    {
      assert s[..i + 1][..i] == s[..i];
      total := total + s[i];
      i := i + 1;
    }
    assert s[..i] == s;
  }

  /** Sorts the capacities and adds up the largest: the best choice of at most `limit` accelerators, at least one. */
  method SumLargest(values: Capacities, limit: int) returns (total: int)
    requires forall k :: k in values ==> values[k] >= 0
    ensures Best(values, if limit < 1 then 1 else limit, total)
  {
    hide Best, Descending, Sum, Elements;
    var capacities, ks := ListCapacities(values);
    ghost var ranked := DescendingRanks(values, ks);
    capacities := Descending(capacities);
    var bound := if limit < 1 then 1 else limit;
    TopIsBest(values, ranked, bound);
    assert capacities[..|capacities|] == capacities;
    if |capacities| > bound { capacities := capacities[..bound]; }
    total := AddUp(capacities);
  }

  /** The reported figure for one model: the best choice over the per-accelerator maxima. */
  method ReportedSlots(targets: seq<Target>, maxAccelerators: int) returns (total: int, maxima: Capacities)
    ensures Maxima(targets, maxima) && Best(maxima, if maxAccelerators < 1 then 1 else maxAccelerators, total)
  {
    maxima := RecordMaxima(targets);
    total := SumLargest(maxima, maxAccelerators);
  }
}
