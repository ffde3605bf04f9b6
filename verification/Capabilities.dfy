/** Capacity budgets and residency capabilities: validation, inheritance, and what a chain of overrides or a merge
    of advertised capabilities can and cannot do. */
module Capabilities {

  datatype Result<+T> = Ok(value: T) | Error

  // ---------------------------------------------------------------- capacity

  datatype Budget = Budget(
    vramTotal: int, vramReserve: int, vramHard: int, ramTotal: int, ramReserve: int, ramHard: int, disk: int)

  predicate ValidPart(total: int, reserve: int, hard: int) {
    && 0 <= total && 0 <= reserve && 0 <= hard
    && (total > 0 ==> reserve <= total && hard <= total)
    && (hard > 0 ==> reserve <= hard)
  }

  predicate Valid(b: Budget) {
    ValidPart(b.vramTotal, b.vramReserve, b.vramHard) && ValidPart(b.ramTotal, b.ramReserve, b.ramHard) && b.disk >= 0
  }

  predicate WithinCap(parent: int, child: int) {
    parent > 0 ==> child <= parent
  }

  /** An override a child may make: itself valid, and not above an inherited ceiling. */
  predicate Accepted(parent: Budget, o: Budget) {
    Valid(o) && WithinCap(parent.vramHard, o.vramHard) && WithinCap(parent.ramHard, o.ramHard)
  }

  function Pick(inherited: int, own: int): int {
    if own > 0 then own else inherited
  }

  /** The cap after inheritance: never above the total, and the total where there is no cap. */
  function Capped(total: int, hard: int): int {
    if total > 0 && (hard == 0 || hard > total) then total else hard
  }

  function Merge(parent: Budget, o: Budget): Budget {
    Budget(Pick(parent.vramTotal, o.vramTotal), Pick(parent.vramReserve, o.vramReserve),
           Capped(Pick(parent.vramTotal, o.vramTotal), Pick(parent.vramHard, o.vramHard)),
           Pick(parent.ramTotal, o.ramTotal), Pick(parent.ramReserve, o.ramReserve),
           Capped(Pick(parent.ramTotal, o.ramTotal), Pick(parent.ramHard, o.ramHard)),
           Pick(parent.disk, o.disk))
  }

  method OverlayVram(defaults: Budget, o: Budget) returns (merged: Budget)
    ensures merged == defaults.(vramTotal := Pick(defaults.vramTotal, o.vramTotal), vramReserve := Pick(defaults.vramReserve, o.vramReserve),
                                vramHard := Pick(defaults.vramHard, o.vramHard))
  {
    merged := defaults;
    if o.vramTotal > 0 { merged := merged.(vramTotal := o.vramTotal); }
    if o.vramReserve > 0 { merged := merged.(vramReserve := o.vramReserve); }
    if o.vramHard > 0 { merged := merged.(vramHard := o.vramHard); }
  }

  method OverlayRam(defaults: Budget, o: Budget) returns (merged: Budget)
    ensures merged == defaults.(ramTotal := Pick(defaults.ramTotal, o.ramTotal), ramReserve := Pick(defaults.ramReserve, o.ramReserve),
                                ramHard := Pick(defaults.ramHard, o.ramHard), disk := Pick(defaults.disk, o.disk))
  {
    merged := defaults;
    if o.ramTotal > 0 { merged := merged.(ramTotal := o.ramTotal); }
    if o.ramReserve > 0 { merged := merged.(ramReserve := o.ramReserve); }
    if o.ramHard > 0 { merged := merged.(ramHard := o.ramHard); }
    if o.disk > 0 { merged := merged.(disk := o.disk); }
  }

  /** The merge as the program makes it: a copy of the defaults, changed field by field. */
  method MergeBudget(defaults: Budget, o: Budget) returns (merged: Budget)
    ensures merged == Merge(defaults, o)
  {
    merged := OverlayVram(defaults, o);
    merged := OverlayRam(merged, o);
    if merged.vramTotal > 0 && (merged.vramHard == 0 || merged.vramHard > merged.vramTotal) { merged := merged.(vramHard := merged.vramTotal); }
    if merged.ramTotal > 0 && (merged.ramHard == 0 || merged.ramHard > merged.ramTotal) { merged := merged.(ramHard := merged.ramTotal); }
  }

  /** The budget at the end of a chain of overrides; one that is not accepted is not applied. */
  function Inherit(root: Budget, overrides: seq<Budget>): Budget {
    if overrides == [] then root
    else
      var parent := Inherit(root, overrides[..|overrides| - 1]);
      var o := overrides[|overrides| - 1];
      if Accepted(parent, o) then Merge(parent, o) else parent
  }

  /** A part of a budget is valid exactly when nothing is negative, the cap stays within the total, and the reserve fits
      under the cap in force. */
  lemma PartMeans(total: int, reserve: int, hard: int)
    ensures ValidPart(total, reserve, hard) <==>
      && total >= 0 && reserve >= 0 && hard >= 0 && (total == 0 || hard <= total)
      && (Capped(total, hard) == 0 || reserve <= Capped(total, hard))
  {
  }

  /** A valid budget has a non-negative disk allowance and may be restated by a child; where the parent sets no cap
      every valid override is accepted; below the inherited caps too; and a cap above an inherited one is refused. */
  lemma AcceptanceMeans(parent: Budget, o: Budget)
    ensures Valid(o) ==> o.disk >= 0
    ensures Valid(parent) ==> Accepted(parent, parent)
    ensures parent.vramHard <= 0 && parent.ramHard <= 0 ==> (Accepted(parent, o) <==> Valid(o))
    ensures 0 < parent.vramHard < o.vramHard || 0 < parent.ramHard < o.ramHard ==> !Accepted(parent, o)
    ensures Valid(o) && o.vramHard <= parent.vramHard && o.ramHard <= parent.ramHard ==> Accepted(parent, o)
  {
  }

  /** An override given again changes nothing more, and one that sets nothing leaves a merged budget as it is. */
  lemma MergeSettles(parent: Budget, o: Budget)
    ensures Merge(Merge(parent, o), o) == Merge(parent, o)
    ensures Merge(Merge(parent, o), Budget(0, 0, 0, 0, 0, 0, 0)) == Merge(parent, o)
  {
  }

  lemma CapNeverRises(total: int, parent: int, o: int)
    requires parent > 0 && o <= parent
    ensures 0 < Capped(total, Pick(parent, o)) <= parent
  {}

  /** Along any chain of accepted overrides a non-zero hard cap stays non-zero and never rises. */
  lemma {:induction false} HardCapsNeverRise(root: Budget, overrides: seq<Budget>)
    ensures root.vramHard > 0 ==> 0 < Inherit(root, overrides).vramHard <= root.vramHard
    ensures root.ramHard > 0 ==> 0 < Inherit(root, overrides).ramHard <= root.ramHard
  {
    if overrides != [] {
      HardCapsNeverRise(root, overrides[..|overrides| - 1]);
      var parent, o := Inherit(root, overrides[..|overrides| - 1]), overrides[|overrides| - 1];
      if Accepted(parent, o) {
        if root.vramHard > 0 { CapNeverRises(Pick(parent.vramTotal, o.vramTotal), parent.vramHard, o.vramHard); }
        if root.ramHard > 0 { CapNeverRises(Pick(parent.ramTotal, o.ramTotal), parent.ramHard, o.ramHard); }
      }
    }
  }

  predicate ReserveFits(total: int, parentReserve: int, ownReserve: int, parentHard: int, ownHard: int) {
    var cap := Capped(total, Pick(parentHard, ownHard));
    cap > 0 ==> Pick(parentReserve, ownReserve) <= cap
  }

  /** The merge of a valid budget and an accepted override is valid exactly when, for each memory, the reserve in
      force still fits under the cap in force: an inherited reserve may not survive a narrowed cap. */
  lemma MergedBudgetValidIff(parent: Budget, o: Budget)
    requires Valid(parent) && Accepted(parent, o)
    ensures Valid(Merge(parent, o)) <==>
              ReserveFits(Pick(parent.vramTotal, o.vramTotal), parent.vramReserve, o.vramReserve, parent.vramHard, o.vramHard)
              && ReserveFits(Pick(parent.ramTotal, o.ramTotal), parent.ramReserve, o.ramReserve, parent.ramHard, o.ramHard)
  {
    MergedPartValidIff(parent.vramTotal, parent.vramReserve, parent.vramHard, o.vramTotal, o.vramReserve, o.vramHard);
    MergedPartValidIff(parent.ramTotal, parent.ramReserve, parent.ramHard, o.ramTotal, o.ramReserve, o.ramHard);
  }

  lemma MergedPartValidIff(total: int, reserve: int, hard: int, total': int, reserve': int, hard': int)
    requires ValidPart(total, reserve, hard) && ValidPart(total', reserve', hard')
    ensures var t := Pick(total, total');
            ValidPart(t, Pick(reserve, reserve'), Capped(t, Pick(hard, hard'))) <==> ReserveFits(t, reserve, reserve', hard, hard')
  {
    var t := Pick(total, total');
    var cap := Capped(t, Pick(hard, hard'));
    assert t > 0 ==> 0 < cap <= t;
  }

  /** An accepted override that breaks the merged budget: the cap drops below the inherited reserve. */
  lemma NarrowedCapBreaksReserve()
    ensures var parent, o := Budget(10, 5, 10, 0, 0, 0, 0), Budget(0, 0, 4, 0, 0, 0, 0);
            Valid(parent) && Accepted(parent, o) && !Valid(Merge(parent, o))
  {}

  // ---------------------------------------------------------------- capabilities

  datatype Caps = Caps(
    version: string, warm: bool, warmVerified: bool, warmOracle: string,
    checkpoint: bool, checkpointVerified: bool, checkpointProof: string,
    yieldable: bool, yieldVerified: bool, yieldProof: string,
    lifecycle: bool, reclaim: bool, maxResident: int, maxAccelerators: int)

  datatype Aliases = Aliases(lifecycle: bool, reclaim: bool, maxResident: int, warm: bool)

  /** `norm` is trimming and lower-casing. */
  predicate Blank(norm: string -> string, s: string) { norm(s) == "" }

  predicate IsOracle(norm: string -> string, s: string) {
    norm(s) in {"mincore", "os_residency_oracle", "mincore+lock"}
  }

  predicate EvidenceOk(norm: string -> string, c: Caps) {
    && (!Blank(norm, c.warmOracle) ==> c.warm && c.warmVerified)
    && (c.warm && c.warmVerified ==> IsOracle(norm, c.warmOracle))
    && (c.warmVerified ==> c.warm)
    && (!Blank(norm, c.checkpointProof) ==> c.checkpoint && c.checkpointVerified)
    && (c.checkpointVerified ==> c.checkpoint && !Blank(norm, c.checkpointProof))
    && (c.checkpoint ==> c.checkpointVerified)
    && (c.yieldable ==> c.yieldVerified)
    && (c.yieldVerified ==> c.yieldable && !Blank(norm, c.yieldProof))
    && (!Blank(norm, c.yieldProof) ==> c.yieldable && c.yieldVerified)
  }

  /** Evidence is in order exactly when each verified fact and its proof come together: checkpointing and yielding are
      supported only as verified, and a verified warm state names an accepted oracle. */
  lemma EvidenceMeans(norm: string -> string, c: Caps)
    ensures EvidenceOk(norm, c) <==>
      && c.checkpoint == c.checkpointVerified == (norm(c.checkpointProof) != "")
      && c.yieldable == c.yieldVerified == (norm(c.yieldProof) != "")
      && c.warmVerified == (norm(c.warmOracle) != "")
      && (c.warmVerified ==> c.warm && norm(c.warmOracle) in {"mincore", "os_residency_oracle", "mincore+lock"})
  {
    assert "" !in {"mincore", "os_residency_oracle", "mincore+lock"};
  }

  /** Versions agree where both are given. */
  predicate Compatible(a: string, b: string) { a == "" || b == "" || a == b }

  predicate CeilingsAgree(values: seq<int>) {
    && (forall i :: 0 <= i < |values| ==> values[i] >= 0)
    && (forall i, j :: 0 <= i < |values| && 0 <= j < |values| && values[i] > 0 && values[j] > 0 ==> values[i] == values[j])
  }

  /** The one positive ceiling among agreeing values, or `none`. */
  function Ceiling(values: seq<int>, none: int): int {
    if values == [] then none else if values[0] > 0 then values[0] else Ceiling(values[1..], none)
  }

  function Ceilings(base: Caps, overlay: Caps, aliases: Aliases): seq<int> {
    [base.maxResident, overlay.maxResident, aliases.maxResident]
  }

  /** The support flags are united. */
  function United(base: Caps, overlay: Caps, aliases: Aliases): Caps {
    base.(version := if overlay.version != "" then overlay.version else base.version,
          warm := base.warm || overlay.warm || aliases.warm, checkpoint := base.checkpoint || overlay.checkpoint,
          yieldable := base.yieldable || overlay.yieldable, lifecycle := base.lifecycle || overlay.lifecycle || aliases.lifecycle,
          reclaim := base.reclaim || overlay.reclaim || aliases.reclaim)
  }

  predicate ShowsWarm(norm: string -> string, c: Caps) { c.warmVerified || !Blank(norm, c.warmOracle) }

  predicate ShowsCheckpoint(norm: string -> string, c: Caps) { c.checkpointVerified || !Blank(norm, c.checkpointProof) }

  predicate ShowsYield(norm: string -> string, c: Caps) { c.yieldVerified || !Blank(norm, c.yieldProof) }

  /** Verified facts are inherited until the overlay brings its own. */
  function Updated(norm: string -> string, c: Caps, overlay: Caps): Caps {
    var warm := if ShowsWarm(norm, overlay) then overlay else c;
    var checkpoint := if ShowsCheckpoint(norm, overlay) then overlay else c;
    var yieldable := if ShowsYield(norm, overlay) then overlay else c;
    c.(warmVerified := warm.warmVerified, warmOracle := warm.warmOracle,
       checkpointVerified := checkpoint.checkpointVerified, checkpointProof := checkpoint.checkpointProof,
       yieldVerified := yieldable.yieldVerified, yieldProof := yieldable.yieldProof)
  }

  function Merged(norm: string -> string, base: Caps, overlay: Caps, aliases: Aliases): Caps {
    Updated(norm, United(base, overlay, aliases).(maxResident := Ceiling(Ceilings(base, overlay, aliases), base.maxResident)), overlay)
  }

  predicate Mergeable(norm: string -> string, base: Caps, overlay: Caps, aliases: Aliases) {
    && EvidenceOk(norm, base) && EvidenceOk(norm, overlay) && Compatible(base.version, overlay.version)
    && CeilingsAgree(Ceilings(base, overlay, aliases))
  }

  /** The scan over the three ceilings: negative values and disagreements are refused. */
  method MergeCeilings(values: seq<int>, none: int) returns (r: Result<int>)
    ensures r.Ok? <==> CeilingsAgree(values)
    ensures r.Ok? ==> r.value == Ceiling(values, none)
  {
    var positive: seq<int> := [];
    var i := 0;
    while i < |values|
      invariant 0 <= i <= |values| && (forall k :: 0 <= k < i ==> values[k] >= 0)
      invariant forall k :: 0 <= k < i && values[k] > 0 ==> values[k] in positive
      invariant forall v :: v in positive ==> exists k :: 0 <= k < i && values[k] == v && v > 0
      invariant positive == [] ==> Ceiling(values, none) == Ceiling(values[i..], none)
      invariant positive != [] ==> positive[0] == Ceiling(values, none)
    {
      if values[i] < 0 { return Error; }
      assert values[i..][1..] == values[i + 1..];
      if values[i] > 0 { positive := positive + [values[i]]; }
      i := i + 1;
    }
    if positive == [] { return Ok(none); }
    var n := 1;
    while n < |positive|
      invariant 1 <= n <= |positive| && forall k :: 0 <= k < n ==> positive[k] == positive[0]
    {
      if positive[n] != positive[0] {
        assert positive[n] in positive && positive[0] in positive;
        return Error;
      }
      n := n + 1;
    }
    return Ok(positive[0]);
  }

  /** The merge as the program makes it. */
  method MergeCaps(norm: string -> string, base: Caps, overlay: Caps, aliases: Aliases) returns (r: Result<Caps>)
    ensures r.Ok? <==> Mergeable(norm, base, overlay, aliases)
    ensures r.Ok? ==> r.value == Merged(norm, base, overlay, aliases)
  {
    hide CeilingsAgree, Ceiling, EvidenceOk, Updated;
    if !EvidenceOk(norm, base) || !EvidenceOk(norm, overlay) { return Error; }
    if base.version != "" && overlay.version != "" && base.version != overlay.version { return Error; }
    var merged := Unite(base, overlay, aliases);
    hide United, Compatible;
    var ceiling := MergeCeilings([base.maxResident, overlay.maxResident, aliases.maxResident], base.maxResident);
    if ceiling.Error? { return Error; }
    merged := merged.(maxResident := ceiling.value);
    merged := TakeFacts(norm, merged, overlay);
    return Ok(merged);
  }

  method Unite(base: Caps, overlay: Caps, aliases: Aliases) returns (merged: Caps)
    ensures merged == United(base, overlay, aliases)
  {
    merged := base;
    if overlay.version != "" { merged := merged.(version := overlay.version); }
    merged := merged.(warm := base.warm || overlay.warm || aliases.warm, lifecycle := base.lifecycle || overlay.lifecycle || aliases.lifecycle,
                      reclaim := base.reclaim || overlay.reclaim || aliases.reclaim, yieldable := base.yieldable || overlay.yieldable,
                      checkpoint := base.checkpoint || overlay.checkpoint);
  }

  method TakeFacts(norm: string -> string, c: Caps, overlay: Caps) returns (r: Caps)
    ensures r == Updated(norm, c, overlay)
  {
    hide Blank;
    r := c;
    if overlay.warmVerified || !Blank(norm, overlay.warmOracle) { r := r.(warmVerified := overlay.warmVerified, warmOracle := overlay.warmOracle); }
    if overlay.checkpointVerified || !Blank(norm, overlay.checkpointProof) {
      r := r.(checkpointVerified := overlay.checkpointVerified, checkpointProof := overlay.checkpointProof);
    }
    if overlay.yieldVerified || !Blank(norm, overlay.yieldProof) { r := r.(yieldVerified := overlay.yieldVerified, yieldProof := overlay.yieldProof); }
  }

  /** The verified claims of a block: what is verified, and by which proof. */
  datatype Claim = WarmClaim(oracle: string) | CheckpointClaim(proof: string) | YieldClaim(proof: string)

  predicate Claims(c: Caps, claim: Claim) {
    match claim
    case WarmClaim(oracle) => c.warm && c.warmVerified && c.warmOracle == oracle
    case CheckpointClaim(proof) => c.checkpoint && c.checkpointVerified && c.checkpointProof == proof
    case YieldClaim(proof) => c.yieldable && c.yieldVerified && c.yieldProof == proof
  }

  /** Merging evidence-valid blocks, with any aliases, gives an evidence-valid block, mints no verified claim
      that neither block carried, and keeps what the overlay verified. */
  lemma MergeMintsNothing(norm: string -> string, base: Caps, overlay: Caps, aliases: Aliases, claim: Claim)
    requires EvidenceOk(norm, base) && EvidenceOk(norm, overlay)
    ensures var m := Merged(norm, base, overlay, aliases);
            && EvidenceOk(norm, m)
            && (Claims(m, claim) ==> Claims(base, claim) || Claims(overlay, claim))
            && (Claims(overlay, claim) ==> Claims(m, claim))
  {
    assert forall s :: IsOracle(norm, s) ==> !Blank(norm, s);
    hide IsOracle, Ceiling;
  }

  lemma CeilingAmong(values: seq<int>, none: int)
    requires CeilingsAgree(values)
    ensures forall i :: 0 <= i < |values| && values[i] > 0 ==> Ceiling(values, none) == values[i]
    ensures (forall i :: 0 <= i < |values| ==> values[i] == 0) ==> Ceiling(values, none) == none
  {
    if values != [] { CeilingAmong(values[1..], none); }
  }

  /** The merged resident-model ceiling is every positive ceiling given, and zero when none is. */
  lemma MergedCeiling(norm: string -> string, base: Caps, overlay: Caps, aliases: Aliases)
    requires Mergeable(norm, base, overlay, aliases)
    ensures var m := Merged(norm, base, overlay, aliases).maxResident;
            && m >= 0 && (base.maxResident > 0 ==> m == base.maxResident) && (overlay.maxResident > 0 ==> m == overlay.maxResident)
            && (aliases.maxResident > 0 ==> m == aliases.maxResident)
            && (base.maxResident == 0 && overlay.maxResident == 0 && aliases.maxResident == 0 ==> m == 0)
  {
    var values := Ceilings(base, overlay, aliases);
    CeilingAmong(values, base.maxResident);
    assert values[0] == base.maxResident && values[1] == overlay.maxResident && values[2] == aliases.maxResident;
  }
}
