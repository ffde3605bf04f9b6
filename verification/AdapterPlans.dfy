/** Turning adapter advertisements into registration plans: defaults filled in, capabilities normalised, capacity
    narrowed, all or nothing. */
module AdapterPlans {
  import opened Capabilities

  const CONTRACT := "fleet-residency.v1"

  /** `comfy` tells whether the adapter is ComfyUI; `profilesOk` and `observationsOk` are the verdicts on the
      runtime profiles and on the model capacity observations. */
  datatype Ad = Ad(
    id: string, adapter: string, endpoint: string, comfy: bool, version: string, capabilityVersion: string, revision: string,
    caps: Caps, aliases: Aliases, maxAccelerators: int, capacity: Budget, profilesOk: bool, observationsOk: bool)

  datatype Defaults = Defaults(version: string, caps: Caps, capacity: Budget, maxAccelerators: int)

  /** Text handling: trimming, and trimming with lower-casing. */
  datatype Texts = Texts(trim: string -> string, norm: string -> string)

  const NO_CAPS := Caps("", false, false, "", false, false, "", false, false, "", false, false, 0, 0)

  /** The advertisement speaks for its whole target, so that what it does not claim is denied. */
  predicate Complete(t: Texts, ad: Ad) {
    t.trim(ad.revision) != "" || ad.caps != NO_CAPS || (ad.comfy && t.trim(ad.version) != "")
  }

  function Revision(ad: Ad): string {
    if ad.revision != "" then ad.revision
    else if ad.capabilityVersion == CONTRACT then ad.capabilityVersion
    else if ad.caps.version != "" then ad.caps.version
    else CONTRACT
  }

  /** The capability version read as an old-style runtime identity. */
  function LegacyIdentity(t: Texts, ad: Ad): string {
    var legacy := t.trim(ad.capabilityVersion);
    if legacy == CONTRACT && (ad.revision == "" || ad.revision == CONTRACT) then "" else legacy
  }

  predicate IdentitiesAgree(t: Texts, ad: Ad) {
    t.trim(ad.version) == "" || LegacyIdentity(t, ad) == "" || t.trim(ad.version) == LegacyIdentity(t, ad)
  }

  /** The inherited block under a complete advertisement: ceilings stay, claims go. */
  function Stripped(c: Caps): Caps {
    c.(warm := false, lifecycle := false, reclaim := false, yieldable := false, checkpoint := false, warmVerified := false, warmOracle := "",
       yieldVerified := false, yieldProof := "", checkpointVerified := false, checkpointProof := "")
  }

  function Base(ad: Ad, defaults: Caps, complete: bool): Caps {
    var versioned := if defaults.version == "" then defaults.(version := Revision(ad)) else defaults;
    if complete then Stripped(versioned) else versioned
  }

  function Overlay(ad: Ad): Caps {
    if ad.caps.version == "" then ad.caps.(version := Revision(ad)) else ad.caps
  }

  function Accelerators(ad: Ad, defaults: Caps): int {
    if ad.maxAccelerators != 0 then ad.maxAccelerators
    else if ad.caps.maxAccelerators != 0 then ad.caps.maxAccelerators
    else if defaults.maxAccelerators != 0 then defaults.maxAccelerators
    else 1
  }

  predicate CeilingOk(ad: Ad, defaults: Caps) {
    && ad.maxAccelerators >= 0 && ad.caps.maxAccelerators >= 0
    && (ad.maxAccelerators > 0 && ad.caps.maxAccelerators > 0 ==> ad.maxAccelerators == ad.caps.maxAccelerators)
    && (defaults.maxAccelerators > 0 ==> Accelerators(ad, defaults) <= defaults.maxAccelerators)
  }

  predicate VersionsOk(ad: Ad, defaults: Caps) {
    && (Revision(ad) == "" || Revision(ad) == CONTRACT)
    && (ad.caps.version == "" || ad.caps.version == Revision(ad))
    && (defaults.version == "" || defaults.version == Revision(ad))
  }

  /** Everything checked before the result is looked at once more. */
  predicate Draftable(t: Texts, ad: Ad, defaults: Caps, complete: bool) {
    && Valid(ad.capacity) && IdentitiesAgree(t, ad) && VersionsOk(ad, defaults)
    && Mergeable(t.norm, Base(ad, defaults, complete), Overlay(ad), ad.aliases) && CeilingOk(ad, defaults)
  }

  function Draft(t: Texts, ad: Ad, defaults: Caps, complete: bool): Caps {
    Merged(t.norm, Base(ad, defaults, complete), Overlay(ad), ad.aliases).(maxAccelerators := Accelerators(ad, defaults), version := Revision(ad))
  }

  predicate ValidCaps(norm: string -> string, c: Caps) {
    (c.version == "" || c.version == CONTRACT) && c.maxResident >= 0 && c.maxAccelerators >= 0 && EvidenceOk(norm, c)
  }

  function Normalize(t: Texts, ad: Ad, defaults: Caps, complete: bool): Result<Caps> {
    if Draftable(t, ad, defaults, complete) && ValidCaps(t.norm, Draft(t, ad, defaults, complete)) then Ok(Draft(t, ad, defaults, complete)) else Error
  }

  lemma DraftEvidence(t: Texts, ad: Ad, defaults: Caps, complete: bool, claim: Claim)
    requires Draftable(t, ad, defaults, complete)
    ensures var r := Draft(t, ad, defaults, complete);
            EvidenceOk(t.norm, r) && (Claims(r, claim) ==> Claims(Base(ad, defaults, complete), claim) || Claims(ad.caps, claim))
  {
    hide Merged, Mergeable, CeilingOk, VersionsOk, IdentitiesAgree, Valid;
    var base, overlay := Base(ad, defaults, complete), Overlay(ad);
    MergeableParts(t.norm, base, overlay, ad.aliases);
    MergeMintsNothing(t.norm, base, overlay, ad.aliases, claim);
    hide Base;
  }

  lemma MergeableParts(norm: string -> string, base: Caps, overlay: Caps, aliases: Aliases)
    requires Mergeable(norm, base, overlay, aliases)
    ensures EvidenceOk(norm, base) && EvidenceOk(norm, overlay)
  {}

  /** The last look at the result finds fault with exactly one thing: a negative accelerator ceiling. */
  lemma FinalCheckIsRedundant(t: Texts, ad: Ad, defaults: Caps, complete: bool)
    ensures Normalize(t, ad, defaults, complete).Ok? <==> Draftable(t, ad, defaults, complete) && Accelerators(ad, defaults) >= 0
  {
    if Draftable(t, ad, defaults, complete) {
      DraftEvidence(t, ad, defaults, complete, WarmClaim(""));
      MergedCeiling(t.norm, Base(ad, defaults, complete), Overlay(ad), ad.aliases);
      hide Merged, Mergeable, IdentitiesAgree, Valid, EvidenceOk, Base;
    }
  }

  /** A normalised block keeps below the inherited ceiling, allows at least one accelerator, and carries no
      verified claim but the advertised or inherited ones. Under a complete advertisement it claims nothing the
      advertisement did not. */
  lemma NormalizedNeverWidens(t: Texts, ad: Ad, defaults: Caps, complete: bool, claim: Claim)
    requires Normalize(t, ad, defaults, complete).Ok?
    ensures var r := Normalize(t, ad, defaults, complete).value;
            && 1 <= r.maxAccelerators && (defaults.maxAccelerators > 0 ==> r.maxAccelerators <= defaults.maxAccelerators)
            && EvidenceOk(t.norm, r)
            && (Claims(r, claim) ==> Claims(ad.caps, claim) || (!complete && Claims(defaults, claim)))
            && (complete ==> (r.warm ==> ad.caps.warm || ad.aliases.warm) && (r.checkpoint ==> ad.caps.checkpoint) && (r.yieldable ==> ad.caps.yieldable)
                             && (r.lifecycle ==> ad.caps.lifecycle || ad.aliases.lifecycle) && (r.reclaim ==> ad.caps.reclaim || ad.aliases.reclaim))
  {
    DraftEvidence(t, ad, defaults, complete, claim);
    hide Mergeable, IdentitiesAgree, Valid, EvidenceOk, VersionsOk, Ceiling, Blank;
  }

  // ---------------------------------------------------------------- what is accepted, and what comes out

  predicate Contract(version: string) {
    version == "" || version == CONTRACT
  }

  /** Resident-model ceilings: none negative, and any two that are given agree. */
  predicate ResidentsAgree(a: int, b: int, c: int) {
    && a >= 0 && b >= 0 && c >= 0
    && (a == 0 || b == 0 || a == b) && (a == 0 || c == 0 || a == c) && (b == 0 || c == 0 || b == c)
  }

  /** Accelerator ceilings: the advertised ones are not negative and agree, and what results is at least one and not above
      an inherited ceiling. */
  predicate AcceleratorsAgree(outer: int, nested: int, inherited: int) {
    && outer >= 0 && nested >= 0 && (outer == 0 || nested == 0 || outer == nested)
    && (if outer == 0 && nested == 0 then inherited >= 0 else inherited <= 0 || (outer <= inherited && nested <= inherited))
  }

  /** The conditions under which a capability document is normalised, one by one. The revision in force is then always
      the contract's own. */
  predicate Acceptable(t: Texts, ad: Ad, defaults: Caps, complete: bool) {
    && Valid(ad.capacity) && Contract(ad.revision) && Contract(ad.caps.version) && Contract(defaults.version)
    && (t.trim(ad.version) == "" || t.trim(ad.capabilityVersion) in {"", CONTRACT, t.trim(ad.version)})
    && EvidenceOk(t.norm, ad.caps) && (complete || EvidenceOk(t.norm, defaults))
    && ResidentsAgree(defaults.maxResident, ad.caps.maxResident, ad.aliases.maxResident)
    && AcceleratorsAgree(ad.maxAccelerators, ad.caps.maxAccelerators, defaults.maxAccelerators)
  }

  lemma RevisionIsContract(ad: Ad, defaults: Caps)
    ensures VersionsOk(ad, defaults) <==> Contract(ad.revision) && Contract(ad.caps.version) && Contract(defaults.version)
    ensures VersionsOk(ad, defaults) ==> Revision(ad) == CONTRACT
  {
    assert CONTRACT != "";
  }

  lemma StrippedEvidence(norm: string -> string, c: Caps, version: string)
    requires norm("") == ""
    ensures EvidenceOk(norm, Stripped(c.(version := version)))
  {
  }

  lemma SameEvidence(norm: string -> string, c: Caps, version: string)
    ensures EvidenceOk(norm, c.(version := version)) <==> EvidenceOk(norm, c)
  {
  }

  lemma ThreeCeilings(a: int, b: int, c: int)
    ensures CeilingsAgree([a, b, c]) <==> ResidentsAgree(a, b, c)
  {
    var values := [a, b, c];
    assert values[0] == a && values[1] == b && values[2] == c;
  }

  lemma MergeableMeans(t: Texts, ad: Ad, defaults: Caps, complete: bool)
    requires t.norm("") == "" && VersionsOk(ad, defaults)
    ensures Mergeable(t.norm, Base(ad, defaults, complete), Overlay(ad), ad.aliases) <==>
      && EvidenceOk(t.norm, ad.caps) && (complete || EvidenceOk(t.norm, defaults))
      && ResidentsAgree(defaults.maxResident, ad.caps.maxResident, ad.aliases.maxResident)
  {
    RevisionIsContract(ad, defaults);
    ThreeCeilings(defaults.maxResident, ad.caps.maxResident, ad.aliases.maxResident);
    SameEvidence(t.norm, ad.caps, Revision(ad));
    SameEvidence(t.norm, defaults, Revision(ad));
    StrippedEvidence(t.norm, defaults, Revision(ad));
    StrippedEvidence(t.norm, defaults, defaults.version);
    assert defaults.(version := defaults.version) == defaults;
    hide EvidenceOk, CeilingsAgree, ResidentsAgree, VersionsOk, Revision;
  }

  lemma CeilingMeans(ad: Ad, defaults: Caps)
    ensures CeilingOk(ad, defaults) && Accelerators(ad, defaults) >= 0 <==> AcceleratorsAgree(ad.maxAccelerators, ad.caps.maxAccelerators, defaults.maxAccelerators)
  {
  }

  /** Normalisation succeeds if and only if the document is acceptable. */
  lemma NormalizesIffAcceptable(t: Texts, ad: Ad, defaults: Caps, complete: bool)
    requires t.norm("") == ""
    ensures Normalize(t, ad, defaults, complete).Ok? <==> Acceptable(t, ad, defaults, complete)
  {
    FinalCheckIsRedundant(t, ad, defaults, complete);
    RevisionIsContract(ad, defaults);
    CeilingMeans(ad, defaults);
    hide Normalize, Mergeable, CeilingOk, Accelerators, AcceleratorsAgree, ResidentsAgree, Valid, EvidenceOk;
    if VersionsOk(ad, defaults) { MergeableMeans(t, ad, defaults, complete); }
    hide VersionsOk, Revision;
  }

  /** The facts of a block: what is verified, and the proof of it. */
  datatype Facts = Facts(warm: (bool, string), checkpoint: (bool, string), yieldable: (bool, string))

  function FactsOf(c: Caps): Facts {
    Facts((c.warmVerified, c.warmOracle), (c.checkpointVerified, c.checkpointProof), (c.yieldVerified, c.yieldProof))
  }

  const NO_FACTS := Facts((false, ""), (false, ""), (false, ""))

  function Newer(norm: string -> string, own: (bool, string), inherited: (bool, string)): (bool, string) {
    if own.0 || norm(own.1) != "" then own else inherited
  }

  /** Each fact is the advertisement's if it shows one, and else the inherited one unless denied. */
  predicate FactsFrom(norm: string -> string, r: Caps, own: Caps, inherited: Caps, complete: bool) {
    var before := if complete then NO_FACTS else FactsOf(inherited);
    var mine := FactsOf(own);
    FactsOf(r) == Facts(Newer(norm, mine.warm, before.warm), Newer(norm, mine.checkpoint, before.checkpoint), Newer(norm, mine.yieldable, before.yieldable))
  }

  datatype Support = Support(warm: bool, lifecycle: bool, reclaim: bool, checkpoint: bool, yieldable: bool)

  function SupportOf(c: Caps): Support {
    Support(c.warm, c.lifecycle, c.reclaim, c.checkpoint, c.yieldable)
  }

  const NO_SUPPORT := Support(false, false, false, false, false)

  /** What is supported: what the advertisement or its aliases say, and the inherited block unless denied. */
  predicate SupportsFrom(r: Caps, own: Caps, aliases: Aliases, inherited: Caps, complete: bool) {
    var before := if complete then NO_SUPPORT else SupportOf(inherited);
    && r.warm == (own.warm || aliases.warm || before.warm) && r.checkpoint == (own.checkpoint || before.checkpoint)
    && r.lifecycle == (own.lifecycle || aliases.lifecycle || before.lifecycle) && r.yieldable == (own.yieldable || before.yieldable)
    && r.reclaim == (own.reclaim || aliases.reclaim || before.reclaim)
  }

  /** The first ceiling given, or one. */
  predicate CeilingFrom(r: int, outer: int, nested: int, inherited: int) {
    && (outer > 0 ==> r == outer) && (nested > 0 ==> r == nested)
    && (outer == 0 && nested == 0 ==> r == if inherited > 0 then inherited else 1)
  }

  predicate ResidentFrom(r: int, inherited: int, own: int, alias: int) {
    && (inherited > 0 ==> r == inherited) && (own > 0 ==> r == own) && (alias > 0 ==> r == alias)
    && (inherited == 0 && own == 0 && alias == 0 ==> r == 0)
  }

  lemma BlocksSupport(ad: Ad, defaults: Caps, complete: bool)
    ensures SupportOf(Overlay(ad)) == SupportOf(ad.caps)
    ensures SupportOf(Base(ad, defaults, complete)) == if complete then NO_SUPPORT else SupportOf(defaults)
  {
    hide Revision;
  }

  lemma UpdatedKeepsSupport(norm: string -> string, c: Caps, overlay: Caps)
    ensures SupportOf(Updated(norm, c, overlay)) == SupportOf(c)
  {
    hide ShowsWarm, ShowsCheckpoint, ShowsYield;
  }

  lemma UnitedSupports(base: Caps, overlay: Caps, aliases: Aliases, maxResident: int)
    ensures SupportsFrom(United(base, overlay, aliases).(maxResident := maxResident), overlay, aliases, base, false)
  {
  }

  lemma DraftSupports(t: Texts, ad: Ad, defaults: Caps, complete: bool)
    ensures SupportsFrom(Draft(t, ad, defaults, complete), ad.caps, ad.aliases, defaults, complete)
  {
    var base, overlay := Base(ad, defaults, complete), Overlay(ad);
    var residents := Ceiling(Ceilings(base, overlay, ad.aliases), base.maxResident);
    UpdatedKeepsSupport(t.norm, United(base, overlay, ad.aliases).(maxResident := residents), overlay);
    UnitedSupports(base, overlay, ad.aliases, residents);
    BlocksSupport(ad, defaults, complete);
    hide Updated, Base, Overlay, United, Ceiling, Accelerators, Revision;
  }

  lemma UpdatedFacts(norm: string -> string, c: Caps, overlay: Caps)
    ensures FactsFrom(norm, Updated(norm, c, overlay), overlay, c, false)
  {
  }

  lemma BlocksFacts(ad: Ad, defaults: Caps, complete: bool)
    ensures FactsOf(Overlay(ad)) == FactsOf(ad.caps)
    ensures FactsOf(Base(ad, defaults, complete)) == if complete then NO_FACTS else FactsOf(defaults)
  {
    hide Revision;
  }

  lemma DraftFacts(t: Texts, ad: Ad, defaults: Caps, complete: bool)
    ensures FactsFrom(t.norm, Draft(t, ad, defaults, complete), ad.caps, defaults, complete)
  {
    var base, overlay := Base(ad, defaults, complete), Overlay(ad);
    var c := United(base, overlay, ad.aliases).(maxResident := Ceiling(Ceilings(base, overlay, ad.aliases), base.maxResident));
    assert FactsOf(c) == FactsOf(base);
    UpdatedFacts(t.norm, c, overlay);
    BlocksFacts(ad, defaults, complete);
    assert FactsOf(Draft(t, ad, defaults, complete)) == FactsOf(Updated(t.norm, c, overlay));
    hide Draft, Updated, Base, Overlay, United, Ceiling, Newer, FactsOf;
  }

  /** A normalised block field by field. */
  lemma NormalizedIs(t: Texts, ad: Ad, defaults: Caps, complete: bool)
    requires Normalize(t, ad, defaults, complete).Ok?
    ensures var r := Normalize(t, ad, defaults, complete).value;
            && r.version == CONTRACT && SupportsFrom(r, ad.caps, ad.aliases, defaults, complete) && FactsFrom(t.norm, r, ad.caps, defaults, complete)
            && CeilingFrom(r.maxAccelerators, ad.maxAccelerators, ad.caps.maxAccelerators, defaults.maxAccelerators)
            && ResidentFrom(r.maxResident, defaults.maxResident, ad.caps.maxResident, ad.aliases.maxResident)
  {
    hide Mergeable, IdentitiesAgree, Valid, EvidenceOk, VersionsOk, Merged, Revision, SupportsFrom, FactsFrom;
    RevisionIsContract(ad, defaults);
    CeilingMeans(ad, defaults);
    DraftSupports(t, ad, defaults, complete);
    DraftFacts(t, ad, defaults, complete);
    MergedCeiling(t.norm, Base(ad, defaults, complete), Overlay(ad), ad.aliases);
  }

  // ---------------------------------------------------------------- plans

  /** Omitted fields take the node's defaults. */
  function WithDefaults(ad: Ad, d: Defaults): Ad {
    var revision := if ad.revision == "" && ad.caps.version == "" then d.caps.version else ad.revision;
    ad.(revision := if revision == "" then d.version else revision,
        caps := if ad.caps.version == "" then ad.caps.(version := d.caps.version) else ad.caps,
        capacity := Merge(d.capacity, ad.capacity),
        maxAccelerators := if ad.maxAccelerators == 0 && ad.caps.maxAccelerators == 0 then d.maxAccelerators else ad.maxAccelerators)
  }

  function Filled(d: Defaults): Defaults {
    var version := if d.version == "" then CONTRACT else d.version;
    var accelerators := if d.maxAccelerators == 0 then 1 else d.maxAccelerators;
    Defaults(version, d.caps.(version := if d.caps.version == "" then version else d.caps.version,
                              maxAccelerators := if d.caps.maxAccelerators == 0 then accelerators else d.caps.maxAccelerators), d.capacity, accelerators)
  }

  datatype Plan = Plan(ad: Ad, caps: Caps)

  /** The plan of one advertisement under filled-in defaults. */
  function PlanOf(t: Texts, ad: Ad, d: Defaults): Result<Plan> {
    if ad.id == "" || ad.adapter == "" || ad.endpoint == "" || !Valid(ad.capacity) || !Accepted(d.capacity, ad.capacity) || !ad.profilesOk then Error
    else
      var normalized := WithDefaults(ad, d);
      var r := Normalize(t, normalized, d.caps, Complete(t, ad));
      if r.Ok? && ad.observationsOk then Ok(Plan(normalized, r.value)) else Error
  }

  /** Filling in leaves what is given alone, and leaves no version and no ceiling open. */
  lemma FilledMeans(d: Defaults)
    ensures var f := Filled(d);
            && f.version != "" && f.caps.version != "" && f.maxAccelerators != 0 && f.caps.maxAccelerators != 0 && f.capacity == d.capacity
            && (d.version != "" ==> f.version == d.version) && (d.caps.version != "" ==> f.caps.version == d.caps.version)
            && (d.version == "" ==> f.version == CONTRACT) && (d.caps.version == "" ==> f.caps.version == f.version)
            && (d.maxAccelerators != 0 ==> f.maxAccelerators == d.maxAccelerators) && (d.maxAccelerators == 0 ==> f.maxAccelerators == 1)
            && f.caps.maxAccelerators == (if d.caps.maxAccelerators != 0 then d.caps.maxAccelerators else f.maxAccelerators)
            && f.caps == d.caps.(version := f.caps.version, maxAccelerators := f.caps.maxAccelerators)
  {
    assert CONTRACT != "";
  }

  /** The target speaks for itself: a revision, any capability of its own, or a Comfy version. */
  predicate Outspoken(t: Texts, ad: Ad) {
    t.trim(ad.revision) != "" || ad.caps != NO_CAPS || (ad.comfy && t.trim(ad.version) != "")
  }

  /** A plan field by field: identity and endpoint as advertised, the merged budget, and capabilities in which the node's
      defaults count only for a target that does not speak for itself. */
  lemma PlanMeans(t: Texts, ad: Ad, d: Defaults)
    requires PlanOf(t, ad, d).Ok?
    ensures var p := PlanOf(t, ad, d).value;
            && p.ad.id == ad.id != "" && p.ad.adapter == ad.adapter != "" && p.ad.endpoint == ad.endpoint != ""
            && p.ad.capacity == Merge(d.capacity, ad.capacity) && Accepted(d.capacity, ad.capacity) && ad.profilesOk && ad.observationsOk
            && p.caps.version == CONTRACT && SupportsFrom(p.caps, ad.caps, ad.aliases, d.caps, Outspoken(t, ad))
            && FactsFrom(t.norm, p.caps, ad.caps, d.caps, Outspoken(t, ad))
            && (ad.maxAccelerators > 0 ==> p.caps.maxAccelerators == ad.maxAccelerators)
            && (ad.caps.maxAccelerators > 0 ==> p.caps.maxAccelerators == ad.caps.maxAccelerators)
            && (ad.maxAccelerators == 0 && ad.caps.maxAccelerators == 0 && d.maxAccelerators > 0 ==> p.caps.maxAccelerators == d.maxAccelerators)
            && ResidentFrom(p.caps.maxResident, d.caps.maxResident, ad.caps.maxResident, ad.aliases.maxResident)
  {
    hide Normalize, Merge, Accepted, Valid, SupportsFrom, FactsFrom, ResidentFrom;
    NormalizedIs(t, WithDefaults(ad, d), d.caps, Complete(t, ad));
    FactsOfVersion(t.norm, PlanOf(t, ad, d).value.caps, ad.caps, d.caps.version, ad.aliases, d.caps, Complete(t, ad));
  }

  lemma FactsOfVersion(norm: string -> string, r: Caps, own: Caps, version: string, aliases: Aliases, inherited: Caps, complete: bool)
    ensures FactsFrom(norm, r, own.(version := version), inherited, complete) <==> FactsFrom(norm, r, own, inherited, complete)
    ensures SupportsFrom(r, own.(version := version), aliases, inherited, complete) <==> SupportsFrom(r, own, aliases, inherited, complete)
  {
  }

  /** A plan's budget is valid and never above a cap of the node. */
  lemma PlanNarrowsCapacity(t: Texts, ad: Ad, d: Defaults)
    requires PlanOf(t, ad, d).Ok?
    ensures var b := PlanOf(t, ad, d).value.ad.capacity;
            && Valid(b)
            && (d.capacity.vramHard > 0 ==> 0 < b.vramHard <= d.capacity.vramHard)
            && (d.capacity.ramHard > 0 ==> 0 < b.ramHard <= d.capacity.ramHard)
  {
    HardCapsNeverRise(d.capacity, [ad.capacity]);
    assert [ad.capacity][..0] == [];
    assert Inherit(d.capacity, [ad.capacity]) == Merge(d.capacity, ad.capacity);
    hide Complete, Mergeable, ValidCaps, Draft, Inherit;
  }

  /** Plans for all advertisements, in order, or none at all. */
  method BuildPlans(t: Texts, ads: seq<Ad>, d: Defaults) returns (r: Result<seq<Plan>>)
    ensures r.Ok? <==> forall i :: 0 <= i < |ads| ==> PlanOf(t, ads[i], Filled(d)).Ok?
    ensures r.Ok? ==> |r.value| == |ads| && forall i :: 0 <= i < |ads| ==> PlanOf(t, ads[i], Filled(d)) == Ok(r.value[i])
  {
    hide PlanOf;
    var defaults := Filled(d);
    var plans: seq<Plan> := [];
    var i := 0;
    while i < |ads|
      invariant 0 <= i <= |ads| && |plans| == i && forall k :: 0 <= k < i ==> PlanOf(t, ads[k], defaults) == Ok(plans[k])
    {
      var plan := PlanOf(t, ads[i], defaults);
      if plan.Error? { return Error; }
      plans := plans + [plan.value];
      i := i + 1;
    }
    return Ok(plans);
  }

  /** Reconciles the legacy outer ceiling with the nested one; zero stands for one accelerator. */
  function NormalizeCeiling(outer: int, nested: int): Result<int> {
    if outer < 0 || nested < 0 then Error
    else
      var given := if outer == 0 && nested > 0 then nested else outer;
      var effective := if given == 0 then 1 else given;
      if outer > 0 && nested != 0 && nested != effective then Error else Ok(effective)
  }

  /** It succeeds exactly on non-negative values that agree where both are given, and yields the positive one. */
  lemma CeilingReconciles(outer: int, nested: int)
    ensures NormalizeCeiling(outer, nested).Ok? <==> outer >= 0 && nested >= 0 && (outer == 0 || nested == 0 || outer == nested)
    ensures NormalizeCeiling(outer, nested).Ok? ==>
              var r := NormalizeCeiling(outer, nested).value;
              r >= 1 && (outer > 0 ==> r == outer) && (nested > 0 ==> r == nested) && (outer == 0 && nested == 0 ==> r == 1)
  {}
}
