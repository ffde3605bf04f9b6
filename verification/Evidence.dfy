/** Authoritative evidence for an uncertain model-residency command: the schema check, the mutation check, and
    how settlement decides. Field names are constructors; any other name is `Unlisted`. */
module Evidence {

  datatype Option<+T> = None | Some(value: T)

  datatype Action = Load | Unload | Warm | Offload | Demote | Protect | Cleanup | Reverify

  datatype Command = Mutate(action: Action) | ModelQuery | CheckpointQuery | Checkpoint(name: string) | Plain(name: string)

  datatype Field =
    | FAction | TargetKind | TargetId | Model | RuntimeIdentity | CapabilityVersion | CapabilityRevision
    | Tier | Resident | WarmRam | Changed | Reconciled
    | NodeId | CommandId | IdempotencyKey | CommandFingerprint | Fingerprint
    | OriginalCommandId | OriginalIdempotencyKey | ExpectedFence | FencingToken | ObservedAfterFence
    | Cleaned | WarmEntryAbsent | WarmReleaseVerified | WarmModelBytes | LockedBytes
    | WarmModelBytesVerified | Oracle | ReleasedVram | Protected | ActiveReferences
    | ExpectedTier | ModelPath | Path
    | Unlisted(name: string)

  /** A decoded JSON value; `Opaque` is a fraction, a list or an object. */
  datatype Value = Text(text: string) | Flag(flag: bool) | Number(number: int) | Null | Opaque

  type Fields = map<Field, Value>

  const HOT := "hot_vram"
  const WARM := "warm_ram"
  const COLD := "cold_disk"
  const LLAMACPP := "llamacpp"
  const ORACLE := "mincore+mlock"

  /** The name of a command on the wire. */
  function Name(c: Command): string {
    match c
    case Mutate(Load) => "load_model"
    case Mutate(Unload) => "unload_model"
    case Mutate(Warm) => "warm_model"
    case Mutate(Offload) => "offload_model"
    case Mutate(Demote) => "demote_model"
    case Mutate(Protect) => "protect_warm_model"
    case Mutate(Cleanup) => "cleanup_warm_model"
    case Mutate(Reverify) => "reverify_warm_model"
    case ModelQuery => "query_model_state"
    case CheckpointQuery => "checkpoint_state_query"
    case Checkpoint(name) => name
    case Plain(name) => name
  }

  /** The tier a residency command is meant to reach. */
  function Desired(a: Action): string {
    match a
    case Load => HOT
    case Unload => COLD
    case Cleanup => COLD
    case _ => WARM
  }

  /** The tier it leaves behind when it did not take effect. */
  function Inverse(a: Action): string {
    match a
    case Load => COLD
    case Unload => HOT
    case Warm => HOT
    case Offload => COLD
    case Demote => HOT
    case Protect => COLD
    case Cleanup => HOT
    case Reverify => COLD
  }

  // ---------------------------------------------------------------- typed access

  predicate Space(c: char) { c == ' ' || '\t' <= c <= '\r' || c == '\U{0085}' || c == '\U{00A0}' }

  predicate Blank(s: string) { forall i :: 0 <= i < |s| ==> Space(s[i]) }

  predicate Filled(m: Fields, f: Field) { f in m && m[f].Text? && !Blank(m[f].text) }

  predicate IsFlag(m: Fields, f: Field) { f in m && m[f].Flag? }

  predicate Is(m: Fields, f: Field) { IsFlag(m, f) && m[f].flag }

  predicate IsInt(m: Fields, f: Field) { f in m && m[f].Number? }

  predicate Says(m: Fields, f: Field, s: string) { f in m && m[f] == Text(s) }

  predicate Counts(m: Fields, f: Field, n: int) { f in m && m[f] == Number(n) }

  function TextOf(m: Fields, f: Field): string { if f in m && m[f].Text? then m[f].text else "" }

  // ---------------------------------------------------------------- the evidence schema

  /** The fields that name the resource. */
  predicate IdentityFilled(m: Fields) {
    && Filled(m, TargetKind) && Filled(m, TargetId) && Filled(m, Model)
    && Filled(m, RuntimeIdentity) && Filled(m, CapabilityVersion) && Filled(m, CapabilityRevision)
  }

  /** No field but the ones evidence may carry. */
  predicate NoStrays(o: Fields) {
    forall f :: f in o ==> !f.Unlisted? && f != ExpectedTier && f != ModelPath && f != Path
  }

  predicate TextIfAny(o: Fields, f: Field) { f in o ==> Filled(o, f) }

  predicate FlagIfAny(o: Fields, f: Field) { f in o ==> IsFlag(o, f) }

  predicate IntIfAny(o: Fields, f: Field) { f in o ==> IsInt(o, f) }

  predicate TextsTyped(o: Fields) {
    && IdentityFilled(o) && Filled(o, FAction) && Filled(o, Tier) && Filled(o, OriginalCommandId) && Filled(o, OriginalIdempotencyKey)
    && TextIfAny(o, NodeId) && TextIfAny(o, CommandId) && TextIfAny(o, IdempotencyKey) && TextIfAny(o, CommandFingerprint)
    && TextIfAny(o, Fingerprint) && TextIfAny(o, Oracle)
  }

  predicate FlagsTyped(o: Fields) {
    && FlagIfAny(o, Reconciled) && FlagIfAny(o, Resident) && FlagIfAny(o, WarmRam) && FlagIfAny(o, Changed) && FlagIfAny(o, Cleaned)
    && FlagIfAny(o, WarmEntryAbsent) && FlagIfAny(o, WarmReleaseVerified) && FlagIfAny(o, WarmModelBytesVerified)
    && FlagIfAny(o, ReleasedVram) && FlagIfAny(o, Protected)
  }

  predicate IntsTyped(o: Fields) {
    && IntIfAny(o, ExpectedFence) && IntIfAny(o, FencingToken) && IntIfAny(o, ObservedAfterFence)
    && IntIfAny(o, WarmModelBytes) && IntIfAny(o, LockedBytes) && IntIfAny(o, ActiveReferences)
  }

  predicate WellTyped(o: Fields) {
    NoStrays(o) && TextsTyped(o) && FlagsTyped(o) && IntsTyped(o)
  }

  predicate NoWarmProof(o: Fields) {
    WarmModelBytesVerified !in o && ReleasedVram !in o && Oracle !in o && Protected !in o && ActiveReferences !in o
  }

  predicate NoColdProof(o: Fields) {
    Cleaned !in o && WarmEntryAbsent !in o && WarmReleaseVerified !in o && WarmModelBytes !in o && LockedBytes !in o
  }

  predicate WarmSchema(o: Fields) {
    && !IsFlag(o, Cleaned) && !IsFlag(o, WarmEntryAbsent) && !IsFlag(o, WarmReleaseVerified)
    && Is(o, WarmRam) && !Is(o, Resident) && Is(o, WarmModelBytesVerified) && Is(o, ReleasedVram) && Says(o, Oracle, ORACLE)
    && IsInt(o, WarmModelBytes) && IsInt(o, LockedBytes) && 0 < o[WarmModelBytes].number <= o[LockedBytes].number
  }

  predicate HotSchema(o: Fields) {
    NoWarmProof(o) && NoColdProof(o) && Is(o, Resident) && !Is(o, WarmRam)
  }

  predicate ColdSchema(o: Fields) {
    && NoWarmProof(o)
    && !Is(o, Resident) && !Is(o, WarmRam) && Is(o, Cleaned) && Is(o, WarmEntryAbsent) && Is(o, WarmReleaseVerified)
    && Counts(o, WarmModelBytes, 0) && Counts(o, LockedBytes, 0)
  }

  /** The tiers the schema allows an action to report. */
  predicate Listed(c: Command, tier: string) {
    match c
    case Mutate(Load) => tier == HOT || tier == COLD
    case Mutate(Unload) => tier == COLD || tier == HOT
    case Mutate(Warm) => tier == WARM || tier == HOT
    case Mutate(Offload) => tier == WARM || tier == COLD
    case Mutate(Demote) => tier == WARM || tier == HOT
    case Mutate(Protect) => tier == WARM || tier == COLD
    case Mutate(Cleanup) => tier == COLD || tier == HOT
    case Mutate(Reverify) => tier == WARM || tier == COLD
    case _ => false
  }

  predicate Schema(c: Command, o: Fields) {
    var tier := TextOf(o, Tier);
    && WellTyped(o)
    && IsFlag(o, Changed) && !Is(o, Changed)
    && (if tier == WARM then WarmSchema(o) else if tier == HOT then HotSchema(o) else tier == COLD && ColdSchema(o))
    && Listed(c, tier)
    && (c == Mutate(Protect) && tier == WARM ==> IsFlag(o, Protected) && IsInt(o, ActiveReferences))
    && (c != Mutate(Protect) ==> (Protected in o ==> o[Protected] == Null) && (ActiveReferences in o ==> o[ActiveReferences] == Null))
  }

  // ---------------------------------------------------------------- the mutation check

  /** The parts of a durable command row that evidence is checked against. `result` is its decoded stored result. */
  datatype Original = Original(
    id: string, node: string, key: string, command: Command, args: Fields, result: Option<Fields>, signed: bool)

  predicate AllowedArg(a: Action, f: Field) {
    || f in {TargetKind, TargetId, Model, RuntimeIdentity, CapabilityVersion, CapabilityRevision, ExpectedTier, FencingToken}
    || (a in {Warm, Offload, Demote} && f in {ModelPath, Path, ActiveReferences, Protected})
    || (a == Protect && f in {ActiveReferences, Protected})
  }

  /** The admission check of a command; other commands than residency ones are taken as admitted. */
  predicate ValidArgs(c: Command, args: Fields) {
    c.Mutate? ==>
      && (forall f :: f in args ==> AllowedArg(c.action, f))
      && (c.action == Protect ==> ActiveReferences in args && Protected in args)
      && IdentityFilled(args) && Filled(args, ExpectedTier)
      && Says(args, TargetKind, LLAMACPP) && Says(args, ExpectedTier, Desired(c.action))
      && IsInt(args, FencingToken) && args[FencingToken].number >= 0
      && (ActiveReferences in args ==> IsInt(args, ActiveReferences) && args[ActiveReferences].number >= 0)
      && (Protected in args ==> IsFlag(args, Protected))
      && TextIfAny(args, ModelPath) && TextIfAny(args, Path)
  }

  predicate SameText(args: Fields, o: Fields, f: Field) {
    f in args && args[f].Text? && args[f].text != "" && f in o && o[f] == args[f]
  }

  /** The evidence names the command it settles. */
  predicate BoundTo(x: Original, o: Fields) {
    && SameText(x.args, o, TargetKind) && SameText(x.args, o, TargetId) && SameText(x.args, o, Model)
    && SameText(x.args, o, RuntimeIdentity) && SameText(x.args, o, CapabilityVersion) && SameText(x.args, o, CapabilityRevision)
    && Says(o, OriginalCommandId, x.id) && Says(o, OriginalIdempotencyKey, x.key)
    && IsInt(x.args, FencingToken) && Counts(o, ExpectedFence, x.args[FencingToken].number)
    && Counts(o, FencingToken, x.args[FencingToken].number) && Counts(o, ObservedAfterFence, x.args[FencingToken].number)
  }

  predicate ColdState(o: Fields, tier: string) {
    && Is(o, Cleaned) && Is(o, WarmEntryAbsent) && Is(o, WarmReleaseVerified) && Counts(o, WarmModelBytes, 0) && Counts(o, LockedBytes, 0)
    && IsFlag(o, Changed) && !Is(o, Changed) && !Is(o, Resident) && !Is(o, WarmRam) && tier == COLD
  }

  predicate HotState(o: Fields, tier: string) {
    Is(o, Resident) && !Is(o, WarmRam) && tier == HOT && IsFlag(o, Changed) && !Is(o, Changed)
  }

  predicate WarmState(o: Fields, tier: string) {
    && !Is(o, Resident) && Is(o, WarmRam) && tier == WARM && Is(o, WarmModelBytesVerified) && Is(o, ReleasedVram) && Says(o, Oracle, ORACLE)
    && IsInt(o, WarmModelBytes) && IsInt(o, LockedBytes) && 0 < o[WarmModelBytes].number <= o[LockedBytes].number
  }

  /** The protection the evidence reports is the one the command signed. */
  predicate SameProtection(args: Fields, o: Fields) {
    && IsFlag(o, Protected) && IsFlag(args, Protected) && o[Protected] == args[Protected]
    && IsInt(o, ActiveReferences) && IsInt(args, ActiveReferences) && o[ActiveReferences] == args[ActiveReferences]
  }

  /** The action-specific switch over the reported tier. */
  predicate StateFits(c: Command, args: Fields, o: Fields, tier: string) {
    match c
    case Mutate(Load) => if tier == HOT then HotState(o, tier) else tier == COLD && ColdState(o, tier)
    case Mutate(Unload) => if tier == COLD then ColdState(o, tier) else tier == HOT && HotState(o, tier)
    case Mutate(Warm) => if tier == WARM then WarmState(o, tier) else tier == HOT && HotState(o, tier)
    case Mutate(Demote) => if tier == WARM then WarmState(o, tier) else tier == HOT && HotState(o, tier)
    case Mutate(Offload) => if tier == WARM then WarmState(o, tier) else tier == COLD && ColdState(o, tier)
    case Mutate(Protect) => if tier == WARM then WarmState(o, tier) && SameProtection(args, o) else tier == COLD && ColdState(o, tier)
    case Mutate(Cleanup) => if tier == COLD then ColdState(o, tier) else tier == HOT && HotState(o, tier)
    case Mutate(Reverify) => if tier == WARM then WarmState(o, tier) else tier == COLD && ColdState(o, tier)
    case _ => false
  }

  /** `fingerprint` is the canonical manifest fingerprint of the command. */
  predicate MutationEvidence(fingerprint: string, x: Original, o: Fields) {
    && x.command != ModelQuery && ValidArgs(x.command, x.args)
    && (x.result.Some? && CommandFingerprint in x.result.value ==> x.result.value[CommandFingerprint] == Text(fingerprint))
    && (x.result.Some? && Fingerprint in x.result.value ==> x.result.value[Fingerprint] == Text(fingerprint))
    && Schema(x.command, o) && BoundTo(x, o)
    && IsFlag(o, Resident) && IsFlag(o, WarmRam) && Tier in o && o[Tier].Text? && Says(o, FAction, Name(x.command))
    && StateFits(x.command, x.args, o, TextOf(o, Tier))
  }

  // ---------------------------------------------------------------- settlement

  datatype Verdict = Succeeded | Failed

  /** What settlement makes of the evidence; None when it is refused. */
  function Settlement(fingerprint: string, x: Original, o: Fields): Option<Verdict> {
    if !x.signed || !BoundTo(x, o) || !Says(o, FAction, Name(x.command)) || !MutationEvidence(fingerprint, x, o) then None
    else
      var expected := TextOf(x.args, ExpectedTier);
      Some(if expected == "" || expected == TextOf(o, Tier) then Succeeded else Failed)
  }

  // ---------------------------------------------------------------- what acceptance means

  /** The three proof forms, each complete in itself. */
  predicate HotForm(o: Fields) {
    && Says(o, Tier, HOT) && Residency(o, true, false)
    && NoColdProof(o) && NoWarmProof(o)
  }

  ghost predicate WarmForm(o: Fields) {
    && Says(o, Tier, WARM) && Residency(o, false, true)
    && Is(o, WarmModelBytesVerified) && Is(o, ReleasedVram) && Says(o, Oracle, ORACLE)
    && (exists bytes: int, locked: int :: Counts(o, WarmModelBytes, bytes) && Counts(o, LockedBytes, locked) && 0 < bytes <= locked)
    && Cleaned !in o && WarmEntryAbsent !in o && WarmReleaseVerified !in o
  }

  predicate ColdForm(o: Fields) {
    && Says(o, Tier, COLD) && Residency(o, false, false)
    && Is(o, Cleaned) && Is(o, WarmEntryAbsent) && Is(o, WarmReleaseVerified) && Counts(o, WarmModelBytes, 0) && Counts(o, LockedBytes, 0)
    && NoWarmProof(o)
  }

  /** The reported residency: in VRAM, in locked RAM. */
  predicate Residency(o: Fields, resident: bool, warm: bool) {
    Resident in o && WarmRam in o && o[Resident] == Flag(resident) && o[WarmRam] == Flag(warm)
  }

  lemma TiersDiffer()
    ensures HOT != WARM && WARM != COLD && HOT != COLD && HOT != "" && WARM != "" && COLD != ""
  {
    assert HOT[0] == 'h' && WARM[0] == 'w' && COLD[0] == 'c';
  }

  lemma ListedTiers(c: Command, tier: string)
    ensures Listed(c, tier) <==> c.Mutate? && (tier == Desired(c.action) || tier == Inverse(c.action))
  {}

  lemma WarmSchemaForm(o: Fields)
    requires WellTyped(o) && WarmSchema(o) && Says(o, Tier, WARM) && IsFlag(o, Resident)
    ensures WarmForm(o)
  {
    hide ORACLE, TextsTyped, IntsTyped, NoStrays;
    assert Counts(o, WarmModelBytes, o[WarmModelBytes].number) && Counts(o, LockedBytes, o[LockedBytes].number);
  }

  lemma HotSchemaForm(o: Fields)
    requires HotSchema(o) && Says(o, Tier, HOT) && IsFlag(o, WarmRam)
    ensures HotForm(o)
  {}

  lemma ColdSchemaForm(o: Fields)
    requires ColdSchema(o) && Says(o, Tier, COLD) && IsFlag(o, Resident) && IsFlag(o, WarmRam)
    ensures ColdForm(o)
  {}

  lemma TierTyped(o: Fields)
    requires WellTyped(o)
    ensures Tier in o && o[Tier].Text?
  {
    hide NoStrays, Blank;
  }

  lemma SchemaForm(c: Command, o: Fields)
    requires Schema(c, o) && IsFlag(o, Resident) && IsFlag(o, WarmRam)
    ensures HotForm(o) || WarmForm(o) || ColdForm(o)
    ensures !(HotForm(o) && WarmForm(o)) && !(WarmForm(o) && ColdForm(o)) && !(HotForm(o) && ColdForm(o))
  {
    TiersDiffer();
    TierTyped(o);
    hide Listed, WellTyped, WarmSchema, HotSchema, ColdSchema;
    var tier := TextOf(o, Tier);
    if tier == WARM {
      WarmSchemaForm(o);
    } else if tier == HOT {
      HotSchemaForm(o);
    } else {
      ColdSchemaForm(o);
    }
  }

  /** Evidence the validators accept is for a residency command, has exactly one of the three proof forms, and
      reports the tier that command was meant to reach or the one it leaves behind. */
  lemma AcceptedHasOneForm(fingerprint: string, x: Original, o: Fields)
    requires MutationEvidence(fingerprint, x, o)
    ensures x.command.Mutate? && (Says(o, Tier, Desired(x.command.action)) || Says(o, Tier, Inverse(x.command.action)))
    ensures HotForm(o) || WarmForm(o) || ColdForm(o)
    ensures !(HotForm(o) && WarmForm(o)) && !(WarmForm(o) && ColdForm(o)) && !(HotForm(o) && ColdForm(o))
    ensures Desired(x.command.action) != Inverse(x.command.action)
  {
    TiersDiffer();
    ListedTiers(x.command, TextOf(o, Tier));
    hide Schema, StateFits, BoundTo, ValidArgs;
    SchemaLists(x.command, o);
    SchemaForm(x.command, o);
  }

  lemma SchemaLists(c: Command, o: Fields)
    requires Schema(c, o)
    ensures Listed(c, TextOf(o, Tier))
  {
    hide Listed, WellTyped;
  }

  /** The schema's table and the switch over actions, written twice in the program, agree: once the schema
      accepts, the switch objects only to a protection other than the signed one. */
  lemma SwitchAgreesWithSchema(c: Command, args: Fields, o: Fields)
    requires Schema(c, o)
    ensures StateFits(c, args, o, TextOf(o, Tier)) <==> (c == Mutate(Protect) && TextOf(o, Tier) == WARM ==> SameProtection(args, o))
  {
    TiersDiffer();
    hide WellTyped, SameProtection, ORACLE;
  }

  /** A command settles as succeeded exactly when accepted evidence shows the tier it was meant to reach, and as
      failed exactly when it shows the one it leaves behind. */
  lemma SettlementReadsTheTier(fingerprint: string, x: Original, o: Fields)
    ensures Settlement(fingerprint, x, o).Some? <==> x.signed && MutationEvidence(fingerprint, x, o)
    ensures Settlement(fingerprint, x, o) == Some(Succeeded) <==>
            x.signed && MutationEvidence(fingerprint, x, o) && Says(o, Tier, Desired(x.command.action))
    ensures Settlement(fingerprint, x, o) == Some(Failed) <==>
            x.signed && MutationEvidence(fingerprint, x, o) && Says(o, Tier, Inverse(x.command.action))
  {
    hide Schema, StateFits, BoundTo, ValidArgs, HotForm, WarmForm, ColdForm, Name;
    if MutationEvidence(fingerprint, x, o) {
      AcceptedHasOneForm(fingerprint, x, o);
      TiersDiffer();
      SignedTier(x.command, x.args);
    }
  }

  lemma SignedTier(c: Command, args: Fields)
    requires c.Mutate? && ValidArgs(c, args)
    ensures Says(args, ExpectedTier, Desired(c.action))
  {}

  // ---------------------------------------------------------------- every outcome can be shown

  /** A command that could have been admitted, whose first result was lost. */
  predicate Unresolved(x: Original) {
    x.signed && x.command.Mutate? && ValidArgs(x.command, x.args) && x.result.None? && !Blank(x.id) && !Blank(x.key)
  }

  predicate EitherTier(x: Original, tier: string) {
    x.command.Mutate? && (tier == Desired(x.command.action) || tier == Inverse(x.command.action))
  }

  /** Honest evidence for command `x` at `tier`: bound to the command, no stray field, and one proof form, with
      the signed protection where protection is what was asked for. */
  ghost predicate Honest(x: Original, tier: string, o: Fields) {
    && NoStrays(o) && BoundTo(x, o) && Says(o, FAction, Name(x.command)) && Changed in o && o[Changed] == Flag(false)
    && Says(o, Tier, tier) && (HotForm(o) || WarmForm(o) || ColdForm(o))
    && NodeId !in o && CommandId !in o && IdempotencyKey !in o && CommandFingerprint !in o && Fingerprint !in o && Reconciled !in o
    && (if x.command == Mutate(Protect) && tier == WARM then SameProtection(x.args, o) else Protected !in o && ActiveReferences !in o)
  }

  lemma NamesFilled(a: Action)
    ensures !Blank(Name(Mutate(a))) && !Blank(Desired(a)) && !Blank(Inverse(a)) && !Blank(ORACLE)
  {
    assert !Space(Name(Mutate(a))[0]) && !Space(HOT[0]) && !Space(WARM[0]) && !Space(COLD[0]) && !Space(ORACLE[0]);
  }

  lemma IdentityCopied(x: Original, o: Fields)
    requires BoundTo(x, o) && IdentityFilled(x.args)
    ensures IdentityFilled(o)
  {
    hide Blank;
  }

  lemma OracleFixed(o: Fields)
    requires HotForm(o) || WarmForm(o) || ColdForm(o)
    ensures Oracle in o ==> Says(o, Oracle, ORACLE)
  {
    hide ORACLE, HOT, WARM, COLD;
  }

  lemma TierFilled(x: Original, tier: string)
    requires EitherTier(x, tier)
    ensures !Blank(tier) && !Blank(Name(x.command)) && !Blank(ORACLE)
  {
    NamesFilled(x.command.action);
    hide Blank, Name, ORACLE;
  }

  lemma HonestTexts(x: Original, tier: string, o: Fields)
    requires Unresolved(x) && EitherTier(x, tier) && Honest(x, tier, o)
    ensures TextsTyped(o)
  {
    hide Name, Blank, ORACLE, NoStrays, HotForm, WarmForm, ColdForm, SameProtection, EitherTier, IdentityFilled;
    TierFilled(x, tier);
    OracleFixed(o);
    IdentityCopied(x, o);
  }

  lemma HonestFlags(x: Original, tier: string, o: Fields)
    requires Honest(x, tier, o)
    ensures FlagsTyped(o) && IntsTyped(o)
  {
    hide Name, ORACLE, NoStrays, HOT, WARM, COLD;
    assert IntIfAny(o, ExpectedFence) && IntIfAny(o, FencingToken) && IntIfAny(o, ObservedAfterFence);
    hide BoundTo;
  }

  lemma HonestTyped(x: Original, tier: string, o: Fields)
    requires Unresolved(x) && EitherTier(x, tier) && Honest(x, tier, o)
    ensures WellTyped(o)
  {
    hide TextsTyped, FlagsTyped, IntsTyped, BoundTo, HotForm, WarmForm, ColdForm, ValidArgs, SameProtection, EitherTier;
    HonestTexts(x, tier, o);
    HonestFlags(x, tier, o);
  }

  lemma HonestState(x: Original, tier: string, o: Fields)
    requires Unresolved(x) && EitherTier(x, tier) && Honest(x, tier, o)
    ensures IsFlag(o, Resident) && IsFlag(o, WarmRam) && TextOf(o, Tier) == tier
    ensures if tier == WARM then WarmSchema(o) else if tier == HOT then HotSchema(o) else tier == COLD && ColdSchema(o)
  {
    TiersDiffer();
    hide Name, ValidArgs, ORACLE, NoStrays, BoundTo, Desired, Inverse;
  }

  lemma HonestAccepted(fingerprint: string, x: Original, tier: string, o: Fields)
    requires Unresolved(x) && EitherTier(x, tier) && Honest(x, tier, o)
    ensures MutationEvidence(fingerprint, x, o)
  {
    hide WellTyped, BoundTo, WarmSchema, HotSchema, ColdSchema, HotForm, WarmForm, ColdForm, ValidArgs, Listed, StateFits, Name, NoStrays, HOT, WARM, COLD;
    HonestTyped(x, tier, o);
    HonestState(x, tier, o);
    ListedTiers(x.command, tier);
    assert Schema(x.command, o);
    SwitchAgreesWithSchema(x.command, x.args, o);
    hide Schema, SameProtection;
  }

  /** The checks refuse nothing they should not: honest evidence for an unresolved residency command, showing the
      tier it was meant to reach or the one it leaves behind, is accepted and settles it accordingly. */
  lemma HonestEvidenceSettles(fingerprint: string, x: Original, tier: string, o: Fields)
    requires Unresolved(x) && EitherTier(x, tier) && Honest(x, tier, o)
    ensures Settlement(fingerprint, x, o) == Some(if tier == Desired(x.command.action) then Succeeded else Failed)
  {
    HonestAccepted(fingerprint, x, tier, o);
    SettlementReadsTheTier(fingerprint, x, o);
    TiersDiffer();
    hide MutationEvidence, Settlement, HotForm, WarmForm, ColdForm, BoundTo, ValidArgs;
  }
}
