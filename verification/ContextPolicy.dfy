/**
 Resolving the compact policy from its layers: fields are taken one by one, and what does not
 fit together goes back to the built-in values until the policy is coherent.
 */
module ContextPolicy {
  import opened Basics

  datatype Field = Lower | Upper | Profile | PruneEnabled | PruneThreshold | PruneTarget | MinRunway

  datatype Policy = Policy(lower: int, upper: int, profile: string, pruneEnabled: bool, pruneThreshold: Option<int>,
                           pruneTarget: Option<int>, minRunway: int)

  /** A layer's policy: what it says about each field, if anything. */
  datatype Partial = Partial(lower: Option<int>, upper: Option<int>, profile: Option<string>,
                             pruneEnabled: Option<bool>, pruneThreshold: Option<Option<int>>,
                             pruneTarget: Option<Option<int>>, minRunway: Option<int>)

  datatype Source = Builtin | User | Project | Session

  datatype Fallback = Fallback(origin: string, field: Option<Field>)

  datatype Json =
    | Null | Bool(b: bool) | Whole(n: int) | Fraction | Text(s: string) | List | Object(fields: map<string, Json>)

  const MAX_SAFE_INTEGER: int := 9007199254740991
  const BUILTIN := Policy(120000, 700000, "default", false, None, None, 50000)
  const PROFILES := {"default", "balanced", "historical"}
  const FIELDS := [Lower, Upper, Profile, PruneEnabled, PruneThreshold, PruneTarget, MinRunway]
  const NOTHING := Partial(None, None, None, None, None, None, None)

  function KeyOf(f: Field): string {
    match f
    case Lower => "lowerBoundTokens"
    case Upper => "upperBoundTokens"
    case Profile => "profile"
    case PruneEnabled => "pruneEnabled"
    case PruneThreshold => "pruneThresholdTokens"
    case PruneTarget => "pruneTargetTokens"
    case MinRunway => "minRunwayTokens"
  }

  /** The policy with one field as in another. */
  function With(p: Policy, f: Field, other: Policy): Policy {
    match f
    case Lower => p.(lower := other.lower)
    case Upper => p.(upper := other.upper)
    case Profile => p.(profile := other.profile)
    case PruneEnabled => p.(pruneEnabled := other.pruneEnabled)
    case PruneThreshold => p.(pruneThreshold := other.pruneThreshold)
    case PruneTarget => p.(pruneTarget := other.pruneTarget)
    case MinRunway => p.(minRunway := other.minRunway)
  }

  predicate Agree(p: Policy, other: Policy, f: Field) {
    With(p, f, other) == p
  }

  // ----- Parsing a layer -----

  predicate IsPositive(n: int) {
    0 < n <= MAX_SAFE_INTEGER
  }

  function Given(raw: Json, f: Field): Option<Json> {
    if raw.Object? && KeyOf(f) in raw.fields then Some(raw.fields[KeyOf(f)]) else None
  }

  /** A field's value is taken when it is there and of its kind. */
  function PosInt(raw: Json, f: Field): Option<int> {
    match Given(raw, f)
    case Some(Whole(n)) => if IsPositive(n) then Some(n) else None
    case _ => None
  }

  function NullablePosInt(raw: Json, f: Field): Option<Option<int>> {
    match Given(raw, f)
    case Some(Null) => Some(None)
    case Some(Whole(n)) => if IsPositive(n) then Some(Some(n)) else None
    case _ => None
  }

  function ProfileName(raw: Json): Option<string> {
    match Given(raw, Profile)
    case Some(Text(s)) => if s in PROFILES then Some(s) else None
    case _ => None
  }

  function Flag(raw: Json): Option<bool> {
    match Given(raw, PruneEnabled)
    case Some(Bool(b)) => Some(b)
    case _ => None
  }

  function PartialOf(raw: Json): Partial {
    Partial(PosInt(raw, Lower), PosInt(raw, Upper), ProfileName(raw), Flag(raw), NullablePosInt(raw, PruneThreshold),
            NullablePosInt(raw, PruneTarget), PosInt(raw, MinRunway))
  }

  predicate Says(p: Partial, f: Field) {
    match f
    case Lower => p.lower.Some?
    case Upper => p.upper.Some?
    case Profile => p.profile.Some?
    case PruneEnabled => p.pruneEnabled.Some?
    case PruneThreshold => p.pruneThreshold.Some?
    case PruneTarget => p.pruneTarget.Some?
    case MinRunway => p.minRunway.Some?
  }

  /** A layer's fields over a base policy. */
  function Over(base: Policy, p: Partial): Policy {
    Policy(p.lower.GetOr(base.lower), p.upper.GetOr(base.upper), p.profile.GetOr(base.profile),
           p.pruneEnabled.GetOr(base.pruneEnabled), p.pruneThreshold.GetOr(base.pruneThreshold),
           p.pruneTarget.GetOr(base.pruneTarget), p.minRunway.GetOr(base.minRunway))
  }

  /** A field that is given but not taken is reported, under its own name. */
  predicate IsDropped(raw: Json, f: Field) {
    Given(raw, f).Some? && !Says(PartialOf(raw), f)
  }

  // ----- What a layer is written as -----

  function WholeOrNull(v: Option<int>): Json {
    if v.Some? then Whole(v.value) else Null
  }

  /** What the layer says of the field, as JSON. */
  function SaidOf(p: Partial, f: Field): Option<Json> {
    match f
    case Lower => if p.lower.Some? then Some(Whole(p.lower.value)) else None
    case Upper => if p.upper.Some? then Some(Whole(p.upper.value)) else None
    case Profile => if p.profile.Some? then Some(Text(p.profile.value)) else None
    case PruneEnabled => if p.pruneEnabled.Some? then Some(Bool(p.pruneEnabled.value)) else None
    case PruneThreshold => if p.pruneThreshold.Some? then Some(WholeOrNull(p.pruneThreshold.value)) else None
    case PruneTarget => if p.pruneTarget.Some? then Some(WholeOrNull(p.pruneTarget.value)) else None
    case MinRunway => if p.minRunway.Some? then Some(Whole(p.minRunway.value)) else None
  }

  /** The field a key of the configuration stands for. */
  function FieldNamed(key: string): Option<Field> {
    if key == "lowerBoundTokens" then Some(Lower)
    else if key == "upperBoundTokens" then Some(Upper)
    else if key == "profile" then Some(Profile)
    else if key == "pruneEnabled" then Some(PruneEnabled)
    else if key == "pruneThresholdTokens" then Some(PruneThreshold)
    else if key == "pruneTargetTokens" then Some(PruneTarget)
    else if key == "minRunwayTokens" then Some(MinRunway)
    else None
  }

  /** The object says the layer, whatever else it holds. */
  ghost predicate Writes(raw: map<string, Json>, p: Partial) {
    forall key: string :: FieldNamed(key).Some? ==>
      SaidOf(p, FieldNamed(key).value) == if key in raw then Some(raw[key]) else None
  }

  /** What a layer says is of each field's kind. */
  ghost predicate IsWellFormed(p: Partial) {
    && (p.lower.Some? ==> IsPositive(p.lower.value)) && (p.upper.Some? ==> IsPositive(p.upper.value))
    && (p.profile.Some? ==> p.profile.value in PROFILES)
    && (p.pruneThreshold.Some? && p.pruneThreshold.value.Some? ==> IsPositive(p.pruneThreshold.value.value))
    && (p.pruneTarget.Some? && p.pruneTarget.value.Some? ==> IsPositive(p.pruneTarget.value.value))
    && (p.minRunway.Some? ==> IsPositive(p.minRunway.value))
  }

  lemma KeyNamesField(f: Field)
    ensures FieldNamed(KeyOf(f)) == Some(f)
  {
    match f
    case Lower =>
    case Upper =>
    case Profile =>
    case PruneEnabled =>
    case PruneThreshold =>
    case PruneTarget =>
    case MinRunway =>
  }

  lemma SaidIsGiven(raw: map<string, Json>, p: Partial, f: Field)
    requires Writes(raw, p)
    ensures Given(Object(raw), f) == SaidOf(p, f)
  {
    KeyNamesField(f);
  }

  /** A layer written out under its keys is read back, whatever it says. */
  lemma WrittenReadsBack(raw: map<string, Json>, p: Partial)
    requires IsWellFormed(p) && Writes(raw, p)
    ensures PartialOf(Object(raw)) == p
  {
    SaidIsGiven(raw, p, Lower);
    SaidIsGiven(raw, p, Upper);
    SaidIsGiven(raw, p, Profile);
    SaidIsGiven(raw, p, PruneEnabled);
    SaidIsGiven(raw, p, PruneThreshold);
    SaidIsGiven(raw, p, PruneTarget);
    SaidIsGiven(raw, p, MinRunway);
  }

  lemma TakenOfField(raw: Json, f: Field)
    ensures IsWellFormed(PartialOf(raw)) && (Says(PartialOf(raw), f) ==> SaidOf(PartialOf(raw), f) == Given(raw, f))
  {
  }

  /** What is taken of an object is of its kind and stands under the field's key. */
  lemma TakenIsGiven(raw: Json, key: string)
    requires FieldNamed(key).Some?
    ensures var p, f := PartialOf(raw), FieldNamed(key).value;
      && IsWellFormed(p)
      && (Says(p, f) ==> raw.Object? && key in raw.fields && SaidOf(p, f) == Some(raw.fields[key]))
  {
    assert key == KeyOf(FieldNamed(key).value);
    TakenOfField(raw, FieldNamed(key).value);
  }

  // ----- Whether a policy is acceptable -----

  predicate FieldsValid(p: Policy) {
    && IsPositive(p.lower) && IsPositive(p.upper) && IsPositive(p.minRunway) && p.profile in PROFILES
    && (p.pruneThreshold.Some? ==> IsPositive(p.pruneThreshold.value))
    && (p.pruneTarget.Some? ==> IsPositive(p.pruneTarget.value))
  }

  datatype Rule = Bounds | Runway | Prune

  function RuleFields(r: Rule): seq<Field> {
    match r
    case Bounds => [Lower, Upper]
    case Runway => [Lower, Upper, MinRunway]
    case Prune => [PruneEnabled, PruneThreshold, PruneTarget]
  }

  predicate Broken(r: Rule, p: Policy) {
    match r
    case Bounds => p.upper <= p.lower
    case Runway => p.upper - p.lower < p.minRunway
    case Prune =>
      p.pruneEnabled &&
      (p.pruneThreshold.None? || p.pruneTarget.None? || p.pruneTarget.value >= p.pruneThreshold.value)
  }

  predicate Coherent(p: Policy) {
    !Broken(Bounds, p) && !Broken(Runway, p) && !Broken(Prune, p)
  }

  datatype PolicyError = FieldError(field: Field) | RuleError(rule: Rule)

  /** The bounds leave the runway asked for, and a prune that is on has a target below its threshold. */
  ghost predicate FitsTogether(p: Policy) {
    && p.lower + p.minRunway <= p.upper
    && (p.pruneEnabled ==> exists target, threshold ::
          p.pruneTarget == Some(target) && p.pruneThreshold == Some(threshold) && target < threshold)
  }

  /** Of valid fields the rules ask that they fit together, no more. */
  lemma CoherentIff(p: Policy)
    requires FieldsValid(p)
    ensures Coherent(p) <==> FitsTogether(p)
  {
    if p.pruneEnabled && Coherent(p) {
      assert p.pruneTarget == Some(p.pruneTarget.value) && p.pruneThreshold == Some(p.pruneThreshold.value);
    }
  }

  /** The two policies differ in one field at most. */
  ghost predicate DifferAt(p: Policy, q: Policy, f: Field) {
    forall g: Field :: g != f ==> Agree(p, q, g)
  }

  /** Whether a policy breaks the rule can hang on the field alone. */
  ghost predicate HangsOn(r: Rule, f: Field) {
    exists p, q :: FieldsValid(p) && FieldsValid(q) && DifferAt(p, q, f) && Broken(r, p) && !Broken(r, q)
  }

  lemma OnlyItsFieldsMatter(r: Rule, f: Field, p: Policy, q: Policy)
    requires f !in RuleFields(r) && DifferAt(p, q, f)
    ensures Broken(r, p) <==> Broken(r, q)
  {
    match r
    case Bounds => assert f != Lower && f != Upper && Agree(p, q, Lower) && Agree(p, q, Upper);
    case Runway => assert Agree(p, q, Lower) && Agree(p, q, Upper) && Agree(p, q, MinRunway);
    case Prune => assert Agree(p, q, PruneEnabled) && Agree(p, q, PruneThreshold) && Agree(p, q, PruneTarget);
  }

  lemma Hangs(r: Rule, f: Field, p: Policy, q: Policy)
    requires FieldsValid(p) && FieldsValid(q) && DifferAt(p, q, f) && Broken(r, p) && !Broken(r, q)
    ensures HangsOn(r, f)
  {
  }

  /** What a rule sends back are the fields its verdict can hang on. */
  lemma RuleFieldsAreThose(r: Rule, f: Field)
    ensures f in RuleFields(r) <==> HangsOn(r, f)
  {
    if f in RuleFields(r) {
      match r
      case Bounds =>
        Hangs(r, f, if f == Lower then BUILTIN.(lower := 700000) else BUILTIN.(upper := 120000), BUILTIN);
      case Runway =>
        Hangs(r, f, if f == Lower then BUILTIN.(lower := 650001) else if f == Upper then BUILTIN.(upper := 169999)
                    else BUILTIN.(minRunway := 580001), BUILTIN);
      case Prune =>
        var pruned := BUILTIN.(pruneEnabled := true, pruneThreshold := Some(2), pruneTarget := Some(1));
        Hangs(r, f, if f == PruneThreshold then pruned.(pruneThreshold := None)
                    else if f == PruneTarget then pruned.(pruneTarget := None)
                    else BUILTIN.(pruneEnabled := true), if f == PruneEnabled then BUILTIN else pruned);
    } else if HangsOn(r, f) {
      var p, q :| FieldsValid(p) && FieldsValid(q) && DifferAt(p, q, f) && Broken(r, p) && !Broken(r, q);
      OnlyItsFieldsMatter(r, f, p, q);
    }
  }

  method NoteIf(bad: bool, error: PolicyError, errors: seq<PolicyError>) returns (more: seq<PolicyError>)
    ensures more == [] <==> errors == [] && !bad
    ensures forall e :: e in more <==> e in errors || (bad && e == error)
  {
    more := errors;
    if bad { more := more + [error]; }
  }

  lemma ValidFieldByField(p: Policy, f: Field)
    ensures FieldsValid(With(BUILTIN, f, p)) <==>
        match f
        case Lower => IsPositive(p.lower)
        case Upper => IsPositive(p.upper)
        case Profile => p.profile in PROFILES
        case PruneEnabled => true
        case PruneThreshold => p.pruneThreshold.Some? ==> IsPositive(p.pruneThreshold.value)
        case PruneTarget => p.pruneTarget.Some? ==> IsPositive(p.pruneTarget.value)
        case MinRunway => IsPositive(p.minRunway)
  {
  }

  method FieldErrors(p: Policy) returns (errors: seq<PolicyError>)
    ensures errors == [] <==> FieldsValid(p)
    ensures forall r: Rule :: RuleError(r) !in errors
    ensures forall f: Field :: FieldError(f) in errors <==> !FieldsValid(With(BUILTIN, f, p))
  {
    errors := NoteIf(!IsPositive(p.lower), FieldError(Lower), []);
    errors := NoteIf(!IsPositive(p.upper), FieldError(Upper), errors);
    errors := NoteIf(!IsPositive(p.minRunway), FieldError(MinRunway), errors);
    var threshold, target := p.pruneThreshold, p.pruneTarget;
    errors := NoteIf(threshold.Some? && !IsPositive(threshold.value), FieldError(PruneThreshold), errors);
    errors := NoteIf(target.Some? && !IsPositive(target.value), FieldError(PruneTarget), errors);
    errors := NoteIf(p.profile !in PROFILES, FieldError(Profile), errors);
    forall f: Field ensures FieldError(f) in errors <==> !FieldsValid(With(BUILTIN, f, p)) {
      ValidFieldByField(p, f);
    }
  }

  method ValidateContextPolicy(p: Policy) returns (errors: seq<PolicyError>)
    ensures errors == [] <==> FieldsValid(p) && FitsTogether(p)
    ensures forall f: Field :: FieldError(f) in errors <==> !FieldsValid(With(BUILTIN, f, p))
    ensures forall r: Rule :: RuleError(r) in errors <==> FieldsValid(p) && Broken(r, p)
  {
    errors := FieldErrors(p);
    if |errors| > 0 {
      return;
    }
    CoherentIff(p);
    errors := NoteIf(Broken(Bounds, p), RuleError(Bounds), errors);
    errors := NoteIf(Broken(Runway, p), RuleError(Runway), errors);
    errors := NoteIf(Broken(Prune, p), RuleError(Prune), errors);
  }

  // ----- Settling -----

  type Sources = map<Field, Source>

  type Origins = map<Field, string>

  datatype State = State(policy: Policy, sources: Sources)

  predicate IsTotal(sources: Sources) {
    forall f: Field :: f in sources
  }

  predicate IsConfigured(sources: Sources, f: Field) {
    f in sources && !sources[f].Builtin?
  }

  function Configured(sources: Sources): set<Field> {
    set f | f in sources && IsConfigured(sources, f)
  }

  /** A configured field goes back to the built-in value. */
  function RevertedOne(s: State, f: Field): State {
    if IsConfigured(s.sources, f) then State(With(s.policy, f, BUILTIN), s.sources[f := Builtin]) else s
  }

  function Reverted(s: State, fields: seq<Field>): State
    decreases fields
  {
    if fields == [] then s else Reverted(RevertedOne(s, fields[0]), fields[1..])
  }

  function AfterRule(s: State, r: Rule): State {
    if Broken(r, s.policy) then Reverted(s, RuleFields(r)) else s
  }

  const RULES := [Bounds, Runway, Prune]

  function AfterRules(s: State, rules: seq<Rule>): State
    decreases rules
  {
    if rules == [] then s else AfterRules(AfterRule(s, rules[0]), rules[1..])
  }

  function AfterPass(s: State): State {
    AfterRules(s, RULES)
  }

  function AfterPasses(s: State, n: nat): State
    decreases n
  {
    if n == 0 then s else AfterPasses(AfterPass(s), n - 1)
  }

  /** A field not configured holds the built-in value. */
  ghost predicate BuiltinHolds(s: State) {
    IsTotal(s.sources) && forall f: Field :: s.sources[f].Builtin? ==> Agree(s.policy, BUILTIN, f)
  }

  /** Later, every field is as before, or it went back to the built-in value. */
  ghost predicate OnlyReverts(s: State, later: State) {
    && IsTotal(s.sources) && IsTotal(later.sources)
    && forall f: Field ::
         || (later.sources[f] == s.sources[f] && Agree(later.policy, s.policy, f))
         || (IsConfigured(s.sources, f) && later.sources[f].Builtin? && Agree(later.policy, BUILTIN, f))
  }

  lemma OnlyRevertsOn(s: State, t: State, u: State)
    requires OnlyReverts(s, t) && OnlyReverts(t, u)
    ensures OnlyReverts(s, u)
  {
  }

  lemma WithAgrees(p: Policy, f: Field, other: Policy, g: Field)
    ensures Agree(With(p, f, other), if g == f then other else p, g)
  {
    match f
    case Lower =>
    case Upper =>
    case Profile =>
    case PruneEnabled =>
    case PruneThreshold =>
    case PruneTarget =>
    case MinRunway =>
  }

  lemma RevertedOneOnly(s: State, f: Field)
    requires IsTotal(s.sources)
    ensures OnlyReverts(s, RevertedOne(s, f)) && RevertedOne(s, f).sources[f].Builtin?
  {
    var t := RevertedOne(s, f);
    forall g: Field
      ensures || (t.sources[g] == s.sources[g] && Agree(t.policy, s.policy, g))
              || (IsConfigured(s.sources, g) && t.sources[g].Builtin? && Agree(t.policy, BUILTIN, g))
    {
      WithAgrees(s.policy, f, BUILTIN, g);
    }
  }

  lemma {:induction false} RevertedOnly(s: State, fields: seq<Field>)
    requires IsTotal(s.sources)
    ensures OnlyReverts(s, Reverted(s, fields))
    ensures forall f :: f in fields ==> Reverted(s, fields).sources[f].Builtin?
    decreases fields
  {
    if fields != [] {
      var t := RevertedOne(s, fields[0]);
      RevertedOneOnly(s, fields[0]);
      RevertedOnly(t, fields[1..]);
      OnlyRevertsOn(s, t, Reverted(s, fields));
    }
  }

  lemma {:induction false} RulesOnlyRevert(s: State, rules: seq<Rule>)
    requires IsTotal(s.sources)
    ensures OnlyReverts(s, AfterRules(s, rules))
    decreases rules
  {
    if rules != [] {
      var t := AfterRule(s, rules[0]);
      RevertedOnly(s, RuleFields(rules[0]));
      RulesOnlyRevert(t, rules[1..]);
      OnlyRevertsOn(s, t, AfterRules(s, rules));
    }
  }

  lemma {:induction false} PassesOnlyRevert(s: State, n: nat)
    requires IsTotal(s.sources)
    ensures OnlyReverts(s, AfterPasses(s, n))
    decreases n
  {
    if n > 0 {
      var t := AfterPass(s);
      RulesOnlyRevert(s, RULES);
      PassesOnlyRevert(t, n - 1);
      OnlyRevertsOn(s, t, AfterPasses(s, n));
    }
  }

  lemma RevertsKeepBuiltin(s: State, later: State)
    requires BuiltinHolds(s) && OnlyReverts(s, later)
    ensures BuiltinHolds(later)
  {
  }

  lemma AllAgree(p: Policy, other: Policy)
    requires forall f: Field :: Agree(p, other, f)
    ensures p == other
  {
    assert Agree(p, other, Lower) && Agree(p, other, Upper) && Agree(p, other, Profile)
           && Agree(p, other, PruneEnabled);
    assert Agree(p, other, PruneThreshold) && Agree(p, other, PruneTarget) && Agree(p, other, MinRunway);
  }

  /** A step that reverts something strictly reduces the configured fields; one that does not changes nothing. */
  lemma RevertingReduces(s: State, later: State)
    requires OnlyReverts(s, later)
    ensures Configured(later.sources) <= Configured(s.sources)
    ensures later == s || Configured(later.sources) < Configured(s.sources)
    ensures later.sources == s.sources <==> later == s
  {
    if later.sources == s.sources {
      AllAgree(later.policy, s.policy);
    } else {
      var f :| later.sources[f] != s.sources[f];
      assert f in Configured(s.sources) && f !in Configured(later.sources);
    }
  }

  /** The built-in values break no rule. */
  lemma BuiltinRuleHolds(s: State, r: Rule)
    requires BuiltinHolds(s) && forall f :: f in RuleFields(r) ==> s.sources[f].Builtin?
    ensures !Broken(r, s.policy)
  {
    match r
    case Bounds => assert Lower in RuleFields(r) && Upper in RuleFields(r);
    case Runway => assert Lower in RuleFields(r) && Upper in RuleFields(r) && MinRunway in RuleFields(r);
    case Prune => assert PruneEnabled in RuleFields(r);
  }

  /** A broken rule with a configured field reverts that field. */
  lemma BrokenRuleReverts(s: State, r: Rule)
    requires BuiltinHolds(s) && Broken(r, s.policy)
    ensures AfterRule(s, r) != s
  {
    RevertedOnly(s, RuleFields(r));
    if AfterRule(s, r) == s {
      BuiltinRuleHolds(s, r);
    }
  }

  /** A pass that reverts nothing found the policy coherent, and on a coherent policy a pass reverts nothing. */
  lemma QuietPassIffCoherent(s: State)
    requires BuiltinHolds(s)
    ensures AfterPass(s) == s <==> Coherent(s.policy)
  {
    var t, u := AfterRule(s, Bounds), AfterRule(AfterRule(s, Bounds), Runway);
    var v := AfterRule(u, Prune);
    assert RULES[1..] == [Runway, Prune] && [Runway, Prune][1..] == [Prune] && [Prune][1..] == [];
    assert AfterRules(u, [Prune]) == AfterRules(v, []);
    assert AfterPass(s) == v;
    RulesOnlyRevert(s, [Bounds]);
    RulesOnlyRevert(t, [Runway]);
    RulesOnlyRevert(u, [Prune]);
    assert [Bounds][1..] == [] && [Runway][1..] == [];
    assert AfterRules(s, [Bounds]) == t && AfterRules(t, [Runway]) == u;
    RevertingReduces(s, t);
    RevertingReduces(t, u);
    RevertingReduces(u, v);
    if v == s {
      if Broken(Bounds, s.policy) { BrokenRuleReverts(s, Bounds); }
      if Broken(Runway, s.policy) { BrokenRuleReverts(s, Runway); }
      if Broken(Prune, s.policy) { BrokenRuleReverts(s, Prune); }
    }
  }

  lemma {:induction false} QuietPassesStay(s: State, n: nat)
    requires AfterPass(s) == s
    ensures AfterPasses(s, n) == s
    decreases n
  {
    if n > 0 {
      QuietPassesStay(s, n - 1);
    }
  }

  lemma {:induction false} SubsetCount(a: set<Field>, b: set<Field>)
    requires a <= b
    ensures |a| <= |b|
    decreases a
  {
    if a != {} {
      var x :| x in a;
      SubsetCount(a - {x}, b - {x});
    }
  }

  lemma SmallerSet(a: set<Field>, b: set<Field>)
    requires a < b
    ensures |a| < |b|
  {
    var x :| x in b && x !in a;
    assert a <= b - {x};
    SubsetCount(a, b - {x});
  }

  /** As many passes as there are configured fields, and one more, reach a coherent policy. */
  lemma {:induction false} EnoughPasses(s: State, n: nat)
    requires BuiltinHolds(s) && |Configured(s.sources)| < n
    ensures Coherent(AfterPasses(s, n).policy)
    decreases n
  {
    var t := AfterPass(s);
    RulesOnlyRevert(s, RULES);
    RevertsKeepBuiltin(s, t);
    RevertingReduces(s, t);
    QuietPassIffCoherent(s);
    if t == s {
      QuietPassesStay(s, n);
    } else {
      SmallerSet(Configured(t.sources), Configured(s.sources));
      EnoughPasses(t, n - 1);
    }
  }

  lemma AtMostSeven(sources: Sources)
    ensures |Configured(sources)| <= 7
  {
    var all := {Lower, Upper, Profile, PruneEnabled, PruneThreshold, PruneTarget, MinRunway};
    forall f | f in Configured(sources) ensures f in all {
      match f
      case Lower =>
      case Upper =>
      case Profile =>
      case PruneEnabled =>
      case PruneThreshold =>
      case PruneTarget =>
      case MinRunway =>
    }
    SubsetCount(Configured(sources), all);
  }

  /** The fixed bound of passes always reaches a coherent policy. */
  lemma BoundIsEnough(s: State)
    requires BuiltinHolds(s)
    ensures Coherent(AfterPasses(s, |FIELDS| + 1).policy) && BuiltinHolds(AfterPasses(s, |FIELDS| + 1))
  {
    AtMostSeven(s.sources);
    EnoughPasses(s, |FIELDS| + 1);
    PassesOnlyRevert(s, |FIELDS| + 1);
    RevertsKeepBuiltin(s, AfterPasses(s, |FIELDS| + 1));
  }

  // ----- The resolution, step by step -----

  datatype FileRead = Absent | Unreadable | Content(raw: Json)

  /** The report after one field: longer when the field was given and not taken. */
  function Noted(raw: Json, f: Field, taken: bool, origin: string, fallbacks: seq<Fallback>): seq<Fallback> {
    if Given(raw, f).Some? && !taken then fallbacks + [Fallback(origin, Some(f))] else fallbacks
  }

  method TakePosInt(raw: Json, f: Field, origin: string, fallbacks: seq<Fallback>)
    returns (v: Option<int>, more: seq<Fallback>)
    ensures v == PosInt(raw, f) && more == Noted(raw, f, v.Some?, origin, fallbacks)
  {
    v, more := None, fallbacks;
    if raw.Object? && KeyOf(f) in raw.fields {
      var given := raw.fields[KeyOf(f)];
      if given.Whole? && IsPositive(given.n) {
        v := Some(given.n);
      } else {
        more := more + [Fallback(origin, Some(f))];
      }
    }
  }

  method TakeNullablePosInt(raw: Json, f: Field, origin: string, fallbacks: seq<Fallback>)
    returns (v: Option<Option<int>>, more: seq<Fallback>)
    ensures v == NullablePosInt(raw, f) && more == Noted(raw, f, v.Some?, origin, fallbacks)
  {
    v, more := None, fallbacks;
    if raw.Object? && KeyOf(f) in raw.fields {
      var given := raw.fields[KeyOf(f)];
      if given.Null? {
        v := Some(None);
      } else if given.Whole? && IsPositive(given.n) {
        v := Some(Some(given.n));
      } else {
        more := more + [Fallback(origin, Some(f))];
      }
    }
  }

  function NotedAll(raw: Json, origin: string, fields: seq<Field>, fallbacks: seq<Fallback>): seq<Fallback>
    decreases fields
  {
    if fields == [] then fallbacks
    else NotedAll(raw, origin, fields[1..], Noted(raw, fields[0], Says(PartialOf(raw), fields[0]), origin, fallbacks))
  }

  lemma {:induction false} NotedAre(raw: Json, origin: string, fields: seq<Field>, fallbacks: seq<Fallback>,
                                    at: string, f: Field)
    ensures Fallback(at, Some(f)) in NotedAll(raw, origin, fields, fallbacks)
            <==> Fallback(at, Some(f)) in fallbacks || (at == origin && f in fields && IsDropped(raw, f))
    decreases fields
  {
    if fields != [] {
      var noted := Noted(raw, fields[0], Says(PartialOf(raw), fields[0]), origin, fallbacks);
      NotedAre(raw, origin, fields[1..], noted, at, f);
    }
  }

  function KnownKeys(): set<string> {
    {KeyOf(Lower), KeyOf(Upper), KeyOf(Profile), KeyOf(PruneEnabled), KeyOf(PruneThreshold), KeyOf(PruneTarget),
     KeyOf(MinRunway)}
  }

  /** Known are the keys that stand for a field. */
  lemma KnownAreNamed(key: string)
    ensures key in KnownKeys() <==> FieldNamed(key).Some?
  {
    if FieldNamed(key).Some? {
      assert key == KeyOf(FieldNamed(key).value);
    }
  }

  /** Unknown fields are reported without a name. */
  method NoteUnknown(raw: Json, origin: string) returns (fallbacks: seq<Fallback>)
    requires raw.Object?
    ensures forall b :: b in fallbacks ==> b == Fallback(origin, None)
    ensures fallbacks == [] <==> forall k :: k in raw.fields ==> k in KnownKeys()
  {
    fallbacks := [];
    var todo := raw.fields.Keys;
    while todo != {}
      invariant todo <= raw.fields.Keys && forall b :: b in fallbacks ==> b == Fallback(origin, None)
      invariant fallbacks == [] <==> forall k :: k in raw.fields.Keys - todo ==> k in KnownKeys()
    {
      var key :| key in todo;
      assert forall k :: k in raw.fields.Keys - (todo - {key}) <==> k == key || k in raw.fields.Keys - todo;
      if key !in KnownKeys() {
        fallbacks := fallbacks + [Fallback(origin, None)];
      }
      todo := todo - {key};
    }
  }

  const PARSE_ORDER := [PruneEnabled, Lower, Upper, MinRunway, PruneThreshold, PruneTarget, Profile]

  lemma InParseOrder(f: Field)
    ensures f in PARSE_ORDER
  {
    match f
    case Lower =>
    case Upper =>
    case Profile =>
    case PruneEnabled =>
    case PruneThreshold =>
    case PruneTarget =>
    case MinRunway =>
  }

  lemma NotedInOrder(raw: Json, origin: string, noted: seq<Fallback>)
    ensures var p := PartialOf(raw);
            var b1 := Noted(raw, PruneEnabled, p.pruneEnabled.Some?, origin, noted);
            var b2 := Noted(raw, Lower, p.lower.Some?, origin, b1);
            var b3 := Noted(raw, Upper, p.upper.Some?, origin, b2);
            var b4 := Noted(raw, MinRunway, p.minRunway.Some?, origin, b3);
            var b5 := Noted(raw, PruneThreshold, p.pruneThreshold.Some?, origin, b4);
            var b6 := Noted(raw, PruneTarget, p.pruneTarget.Some?, origin, b5);
            NotedAll(raw, origin, PARSE_ORDER, noted) == Noted(raw, Profile, p.profile.Some?, origin, b6)
  {
  }

  method ParseContextPolicyPartial(raw: Json, origin: string) returns (p: Partial, fallbacks: seq<Fallback>)
    ensures p == PartialOf(raw)
    ensures !raw.Object? ==> p == NOTHING && fallbacks == [Fallback(origin, None)]
    ensures forall at, f: Field :: Fallback(at, Some(f)) in fallbacks <==> at == origin && IsDropped(raw, f)
  {
    if !raw.Object? {
      return NOTHING, [Fallback(origin, None)];
    }
    var noted := NoteUnknown(raw, origin);
    fallbacks := noted;
    var enabled, profile := Flag(raw), ProfileName(raw);
    var lower, upper, runway, threshold, target := None, None, None, None, None;
    fallbacks := Noted(raw, PruneEnabled, enabled.Some?, origin, fallbacks);
    lower, fallbacks := TakePosInt(raw, Lower, origin, fallbacks);
    upper, fallbacks := TakePosInt(raw, Upper, origin, fallbacks);
    runway, fallbacks := TakePosInt(raw, MinRunway, origin, fallbacks);
    threshold, fallbacks := TakeNullablePosInt(raw, PruneThreshold, origin, fallbacks);
    target, fallbacks := TakeNullablePosInt(raw, PruneTarget, origin, fallbacks);
    fallbacks := Noted(raw, Profile, profile.Some?, origin, fallbacks);
    p := Partial(lower, upper, profile, enabled, threshold, target, runway);
    NotedInOrder(raw, origin, noted);
    forall at, f: Field ensures Fallback(at, Some(f)) in fallbacks <==> at == origin && IsDropped(raw, f) {
      InParseOrder(f);
      NotedAre(raw, origin, PARSE_ORDER, noted, at, f);
    }
  }

  function Origin(origins: Origins, f: Field): Option<string> {
    if f in origins then Some(origins[f]) else None
  }

  function ResetReport(origins: Origins, f: Field): Fallback {
    Fallback(Origin(origins, f).GetOr("config"), Some(f))
  }

  predicate IsReset(was: Sources, now: Sources, f: Field) {
    f in Configured(was) && f !in Configured(now)
  }

  /** One report for every field that stopped being configured, under the name of the layer it came from. */
  ghost predicate EveryResetReported(was: Sources, now: Sources, origins: Origins, before: seq<Fallback>,
                                     after: seq<Fallback>) {
    && before <= after && |after| - |before| == |Configured(was)| - |Configured(now)|
    && (forall f: Field :: IsReset(was, now, f) ==> ResetReport(origins, f) in after[|before|..])
    && (forall b <- after[|before|..] ::
          b.field.Some? && IsReset(was, now, b.field.value) && b == ResetReport(origins, b.field.value))
  }

  /** The origins of the fields that were not reset. */
  function OriginsLeft(origins: Origins, was: Sources, now: Sources): Origins {
    origins - (Configured(was) - Configured(now))
  }

  lemma ResetsOn(a: Sources, b: Sources, c: Sources, origins: Origins, l: seq<Fallback>, m: seq<Fallback>,
                 n: seq<Fallback>)
    requires EveryResetReported(a, b, origins, l, m) && Configured(c) <= Configured(b) <= Configured(a)
    requires EveryResetReported(b, c, OriginsLeft(origins, a, b), m, n)
    ensures EveryResetReported(a, c, origins, l, n)
    ensures OriginsLeft(OriginsLeft(origins, a, b), b, c) == OriginsLeft(origins, a, c)
  {
    assert n[|l|..] == m[|l|..] + n[|m|..];
    assert forall f: Field :: f in Configured(b) ==>
        ResetReport(OriginsLeft(origins, a, b), f) == ResetReport(origins, f);
  }

  lemma NoResets(s: Sources, origins: Origins, l: seq<Fallback>)
    ensures EveryResetReported(s, s, origins, l, l) && OriginsLeft(origins, s, s) == origins
  {
  }

  lemma OneReset(s: Sources, f: Field, origins: Origins, l: seq<Fallback>)
    requires IsTotal(s) && !s[f].Builtin?
    ensures var t, m := s[f := Builtin], l + [ResetReport(origins, f)];
            EveryResetReported(s, t, origins, l, m) && OriginsLeft(origins, s, t) == origins - {f}
  {
    var t := s[f := Builtin];
    assert Configured(t) == Configured(s) - {f};
    assert (l + [ResetReport(origins, f)])[|l|..] == [ResetReport(origins, f)];
  }

  /** The field agrees with the layer's policy when it was looked at, otherwise with the base. */
  predicate IsTaken(next: Policy, base: Policy, over: Policy, done: seq<Field>, f: Field) {
    Agree(next, if f in done then over else base, f)
  }

  lemma InFields(f: Field)
    ensures f in FIELDS
  {
    match f
    case Lower =>
    case Upper =>
    case Profile =>
    case PruneEnabled =>
    case PruneThreshold =>
    case PruneTarget =>
    case MinRunway =>
  }

  lemma AgreeVia(a: Policy, b: Policy, c: Policy, f: Field)
    requires Agree(a, b, f) && Agree(b, c, f)
    ensures Agree(a, c, f)
  {
    match f
    case Lower =>
    case Upper =>
    case Profile =>
    case PruneEnabled =>
    case PruneThreshold =>
    case PruneTarget =>
    case MinRunway =>
  }

  lemma SilentFieldStays(base: Policy, p: Partial, f: Field)
    requires !Says(p, f)
    ensures Agree(base, Over(base, p), f)
  {
    match f
    case Lower =>
    case Upper =>
    case Profile =>
    case PruneEnabled =>
    case PruneThreshold =>
    case PruneTarget =>
    case MinRunway =>
  }

  /** Taking field f from the layer: f then agrees with the layer's policy, every other field is as before. */
  lemma TakenAgrees(base: Policy, p: Partial, next: Policy, f: Field, g: Field)
    ensures var over := Over(base, p);
            var after := if Says(p, f) then With(next, f, over) else next;
      && (Agree(next, over, g) ==> Agree(after, over, g))
      && (Agree(next, base, g) ==> Agree(after, if g == f then over else base, g))
  {
    var over := Over(base, p);
    if Says(p, f) {
      WithAgrees(next, f, over, g);
      if g != f && Agree(next, over, g) { AgreeVia(With(next, f, over), next, over, g); }
      if g != f && Agree(next, base, g) { AgreeVia(With(next, f, over), next, base, g); }
    } else {
      SilentFieldStays(base, p, f);
      if g == f && Agree(next, base, g) { AgreeVia(next, base, over, g); }
    }
  }

  lemma TakenOneMore(base: Policy, p: Partial, was: Policy, now: Policy, done: seq<Field>, f: Field)
    requires now == if Says(p, f) then With(was, f, Over(base, p)) else was
    requires forall g: Field :: IsTaken(was, base, Over(base, p), done, g)
    ensures forall g: Field :: IsTaken(now, base, Over(base, p), done + [f], g)
  {
    forall g: Field ensures IsTaken(now, base, Over(base, p), done + [f], g) {
      assert IsTaken(was, base, Over(base, p), done, g);
      TakenAgrees(base, p, was, f, g);
    }
  }

  /** Where the field comes from was noted when the layer speaks about it and it was looked at. */
  ghost predicate IsNoted(p: Partial, done: seq<Field>, source: Source, origin: string, sourcesWas: Sources,
                          originsWas: Origins, sources: Sources, origins: Origins, f: Field) {
    && f in sourcesWas && f in sources
    && sources[f] == (if f in done && Says(p, f) then source else sourcesWas[f])
    && Origin(origins, f) == if f in done && Says(p, f) then Some(origin) else Origin(originsWas, f)
  }

  ghost predicate AreNoted(p: Partial, done: seq<Field>, source: Source, origin: string, sourcesWas: Sources,
                           originsWas: Origins, sources: Sources, origins: Origins) {
    forall f: Field :: IsNoted(p, done, source, origin, sourcesWas, originsWas, sources, origins, f)
  }

  lemma NotedOneMore(p: Partial, done: seq<Field>, f: Field, source: Source, origin: string, sourcesWas: Sources,
                     originsWas: Origins, sources: Sources, origins: Origins, sourcesNow: Sources, originsNow: Origins)
    requires AreNoted(p, done, source, origin, sourcesWas, originsWas, sources, origins)
    requires sourcesNow == if Says(p, f) then sources[f := source] else sources
    requires originsNow == if Says(p, f) then origins[f := origin] else origins
    ensures AreNoted(p, done + [f], source, origin, sourcesWas, originsWas, sourcesNow, originsNow)
  {
    forall g: Field ensures IsNoted(p, done + [f], source, origin, sourcesWas, originsWas, sourcesNow, originsNow, g) {
      assert IsNoted(p, done, source, origin, sourcesWas, originsWas, sources, origins, g);
    }
  }

  class Resolution {
    var sources: Sources
    var origins: Origins
    var fallbacks: seq<Fallback>

    constructor ()
      ensures IsTotal(sources) && (forall f: Field :: sources[f].Builtin?) && fallbacks == [] && origins == map[]
    {
      sources := map[Lower := Builtin, Upper := Builtin, Profile := Builtin, PruneEnabled := Builtin,
                     PruneThreshold := Builtin, PruneTarget := Builtin, MinRunway := Builtin];
      origins, fallbacks := map[], [];
      new;
      forall f: Field ensures f in sources && sources[f].Builtin? {
        InFields(f);
      }
    }

    method TakeField(next: Policy, over: Policy, p: Partial, f: Field, source: Source, origin: string)
      returns (more: Policy)
      requires IsTotal(sources)
      modifies `sources, `origins
      ensures IsTotal(sources) && more == if Says(p, f) then With(next, f, over) else next
      ensures sources == if Says(p, f) then old(sources)[f := source] else old(sources)
      ensures origins == if Says(p, f) then old(origins)[f := origin] else old(origins)
    {
      more := next;
      if Says(p, f) {
        more, sources, origins := With(next, f, over), sources[f := source], origins[f := origin];
      }
    }

    /** Takes the layer's fields over the policy, and notes where they came from. */
    method ApplyPartial(base: Policy, p: Partial, source: Source, origin: string) returns (next: Policy)
      requires IsTotal(sources)
      modifies `sources, `origins
      ensures next == Over(base, p) && IsTotal(sources)
      ensures forall f: Field :: sources[f] == if Says(p, f) then source else old(sources)[f]
      ensures forall f: Field :: Origin(origins, f) == if Says(p, f) then Some(origin) else Origin(old(origins), f)
    {
      next := base;
      var over := Over(base, p);
      for k := 0 to |FIELDS|
        invariant IsTotal(sources)
        invariant AreNoted(p, FIELDS[..k], source, origin, old(sources), old(origins), sources, origins)
        invariant forall f: Field :: IsTaken(next, base, over, FIELDS[..k], f)
      {
        ghost var was, sourcesWas, originsWas := next, sources, origins;
        next := TakeField(next, over, p, FIELDS[k], source, origin);
        assert FIELDS[..k + 1] == FIELDS[..k] + [FIELDS[k]];
        NotedOneMore(p, FIELDS[..k], FIELDS[k], source, origin, old(sources), old(origins), sourcesWas, originsWas,
                     sources, origins);
        TakenOneMore(base, p, was, next, FIELDS[..k], FIELDS[k]);
      }
      assert FIELDS[..|FIELDS|] == FIELDS;
      forall f: Field ensures Agree(next, over, f) {
        InFields(f);
        assert IsTaken(next, base, over, FIELDS, f);
      }
      AllAgree(next, over);
      forall f: Field
        ensures sources[f] == if Says(p, f) then source else old(sources)[f]
        ensures Origin(origins, f) == if Says(p, f) then Some(origin) else Origin(old(origins), f)
      {
        InFields(f);
        assert IsNoted(p, FIELDS, source, origin, old(sources), old(origins), sources, origins, f);
      }
    }

    /** A configured field goes back to the built-in value, with a report under its layer's name. */
    method RevertField(policy: Policy, f: Field) returns (next: Policy)
      requires IsTotal(sources)
      modifies this
      ensures IsTotal(sources) && State(next, sources) == RevertedOne(State(policy, old(sources)), f)
      ensures EveryResetReported(old(sources), sources, old(origins), old(fallbacks), fallbacks)
      ensures origins == OriginsLeft(old(origins), old(sources), sources)
    {
      next := policy;
      NoResets(sources, origins, fallbacks);
      if !sources[f].Builtin? {
        OneReset(sources, f, origins, fallbacks);
        next, fallbacks := With(policy, f, BUILTIN), fallbacks + [ResetReport(origins, f)];
        sources, origins := sources[f := Builtin], origins - {f};
      }
    }

    /** The rule's configured fields go back to the built-in values, each with a report. */
    method ApplyRule(policy: Policy, r: Rule) returns (next: Policy, reverted: bool)
      requires IsTotal(sources)
      modifies this
      ensures IsTotal(sources) && State(next, sources) == AfterRule(State(policy, old(sources)), r)
      ensures reverted <==> sources != old(sources)
      ensures EveryResetReported(old(sources), sources, old(origins), old(fallbacks), fallbacks)
      ensures origins == OriginsLeft(old(origins), old(sources), sources)
    {
      next, reverted := policy, false;
      NoResets(sources, origins, fallbacks);
      if !Broken(r, policy) {
        return;
      }
      var fields := RuleFields(r);
      ghost var s := State(policy, sources);
      for k := 0 to |fields|
        invariant IsTotal(sources) && OnlyReverts(s, State(next, sources))
        invariant Reverted(State(next, sources), fields[k..]) == Reverted(s, fields)
        invariant EveryResetReported(s.sources, sources, old(origins), old(fallbacks), fallbacks)
        invariant origins == OriginsLeft(old(origins), s.sources, sources)
        invariant reverted <==> sources != s.sources
      {
        var f := fields[k];
        ghost var t := State(next, sources);
        assert fields[k..][1..] == fields[k + 1..] && fields[k..][0] == f;
        ghost var reports := fallbacks;
        RevertedOneOnly(t, f);
        OnlyRevertsOn(s, t, RevertedOne(t, f));
        RevertingReduces(s, t);
        RevertingReduces(t, RevertedOne(t, f));
        reverted := reverted || !sources[f].Builtin?;
        next := RevertField(next, f);
        ResetsOn(s.sources, t.sources, sources, old(origins), old(fallbacks), reports, fallbacks);
      }
    }
  }

  function LayerOf(read: FileRead): Partial {
    if read.Content? then PartialOf(read.raw) else NOTHING
  }

  /** The layer gives the field a value that is not taken. */
  predicate Drops(read: FileRead, f: Field) {
    read.Content? && IsDropped(read.raw, f)
  }

  method MergeFile(res: Resolution, base: Policy, read: FileRead, origin: string, source: Source) returns (next: Policy)
    requires IsTotal(res.sources)
    modifies res
    ensures IsTotal(res.sources) && next == Over(base, LayerOf(read))
    ensures forall f: Field :: res.sources[f] == if Says(LayerOf(read), f) then source else old(res.sources)[f]
    ensures forall f: Field ::
              Origin(res.origins, f) == if Says(LayerOf(read), f) then Some(origin) else Origin(old(res.origins), f)
    ensures forall at, f: Field :: Fallback(at, Some(f)) in res.fallbacks <==>
              Fallback(at, Some(f)) in old(res.fallbacks) || (at == origin && Drops(read, f))
  {
    match read
    case Absent => next := base;
    case Unreadable =>
      res.fallbacks := res.fallbacks + [Fallback(origin, None)];
      next := base;
    case Content(raw) =>
      var p, fallbacks := ParseContextPolicyPartial(raw, origin);
      res.fallbacks := res.fallbacks + fallbacks;
      next := res.ApplyPartial(base, p, source, origin);
  }

  method OnePass(res: Resolution, policy: Policy) returns (next: Policy, reverted: bool)
    requires IsTotal(res.sources)
    modifies res
    ensures IsTotal(res.sources) && State(next, res.sources) == AfterPass(State(policy, old(res.sources)))
    ensures reverted <==> res.sources != old(res.sources)
    ensures EveryResetReported(old(res.sources), res.sources, old(res.origins), old(res.fallbacks), res.fallbacks)
    ensures res.origins == OriginsLeft(old(res.origins), old(res.sources), res.sources)
  {
    next, reverted := policy, false;
    ghost var s := State(policy, res.sources);
    for k := 0 to |RULES|
      invariant IsTotal(res.sources) && OnlyReverts(s, State(next, res.sources))
      invariant AfterRules(State(next, res.sources), RULES[k..]) == AfterPass(s)
      invariant reverted <==> res.sources != s.sources
      invariant EveryResetReported(s.sources, res.sources, old(res.origins), old(res.fallbacks), res.fallbacks)
      invariant res.origins == OriginsLeft(old(res.origins), s.sources, res.sources)
    {
      ghost var t := State(next, res.sources);
      assert RULES[k..][1..] == RULES[k + 1..] && RULES[k..][0] == RULES[k];
      ghost var origins, fallbacks := res.origins, res.fallbacks;
      var now;
      next, now := res.ApplyRule(next, RULES[k]);
      reverted := reverted || now;
      RevertedOnly(t, RuleFields(RULES[k]));
      OnlyRevertsOn(s, t, State(next, res.sources));
      RevertingReduces(s, t);
      RevertingReduces(t, State(next, res.sources));
      ResetsOn(s.sources, t.sources, res.sources, old(res.origins), old(res.fallbacks), fallbacks, res.fallbacks);
    }
  }

  /** Reverts rule by rule, pass by pass, until a pass reverts nothing. */
  method SettleCoherence(res: Resolution, policy: Policy) returns (next: Policy)
    requires BuiltinHolds(State(policy, res.sources))
    modifies res
    ensures var s, later := State(policy, old(res.sources)), State(next, res.sources);
            later == AfterPasses(s, |FIELDS| + 1) && OnlyReverts(s, later)
    ensures Coherent(next) && BuiltinHolds(State(next, res.sources))
    ensures EveryResetReported(old(res.sources), res.sources, old(res.origins), old(res.fallbacks), res.fallbacks)
    ensures res.origins == OriginsLeft(old(res.origins), old(res.sources), res.sources)
  {
    ghost var s := State(policy, res.sources);
    var passes := |FIELDS| + 1;
    BoundIsEnough(s);
    PassesOnlyRevert(s, passes);
    next := policy;
    NoResets(s.sources, res.origins, res.fallbacks);
    for pass := 0 to passes
      invariant IsTotal(res.sources) && Configured(res.sources) <= Configured(s.sources)
      invariant AfterPasses(State(next, res.sources), passes - pass) == AfterPasses(s, passes)
      invariant EveryResetReported(s.sources, res.sources, old(res.origins), old(res.fallbacks), res.fallbacks)
      invariant res.origins == OriginsLeft(old(res.origins), s.sources, res.sources)
    {
      ghost var t, origins, fallbacks := State(next, res.sources), res.origins, res.fallbacks;
      var after, reverted := OnePass(res, next);
      RulesOnlyRevert(t, RULES);
      RevertingReduces(t, State(after, res.sources));
      ResetsOn(s.sources, t.sources, res.sources, old(res.origins), old(res.fallbacks), fallbacks, res.fallbacks);
      next := after;
      if !reverted {
        QuietPassesStay(t, passes - pass);
        return;
      }
    }
  }

  lemma PartialsAreValid(base: Policy, raw: Json)
    requires FieldsValid(base)
    ensures FieldsValid(Over(base, PartialOf(raw)))
  {
  }

  lemma LayerStaysValid(base: Policy, read: FileRead)
    requires FieldsValid(base)
    ensures FieldsValid(Over(base, LayerOf(read)))
  {
    if read.Content? {
      PartialsAreValid(base, read.raw);
    }
  }

  /** What the three layers gave when they were read. */
  datatype Layers = Layers(user: FileRead, project: FileRead, session: FileRead)

  function NameOf(layer: Source): string {
    match layer
    case Builtin => "config"
    case User => "user config"
    case Project => "project config"
    case Session => "session overrides"
  }

  function ReadOf(layers: Layers, layer: Source): FileRead {
    match layer
    case Builtin => Absent
    case User => layers.user
    case Project => layers.project
    case Session => layers.session
  }

  /** What the layers say together, before anything is reverted. */
  function Layered(layers: Layers): Policy {
    Over(Over(Over(BUILTIN, LayerOf(layers.user)), LayerOf(layers.project)), LayerOf(layers.session))
  }

  /** The topmost layer that says something about the field. */
  function TopLayer(layers: Layers, f: Field): Source {
    if Says(LayerOf(layers.session), f) then Session
    else if Says(LayerOf(layers.project), f) then Project
    else if Says(LayerOf(layers.user), f) then User
    else Builtin
  }

  /** A field no layer speaks about holds the built-in value. */
  lemma UnsaidIsBuiltin(layers: Layers, f: Field)
    requires TopLayer(layers, f).Builtin?
    ensures Agree(Layered(layers), BUILTIN, f)
  {
    match f
    case Lower =>
    case Upper =>
    case Profile =>
    case PruneEnabled =>
    case PruneThreshold =>
    case PruneTarget =>
    case MinRunway =>
  }

  lemma LayeredState(layers: Layers, s: State)
    requires s.policy == Layered(layers) && IsTotal(s.sources) && forall f: Field :: s.sources[f] == TopLayer(layers, f)
    ensures BuiltinHolds(s) && FieldsValid(s.policy)
  {
    forall f: Field | s.sources[f].Builtin? ensures Agree(s.policy, BUILTIN, f) {
      UnsaidIsBuiltin(layers, f);
    }
    LayerStaysValid(BUILTIN, layers.user);
    LayerStaysValid(Over(BUILTIN, LayerOf(layers.user)), layers.project);
    LayerStaysValid(Over(Over(BUILTIN, LayerOf(layers.user)), LayerOf(layers.project)), layers.session);
  }

  lemma RevertsStayValid(s: State, later: State)
    requires FieldsValid(s.policy) && OnlyReverts(s, later)
    ensures FieldsValid(later.policy)
  {
    forall f: Field ensures Agree(later.policy, s.policy, f) || Agree(later.policy, BUILTIN, f) {
    }
    assert Agree(later.policy, s.policy, Lower) || Agree(later.policy, BUILTIN, Lower);
    assert Agree(later.policy, s.policy, Upper) || Agree(later.policy, BUILTIN, Upper);
    assert Agree(later.policy, s.policy, Profile) || Agree(later.policy, BUILTIN, Profile);
    assert Agree(later.policy, s.policy, PruneThreshold) || Agree(later.policy, BUILTIN, PruneThreshold);
    assert Agree(later.policy, s.policy, PruneTarget) || Agree(later.policy, BUILTIN, PruneTarget);
    assert Agree(later.policy, s.policy, MinRunway) || Agree(later.policy, BUILTIN, MinRunway);
  }

  /** Where the fields come from, and the reports that name one, once the layers were merged. */
  ghost predicate IsMerged(layers: Layers, sources: Sources, origins: Origins, fallbacks: seq<Fallback>) {
    && IsTotal(sources) && (forall f: Field :: sources[f] == TopLayer(layers, f))
    && (forall f: Field :: !sources[f].Builtin? ==> Origin(origins, f) == Some(NameOf(sources[f])))
    && forall layer: Source, f: Field ::
         Fallback(NameOf(layer), Some(f)) in fallbacks <==> Drops(ReadOf(layers, layer), f)
  }

  lemma NamesDiffer(a: Source, b: Source)
    ensures NameOf(a) == NameOf(b) <==> a == b
  {
  }

  /** The second holds the layer too, and nothing above it. */
  ghost predicate HoldsOneMore(layers: Layers, more: Layers, layer: Source) {
    && layers.session.Absent?
    && match layer
       case Builtin => false
       case User => layers.user.Absent? && layers.project.Absent? && more == layers.(user := more.user)
       case Project => layers.project.Absent? && more == layers.(project := more.project)
       case Session => more == layers.(session := more.session)
  }

  lemma OneMoreLayer(layers: Layers, more: Layers, layer: Source, f: Field, l: Source)
    requires HoldsOneMore(layers, more, layer)
    ensures TopLayer(more, f) == if Says(LayerOf(ReadOf(more, layer)), f) then layer else TopLayer(layers, f)
    ensures ReadOf(layers, layer) == Absent && (l != layer ==> ReadOf(more, l) == ReadOf(layers, l))
  {
  }

  lemma MergedOneMore(layers: Layers, more: Layers, layer: Source, sources: Sources, origins: Origins,
                      fallbacks: seq<Fallback>, sourcesNow: Sources, originsNow: Origins, fallbacksNow: seq<Fallback>)
    requires IsMerged(layers, sources, origins, fallbacks) && IsTotal(sourcesNow) && HoldsOneMore(layers, more, layer)
    requires forall f: Field ::
               sourcesNow[f] == if Says(LayerOf(ReadOf(more, layer)), f) then layer else sources[f]
    requires forall f: Field ::
               Origin(originsNow, f)
               == if Says(LayerOf(ReadOf(more, layer)), f) then Some(NameOf(layer)) else Origin(origins, f)
    requires forall at, f: Field :: Fallback(at, Some(f)) in fallbacksNow <==>
               Fallback(at, Some(f)) in fallbacks || (at == NameOf(layer) && Drops(ReadOf(more, layer), f))
    ensures IsMerged(more, sourcesNow, originsNow, fallbacksNow)
  {
    forall f: Field
      ensures sourcesNow[f] == TopLayer(more, f)
      ensures !sourcesNow[f].Builtin? ==> Origin(originsNow, f) == Some(NameOf(sourcesNow[f]))
    {
      OneMoreLayer(layers, more, layer, f, layer);
    }
    forall l: Source, f: Field
      ensures Fallback(NameOf(l), Some(f)) in fallbacksNow <==> Drops(ReadOf(more, l), f)
    {
      NamesDiffer(l, layer);
      OneMoreLayer(layers, more, layer, f, l);
    }
  }

  /** The layers one over the other, each field noted under the topmost that speaks about it. */
  method MergeLayers(res: Resolution, layers: Layers) returns (policy: Policy)
    requires IsMerged(Layers(Absent, Absent, Absent), res.sources, res.origins, res.fallbacks)
    modifies res
    ensures policy == Layered(layers) && IsMerged(layers, res.sources, res.origins, res.fallbacks)
  {
    ghost var none := Layers(Absent, Absent, Absent);
    ghost var s, o, b := res.sources, res.origins, res.fallbacks;
    policy := MergeFile(res, BUILTIN, layers.user, "user config", User);
    MergedOneMore(none, none.(user := layers.user), User, s, o, b, res.sources, res.origins, res.fallbacks);
    s, o, b := res.sources, res.origins, res.fallbacks;
    policy := MergeFile(res, policy, layers.project, "project config", Project);
    MergedOneMore(none.(user := layers.user), layers.(session := Absent), Project, s, o, b,
                  res.sources, res.origins, res.fallbacks);
    s, o, b := res.sources, res.origins, res.fallbacks;
    policy := MergeFile(res, policy, layers.session, "session overrides", Session);
    MergedOneMore(layers.(session := Absent), layers, Session, s, o, b, res.sources, res.origins, res.fallbacks);
  }

  /** A report names the field for a value not taken, or for a field its topmost layer lost. */
  predicate IsReported(layers: Layers, sources: Sources, layer: Source, f: Field) {
    Drops(ReadOf(layers, layer), f) || (TopLayer(layers, f) == layer && f in sources && sources[f].Builtin?)
  }

  lemma ReportsAre(layers: Layers, was: Sources, now: Sources, origins: Origins, before: seq<Fallback>,
                   after: seq<Fallback>, layer: Source, f: Field)
    requires IsMerged(layers, was, origins, before) && IsTotal(now) && !layer.Builtin?
    requires EveryResetReported(was, now, origins, before, after)
    ensures Fallback(NameOf(layer), Some(f)) in after <==> IsReported(layers, now, layer, f)
  {
    var report := Fallback(NameOf(layer), Some(f));
    assert after == before + after[|before|..];
    NamesDiffer(layer, was[f]);
    if report in after[|before|..] {
      assert IsReset(was, now, f) && report == ResetReport(origins, f);
    }
    if was[f] == layer && now[f].Builtin? {
      assert IsReset(was, now, f) && report == ResetReport(origins, f);
    }
  }

  /** What a settled policy keeps of its layers: a field's topmost value, or the built-in one. */
  ghost predicate IsResolved(layers: Layers, policy: Policy, sources: Sources, f: Field) {
    && f in sources
    && (|| (sources[f] == TopLayer(layers, f) && Agree(policy, Layered(layers), f))
        || (sources[f].Builtin? && Agree(policy, BUILTIN, f) && !FitsTogether(Layered(layers))))
  }

  lemma SettledIsResolved(layers: Layers, s: State, later: State)
    requires s.policy == Layered(layers) && IsTotal(s.sources) && forall f: Field :: s.sources[f] == TopLayer(layers, f)
    requires later == AfterPasses(s, |FIELDS| + 1) && OnlyReverts(s, later)
    ensures forall f: Field :: IsResolved(layers, later.policy, later.sources, f)
  {
    LayeredState(layers, s);
    CoherentIff(s.policy);
    QuietPassIffCoherent(s);
    if Coherent(s.policy) {
      QuietPassesStay(s, |FIELDS| + 1);
    }
  }

  method LoadContextPolicy(user: FileRead, project: FileRead, session: Option<Json>)
    returns (policy: Policy, res: Resolution)
    ensures FieldsValid(policy) && FitsTogether(policy) && BuiltinHolds(State(policy, res.sources))
    ensures var layers := Layers(user, project, if session.Some? then Content(session.value) else Absent);
      && (forall f: Field :: IsResolved(layers, policy, res.sources, f))
      && forall layer: Source, f: Field :: !layer.Builtin? ==>
           (Fallback(NameOf(layer), Some(f)) in res.fallbacks <==> IsReported(layers, res.sources, layer, f))
  {
    res := new Resolution();
    var layers := Layers(user, project, if session.Some? then Content(session.value) else Absent);
    policy := MergeLayers(res, layers);
    ghost var s, origins, fallbacks := State(policy, res.sources), res.origins, res.fallbacks;
    LayeredState(layers, s);
    policy := SettleCoherence(res, policy);
    RevertsStayValid(s, State(policy, res.sources));
    CoherentIff(policy);
    SettledIsResolved(layers, s, State(policy, res.sources));
    forall layer: Source, f: Field | !layer.Builtin?
      ensures Fallback(NameOf(layer), Some(f)) in res.fallbacks <==> IsReported(layers, res.sources, layer, f)
    {
      ReportsAre(layers, s.sources, res.sources, origins, fallbacks, res.fallbacks, layer, f);
    }
  }
}
