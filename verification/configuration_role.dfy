/**
 The role a dependency configuration plays during dependency resolution.

 The role set is a closed Java enum with two constants. Each constant is built
 by the enum's constructor from a description and one capability flag, which
 it keeps in two final fields read back by two getters. Besides those getters
 the model covers the members every Java enum carries implicitly (section 8.9.3
 of the Java Language Specification): `values()`, `name()` and `valueOf(String)`.
 */
module ConfigurationRoles {

  /** The two enum constants, in declaration order. */
  datatype ConfigurationRole = ForSelection | ForResolution

  /** What the enum constructor stores: its two final fields. */
  datatype RoleFields = RoleFields(description: string, canBeUsedInSelection: bool)

  /** Why `valueOf` refused a name: the `IllegalArgumentException` of the
      Java Language Specification, carrying the name that matched no constant. */
  datatype ValueOfError = NoEnumConstant(name: string)

  datatype Result<+T, +E> = Success(value: T) | Failure(error: E)

  const SelectionDescription: string := "For selection in dependency resolution"
  const ResolutionDescription: string := "For resolution"

  /** The constructor call written in each constant's declaration: the
      fields it stores are the literal arguments of that call. */
  function Declaration(r: ConfigurationRole): (f: RoleFields)
    ensures r == ForSelection ==> f.description == "For selection in dependency resolution"
    ensures r == ForResolution ==> f.description == "For resolution"
    ensures f.canBeUsedInSelection <==> r == ForSelection
  {
    match r
    case ForSelection => RoleFields(SelectionDescription, true)
    case ForResolution => RoleFields(ResolutionDescription, false)
  }

  /** `getDescription()`: the description the constant was constructed with. */
  function Description(r: ConfigurationRole): (d: string)
    ensures r == ForSelection ==> d == "For selection in dependency resolution"
    ensures r == ForResolution ==> d == "For resolution"
    ensures |d| > 0
  {
    Declaration(r).description
  }

  /** `canBeUsedInSelection()`: the capability flag the constant was
      constructed with. Selection is allowed for exactly one role. */
  function CanBeUsedInSelection(r: ConfigurationRole): (b: bool)
    ensures b <==> r == ForSelection
  {
    Declaration(r).canBeUsedInSelection
  }

  /** The implicit `values()`: every constant, once, in declaration order. */
  function Values(): (vs: seq<ConfigurationRole>)
    ensures |vs| == 2
    ensures vs[0] == ForSelection && vs[1] == ForResolution
    ensures forall r: ConfigurationRole :: r in vs
    ensures forall i, j :: 0 <= i < j < |vs| ==> vs[i] != vs[j]
  {
    var vs := [ForSelection, ForResolution];
    // Every role is one of the two declared constants, hence listed.
    assert forall r: ConfigurationRole :: (r.ForSelection? || r.ForResolution?) && r in vs;
    vs
  }

  /** The implicit `name()`: the identifier of the constant's declaration. */
  function Name(r: ConfigurationRole): (n: string)
    ensures n == "FOR_SELECTION" <==> r == ForSelection
    ensures n == "FOR_RESOLUTION" <==> r == ForResolution
  {
    match r
    case ForSelection => "FOR_SELECTION"
    case ForResolution => "FOR_RESOLUTION"
  }

  /** The name-to-constant directory `valueOf` consults, filled by putting each
      constant of `roles` under its name, from first to last. */
  function Directory(roles: seq<ConfigurationRole>): (m: map<string, ConfigurationRole>)
    ensures m.Keys == set r | r in roles :: Name(r)
    ensures forall n :: n in m ==> m[n] in roles && Name(m[n]) == n
  {
    if |roles| == 0 then map[]
    else
      var last := roles[|roles| - 1];
      var prefix := roles[..|roles| - 1];
      assert roles == prefix + [last];
      Directory(prefix)[Name(last) := last]
  }

  /** The implicit `valueOf(String)`: the constant whose name is exactly
      `name`, or the failure the Java Language Specification requires when
      there is none. */
  function ValueOf(name: string): (res: Result<ConfigurationRole, ValueOfError>)
    ensures res.Success? <==> exists r: ConfigurationRole :: Name(r) == name
    ensures res.Success? ==> Name(res.value) == name
    ensures res.Failure? ==> res.error == NoEnumConstant(name)
  {
    var directory := Directory(Values());
    if name in directory then Success(directory[name]) else Failure(NoEnumConstant(name))
  }

  /** Two constants share a name only if they are the same constant. */
  lemma NameInjective(a: ConfigurationRole, b: ConfigurationRole)
    ensures Name(a) == Name(b) <==> a == b
  {
  }

  /** `valueOf` inverts `name` on every constant. */
  lemma NameRoundTrip(r: ConfigurationRole)
    ensures ValueOf(Name(r)) == Success(r)
  {
  }

  /** `valueOf(s)` yields `r` exactly when `s` is the name of `r`: both
      round trips between names and constants at once. */
  lemma ValueOfRoundTrip(s: string, r: ConfigurationRole)
    ensures ValueOf(s) == Success(r) <==> Name(r) == s
  {
  }

  /** Exactly the two declared identifiers are accepted; any other string,
      including a differently cased one, fails instead of defaulting. */
  lemma ValueOfAcceptsExactlyDeclaredNames(name: string)
    ensures ValueOf(name).Success? <==> name == "FOR_SELECTION" || name == "FOR_RESOLUTION"
    ensures name == "FOR_SELECTION" ==> ValueOf(name) == Success(ForSelection)
    ensures name == "FOR_RESOLUTION" ==> ValueOf(name) == Success(ForResolution)
  {
  }

  /** Descriptions tell the roles apart. */
  lemma DescriptionInjective(a: ConfigurationRole, b: ConfigurationRole)
    ensures Description(a) == Description(b) <==> a == b
  {
  }

  /** Among all declared roles, the ones allowed in selection are exactly
      `FOR_SELECTION`. */
  lemma ExactlyOneSelectableRole()
    ensures (set r | r in Values() && CanBeUsedInSelection(r)) == {ForSelection}
    ensures |set r | r in Values() && CanBeUsedInSelection(r)| == 1
  {
  }
}
