/**
 * The access-level translator of `LombokProcessorUtil`: Lombok `AccessLevel` names to the
 * host's access modifiers, the host's integer access codes back to `AccessLevel`, and the
 * rendering of `onX` annotation lists.
 */
module LombokProcessorUtil {

  import opened Wrappers
  import opened Lombok
  import opened Psi

  // ---------------------------------------------------------------------------------------
  // Reference definitions
  // ---------------------------------------------------------------------------------------

  /**
   * The modifier each access level stands for: MODULE and PACKAGE are both Java's default
   * (package-private) access, section 6.6.1 of the Java Language Specification; NONE asks for
   * no member at all, so it has no modifier.
   */
  function ModifierFor(l: AccessLevel): Option<Modifier> {
    match l
    case PUBLIC => Some(Public)
    case MODULE => Some(PackageLocal)
    case PROTECTED => Some(Protected)
    case PACKAGE => Some(PackageLocal)
    case PRIVATE => Some(Private)
    case NONE => None
  }

  /** The names of the levels that have a modifier: every constant but NONE. */
  const VisibleNames: set<string> := {"PUBLIC", "MODULE", "PROTECTED", "PACKAGE", "PRIVATE"}

  // ---------------------------------------------------------------------------------------
  // The static tables
  // ---------------------------------------------------------------------------------------

  /**
   * `ACCESS_LEVEL_MAP`: the host's access codes to access levels, filled by four `put`s in
   * declaration order.
   */
  function AccessLevelMap(codes: AccessCodes): (m: map<int, AccessLevel>)
    ensures m.Keys == {codes.publicCode, codes.packageLocalCode, codes.protectedCode, codes.privateCode}
    ensures forall code :: code in m ==> m[code] != MODULE && m[code] != NONE
    ensures codes.Distinct() ==>
      && m[codes.publicCode] == PUBLIC && m[codes.packageLocalCode] == PACKAGE
      && m[codes.protectedCode] == PROTECTED && m[codes.privateCode] == PRIVATE
  {
    map[codes.publicCode := PUBLIC]
       [codes.packageLocalCode := PACKAGE]
       [codes.protectedCode := PROTECTED]
       [codes.privateCode := PRIVATE]
  }

  /**
   * The initial `VALUE_ACCESS_LEVEL_MAP`: every constant of `values()` keyed by its name.
   * `Collectors.toMap` throws on a repeated key; the comprehension is well defined only
   * because no two constants share a name, so the collection cannot throw.
   */
  function NameTable(): (m: map<string, AccessLevel>)
    ensures forall l :: Name(l) in m && m[Name(l)] == l
    ensures forall k :: k in m ==> Name(m[k]) == k
  {
    NamesIdentifyLevels();
    map l | l in Values :: Name(l) := l
  }

  lemma NamesIdentifyLevels()
    ensures forall l1, l2 :: Name(l1) == Name(l2) ==> l1 == l2
  {
  }

  // ---------------------------------------------------------------------------------------
  // Level names to modifiers
  // ---------------------------------------------------------------------------------------

  /**
   * `convertAccessLevelToJavaModifier`: an absent or empty level is public; the five visible
   * names give their modifier, compared case-sensitively; "NONE" and every other string give
   * no modifier.
   */
  function ConvertAccessLevelToJavaModifier(value: Option<string>): (r: Option<Modifier>)
    ensures value.None? || value == Some("") ==> r == Some(Public)
    ensures forall l :: value == Some(Name(l)) ==> r == ModifierFor(l)
    ensures value.Some? && value.value != "" && LevelNamed(value.value).None? ==> r.None?
  {
    if value.None? || value.value == "" then Some(Public)
    else if value.value == "PUBLIC" then Some(Public)
    else if value.value == "MODULE" then Some(PackageLocal)
    else if value.value == "PROTECTED" then Some(Protected)
    else if value.value == "PACKAGE" then Some(PackageLocal)
    else if value.value == "PRIVATE" then Some(Private)
    else if value.value == "NONE" then None
    else None
  }

  /** `getLevelVisibility(psiAnnotation, parameter)`: converts the string value of `parameter`. */
  function LevelVisibilityOf(a: Annotation, parameter: string): (r: Option<Modifier>)
    ensures parameter !in a.attributes ==> r == Some(Public)
    ensures r == ConvertAccessLevelToJavaModifier(StringAnnotationValue(a, parameter))
  {
    ConvertAccessLevelToJavaModifier(StringAnnotationValue(a, parameter))
  }

  /** `getMethodModifier`: the modifier named by the `value` attribute, public without one. */
  function GetMethodModifier(a: Annotation): (r: Option<Modifier>)
    ensures "value" !in a.attributes ==> r == Some(Public)
    ensures r == ConvertAccessLevelToJavaModifier(StringAnnotationValue(a, "value"))
  {
    LevelVisibilityOf(a, "value")
  }

  /** `getAccessVisibility`: the modifier named by the `access` attribute, public without one. */
  function GetAccessVisibility(a: Annotation): (r: Option<Modifier>)
    ensures "access" !in a.attributes ==> r == Some(Public)
    ensures r == ConvertAccessLevelToJavaModifier(StringAnnotationValue(a, "access"))
  {
    LevelVisibilityOf(a, "access")
  }

  /** `getLevelVisibility(psiAnnotation)`: the modifier named by the `level` attribute, public without one. */
  function GetLevelVisibility(a: Annotation): (r: Option<Modifier>)
    ensures "level" !in a.attributes ==> r == Some(Public)
    ensures r == ConvertAccessLevelToJavaModifier(StringAnnotationValue(a, "level"))
  {
    LevelVisibilityOf(a, "level")
  }

  /**
   * `isLevelVisible`: the `level` attribute is absent, empty or one of the five visible names,
   * which is exactly when the conversion yields a modifier.
   */
  function IsLevelVisible(a: Annotation): (r: bool)
    ensures var v := StringAnnotationValue(a, "level");
      r <==> v.None? || v.value == "" || v.value in VisibleNames
    ensures r <==> GetLevelVisibility(a).Some?
  {
    var v := StringAnnotationValue(a, "level");
    if v.Some? then VisibleNamesConvert(v.value); GetLevelVisibility(a) != None
    else GetLevelVisibility(a) != None
  }

  /** A string names a visible level exactly when it converts to a modifier, "" aside. */
  lemma VisibleNamesConvert(s: string)
    ensures s != "" ==> (s in VisibleNames <==> ConvertAccessLevelToJavaModifier(Some(s)).Some?)
  {
  }

  // ---------------------------------------------------------------------------------------
  // Level names to levels
  // ---------------------------------------------------------------------------------------

  /**
   * What `getAccessLevel` returns for an attribute value: the constant of that name, and NONE
   * for an absent attribute and for any string that names no constant, "" included.
   */
  function AccessLevelOf(value: Option<string>): (r: AccessLevel)
    ensures value.None? ==> r == NONE
    ensures forall l :: value == Some(Name(l)) ==> r == l
    ensures value.Some? && LevelNamed(value.value).None? ==> r == NONE
  {
    LevelNamed(value.GetOr(Name(NONE))).GetOr(NONE)
  }

  /** The key `getAccessLevel` looks up: `StringUtil.notNullize(value, AccessLevel.NONE.name())`. */
  function LookupKey(value: Option<string>): (key: string)
    ensures value.Some? ==> key == value.value
    ensures value.None? ==> key == "NONE"
  {
    value.GetOr(Name(NONE))
  }

  /**
   * The static `VALUE_ACCESS_LEVEL_MAP`, which `getAccessLevel` grows through `computeIfAbsent`.
   * Its invariant: every constant's name is a key, and every key is mapped to the level its
   * string denotes (NONE for the strings memoised as unknown).
   */
  class ValueAccessLevelMap {
    var entries: map<string, AccessLevel>

    ghost predicate Valid()
      reads this
    {
      && (forall l :: Name(l) in entries)
      && (forall k :: k in entries ==> entries[k] == AccessLevelOf(Some(k)))
    }

    /** The static initialiser: the names of `values()`, collected into a map. */
    constructor ()
      ensures Valid()
      ensures entries == NameTable()
    {
      entries := NameTable();
    }

    /**
     * `getAccessLevel(psiAnnotation, parameter)`. The result is the level the attribute names
     * whatever the memo holds; the memo gains at most the queried key, mapped to NONE, and keeps
     * every entry it had.
     */
    method GetAccessLevel(a: Annotation, parameter: string) returns (level: AccessLevel)
      requires Valid()
      modifies this
      ensures Valid()
      ensures level == AccessLevelOf(StringAnnotationValue(a, parameter))
      ensures var key := LookupKey(StringAnnotationValue(a, parameter));
        && entries.Keys == old(entries).Keys + {key}
        && (key !in old(entries) ==> entries[key] == NONE)
      ensures forall k :: k in old(entries) ==> entries[k] == old(entries)[k]
    {
      var key := LookupKey(StringAnnotationValue(a, parameter));
      if key !in entries {
        entries := entries[key := NONE];
      }
      level := entries[key];
    }
  }

  /**
   * Two lookups of the same attribute agree with each other and with a fresh table: both give
   * the level the attribute names, and the repeat adds nothing to what the first one memoised.
   */
  method RepeatedAccessLevelLookups(table: ValueAccessLevelMap, a: Annotation, parameter: string)
    returns (first: AccessLevel, second: AccessLevel)
    requires table.Valid()
    modifies table
    ensures table.Valid()
    ensures first == second == AccessLevelOf(StringAnnotationValue(a, parameter))
    ensures var key := LookupKey(StringAnnotationValue(a, parameter));
      table.entries == if key in old(table.entries) then old(table.entries) else old(table.entries)[key := NONE]
  {
    first := table.GetAccessLevel(a, parameter);
    ghost var memoised := table.entries;
    second := table.GetAccessLevel(a, parameter);
    assert table.entries == memoised;
  }

  // ---------------------------------------------------------------------------------------
  // Access codes back to levels
  // ---------------------------------------------------------------------------------------

  /**
   * The value string `createAnnotationWithAccessLevel` gives the new annotation: "" without a
   * modifier list, for a code the map does not know, and for PUBLIC (Lombok's default);
   * otherwise the qualified constant `lombok.AccessLevel.<NAME>`.
   */
  function AccessLevelValue(codes: AccessCodes, accessCode: Option<int>): (value: string)
    ensures codes.Distinct() ==>
      (value == "" <==> accessCode.None? || !codes.IsCode(accessCode.value) || accessCode.value == codes.publicCode)
    ensures value != "" ==>
      && accessCode.Some? && accessCode.value in AccessLevelMap(codes)
      && value == "lombok.AccessLevel." + Name(AccessLevelMap(codes)[accessCode.value])
  {
    if accessCode.Some? && accessCode.value in AccessLevelMap(codes)
       && AccessLevelMap(codes)[accessCode.value] != PUBLIC
    then ClassName + "." + Name(AccessLevelMap(codes)[accessCode.value])
    else ""
  }

  /**
   * The value computation of `createAnnotationWithAccessLevel`. `modifierListAccessCode` is
   * `None` when the owner has no modifier list, and otherwise the code `PsiUtil.getAccessLevel`
   * reports for that list.
   */
  method CreateAnnotationWithAccessLevel(codes: AccessCodes, modifierListAccessCode: Option<int>)
    returns (value: string)
    ensures value == AccessLevelValue(codes, modifierListAccessCode)
  {
    value := "";
    if modifierListAccessCode.Some? {
      var accessLevelCode := modifierListAccessCode.value;
      var table := AccessLevelMap(codes);
      if accessLevelCode in table {
        var accessLevel := table[accessLevelCode];
        if accessLevel != PUBLIC {
          value := ClassName + "." + Name(accessLevel);
        }
      }
    }
  }

  // ---------------------------------------------------------------------------------------
  // onX lists
  // ---------------------------------------------------------------------------------------

  /**
   * `getOnX`: nothing when the attribute is not an annotation; otherwise one string per nested
   * annotation, in order, its simple name followed by its parameter-list text.
   */
  method GetOnX(a: Annotation, parameterName: string) returns (annotationStrings: seq<string>)
    ensures !(parameterName in a.attributes && a.attributes[parameterName].AnnotationValue?) ==>
      annotationStrings == []
    ensures parameterName in a.attributes && a.attributes[parameterName].AnnotationValue? ==>
      var annotations := a.attributes[parameterName].values;
      && |annotationStrings| == |annotations|
      && forall i :: 0 <= i < |annotations| ==>
           annotationStrings[i] == annotations[i].simpleName + annotations[i].parameterListText
  {
    if !(parameterName in a.attributes && a.attributes[parameterName].AnnotationValue?) {
      return [];
    }
    var annotations := a.attributes[parameterName].values;
    annotationStrings := [];
    for n := 0 to |annotations|
      invariant |annotationStrings| == n
      invariant forall i :: 0 <= i < n ==>
        annotationStrings[i] == annotations[i].simpleName + annotations[i].parameterListText
    {
      var annotation := annotations[n];
      annotationStrings := annotationStrings + [annotation.simpleName + annotation.parameterListText];
    }
  }
}
