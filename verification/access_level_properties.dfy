/** Properties of the access-level translator that relate several of its operations. */
module AccessLevelProperties {

  import opened Wrappers
  import opened Lombok
  import opened Psi
  import opened LombokProcessorUtil

  /** The conversion table, name by name; the comparison is case-sensitive. */
  lemma ConversionTable()
    ensures ConvertAccessLevelToJavaModifier(Some("PUBLIC")) == Some(Public)
    ensures ConvertAccessLevelToJavaModifier(Some("PROTECTED")) == Some(Protected)
    ensures ConvertAccessLevelToJavaModifier(Some("PRIVATE")) == Some(Private)
    ensures ConvertAccessLevelToJavaModifier(Some("MODULE")) == Some(PackageLocal)
    ensures ConvertAccessLevelToJavaModifier(Some("PACKAGE")) == Some(PackageLocal)
    ensures ConvertAccessLevelToJavaModifier(Some("NONE")) == None
    ensures ConvertAccessLevelToJavaModifier(Some("public")) == None
  {
  }

  /**
   * MODULE and PACKAGE are the one pair of levels that share a modifier: the conversion is
   * lossy there and nowhere else.
   */
  lemma ModuleAndPackageCollapse(l1: AccessLevel, l2: AccessLevel)
    requires l1 != l2 && ModifierFor(l1).Some?
    ensures ModifierFor(l1) == ModifierFor(l2) <==> {l1, l2} == {MODULE, PACKAGE}
  {
  }

  /**
   * For a non-empty string the conversion and `getAccessLevel` agree: the modifier is the one
   * of the level the string names (none for unknown strings, which name NONE).
   */
  lemma ConvertAgreesWithAccessLevel(value: Option<string>)
    requires value.Some? && value.value != ""
    ensures ConvertAccessLevelToJavaModifier(value) == ModifierFor(AccessLevelOf(value))
  {
  }

  /** Where they disagree: an absent or empty value is public to the conversion but NONE to `getAccessLevel`. */
  lemma EmptyAndAbsentDiffer(value: Option<string>)
    requires value.None? || value == Some("")
    ensures ConvertAccessLevelToJavaModifier(value) == Some(Public)
    ensures AccessLevelOf(value) == NONE && ModifierFor(AccessLevelOf(value)) == None
  {
  }

  /**
   * Each of the four access codes, mapped through `ACCESS_LEVEL_MAP` and back through the name
   * of its level, gives the modifier the code stands for.
   */
  lemma AccessCodeRoundTrip(codes: AccessCodes, code: int)
    requires codes.Distinct() && codes.IsCode(code)
    ensures code in AccessLevelMap(codes)
    ensures ConvertAccessLevelToJavaModifier(Some(Name(AccessLevelMap(codes)[code]))) == codes.ModifierOf(code)
  {
  }

  /** The code the host uses for a modifier. */
  function CodeFor(codes: AccessCodes, m: Modifier): (code: int)
    ensures codes.Distinct() ==> codes.ModifierOf(code) == Some(m)
  {
    match m
    case Public => codes.publicCode
    case PackageLocal => codes.packageLocalCode
    case Protected => codes.protectedCode
    case Private => codes.privateCode
  }

  /**
   * The other direction: a level with a modifier, taken to the host's code for that modifier
   * and back through `ACCESS_LEVEL_MAP`, is the same level, except that MODULE comes back as
   * PACKAGE.
   */
  lemma LevelRoundTrip(codes: AccessCodes, l: AccessLevel)
    requires codes.Distinct() && l != NONE
    ensures ModifierFor(l).Some?
    ensures AccessLevelMap(codes)[CodeFor(codes, ModifierFor(l).value)] == if l == MODULE then PACKAGE else l
  {
  }

  /** An attribute that refers to an `AccessLevel` constant by its qualified name converts to that constant's modifier. */
  lemma EnumReferenceConverts(a: Annotation, parameter: string, l: AccessLevel)
    requires parameter in a.attributes && a.attributes[parameter] == EnumReference(ClassName + "." + Name(l))
    ensures LevelVisibilityOf(a, parameter) == ModifierFor(l)
  {
    LastSegmentOfQualified(ClassName, Name(l));
  }

  /**
   * The annotation `createAnnotationWithAccessLevel` builds carries the owner's access: for
   * each of the four codes, reading its `value` back as `getMethodModifier` does gives the
   * modifier of that code. For the public code no value is written, and the element's
   * declared default, which is PUBLIC or nothing, stands in for it.
   */
  lemma CreatedAnnotationRoundTrip(codes: AccessCodes, code: int, declaredDefault: Option<AttributeValue>)
    requires codes.Distinct() && codes.IsCode(code)
    requires declaredDefault.None? || declaredDefault == Some(EnumReference(ClassName + "." + Name(PUBLIC)))
    ensures GetMethodModifier(CreatePsiAnnotation(AccessLevelValue(codes, Some(code)), declaredDefault))
            == codes.ModifierOf(code)
  {
    var value := AccessLevelValue(codes, Some(code));
    var a := CreatePsiAnnotation(value, declaredDefault);
    if value != "" {
      EnumReferenceConverts(a, "value", AccessLevelMap(codes)[code]);
    } else if declaredDefault.Some? {
      EnumReferenceConverts(a, "value", PUBLIC);
    }
  }
}
