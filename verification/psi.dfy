/**
 * Stand-ins for the parts of the IDE's program-structure interface that the access-level
 * translator consumes. Their code belongs to the host; only the shape of their results is
 * modelled here.
 */
module Psi {

  import opened Wrappers

  /**
   * The access modifier tokens `PsiModifier.PUBLIC`, `PsiModifier.PROTECTED`,
   * `PsiModifier.PACKAGE_LOCAL` and `PsiModifier.PRIVATE`; their concrete strings are the host's.
   */
  datatype Modifier = Public | Protected | PackageLocal | Private

  /**
   * The integer codes `PsiUtil.ACCESS_LEVEL_PUBLIC`, `ACCESS_LEVEL_PACKAGE_LOCAL`,
   * `ACCESS_LEVEL_PROTECTED` and `ACCESS_LEVEL_PRIVATE`. Their values are the host's, so they
   * are carried as parameters; the host's codes are pairwise distinct.
   */
  datatype AccessCodes = AccessCodes(publicCode: int, packageLocalCode: int, protectedCode: int, privateCode: int)
  {
    predicate Distinct() {
      && publicCode != packageLocalCode && publicCode != protectedCode && publicCode != privateCode
      && packageLocalCode != protectedCode && packageLocalCode != privateCode
      && protectedCode != privateCode
    }

    /** True of the four codes `PsiUtil.getAccessLevel` can return. */
    predicate IsCode(code: int) {
      code == publicCode || code == packageLocalCode || code == protectedCode || code == privateCode
    }

    /** The access modifier each code stands for in the host; `None` for any other integer. */
    function ModifierOf(code: int): Option<Modifier> {
      if code == publicCode then Some(Public)
      else if code == packageLocalCode then Some(PackageLocal)
      else if code == protectedCode then Some(Protected)
      else if code == privateCode then Some(Private)
      else None
    }
  }

  /** A nested annotation of an `onX` list: its simple name and the text of its parameter list. */
  datatype NestedAnnotation = NestedAnnotation(simpleName: string, parameterListText: string)

  /**
   * The value of one annotation attribute as the host reports it: a string constant, a
   * reference to an enum constant written with its qualified name (`lombok.AccessLevel.PRIVATE`),
   * an annotation whose `value` attribute holds the annotations `values`, or anything else.
   */
  datatype AttributeValue =
    | StringValue(text: string)
    | EnumReference(qualifiedName: string)
    | AnnotationValue(values: seq<NestedAnnotation>)
    | OtherValue

  /**
   * An annotation, as the map from attribute names to the values the host reports for them.
   * An attribute the annotation does not write but whose element declares a default is
   * present here, with that default; an attribute is absent only when the host reports no
   * value at all, not even a declared default.
   */
  datatype Annotation = Annotation(attributes: map<string, AttributeValue>)

  /** The part of a qualified name after its last dot; the whole name when it has no dot. */
  function LastSegment(qualifiedName: string): (r: string)
    ensures '.' !in r
    ensures |r| <= |qualifiedName| && qualifiedName[|qualifiedName| - |r|..] == r
    ensures |r| < |qualifiedName| ==> qualifiedName[|qualifiedName| - |r| - 1] == '.'
  {
    if qualifiedName == [] then []
    else if qualifiedName[|qualifiedName| - 1] == '.' then []
    else LastSegment(qualifiedName[..|qualifiedName| - 1]) + [qualifiedName[|qualifiedName| - 1]]
  }

  /** A qualified name whose last segment is `name` reads back as `name`. */
  lemma {:induction false} LastSegmentOfQualified(qualifier: string, name: string)
    requires name != [] && '.' !in name
    ensures LastSegment(qualifier + "." + name) == name
  {
    var s := qualifier + "." + name;
    var r := LastSegment(s);
    assert s[|qualifier|] == '.';
    assert r == s[|s| - |name|..] == name;
  }

  /**
   * `PsiAnnotationUtil.getStringAnnotationValue`: a string constant reads as its text and an
   * enum reference as the name of the constant it refers to; anything else, and an absent
   * attribute, read as `None`.
   */
  function StringAnnotationValue(a: Annotation, parameter: string): (r: Option<string>)
    ensures parameter !in a.attributes ==> r.None?
    ensures parameter in a.attributes && a.attributes[parameter].EnumReference? ==>
      r.Some? && '.' !in r.value
  {
    if parameter !in a.attributes then None
    else match a.attributes[parameter]
      case StringValue(text) => Some(text)
      case EnumReference(qualifiedName) => Some(LastSegment(qualifiedName))
      case _ => None
  }

  /**
   * The annotation `PsiAnnotationUtil.createPsiAnnotation` builds from a value string: a
   * non-empty value is written as the `value` attribute, an enum reference; an empty value
   * writes nothing, so the host then reports the element's declared default, if it has one.
   */
  function CreatePsiAnnotation(value: string, declaredDefault: Option<AttributeValue>): (a: Annotation)
    ensures value != "" ==> a.attributes == map["value" := EnumReference(value)]
    ensures value == "" ==> ("value" in a.attributes <==> declaredDefault.Some?)
  {
    if value != "" then Annotation(map["value" := EnumReference(value)])
    else if declaredDefault.Some? then Annotation(map["value" := declaredDefault.value])
    else Annotation(map[])
  }
}
