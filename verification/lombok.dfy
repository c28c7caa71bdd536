/** The `lombok.AccessLevel` enumeration, as far as the access-level translator uses it. */
module Lombok {

  import opened Wrappers

  /** The enum constants, declared in the order of `AccessLevel.values()`. */
  datatype AccessLevel = PUBLIC | MODULE | PROTECTED | PACKAGE | PRIVATE | NONE

  /** `AccessLevel.values()`. */
  const Values: seq<AccessLevel> := [PUBLIC, MODULE, PROTECTED, PACKAGE, PRIVATE, NONE]

  /** Fully qualified name of the enum class, `AccessLevel.class.getName()`. */
  const ClassName: string := "lombok.AccessLevel"

  /** `name()` (and `toString()`) of an enum constant. */
  function Name(l: AccessLevel): string
  {
    match l
    case PUBLIC => "PUBLIC"
    case MODULE => "MODULE"
    case PROTECTED => "PROTECTED"
    case PACKAGE => "PACKAGE"
    case PRIVATE => "PRIVATE"
    case NONE => "NONE"
  }

  /**
   * Looks up the constant whose `name()` is `s`, the lookup `AccessLevel.valueOf` performs
   * (without its exception: an unknown name gives `None`).
   */
  function LevelNamed(s: string): (r: Option<AccessLevel>)
    ensures forall l :: r == Some(l) <==> s == Name(l)
  {
    if s == "PUBLIC" then Some(PUBLIC)
    else if s == "MODULE" then Some(MODULE)
    else if s == "PROTECTED" then Some(PROTECTED)
    else if s == "PACKAGE" then Some(PACKAGE)
    else if s == "PRIVATE" then Some(PRIVATE)
    else if s == "NONE" then Some(NONE)
    else None
  }
}
