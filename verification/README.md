# Lombok access-level translator, in Dafny

A model of the access-level translator of the Lombok IntelliJ plugin
(`LombokProcessorUtil`). It translates the names of Lombok's `AccessLevel` constants
(`PUBLIC`, `MODULE`, `PROTECTED`, `PACKAGE`, `PRIVATE`, `NONE`), read from an annotation
attribute, into the IDE's access modifiers (public, protected, package-local, private, or
none). In the other direction it turns the IDE's integer access code of a modifier list into
the value string of a new annotation. It also renders `onX` lists of nested annotations as
text.

Files:

- `wrappers.dfy`: `Option`, where `None` stands for Java's `null`.
- `lombok.dfy`: the `lombok.AccessLevel` enum, its `name()` and a lookup by name.
- `psi.dfy`: stand-ins for the host IDE's values. The modifier tokens are a datatype. The
  four `PsiUtil.ACCESS_LEVEL_*` codes are a record of four integers, because their values are
  the host's. An annotation is a map from attribute names to the values the host reports,
  and an enum reference reads as the name of its constant.
- `lombok_processor_util.dfy`: the translator. Pure lookups are functions. The static memo
  map `VALUE_ACCESS_LEVEL_MAP` is the class `ValueAccessLevelMap`, and `getAccessLevel` is a
  method on it. The loop of `getOnX` and the reassignment in `createAnnotationWithAccessLevel`
  are methods.
- `access_level_properties.dfy`: lemmas that relate the operations. They cover the
  conversion table, the MODULE/PACKAGE collapse, where the two lookups agree and where they
  differ, and round trips through the access codes.

The code differs from a plain reading of its purpose in two places, and the model follows
the code:

- An unknown non-empty level string converts to no modifier, not to public. Only an absent
  or empty string gives public.
- `getAccessLevel` is not free of side effects. Every unknown string it is asked about is
  added to the static `VALUE_ACCESS_LEVEL_MAP`, mapped to NONE. `ValueAccessLevelMap.Valid`
  states the invariant this growth keeps. `GetAccessLevel` is proved to return the level the
  string names, whatever the map holds.

## Model

| member | source | states |
|---|---|---|
| LombokProcessorUtil.AccessLevelMap | src/main/java/de/plushnikov/intellij/plugin/util/LombokProcessorUtil.java:20-25 | its keys are exactly the four access codes; no code maps to MODULE or NONE; with distinct codes, public, package-local, protected and private map to PUBLIC, PACKAGE, PROTECTED and PRIVATE |
| LombokProcessorUtil.NameTable | src/main/java/de/plushnikov/intellij/plugin/util/LombokProcessorUtil.java:27-28 | every constant's name is a key mapped to that constant, and every key is the name of the constant it maps to |
| LombokProcessorUtil.NamesIdentifyLevels | src/main/java/de/plushnikov/intellij/plugin/util/LombokProcessorUtil.java:27-28 | no two constants share a name, so collecting `values()` by name has no duplicate key and cannot throw |
| LombokProcessorUtil.ConvertAccessLevelToJavaModifier | src/main/java/de/plushnikov/intellij/plugin/util/LombokProcessorUtil.java:79-105 | an absent or empty value gives public; the name of level l gives l's modifier (none for NONE); a non-empty string that names no constant gives none |
| LombokProcessorUtil.LevelVisibilityOf | src/main/java/de/plushnikov/intellij/plugin/util/LombokProcessorUtil.java:48-52 | converts the string the host reports for the given attribute; when the host reports no value at all, not even a declared default, the modifier is public |
| LombokProcessorUtil.GetMethodModifier | src/main/java/de/plushnikov/intellij/plugin/util/LombokProcessorUtil.java:30-34 | converts the `value` attribute; when the host reports no value for it, not even a declared default, the modifier is public |
| LombokProcessorUtil.GetAccessVisibility | src/main/java/de/plushnikov/intellij/plugin/util/LombokProcessorUtil.java:36-40 | converts the `access` attribute; when the host reports no value for it, not even a declared default, the modifier is public |
| LombokProcessorUtil.GetLevelVisibility | src/main/java/de/plushnikov/intellij/plugin/util/LombokProcessorUtil.java:42-46 | converts the `level` attribute; when the host reports no value for it, not even a declared default, the modifier is public |
| LombokProcessorUtil.IsLevelVisible | src/main/java/de/plushnikov/intellij/plugin/util/LombokProcessorUtil.java:61-63 | true iff `level` is absent, empty or one of the five non-NONE names, which is iff the conversion yields a modifier |
| LombokProcessorUtil.AccessLevelOf | src/main/java/de/plushnikov/intellij/plugin/util/LombokProcessorUtil.java:54-59 | an absent value gives NONE; a constant's name gives that constant; any other string, "" included, gives NONE |
| LombokProcessorUtil.LookupKey | src/main/java/de/plushnikov/intellij/plugin/util/LombokProcessorUtil.java:56-57 | the looked-up key is the value itself, or "NONE" when the value is absent |
| LombokProcessorUtil.ValueAccessLevelMap.constructor | src/main/java/de/plushnikov/intellij/plugin/util/LombokProcessorUtil.java:27-28 | the static map starts as the name table and satisfies the memo invariant |
| LombokProcessorUtil.ValueAccessLevelMap.GetAccessLevel | src/main/java/de/plushnikov/intellij/plugin/util/LombokProcessorUtil.java:54-59 | returns the level the attribute names, whatever the memo holds; keeps the invariant; adds only the queried key, mapped to NONE, and leaves every existing entry unchanged |
| LombokProcessorUtil.RepeatedAccessLevelLookups | src/main/java/de/plushnikov/intellij/plugin/util/LombokProcessorUtil.java:58 | two lookups of the same attribute both return the level a fresh table gives, and the repeat adds nothing to the map beyond what the first lookup memoised |
| LombokProcessorUtil.AccessLevelValue | src/main/java/de/plushnikov/intellij/plugin/util/LombokProcessorUtil.java:107-118 | with distinct codes, the value is "" iff there is no modifier list, the code is not one of the four, or it is the public code; otherwise it is `lombok.AccessLevel.` followed by the mapped level's name |
| LombokProcessorUtil.CreateAnnotationWithAccessLevel | src/main/java/de/plushnikov/intellij/plugin/util/LombokProcessorUtil.java:107-121 | the value computed by the conditional reassignment is the one `AccessLevelValue` describes |
| LombokProcessorUtil.GetOnX | src/main/java/de/plushnikov/intellij/plugin/util/LombokProcessorUtil.java:65-77 | empty when the attribute is not an annotation; otherwise one string per nested annotation, in order, each its simple name followed by its parameter-list text |
| AccessLevelProperties.ConversionTable | src/main/java/de/plushnikov/intellij/plugin/util/LombokProcessorUtil.java:86-104 | PUBLIC, PROTECTED and PRIVATE give their modifiers; MODULE and PACKAGE give package-local; NONE and lower-case "public" give none |
| AccessLevelProperties.ModuleAndPackageCollapse | src/main/java/de/plushnikov/intellij/plugin/util/LombokProcessorUtil.java:89-97 | two distinct levels with a modifier share it iff they are MODULE and PACKAGE |
| AccessLevelProperties.ConvertAgreesWithAccessLevel | src/main/java/de/plushnikov/intellij/plugin/util/LombokProcessorUtil.java:54-105 | for a non-empty string, the conversion gives the modifier of the level `getAccessLevel` finds |
| AccessLevelProperties.EmptyAndAbsentDiffer | src/main/java/de/plushnikov/intellij/plugin/util/LombokProcessorUtil.java:56-58 | an absent or empty value converts to public, but `getAccessLevel` gives NONE for it |
| AccessLevelProperties.AccessCodeRoundTrip | src/main/java/de/plushnikov/intellij/plugin/util/LombokProcessorUtil.java:20-25 | each of the four codes, mapped to its level and converted from the level's name, gives the modifier that code stands for |
| AccessLevelProperties.LevelRoundTrip | src/main/java/de/plushnikov/intellij/plugin/util/LombokProcessorUtil.java:20-25 | a level with a modifier, taken to that modifier's code and mapped back, is the same level, except that MODULE comes back as PACKAGE |
| AccessLevelProperties.EnumReferenceConverts | src/main/java/de/plushnikov/intellij/plugin/util/LombokProcessorUtil.java:48-52 | an attribute holding the reference `lombok.AccessLevel.<NAME>` converts to the modifier of that constant |
| AccessLevelProperties.CreatedAnnotationRoundTrip | src/main/java/de/plushnikov/intellij/plugin/util/LombokProcessorUtil.java:107-121 | for each of the four codes, reading the created annotation's `value` as `getMethodModifier` does gives that code's modifier; for the public code nothing is written and a PUBLIC or missing declared default gives public |

## Left out

- PSI attribute reads: `PsiAnnotationUtil.getStringAnnotationValue`, `findAttributeValue` and `PsiAnnotationUtil.getAnnotationValues` are host code and are not part of this model. An annotation is modelled as the map from attribute names to the values the host reports: a string constant, a reference to an enum constant by its qualified name, an annotation with its list of nested annotations, or some other value. An element the annotation does not write but that declares a default is present with that default; an attribute is absent only when the host reports no value at all. A string constant reads as its text, an enum reference as the constant's name (the part after the last dot), and anything else as absent.
- `PsiUtil.getAccessLevel(modifierList)` is host code. Its result is an input: `None` when the owner has no modifier list, and otherwise the integer code. The `PsiUtil.ACCESS_LEVEL_*` values and the `PsiModifier` strings are not visible, so they are parameters and a datatype.
- `PsiAnnotationUtil.createPsiAnnotation` builds a host object. It is modelled only as far as the `value` attribute goes: a non-empty value string becomes an enum reference, and an empty one writes nothing, leaving the element's declared default.
- `PsiAnnotationSearchUtil.getSimpleNameOf` and `getText()` render source text. Each nested annotation is given as its simple name and parameter-list text.
- `VALUE_ACCESS_LEVEL_MAP` is one global `HashMap`. It is modelled as one `ValueAccessLevelMap` object passed to callers. Concurrent `computeIfAbsent` calls from several threads are not modelled.
- The `@Nullable`, `@NotNull` and `@ModifierConstant` annotations are tooling metadata and have no behaviour.
