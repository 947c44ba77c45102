/**
 * Plain stand-ins for the IDE program-structure objects that the @Setter
 * field processor reads (the annotated field and its class) and builds (the
 * synthetic setter, the problems it reports, the list it appends to).
 */
module Psi {
  import opened Wrappers

  /** A Java type as the processor handles it: `void`, or any other type by its source text. */
  datatype JavaType = Void | Named(text: string)

  /**
   * The class that contains a field: its simple name (`None` for an
   * anonymous class, whose name the IDE reports as null) and its type with
   * its own type parameters applied.
   */
  datatype ClassInfo = ClassInfo(name: Option<string>, typeWithGenerics: string)

  /** The facts the processor reads from the annotated field itself. */
  datatype Field = Field(
    name: string,
    fieldType: JavaType,
    isFinal: bool,
    isStatic: bool,
    isDeprecated: bool,
    containingClass: Option<ClassInfo>)

  const FINAL := "final"
  const STATIC := "static"
  const JAVA_LANG_DEPRECATED := "java.lang.Deprecated"

  /** A quick fix offered with a warning: drop the named modifier from the field. */
  datatype QuickFix = RemoveModifier(modifier: string)

  /** One entry of the problem log; message texts are localised resources and are not modelled. */
  datatype Problem =
    | FinalFieldWarning(fix: QuickFix)   // no setter for a final field
    | AccessorPrefixWarning              // the field name does not carry a configured accessor prefix
    | HostProblem(message: string)       // reported by checks outside the processor

  /** How a field is used by the code an annotation generates for it. */
  datatype ElementUsage = Read | Write | ReadWrite

  datatype Parameter = Parameter(name: string, paramType: JavaType)

  /** The synthetic method the processor hands to the IDE. */
  datatype LightMethod = LightMethod(
    name: string,
    returnType: JavaType,
    containingClass: ClassInfo,
    parameters: seq<Parameter>,
    modifiers: set<string>,
    annotations: seq<string>,
    navigation: string,   // name of the field the method navigates to
    body: string)

  /** The problem log the validators write to. */
  class ProblemBuilder {
    var problems: seq<Problem>

    constructor ()
      ensures problems == []
    {
      problems := [];
    }

    method AddWarning(p: Problem)
      modifies this
      ensures problems == old(problems) + [p]
    {
      problems := problems + [p];
    }
  }

  /** The caller's list of generated elements. */
  class ElementList {
    var elements: seq<LightMethod>

    constructor (initial: seq<LightMethod>)
      ensures elements == initial
    {
      elements := initial;
    }

    method Add(m: LightMethod)
      modifies this
      ensures elements == old(elements) + [m]
    {
      elements := elements + [m];
    }
  }
}
