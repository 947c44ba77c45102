/**
 * The @Setter field processor: decides whether a setter may be generated for
 * an annotated field, and builds that setter.
 */
module SetterFieldProcessor {
  import opened Wrappers
  import opened Psi

  /** The verdict of one check together with the problems it reported. */
  datatype Check = Check(ok: bool, problems: seq<Problem>)

  /**
   * What the IDE and the processor's unseen helpers answer about the field and
   * its @Setter annotation. Each component is taken as given.
   */
  datatype SetterFacts = SetterFacts(
    visibility: Option<string>,   // access modifier the annotation asks for; None for AccessLevel.NONE
    isChain: bool,                // the accessor configuration asks for chained setters
    prefixMismatch: bool,         // what isPrefixUnDefinedOrNotStartsWith(field name) answers
    setterName: string,           // the setter name derived from the field
    onXProblems: seq<Problem>,    // what the check of `onParam` reports
    existingMethods: Check)       // verdict and problems of the check for clashing methods

  const RETURN_THIS := "return this;"

  // ---------------------------------------------------------------------------
  // The validation chain

  /** Runs the checks in order and stops at the first that fails. */
  function RunChain(checks: seq<Check>): Check
  {
    if checks == [] then Check(true, [])
    else if !checks[0].ok then checks[0]
    else
      var rest := RunChain(checks[1..]);
      Check(rest.ok, checks[0].problems + rest.problems)
  }

  /** All problems the given checks report, in order. */
  function AllProblems(checks: seq<Check>): seq<Problem>
  {
    if checks == [] then [] else checks[0].problems + AllProblems(checks[1..])
  }

  lemma {:induction false} AllProblemsAppend(a: seq<Check>, b: seq<Check>)
    ensures AllProblems(a + b) == AllProblems(a) + AllProblems(b)
  {
    if a == [] {
      assert a + b == b;
    } else {
      assert (a + b)[0] == a[0] && (a + b)[1..] == a[1..] + b;
      AllProblemsAppend(a[1..], b);
    }
  }

  /** Extending a prefix of the checks by one check adds that check's problems. */
  lemma AllProblemsPrefix(checks: seq<Check>, k: nat)
    requires k < |checks|
    ensures AllProblems(checks[..k + 1]) == AllProblems(checks[..k]) + checks[k].problems
  {
    assert checks[..k + 1] == checks[..k] + [checks[k]];
    AllProblemsAppend(checks[..k], [checks[k]]);
  }

  lemma {:induction false} ChainOkIffAllPass(checks: seq<Check>)
    ensures RunChain(checks).ok <==> forall i :: 0 <= i < |checks| ==> checks[i].ok
  {
    if checks != [] {
      ChainOkIffAllPass(checks[1..]);
      assert forall i :: 1 <= i < |checks| ==> checks[i] == checks[1..][i - 1];
    }
  }

  lemma {:induction false} ChainAllPass(checks: seq<Check>)
    requires forall i :: 0 <= i < |checks| ==> checks[i].ok
    ensures RunChain(checks) == Check(true, AllProblems(checks))
  {
    if checks != [] {
      ChainAllPass(checks[1..]);
    }
  }

  /** A failing check ends the chain: the checks after it neither run nor report. */
  lemma {:induction false} ChainStopsAtFirstFailure(checks: seq<Check>, k: nat)
    requires k < |checks| && !checks[k].ok
    requires forall i :: 0 <= i < k ==> checks[i].ok
    ensures RunChain(checks) == Check(false, AllProblems(checks[..k + 1]))
  {
    if k == 0 {
      assert checks[..1][1..] == [];
    } else {
      ChainStopsAtFirstFailure(checks[1..], k - 1);
      assert checks[..k + 1][1..] == checks[1..][..k];
    }
  }

  /** The final-modifier check: a final field gets no setter unless the annotation asks for none. */
  function FinalModifierCheck(f: Field, s: SetterFacts): Check
  {
    if f.isFinal && s.visibility.Some? then Check(false, [FinalFieldWarning(RemoveModifier(FINAL))])
    else Check(true, [])
  }

  /** The visibility check: it passes iff a visibility is requested, and never reports a problem. */
  function ValidateVisibility(s: SetterFacts): (c: Check)
    ensures c.ok <==> s.visibility.Some?
    ensures c.problems == []
  {
    Check(s.visibility.Some?, [])
  }

  function AccessorPrefixCheck(s: SetterFacts): Check
  {
    if s.prefixMismatch then Check(false, [AccessorPrefixWarning]) else Check(true, [])
  }

  /** The four checks of `validate`, in the order it runs them. */
  function Stages(f: Field, s: SetterFacts): seq<Check>
  {
    [FinalModifierCheck(f, s), ValidateVisibility(s), s.existingMethods, AccessorPrefixCheck(s)]
  }

  /** Specification of `validate`: the `onParam` problems, then the chain of four checks. */
  function Validation(f: Field, s: SetterFacts): Check
  {
    var chain := RunChain(Stages(f, s));
    Check(chain.ok, s.onXProblems + chain.problems)
  }

  /** Validation succeeds exactly when all four checks pass. */
  lemma ValidationOkIff(f: Field, s: SetterFacts)
    ensures Validation(f, s).ok <==>
      !f.isFinal && s.visibility.Some? && s.existingMethods.ok && !s.prefixMismatch
  {
    var st := Stages(f, s);
    ChainOkIffAllPass(st);
    assert st[0] == FinalModifierCheck(f, s) && st[1] == ValidateVisibility(s);
    assert st[2] == s.existingMethods && st[3] == AccessorPrefixCheck(s);
  }

  /**
   * The problems `validate` reports are those of `onParam` followed by those
   * of every check up to and including the first that fails.
   */
  lemma ValidationReportsUpToFirstFailure(f: Field, s: SetterFacts, k: nat)
    requires k < 4 && !Stages(f, s)[k].ok
    requires forall i :: 0 <= i < k ==> Stages(f, s)[i].ok
    ensures Validation(f, s) == Check(false, s.onXProblems + AllProblems(Stages(f, s)[..k + 1]))
  {
    ChainStopsAtFirstFailure(Stages(f, s), k);
  }

  /**
   * What `validate` returns and reports, stage by stage: each failing check
   * ends the chain with the problems reported so far.
   */
  lemma ValidationByStage(f: Field, s: SetterFacts)
    ensures f.isFinal && s.visibility.Some? ==>
      Validation(f, s) == Check(false, s.onXProblems + [FinalFieldWarning(RemoveModifier(FINAL))])
    ensures s.visibility.None? ==> Validation(f, s) == Check(false, s.onXProblems)
    ensures !f.isFinal && s.visibility.Some? && !s.existingMethods.ok ==>
      Validation(f, s) == Check(false, s.onXProblems + s.existingMethods.problems)
    ensures !f.isFinal && s.visibility.Some? && s.existingMethods.ok && s.prefixMismatch ==>
      Validation(f, s) == Check(false, s.onXProblems + s.existingMethods.problems + [AccessorPrefixWarning])
    ensures !f.isFinal && s.visibility.Some? && s.existingMethods.ok && !s.prefixMismatch ==>
      Validation(f, s) == Check(true, s.onXProblems + s.existingMethods.problems)
  {
    var st := Stages(f, s);
    assert AllProblems(st[..0]) == [] by { assert st[..0] == []; }
    AllProblemsPrefix(st, 0);
    if f.isFinal && s.visibility.Some? {
      ChainStopsAtFirstFailure(st, 0);
      return;
    }
    AllProblemsPrefix(st, 1);
    assert AllProblems(st[..2]) == [];
    if s.visibility.None? {
      ChainStopsAtFirstFailure(st, 1);
      return;
    }
    AllProblemsPrefix(st, 2);
    assert AllProblems(st[..3]) == s.existingMethods.problems;
    if !s.existingMethods.ok {
      ChainStopsAtFirstFailure(st, 2);
      return;
    }
    AllProblemsPrefix(st, 3);
    if s.prefixMismatch {
      ChainStopsAtFirstFailure(st, 3);
    } else {
      assert st[..4] == st;
      ChainAllPass(st);
    }
  }

  // ---------------------------------------------------------------------------
  // The validators as they run, writing to the problem log

  method ValidateOnXAnnotations(s: SetterFacts, builder: ProblemBuilder)
    modifies builder
    ensures builder.problems == old(builder.problems) + s.onXProblems
  {
    builder.problems := builder.problems + s.onXProblems;
  }

  method ValidateFinalModifier(f: Field, s: SetterFacts, builder: ProblemBuilder) returns (result: bool)
    modifies builder
    ensures result == FinalModifierCheck(f, s).ok
    ensures builder.problems == old(builder.problems) + FinalModifierCheck(f, s).problems
  {
    result := true;
    if f.isFinal && s.visibility != None {
      builder.AddWarning(FinalFieldWarning(RemoveModifier(FINAL)));
      result := false;
    }
  }

  method ValidateExistingMethods(s: SetterFacts, builder: ProblemBuilder) returns (result: bool)
    modifies builder
    ensures result == s.existingMethods.ok
    ensures builder.problems == old(builder.problems) + s.existingMethods.problems
  {
    builder.problems := builder.problems + s.existingMethods.problems;
    result := s.existingMethods.ok;
  }

  method ValidateAccessorPrefix(s: SetterFacts, builder: ProblemBuilder) returns (result: bool)
    modifies builder
    ensures result == AccessorPrefixCheck(s).ok
    ensures builder.problems == old(builder.problems) + AccessorPrefixCheck(s).problems
  {
    result := true;
    if s.prefixMismatch {
      builder.AddWarning(AccessorPrefixWarning);
      result := false;
    }
  }

  /** `validate`: the checks in their fixed order, each run only if all before it passed. */
  method Validate(f: Field, s: SetterFacts, builder: ProblemBuilder) returns (result: bool)
    modifies builder
    ensures result == Validation(f, s).ok
    ensures builder.problems == old(builder.problems) + Validation(f, s).problems
  {
    ValidationByStage(f, s);
    ValidateOnXAnnotations(s, builder);
    result := ValidateFinalModifier(f, s, builder);
    if result {
      result := ValidateVisibility(s).ok;
      if result {
        result := ValidateExistingMethods(s, builder);
        if result {
          result := ValidateAccessorPrefix(s, builder);
        }
      }
    }
  }

  // ---------------------------------------------------------------------------
  // The shape of the setter

  /** `getReturnType`: the class type for a chained setter of an instance field, `void` otherwise. */
  function ReturnType(f: Field, s: SetterFacts): (t: JavaType)
    ensures f.isStatic ==> t == Void
    ensures t != Void <==> !f.isStatic && s.isChain && f.containingClass.Some?
    ensures t != Void ==> t == Named(f.containingClass.value.typeWithGenerics)
  {
    if !f.isStatic && s.isChain && f.containingClass.Some? then
      Named(f.containingClass.value.typeWithGenerics)
    else
      Void
  }

  /** The receiver of the assignment: the class name for a static field, `this` otherwise. */
  function Receiver(c: ClassInfo, isStatic: bool): string
  {
    if !isStatic then "this"
    else match c.name
      case Some(n) => n
      case None => "null"   // how the formatter prints a null class name
  }

  function Assignment(receiver: string, fieldName: string, paramName: string): string
  {
    receiver + "." + fieldName + " = " + paramName + "; "
  }

  predicate EndsWithReturnThis(text: string)
  {
    |text| >= |RETURN_THIS| && text[|text| - |RETURN_THIS|..] == RETURN_THIS
  }

  /**
   * `createCodeBlockText`: the assignment of the parameter to the field,
   * followed by `return this;` exactly for an instance setter that does not
   * return `void`.
   */
  function CodeBlockText(c: ClassInfo, fieldName: string, returnType: JavaType, isStatic: bool,
                         paramName: string): (text: string)
    ensures Assignment(Receiver(c, isStatic), fieldName, paramName) <= text
    ensures EndsWithReturnThis(text) <==> !isStatic && returnType != Void
    ensures !EndsWithReturnThis(text) ==> text == Assignment(Receiver(c, isStatic), fieldName, paramName)
    ensures EndsWithReturnThis(text) ==> text == Assignment(Receiver(c, isStatic), fieldName, paramName) + RETURN_THIS
  {
    var blockText := Assignment(Receiver(c, isStatic), fieldName, paramName);
    assert blockText[|blockText| - 1] == ' ';
    if !isStatic && returnType != Void then
      var full := blockText + RETURN_THIS;
      assert full[|full| - |RETURN_THIS|..] == RETURN_THIS;
      full
    else
      assert !EndsWithReturnThis(blockText) by {
        if |blockText| >= |RETURN_THIS| {
          assert blockText[|blockText| - |RETURN_THIS|..][|RETURN_THIS| - 1] == ' ';
        }
      }
      blockText
  }

  /** The setter that `createSetterMethod` builds for field `f` in class `c` with access modifier `vis`. */
  function Setter(f: Field, s: SetterFacts, c: ClassInfo, vis: string): (m: LightMethod)
    ensures m.name == s.setterName && m.containingClass == c && m.navigation == f.name
    ensures m.returnType == ReturnType(f, s)
    ensures m.parameters == [Parameter(f.name, f.fieldType)]
    ensures forall mod :: mod in m.modifiers <==> (mod == vis && vis != "") || (mod == STATIC && f.isStatic)
    ensures JAVA_LANG_DEPRECATED in m.annotations <==> f.isDeprecated
    ensures m.body == CodeBlockText(c, f.name, m.returnType, f.isStatic, f.name)
  {
    var returnType := ReturnType(f, s);
    LightMethod(
      s.setterName, returnType, c, [Parameter(f.name, f.fieldType)],
      (if vis != "" then {vis} else {}) + (if f.isStatic then {STATIC} else {}),
      if f.isDeprecated then [JAVA_LANG_DEPRECATED] else [],
      f.name,
      CodeBlockText(c, f.name, returnType, f.isStatic, f.name))
  }

  /** `createSetterMethod`: fills in the method record step by step. */
  method CreateSetterMethod(f: Field, s: SetterFacts, c: ClassInfo, methodModifier: string)
    returns (m: LightMethod)
    ensures m == Setter(f, s, c, methodModifier)
  {
    var returnType := ReturnType(f, s);
    m := LightMethod(s.setterName, returnType, c, [Parameter(f.name, f.fieldType)], {}, [], f.name, "");
    if methodModifier != "" {
      m := m.(modifiers := m.modifiers + {methodModifier});
    }
    var isStatic := f.isStatic;
    if isStatic {
      m := m.(modifiers := m.modifiers + {STATIC});
    }
    var setterParameter := m.parameters[0];
    if f.isDeprecated {
      m := m.(annotations := m.annotations + [JAVA_LANG_DEPRECATED]);
    }
    var codeBlockText := CodeBlockText(c, f.name, returnType, isStatic, setterParameter.name);
    m := m.(body := codeBlockText);
  }

  /**
   * A setter returns `this` exactly when it is a chained setter of an instance
   * field, and then its whole body is the assignment followed by `return this;`.
   */
  lemma ChainedSetterReturnsThis(f: Field, s: SetterFacts, vis: string)
    requires f.containingClass.Some?
    ensures var m := Setter(f, s, f.containingClass.value, vis);
      EndsWithReturnThis(m.body) <==> !f.isStatic && s.isChain
    ensures !f.isStatic && s.isChain ==>
      Setter(f, s, f.containingClass.value, vis).body == "this." + f.name + " = " + f.name + "; return this;"
  {
  }

  /** The setter of an instance field assigns its parameter, named after the field, to `this.<field>`. */
  lemma InstanceSetterAssignsThis(f: Field, s: SetterFacts, c: ClassInfo, vis: string)
    requires !f.isStatic
    ensures var m := Setter(f, s, c, vis);
      "this." + f.name + " = " + f.name + "; " <= m.body &&
      m.parameters[0].name == f.name
  {
  }

  /**
   * The setter of a static field is a `void` static method whose body assigns
   * through the class name and returns nothing.
   */
  lemma StaticSetterShape(f: Field, s: SetterFacts, c: ClassInfo, vis: string, className: string)
    requires f.isStatic && c.name == Some(className)
    ensures var m := Setter(f, s, c, vis);
      m.returnType == Void && STATIC in m.modifiers &&
      m.body == className + "." + f.name + " = " + f.name + "; "
  {
  }

  /**
   * The requested access modifier appears iff it is non-empty, and `static`
   * appears iff the field is static (when the access modifier is not itself `static`).
   */
  lemma SetterModifiers(f: Field, s: SetterFacts, c: ClassInfo, vis: string)
    ensures vis in Setter(f, s, c, vis).modifiers <==> vis != "" || (vis == STATIC && f.isStatic)
    ensures vis != STATIC ==> (STATIC in Setter(f, s, c, vis).modifiers <==> f.isStatic)
    ensures |Setter(f, s, c, vis).modifiers| <= 2
  {
    var m := Setter(f, s, c, vis);
    assert m.modifiers <= {vis, STATIC};
    assert |{vis, STATIC}| <= 2;
    SubsetCard(m.modifiers, {vis, STATIC});
  }

  lemma {:induction false} SubsetCard<T>(a: set<T>, b: set<T>)
    requires a <= b
    ensures |a| <= |b|
  {
    if a != {} {
      var x :| x in a;
      SubsetCard(a - {x}, b - {x});
    }
  }

  // ---------------------------------------------------------------------------
  // Generation

  /** Specification of `generatePsiElements`: the elements it appends. */
  function Generated(f: Field, s: SetterFacts): (r: seq<LightMethod>)
    ensures |r| <= 1
    ensures r != [] <==> s.visibility.Some? && f.containingClass.Some?
    ensures r != [] ==> r[0] == Setter(f, s, f.containingClass.value, s.visibility.value)
  {
    if s.visibility.Some? && f.containingClass.Some? then
      [Setter(f, s, f.containingClass.value, s.visibility.value)]
    else
      []
  }

  /** `generatePsiElements`: appends the setter to the caller's list when a visibility and a class exist. */
  method GeneratePsiElements(f: Field, s: SetterFacts, target: ElementList)
    modifies target
    ensures target.elements == old(target.elements) + Generated(f, s)
  {
    var methodVisibility := s.visibility;
    var psiClass := f.containingClass;
    if methodVisibility != None && psiClass != None {
      var m := CreateSetterMethod(f, s, psiClass.value, methodVisibility.value);
      target.Add(m);
    }
  }

  /** A field that passed validation and has a containing class gets exactly one setter. */
  lemma ValidatedFieldGetsSetter(f: Field, s: SetterFacts)
    requires Validation(f, s).ok && f.containingClass.Some?
    ensures |Generated(f, s)| == 1
    ensures Generated(f, s)[0].parameters == [Parameter(f.name, f.fieldType)]
  {
    ValidationOkIff(f, s);
  }

  /** `checkFieldUsage`: a setter writes its field, whatever the field and annotation. */
  function CheckFieldUsage(f: Field, s: SetterFacts): (u: ElementUsage)
    ensures u == Write
  {
    Write
  }
}
