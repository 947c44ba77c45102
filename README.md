# @Setter field processor, modelled in Dafny

This project models the `@Setter` field processor of the Lombok IntelliJ plugin
(`SetterFieldProcessor.java`). For a field annotated with Lombok's `@Setter`, the
processor decides whether a setter may be generated, reports why not when it may
not, and builds the synthetic setter method the IDE then treats as if it had
been written by hand.

- `wrappers.dfy` — `Option`, standing in for Java's `null`.
- `psi_model.dfy` — plain stand-ins for the IDE's program-structure objects: the
  annotated field (`Field`), its class (`ClassInfo`), Java types (`JavaType`),
  the synthetic method (`LightMethod`), the problem log (`ProblemBuilder`, a class
  whose list of problems the validators append to) and the caller's element list
  (`ElementList`, a class whose list `generatePsiElements` appends to).
- `setter_field_processor.dfy` — the processor. Everything the processor asks the
  IDE or its unseen helpers is one input record, `SetterFacts`: the access
  modifier the annotation asks for (`None` when it asks for no setter), whether
  the accessor configuration chains setters, the answer of the accessor
  configuration's `isPrefixUnDefinedOrNotStartsWith` for the field name, the setter's name, and what the checks of
  `onParam` and of clashing methods report.

Validation is specified by `Validation`, which runs the four checks through
`RunChain`: in order, stopping at the first failure. The imperative `Validate`
mirrors the source's nested `if`s over a `ProblemBuilder` and is proved to agree
with `Validation`. The setter is specified by `Setter`. The imperative
`CreateSetterMethod` fills in the method record step by step, as the source fills
in its method builder, and is proved equal to `Setter`. `GeneratePsiElements`
appends to an `ElementList` and is proved against `Generated`.

## Model

| member | source | states |
|---|---|---|
| `SetterFieldProcessor.ChainOkIffAllPass` | src/main/java/de/plushnikov/intellij/plugin/processor/field/SetterFieldProcessor.java:50-60 | a chain of checks that stops at the first failure succeeds iff every check in it passes |
| `SetterFieldProcessor.ChainStopsAtFirstFailure` | src/main/java/de/plushnikov/intellij/plugin/processor/field/SetterFieldProcessor.java:50-60 | when check k is the first to fail, the chain fails and reports exactly the problems of checks 0..k; later checks neither run nor report |
| `SetterFieldProcessor.ChainAllPass` | src/main/java/de/plushnikov/intellij/plugin/processor/field/SetterFieldProcessor.java:50-60 | when every check passes, the chain succeeds with the problems of all checks |
| `SetterFieldProcessor.ValidationOkIff` | src/main/java/de/plushnikov/intellij/plugin/processor/field/SetterFieldProcessor.java:46-61 | validation succeeds iff the field is not final, a visibility is requested, no clashing method exists and the accessor prefix fits; so a final field never passes |
| `SetterFieldProcessor.ValidationReportsUpToFirstFailure` | src/main/java/de/plushnikov/intellij/plugin/processor/field/SetterFieldProcessor.java:46-61 | the problems reported are the `onParam` problems, then those of the four checks up to and including the first that fails |
| `SetterFieldProcessor.ValidationByStage` | src/main/java/de/plushnikov/intellij/plugin/processor/field/SetterFieldProcessor.java:46-85 | the outcome per stage: a final field with a visibility fails with exactly one warning (remove `final`); no visibility fails with no warning of its own; a clashing method fails with that check's problems; a missing prefix fails with one prefix warning; otherwise success |
| `SetterFieldProcessor.ValidateFinalModifier` | src/main/java/de/plushnikov/intellij/plugin/processor/field/SetterFieldProcessor.java:63-71 | fails and appends one warning iff the field is final and a visibility is requested; otherwise passes and leaves the log unchanged |
| `SetterFieldProcessor.ValidateVisibility` | src/main/java/de/plushnikov/intellij/plugin/processor/field/SetterFieldProcessor.java:73-76 | passes iff a visibility is requested (the method-modifier answer is non-null); never reports a problem |
| `SetterFieldProcessor.ValidateAccessorPrefix` | src/main/java/de/plushnikov/intellij/plugin/processor/field/SetterFieldProcessor.java:78-85 | fails and appends one prefix warning iff `isPrefixUnDefinedOrNotStartsWith` holds for the field name; otherwise passes and leaves the log unchanged |
| `SetterFieldProcessor.Validate` | src/main/java/de/plushnikov/intellij/plugin/processor/field/SetterFieldProcessor.java:46-61 | returns the verdict of `Validation` and appends exactly its problems to the log |
| `SetterFieldProcessor.ReturnType` | src/main/java/de/plushnikov/intellij/plugin/processor/field/SetterFieldProcessor.java:152-161 | `void` for a static field; the containing class's generic type iff the field is non-static, chaining is on and the class exists; `void` otherwise |
| `SetterFieldProcessor.CodeBlockText` | src/main/java/de/plushnikov/intellij/plugin/processor/field/SetterFieldProcessor.java:134-150 | the body starts with `<receiver>.<field> = <param>; `; it ends with `return this;` iff the setter is non-static and non-void, and is then exactly the assignment followed by `return this;`; otherwise it is that assignment alone |
| `SetterFieldProcessor.Setter` | src/main/java/de/plushnikov/intellij/plugin/processor/field/SetterFieldProcessor.java:92-132 | the setter has the derived name, one parameter named and typed after the field, the access modifier iff non-empty, `static` iff the field is static, `java.lang.Deprecated` iff the field is deprecated, and the body of `CodeBlockText` |
| `SetterFieldProcessor.CreateSetterMethod` | src/main/java/de/plushnikov/intellij/plugin/processor/field/SetterFieldProcessor.java:92-132 | building the method step by step yields exactly `Setter` |
| `SetterFieldProcessor.ChainedSetterReturnsThis` | src/main/java/de/plushnikov/intellij/plugin/processor/field/SetterFieldProcessor.java:141-158 | a generated setter ends with `return this;` iff the field is non-static and chaining is on; its whole body is then `this.<field> = <field>; return this;` |
| `SetterFieldProcessor.InstanceSetterAssignsThis` | src/main/java/de/plushnikov/intellij/plugin/processor/field/SetterFieldProcessor.java:101-142 | an instance setter's body begins `this.<field> = <field>; ` and its parameter carries the field's name |
| `SetterFieldProcessor.StaticSetterShape` | src/main/java/de/plushnikov/intellij/plugin/processor/field/SetterFieldProcessor.java:109-161 | a static field's setter is a `void` static method whose whole body is `<Class>.<field> = <field>; ` |
| `SetterFieldProcessor.SetterModifiers` | src/main/java/de/plushnikov/intellij/plugin/processor/field/SetterFieldProcessor.java:106-112 | the access modifier is present iff non-empty; `static` is present iff the field is static; at most two modifiers |
| `SetterFieldProcessor.Generated` | src/main/java/de/plushnikov/intellij/plugin/processor/field/SetterFieldProcessor.java:35-43 | at most one element; exactly one, the `Setter` for the field's class and visibility, iff a visibility is requested and the class exists |
| `SetterFieldProcessor.GeneratePsiElements` | src/main/java/de/plushnikov/intellij/plugin/processor/field/SetterFieldProcessor.java:35-43 | the caller's list becomes its old contents followed by `Generated`; otherwise it is unchanged |
| `SetterFieldProcessor.ValidatedFieldGetsSetter` | src/main/java/de/plushnikov/intellij/plugin/processor/field/SetterFieldProcessor.java:38-76 | a field that passed validation and has a containing class gets exactly one setter, with the field as its parameter |
| `SetterFieldProcessor.CheckFieldUsage` | src/main/java/de/plushnikov/intellij/plugin/processor/field/SetterFieldProcessor.java:163-166 | the usage is always `Write`, whatever the field and annotation |

## Left out

- Host queries are inputs, not computed: the requested access modifier, the accessor
  configuration (chaining, prefix fit), the setter name, the class type with generics,
  and what the `onParam` check and the clashing-method check report. Their sources are
  not part of this model. In particular the prefix input is whatever
  `isPrefixUnDefinedOrNotStartsWith` answers for the field name; what it counts as
  "undefined" is not modelled.
- `getAllSetterNames`: it only forwards to a naming helper whose source is not part of this model.
- Copying of copyable and `onParam`/`onMethod` annotations onto the setter and its
  parameter (lines 114-123): done by IDE helpers outside this file. The model's
  annotation list holds only the `java.lang.Deprecated` annotation.
- The null check on the setter's parameter (line 115): the parameter always exists,
  because the builder was just given one, so only the present case is modelled.
- Warning message texts and the quick-fix objects: the model records which warning
  was raised and, for a final field, that the fix removes `final`.
- `ElementUsage`: the plugin's usage enum is not part of this model. Only `Write` is
  produced here; `Read` and `ReadWrite` are declared so that "always `Write`" is a
  statement about one value among several, and they need not match the enum's other values.
- The method builder's IDE manager and navigation element are reduced to the field name.
- The context files `ValueModifierTest.java` and `RequiredApiVersion.java`: an IDE
  fixture test over external data and a bare annotation, with no logic to model.
