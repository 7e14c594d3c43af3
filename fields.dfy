/**
  The instantiation-field tree and its four renderings.

  A field renders itself in one of two languages (Java, Kotlin) and one of
  two forms (as a constructor argument, as a flat value): these are the four
  operations `asJavaConstructorArgument`, `asKotlinConstructorArgument`,
  `asJavaFlatValue` and `asKotlinFlatValue`, given here as one function
  `Render` taking the language and the form.

  Host-side entities are abstract records: a class is its qualified name and
  whether it is declared in Kotlin; a parameter is its name and an identity;
  `TargetElement.of` is not visible and is taken as a function parameter `of`.
 */
module InstantiationFields {
  import opened Strings

  datatype Language = Java | Kotlin

  datatype Form = ConstructorArgument | FlatValue

  /** Opaque handle on the element a value is generated for. */
  datatype TargetElement = TargetElement(handle: nat)

  /** A constructor parameter: its name and the identity of its declaration. */
  datatype Parameter = Parameter(name: string, id: nat)

  /** A class: its qualified name and whether it is declared in Kotlin. */
  datatype ClassDesc = ClassDesc(qualifiedName: string, isKotlin: bool)

  /**
    The rendering context. `fieldName` and `targetElement` are the fields this
    core overrides; `otherFields` stands for every other field of the record,
    which a data-class `copy` carries over unchanged.
   */
  datatype FieldConstructionContext = FieldConstructionContext(
    fieldName: string,
    targetElement: TargetElement,
    otherFields: map<string, string>)

  /**
    A node of the instantiation tree.
    - NullField: the fallback when no constructor is selected.
    - ClassField: a constructor call of `targetClass` with one argument field
      per constructor parameter, in order.
    - ParamField: a child bound to a constructor parameter.
    - External: a field built by a generator outside this core (primitives,
      collections, enums, ...); its four renderings are arbitrary functions of
      the context.
   */
  datatype Field =
    | NullField
    | ClassField(targetClass: ClassDesc, argumentsFields: seq<Field>)
    | ParamField(parameter: Parameter, instantiationField: Field)
    | External(render: (Language, Form, FieldConstructionContext) -> string)

  const Separator := ", "

  /** The context a parameter-bound field hands to its child. */
  function ModifyContext(of: Parameter -> TargetElement, parameter: Parameter,
                         context: FieldConstructionContext): (r: FieldConstructionContext)
    ensures r.fieldName == parameter.name
    ensures r.targetElement == of(parameter)
    ensures r.otherFields == context.otherFields
  {
    context.(fieldName := parameter.name, targetElement := of(parameter))
  }

  /**
    The four rendering operations. NullField and ClassField are callback
    builders: both Java operations call the `java` callback and both Kotlin
    operations call the `kotlin` callback, so for them the form is ignored.
   */
  function Render(of: Parameter -> TargetElement, f: Field, language: Language, form: Form,
                  context: FieldConstructionContext): string
    decreases f
  {
    match f
    case NullField => "null"
    case ClassField(targetClass, arguments) =>
      (match language
       case Java => GenerateJavaClass(of, targetClass, arguments, context)
       case Kotlin => GenerateKotlinClass(of, targetClass, arguments, context))
    case ParamField(parameter, child) =>
      Render(of, child, language, form, ModifyContext(of, parameter, context))
    case External(render) => render(language, form, context)
  }

  /** Every argument rendered in one language and form, all with the same context, in order. */
  function RenderAll(of: Parameter -> TargetElement, arguments: seq<Field>, language: Language,
                     form: Form, context: FieldConstructionContext): (r: seq<string>)
    ensures |r| == |arguments|
    ensures forall i :: 0 <= i < |arguments| ==> r[i] == Render(of, arguments[i], language, form, context)
    decreases arguments, 0
  {
    if arguments == [] then []
    else [Render(of, arguments[0], language, form, context)]
         + RenderAll(of, arguments[1..], language, form, context)
  }

  function GenerateJavaClass(of: Parameter -> TargetElement, targetClass: ClassDesc,
                             arguments: seq<Field>, context: FieldConstructionContext): string
    decreases arguments, 1
  {
    var parameters := Join(RenderAll(of, arguments, Java, ConstructorArgument, context), Separator);
    "new " + targetClass.qualifiedName + "(" + parameters + ")"
  }

  function GenerateKotlinClass(of: Parameter -> TargetElement, targetClass: ClassDesc,
                               arguments: seq<Field>, context: FieldConstructionContext): string
    decreases arguments, 2
  {
    var parameters := GetKotlinParametersString(of, targetClass, arguments, context);
    targetClass.qualifiedName + "(" + parameters + ")"
  }

  /** Nested constructor calls only when the target class is itself a Kotlin class. */
  function GetKotlinParametersString(of: Parameter -> TargetElement, targetClass: ClassDesc,
                                     arguments: seq<Field>, context: FieldConstructionContext): string
    decreases arguments, 1
  {
    if targetClass.isKotlin then
      Join(RenderAll(of, arguments, Kotlin, ConstructorArgument, context), Separator)
    else
      Join(RenderAll(of, arguments, Kotlin, FlatValue, context), Separator)
  }

  /** The form in which a class field renders its arguments in a given language. */
  function ArgumentForm(language: Language, targetClass: ClassDesc): (r: Form)
    ensures r == FlatValue <==> language == Kotlin && !targetClass.isKotlin
  {
    if language == Kotlin && !targetClass.isKotlin then FlatValue else ConstructorArgument
  }

  /** The arguments' texts joined by the separator, as a class field lays them out. */
  function ArgumentList(of: Parameter -> TargetElement, targetClass: ClassDesc, arguments: seq<Field>,
                        language: Language, context: FieldConstructionContext): string
  {
    Join(RenderAll(of, arguments, language, ArgumentForm(language, targetClass), context), Separator)
  }

  // ---------------------------------------------------------------------------
  // The null field

  lemma NullRendersNull(of: Parameter -> TargetElement, language: Language, form: Form,
                        context: FieldConstructionContext)
    ensures Render(of, NullField, language, form, context) == "null"
  {
  }

  // ---------------------------------------------------------------------------
  // The class field

  /**
    Java: `new Q(args)` with every argument in its Java constructor-argument
    form. Kotlin: `Q(args)` with every argument in its Kotlin
    constructor-argument form when Q is a Kotlin class and in its Kotlin
    flat-value form otherwise. The form asked of the class field itself does
    not matter.
   */
  lemma ClassFieldRendering(of: Parameter -> TargetElement, targetClass: ClassDesc, arguments: seq<Field>,
                            form: Form, context: FieldConstructionContext)
    ensures Render(of, ClassField(targetClass, arguments), Java, form, context)
         == "new " + targetClass.qualifiedName + "("
            + Join(RenderAll(of, arguments, Java, ConstructorArgument, context), Separator) + ")"
    ensures targetClass.isKotlin ==>
              (Render(of, ClassField(targetClass, arguments), Kotlin, form, context)
               == targetClass.qualifiedName + "("
                  + Join(RenderAll(of, arguments, Kotlin, ConstructorArgument, context), Separator) + ")")
    ensures !targetClass.isKotlin ==>
              (Render(of, ClassField(targetClass, arguments), Kotlin, form, context)
               == targetClass.qualifiedName + "("
                  + Join(RenderAll(of, arguments, Kotlin, FlatValue, context), Separator) + ")")
  {
    assert Render(of, ClassField(targetClass, arguments), Kotlin, form, context)
        == GenerateKotlinClass(of, targetClass, arguments, context);
    assert GenerateKotlinClass(of, targetClass, arguments, context)
        == targetClass.qualifiedName + "(" + GetKotlinParametersString(of, targetClass, arguments, context) + ")";
  }

  /**
    Under the callback routing, a class field gives the same text whether it
    is asked for its constructor-argument form or its flat-value form, also
    behind a parameter binding. So a Kotlin call on a non-Kotlin class does
    not flatten a child that is itself a class field.
   */
  lemma ClassFieldIgnoresForm(of: Parameter -> TargetElement, parameter: Parameter, targetClass: ClassDesc,
                              arguments: seq<Field>, language: Language, context: FieldConstructionContext)
    ensures Render(of, ClassField(targetClass, arguments), language, FlatValue, context)
         == Render(of, ClassField(targetClass, arguments), language, ConstructorArgument, context)
    ensures Render(of, ParamField(parameter, ClassField(targetClass, arguments)), language, FlatValue, context)
         == Render(of, ParamField(parameter, ClassField(targetClass, arguments)), language, ConstructorArgument, context)
  {
  }

  /** With no arguments the call is `new Q()` in Java and `Q()` in Kotlin. */
  lemma EmptyArgumentList(of: Parameter -> TargetElement, targetClass: ClassDesc, form: Form,
                          context: FieldConstructionContext)
    ensures Render(of, ClassField(targetClass, []), Java, form, context)
         == "new " + targetClass.qualifiedName + "()"
    ensures Render(of, ClassField(targetClass, []), Kotlin, form, context)
         == targetClass.qualifiedName + "()"
  {
  }

  /** A class field with one argument: the argument's text, in the form ArgumentForm chooses, between the parentheses. */
  lemma SingleArgumentClass(of: Parameter -> TargetElement, targetClass: ClassDesc, argument: Field,
                            form: Form, context: FieldConstructionContext)
    ensures Render(of, ClassField(targetClass, [argument]), Java, form, context)
         == "new " + targetClass.qualifiedName + "(" + Render(of, argument, Java, ConstructorArgument, context) + ")"
    ensures Render(of, ClassField(targetClass, [argument]), Kotlin, form, context)
         == targetClass.qualifiedName + "("
            + Render(of, argument, Kotlin, ArgumentForm(Kotlin, targetClass), context) + ")"
  {
    ClassFieldUsesArgumentList(of, targetClass, [argument], form, context);
    assert RenderAll(of, [argument], Java, ArgumentForm(Java, targetClass), context)
        == [Render(of, argument, Java, ConstructorArgument, context)];
    assert RenderAll(of, [argument], Kotlin, ArgumentForm(Kotlin, targetClass), context)
        == [Render(of, argument, Kotlin, ArgumentForm(Kotlin, targetClass), context)];
  }

  /**
    Argument order is kept: splitting the argument list into a front and a
    back part, the rendered front comes first, then one separator, then the
    rendered back.
   */
  lemma ArgumentOrder(of: Parameter -> TargetElement, targetClass: ClassDesc, front: seq<Field>,
                      back: seq<Field>, language: Language, context: FieldConstructionContext)
    requires |front| > 0 && |back| > 0
    ensures ArgumentList(of, targetClass, front + back, language, context)
         == ArgumentList(of, targetClass, front, language, context) + Separator
            + ArgumentList(of, targetClass, back, language, context)
  {
    var form := ArgumentForm(language, targetClass);
    var all := RenderAll(of, front + back, language, form, context);
    var f := RenderAll(of, front, language, form, context);
    var b := RenderAll(of, back, language, form, context);
    assert all == f + b;
    JoinConcat(f, b, Separator);
  }

  /** A class field always lays out its arguments as ArgumentList says. */
  lemma ClassFieldUsesArgumentList(of: Parameter -> TargetElement, targetClass: ClassDesc,
                                   arguments: seq<Field>, form: Form, context: FieldConstructionContext)
    ensures Render(of, ClassField(targetClass, arguments), Java, form, context)
         == "new " + targetClass.qualifiedName + "(" + ArgumentList(of, targetClass, arguments, Java, context) + ")"
    ensures Render(of, ClassField(targetClass, arguments), Kotlin, form, context)
         == targetClass.qualifiedName + "(" + ArgumentList(of, targetClass, arguments, Kotlin, context) + ")"
  {
    ClassFieldRendering(of, targetClass, arguments, form, context);
  }

  // ---------------------------------------------------------------------------
  // Java rendering does not consult whether a class is declared in Kotlin

  /** The same tree with every class's origin tag replaced by `origin`. */
  function Retagged(f: Field, origin: ClassDesc -> bool): (r: Field)
    decreases f
  {
    match f
    case NullField => NullField
    case ClassField(c, arguments) =>
      ClassField(c.(isKotlin := origin(c)),
                 seq(|arguments|, i requires 0 <= i < |arguments| => Retagged(arguments[i], origin)))
    case ParamField(p, child) => ParamField(p, Retagged(child, origin))
    case External(render) => External(render)
  }

  lemma {:induction false} JavaIgnoresOrigin(of: Parameter -> TargetElement, f: Field, origin: ClassDesc -> bool,
                                             form: Form, context: FieldConstructionContext)
    ensures Render(of, Retagged(f, origin), Java, form, context) == Render(of, f, Java, form, context)
    decreases f
  {
    match f
    case NullField =>
    case External(_) =>
    case ParamField(p, child) =>
      JavaIgnoresOrigin(of, child, origin, form, ModifyContext(of, p, context));
    case ClassField(c, arguments) =>
      var retagged := Retagged(f, origin).argumentsFields;
      forall i | 0 <= i < |arguments|
        ensures Render(of, retagged[i], Java, ConstructorArgument, context)
             == Render(of, arguments[i], Java, ConstructorArgument, context)
      {
        JavaIgnoresOrigin(of, arguments[i], origin, ConstructorArgument, context);
      }
      assert RenderAll(of, retagged, Java, ConstructorArgument, context)
          == RenderAll(of, arguments, Java, ConstructorArgument, context);
  }

  // ---------------------------------------------------------------------------
  // The parameter-bound field

  /** Each of the four operations is the child's same operation under the rewritten context. */
  lemma ParamFieldForwards(of: Parameter -> TargetElement, parameter: Parameter, child: Field,
                           language: Language, form: Form, context: FieldConstructionContext)
    ensures Render(of, ParamField(parameter, child), language, form, context)
         == Render(of, child, language, form,
                   FieldConstructionContext(parameter.name, of(parameter), context.otherFields))
  {
  }

  /**
    What the caller's context says about field name and target element never
    reaches the child of a parameter-bound field.
   */
  lemma ParamFieldHidesCallerBinding(of: Parameter -> TargetElement, parameter: Parameter, child: Field,
                                     language: Language, form: Form,
                                     context1: FieldConstructionContext, context2: FieldConstructionContext)
    requires context1.otherFields == context2.otherFields
    ensures Render(of, ParamField(parameter, child), language, form, context1)
         == Render(of, ParamField(parameter, child), language, form, context2)
  {
  }

  /** Of two nested bindings, the inner one is what the child sees. */
  lemma InnermostBindingWins(of: Parameter -> TargetElement, outer: Parameter, inner: Parameter, child: Field,
                             language: Language, form: Form, context: FieldConstructionContext)
    ensures Render(of, ParamField(outer, ParamField(inner, child)), language, form, context)
         == Render(of, ParamField(inner, child), language, form, context)
  {
  }

  /**
    A tree none of whose external generators reads `fieldName` or
    `targetElement`.
   */
  ghost predicate NameBlind(f: Field)
    decreases f
  {
    match f
    case NullField => true
    case ClassField(_, arguments) => forall i :: 0 <= i < |arguments| ==> NameBlind(arguments[i])
    case ParamField(_, child) => NameBlind(child)
    case External(render) =>
      forall language, form, c1: FieldConstructionContext, c2: FieldConstructionContext
        :: c1.otherFields == c2.otherFields ==> render(language, form, c1) == render(language, form, c2)
  }

  /** The same tree with every parameter binding removed. */
  function Unwrapped(f: Field): (r: Field)
    decreases f
  {
    match f
    case NullField => NullField
    case ClassField(c, arguments) =>
      ClassField(c, seq(|arguments|, i requires 0 <= i < |arguments| => Unwrapped(arguments[i])))
    case ParamField(_, child) => Unwrapped(child)
    case External(render) => External(render)
  }

  /** A name-blind tree renders the same under contexts that differ only in field name and target element. */
  lemma {:induction false} BlindRendering(of: Parameter -> TargetElement, f: Field, language: Language, form: Form,
                                          context1: FieldConstructionContext, context2: FieldConstructionContext)
    requires NameBlind(f)
    requires context1.otherFields == context2.otherFields
    ensures Render(of, f, language, form, context1) == Render(of, f, language, form, context2)
    decreases f
  {
    match f
    case NullField =>
    case External(_) =>
    case ParamField(p, child) =>
      assert ModifyContext(of, p, context1) == ModifyContext(of, p, context2);
    case ClassField(c, arguments) =>
      forall form' | form' in {ConstructorArgument, FlatValue}
        ensures RenderAll(of, arguments, language, form', context1)
             == RenderAll(of, arguments, language, form', context2)
      {
        forall i | 0 <= i < |arguments|
          ensures Render(of, arguments[i], language, form', context1)
               == Render(of, arguments[i], language, form', context2)
        {
          BlindRendering(of, arguments[i], language, form', context1, context2);
        }
      }
      ClassFieldRendering(of, c, arguments, form, context1);
      ClassFieldRendering(of, c, arguments, form, context2);
  }

  /**
    Removing the parameter bindings from a name-blind tree does not change
    any of its renderings: the bindings only change what the children observe.
   */
  lemma {:induction false} UnwrapKeepsText(of: Parameter -> TargetElement, f: Field, language: Language, form: Form,
                                           context: FieldConstructionContext)
    requires NameBlind(f)
    ensures Render(of, Unwrapped(f), language, form, context) == Render(of, f, language, form, context)
    decreases f
  {
    match f
    case NullField =>
    case External(_) =>
    case ParamField(p, child) =>
      BlindRendering(of, child, language, form, ModifyContext(of, p, context), context);
      UnwrapKeepsText(of, child, language, form, context);
    case ClassField(c, arguments) =>
      var unwrapped := Unwrapped(f).argumentsFields;
      forall form' | form' in {ConstructorArgument, FlatValue}
        ensures RenderAll(of, unwrapped, language, form', context)
             == RenderAll(of, arguments, language, form', context)
      {
        forall i | 0 <= i < |arguments|
          ensures Render(of, unwrapped[i], language, form', context)
               == Render(of, arguments[i], language, form', context)
        {
          UnwrapKeepsText(of, arguments[i], language, form', context);
        }
      }
      ClassFieldRendering(of, c, arguments, form, context);
      ClassFieldRendering(of, c, unwrapped, form, context);
  }
}
