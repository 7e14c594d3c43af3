/**
  Building the instantiation tree of a class: pick a constructor with the
  caller's selection function, fall back to the null field when there is
  none, and otherwise bind one field per constructor parameter, in declared
  order. The per-type dispatcher that builds a parameter's field is not part
  of this model and is taken as a function parameter `dispatch`.
 */
module ClassGeneration {
  import opened Wrappers
  import opened Strings
  import opened InstantiationFields

  /** A constructor: its parameters in declared order. */
  datatype Constructor = Constructor(parameters: seq<Parameter>)

  type ConstructorSelectionFunction = ClassDesc -> Option<Constructor>

  datatype ClassInstantiationContext = ClassInstantiationContext(
    targetClass: ClassDesc,
    constructorSelector: ConstructorSelectionFunction)

  /** The context handed to the dispatcher for one element. */
  datatype ElementBuilderContext = ElementBuilderContext(
    targetElement: TargetElement,
    constructorSelector: ConstructorSelectionFunction)

  type Dispatcher = ElementBuilderContext -> Field

  /** The dispatcher's context for a parameter: its target element, and the same selector. */
  function AsBuilderContext(context: ClassInstantiationContext, of: Parameter -> TargetElement,
                            element: Parameter): (r: ElementBuilderContext)
    ensures r.targetElement == of(element)
    ensures r.constructorSelector == context.constructorSelector
  {
    ElementBuilderContext(targetElement := of(element), constructorSelector := context.constructorSelector)
  }

  function ConvertClassArgument(parameter: Parameter, context: ClassInstantiationContext,
                                of: Parameter -> TargetElement, dispatch: Dispatcher): Field
  {
    ParamField(parameter, dispatch(AsBuilderContext(context, of, parameter)))
  }

  /**
    The null field when the selector yields no constructor; otherwise a class
    field for the same class with the i-th child bound to the i-th parameter
    and built by the dispatcher for that parameter's element, with the
    caller's selector.
   */
  function GenerateClass(context: ClassInstantiationContext, of: Parameter -> TargetElement,
                         dispatch: Dispatcher): (r: Field)
    ensures context.constructorSelector(context.targetClass).None? <==> r.NullField?
    ensures context.constructorSelector(context.targetClass).Some? ==>
              var parameters := context.constructorSelector(context.targetClass).value.parameters;
              && r.ClassField?
              && r.targetClass == context.targetClass
              && |r.argumentsFields| == |parameters|
              && forall i :: 0 <= i < |parameters| ==>
                   && r.argumentsFields[i].ParamField?
                   && r.argumentsFields[i].parameter == parameters[i]
                   && r.argumentsFields[i].instantiationField
                      == dispatch(ElementBuilderContext(of(parameters[i]), context.constructorSelector))
  {
    var targetClass := context.targetClass;
    match context.constructorSelector(targetClass)
    case None => NullField
    case Some(targetConstructor) =>
      var arguments := targetConstructor.parameters;
      var instantiationFields := seq(|arguments|, i requires 0 <= i < |arguments| =>
                                       ConvertClassArgument(arguments[i], context, of, dispatch));
      ClassField(targetClass, instantiationFields)
  }

  /** Without a constructor, all four renderings are `null`. */
  lemma NullFallback(context: ClassInstantiationContext, of: Parameter -> TargetElement, dispatch: Dispatcher,
                     language: Language, form: Form, fieldContext: FieldConstructionContext)
    requires context.constructorSelector(context.targetClass).None?
    ensures Render(of, GenerateClass(context, of, dispatch), language, form, fieldContext) == "null"
  {
  }

  /**
    The i-th argument text of a generated class: the dispatcher's field for
    the i-th parameter, rendered with the context bound to that parameter.
   */
  function ParameterTexts(context: ClassInstantiationContext, of: Parameter -> TargetElement, dispatch: Dispatcher,
                          parameters: seq<Parameter>, language: Language, form: Form,
                          fieldContext: FieldConstructionContext): (r: seq<string>)
  {
    seq(|parameters|, i requires 0 <= i < |parameters| =>
          Render(of, dispatch(AsBuilderContext(context, of, parameters[i])), language, form,
                 ModifyContext(of, parameters[i], fieldContext)))
  }

  /**
    The text of a generated class, parameter by parameter: `new Q(...)` in
    Java; `Q(...)` in Kotlin, nesting constructor-argument texts when Q is a
    Kotlin class and using flat values otherwise.
   */
  lemma GeneratedClassText(context: ClassInstantiationContext, of: Parameter -> TargetElement, dispatch: Dispatcher,
                           form: Form, fieldContext: FieldConstructionContext)
    requires context.constructorSelector(context.targetClass).Some?
    ensures var parameters := context.constructorSelector(context.targetClass).value.parameters;
            var q := context.targetClass.qualifiedName;
            && Render(of, GenerateClass(context, of, dispatch), Java, form, fieldContext)
               == "new " + q + "("
                  + Join(ParameterTexts(context, of, dispatch, parameters, Java, ConstructorArgument, fieldContext), Separator)
                  + ")"
            && Render(of, GenerateClass(context, of, dispatch), Kotlin, form, fieldContext)
               == q + "("
                  + Join(ParameterTexts(context, of, dispatch, parameters, Kotlin,
                                        if context.targetClass.isKotlin then ConstructorArgument else FlatValue,
                                        fieldContext), Separator)
                  + ")"
  {
    var parameters := context.constructorSelector(context.targetClass).value.parameters;
    var r := GenerateClass(context, of, dispatch);
    forall form' | form' in {ConstructorArgument, FlatValue}, language | language in {Java, Kotlin}
      ensures RenderAll(of, r.argumentsFields, language, form', fieldContext)
           == ParameterTexts(context, of, dispatch, parameters, language, form', fieldContext)
    {
    }
    ClassFieldRendering(of, context.targetClass, r.argumentsFields, form, fieldContext);
  }

  /**
    A generated class never passes the caller's field name or target element
    on to the dispatcher-built fields: every child sees its own parameter's
    binding.
   */
  lemma GeneratedClassHidesCallerBinding(context: ClassInstantiationContext, of: Parameter -> TargetElement,
                                         dispatch: Dispatcher, language: Language, form: Form,
                                         fieldContext1: FieldConstructionContext,
                                         fieldContext2: FieldConstructionContext)
    requires fieldContext1.otherFields == fieldContext2.otherFields
    ensures Render(of, GenerateClass(context, of, dispatch), language, form, fieldContext1)
         == Render(of, GenerateClass(context, of, dispatch), language, form, fieldContext2)
  {
    var r := GenerateClass(context, of, dispatch);
    if r.ClassField? {
      forall form' | form' in {ConstructorArgument, FlatValue}
        ensures RenderAll(of, r.argumentsFields, language, form', fieldContext1)
             == RenderAll(of, r.argumentsFields, language, form', fieldContext2)
      {
        forall i | 0 <= i < |r.argumentsFields|
          ensures Render(of, r.argumentsFields[i], language, form', fieldContext1)
               == Render(of, r.argumentsFields[i], language, form', fieldContext2)
        {
          ParamFieldHidesCallerBinding(of, r.argumentsFields[i].parameter, r.argumentsFields[i].instantiationField,
                                       language, form', fieldContext1, fieldContext2);
        }
      }
      ClassFieldRendering(of, r.targetClass, r.argumentsFields, form, fieldContext1);
      ClassFieldRendering(of, r.targetClass, r.argumentsFields, form, fieldContext2);
    }
  }

  // ---------------------------------------------------------------------------
  // Worked examples

  /** A literal generator: the same text in all four renderings. */
  function Literal(text: string): Field
  {
    External((language, form, context) => text)
  }

  /**
    `Point(x: Int, y: Int)` with a selector that returns its one constructor
    and a dispatcher that answers the literal `0` for every parameter.
   */
  lemma PointScenario(of: Parameter -> TargetElement, form: Form, fieldContext: FieldConstructionContext)
    ensures var point := ClassDesc("Point", true);
            var context := ClassInstantiationContext(
              point, c => Some(Constructor([Parameter("x", 0), Parameter("y", 1)])));
            var dispatch := (b: ElementBuilderContext) => Literal("0");
            && Render(of, GenerateClass(context, of, dispatch), Java, form, fieldContext) == "new Point(0, 0)"
            && Render(of, GenerateClass(context, of, dispatch), Kotlin, form, fieldContext) == "Point(0, 0)"
  {
    var point := ClassDesc("Point", true);
    var context := ClassInstantiationContext(point, c => Some(Constructor([Parameter("x", 0), Parameter("y", 1)])));
    var dispatch := (b: ElementBuilderContext) => Literal("0");
    var parameters := [Parameter("x", 0), Parameter("y", 1)];
    GeneratedClassText(context, of, dispatch, form, fieldContext);
    forall language | language in {Java, Kotlin}
      ensures ParameterTexts(context, of, dispatch, parameters, language, ConstructorArgument, fieldContext)
           == ["0", "0"]
    {
    }
    assert Join(["0", "0"], Separator) == "0, 0";
  }

  /**
    A field whose constructor-argument form is the nested call `Inner(1)` and
    whose flat form is a pre-bound variable named after the field it fills.
   */
  function InnerValue(): Field
  {
    External((language: Language, form: Form, context: FieldConstructionContext) => if form == FlatValue then context.fieldName else "Inner(1)")
  }

  /**
    Kotlin nests the inner call only when the outer class is a Kotlin class;
    for a Java class it passes the flat value. Java nests in both cases.
   */
  lemma NestingScenario(of: Parameter -> TargetElement, isKotlin: bool, form: Form,
                        fieldContext: FieldConstructionContext)
    ensures var outer := ClassField(ClassDesc("Outer", isKotlin), [ParamField(Parameter("inner", 0), InnerValue())]);
            && Render(of, outer, Java, form, fieldContext) == "new Outer(Inner(1))"
            && Render(of, outer, Kotlin, form, fieldContext) == (if isKotlin then "Outer(Inner(1))" else "Outer(inner)")
  {
  }

  /**
    A nested class-field child is never flattened: its flat form is its
    constructor call, so the Kotlin text of a call with one class-typed
    argument does not depend on whether the outer class is a Kotlin class.
   */
  lemma NestedClassNotFlattened(of: Parameter -> TargetElement, outer: ClassDesc, parameter: Parameter,
                                inner: ClassDesc, innerArguments: seq<Field>, form: Form,
                                fieldContext: FieldConstructionContext)
    ensures var nested := ClassField(inner, innerArguments);
            Render(of, ClassField(outer, [ParamField(parameter, nested)]), Kotlin, form, fieldContext)
            == outer.qualifiedName + "("
               + Render(of, nested, Kotlin, ConstructorArgument, ModifyContext(of, parameter, fieldContext)) + ")"
  {
    var nested := ClassField(inner, innerArguments);
    SingleArgumentClass(of, outer, ParamField(parameter, nested), form, fieldContext);
    ClassFieldIgnoresForm(of, parameter, inner, innerArguments, Kotlin, fieldContext);
  }
}
