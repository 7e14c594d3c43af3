# Fixkture class generator, modelled in Dafny

This project models the class generator of Fixkture, a test-fixture
generator. Given a class and a constructor selection function, the generator
builds a tree of *instantiation fields*. Each field renders itself as Java or
Kotlin source text, either as a constructor argument or as a flat value. For a
class the text is a constructor call whose arguments are the fields built for
the constructor's parameters.

The Kotlin file is pure: immutable values, string templates, `map` and
`joinToString`. It is modelled with datatypes, recursive functions and
lemmas:

- `strings.dfy` (module `Strings`): `Join`, Kotlin's `joinToString`.
- `fields.dfy` (module `InstantiationFields`): the field tree (`NullField`,
  `ClassField`, `ParamField`, `External`), the rendering context and the four
  rendering operations. These are one function `Render(of, field, language, form, context)`.
  `language` is `Java` or `Kotlin`; `form` is `ConstructorArgument` or `FlatValue`.
- `generator.dfy` (module `ClassGeneration`): `GenerateClass`, the dispatcher
  context, the end-to-end text of a generated class, and two worked examples.
- `wrappers.dfy` (module `Wrappers`): `Option`, for the selector's nullable result.

Assumptions and abstractions:

- **Callback builders.** `CallbackClassInstantiationFieldBuilder` and
  `LanguageCallbackValueGenerator` are not part of this model. The model
  assumes that both Java operations call the `java` callback and both Kotlin
  operations call the `kotlin` callback. So `NullField` and `ClassField`
  render the same text in both forms.
- **External inputs.** The host's `TargetElement.of` is the function parameter
  `of`, with no properties assumed. The per-type dispatcher
  `createInstantiationField` is the function parameter `dispatch`. The
  constructor selector is a function-valued field of the context.
- **Fields from other generators.** Fields built by generators outside this
  file are `External` nodes. Their four renderings are arbitrary functions of
  (language, form, context).
- **Host records.** A PSI class is its qualified name and an `isKotlin` flag,
  which stands for the `KtUltraLightClass` test. A PSI parameter is its name
  and an identity.
- **Context.** `FieldConstructionContext` is not shown beyond `fieldName` and
  `targetElement`. Any other fields it has are `otherFields`, which `copy`
  carries over unchanged.

Java output carries the `new` prefix (ClassGenerator.kt:70), so `PointScenario`
proves `new Point(0, 0)` for Java and `Point(0, 0)` for Kotlin.

The callback routing has a consequence. A class field, or the null field, gives
the same text in both forms. So the flat form chosen for the arguments of a
non-Kotlin class changes only those children whose generator distinguishes
the two forms. A nested class-field child is not flattened
(`NestedClassNotFlattened`).

Rendering is deterministic and has no side effects, because every operation
is a Dafny function.

## Model

| member | source | states |
|---|---|---|
| InstantiationFields.NullRendersNull | src/main/kotlin/io/github/pelletier197/fixkture/domain/generator/java/ClassGenerator.kt:11-16 | The null field renders as `null` in all four operations, whatever the context. |
| InstantiationFields.Render | src/main/kotlin/io/github/pelletier197/fixkture/domain/generator/java/ClassGenerator.kt:11-66 | No contract of its own. The four operations: null, class-field callbacks and parameter forwarding. Stated by NullRendersNull, ClassFieldRendering and ParamFieldForwards. |
| InstantiationFields.GenerateJavaClass | src/main/kotlin/io/github/pelletier197/fixkture/domain/generator/java/ClassGenerator.kt:68-71 | No contract of its own. Stated by ClassFieldRendering (Java clause). |
| InstantiationFields.GenerateKotlinClass | src/main/kotlin/io/github/pelletier197/fixkture/domain/generator/java/ClassGenerator.kt:73-76 | No contract of its own. Stated by ClassFieldRendering (Kotlin clauses). |
| InstantiationFields.GetKotlinParametersString | src/main/kotlin/io/github/pelletier197/fixkture/domain/generator/java/ClassGenerator.kt:78-86 | No contract of its own. Stated by ClassFieldRendering and ClassFieldUsesArgumentList: constructor-argument texts for a Kotlin class, flat texts otherwise. |
| InstantiationFields.ModifyContext | src/main/kotlin/io/github/pelletier197/fixkture/domain/generator/java/ClassGenerator.kt:38-43 | The rewritten context has `fieldName` = the parameter's name and `targetElement` = `of(parameter)`. Every other context field is unchanged. |
| InstantiationFields.ParamFieldForwards | src/main/kotlin/io/github/pelletier197/fixkture/domain/generator/java/ClassGenerator.kt:22-36 | Each of the wrapper's four operations is the child's same operation, applied to the copied context with the parameter's name and element. |
| InstantiationFields.ParamFieldHidesCallerBinding | src/main/kotlin/io/github/pelletier197/fixkture/domain/generator/java/ClassGenerator.kt:22-43 | A wrapper's text does not depend on the caller's `fieldName` or `targetElement`. Only the other context fields can reach the child. |
| InstantiationFields.InnermostBindingWins | src/main/kotlin/io/github/pelletier197/fixkture/domain/generator/java/ClassGenerator.kt:38-43 | With two wrappers nested, the child observes only the inner parameter's binding. |
| InstantiationFields.RenderAll | src/main/kotlin/io/github/pelletier197/fixkture/domain/generator/java/ClassGenerator.kt:69 | Argument texts: one per argument, in list order, each rendered with the same unchanged context. |
| InstantiationFields.ClassFieldRendering | src/main/kotlin/io/github/pelletier197/fixkture/domain/generator/java/ClassGenerator.kt:58-86 | Java: `"new " + Q + "(" + Join(Java constructor-argument texts, ", ") + ")"`. Kotlin, Kotlin class: `Q + "(" + Join(Kotlin constructor-argument texts) + ")"`. Kotlin, Java class: the same with Kotlin flat-value texts. The requested form is ignored. |
| InstantiationFields.EmptyArgumentList | src/main/kotlin/io/github/pelletier197/fixkture/domain/generator/java/ClassGenerator.kt:68-76 | No arguments give `new Q()` in Java and `Q()` in Kotlin. |
| InstantiationFields.SingleArgumentClass | src/main/kotlin/io/github/pelletier197/fixkture/domain/generator/java/ClassGenerator.kt:68-86 | With one argument: `new Q(<Java constructor-argument text>)` in Java. In Kotlin, `Q(<text>)` with the constructor-argument text for a Kotlin class and the flat text otherwise. |
| InstantiationFields.ClassFieldIgnoresForm | src/main/kotlin/io/github/pelletier197/fixkture/domain/generator/java/ClassGenerator.kt:58-66 | A class field renders the same text in both forms, also under a parameter binding. Both Java operations go to the `java` callback and both Kotlin operations to the `kotlin` callback. |
| InstantiationFields.ArgumentOrder | src/main/kotlin/io/github/pelletier197/fixkture/domain/generator/java/ClassGenerator.kt:69-85 | Splitting the arguments into a non-empty front and back: the front's text comes first, then one `", "`, then the back's text. |
| InstantiationFields.ClassFieldUsesArgumentList | src/main/kotlin/io/github/pelletier197/fixkture/domain/generator/java/ClassGenerator.kt:68-86 | Both languages lay out the arguments as `ArgumentList`, whose form is flat exactly for Kotlin with a non-Kotlin target class. |
| InstantiationFields.JavaIgnoresOrigin | src/main/kotlin/io/github/pelletier197/fixkture/domain/generator/java/ClassGenerator.kt:68-71 | Changing the Kotlin/Java origin tag of any class anywhere in a tree leaves the tree's Java rendering unchanged. |
| InstantiationFields.BlindRendering | src/main/kotlin/io/github/pelletier197/fixkture/domain/generator/java/ClassGenerator.kt:22-43 | Suppose no external generator in a tree reads `fieldName` or `targetElement`. Then the tree renders the same under contexts that differ only in those two fields. |
| InstantiationFields.UnwrapKeepsText | src/main/kotlin/io/github/pelletier197/fixkture/domain/generator/java/ClassGenerator.kt:18-44 | Suppose no external generator in a tree reads the field name or target element. Then removing every parameter wrapper leaves all four renderings unchanged. |
| Strings.Join | src/main/kotlin/io/github/pelletier197/fixkture/domain/generator/java/ClassGenerator.kt:69 | `joinToString`: `[]` gives `""` and `[x]` gives `x`. The length is the sum of the parts plus one separator per neighbouring pair. |
| Strings.JoinConcat | src/main/kotlin/io/github/pelletier197/fixkture/domain/generator/java/ClassGenerator.kt:69 | Joining `a + b`, with both non-empty, is `Join(a)`, then one separator, then `Join(b)`. |
| ClassGeneration.AsBuilderContext | src/main/kotlin/io/github/pelletier197/fixkture/domain/generator/java/ClassGenerator.kt:50-55 | The dispatcher context has `targetElement = of(element)` and the same constructor selector. |
| ClassGeneration.ConvertClassArgument | src/main/kotlin/io/github/pelletier197/fixkture/domain/generator/java/ClassGenerator.kt:104-113 | No contract of its own. Stated by GenerateClass's ensures on each child. |
| ClassGeneration.GenerateClass | src/main/kotlin/io/github/pelletier197/fixkture/domain/generator/java/ClassGenerator.kt:89-113 | Null field if and only if the selector yields none. Otherwise a class field for the same class with one child per constructor parameter, in declared order. The i-th child is bound to the i-th parameter. Its field is the dispatcher's result for `of(parameter_i)` and the same selector. |
| ClassGeneration.NullFallback | src/main/kotlin/io/github/pelletier197/fixkture/domain/generator/java/ClassGenerator.kt:91 | With no selectable constructor, the generated field renders `null` in all four operations. |
| ClassGeneration.GeneratedClassText | src/main/kotlin/io/github/pelletier197/fixkture/domain/generator/java/ClassGenerator.kt:68-113 | End to end, one text per parameter in order. Java: `new Q(...)` joining each dispatcher field's Java constructor-argument text under its parameter's binding. Kotlin: `Q(...)` with constructor-argument texts for a Kotlin class and flat-value texts otherwise. |
| ClassGeneration.GeneratedClassHidesCallerBinding | src/main/kotlin/io/github/pelletier197/fixkture/domain/generator/java/ClassGenerator.kt:89-113 | A generated field's text does not depend on the caller's `fieldName` or `targetElement`. |
| ClassGeneration.PointScenario | src/main/kotlin/io/github/pelletier197/fixkture/domain/generator/java/ClassGenerator.kt:68-113 | `Point(x: Int, y: Int)` with a literal-`0` dispatcher renders `new Point(0, 0)` in Java and `Point(0, 0)` in Kotlin. |
| ClassGeneration.NestingScenario | src/main/kotlin/io/github/pelletier197/fixkture/domain/generator/java/ClassGenerator.kt:73-86 | The child is an external generator whose constructor-argument text is `Inner(1)` and whose flat text is the bound field name. Java gives `new Outer(Inner(1))`. Kotlin gives `Outer(Inner(1))` for a Kotlin `Outer` and `Outer(inner)` for a Java `Outer`. Only children whose generator tells the two forms apart are flattened. |
| ClassGeneration.NestedClassNotFlattened | src/main/kotlin/io/github/pelletier197/fixkture/domain/generator/java/ClassGenerator.kt:58-86 | A Kotlin call with one argument that is a parameter-bound class field renders that child's Kotlin constructor-argument text, whether or not the outer class is a Kotlin class. |

## Left out

- The PSI types and the `KtUltraLightClass` runtime type test are replaced by the abstract records above.
- A qualified name that PSI reports as null, which a Kotlin string template prints as `null`, is not modelled. Qualified names are plain strings.
- `createInstantiationField`, the per-type dispatcher, is not part of this model. It is the parameter `dispatch`, and its results are arbitrary fields.
- The constructor selection policies are not part of this model. The selector is an arbitrary function.
- `CallbackClassInstantiationFieldBuilder` and `LanguageCallbackValueGenerator` are not part of this model. Their routing of the four operations to the two callbacks is the assumption stated above.
- Termination of the mutual recursion between `generateClass` and the dispatcher for self-referential class graphs is not modelled. The source has no guard against it. Here a generated tree is a finite value, and `dispatch` is a given function.
- Errors are not modelled. An exception thrown by the constructor selector (ClassGenerator.kt:91) or by the dispatcher (ClassGenerator.kt:109, inside the `map` at 94-96) propagates out of `generateClass`. Here `constructorSelector` and `dispatch` are total functions, so `GenerateClass` always returns a field.
- `PsiElementInstantiationStatementBuilderContext` is modelled as `ElementBuilderContext`. It holds only the two fields set at ClassGenerator.kt:51-54 (`targetElement`, `constructorSelector`). Any other fields of that class are not part of this model.
