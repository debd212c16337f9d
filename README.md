# Code generation in the lonetrail annotation processors, modelled in Dafny

This project models three sequential code-generation pieces of the
lonetrail annotation module and proves what they produce.

- **`Annotations.Resolve.Method`** (module `Resolve`): the seven expression
  combinators `add`, `average`, `multiply`, `max`, `min`, `and` and `or`.
  Each takes the source text of some expressions and hands a JavaPoet
  format string, with its argument list, to a callback. The model computes
  that `(format, args)` pair and proves what it renders to. The `$L`/`$T`
  substitution is the small renderer in module `Template`, where `$T`
  stands for the `java.lang.Math` class name. `max` and `min` are a method
  (`Resolve.Nest`) whose loop inserts at positions 0 and 1, as the source
  does.
- **`Annotations.StructField.FloatPacker`** (module `FloatPacker`): the two
  float packers, each a bit size plus a pack and an unpack string wrapper.
- **JavaPoet's `ParameterSpec` and its `Builder`** (module
  `ParameterSpecs`, using `JavaNames` for the identifier rules):
  - `ParameterSpec` is an immutable datatype.
  - `Builder` is a class whose list fields its methods append to in place.
  - `emit` writes into a `CodeWriter` sink object.
  - Name validation follows the receiver-parameter rule of section 8.4.1
    of the Java Language Specification (SE 8).
  - Equality and hashing go through the rendered string.
  - `TypeName`, `AnnotationSpec` and `CodeBlock` are type parameters. Their
    renderings are passed in as a `Rendering` value of functions.
- **`LoadProcessor.process`** (module `LoadProcessor`): in the first round
  it builds the `Regions` class.
  - Its nested loops walk the `@Load` annotations and their region names.
  - A region already in the `processed` set is skipped.
  - Each new region gets a field and an atlas-lookup statement, plus an
    outline variant when that annotation asks for one.
  - The annotated elements are a sequence of `LoadAnn` values.
    `Strings.kebabToCamel` is a function parameter `camel`.

The model follows the code as written, in particular:
- `max`/`min` put the newest expression as the *first* argument of the
  outer call: `max(c, max(a, b))` (Annotations.java:361-364).
- The flat operators put no separator between inputs (see "## Findings").
- The `$L`/`$T` renderer in `Template` (`Template.Render`) refuses a format
  that leaves arguments unused. For one or more inputs every pair the
  combinators produce uses each argument exactly once
  (`Resolve.PlaceholdersMatchArguments`). With no input the pairs are
  those of `Resolve.EmptyInput`: the empty format with no argument, and
  `() / $L` with the single argument `0`, which also use each argument
  once.

## Model

| member | source | states |
|---|---|---|
| Resolve.Bool | annotations/src/lonetrail/annotations/Annotations.java:308-427 | the `bool` flag is true exactly for `and` and `or` |
| Resolve.Compute | annotations/src/lonetrail/annotations/Annotations.java:308-428 | each operator's `compute` hands over exactly the pair `Combination(m, vars)`: a single input is passed through, flat operators repeat `$L` once per input, `average` wraps that in `( ) / $L` with the count appended, `max`/`min` nest calls |
| Resolve.Nest | annotations/src/lonetrail/annotations/Annotations.java:350-368 | the loop with its in-body `i++`, `insert(0, …)`, `append(")")` and `args.insert(0)`/`insert(1)` builds exactly the nested pair `NestCode(name, vars)` |
| Resolve.SingleInput | annotations/src/lonetrail/annotations/Annotations.java:311-313 | with one input every operator hands over `$L` and that input, which renders to the input itself |
| Resolve.FlatOperators | annotations/src/lonetrail/annotations/Annotations.java:316-319 | for `add`, `multiply`, `and`, `or` with two or more inputs the format is `$L` repeated once per input with no separator, the args are the inputs unchanged, and the pair renders to the inputs run together |
| Resolve.AverageOperator | annotations/src/lonetrail/annotations/Annotations.java:327-331 | `average` of n ≥ 2 inputs has format `(` + `$L`×n + `) / $L`, args the inputs followed by the decimal numeral of n, and renders to `(` + inputs + `) / ` + n |
| Resolve.ScanDivided | annotations/src/lonetrail/annotations/Annotations.java:330 | wrapping a fully consumed format in `( ) / $L` and appending one more argument renders the parenthesised text divided by that argument |
| Resolve.EmptyInput | annotations/src/lonetrail/annotations/Annotations.java:316-331 | with no input there is no guard: flat and nesting operators hand over the empty format and no args, `average` hands over `() / $L` with `0` |
| Resolve.NestingOperators | annotations/src/lonetrail/annotations/Annotations.java:350-368 | `max`/`min` of n ≥ 2 inputs render to nested binary calls `Math.max(v(n-1), … Math.max(v0, v1)…)`, newest input first |
| Resolve.NestedShape | annotations/src/lonetrail/annotations/Annotations.java:354-366 | the nested format is `$T.max($L, ` ×(n−2), then `$T.max($L, $L)`, then `)` ×(n−2); the args are `Math, v(n−1), Math, v(n−2), …, Math, v0, v1`, 2n−1 in all |
| Resolve.NestedFormatShape | annotations/src/lonetrail/annotations/Annotations.java:354-366 | the nested format alone: the call opening repeated n−2 times around the innermost two-argument call, closed by n−2 parentheses |
| Resolve.NestedArgsShape | annotations/src/lonetrail/annotations/Annotations.java:354-366 | the nested args alone: 2n−1 of them, pair k is `Math` and input n−1−k, ending with `Math, v0, v1` |
| Resolve.NestedMatch | annotations/src/lonetrail/annotations/Annotations.java:353-368 | the nested format has only `$T`/`$L` placeholders, their kinds line up one to one with the args, and there are exactly n−1 `$T` |
| Resolve.RepeatedLiteralsRender | annotations/src/lonetrail/annotations/Annotations.java:317 | `$L` repeated once per input, given the inputs, consumes them all and renders their concatenation |
| Resolve.RepeatedLiteralsMatch | annotations/src/lonetrail/annotations/Annotations.java:317 | `$L` repeated once per input has exactly one literal placeholder per input argument |
| Resolve.PlaceholdersMatchArguments | annotations/src/lonetrail/annotations/Annotations.java:316-368 | for every operator and n ≥ 1 inputs, the format's placeholders match the args in number and kind, and `max`/`min` have exactly n−1 `$T`, each paired with `Math` |
| Resolve.AverageMatch | annotations/src/lonetrail/annotations/Annotations.java:327-331 | `average`'s placeholders match its n+1 args in number and kind |
| Resolve.BooleanOperatorsPassInputs | annotations/src/lonetrail/annotations/Annotations.java:398-419 | `and`/`or` hand over exactly their inputs as args and never the `Math` class |
| Resolve.AddRunsInputsTogether | annotations/src/lonetrail/annotations/Annotations.java:316-319 | as written, `add` of `a` and `b` renders `ab` |
| Resolve.MultiplyIsAdd | annotations/src/lonetrail/annotations/Annotations.java:339-342 | as written, `multiply`'s step is ` + $L` and it hands over the same pair as `add` for every input |
| Resolve.IntendedFlatOperators | annotations/src/lonetrail/annotations/Annotations.java:316-319 | corrected, each flat operator renders its inputs joined by its infix operator (` + `, ` * `, ` && `, ` \|\| `) |
| Resolve.IntendedAverage | annotations/src/lonetrail/annotations/Annotations.java:327-331 | corrected, `average` renders `(a + b + …) / n` |
| Resolve.IntendedExamples | annotations/src/lonetrail/annotations/Annotations.java:333-343 | corrected, `add` of `a`, `b` renders `a + b` and `multiply` renders `a * b` |
| Common.DecimalRoundTrip | annotations/src/lonetrail/annotations/Annotations.java:331 | the count appended by `average` (`String.valueOf`) is a decimal numeral that reads back as the count |
| Common.NatToString | annotations/src/lonetrail/annotations/Annotations.java:331 | the numeral is non-empty, all digits, and has no leading zero unless it is `0` |
| FloatPacker.Size | annotations/src/lonetrail/annotations/Annotations.java:152-163 | the size is 32 bits exactly for `def` and 8 bits exactly for `rgba8888` |
| FloatPacker.Pack | annotations/src/lonetrail/annotations/Annotations.java:154-162 | the packing text is the packer's opening (`Float.floatToIntBits(` or `(`), then the value expression unchanged, then its closing (`)` or ` * 255f)`) |
| FloatPacker.Unpack | annotations/src/lonetrail/annotations/Annotations.java:154-162 | the unpacking text is the packer's opening (`Float.intBitsToFloat(` or `(`), then the packed expression unchanged, then its closing (`)` or ` / 255f)`) |
| FloatPacker.PackInjective | annotations/src/lonetrail/annotations/Annotations.java:154-162 | two expressions pack to the same text exactly when they are equal |
| FloatPacker.UnpackInjective | annotations/src/lonetrail/annotations/Annotations.java:154-162 | two expressions unpack to the same text exactly when they are equal |
| FloatPacker.PackDiffersFromUnpack | annotations/src/lonetrail/annotations/Annotations.java:153-162 | for either packer, packing and unpacking the same expression never give the same text |
| JavaNames.Split | annotations/src/com/squareup/javapoet/ParameterSpec.java:71 | splitting a name on `.` keeping empty parts gives at least one dot-free part, and joining the parts with `.` gives the name back |
| ParameterSpecs.IsValidParameterName | annotations/src/com/squareup/javapoet/ParameterSpec.java:65-72 | `isValidParameterName`: a name ending in `.this` is valid when what comes before is an identifier; any other name is valid when it is `this` or a name; `ValidParameterNameCases`, `KeywordsRefused` and `ValidNameHasNoSpace` state what this accepts and refuses |
| ParameterSpecs.ValidParameterNameCases | annotations/src/com/squareup/javapoet/ParameterSpec.java:65-72 | a name is valid exactly when it is `<identifier>.this`, or `this`, or a dotted name of non-keyword identifiers |
| ParameterSpecs.KeywordsRefused | annotations/src/com/squareup/javapoet/ParameterSpec.java:65-72 | no keyword or literal word other than `this` is a valid parameter name |
| ParameterSpecs.ValidNameHasNoSpace | annotations/src/com/squareup/javapoet/ParameterSpec.java:65-72 | a valid parameter name contains no space |
| ParameterSpecs.NewBuilder | annotations/src/com/squareup/javapoet/ParameterSpec.java:74-79 | `builder` fails exactly when the name is not valid; otherwise it gives a fresh builder with that type and name, no annotations or javadoc, and every given modifier appended unchecked |
| ParameterSpecs.Builder.constructor | annotations/src/com/squareup/javapoet/ParameterSpec.java:143-146 | a new builder holds the type and name and empty lists |
| ParameterSpecs.Builder.AddJavadoc | annotations/src/com/squareup/javapoet/ParameterSpec.java:153-156 | appends the block to the javadoc, returns the same builder, and leaves the rest unchanged |
| ParameterSpecs.Builder.AddAnnotations | annotations/src/com/squareup/javapoet/ParameterSpec.java:158-164 | appends the annotations in order, returns the same builder, and leaves the rest unchanged |
| ParameterSpecs.Builder.AddAnnotation | annotations/src/com/squareup/javapoet/ParameterSpec.java:166-169 | appends one annotation, returns the same builder, and leaves the rest unchanged |
| ParameterSpecs.Builder.AddModifiers | annotations/src/com/squareup/javapoet/ParameterSpec.java:180-183 | the varargs form appends every modifier with no check |
| ParameterSpecs.Builder.AddModifiersFrom | annotations/src/com/squareup/javapoet/ParameterSpec.java:185-194 | the iterable form appends the leading run of `FINAL`s; at the first other modifier it reports that modifier as the error, with the `FINAL`s before it already appended |
| ParameterSpecs.FinalPrefix | annotations/src/com/squareup/javapoet/ParameterSpec.java:187-191 | the length of the leading run of `FINAL`: every modifier before it is `FINAL`, the one at it is not |
| ParameterSpecs.ModifierSet | annotations/src/com/squareup/javapoet/ParameterSpec.java:40 | the built modifier set holds exactly the modifiers that occur in the builder's list |
| ParameterSpecs.Builder.Build | annotations/src/com/squareup/javapoet/ParameterSpec.java:37-43 | the spec copies the name, type, annotations in order, and javadoc; its modifiers are the set of the list, so `hasModifier(m)` holds exactly for the listed modifiers |
| ParameterSpecs.BuildThenAnnotate | annotations/src/com/squareup/javapoet/ParameterSpec.java:37-43 | a spec built before the builder changes keeps its own annotations: building copies |
| ParameterSpecs.RepeatedModifierIsKeptOnce | annotations/src/com/squareup/javapoet/ParameterSpec.java:40 | adding a modifier twice builds the same modifier set as adding it once |
| ParameterSpecs.ParameterSpec.Emit | annotations/src/com/squareup/javapoet/ParameterSpec.java:89-98 | appends to the writer the annotations, the modifiers, the type (in array form when `varargs`), then a space and the name |
| ParameterSpecs.ParameterSpec.ToString | annotations/src/com/squareup/javapoet/ParameterSpec.java:113-123 | the text is what `emit` with `varargs` false writes to an empty writer |
| ParameterSpecs.TextShape | annotations/src/com/squareup/javapoet/ParameterSpec.java:89-98 | the text always ends with a space and the name; the varargs text differs from it only in the type part |
| ParameterSpecs.ParameterSpec.HasModifier | annotations/src/com/squareup/javapoet/ParameterSpec.java:85-87 | `hasModifier(m)` holds exactly when `m` is in the spec's modifier set; by `Builder.Build` that is exactly when `m` was added to the builder |
| ParameterSpecs.ParameterSpec.Equals | annotations/src/com/squareup/javapoet/ParameterSpec.java:100-106 | `equals` between two parameter specs holds when their texts (what `toString` gives) are equal; `EqualsAndHashCode` shows it is an equivalence and `EqualParametersHaveEqualNames` that equal specs share their name |
| ParameterSpecs.ParameterSpec.HashCode | annotations/src/com/squareup/javapoet/ParameterSpec.java:108-111 | `hashCode` is the string hash of the text; `EqualsAndHashCode` shows equal specs hash alike |
| ParameterSpecs.EqualsAndHashCode | annotations/src/com/squareup/javapoet/ParameterSpec.java:100-111 | equality through the text is reflexive, symmetric and transitive, and equal specs have equal hash codes |
| ParameterSpecs.EqualParametersHaveEqualNames | annotations/src/com/squareup/javapoet/ParameterSpec.java:100-106 | two specs with valid names that are equal have the same name |
| ParameterSpecs.ParameterSpec.ToBuilder | annotations/src/com/squareup/javapoet/ParameterSpec.java:125-134 | gives a fresh builder with the same type, name, annotations and modifiers and an empty javadoc |
| ParameterSpecs.Rebuild | annotations/src/com/squareup/javapoet/ParameterSpec.java:125-134 | `toBuilder().build()` gives a spec equal to the original, with the same text and fields and an empty javadoc |
| LoadProcessor.Process | annotations/src/lonetrail/annotations/impl/LoadProcessor.java:21-100 | in round 1 it builds exactly `Generate(round, anns, camel)`: the `Regions` class with the nested `Outline` type and, in visiting order, the fields and statements of each first occurrence of a region; in any other round it builds nothing |
| LoadProcessor.EmitRegion | annotations/src/lonetrail/annotations/impl/LoadProcessor.java:63-91 | for a newly seen region: the `…Region` field and its statement, then the `…OutlineRegion` field and statement when the annotation has `outline` |
| LoadProcessor.HandledCoversAll | annotations/src/lonetrail/annotations/impl/LoadProcessor.java:56-61 | every region named by any annotation is handled |
| LoadProcessor.HandledOnce | annotations/src/lonetrail/annotations/impl/LoadProcessor.java:56-61 | no region is handled twice |
| LoadProcessor.HandledAreFirstOccurrences | annotations/src/lonetrail/annotations/impl/LoadProcessor.java:56-61 | a (region, annotation) entry is handled exactly when it is the first to name its region; later ones are skipped whatever their `outline` setting |
| LoadProcessor.FieldsPairStatements | annotations/src/lonetrail/annotations/impl/LoadProcessor.java:65-91 | fields and load statements are equal in number, one per handled region plus one per outline, and the k-th statement assigns the k-th field |
| LoadProcessor.HandledRegionsAreLoaded | annotations/src/lonetrail/annotations/impl/LoadProcessor.java:63-91 | each handled region has its `…Region` field loaded from `lonetrail-<region>`, and with `outline` its `…OutlineRegion` field carrying the annotation's colour and radius, loaded from `lonetrail-<region>-outline` |
| LoadProcessor.FirstRoundLoadsEveryRegion | annotations/src/lonetrail/annotations/impl/LoadProcessor.java:57-72 | in round 1 every region named by any annotation gets its field and its load statement in the generated class |

## Left out

- The internals of JavaPoet's `CodeWriter`, `TypeName`, `AnnotationSpec`, `CodeBlock` and `Util` are not part of this model.
  - Annotation, modifier and type rendering are given functions in `Rendering`.
  - `TypeName.asArray` is a precondition that the type has an array form.
  - The model makes no claim about escaping, imports, line breaks between annotations, or the order in which modifiers are written.
- ParameterSpecs.ParameterSpec.Emit: the `IOException` path and the `AssertionError` in `toString` are not modelled, because the sink here cannot fail.
- `ParameterSpec.get`, `parametersOf` and `builder(java.lang.reflect.Type, …)` are not modelled. They read `javax.lang.model` elements and reflection.
- The `addAnnotation(ClassName)`, `addAnnotation(Class)` and `addJavadoc(String, Object...)` overloads are not modelled. Each builds a JavaPoet value not modelled here and then appends it the way the modelled overloads do.
- The `checkNotNull`/`checkArgument(… != null)` paths are not modelled. Dafny values cannot be null.
- JavaNames: `SourceVersion.isIdentifier` and `isName` are a simplified grammar with ASCII letters, digits, `_` and `$` only. `isName` also rejects the reserved words of sections 3.9 and 3.10 of the Java Language Specification. Unicode identifier characters are not modelled.
- ParameterSpecs.ParameterSpec.HashCode: `String.hashCode` is a parameter. Only "equal texts give equal hashes" is claimed, not its numeric value.
- ParameterSpecs.ParameterSpec.Equals: only compares two parameter specs. The `null`, same-reference and other-class cases of `equals(Object)` are not modelled.
- ParameterSpecs.Builder.Build: the built modifier set is a Dafny `set`, so the insertion order of `Util.immutableSet` is not modelled.
- ParameterSpecs.ParameterSpec.ToBuilder: because of that, the builder's modifier list is the set's elements in an unspecified order, each once.
- `RoundEnvironment.getElementsAnnotatedWith`, `annotation(e, Load.class)` and `write(...)` are not modelled. They are compiler and file I/O behind `BaseProcessor`, which is not part of this model. The annotated elements are an input sequence, and the built class is returned rather than written.
- LoadProcessor.Process: the JavaPoet builders of the generated class (`TypeSpec`, `FieldSpec`, `MethodSpec`, `AnnotationSpec`) are plain records here, and their name checks are not modelled. `FieldSpec.builder` refuses a field name that is not a Java name, and a region such as `2d-glow` would make `process` throw instead of writing the class. The model assumes every `camel(reg) + "Region"` and `camel(reg) + "OutlineRegion"` is a valid name, so `Generate` and `FirstRoundLoadsEveryRegion` promise a class and a field for every region.
- `Strings.kebabToCamel` is a function parameter with no interpretation. `TextureRegion`, `Core` and the `public static` modifiers of the generated fields are fixed by the code and not carried in `Field`.
- The `$L`/`$T` substitution in `Template` only serves to state what the combinators' pairs render to. It fails on leftover arguments; `CodeBlock`'s own argument checks are not modelled.
- The metadata-only annotation declarations in `Annotations.java` are not modelled. They have no behaviour beyond default values.

## Findings

Following the code as written, the rest of the model (`Resolve.Combination`, `Resolve.Compute`) keeps this behaviour. The corrected definitions are `Resolve.Separator` and `Resolve.IntendedCombination`.

| source | as written | input that shows it | evidently intended | confidence | as-written member | corrected member |
|---|---|---|---|---|---|---|
| annotations/src/lonetrail/annotations/Annotations.java:317 | The flat operators choose between `$L` and the separated step once, on a still-empty builder, and repeat that choice. No separator is ever produced. The same happens at lines 328, 405 and 416. | `add` of `a` and `b` renders `ab` | `a + b`: inputs joined by the operator (` + `, ` && `, ` \|\| `; `average` as `(a + b) / 2`) | not executed | Resolve.AddRunsInputsTogether | Resolve.IntendedFlatOperators |
| annotations/src/lonetrail/annotations/Annotations.java:340 | `multiply`'s separated step is ` + $L`, the same as `add`'s. | `multiply` of any inputs gives the same pair as `add` | `a * b` | not executed | Resolve.MultiplyIsAdd | Resolve.IntendedExamples |
