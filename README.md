# Thymesheet preprocessor: a Dafny model

This project models the sequential engine of `ThymesheetPreprocessor`, the class that applies
thymesheets (CSS-syntax stylesheets that set attributes on, and restructure, a Thymeleaf document)
to one document. The model covers four pieces:

- **Rule partition** (`getDOMModifier`, `extractDOMModifications`). The parsed rule list is walked
  once. Each rule whose selector's last pseudo-class names a DOM modifier goes to the element
  rule factory. The element rule is appended to a new list and the rule is removed from the
  attribute rule list in place.
- **Path classification** (`isClassPath`, `fixClassPath`). These are string predicates and
  rewrites over thymesheet paths, with the exact `String.startsWith` / `String.replace` meaning.
- **Open all or close all** (`openFiles`, `getFileFromWebapp`, `getInputStream`,
  `closeInputStreams`). Streams are objects with an open flag. The class loader and the servlet URL
  factory are oracles. Every way a lookup can fail becomes a `FileNotFoundException` carrying the
  source's message text.
- **Pipeline** (`preProcess`, `postProcess`). A `Run` records which steps started, how the call
  ended and the document it left. The steps are locate, open, parse, split, apply attribute rules,
  apply element rules, remove links, then each post-processor. Each step that changes the document
  works on the document the previous one left.

Collaborators whose code is not part of this model are function-valued fields. They are the CSS
parser, `PseudoClass.lastPseudoClassFromSelector`, `ElementRuleFactory`, the two `applyTo`
methods, `ThymesheetLocator`, the post-processors and each stream's `close`. Element rules are a
type parameter `E`, `PseudoClass` objects a type parameter `P` (known only through `getName`),
and the document's state a type parameter `D`. A collaborator that changes the document returns
its new state or an exception message. The preprocessor's fields are all final, so the
preprocessor is an immutable datatype value. The objects that change in place are classes: the
document, the attribute rule list, the list of opened streams and the streams.

Files: `wrappers.dfy` (Option, Result), `sequences.dfy` (string operations, first-failure search),
`paths.dfy`, `rules.dfy`, `resources.dfy`, `preprocessor.dfy`.

Points where the code's behaviour is easy to misread:
- The factory is given only the `PseudoClass` object found for the selector and the rule's
  declarations (line 113), never the selector or the rule. Whatever an element rule learns about
  its target comes through that object, so the model keeps it opaque. Kept rules keep their
  selectors as parsed.
- The default constructor leaves the locator null, so `preProcess` then fails with a
  NullPointerException before any step. The model returns the `NullLocator` failure.
- `fixClassPath` removes every occurrence of `classpath:`, not only a leading one. It can also
  assemble a new occurrence out of the text around the one it removes (`FixClassPathNotIdempotent`).

## Model

| member | source | states |
|---|---|---|
| `Paths.IsClassPath` | src/main/java/com/connect_group/thymesheet/impl/ThymesheetPreprocessor.java:192-194 | definition of `isClassPath`; with a URL factory a class-path path is at least as long as the prefix; see `IsClassPathCases` |
| `Paths.FixClassPath` | src/main/java/com/connect_group/thymesheet/impl/ThymesheetPreprocessor.java:188-190 | definition of `fixClassPath` as `ReplaceAll` of `classpath:` by the empty string; never longer than the path; see `FixClassPathIdentity`, `FixClassPathDropsPrefix`, `FixClassPathInnerOccurrence` |
| `Paths.IsClassPathCases` | src/main/java/com/connect_group/thymesheet/impl/ThymesheetPreprocessor.java:192-194 | with no URL factory every path is a class-path path; with one, exactly the paths of the form `"classpath:" + q` are |
| `Paths.FixClassPathIdentity` | src/main/java/com/connect_group/thymesheet/impl/ThymesheetPreprocessor.java:188-190 | a path with no `classpath:` in it is left unchanged |
| `Paths.FixClassPathDropsPrefix` | src/main/java/com/connect_group/thymesheet/impl/ThymesheetPreprocessor.java:188-190 | a leading `classpath:` is removed and the rest is rewritten the same way |
| `Paths.FixClassPathStripsPrefix` | src/main/java/com/connect_group/thymesheet/impl/ThymesheetPreprocessor.java:188-190 | `"classpath:" + q` becomes `q` when `q` holds no further `classpath:` |
| `Paths.ClassPathLookupName` | src/main/java/com/connect_group/thymesheet/impl/ThymesheetPreprocessor.java:165-166 | with a URL factory, a class-path path is looked up under the text after its prefix (when that text has no further prefix) |
| `Paths.FixClassPathInnerOccurrence` | src/main/java/com/connect_group/thymesheet/impl/ThymesheetPreprocessor.java:188-190 | an occurrence anywhere in a path is removed and the text on each side is rewritten on its own: `fixClassPath(a + "classpath:" + b)` is `fixClassPath(a) + fixClassPath(b)` for all `a`, `b` |
| `Paths.FixClassPathAssemblesPrefix` | src/main/java/com/connect_group/thymesheet/impl/ThymesheetPreprocessor.java:188-190 | the prefix inserted after its own first character (`cclasspath:lasspath:`) rewrites to `classpath:` |
| `Paths.FixClassPathNotIdempotent` | src/main/java/com/connect_group/thymesheet/impl/ThymesheetPreprocessor.java:188-190 | for that path, rewriting twice differs from rewriting once |
| `Sequences.ReplaceAll` | src/main/java/com/connect_group/thymesheet/impl/ThymesheetPreprocessor.java:189 | definition of `String.replace` as one left-to-right pass over non-overlapping occurrences; a replacement no longer than the target never lengthens the string; see `ReplaceAllWithoutTarget`, `ReplaceAllLeadingTarget` |
| `Sequences.ReplaceAllWithoutTarget` | src/main/java/com/connect_group/thymesheet/impl/ThymesheetPreprocessor.java:189 | `String.replace` leaves a string without the target unchanged |
| `Sequences.ReplaceAllLeadingTarget` | src/main/java/com/connect_group/thymesheet/impl/ThymesheetPreprocessor.java:189 | `String.replace` replaces a leading target and continues right after it |
| `Rules.GetDOMModifier` | src/main/java/com/connect_group/thymesheet/impl/ThymesheetPreprocessor.java:122-129 | returns the selector's last pseudo-class exactly when its name is a DOM modifier, and null otherwise |
| `Rules.Kept` | src/main/java/com/connect_group/thymesheet/impl/ThymesheetPreprocessor.java:104-120 | definition of the rules left in the list; never more than the input; see `KeptInOrder`, `PartitionComplete`, `PartitionClassifies` |
| `Rules.ModifierRules` | src/main/java/com/connect_group/thymesheet/impl/ThymesheetPreprocessor.java:104-120 | definition of the rules handed to the factory; never more than the input; see `ModifierRulesInOrder`, `PartitionComplete`, `PartitionClassifies` |
| `Rules.CreateElementRules` | src/main/java/com/connect_group/thymesheet/impl/ThymesheetPreprocessor.java:104-120 | definition of the element rules made, or the first rejection; at most one per rule, and a rejection names a position in the list; see `OneElementRulePerModifierRule`, `RejectionIsFirstMalformed`, `CreationSucceedsIffAllAccepted` |
| `Rules.Positions` | src/main/java/com/connect_group/thymesheet/impl/ThymesheetPreprocessor.java:107-117 | the positions of the rules of one class, increasing, each of that class, and every such position listed |
| `Rules.PartitionComplete` | src/main/java/com/connect_group/thymesheet/impl/ThymesheetPreprocessor.java:104-119 | kept plus converted rules number as many as the input, and together are the input as a multiset |
| `Rules.PartitionClassifies` | src/main/java/com/connect_group/thymesheet/impl/ThymesheetPreprocessor.java:111-116 | every kept rule is a non-modifier input rule, every converted rule a modifier input rule; none is both |
| `Rules.KeptInOrder` | src/main/java/com/connect_group/thymesheet/impl/ThymesheetPreprocessor.java:107-117 | the kept rules are exactly the input's non-modifier rules in their original relative order |
| `Rules.ModifierRulesInOrder` | src/main/java/com/connect_group/thymesheet/impl/ThymesheetPreprocessor.java:107-117 | the converted rules are exactly the input's modifier rules in their original relative order |
| `Rules.OneElementRulePerModifierRule` | src/main/java/com/connect_group/thymesheet/impl/ThymesheetPreprocessor.java:111-114 | on success there is one element rule per modifier rule, the factory's result for it, in source order |
| `Rules.RejectionIsFirstMalformed` | src/main/java/com/connect_group/thymesheet/impl/ThymesheetPreprocessor.java:113 | a factory rejection reports the first modifier rule refused; every modifier rule before it was accepted |
| `Rules.CreationSucceedsIffAllAccepted` | src/main/java/com/connect_group/thymesheet/impl/ThymesheetPreprocessor.java:108-117 | the split succeeds exactly when the factory accepts every modifier rule |
| `Rules.RejectionPersists` | src/main/java/com/connect_group/thymesheet/impl/ThymesheetPreprocessor.java:113 | after a rejection, later rules do not change the outcome (the walk has stopped) |
| `Rules.KeptStep` | src/main/java/com/connect_group/thymesheet/impl/ThymesheetPreprocessor.java:112-116 | one more rule extends the kept rules by that rule exactly when it is not a modifier rule |
| `Rules.CreateStep` | src/main/java/com/connect_group/thymesheet/impl/ThymesheetPreprocessor.java:112-115 | one more rule: the factory's answer for it decides acceptance, appended element rule or rejection at its index |
| `Rules.AttributeRuleList.Remove` | src/main/java/com/connect_group/thymesheet/impl/ThymesheetPreprocessor.java:115 | `it.remove()`: the current rule leaves the list, the others keep their order |
| `Rules.ExtractDOMModifications` | src/main/java/com/connect_group/thymesheet/impl/ThymesheetPreprocessor.java:104-120 | the list ends as the kept rules and the element rules are returned; on a rejection the list is the kept part of the walked prefix followed by the unwalked rest |
| `Resources.OpenPath` | src/main/java/com/connect_group/thymesheet/impl/ThymesheetPreprocessor.java:164-182 | a path resolves exactly when its class-path or webapp lookup yields a stream; each failure's message names the path |
| `Resources.FirstUnresolved` | src/main/java/com/connect_group/thymesheet/impl/ThymesheetPreprocessor.java:163-185 | the first path that fails to resolve, with every earlier path resolving; none exactly when all resolve |
| `Resources.StreamList.Add` | src/main/java/com/connect_group/thymesheet/impl/ThymesheetPreprocessor.java:184 | the stream is appended to the opened list |
| `Resources.OpenFiles` | src/main/java/com/connect_group/thymesheet/impl/ThymesheetPreprocessor.java:162-186 | one new open stream per path in path order; on the first failing path i, exactly the streams of paths 0..i-1 were appended and that path's message is thrown |
| `Resources.Stream.Close` | src/main/java/com/connect_group/thymesheet/impl/ThymesheetPreprocessor.java:157 | `close` either closes the stream or throws (the stream's own behaviour) and leaves it as it was; the attempt is recorded either way |
| `Resources.CloseInputStreams` | src/main/java/com/connect_group/thymesheet/impl/ThymesheetPreprocessor.java:154-160 | every stream gets a close attempt, also after an earlier close threw (the exception is ignored); each ends closed unless its own close threw |
| `Resources.GetInputStream` | src/main/java/com/connect_group/thymesheet/impl/ThymesheetPreprocessor.java:140-152 | on success, one open stream per path in order; on failure the first failing path's message, and every stream it opened got a close attempt and is closed unless its close threw |
| `Preprocessor.NewPreprocessor` | src/main/java/com/connect_group/thymesheet/impl/ThymesheetPreprocessor.java:63-74 | a null post-processor set becomes the empty one |
| `Preprocessor.DefaultPreprocessor` | src/main/java/com/connect_group/thymesheet/impl/ThymesheetPreprocessor.java:56-61 | no URL factory, no locator, no post-processors |
| `Preprocessor.PostProcessPrefix` | src/main/java/com/connect_group/thymesheet/impl/ThymesheetPreprocessor.java:94-102 | definition of the first k iterations of `postProcess`, threading the document; at most k steps; see `PostProcessCompletes`, `PostProcessFailurePersists`, `PostProcessStepsArePrefix` |
| `Preprocessor.PostProcessRun` | src/main/java/com/connect_group/thymesheet/impl/ThymesheetPreprocessor.java:94-102 | definition of `postProcess` as all its iterations; at most one step per post-processor; see `PostProcessFirstFailureAborts`, `PostProcessCompletes` |
| `Preprocessor.PostProcess` | src/main/java/com/connect_group/thymesheet/impl/ThymesheetPreprocessor.java:94-102 | the loop changes the document exactly as `PostProcessRun` says: the post-processors run in order, each on the document the previous one left, up to and including the first that throws, whose exception is wrapped |
| `Preprocessor.PostProcessFailurePersists` | src/main/java/com/connect_group/thymesheet/impl/ThymesheetPreprocessor.java:95-101 | after a post-processor throws, the remaining iterations run nothing and change nothing |
| `Preprocessor.PostProcessFirstFailureAborts` | src/main/java/com/connect_group/thymesheet/impl/ThymesheetPreprocessor.java:94-102 | the first post-processor that throws is the last one run, its exception is wrapped in `ThymesheetProcessorException("Failed to postprocess document.")`, and the document stays as the ones before it left it |
| `Preprocessor.PostProcessCompletes` | src/main/java/com/connect_group/thymesheet/impl/ThymesheetPreprocessor.java:94-102 | post-processing completes exactly when each post-processor succeeds on the document the earlier ones left, and then all ran once in order |
| `Preprocessor.PostProcessStepsArePrefix` | src/main/java/com/connect_group/thymesheet/impl/ThymesheetPreprocessor.java:96-98 | the post-processors run form a prefix of all of them in iteration order |
| `Preprocessor.Pipeline` | src/main/java/com/connect_group/thymesheet/impl/ThymesheetPreprocessor.java:78-92 | definition of `preProcess`: locate, open, parse, then `ApplyRun`; never more steps than the full order; see `StepsFollowFullOrder`, `CompletesIffEveryStepSucceeds` |
| `Preprocessor.ApplyRun` | src/main/java/com/connect_group/thymesheet/impl/ThymesheetPreprocessor.java:82-91 | definition of `preProcess` after parsing: split, apply attribute rules, apply element rules to their result, remove links, post-process; it always starts with the first four steps of the fixed order; see `SelectorFailuresAreWrapped`, `LinksRemovedOnlyAfterBothApplications` |
| `Preprocessor.PreProcess` | src/main/java/com/connect_group/thymesheet/impl/ThymesheetPreprocessor.java:78-92 | run step by step on the document object, the call ends exactly as `Pipeline` says: the steps in the fixed order, each document-changing step on the previous one's result, the first failure ending the call with the source's exception and wrapping, and the document as the last successful step left it |
| `Preprocessor.ApplyParsedRules` | src/main/java/com/connect_group/thymesheet/impl/ThymesheetPreprocessor.java:82-91 | from the parsed rules on, the method on the rule list and document objects ends exactly as `ApplyRun` says |
| `Preprocessor.StepsFollowFullOrder` | src/main/java/com/connect_group/thymesheet/impl/ThymesheetPreprocessor.java:78-92 | the steps started are always a prefix of the fixed order locate, open, parse, split, attribute rules, element rules, links, post-processors |
| `Preprocessor.ElementRulesOnlyAfterAttributeRules` | src/main/java/com/connect_group/thymesheet/impl/ThymesheetPreprocessor.java:84-86 | element rules are applied exactly when every earlier step, the attribute rules included, succeeded, and right after them |
| `Preprocessor.LinksRemovedOnlyAfterBothApplications` | src/main/java/com/connect_group/thymesheet/impl/ThymesheetPreprocessor.java:84-90 | links are removed exactly when both applications succeeded |
| `Preprocessor.PostProcessorsOnlyAfterLinksRemoved` | src/main/java/com/connect_group/thymesheet/impl/ThymesheetPreprocessor.java:90-91 | a post-processor runs only after the links were removed |
| `Preprocessor.SelectorFailuresAreWrapped` | src/main/java/com/connect_group/thymesheet/impl/ThymesheetPreprocessor.java:84-89 | a selector exception from either application becomes `IOException("Invalid CSS Selector")` and nothing after it runs; the element rules are applied to the document the attribute rules left; a failure leaves the document as the last successful step made it |
| `Preprocessor.OpenFailureStopsBeforeParsing` | src/main/java/com/connect_group/thymesheet/impl/ThymesheetPreprocessor.java:79-80 | an unresolvable path ends the call before parsing with a `FileNotFoundException` naming the first such path, and the document is unchanged |
| `Preprocessor.CompletesIffEveryStepSucceeds` | src/main/java/com/connect_group/thymesheet/impl/ThymesheetPreprocessor.java:78-102 | the call completes exactly when every collaborator succeeds on the document the earlier steps left; then every step ran in the fixed order and the document is what the post-processors leave |

## Left out

- CSS tokenising and parsing (`getRuleList`, `CSSOMParser`, `SACParserCSS3`) are a foreign library. The parser is an oracle from the opened streams' paths, in stream order, to a rule list or an IOException message.
- Real stream I/O is not modelled: `SequenceInputStream` concatenation, `getResourceAsStream`, `URL.openStream` and `ServletContextURLFactory`. A class-path resource either exists or not. A webapp lookup has one of five results (stream, null stream, null URL, MalformedURLException, IOException).
- The Thymeleaf document tree, selector matching and the internals of `AttributeRuleList.applyTo`, `ElementRuleList.applyTo`, `PseudoClass`, `ElementRuleFactory` and `CSSUtil.asMap` are not modelled. `ThymesheetLocator` and the post-processor bodies are not modelled either. Each is a function from the document's state to its new state or an exception message; the state is of an abstract type.
- A collaborator that throws is modelled as leaving the document as it received it. Changes it made before throwing are not modelled.
- The document is one object whose state the collaborators' results replace. Other references the collaborators might keep into the document tree are not modelled.
- What a `PseudoClass` holds beyond its name is not modelled. Whether the modifier pseudo-class is stripped from a selector is decided inside `PseudoClass` and `ElementRuleFactory`, which are not part of this model.
- Exceptions other than `NodeSelectorException` thrown by `applyTo`, and any exception from `getThymesheetPaths`, are not modelled.
- Post-processors are held in a `Set`. The model uses a sequence in that set's iteration order.
- `ElementRuleList` is represented by the sequence of element rules returned, since it is created fresh and only appended to.
- Streams after a successful open: this file never closes them, and whether the parser closes them is not part of this model. The model says nothing about them.
- Concurrency and the sharing of a preprocessor between threads are out of scope.
- Unchecked exceptions from `close` are not modelled. In `closeInputStreams` such an exception would end the loop and replace the `FileNotFoundException` being rethrown; only `IOException`, which the loop swallows, is modelled.
- Resources.Stream.Close: `InputStream` does not say whether a stream is still open after its `close` threw. The model leaves such a stream as it was.
