/**
 * ThymesheetPreprocessor: locate the thymesheets of a document, open them, parse the rules, split
 * them, apply attribute rules and then element rules, remove the thymesheet links, and run the
 * post-processors. Every collaborator is an oracle. The document is an object whose state, of the
 * abstract type D, each collaborator that changes it replaces; every later step sees that state.
 */
module Preprocessor {
  import opened Wrappers
  import opened Sequences
  import opened Rules
  import opened Resources

  /** ThymesheetLocator: the thymesheet paths a document links to, and the removal of those links. */
  datatype Locator<!D> = Locator(
    getThymesheetPaths: D -> seq<string>,
    removeThymesheetLinks: D -> Result<D, string>)

  /** ThymesheetParserPostProcessor.postProcess(documentName, document): the changed document, or the exception's message. */
  datatype PostProcessor<!D> = PostProcessor(postProcess: (string, D) -> Result<D, string>)

  /** The Thymeleaf Document that preProcess changes in place. */
  class Document<D> {
    var state: D

    constructor (state: D)
      ensures this.state == state
    {
      this.state := state;
    }
  }

  /**
   * A preprocessor: its three final fields, and the collaborators it calls statically. The parser
   * reads the concatenation of the opened streams, given here by their paths in stream order;
   * applyAttributeRules and applyElementRules give the changed document or the
   * NodeSelectorException's message; streamCloseThrows says whose streams throw when closed.
   */
  datatype ThymesheetPreprocessor<!D, !P, !E> = ThymesheetPreprocessor(
    urlFactory: Option<UrlFactory>,
    thymesheetLocator: Option<Locator<D>>,
    postProcessors: seq<PostProcessor<D>>,
    classLoader: ClassLoader,
    streamCloseThrows: string -> bool,
    parseStyleSheet: seq<string> -> Result<seq<CssRule>, string>,
    factory: ElementRuleFactory<P, E>,
    applyAttributeRules: (seq<CssRule>, D) -> Result<D, string>,
    applyElementRules: (seq<E>, D) -> Result<D, string>)

  /** The constructor with arguments: a null post-processor set becomes the empty set. */
  function NewPreprocessor<D, P, E>(
    urlFactory: Option<UrlFactory>, thymesheetLocator: Option<Locator<D>>,
    postProcessors: Option<seq<PostProcessor<D>>>, classLoader: ClassLoader, streamCloseThrows: string -> bool,
    parseStyleSheet: seq<string> -> Result<seq<CssRule>, string>, factory: ElementRuleFactory<P, E>,
    applyAttributeRules: (seq<CssRule>, D) -> Result<D, string>, applyElementRules: (seq<E>, D) -> Result<D, string>)
    : (p: ThymesheetPreprocessor<D, P, E>)
    ensures postProcessors.None? ==> p.postProcessors == []
    ensures postProcessors.Some? ==> p.postProcessors == postProcessors.value
    ensures p.urlFactory == urlFactory && p.thymesheetLocator == thymesheetLocator
  {
    ThymesheetPreprocessor(
      urlFactory, thymesheetLocator, if postProcessors.None? then [] else postProcessors.value,
      classLoader, streamCloseThrows, parseStyleSheet, factory, applyAttributeRules, applyElementRules)
  }

  /** The constructor without arguments: no URL factory, no locator, no post-processors. */
  function DefaultPreprocessor<D, P, E>(
    classLoader: ClassLoader, streamCloseThrows: string -> bool,
    parseStyleSheet: seq<string> -> Result<seq<CssRule>, string>, factory: ElementRuleFactory<P, E>,
    applyAttributeRules: (seq<CssRule>, D) -> Result<D, string>, applyElementRules: (seq<E>, D) -> Result<D, string>)
    : (p: ThymesheetPreprocessor<D, P, E>)
    ensures p.urlFactory.None? && p.thymesheetLocator.None? && p.postProcessors == []
  {
    NewPreprocessor(
      None, None, None, classLoader, streamCloseThrows, parseStyleSheet, factory, applyAttributeRules, applyElementRules)
  }

  const InvalidCssSelector: string := "Invalid CSS Selector"
  const PostProcessFailed: string := "Failed to postprocess document."

  /** The exception preProcess ends with. */
  datatype PreprocessException =
    | NullLocator                                        // NullPointerException: no locator configured
    | FileNotFound(message: string)                      // java.io.FileNotFoundException
    | IOException(message: string, cause: Option<string>) // from the parser, or wrapping a NodeSelectorException
    | RuleRejected(message: string)                      // thrown by ElementRuleFactory.createElementRule
    | LinkRemovalFailed(message: string)                 // thrown by removeThymesheetLinks
    | ProcessorException(message: string, cause: Option<string>) // ThymesheetProcessorException

  datatype Outcome = Completed | Failed(failure: PreprocessException)

  /** The steps of preProcess, each recorded when it starts. */
  datatype Step =
    | LocateThymesheets
    | OpenStreams
    | ParseRules
    | SplitRules
    | ApplyAttributeRules
    | ApplyElementRules
    | RemoveThymesheetLinks
    | RunPostProcessor(index: nat)

  /** The steps started, how the call ended, and the document as the call leaves it. */
  datatype Run<D> = Run(steps: seq<Step>, outcome: Outcome, document: D)

  const Stages: seq<Step> := [LocateThymesheets, OpenStreams, ParseRules, SplitRules,
                              ApplyAttributeRules, ApplyElementRules, RemoveThymesheetLinks]

  function PostProcessorSteps(n: nat): (steps: seq<Step>)
    ensures |steps| == n && forall k :: 0 <= k < n ==> steps[k] == RunPostProcessor(k)
  {
    seq(n, (k: int) requires 0 <= k < n => RunPostProcessor(k))
  }

  /** The fixed order of all steps with n post-processors. */
  function FullOrder(n: nat): seq<Step> {
    Stages + PostProcessorSteps(n)
  }

  /**
   * The first k iterations of postProcess: each post-processor gets the document the previous one
   * left; the first that throws ends the loop, wrapped in a ThymesheetProcessorException.
   */
  function PostProcessPrefix<D>(postProcessors: seq<PostProcessor<D>>, documentName: string, document: D, k: nat): (r: Run<D>)
    requires k <= |postProcessors|
    ensures |r.steps| <= k
  {
    if k == 0 then Run([], Completed, document)
    else
      var before := PostProcessPrefix(postProcessors, documentName, document, k - 1);
      if before.outcome.Failed? then before
      else
        var steps := before.steps + [RunPostProcessor(k - 1)];
        match postProcessors[k - 1].postProcess(documentName, before.document)
        case Failure(m) => Run(steps, Failed(ProcessorException(PostProcessFailed, Some(m))), before.document)
        case Success(changed) => Run(steps, Completed, changed)
  }

  /** postProcess as a function: all iterations. */
  function PostProcessRun<D>(postProcessors: seq<PostProcessor<D>>, documentName: string, document: D): (r: Run<D>)
    ensures |r.steps| <= |postProcessors|
  {
    PostProcessPrefix(postProcessors, documentName, document, |postProcessors|)
  }

  /** Post-processor j succeeds on the document the post-processors before it left. */
  predicate PostProcessorSucceeds<D>(postProcessors: seq<PostProcessor<D>>, documentName: string, document: D, j: nat)
    requires j < |postProcessors|
  {
    postProcessors[j].postProcess(documentName, PostProcessPrefix(postProcessors, documentName, document, j).document).Success?
  }

  /** preProcess as a function of the collaborators' answers: the steps started, how it ends, and the document it leaves. */
  function Pipeline<D, P, E>(p: ThymesheetPreprocessor<D, P, E>, documentName: string, document: D): (r: Run<D>)
    ensures |r.steps| <= |Stages| + |p.postProcessors|
  {
    if p.thymesheetLocator.None? then Run([], Failed(NullLocator), document)
    else
      var locator := p.thymesheetLocator.value;
      var filePaths := locator.getThymesheetPaths(document);
      match FirstUnresolved(p.urlFactory, p.classLoader, filePaths)
      case Some(i) =>
        Run(Stages[..2], Failed(FileNotFound(OpenPath(p.urlFactory, p.classLoader, filePaths[i]).message)), document)
      case None =>
        match p.parseStyleSheet(filePaths)
        case Failure(m) => Run(Stages[..3], Failed(IOException(m, None)), document)
        case Success(rules) => ApplyRun(p, documentName, document, rules)
  }

  /**
   * The rest of preProcess once the rules are parsed: split them, apply the attribute rules and
   * then the element rules, remove the links, and post-process, each on the previous step's document.
   */
  function ApplyRun<D, P, E>(p: ThymesheetPreprocessor<D, P, E>, documentName: string, document: D, rules: seq<CssRule>): (r: Run<D>)
    requires p.thymesheetLocator.Some?
    ensures Stages[..4] <= r.steps && |r.steps| <= |Stages| + |p.postProcessors|
  {
    match CreateElementRules(p.factory, rules)
    case Failure(bad) => Run(Stages[..4], Failed(RuleRejected(bad.message)), document)
    case Success(elementRules) =>
      match p.applyAttributeRules(Kept(p.factory, rules), document)
      case Failure(m) => Run(Stages[..5], Failed(IOException(InvalidCssSelector, Some(m))), document)
      case Success(withAttributes) =>
        match p.applyElementRules(elementRules, withAttributes)
        case Failure(m) => Run(Stages[..6], Failed(IOException(InvalidCssSelector, Some(m))), withAttributes)
        case Success(withElements) =>
          match p.thymesheetLocator.value.removeThymesheetLinks(withElements)
          case Failure(m) => Run(Stages, Failed(LinkRemovalFailed(m)), withElements)
          case Success(withoutLinks) =>
            var post := PostProcessRun(p.postProcessors, documentName, withoutLinks);
            Run(Stages + post.steps, post.outcome, post.document)
  }

  /** The rules parsed from the document's thymesheets, when locating, opening and parsing all succeed. */
  function ParsedRules<D, P, E>(p: ThymesheetPreprocessor<D, P, E>, document: D): (r: Option<seq<CssRule>>)
    ensures r.Some? ==> p.thymesheetLocator.Some?
  {
    if p.thymesheetLocator.None? then None
    else
      var filePaths := p.thymesheetLocator.value.getThymesheetPaths(document);
      if FirstUnresolved(p.urlFactory, p.classLoader, filePaths).Some? then None
      else match p.parseStyleSheet(filePaths)
        case Failure(_) => None
        case Success(rules) => Some(rules)
  }

  /** The element rules split off the parsed rules, when that succeeds too. */
  function SplitElementRules<D, P, E>(p: ThymesheetPreprocessor<D, P, E>, document: D): (r: Option<seq<E>>)
    ensures r.Some? ==> ParsedRules(p, document).Some?
  {
    match ParsedRules(p, document)
    case None => None
    case Some(rules) =>
      match CreateElementRules(p.factory, rules)
      case Failure(_) => None
      case Success(elementRules) => Some(elementRules)
  }

  /** The document once the attribute rules are applied, when every step up to that one succeeds. */
  function WithAttributeRules<D, P, E>(p: ThymesheetPreprocessor<D, P, E>, document: D): (r: Option<D>)
    ensures r.Some? ==> SplitElementRules(p, document).Some?
  {
    if SplitElementRules(p, document).None? then None
    else match p.applyAttributeRules(Kept(p.factory, ParsedRules(p, document).value), document)
      case Failure(_) => None
      case Success(changed) => Some(changed)
  }

  /** ... and then the element rules, applied to that document. */
  function WithElementRules<D, P, E>(p: ThymesheetPreprocessor<D, P, E>, document: D): (r: Option<D>)
    ensures r.Some? ==> WithAttributeRules(p, document).Some?
  {
    match WithAttributeRules(p, document)
    case None => None
    case Some(withAttributes) =>
      match p.applyElementRules(SplitElementRules(p, document).value, withAttributes)
      case Failure(_) => None
      case Success(changed) => Some(changed)
  }

  /** ... and then with the thymesheet links removed from that document. */
  function WithoutLinks<D, P, E>(p: ThymesheetPreprocessor<D, P, E>, document: D): (r: Option<D>)
    ensures r.Some? ==> WithElementRules(p, document).Some?
  {
    match WithElementRules(p, document)
    case None => None
    case Some(withElements) =>
      match p.thymesheetLocator.value.removeThymesheetLinks(withElements)
      case Failure(_) => None
      case Success(changed) => Some(changed)
  }

  /** ... and no post-processor throws on the document it is given. */
  predicate EveryStepSucceeds<D, P, E>(p: ThymesheetPreprocessor<D, P, E>, documentName: string, document: D) {
    && WithoutLinks(p, document).Some?
    && forall j :: 0 <= j < |p.postProcessors| ==>
         PostProcessorSucceeds(p.postProcessors, documentName, WithoutLinks(p, document).value, j)
  }

  /** Once a post-processor has thrown, the later iterations change nothing. */
  lemma {:induction false} PostProcessFailurePersists<D>(
    postProcessors: seq<PostProcessor<D>>, documentName: string, document: D, k: nat, m: nat)
    requires k <= m <= |postProcessors|
    requires PostProcessPrefix(postProcessors, documentName, document, k).outcome.Failed?
    ensures PostProcessPrefix(postProcessors, documentName, document, m) ==
      PostProcessPrefix(postProcessors, documentName, document, k)
    decreases m
  {
    if m > k {
      PostProcessFailurePersists(postProcessors, documentName, document, k, m - 1);
    }
  }

  /** The post-processors that run are a prefix of all of them, in iteration order. */
  lemma {:induction false} PostProcessStepsArePrefix<D>(
    postProcessors: seq<PostProcessor<D>>, documentName: string, document: D, k: nat)
    requires k <= |postProcessors|
    ensures var steps := PostProcessPrefix(postProcessors, documentName, document, k).steps;
      |steps| <= k && steps == PostProcessorSteps(|steps|)
    decreases k
  {
    if k > 0 {
      PostProcessStepsArePrefix(postProcessors, documentName, document, k - 1);
      var before := PostProcessPrefix(postProcessors, documentName, document, k - 1);
      if before.outcome == Completed {
        assert before.steps == PostProcessorSteps(k - 1) by {
          PostProcessCompletes(postProcessors, documentName, document, k - 1);
        }
        assert before.steps + [RunPostProcessor(k - 1)] == PostProcessorSteps(k);
      }
    }
  }

  /**
   * The first k iterations complete exactly when each of those post-processors succeeds on the
   * document the earlier ones left; then all k ran once, in order.
   */
  lemma {:induction false} PostProcessCompletes<D>(
    postProcessors: seq<PostProcessor<D>>, documentName: string, document: D, k: nat)
    requires k <= |postProcessors|
    ensures PostProcessPrefix(postProcessors, documentName, document, k).outcome == Completed <==>
      forall j :: 0 <= j < k ==> PostProcessorSucceeds(postProcessors, documentName, document, j)
    ensures PostProcessPrefix(postProcessors, documentName, document, k).outcome == Completed ==>
      PostProcessPrefix(postProcessors, documentName, document, k).steps == PostProcessorSteps(k)
    decreases k
  {
    if k > 0 {
      PostProcessCompletes(postProcessors, documentName, document, k - 1);
      var before := PostProcessPrefix(postProcessors, documentName, document, k - 1);
      if before.outcome == Completed {
        assert before.steps + [RunPostProcessor(k - 1)] == PostProcessorSteps(k);
        assert PostProcessorSucceeds(postProcessors, documentName, document, k - 1) <==>
          postProcessors[k - 1].postProcess(documentName, before.document).Success?;
        assert (forall j :: 0 <= j < k ==> PostProcessorSucceeds(postProcessors, documentName, document, j)) <==>
          PostProcessorSucceeds(postProcessors, documentName, document, k - 1);
      } else {
        var j :| 0 <= j < k - 1 && !PostProcessorSucceeds(postProcessors, documentName, document, j);
      }
    }
  }

  /**
   * The first post-processor that throws is the last one run, its exception is wrapped, and the
   * document is left as the post-processors before it made it.
   */
  lemma PostProcessFirstFailureAborts<D>(postProcessors: seq<PostProcessor<D>>, documentName: string, document: D, i: nat)
    requires i < |postProcessors|
    requires forall j :: 0 <= j < i ==> PostProcessorSucceeds(postProcessors, documentName, document, j)
    requires !PostProcessorSucceeds(postProcessors, documentName, document, i)
    ensures var before := PostProcessPrefix(postProcessors, documentName, document, i).document;
      PostProcessRun(postProcessors, documentName, document) ==
        Run(PostProcessorSteps(i + 1),
            Failed(ProcessorException(PostProcessFailed, Some(postProcessors[i].postProcess(documentName, before).error))),
            before)
  {
    PostProcessCompletes(postProcessors, documentName, document, i);
    PostProcessFailurePersists(postProcessors, documentName, document, i + 1, |postProcessors|);
  }

  /** The steps started always form a prefix of the fixed order. */
  lemma StepsFollowFullOrder<D, P, E>(p: ThymesheetPreprocessor<D, P, E>, documentName: string, document: D)
    ensures var steps := Pipeline(p, documentName, document).steps;
      |steps| <= |FullOrder(|p.postProcessors|)| && steps == FullOrder(|p.postProcessors|)[..|steps|]
  {
    if WithoutLinks(p, document).Some? {
      PostProcessStepsArePrefix(p.postProcessors, documentName, WithoutLinks(p, document).value, |p.postProcessors|);
    }
  }

  /** Element rules are applied exactly when everything before, the attribute rules included, succeeded. */
  lemma ElementRulesOnlyAfterAttributeRules<D, P, E>(p: ThymesheetPreprocessor<D, P, E>, documentName: string, document: D)
    ensures var steps := Pipeline(p, documentName, document).steps;
      ApplyElementRules in steps <==> WithAttributeRules(p, document).Some?
    ensures var steps := Pipeline(p, documentName, document).steps;
      ApplyElementRules in steps ==> |steps| > 5 && steps[4] == ApplyAttributeRules && steps[5] == ApplyElementRules
  {
    var steps := Pipeline(p, documentName, document).steps;
    StepsFollowFullOrder(p, documentName, document);
    assert Stages[5] == ApplyElementRules;
    var full := FullOrder(|p.postProcessors|);
    assert forall k :: |Stages| <= k < |full| ==> full[k].RunPostProcessor?;
    assert forall k :: 0 <= k < |Stages[..5]| ==> Stages[..5][k] != ApplyElementRules;
  }

  /** The thymesheet links are removed exactly when the attribute rules and then the element rules were applied. */
  lemma LinksRemovedOnlyAfterBothApplications<D, P, E>(p: ThymesheetPreprocessor<D, P, E>, documentName: string, document: D)
    ensures RemoveThymesheetLinks in Pipeline(p, documentName, document).steps <==> WithElementRules(p, document).Some?
  {
    var steps := Pipeline(p, documentName, document).steps;
    StepsFollowFullOrder(p, documentName, document);
    var full := FullOrder(|p.postProcessors|);
    assert forall k :: |Stages| <= k < |full| ==> full[k].RunPostProcessor?;
  }

  /** A post-processor runs only once the links have been removed. */
  lemma PostProcessorsOnlyAfterLinksRemoved<D, P, E>(p: ThymesheetPreprocessor<D, P, E>, documentName: string, document: D, i: nat)
    requires RunPostProcessor(i) in Pipeline(p, documentName, document).steps
    ensures WithoutLinks(p, document).Some? && i < |p.postProcessors|
  {
    StepsFollowFullOrder(p, documentName, document);
    var steps := Pipeline(p, documentName, document).steps;
    var k :| 0 <= k < |steps| && steps[k] == RunPostProcessor(i);
    assert FullOrder(|p.postProcessors|)[k] == RunPostProcessor(i);
  }

  /**
   * A selector exception from either application is rethrown as IOException("Invalid CSS Selector")
   * and stops the pipeline there; the element rules are applied to the document the attribute
   * rules left, and a failure leaves the document as the last successful step made it.
   */
  lemma SelectorFailuresAreWrapped<D, P, E>(p: ThymesheetPreprocessor<D, P, E>, documentName: string, document: D)
    requires SplitElementRules(p, document).Some?
    ensures var rules, elementRules := ParsedRules(p, document).value, SplitElementRules(p, document).value;
      var run := Pipeline(p, documentName, document);
      match p.applyAttributeRules(Kept(p.factory, rules), document)
      case Failure(m) =>
        run.outcome == Failed(IOException(InvalidCssSelector, Some(m))) && run.document == document &&
        ApplyElementRules !in run.steps
      case Success(withAttributes) =>
        match p.applyElementRules(elementRules, withAttributes)
        case Failure(m) =>
          run.outcome == Failed(IOException(InvalidCssSelector, Some(m))) && run.document == withAttributes &&
          RemoveThymesheetLinks !in run.steps
        case Success(withElements) => WithElementRules(p, document) == Some(withElements)
  {
  }

  /** A path that does not resolve ends the pipeline before parsing, with a FileNotFoundException naming that path. */
  lemma OpenFailureStopsBeforeParsing<D, P, E>(p: ThymesheetPreprocessor<D, P, E>, documentName: string, document: D)
    requires p.thymesheetLocator.Some?
    requires FirstUnresolved(p.urlFactory, p.classLoader, p.thymesheetLocator.value.getThymesheetPaths(document)).Some?
    ensures var filePaths := p.thymesheetLocator.value.getThymesheetPaths(document);
      var i := FirstUnresolved(p.urlFactory, p.classLoader, filePaths).value;
      var run := Pipeline(p, documentName, document);
      run.steps == [LocateThymesheets, OpenStreams] && run.document == document &&
      run.outcome.Failed? && run.outcome.failure.FileNotFound? &&
      Contains(run.outcome.failure.message, filePaths[i])
  {
  }

  /**
   * preProcess completes exactly when every collaborator succeeds on the document the steps
   * before it left; then every step has run in the fixed order, and the document is the one the
   * post-processors leave after the links were removed.
   */
  lemma CompletesIffEveryStepSucceeds<D, P, E>(p: ThymesheetPreprocessor<D, P, E>, documentName: string, document: D)
    ensures Pipeline(p, documentName, document).outcome == Completed <==> EveryStepSucceeds(p, documentName, document)
    ensures Pipeline(p, documentName, document).outcome == Completed ==>
      && Pipeline(p, documentName, document).steps == FullOrder(|p.postProcessors|)
      && Pipeline(p, documentName, document).document ==
         PostProcessRun(p.postProcessors, documentName, WithoutLinks(p, document).value).document
  {
    if WithoutLinks(p, document).Some? {
      PostProcessCompletes(p.postProcessors, documentName, WithoutLinks(p, document).value, |p.postProcessors|);
    }
  }

  /** postProcess: runs each post-processor in iteration order on the document; the first exception stops the rest and is wrapped. */
  method PostProcess<D, P, E>(p: ThymesheetPreprocessor<D, P, E>, documentName: string, document: Document<D>)
    returns (outcome: Outcome, steps: seq<Step>)
    modifies document
    ensures Run(steps, outcome, document.state) == PostProcessRun(p.postProcessors, documentName, old(document.state))
  {
    var postProcessors := p.postProcessors;
    ghost var initial := document.state;
    steps := [];
    for i := 0 to |postProcessors|
      invariant PostProcessPrefix(postProcessors, documentName, initial, i) == Run(steps, Completed, document.state)
    {
      steps := steps + [RunPostProcessor(i)];
      var result := postProcessors[i].postProcess(documentName, document.state);
      if result.Failure? {
        PostProcessFailurePersists(postProcessors, documentName, initial, i + 1, |postProcessors|);
        return Failed(ProcessorException(PostProcessFailed, Some(result.error))), steps;
      }
      document.state := result.value;
    }
    return Completed, steps;
  }

  /** preProcess, step by step, with the document, the streams and the rule list as objects. */
  method PreProcess<D, P, E>(p: ThymesheetPreprocessor<D, P, E>, documentName: string, document: Document<D>)
    returns (outcome: Outcome, steps: seq<Step>)
    modifies document
    ensures Run(steps, outcome, document.state) == Pipeline(p, documentName, old(document.state))
  {
    if p.thymesheetLocator.None? {
      return Failed(NullLocator), [];
    }
    var locator := p.thymesheetLocator.value;
    var filePaths := locator.getThymesheetPaths(document.state);
    var input, attempted := GetInputStream(p.urlFactory, p.classLoader, p.streamCloseThrows, filePaths);
    if input.Failure? {
      return Failed(FileNotFound(input.error)), Stages[..2];
    }
    var streams := input.value;
    var contents := seq(|streams|, k requires 0 <= k < |streams| => streams[k].path);
    assert contents == filePaths;
    var parsed := p.parseStyleSheet(contents);
    if parsed.Failure? {
      return Failed(IOException(parsed.error, None)), Stages[..3];
    }
    outcome, steps := ApplyParsedRules(p, documentName, document, parsed.value);
  }

  /**
   * The rest of preProcess once the rules are parsed: the rule list is split in place, the attribute
   * and then the element rules are applied to the document, the links removed, and the
   * post-processors run. `steps` are all the steps started, from locating the thymesheets on.
   */
  method ApplyParsedRules<D, P, E>(
    p: ThymesheetPreprocessor<D, P, E>, documentName: string, document: Document<D>, rules: seq<CssRule>)
    returns (outcome: Outcome, steps: seq<Step>)
    requires p.thymesheetLocator.Some?
    modifies document
    ensures Run(steps, outcome, document.state) == ApplyRun(p, documentName, old(document.state), rules)
  {
    var attributeRules := new AttributeRuleList(rules);
    steps := Stages[..4];
    var elementRules := ExtractDOMModifications(p.factory, attributeRules);
    if elementRules.Failure? {
      return Failed(RuleRejected(elementRules.error)), steps;
    }
    steps := Stages[..5];
    var applied := p.applyAttributeRules(attributeRules.rules, document.state);
    if applied.Failure? {
      return Failed(IOException(InvalidCssSelector, Some(applied.error))), steps;
    }
    document.state := applied.value;
    steps := Stages[..6];
    applied := p.applyElementRules(elementRules.value, document.state);
    if applied.Failure? {
      return Failed(IOException(InvalidCssSelector, Some(applied.error))), steps;
    }
    document.state := applied.value;
    steps := Stages;
    var unlinked := p.thymesheetLocator.value.removeThymesheetLinks(document.state);
    if unlinked.Failure? {
      return Failed(LinkRemovalFailed(unlinked.error)), steps;
    }
    document.state := unlinked.value;
    var postSteps;
    outcome, postSteps := PostProcess(p, documentName, document);
    steps := steps + postSteps;
  }
}
