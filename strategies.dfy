/** The strategy family: one variant per strategy class, holding what its constructor
    stores, with the common `improve` and `get_strategy_name` operations. */
module Strategies {
  import opened Wrappers
  import opened Text
  import RoleStrategy
  import FewShotStrategy
  import ChainOfThoughtStrategy
  import SelfConsistencyStrategy
  import TreeOfThoughtStrategy
  import SkeletonOfThoughtStrategy
  import ReActStrategy

  /** A strategy instance and the defaults it was built with. */
  datatype Strategy =
    | Role(role: Option<string>)
    | FewShot(examples: seq<FewShotStrategy.Example>)
    | ChainOfThought
    | SelfConsistency(numPaths: int)
    | TreeOfThought(numBranches: int)
    | SkeletonOfThought(numPoints: int)
    | ReAct(domain: Option<string>)

  /** The keyword arguments a call may pass through `**kwargs`; `None` is an argument
      not passed. Each strategy reads only its own and ignores the rest. */
  datatype Params = Params(
    role: Option<string>,
    examples: Option<seq<FewShotStrategy.Example>>,
    numExamples: Option<nat>,
    numPaths: Option<int>,
    numBranches: Option<int>,
    numPoints: Option<int>,
    domain: Option<string>)

  /** A call with no keyword argument at all. */
  const NoParams := Params(None, None, None, None, None, None, None)

  /** Each strategy as its constructor builds it when given no argument. */
  const DefaultRole := Role(None)
  const DefaultFewShot := FewShot(FewShotStrategy.NewExamples(None))
  const DefaultSelfConsistency := SelfConsistency(SelfConsistencyStrategy.DefaultNumPaths)
  const DefaultTreeOfThought := TreeOfThought(TreeOfThoughtStrategy.DefaultNumBranches)
  const DefaultSkeletonOfThought := SkeletonOfThought(SkeletonOfThoughtStrategy.DefaultNumPoints)
  const DefaultReAct := ReAct(None)

  /** `strategy.improve(prompt, **kwargs)`, dispatched on the strategy's class. */
  function Improve(s: Strategy, prompt: string, params: Params): string
  {
    match s
    case Role(role) => RoleStrategy.Improve(role, prompt, params.role)
    case FewShot(examples) => FewShotStrategy.Improve(examples, prompt, params.examples, params.numExamples)
    case ChainOfThought => ChainOfThoughtStrategy.Improve(prompt)
    case SelfConsistency(n) => SelfConsistencyStrategy.Improve(n, prompt, params.numPaths)
    case TreeOfThought(n) => TreeOfThoughtStrategy.Improve(n, prompt, params.numBranches)
    case SkeletonOfThought(n) => SkeletonOfThoughtStrategy.Improve(n, prompt, params.numPoints)
    case ReAct(domain) => ReActStrategy.Improve(domain, prompt, params.domain)
  }

  /** `strategy.get_strategy_name()`. */
  function Name(s: Strategy): (name: string)
    ensures name != ""
  {
    match s
    case Role(_) => "Role Prompting"
    case FewShot(_) => "Few-Shot Learning"
    case ChainOfThought => "Chain of Thought"
    case SelfConsistency(_) => "Self-Consistency"
    case TreeOfThought(_) => "Tree of Thought"
    case SkeletonOfThought(_) => "Skeleton of Thought"
    case ReAct(_) => "ReAct"
  }

  /** Which class a strategy belongs to, as a number. */
  function ClassOf(s: Strategy): nat
  {
    match s
    case Role(_) => 0
    case FewShot(_) => 1
    case ChainOfThought => 2
    case SelfConsistency(_) => 3
    case TreeOfThought(_) => 4
    case SkeletonOfThought(_) => 5
    case ReAct(_) => 6
  }

  /** Each class has its own name: the name tells the class. */
  lemma NameIdentifiesClass(a: Strategy, b: Strategy)
    ensures Name(a) == Name(b) <==> ClassOf(a) == ClassOf(b)
  {
  }

  /** Whatever the strategy and arguments, the prompt is kept verbatim and text is
      added to it. */
  lemma ImproveKeepsPrompt(s: Strategy, prompt: string, params: Params)
    ensures Contains(Improve(s, prompt, params), prompt)
    ensures |Improve(s, prompt, params)| > |prompt|
  {
    match s
    case Role(role) =>
      var r := RoleStrategy.Improve(role, prompt, params.role);
      RoleStrategy.ImproveFrames(role, prompt, params.role);
      assert ContainsAt(r, prompt, |r| - |prompt|);
    case FewShot(examples) =>
      FewShotStrategy.ImproveEmbedsPrompt(examples, prompt, params.examples, params.numExamples);
    case ChainOfThought =>
      ChainOfThoughtStrategy.ImproveEmbedsPrompt(prompt);
    case SelfConsistency(n) =>
      SelfConsistencyStrategy.TemplateEmbedsPrompt(prompt,
        IntToString(SelfConsistencyStrategy.EffectiveNumPaths(n, params.numPaths)));
    case TreeOfThought(n) =>
      TreeOfThoughtStrategy.TemplateEmbedsPrompt(prompt,
        IntToString(TreeOfThoughtStrategy.EffectiveNumBranches(n, params.numBranches)));
    case SkeletonOfThought(n) =>
      SkeletonOfThoughtStrategy.TemplateEmbedsPrompt(prompt,
        IntToString(SkeletonOfThoughtStrategy.EffectiveNumPoints(n, params.numPoints)));
    case ReAct(domain) =>
      ReActStrategy.TemplateFirstLine(prompt, ReActStrategy.DomainContext(domain, params.domain));
  }

  /** The arguments a strategy reads; all the others are dropped. */
  function OwnParams(s: Strategy, params: Params): (own: Params)
  {
    match s
    case Role(_) => NoParams.(role := params.role)
    case FewShot(_) => NoParams.(examples := params.examples, numExamples := params.numExamples)
    case ChainOfThought => NoParams
    case SelfConsistency(_) => NoParams.(numPaths := params.numPaths)
    case TreeOfThought(_) => NoParams.(numBranches := params.numBranches)
    case SkeletonOfThought(_) => NoParams.(numPoints := params.numPoints)
    case ReAct(_) => NoParams.(domain := params.domain)
  }

  /** Arguments meant for other strategies are ignored. */
  lemma OtherParamsIgnored(s: Strategy, prompt: string, params: Params)
    ensures Improve(s, prompt, params) == Improve(s, prompt, OwnParams(s, params))
  {
  }
}
