# prompt-improver, modelled in Dafny

prompt-improver rewrites a user's prompt with one of seven prompting strategies:
role prompting, few-shot learning, chain of thought, self-consistency, tree of
thought, skeleton of thought and ReAct. Each strategy fills a fixed text template
with the prompt and its own optional parameters. Each parameter comes from the
call, from the strategy instance, or from a built-in default, chosen by Python's
falsy `or`. `PromptImprover` holds a registry of ten keys: the seven strategies
and three aliases. It lowercases the requested name, looks the name up, and
either hands the prompt to the instance found or raises an "Unknown strategy"
error.

The model has the following parts:

- `wrappers.dfy` holds `Option`, `Result`, and `Truthy`/`Or`, which model Python's
  `x or y` on a value that may be missing or falsy.
- `text.dfy` holds the string vocabulary:
  - occurrence at an offset, prefixes and suffixes;
  - `Join`, which is `sep.join(pieces)`, with lemmas on where each piece lands;
  - ASCII lowercasing;
  - `str()` of an integer, with a parser that reads it back.
- There is one module per strategy file. Each template is stated as its lines
  joined by newlines, so that every line's position in the output can be proved.
- `strategies.dfy` holds the `Strategy` datatype (one variant per class, holding
  what its constructor stores), the keyword-argument bag `Params`, the
  dispatching `improve` and `get_strategy_name`.
- `improver.dfy` holds the registry, an ordered list of key and instance pairs. Its
  class `PromptImprover` has `improve`, `get_available_strategies` and
  `get_strategy_info` as methods that read the registry and never change it.
  `ImproveWith` and `InfoWith` are the functions that specify them.

A prompt, a role and a domain are arbitrary strings. An example's text is too,
except that it must hold no braces (see "Left out").

## Model

| member | source | states |
|---|---|---|
| Wrappers.Or | strategies/role.py:35 | Python's `x or y` on an optional argument: a truthy `x` is the result, a `None` or empty one gives `y` |
| Text.Join | improver.py:99 | `sep.join(pieces)`; where each piece lands is stated by Text.JoinFirst, Text.JoinLayout and Text.JoinDeterminesPiece |
| Text.JoinLayout | improver.py:99 | piece k starts at the sum of the earlier pieces and separators, and a separator follows every piece but the last |
| Text.PieceInside | improver.py:99 | with a non-empty separator, an inner piece lies strictly after the first piece and strictly before the last |
| Text.Lower | improver.py:96 | `str.lower` on ASCII: the same length, each character lowercased on its own; Text.LowerIdentity states that it leaves a string without upper-case letters unchanged |
| Text.LowerIdentity | improver.py:96 | lowercasing a string with no upper-case letter leaves it unchanged |
| Text.IntToString | strategies/self_consistency.py:48-51 | `str()` of an integer; Text.IntToStringIsNumeral, Text.IntRoundTrip and Text.IntToStringInjective state what it produces |
| Text.IntRoundTrip | strategies/self_consistency.py:48-51 | reading the decimal text back gives the integer |
| Text.IntToStringInjective | strategies/self_consistency.py:48-51 | two integers render alike exactly when they are equal |
| RoleStrategy.Improve | strategies/role.py:23-36 | `improve`: the template filled with the effective role; its frame is stated by RoleStrategy.ImproveFrames, its choice of role by RoleStrategy.EffectiveRole and RoleStrategy.RoleDeterminesOutput |
| RoleStrategy.EffectiveRole | strategies/role.py:35 | a non-empty call role wins; otherwise a non-empty instance role; otherwise "an expert in the relevant field"; never empty |
| RoleStrategy.Template | strategies/role.py:36 | the output opens with "You are <role>." and ends with the instruction sentence, a blank line and the prompt; its length is the sum of the pieces |
| RoleStrategy.ImproveFrames | strategies/role.py:35-36 | every output starts with "You are", ends with the untouched prompt and is longer than it |
| RoleStrategy.CallRoleOverrides | strategies/role.py:35 | a non-empty call role makes the instance role irrelevant, and that role is named after "You are " |
| RoleStrategy.TemplateRoleInjective | strategies/role.py:36 | for a fixed prompt, two outputs are equal exactly when the roles are |
| RoleStrategy.RoleDeterminesOutput | strategies/role.py:35-36 | outputs for one prompt agree exactly when the effective roles agree |
| FewShotStrategy.Improve | strategies/few_shot.py:24-60 | `improve`: the few-shot text when examples are available, the fallback otherwise; stated by FewShotStrategy.ImproveEmbedsPrompt, FewShotStrategy.ImproveShowsExamples and FewShotStrategy.NoExamplesFallBack |
| FewShotStrategy.WithExamples | strategies/few_shot.py:45-53 | the `FewShotPromptTemplate` text; stated by FewShotStrategy.WithExamplesFrame, FewShotStrategy.WithExamplesOrder and FewShotStrategy.WithExamplesShowsPairs |
| FewShotStrategy.Fallback | strategies/few_shot.py:54-60 | the text without examples; stated by FewShotStrategy.FallbackMentions and FewShotStrategy.FallbackHasNoInputLine |
| FewShotStrategy.NewExamples | strategies/few_shot.py:22 | the constructor keeps a non-empty list and stores `[]` otherwise |
| FewShotStrategy.EffectiveExamples | strategies/few_shot.py:37 | a non-empty call list replaces the instance list; an omitted or empty one falls through |
| FewShotStrategy.Take | strategies/few_shot.py:46 | the slice `[:n]` is a prefix of the list, of length min(n, length) |
| FewShotStrategy.RenderExample | strategies/few_shot.py:40-43 | "Input: " comes first, the input right after it, then the output after "\nOutput: "; the length adds up |
| FewShotStrategy.RenderAll | strategies/few_shot.py:45-47 | the rendering of the k-th example is the k-th text |
| FewShotStrategy.Pieces | strategies/few_shot.py:45-51 | the prefix comes first, then each shown example rendered in order, then the suffix with the prompt last |
| FewShotStrategy.WithExamplesFrame | strategies/few_shot.py:45-53 | the few-shot text starts with the prefix, ends with the suffix and the prompt, and is longer than the prompt |
| FewShotStrategy.WithExamplesOrder | strategies/few_shot.py:45-53 | each shown example sits at its own offset, strictly after the piece before it |
| FewShotStrategy.WithExamplesShowsPairs | strategies/few_shot.py:40-53 | every shown example's input and output appear in the text |
| FewShotStrategy.FallbackMentions | strategies/few_shot.py:54-60 | the fallback contains "examples", the prompt and "pattern" at fixed offsets, and is longer than the prompt |
| FewShotStrategy.FallbackHasNoInputLine | strategies/few_shot.py:54-60 | an "Input:" in the fallback can only come from the prompt |
| FewShotStrategy.ImproveEmbedsPrompt | strategies/few_shot.py:37-60 | in both branches the prompt appears verbatim and the output is longer than it |
| FewShotStrategy.ImproveShowsExamples | strategies/few_shot.py:37-53 | with examples available, each of the first `num_examples` effective examples shows its input and output, and its rendering "Input: ...\nOutput: ..." sits at its own offset, strictly after the prefix and strictly before the suffix |
| FewShotStrategy.WithExamplesBetween | strategies/few_shot.py:45-53 | each shown example's rendering lies strictly after the prefix and strictly before the suffix with the prompt |
| FewShotStrategy.NoExamplesFallBack | strategies/few_shot.py:39-60 | with no example from the call or the instance, the output is the fallback text around the prompt |
| FewShotStrategy.CallExamplesReplace | strategies/few_shot.py:37 | non-empty call examples make the instance examples irrelevant |
| FewShotStrategy.EmptyCallFallsThrough | strategies/few_shot.py:37 | an empty call list gives the same output as passing none |
| FewShotStrategy.OnlyFirstExamplesMatter | strategies/few_shot.py:46 | examples past the first `num_examples` do not affect the output |
| ChainOfThoughtStrategy.Improve | strategies/chain_of_thought.py:11-36 | `improve`: the template lines joined by newlines; stated by ChainOfThoughtStrategy.ImproveLines, ChainOfThoughtStrategy.ImproveEmbedsPrompt and ChainOfThoughtStrategy.ImproveInjective |
| ChainOfThoughtStrategy.Lines | strategies/chain_of_thought.py:24-34 | the template has eleven lines, and the third is "Task: " followed by the prompt |
| ChainOfThoughtStrategy.ImproveLines | strategies/chain_of_thought.py:22-36 | line k is at its offset with a newline after it; the next line starts right after; the last line ends the output |
| ChainOfThoughtStrategy.ImproveEmbedsPrompt | strategies/chain_of_thought.py:24-26 | the output opens with "Let's think step by step."; after a blank line come "Task: " and the prompt verbatim; the output is longer than the prompt |
| ChainOfThoughtStrategy.ImproveInjective | strategies/chain_of_thought.py:22-36 | different prompts give different outputs |
| ChainOfThoughtStrategy.ImproveInstructionsTitle | strategies/chain_of_thought.py:26-28 | a blank line and "Instructions:" follow the task line |
| ChainOfThoughtStrategy.ImproveListsInstructions | strategies/chain_of_thought.py:28-32 | the four numbered steps follow the title, on successive lines in order |
| ChainOfThoughtStrategy.ImproveEnd | strategies/chain_of_thought.py:32-34 | a blank line follows the last step, and "Step-by-step reasoning:" ends the output |
| SelfConsistencyStrategy.Improve | strategies/self_consistency.py:23-51 | `improve`: the template with the effective count in decimal; stated by SelfConsistencyStrategy.ImproveShowsCount and SelfConsistencyStrategy.CountDeterminesOutput |
| SelfConsistencyStrategy.EffectiveNumPaths | strategies/self_consistency.py:35 | a truthy call count wins; a 0 or omitted one falls through to the instance count |
| SelfConsistencyStrategy.Lines | strategies/self_consistency.py:38-46 | the template has nine lines, and the first is "Task: " followed by the prompt |
| SelfConsistencyStrategy.Template | strategies/self_consistency.py:36-51 | the output opens with "Task: ", the prompt and a newline |
| SelfConsistencyStrategy.TemplateEmbedsPrompt | strategies/self_consistency.py:38 | the prompt follows "Task: " verbatim and the output is longer than it |
| SelfConsistencyStrategy.TemplateLines | strategies/self_consistency.py:36-51 | line k is at its offset with a newline after it; the next line starts right after; the last line ends the output |
| SelfConsistencyStrategy.TemplateHeader | strategies/self_consistency.py:38-41 | a blank line and "Instructions:" follow the task, then the line "1. Generate <n> different independent reasoning paths ..." |
| SelfConsistencyStrategy.TemplateInstructions | strategies/self_consistency.py:42-44 | instructions 2 to 4 follow, on successive lines in order |
| SelfConsistencyStrategy.TemplateEnd | strategies/self_consistency.py:44-46 | a blank line, then "Reasoning Paths:" ends the output |
| SelfConsistencyStrategy.TemplateCountInjective | strategies/self_consistency.py:36-51 | for a fixed prompt, two outputs are equal exactly when the rendered counts are |
| SelfConsistencyStrategy.ImproveShowsCount | strategies/self_consistency.py:35-51 | the output carries the effective count, in decimal, in its first instruction; it is framed by the task and the closing cue |
| SelfConsistencyStrategy.CountDeterminesOutput | strategies/self_consistency.py:35-51 | outputs for one prompt agree exactly when the effective counts agree |
| SelfConsistencyStrategy.OnlyPromptHolds | strategies/self_consistency.py:36-51 | a one-line text that no fixed line holds, and that cannot start inside "Task: ", occurs in the output only within the prompt |
| SelfConsistencyStrategy.FixedLinesLackThree | strategies/self_consistency.py:38-46 | no line but the task line of the template asking for 7 paths holds "Generate 3 different" |
| SelfConsistencyStrategy.CallCountHidesInstanceCount | tests/test_self_consistency_strategy.py:63-72 | with a call count of 7 over an instance count of 3, "Generate 3 different" is in the output only if the prompt holds it |
| SelfConsistencyStrategy.CallCountOverrides | strategies/self_consistency.py:35 | a call count of 7 over an instance count of 3 asks for 7 paths, and the output differs from the one asking for 3 |
| TreeOfThoughtStrategy.Improve | strategies/tree_of_thought.py:23-54 | `improve`: the template with the effective count in decimal; stated by TreeOfThoughtStrategy.ImproveShowsCount and TreeOfThoughtStrategy.CountDeterminesOutput |
| TreeOfThoughtStrategy.EffectiveNumBranches | strategies/tree_of_thought.py:35 | a truthy call count wins; a 0 or omitted one falls through to the instance count |
| TreeOfThoughtStrategy.Lines | strategies/tree_of_thought.py:38-49 | the template has twelve lines, and the first is "Task: " followed by the prompt |
| TreeOfThoughtStrategy.Template | strategies/tree_of_thought.py:36-54 | the output opens with "Task: ", the prompt and a newline |
| TreeOfThoughtStrategy.TemplateEmbedsPrompt | strategies/tree_of_thought.py:38 | the prompt follows "Task: " verbatim and the output is longer than it |
| TreeOfThoughtStrategy.TemplateLines | strategies/tree_of_thought.py:36-54 | line k is at its offset with a newline after it; the next line starts right after; the last line ends the output |
| TreeOfThoughtStrategy.TemplateHeader | strategies/tree_of_thought.py:38-41 | a blank line and "Instructions:" follow the task, then the line "1. Generate at least <n> different possible approaches or solutions" |
| TreeOfThoughtStrategy.TemplateEvaluation | strategies/tree_of_thought.py:42-45 | the evaluation step and its three criteria follow, on successive lines in order |
| TreeOfThoughtStrategy.TemplateDecision | strategies/tree_of_thought.py:46-47 | the comparison and the choice follow, on successive lines in order |
| TreeOfThoughtStrategy.TemplateEnd | strategies/tree_of_thought.py:47-49 | a blank line, then "Approach Exploration:" ends the output |
| TreeOfThoughtStrategy.TemplateCountInjective | strategies/tree_of_thought.py:36-54 | for a fixed prompt, two outputs are equal exactly when the rendered counts are |
| TreeOfThoughtStrategy.ImproveShowsCount | strategies/tree_of_thought.py:35-54 | the output carries the effective count, in decimal, in its first instruction; it is framed by the task and the closing cue |
| TreeOfThoughtStrategy.CountDeterminesOutput | strategies/tree_of_thought.py:35-54 | outputs for one prompt agree exactly when the effective counts agree |
| TreeOfThoughtStrategy.ZeroCountFallsThrough | strategies/tree_of_thought.py:35 | a call count of 0 is falsy: it gives the output of no call count, the one with the instance count |
| SkeletonOfThoughtStrategy.Improve | strategies/skeleton_of_thought.py:23-51 | `improve`: the template with the effective count in decimal; stated by SkeletonOfThoughtStrategy.ImproveShowsCount and SkeletonOfThoughtStrategy.CountDeterminesOutput |
| SkeletonOfThoughtStrategy.EffectiveNumPoints | strategies/skeleton_of_thought.py:35 | a truthy call count wins; a 0 or omitted one falls through to the instance count |
| SkeletonOfThoughtStrategy.Lines | strategies/skeleton_of_thought.py:38-46 | the template has nine lines, and the first is "Task: " followed by the prompt |
| SkeletonOfThoughtStrategy.Template | strategies/skeleton_of_thought.py:36-51 | the output opens with "Task: ", the prompt and a newline |
| SkeletonOfThoughtStrategy.TemplateEmbedsPrompt | strategies/skeleton_of_thought.py:38 | the prompt follows "Task: " verbatim and the output is longer than it |
| SkeletonOfThoughtStrategy.TemplateLines | strategies/skeleton_of_thought.py:36-51 | line k is at its offset with a newline after it; the next line starts right after; the last line ends the output |
| SkeletonOfThoughtStrategy.TemplateSkeletonStep | strategies/skeleton_of_thought.py:38-41 | a blank line and "Step 1 - Generate Skeleton:" follow the task, then "Create <n> concise bullet points ..." |
| SkeletonOfThoughtStrategy.TemplateExpandStep | strategies/skeleton_of_thought.py:41-43 | a blank line and "Step 2 - Expand Skeleton:" follow the skeleton instruction |
| SkeletonOfThoughtStrategy.TemplateExpansion | strategies/skeleton_of_thought.py:43-44 | the expansion instruction is on the line right under Step 2 |
| SkeletonOfThoughtStrategy.TemplateEnd | strategies/skeleton_of_thought.py:44-46 | a blank line, then "Skeleton Generation:" ends the output |
| SkeletonOfThoughtStrategy.TemplateCountInjective | strategies/skeleton_of_thought.py:36-51 | for a fixed prompt, two outputs are equal exactly when the rendered counts are |
| SkeletonOfThoughtStrategy.ImproveShowsCount | strategies/skeleton_of_thought.py:35-51 | the output carries the effective count, in decimal, in its skeleton instruction; it is framed by the task and the closing cue |
| SkeletonOfThoughtStrategy.CountDeterminesOutput | strategies/skeleton_of_thought.py:35-51 | outputs for one prompt agree exactly when the effective counts agree |
| SkeletonOfThoughtStrategy.CallCountOverrides | strategies/skeleton_of_thought.py:35 | a call count of 10 over an instance count of 5 asks for 10 points, and the output differs from the one asking for 5 |
| ReActStrategy.Improve | strategies/react.py:23-58 | `improve`: the template with the domain context; stated by ReActStrategy.TemplateFirstLine, ReActStrategy.TemplateLines and ReActStrategy.CallDomainReplacesInstance |
| ReActStrategy.DomainContext | strategies/react.py:35-36 | a non-empty call domain wins, then a non-empty instance domain, each after " in the domain of "; the context is empty exactly when neither is given |
| ReActStrategy.Lines | strategies/react.py:39-53 | the template has fifteen lines, and the first is "Task", the context, ": " and the prompt |
| ReActStrategy.Template | strategies/react.py:37-58 | the output opens with its task line and a newline |
| ReActStrategy.TemplateFirstLine | strategies/react.py:39 | the prompt appears verbatim in the task line and the output is longer than it |
| ReActStrategy.TemplateLines | strategies/react.py:37-58 | line k is at its offset with a newline after it; the next line starts right after; the last line ends the output |
| ReActStrategy.TemplateCycle | strategies/react.py:45-49 | the Thought, Action, Observation, repeat and Final Answer lines are on successive lines in order |
| ReActStrategy.TemplateWarning | strategies/react.py:49-51 | a blank line and the warning against fabricating information follow the Final Answer line |
| ReActStrategy.TemplateEnd | strategies/react.py:51-53 | another blank line, then "Begin:" ends the output |
| ReActStrategy.TemplateContextInjective | strategies/react.py:39 | for a fixed prompt, two outputs are equal exactly when the domain contexts are |
| ReActStrategy.CallDomainDecides | strategies/react.py:35-36 | a non-empty call domain makes the instance domain irrelevant and heads the task line |
| ReActStrategy.NoDomainFirstLine | strategies/react.py:36 | with no domain, or only empty ones, the first line is "Task: " and the prompt |
| ReActStrategy.CallDomainReplacesInstance | strategies/react.py:35-36 | a call domain gives the instance domain's output exactly when the two domains are equal |
| Strategies.Improve | improver.py:105-106 | `strategy_instance.improve(prompt, **kwargs)`: each variant hands the prompt and its own arguments to its strategy; stated by Strategies.ImproveKeepsPrompt and Strategies.OtherParamsIgnored |
| Strategies.Name | strategies/base.py:35-38 | every strategy's display name is non-empty |
| Strategies.NameIdentifiesClass | strategies/base.py:35-38 | two strategies have the same display name exactly when they are of the same class |
| Strategies.ImproveKeepsPrompt | tests/test_integration.py:25-46 | every strategy, whatever its arguments, keeps the prompt verbatim and returns something longer |
| Strategies.OtherParamsIgnored | strategies/base.py:21-33 | keyword arguments meant for other strategies do not change the output |
| Improver.DefaultRegistry | improver.py:68-79 | the registry pairs the i-th key with the i-th instance, ten entries |
| Improver.KeysOf | improver.py:110 | the keys of a registry, in its order |
| Improver.Lookup | improver.py:98-105 | the lookup misses exactly when the key is not registered |
| Improver.LookupFirst | improver.py:105 | the lookup finds the entry with the first matching key |
| Improver.LookupEntry | improver.py:105 | with distinct keys, an entry's key finds that entry's instance |
| Improver.UnknownStrategyMessage | improver.py:99-103 | the error starts with "Unknown strategy: '<name>'" and ends with every key, joined by ", " |
| Improver.UnknownInfoMessage | improver.py:125 | the info error starts with "Unknown strategy: '<name>'" |
| Improver.ImproveWith | improver.py:96-106 | an error exactly when the lowercased name is not a key, and that error lists every key |
| Improver.InfoWith | improver.py:122-131 | an error exactly when the lowercased name is not a key; otherwise the key reported is the lowercased name |
| Improver.ImproveWithFirst | improver.py:96-106 | a known name is handled by the instance registered under its lowercasing |
| Improver.InfoWithFirst | improver.py:122-131 | the info for a known name is that instance's display name and the lowercased name |
| Improver.ImproveWithDefault | improver.py:96-103 | on the ten-entry registry, a name fails exactly when its lowercasing is not one of the ten keys, and the message lists them |
| Improver.PromptImprover.constructor | improver.py:68-79 | the object holds the ten-entry registry, the i-th key with the i-th instance (Improver.DefaultRegistry) |
| Improver.PromptImprover.Improve | improver.py:81-106 | the method returns what `ImproveWith` gives on the registry; it fails exactly when the lowercased name is not among the ten keys, with a message listing them |
| Improver.PromptImprover.GetAvailableStrategies | improver.py:108-110 | the ten keys in registration order |
| Improver.PromptImprover.GetStrategyInfo | improver.py:112-131 | the method returns what `InfoWith` gives; it fails exactly when the lowercased name is not a key |
| Improver.RegistryKeys | improver.py:68-79 | the registry's keys are exactly the ten keys, in order |
| Improver.KeysDistinct | improver.py:68-79 | no key is listed twice |
| Improver.RegistryDistinct | improver.py:68-79 | no two registry entries share a key |
| Improver.LookupKey | improver.py:68-79 | the i-th key finds the i-th instance |
| Improver.KeysLowercase | improver.py:68-79 | every key is lowercase and its own lowercasing |
| Improver.SameInstanceSameOutput | improver.py:96-106 | two names lowercasing to keys with equal instances both succeed, with the same output |
| Improver.AliasesAgree | tests/test_improver.py:127-145 | "cot" and "chain-of-thought", "tot" and "tree-of-thought", "sot" and "skeleton-of-thought", in any case, give the same output |
| Improver.CaseInsensitive | improver.py:96 | names equal up to ASCII case both succeed or both fail, and give the same output |
| Improver.RoleInAnyCase | tests/test_improver.py:170-182 | "ROLE", "Role" and "role" all lowercase to "role" |
| Improver.KnownNameKeepsPrompt | tests/test_integration.py:25-46 | every registered name succeeds with an output that keeps the prompt and is longer |
| Improver.InfoForKey | improver.py:122-131 | the info for the i-th key is its instance's display name and the key |
| Improver.RegisteredNames | tests/test_improver.py:147-156 | the display names of the ten registered instances, in key order, starting with "Role Prompting" for "role" |

## Left out

- The LLM client, the provider and the model name, and the `llm_client` argument
  of every constructor (improver.py:48-67, strategies/base.py:12-19), are left
  out. No strategy's `improve` uses them. Building the client is not free of
  effects, though. `PromptImprover()` without a client builds an `LLMClient`
  (improver.py:63-65), which reads `.env` when its module loads (llm_client.py:10).
  It raises `ValueError` for an unknown provider or a missing API key
  (llm_client.py:55, 62-66, 81-85, 93), and `ImportError` when Gemini support is
  absent (llm_client.py:75-79).
- Improver.PromptImprover.constructor always succeeds. The failures of building
  an `LLMClient` are not modelled: the environment and its `.env` file are not
  part of this model.
- Command-line handling, printing, examples and utilities (`main.py`,
  `example.py`, `utils.py`) are not part of this model.
- LangChain's `PromptTemplate` and `FewShotPromptTemplate` are modelled as plain
  substitution. The model assumes that the few-shot template joins prefix,
  examples and suffix with "\n\n", and that no example text holds a brace that
  would be read as a template variable.
- FewShotStrategy.WithExamples: the template library drops empty pieces before
  joining. None of the pieces here is ever empty, so the model joins them all.
- `str.lower` is modelled on ASCII letters only. Unicode case mapping (for
  example "İ") is not modelled.
- A negative `num_examples`, which Python slices from the end, is not modelled.
  An explicit `num_examples=None`, which slices everything, is not modelled
  either: `None` here is the omitted argument and means 2.
- A numeric constructor argument passed explicitly as `None` would render "None"
  in the template. It is not modelled: the instance counts are integers.
- The class-level `STRATEGY_MAP` (improver.py:35-46) is never read by any method,
  so it is not modelled.
- The registry dictionary is an ordered list of pairs looked up by first match.
  Its keys are distinct (Improver.KeysDistinct), so the list behaves like the
  dictionary.
- RoleStrategy.CallRoleOverrides, FewShotStrategy.CallExamplesReplace and
  FewShotStrategy.OnlyFirstExamplesMatter are stated as independence from the
  overridden input. They do not claim that the overridden text is absent from
  the output, because the prompt itself could contain it.
- ReActStrategy.CallDomainDecides states that the instance domain is irrelevant
  under a call domain. It does not state that the text "instance domain" of
  tests/test_react_strategy.py:65-71 is absent from the output. Every character
  of that text occurs in the fixed instruction lines, so it cannot be ruled out
  one character at a time as SelfConsistencyStrategy.CallCountHidesInstanceCount
  rules out "Generate 3 different".
- Improver.AliasesAgree states the alias tests for every capitalisation of the
  alias names, through the lowercased name. It does not enumerate the literal
  names of those tests.
- tests/test_strategies.py:72-81 expects "Example 1:" and "Example 2:" in the
  fallback without examples. The code at strategies/few_shot.py:55-59 writes no
  such lines, and the model follows the code
  (FewShotStrategy.FallbackHasNoInputLine).
- `BaseStrategy`'s abstract methods are the variants and `match` of
  `Strategies.Strategy`. The model has no abstract class.
