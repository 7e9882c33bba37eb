/** Few-shot learning: show worked input/output examples before the prompt. */
module FewShotStrategy {
  import opened Wrappers
  import opened Text

  /** One worked example, the `{"input": ..., "output": ...}` pair of the source. */
  datatype Example = Example(input: string, output: string)

  /** `num_examples` when the call does not pass one. */
  const DefaultNumExamples: nat := 2

  const InputLabel := "Input: "
  const OutputLabel := "\nOutput: "
  const Prefix := "Here are some examples:\n"
  const Suffix := "\nNow, following the pattern above:\n"
  /** The separator the few-shot template places between its pieces. */
  const Separator := "\n\n"

  const FallbackOpen := "Here are some "
  const ExamplesWord := "examples"
  const FallbackGuide := " to guide the response:\n\n"
  const FallbackFollow := "\n\nFollow the "
  const PatternWord := "pattern"
  const FallbackClose := " shown in the examples above."
  const FallbackHead := FallbackOpen + ExamplesWord + FallbackGuide
  const FallbackTail := FallbackFollow + PatternWord + FallbackClose

  /** `examples or []`: the list the constructor stores. */
  function NewExamples(examples: Option<seq<Example>>): (r: seq<Example>)
    ensures Truthy(examples, []) ==> r == examples.value
    ensures !Truthy(examples, []) ==> r == []
  {
    Or(examples, [], [])
  }

  /** `examples or self.examples`: a call-time list replaces the instance list unless
      it is omitted or empty. */
  function EffectiveExamples(instanceExamples: seq<Example>, callExamples: Option<seq<Example>>): (r: seq<Example>)
    ensures Truthy(callExamples, []) ==> r == callExamples.value
    ensures !Truthy(callExamples, []) ==> r == instanceExamples
  {
    Or(callExamples, [], instanceExamples)
  }

  /** `effective_examples[:num_examples]`: the first `n` examples, or all of them when
      there are fewer. */
  function Take(examples: seq<Example>, n: nat): (r: seq<Example>)
    ensures |r| == (if n < |examples| then n else |examples|)
    ensures r <= examples
  {
    if n < |examples| then examples[..n] else examples
  }

  /** The example template "Input: {input}\nOutput: {output}" filled in. */
  function RenderExample(e: Example): (r: string)
    ensures StartsWith(r, InputLabel)
    ensures ContainsAt(r, e.input, |InputLabel|)
    ensures ContainsAt(r, OutputLabel, |InputLabel| + |e.input|)
    ensures ContainsAt(r, e.output, |InputLabel| + |e.input| + |OutputLabel|)
    ensures |r| == |InputLabel| + |e.input| + |OutputLabel| + |e.output|
  {
    var r := InputLabel + e.input + OutputLabel + e.output;
    assert r[|InputLabel|..|InputLabel| + |e.input|] == e.input;
    assert r[|InputLabel| + |e.input|..|InputLabel| + |e.input| + |OutputLabel|] == OutputLabel;
    assert r[|InputLabel| + |e.input| + |OutputLabel|..] == e.output;
    r
  }

  /** Each example rendered in turn. */
  function RenderAll(examples: seq<Example>): (rs: seq<string>)
    ensures |rs| == |examples|
    ensures forall k :: 0 <= k < |examples| ==> rs[k] == RenderExample(examples[k])
  {
    if |examples| == 0 then [] else [RenderExample(examples[0])] + RenderAll(examples[1..])
  }

  /** The pieces of the few-shot template: the prefix, each shown example, and the
      suffix with the prompt filled in. None of them is empty. */
  function Pieces(prompt: string, shown: seq<Example>): (ps: seq<string>)
    ensures |ps| == |shown| + 2
    ensures ps[0] == Prefix && ps[|ps| - 1] == Suffix + prompt
    ensures forall k :: 0 <= k < |shown| ==> ps[k + 1] == RenderExample(shown[k])
  {
    [Prefix] + RenderAll(shown) + [Suffix + prompt]
  }

  /** The few-shot template formatted: its pieces joined by the separator. */
  function WithExamples(prompt: string, shown: seq<Example>): string
  {
    Join(Pieces(prompt, shown), Separator)
  }

  /** The text used when there is no example at all. */
  function Fallback(prompt: string): string
  {
    FallbackHead + prompt + FallbackTail
  }

  /** `FewShotStrategy.improve(prompt, examples=callExamples, num_examples=...)` on an
      instance holding `instanceExamples`; `numExamples == None` is the omitted
      argument. */
  function Improve(instanceExamples: seq<Example>, prompt: string, callExamples: Option<seq<Example>>,
                   numExamples: Option<nat>): (r: string)
  {
    var effective := EffectiveExamples(instanceExamples, callExamples);
    var n := if numExamples.Some? then numExamples.value else DefaultNumExamples;
    if effective != [] then WithExamples(prompt, Take(effective, n)) else Fallback(prompt)
  }

  /** The few-shot text opens with the prefix and ends with the suffix and the prompt;
      the prompt is embedded verbatim and the text is longer than it. */
  lemma WithExamplesFrame(prompt: string, shown: seq<Example>)
    ensures var r := WithExamples(prompt, shown);
      && StartsWith(r, Prefix)
      && EndsWith(r, Suffix + prompt)
      && ContainsAt(r, prompt, |r| - |prompt|)
      && Contains(r, prompt) && |r| > |prompt|
  {
    var r := WithExamples(prompt, shown);
    var ps := Pieces(prompt, shown);
    JoinLayout(ps, Separator, 0);
    JoinLayout(ps, Separator, |ps| - 1);
    var at := PieceStart(ps, Separator, |ps| - 1);
    AtEnd(r, Suffix + prompt, at);
    assert r[|r| - |prompt|..] == (Suffix + prompt)[|Suffix|..];
    assert ContainsAt(r, prompt, |r| - |prompt|);
  }

  /** Each shown example sits at its own place, in order, one separator after the
      piece before it. */
  lemma WithExamplesOrder(prompt: string, shown: seq<Example>, k: nat)
    requires k < |shown|
    ensures var r := WithExamples(prompt, shown);
      var ps := Pieces(prompt, shown);
      && ContainsAt(r, RenderExample(shown[k]), PieceStart(ps, Separator, k + 1))
      && PieceStart(ps, Separator, k) < PieceStart(ps, Separator, k + 1) < PieceStart(ps, Separator, k + 2)
  {
    var ps := Pieces(prompt, shown);
    JoinLayout(ps, Separator, k);
    JoinLayout(ps, Separator, k + 1);
  }

  /** Each shown example's input and output text appears in the few-shot text. */
  lemma WithExamplesShowsPairs(prompt: string, shown: seq<Example>, k: nat)
    requires k < |shown|
    ensures Contains(WithExamples(prompt, shown), shown[k].input)
    ensures Contains(WithExamples(prompt, shown), shown[k].output)
  {
    var r := WithExamples(prompt, shown);
    var at := PieceStart(Pieces(prompt, shown), Separator, k + 1);
    var e := RenderExample(shown[k]);
    WithExamplesOrder(prompt, shown, k);
    Inside(r, e, shown[k].input, at, |InputLabel|);
    Inside(r, e, shown[k].output, at, |InputLabel| + |shown[k].input| + |OutputLabel|);
  }

  /** The fallback mentions examples and a pattern and embeds the prompt verbatim. */
  lemma FallbackMentions(prompt: string)
    ensures var r := Fallback(prompt);
      && ContainsAt(r, ExamplesWord, |FallbackOpen|)
      && ContainsAt(r, prompt, |FallbackHead|)
      && ContainsAt(r, PatternWord, |FallbackHead| + |prompt| + |FallbackFollow|)
      && Contains(r, ExamplesWord) && Contains(r, PatternWord) && Contains(r, prompt)
      && |r| > |prompt|
  {
    var r := Fallback(prompt);
    InfixAt(FallbackOpen, ExamplesWord, FallbackGuide);
    ExtendRight(FallbackHead, prompt + FallbackTail, ExamplesWord, |FallbackOpen|);
    assert FallbackHead + (prompt + FallbackTail) == r;
    InfixAt(FallbackHead, prompt, FallbackTail);
    InfixAt(FallbackFollow, PatternWord, FallbackClose);
    ExtendLeft(FallbackHead + prompt, FallbackTail, PatternWord, |FallbackFollow|);
    assert ContainsAt(r, ExamplesWord, |FallbackOpen|);
    assert ContainsAt(r, PatternWord, |FallbackHead| + |prompt| + |FallbackFollow|);
  }

  /** The fallback has no "Input:" of its own: any it contains comes from the prompt. */
  lemma FallbackHasNoInputLine(prompt: string)
    ensures Contains(Fallback(prompt), "Input:") ==> Contains(prompt, "Input:")
  {
    FallbackLacksCapitalI();
    assert "Input:"[0] == 'I' && "Input:"[1..] == "nput:";
    assert '\n' !in "nput:";
    OnlyInside(FallbackHead, prompt, FallbackTail, "Input:");
  }

  /** No capital I in the text around the prompt, and the text after it opens with a
      newline. */
  lemma FallbackLacksCapitalI()
    ensures 'I' !in FallbackHead && 'I' !in FallbackTail && FallbackTail[0] == '\n'
  {
    assert 'I' !in FallbackOpen && 'I' !in ExamplesWord && 'I' !in FallbackGuide;
    assert 'I' !in FallbackFollow && 'I' !in PatternWord && 'I' !in FallbackClose;
  }

  /** Both branches keep the prompt verbatim and add text around it. */
  lemma ImproveEmbedsPrompt(instanceExamples: seq<Example>, prompt: string,
                            callExamples: Option<seq<Example>>, numExamples: Option<nat>)
    ensures var r := Improve(instanceExamples, prompt, callExamples, numExamples);
      Contains(r, prompt) && |r| > |prompt|
  {
    var effective := EffectiveExamples(instanceExamples, callExamples);
    var n := if numExamples.Some? then numExamples.value else DefaultNumExamples;
    if effective != [] {
      WithExamplesFrame(prompt, Take(effective, n));
    } else {
      FallbackMentions(prompt);
    }
  }

  /** Each shown example's rendering lies strictly after the prefix and strictly
      before the suffix with the prompt. */
  lemma WithExamplesBetween(prompt: string, shown: seq<Example>, k: nat)
    requires k < |shown|
    ensures var r := WithExamples(prompt, shown);
      var at := PieceStart(Pieces(prompt, shown), Separator, k + 1);
      && ContainsAt(r, RenderExample(shown[k]), at)
      && |Prefix| < at && at + |RenderExample(shown[k])| < |r| - |Suffix + prompt|
  {
    WithExamplesOrder(prompt, shown, k);
    PieceInside(Pieces(prompt, shown), Separator, k + 1);
  }

  /** With examples available, the output is the few-shot text: it opens with the
      prefix, ends with the suffix and the prompt, and shows the input and output of
      each of the first `num_examples` effective examples; each example's rendering
      lies strictly between the prefix and the suffix. */
  lemma ImproveShowsExamples(instanceExamples: seq<Example>, prompt: string,
                             callExamples: Option<seq<Example>>, numExamples: Option<nat>, k: nat)
    requires EffectiveExamples(instanceExamples, callExamples) != []
    requires k < |EffectiveExamples(instanceExamples, callExamples)|
    requires k < (if numExamples.Some? then numExamples.value else DefaultNumExamples)
    ensures var r := Improve(instanceExamples, prompt, callExamples, numExamples);
      var e := EffectiveExamples(instanceExamples, callExamples)[k];
      && StartsWith(r, Prefix) && EndsWith(r, Suffix + prompt)
      && Contains(r, e.input) && Contains(r, e.output)
    ensures var r := Improve(instanceExamples, prompt, callExamples, numExamples);
      var effective := EffectiveExamples(instanceExamples, callExamples);
      var n := if numExamples.Some? then numExamples.value else DefaultNumExamples;
      var at := PieceStart(Pieces(prompt, Take(effective, n)), Separator, k + 1);
      && ContainsAt(r, RenderExample(effective[k]), at)
      && |Prefix| < at && at + |RenderExample(effective[k])| < |r| - |Suffix + prompt|
  {
    var effective := EffectiveExamples(instanceExamples, callExamples);
    var n := if numExamples.Some? then numExamples.value else DefaultNumExamples;
    var shown := Take(effective, n);
    assert shown[k] == effective[k];
    WithExamplesFrame(prompt, shown);
    WithExamplesShowsPairs(prompt, shown, k);
    WithExamplesBetween(prompt, shown, k);
  }

  /** Without any example, from the call or the instance, the output is the fallback. */
  lemma NoExamplesFallBack(instanceExamples: seq<Example>, prompt: string,
                           callExamples: Option<seq<Example>>, numExamples: Option<nat>)
    requires instanceExamples == [] && !Truthy(callExamples, [])
    ensures Improve(instanceExamples, prompt, callExamples, numExamples)
         == FallbackHead + prompt + FallbackTail
  {
  }

  /** Non-empty call-time examples replace the instance ones entirely: the instance
      list then has no effect on the output. */
  lemma CallExamplesReplace(instanceA: seq<Example>, instanceB: seq<Example>, prompt: string,
                            callExamples: seq<Example>, numExamples: Option<nat>)
    requires callExamples != []
    ensures Improve(instanceA, prompt, Some(callExamples), numExamples)
         == Improve(instanceB, prompt, Some(callExamples), numExamples)
  {
  }

  /** An empty call-time list falls through to the instance examples. */
  lemma EmptyCallFallsThrough(instanceExamples: seq<Example>, prompt: string, numExamples: Option<nat>)
    ensures Improve(instanceExamples, prompt, Some([]), numExamples)
         == Improve(instanceExamples, prompt, None, numExamples)
  {
  }

  /** Only the first `num_examples` examples matter: the later ones have no effect on
      the output. */
  lemma OnlyFirstExamplesMatter(examples: seq<Example>, prompt: string, n: nat)
    requires examples != [] && n > 0
    ensures Improve(examples, prompt, None, Some(n)) == Improve(Take(examples, n), prompt, None, Some(n))
  {
    assert Take(Take(examples, n), n) == Take(examples, n);
  }
}
