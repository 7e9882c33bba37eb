/** Skeleton of thought: first an outline of short points, then the expansion of each. */
module SkeletonOfThoughtStrategy {
  import opened Wrappers
  import opened Text

  /** `num_points` when the constructor is not given one. */
  const DefaultNumPoints := 5

  const Head := "Task: "
  const Step1 := "Step 1 - Generate Skeleton:"
  const Create := "Create "
  const PointsText := " concise bullet points or section headers that outline the main points. Do not expand yet."
  const Step2 := "Step 2 - Expand Skeleton:"
  const Expand := "For each bullet point or section header from Step 1, expand it into a clear and detailed explanation with examples and technical details."
  const Cue := "Skeleton Generation:"

  /** `num_points or self.num_points`: a call-time 0 or `None` falls through to the
      instance value, which is used as it is (even when it is 0). */
  function EffectiveNumPoints(numPoints: int, callNumPoints: Option<int>): (n: int)
    ensures Truthy(callNumPoints, 0) ==> n == callNumPoints.value
    ensures !Truthy(callNumPoints, 0) ==> n == numPoints
  {
    Or(callNumPoints, 0, numPoints)
  }

  /** The skeleton instruction, with the count in it. */
  function CountLine(numPoints: string): string
  {
    Create + numPoints + PointsText
  }

  /** The lines of the filled-in template, blank lines included. */
  function Lines(prompt: string, numPoints: string): (ls: seq<string>)
    ensures |ls| == 9 && ls[0] == Head + prompt
  {
    [Head + prompt, "", Step1, CountLine(numPoints), "", Step2, Expand, "", Cue]
  }

  /** The template with its two input variables, `{prompt}` and `{num_points}`, filled
      in: its lines joined by newlines. */
  function Template(prompt: string, numPoints: string): (r: string)
    ensures StartsWith(r, Head + prompt + "\n")
  {
    var ls := Lines(prompt, numPoints);
    assert Join(ls, "\n") == ls[0] + "\n" + Join(ls[1..], "\n");
    Join(ls, "\n")
  }

  /** `SkeletonOfThoughtStrategy.improve(prompt, num_points=callNumPoints)` on an
      instance built with `numPoints`; the count is rendered by `str`. */
  function Improve(numPoints: int, prompt: string, callNumPoints: Option<int>): (r: string)
  {
    Template(prompt, IntToString(EffectiveNumPoints(numPoints, callNumPoints)))
  }

  /** Offset, in the output, of line `k`. */
  function LineAt(prompt: string, numPoints: string, k: nat): nat
    requires k < 9
  {
    PieceStart(Lines(prompt, numPoints), "\n", k)
  }

  /** The prompt follows "Task: " verbatim, and the output is longer than it. */
  lemma TemplateEmbedsPrompt(prompt: string, numPoints: string)
    ensures var r := Template(prompt, numPoints);
      && ContainsAt(r, prompt, |Head|) && Contains(r, prompt) && |r| > |prompt|
  {
    var r := Template(prompt, numPoints);
    assert r[|Head|..|Head| + |prompt|] == (Head + prompt + "\n")[|Head|..|Head| + |prompt|];
    assert ContainsAt(r, prompt, |Head|);
  }

  /** Every line stands on a line of its own, in order: line `k` at `LineAt(k)`, a
      newline right after it, and the last one closes the output. */
  lemma TemplateLines(prompt: string, numPoints: string, k: nat)
    requires k < 9
    ensures var r := Template(prompt, numPoints);
      var ls := Lines(prompt, numPoints);
      && ContainsAt(r, ls[k], LineAt(prompt, numPoints, k))
      && (k + 1 < 9 ==>
            ContainsAt(r, "\n", LineAt(prompt, numPoints, k) + |ls[k]|)
            && LineAt(prompt, numPoints, k + 1) == LineAt(prompt, numPoints, k) + |ls[k]| + 1)
      && (k + 1 == 9 ==> LineAt(prompt, numPoints, k) + |ls[k]| == |r|)
  {
    JoinLayout(Lines(prompt, numPoints), "\n", k);
  }

  /** Step 1 after a blank line, and right under it the skeleton instruction, which
      asks for `numPoints` points. */
  lemma TemplateSkeletonStep(prompt: string, numPoints: string)
    ensures var r := Template(prompt, numPoints);
      && ContainsAt(r, "\n" + "\n" + Step1, |Head| + |prompt|)
      && LineAt(prompt, numPoints, 2) == |Head| + |prompt| + 2
      && ContainsAt(r, CountLine(numPoints), LineAt(prompt, numPoints, 3))
      && LineAt(prompt, numPoints, 3) == |Head| + |prompt| + 2 + |Step1| + 1
  {
    var ls := Lines(prompt, numPoints);
    assert ls[0] == Head + prompt && ls[1] == "" && ls[2] == Step1;
    JoinBlank(ls, "\n", 0);
    TemplateLines(prompt, numPoints, 2);
    TemplateLines(prompt, numPoints, 3);
  }

  /** Step 2 comes after Step 1, behind a blank line. */
  lemma TemplateExpandStep(prompt: string, numPoints: string)
    ensures var r := Template(prompt, numPoints);
      && ContainsAt(r, "\n" + "\n" + Step2, LineAt(prompt, numPoints, 3) + |CountLine(numPoints)|)
      && LineAt(prompt, numPoints, 5) == LineAt(prompt, numPoints, 3) + |CountLine(numPoints)| + 2
  {
    var ls := Lines(prompt, numPoints);
    assert ls[3] == CountLine(numPoints) && ls[4] == "" && ls[5] == Step2;
    JoinBlank(ls, "\n", 3);
  }

  /** The expansion instruction stands right under Step 2. */
  lemma TemplateExpansion(prompt: string, numPoints: string)
    ensures var r := Template(prompt, numPoints);
      && ContainsAt(r, Step2, LineAt(prompt, numPoints, 5))
      && ContainsAt(r, Expand, LineAt(prompt, numPoints, 6))
      && LineAt(prompt, numPoints, 5) < LineAt(prompt, numPoints, 6)
  {
    TemplateLines(prompt, numPoints, 5);
    TemplateLines(prompt, numPoints, 6);
  }

  /** A blank line after the expansion instruction, and "Skeleton Generation:" closes
      the output. */
  lemma TemplateEnd(prompt: string, numPoints: string)
    ensures var r := Template(prompt, numPoints);
      && ContainsAt(r, "\n" + "\n" + Cue, LineAt(prompt, numPoints, 6) + |Expand|)
      && EndsWith(r, "\n" + "\n" + Cue)
  {
    var ls := Lines(prompt, numPoints);
    assert ls[6] == Expand && ls[7] == "" && ls[8] == Cue;
    JoinBlank(ls, "\n", 6);
  }

  /** For a fixed prompt the count is read back from the skeleton instruction. */
  lemma TemplateCountInjective(prompt: string, a: string, b: string)
    ensures Template(prompt, a) == Template(prompt, b) <==> a == b
  {
    if Template(prompt, a) == Template(prompt, b) {
      var xs, ys := Lines(prompt, a), Lines(prompt, b);
      assert forall i | 0 <= i < 9 && i != 3 :: xs[i] == ys[i];
      JoinDeterminesPiece(xs, ys, "\n", 3);
      assert |a| == |b|;
      assert CountLine(a)[|Create|..|Create| + |a|] == a;
      assert CountLine(b)[|Create|..|Create| + |b|] == b;
    }
  }

  /** The output starts with the task and carries the effective count in decimal in
      the skeleton instruction: "Create <n> concise bullet points ...". */
  lemma ImproveShowsCount(numPoints: int, prompt: string, callNumPoints: Option<int>)
    ensures var n := IntToString(EffectiveNumPoints(numPoints, callNumPoints));
      var r := Improve(numPoints, prompt, callNumPoints);
      && StartsWith(r, Head + prompt + "\n") && EndsWith(r, "\n" + "\n" + Cue)
      && ContainsAt(r, prompt, |Head|) && |r| > |prompt|
      && ContainsAt(r, CountLine(n), |Head| + |prompt| + 2 + |Step1| + 1)
  {
    var n := IntToString(EffectiveNumPoints(numPoints, callNumPoints));
    TemplateEmbedsPrompt(prompt, n);
    TemplateSkeletonStep(prompt, n);
    TemplateEnd(prompt, n);
  }

  /** Outputs for the same prompt agree exactly when the effective counts do. */
  lemma CountDeterminesOutput(numA: int, callA: Option<int>, numB: int, callB: Option<int>, prompt: string)
    ensures Improve(numA, prompt, callA) == Improve(numB, prompt, callB)
        <==> EffectiveNumPoints(numA, callA) == EffectiveNumPoints(numB, callB)
  {
    var a, b := EffectiveNumPoints(numA, callA), EffectiveNumPoints(numB, callB);
    TemplateCountInjective(prompt, IntToString(a), IntToString(b));
    IntToStringInjective(a, b);
  }

  /** A call-time 10 over an instance 5 asks for 10 points, and the output differs
      from the one that asks for 5. */
  lemma CallCountOverrides(prompt: string)
    ensures ContainsAt(Improve(5, prompt, Some(10)), CountLine("10"), |Head| + |prompt| + 2 + |Step1| + 1)
    ensures Improve(5, prompt, Some(10)) != Improve(5, prompt, None)
  {
    assert IntToString(10) == "10";
    ImproveShowsCount(5, prompt, Some(10));
    CountDeterminesOutput(5, Some(10), 5, None, prompt);
  }
}
