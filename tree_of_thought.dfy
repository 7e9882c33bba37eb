/** Tree of thought: ask for several candidate approaches, each weighed, then a choice. */
module TreeOfThoughtStrategy {
  import opened Wrappers
  import opened Text

  /** `num_branches` when the constructor is not given one. */
  const DefaultNumBranches := 3

  const Head := "Task: "
  const Title := "Instructions:"
  const Generate := "1. Generate at least "
  const ApproachesText := " different possible approaches or solutions"
  const Evaluate := "2. For each approach, evaluate:"
  const Feasibility := "   - Feasibility"
  const Advantages := "   - Advantages"
  const Disadvantages := "   - Disadvantages"
  const Compare := "3. Compare all approaches and evaluate trade-offs"
  const Choose := "4. Choose the best approach with clear reasoning"
  const Cue := "Approach Exploration:"

  /** `num_branches or self.num_branches`: a call-time 0 or `None` falls through to the
      instance value, which is used as it is (even when it is 0). */
  function EffectiveNumBranches(numBranches: int, callNumBranches: Option<int>): (n: int)
    ensures Truthy(callNumBranches, 0) ==> n == callNumBranches.value
    ensures !Truthy(callNumBranches, 0) ==> n == numBranches
  {
    Or(callNumBranches, 0, numBranches)
  }

  /** The first instruction, with the count in it. */
  function CountLine(numBranches: string): string
  {
    Generate + numBranches + ApproachesText
  }

  /** The lines of the filled-in template, blank lines included. */
  function Lines(prompt: string, numBranches: string): (ls: seq<string>)
    ensures |ls| == 12 && ls[0] == Head + prompt
  {
    [Head + prompt, "", Title, CountLine(numBranches), Evaluate, Feasibility, Advantages,
     Disadvantages, Compare, Choose, "", Cue]
  }

  /** The template with its two input variables, `{prompt}` and `{num_branches}`,
      filled in: its lines joined by newlines. */
  function Template(prompt: string, numBranches: string): (r: string)
    ensures StartsWith(r, Head + prompt + "\n")
  {
    var ls := Lines(prompt, numBranches);
    assert Join(ls, "\n") == ls[0] + "\n" + Join(ls[1..], "\n");
    Join(ls, "\n")
  }

  /** `TreeOfThoughtStrategy.improve(prompt, num_branches=callNumBranches)` on an
      instance built with `numBranches`; the count is rendered by `str`. */
  function Improve(numBranches: int, prompt: string, callNumBranches: Option<int>): (r: string)
  {
    Template(prompt, IntToString(EffectiveNumBranches(numBranches, callNumBranches)))
  }

  /** Offset, in the output, of line `k`. */
  function LineAt(prompt: string, numBranches: string, k: nat): nat
    requires k < 12
  {
    PieceStart(Lines(prompt, numBranches), "\n", k)
  }

  /** The prompt follows "Task: " verbatim, and the output is longer than it. */
  lemma TemplateEmbedsPrompt(prompt: string, numBranches: string)
    ensures var r := Template(prompt, numBranches);
      && ContainsAt(r, prompt, |Head|) && Contains(r, prompt) && |r| > |prompt|
  {
    var r := Template(prompt, numBranches);
    assert r[|Head|..|Head| + |prompt|] == (Head + prompt + "\n")[|Head|..|Head| + |prompt|];
    assert ContainsAt(r, prompt, |Head|);
  }

  /** Every line stands on a line of its own, in order: line `k` at `LineAt(k)`, a
      newline right after it, and the last one closes the output. */
  lemma TemplateLines(prompt: string, numBranches: string, k: nat)
    requires k < 12
    ensures var r := Template(prompt, numBranches);
      var ls := Lines(prompt, numBranches);
      && ContainsAt(r, ls[k], LineAt(prompt, numBranches, k))
      && (k + 1 < 12 ==>
            ContainsAt(r, "\n", LineAt(prompt, numBranches, k) + |ls[k]|)
            && LineAt(prompt, numBranches, k + 1) == LineAt(prompt, numBranches, k) + |ls[k]| + 1)
      && (k + 1 == 12 ==> LineAt(prompt, numBranches, k) + |ls[k]| == |r|)
  {
    JoinLayout(Lines(prompt, numBranches), "\n", k);
  }

  /** A blank line after the task, then "Instructions:" and the first instruction,
      which asks for at least `numBranches` approaches. */
  lemma TemplateHeader(prompt: string, numBranches: string)
    ensures var r := Template(prompt, numBranches);
      && ContainsAt(r, "\n" + "\n" + Title, |Head| + |prompt|)
      && LineAt(prompt, numBranches, 2) == |Head| + |prompt| + 2
      && ContainsAt(r, CountLine(numBranches), LineAt(prompt, numBranches, 3))
      && LineAt(prompt, numBranches, 3) == |Head| + |prompt| + 2 + |Title| + 1
  {
    var ls := Lines(prompt, numBranches);
    assert ls[0] == Head + prompt && ls[1] == "" && ls[2] == Title;
    JoinBlank(ls, "\n", 0);
    TemplateLines(prompt, numBranches, 2);
    TemplateLines(prompt, numBranches, 3);
  }

  /** The evaluation step and its three criteria follow the first instruction, each on
      its own line, in order. */
  lemma TemplateEvaluation(prompt: string, numBranches: string)
    ensures var r := Template(prompt, numBranches);
      && ContainsAt(r, Evaluate, LineAt(prompt, numBranches, 4))
      && ContainsAt(r, Feasibility, LineAt(prompt, numBranches, 5))
      && ContainsAt(r, Advantages, LineAt(prompt, numBranches, 6))
      && ContainsAt(r, Disadvantages, LineAt(prompt, numBranches, 7))
      && LineAt(prompt, numBranches, 3) < LineAt(prompt, numBranches, 4)
         < LineAt(prompt, numBranches, 5) < LineAt(prompt, numBranches, 6)
         < LineAt(prompt, numBranches, 7)
  {
    TemplateLines(prompt, numBranches, 3);
    TemplateLines(prompt, numBranches, 4);
    TemplateLines(prompt, numBranches, 5);
    TemplateLines(prompt, numBranches, 6);
    TemplateLines(prompt, numBranches, 7);
  }

  /** Then the comparison and the choice, each on its own line, in order. */
  lemma TemplateDecision(prompt: string, numBranches: string)
    ensures var r := Template(prompt, numBranches);
      && ContainsAt(r, Compare, LineAt(prompt, numBranches, 8))
      && ContainsAt(r, Choose, LineAt(prompt, numBranches, 9))
      && LineAt(prompt, numBranches, 7) < LineAt(prompt, numBranches, 8)
         < LineAt(prompt, numBranches, 9)
  {
    TemplateLines(prompt, numBranches, 7);
    TemplateLines(prompt, numBranches, 8);
    TemplateLines(prompt, numBranches, 9);
  }

  /** A blank line after the choice, and "Approach Exploration:" closes the output. */
  lemma TemplateEnd(prompt: string, numBranches: string)
    ensures var r := Template(prompt, numBranches);
      && ContainsAt(r, "\n" + "\n" + Cue, LineAt(prompt, numBranches, 9) + |Choose|)
      && EndsWith(r, "\n" + "\n" + Cue)
  {
    var ls := Lines(prompt, numBranches);
    assert ls[9] == Choose && ls[10] == "" && ls[11] == Cue;
    JoinBlank(ls, "\n", 9);
  }

  /** For a fixed prompt the count is read back from the first instruction. */
  lemma TemplateCountInjective(prompt: string, a: string, b: string)
    ensures Template(prompt, a) == Template(prompt, b) <==> a == b
  {
    if Template(prompt, a) == Template(prompt, b) {
      var xs, ys := Lines(prompt, a), Lines(prompt, b);
      assert forall i | 0 <= i < 12 && i != 3 :: xs[i] == ys[i];
      JoinDeterminesPiece(xs, ys, "\n", 3);
      assert |a| == |b|;
      assert CountLine(a)[|Generate|..|Generate| + |a|] == a;
      assert CountLine(b)[|Generate|..|Generate| + |b|] == b;
    }
  }

  /** The output starts with the task and carries the effective count in decimal in
      its first instruction: "1. Generate at least <n> different possible approaches ...". */
  lemma ImproveShowsCount(numBranches: int, prompt: string, callNumBranches: Option<int>)
    ensures var n := IntToString(EffectiveNumBranches(numBranches, callNumBranches));
      var r := Improve(numBranches, prompt, callNumBranches);
      && StartsWith(r, Head + prompt + "\n") && EndsWith(r, "\n" + "\n" + Cue)
      && ContainsAt(r, prompt, |Head|) && |r| > |prompt|
      && ContainsAt(r, CountLine(n), |Head| + |prompt| + 2 + |Title| + 1)
  {
    var n := IntToString(EffectiveNumBranches(numBranches, callNumBranches));
    TemplateEmbedsPrompt(prompt, n);
    TemplateHeader(prompt, n);
    TemplateEnd(prompt, n);
  }

  /** Outputs for the same prompt agree exactly when the effective counts do. */
  lemma CountDeterminesOutput(numA: int, callA: Option<int>, numB: int, callB: Option<int>, prompt: string)
    ensures Improve(numA, prompt, callA) == Improve(numB, prompt, callB)
        <==> EffectiveNumBranches(numA, callA) == EffectiveNumBranches(numB, callB)
  {
    var a, b := EffectiveNumBranches(numA, callA), EffectiveNumBranches(numB, callB);
    TemplateCountInjective(prompt, IntToString(a), IntToString(b));
    IntToStringInjective(a, b);
  }

  /** A call-time 0 is falsy: it gives the same output as passing no count at all,
      the one that asks for the instance's count. */
  lemma ZeroCountFallsThrough(numBranches: int, prompt: string)
    ensures Improve(numBranches, prompt, Some(0)) == Improve(numBranches, prompt, None)
    ensures ContainsAt(Improve(numBranches, prompt, None), CountLine(IntToString(numBranches)),
                       |Head| + |prompt| + 2 + |Title| + 1)
  {
    ImproveShowsCount(numBranches, prompt, None);
  }
}
