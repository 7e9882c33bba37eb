/** Chain of thought: ask for explicit step-by-step reasoning around the task. */
module ChainOfThoughtStrategy {
  import opened Text

  const Intro := "Let's think step by step."
  const Head := "Task: "
  const Title := "Instructions:"
  const Step1 := "1. Break down the problem into smaller, manageable parts"
  const Step2 := "2. Think through each step carefully"
  const Step3 := "3. Show your reasoning for each step"
  const Step4 := "4. Provide a clear final answer after showing your reasoning"
  const Cue := "Step-by-step reasoning:"

  /** The lines of the filled-in template, blank lines included. */
  function Lines(prompt: string): (ls: seq<string>)
    ensures |ls| == 11 && ls[2] == Head + prompt
  {
    [Intro, "", Head + prompt, "", Title, Step1, Step2, Step3, Step4, "", Cue]
  }

  /** `ChainOfThoughtStrategy.improve(prompt, **kwargs)`: the template with `{prompt}`
      filled in, its lines joined by newlines. Every keyword argument is ignored, so
      the prompt is the only input. */
  function Improve(prompt: string): (r: string)
  {
    Join(Lines(prompt), "\n")
  }

  /** Offset, in the output, of line `k`. */
  function LineAt(prompt: string, k: nat): nat
    requires k < 11
  {
    PieceStart(Lines(prompt), "\n", k)
  }

  /** Every line stands on a line of its own, in order: line `k` at `LineAt(k)`, a
      newline right after it, and the last one closes the output. */
  lemma ImproveLines(prompt: string, k: nat)
    requires k < 11
    ensures var r := Improve(prompt);
      var ls := Lines(prompt);
      && ContainsAt(r, ls[k], LineAt(prompt, k))
      && (k + 1 < 11 ==>
            ContainsAt(r, "\n", LineAt(prompt, k) + |ls[k]|)
            && LineAt(prompt, k + 1) == LineAt(prompt, k) + |ls[k]| + 1)
      && (k + 1 == 11 ==> LineAt(prompt, k) + |ls[k]| == |r|)
  {
    JoinLayout(Lines(prompt), "\n", k);
  }

  /** The output opens with "Let's think step by step.", and after a blank line the
      prompt follows "Task: " verbatim; so the output is longer than the prompt. */
  lemma ImproveEmbedsPrompt(prompt: string)
    ensures var r := Improve(prompt);
      && ContainsAt(r, Intro, 0)
      && ContainsAt(r, "\n" + "\n" + (Head + prompt), |Intro|)
      && ContainsAt(r, prompt, |Intro| + 2 + |Head|)
      && Contains(r, prompt) && |r| > |prompt|
  {
    var r := Improve(prompt);
    var ls := Lines(prompt);
    ImproveLines(prompt, 0);
    JoinBlank(ls, "\n", 0);
    ImproveLines(prompt, 2);
    assert LineAt(prompt, 2) == |Intro| + 2;
    SuffixAt(Head, prompt);
    Inside(r, Head + prompt, prompt, |Intro| + 2, |Head|);
  }

  /** Different prompts give different outputs. */
  lemma ImproveInjective(p: string, q: string)
    ensures Improve(p) == Improve(q) <==> p == q
  {
    if Improve(p) == Improve(q) {
      var xs, ys := Lines(p), Lines(q);
      assert forall i | 0 <= i < 11 && i != 2 :: xs[i] == ys[i];
      JoinDeterminesPiece(xs, ys, "\n", 2);
      assert (Head + p)[|Head|..] == p;
      assert (Head + q)[|Head|..] == q;
    }
  }

  /** A blank line and "Instructions:" follow the task line. */
  lemma ImproveInstructionsTitle(prompt: string)
    ensures ContainsAt(Improve(prompt), "\n" + "\n" + Title, LineAt(prompt, 2) + |Head| + |prompt|)
    ensures LineAt(prompt, 4) == LineAt(prompt, 2) + |Head| + |prompt| + 2
  {
    JoinBlank(Lines(prompt), "\n", 2);
  }

  /** The four numbered instructions follow the title, each on its own line, in order. */
  lemma ImproveListsInstructions(prompt: string)
    ensures var r := Improve(prompt);
      && ContainsAt(r, Step1, LineAt(prompt, 5))
      && ContainsAt(r, Step2, LineAt(prompt, 6))
      && ContainsAt(r, Step3, LineAt(prompt, 7))
      && ContainsAt(r, Step4, LineAt(prompt, 8))
      && LineAt(prompt, 4) < LineAt(prompt, 5) < LineAt(prompt, 6) < LineAt(prompt, 7) < LineAt(prompt, 8)
  {
    ImproveLines(prompt, 4);
    ImproveLines(prompt, 5);
    ImproveLines(prompt, 6);
    ImproveLines(prompt, 7);
    ImproveLines(prompt, 8);
  }

  /** A blank line after the last instruction, and "Step-by-step reasoning:" closes the
      output. */
  lemma ImproveEnd(prompt: string)
    ensures var r := Improve(prompt);
      && ContainsAt(r, "\n" + "\n" + Cue, LineAt(prompt, 8) + |Step4|)
      && EndsWith(r, "\n" + "\n" + Cue)
  {
    JoinBlank(Lines(prompt), "\n", 8);
  }
}
