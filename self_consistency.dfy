/** Self-consistency: ask for several independent reasoning paths and a vote among them. */
module SelfConsistencyStrategy {
  import opened Wrappers
  import opened Text

  /** `num_paths` when the constructor is not given one. */
  const DefaultNumPaths := 3

  const Head := "Task: "
  const Title := "Instructions:"
  const Generate := "1. Generate "
  // The longer lines are spelled in short pieces, which keeps proofs about the
  // characters they contain small.
  const PathsText := " different independent " + "reasoning paths " + "to solve this task"
  const Step2 := "2. Each path should be " + "thorough and complete"
  const Step3 := "3. After generating all paths, " + "compare them and identify " + "the most consistent answer"
  const Step4 := "4. Explain why the chosen " + "answer is the most consistent " + "across all paths"
  const Cue := "Reasoning Paths:"

  /** `num_paths or self.num_paths`: a call-time 0 or `None` falls through to the
      instance value, which is used as it is (even when it is 0). */
  function EffectiveNumPaths(numPaths: int, callNumPaths: Option<int>): (n: int)
    ensures Truthy(callNumPaths, 0) ==> n == callNumPaths.value
    ensures !Truthy(callNumPaths, 0) ==> n == numPaths
  {
    Or(callNumPaths, 0, numPaths)
  }

  /** The first instruction, with the count in it. */
  function CountLine(numPaths: string): string
  {
    Generate + numPaths + PathsText
  }

  /** The lines of the filled-in template, blank lines included. */
  function Lines(prompt: string, numPaths: string): (ls: seq<string>)
    ensures |ls| == 9 && ls[0] == Head + prompt
  {
    [Head + prompt, "", Title, CountLine(numPaths), Step2, Step3, Step4, "", Cue]
  }

  /** The template with its two input variables, `{prompt}` and `{num_paths}`, filled
      in: its lines joined by newlines. */
  function Template(prompt: string, numPaths: string): (r: string)
    ensures StartsWith(r, Head + prompt + "\n")
  {
    var ls := Lines(prompt, numPaths);
    assert Join(ls, "\n") == ls[0] + "\n" + Join(ls[1..], "\n");
    Join(ls, "\n")
  }

  /** `SelfConsistencyStrategy.improve(prompt, num_paths=callNumPaths)` on an instance
      built with `numPaths`; the count is rendered by `str`. */
  function Improve(numPaths: int, prompt: string, callNumPaths: Option<int>): (r: string)
  {
    Template(prompt, IntToString(EffectiveNumPaths(numPaths, callNumPaths)))
  }

  /** Offset, in the output, of line `k`. */
  function LineAt(prompt: string, numPaths: string, k: nat): nat
    requires k < 9
  {
    PieceStart(Lines(prompt, numPaths), "\n", k)
  }

  /** The prompt follows "Task: " verbatim, and the output is longer than it. */
  lemma TemplateEmbedsPrompt(prompt: string, numPaths: string)
    ensures var r := Template(prompt, numPaths);
      && ContainsAt(r, prompt, |Head|) && Contains(r, prompt) && |r| > |prompt|
  {
    var r := Template(prompt, numPaths);
    assert r[|Head|..|Head| + |prompt|] == (Head + prompt + "\n")[|Head|..|Head| + |prompt|];
    assert ContainsAt(r, prompt, |Head|);
  }

  /** Every line stands on a line of its own, in order: line `k` at `LineAt(k)`, a
      newline right after it, and the last one closes the output. */
  lemma TemplateLines(prompt: string, numPaths: string, k: nat)
    requires k < 9
    ensures var r := Template(prompt, numPaths);
      var ls := Lines(prompt, numPaths);
      && ContainsAt(r, ls[k], LineAt(prompt, numPaths, k))
      && (k + 1 < 9 ==>
            ContainsAt(r, "\n", LineAt(prompt, numPaths, k) + |ls[k]|)
            && LineAt(prompt, numPaths, k + 1) == LineAt(prompt, numPaths, k) + |ls[k]| + 1)
      && (k + 1 == 9 ==> LineAt(prompt, numPaths, k) + |ls[k]| == |r|)
  {
    JoinLayout(Lines(prompt, numPaths), "\n", k);
  }

  /** A blank line after the task, then "Instructions:" and the first instruction,
      which asks for `numPaths` paths. */
  lemma TemplateHeader(prompt: string, numPaths: string)
    ensures var r := Template(prompt, numPaths);
      && ContainsAt(r, "\n" + "\n" + Title, |Head| + |prompt|)
      && LineAt(prompt, numPaths, 2) == |Head| + |prompt| + 2
      && ContainsAt(r, CountLine(numPaths), LineAt(prompt, numPaths, 3))
      && LineAt(prompt, numPaths, 3) == |Head| + |prompt| + 2 + |Title| + 1
  {
    var ls := Lines(prompt, numPaths);
    assert ls[0] == Head + prompt && ls[1] == "" && ls[2] == Title;
    JoinBlank(ls, "\n", 0);
    TemplateLines(prompt, numPaths, 2);
    TemplateLines(prompt, numPaths, 3);
  }

  /** The three fixed instructions follow the first one, each on its own line, in order. */
  lemma TemplateInstructions(prompt: string, numPaths: string)
    ensures var r := Template(prompt, numPaths);
      && ContainsAt(r, Step2, LineAt(prompt, numPaths, 4))
      && ContainsAt(r, Step3, LineAt(prompt, numPaths, 5))
      && ContainsAt(r, Step4, LineAt(prompt, numPaths, 6))
      && LineAt(prompt, numPaths, 3) < LineAt(prompt, numPaths, 4)
         < LineAt(prompt, numPaths, 5) < LineAt(prompt, numPaths, 6)
  {
    TemplateLines(prompt, numPaths, 3);
    TemplateLines(prompt, numPaths, 4);
    TemplateLines(prompt, numPaths, 5);
    TemplateLines(prompt, numPaths, 6);
  }

  /** A blank line after the last instruction, and "Reasoning Paths:" closes the output. */
  lemma TemplateEnd(prompt: string, numPaths: string)
    ensures var r := Template(prompt, numPaths);
      && ContainsAt(r, "\n" + "\n" + Cue, LineAt(prompt, numPaths, 6) + |Step4|)
      && EndsWith(r, "\n" + "\n" + Cue)
  {
    var ls := Lines(prompt, numPaths);
    assert ls[6] == Step4 && ls[7] == "" && ls[8] == Cue;
    JoinBlank(ls, "\n", 6);
  }

  /** For a fixed prompt the count is read back from the first instruction. */
  lemma TemplateCountInjective(prompt: string, a: string, b: string)
    ensures Template(prompt, a) == Template(prompt, b) <==> a == b
  {
    if Template(prompt, a) == Template(prompt, b) {
      var xs, ys := Lines(prompt, a), Lines(prompt, b);
      assert forall i | 0 <= i < 9 && i != 3 :: xs[i] == ys[i];
      JoinDeterminesPiece(xs, ys, "\n", 3);
      assert |a| == |b|;
      assert CountLine(a)[|Generate|..|Generate| + |a|] == a;
      assert CountLine(b)[|Generate|..|Generate| + |b|] == b;
    }
  }

  /** The output starts with the task and carries the effective count in decimal in
      its first instruction: "1. Generate <n> different independent reasoning paths ...". */
  lemma ImproveShowsCount(numPaths: int, prompt: string, callNumPaths: Option<int>)
    ensures var n := IntToString(EffectiveNumPaths(numPaths, callNumPaths));
      var r := Improve(numPaths, prompt, callNumPaths);
      && StartsWith(r, Head + prompt + "\n") && EndsWith(r, "\n" + "\n" + Cue)
      && ContainsAt(r, prompt, |Head|) && |r| > |prompt|
      && ContainsAt(r, CountLine(n), |Head| + |prompt| + 2 + |Title| + 1)
  {
    var n := IntToString(EffectiveNumPaths(numPaths, callNumPaths));
    TemplateEmbedsPrompt(prompt, n);
    TemplateHeader(prompt, n);
    TemplateEnd(prompt, n);
  }

  /** Outputs for the same prompt agree exactly when the effective counts do. */
  lemma CountDeterminesOutput(numA: int, callA: Option<int>, numB: int, callB: Option<int>, prompt: string)
    ensures Improve(numA, prompt, callA) == Improve(numB, prompt, callB)
        <==> EffectiveNumPaths(numA, callA) == EffectiveNumPaths(numB, callB)
  {
    var a, b := EffectiveNumPaths(numA, callA), EffectiveNumPaths(numB, callB);
    TemplateCountInjective(prompt, IntToString(a), IntToString(b));
    IntToStringInjective(a, b);
  }

  /** A text without newlines whose first character is not in "Task: " and which no
      line but the task line holds occurs in the output only within the prompt. */
  lemma OnlyPromptHolds(prompt: string, numPaths: string, w: string)
    requires |w| > 0 && '\n' !in w && w[0] !in Head
    requires forall k | 1 <= k < 9 :: !Contains(Lines(prompt, numPaths)[k], w)
    ensures Contains(Template(prompt, numPaths), w) ==> Contains(prompt, w)
  {
    var ls := Lines(prompt, numPaths);
    if Contains(Template(prompt, numPaths), w) {
      JoinKeepsApart(ls, "\n", w);
      assert Contains(ls[0], w);
      assert Head + prompt + "" == ls[0];
      OnlyInside(Head, prompt, "", w);
    }
  }

  /** The title and the closing cue hold no capital G. */
  lemma TitleAndCueLackG()
    ensures 'G' !in Title && 'G' !in Cue
  {
  }

  /** The second instruction holds no capital G. */
  lemma Step2LacksG()
    ensures 'G' !in Step2
  {
    assert 'G' !in "2. Each path should be " && 'G' !in "thorough and complete";
  }

  /** The third instruction holds no capital G. */
  lemma Step3LacksG()
    ensures 'G' !in Step3
  {
    assert 'G' !in "3. After generating all paths, ";
    assert 'G' !in "compare them and identify ";
    assert 'G' !in "the most consistent answer";
  }

  /** The fourth instruction holds no capital G. */
  lemma Step4LacksG()
    ensures 'G' !in Step4
  {
    assert 'G' !in "4. Explain why the chosen ";
    assert 'G' !in "answer is the most consistent ";
    assert 'G' !in "across all paths";
  }

  /** The first instruction asking for 7 paths holds no 3. */
  lemma CountLineLacksThree()
    ensures '3' !in CountLine("7")
  {
    assert '3' !in Generate && '3' !in "7";
    assert '3' !in " different independent ";
    assert '3' !in "reasoning paths ";
    assert '3' !in "to solve this task";
  }

  /** No line of the template asking for 7 paths, except the task line, holds
      "Generate 3 different": each lacks either its capital G or its 3. */
  lemma FixedLinesLackThree(prompt: string)
    ensures forall k | 1 <= k < 9 :: !Contains(Lines(prompt, "7")[k], "Generate 3 different")
  {
    var w := "Generate 3 different";
    assert w[0] == 'G' && w[9] == '3';
    TitleAndCueLackG();
    Step2LacksG();
    Step3LacksG();
    Step4LacksG();
    CountLineLacksThree();
    LacksChar("", w, 0);
    LacksChar(Title, w, 0);
    LacksChar(CountLine("7"), w, 9);
    LacksChar(Step2, w, 0);
    LacksChar(Step3, w, 0);
    LacksChar(Step4, w, 0);
    LacksChar(Cue, w, 0);
  }

  /** A call-time 7 over an instance 3 does not leave "Generate 3 different" in the
      output: the text is there only if the prompt itself holds it. */
  lemma CallCountHidesInstanceCount(prompt: string)
    ensures Contains(Improve(3, prompt, Some(7)), "Generate 3 different")
        ==> Contains(prompt, "Generate 3 different")
  {
    assert IntToString(7) == "7";
    var w := "Generate 3 different";
    assert w[0] == 'G' && '\n' !in w && 'G' !in Head;
    FixedLinesLackThree(prompt);
    OnlyPromptHolds(prompt, "7", w);
  }

  /** A call-time 7 over an instance 3 asks for 7 paths in the first instruction, and
      the output differs from the one that asks for 3. */
  lemma CallCountOverrides(prompt: string)
    ensures ContainsAt(Improve(3, prompt, Some(7)), CountLine("7"), |Head| + |prompt| + 2 + |Title| + 1)
    ensures Improve(3, prompt, Some(7)) != Improve(3, prompt, None)
  {
    assert IntToString(7) == "7";
    ImproveShowsCount(3, prompt, Some(7));
    CountDeterminesOutput(3, Some(7), 3, None, prompt);
  }
}
