/** ReAct: ask for interleaved Thought / Action / Observation steps ending in an answer. */
module ReActStrategy {
  import opened Wrappers
  import opened Text

  const Task := "Task"
  const DomainClause := " in the domain of "
  const Colon := ": "
  const Instructions := "Instructions:"
  const Intro := "Use the ReAct framework to solve this task. Alternate between reasoning (Thought) and actions (Action)."
  const FormatLine := "Format your response as follows:"
  const Thought := "- Thought: [Your reasoning about the current situation]"
  const Action := "- Action: [A concrete action or step to take]"
  const Observation := "- Observation: [The result or observation from the action]"
  const Repeat := "- (Repeat Thought-Action-Observation cycle as needed)"
  const FinalAnswer := "- Final Answer: [Your final answer after reasoning through the steps]"
  const Important := "Important: "
  const NoFabrication := "Do not fabricate information not provided in the context."
  const Grounding := "Base your reasoning on available information."
  const Cue := "Begin:"

  /** `effective_domain = domain or self.domain`, then
      `f" in the domain of {effective_domain}" if effective_domain else ""`. */
  function DomainContext(instanceDomain: Option<string>, callDomain: Option<string>): (r: string)
    ensures Truthy(callDomain, "") ==> r == DomainClause + callDomain.value
    ensures !Truthy(callDomain, "") && Truthy(instanceDomain, "") ==> r == DomainClause + instanceDomain.value
    ensures r == "" <==> !Truthy(callDomain, "") && !Truthy(instanceDomain, "")
  {
    var domain := Or(callDomain, "", Or(instanceDomain, "", ""));
    if domain != "" then DomainClause + domain else ""
  }

  const ImportantLine := Important + NoFabrication + " " + Grounding

  /** The lines of the filled-in template, blank lines included: the task line holding
      the domain context and the prompt, then the fixed instructions. */
  function Lines(prompt: string, domainContext: string): (ls: seq<string>)
    ensures |ls| == 15 && ls[0] == Task + domainContext + Colon + prompt
  {
    [Task + domainContext + Colon + prompt, "", Instructions, Intro, "", FormatLine,
     Thought, Action, Observation, Repeat, FinalAnswer, "", ImportantLine, "", Cue]
  }

  /** The template with its two input variables, `{domain_context}` and `{prompt}`,
      filled in: its lines joined by newlines. */
  function Template(prompt: string, domainContext: string): (r: string)
    ensures StartsWith(r, Task + domainContext + Colon + prompt + "\n")
  {
    var ls := Lines(prompt, domainContext);
    assert Join(ls, "\n") == ls[0] + "\n" + Join(ls[1..], "\n");
    Join(ls, "\n")
  }

  /** `ReActStrategy.improve(prompt, domain=callDomain)` on an instance built with `instanceDomain`. */
  function Improve(instanceDomain: Option<string>, prompt: string, callDomain: Option<string>): string
  {
    Template(prompt, DomainContext(instanceDomain, callDomain))
  }

  /** Offset, in the output, of line `k`. */
  function LineAt(prompt: string, domainContext: string, k: nat): nat
    requires k < 15
  {
    PieceStart(Lines(prompt, domainContext), "\n", k)
  }

  /** The first line is "Task", the domain clause, ": " and the prompt verbatim; the
      output is longer than the prompt. */
  lemma TemplateFirstLine(prompt: string, domainContext: string)
    ensures var r := Template(prompt, domainContext);
      && ContainsAt(r, prompt, |Task| + |domainContext| + |Colon|)
      && Contains(r, prompt) && |r| > |prompt|
  {
    var r := Template(prompt, domainContext);
    var first := Task + domainContext + Colon + prompt + "\n";
    assert r[..|first|] == first;
    assert r[|Task| + |domainContext| + |Colon|..|Task| + |domainContext| + |Colon| + |prompt|]
        == first[|Task| + |domainContext| + |Colon|..|Task| + |domainContext| + |Colon| + |prompt|];
    assert ContainsAt(r, prompt, |Task| + |domainContext| + |Colon|);
  }

  /** Every line follows on a line of its own, in order: line `k` at `LineAt(k)`, a
      newline right after it, and the last one, "Begin:", closes the output. */
  lemma TemplateLines(prompt: string, domainContext: string, k: nat)
    requires k < 15
    ensures var r := Template(prompt, domainContext);
      var ls := Lines(prompt, domainContext);
      && ContainsAt(r, ls[k], LineAt(prompt, domainContext, k))
      && (k + 1 < 15 ==>
            ContainsAt(r, "\n", LineAt(prompt, domainContext, k) + |ls[k]|)
            && LineAt(prompt, domainContext, k + 1) == LineAt(prompt, domainContext, k) + |ls[k]| + 1)
      && (k + 1 == 15 ==> LineAt(prompt, domainContext, k) + |ls[k]| == |r|)
  {
    JoinLayout(Lines(prompt, domainContext), "\n", k);
  }

  /** The response format: the Thought, Action, Observation, repeat and Final Answer
      lines, in this order (each on its own line, by `TemplateLines`). */
  lemma TemplateCycle(prompt: string, domainContext: string)
    ensures var r := Template(prompt, domainContext);
      && ContainsAt(r, Thought, LineAt(prompt, domainContext, 6))
      && ContainsAt(r, Action, LineAt(prompt, domainContext, 7))
      && ContainsAt(r, Observation, LineAt(prompt, domainContext, 8))
      && ContainsAt(r, Repeat, LineAt(prompt, domainContext, 9))
      && ContainsAt(r, FinalAnswer, LineAt(prompt, domainContext, 10))
      && LineAt(prompt, domainContext, 6) < LineAt(prompt, domainContext, 7)
         < LineAt(prompt, domainContext, 8) < LineAt(prompt, domainContext, 9)
         < LineAt(prompt, domainContext, 10)
  {
    TemplateLines(prompt, domainContext, 6);
    TemplateLines(prompt, domainContext, 7);
    TemplateLines(prompt, domainContext, 8);
    TemplateLines(prompt, domainContext, 9);
    TemplateLines(prompt, domainContext, 10);
  }

  /** After the Final Answer line comes a blank line and then the warning against
      fabricating information. */
  lemma TemplateWarning(prompt: string, domainContext: string)
    ensures ContainsAt(Template(prompt, domainContext), "\n" + "\n" + ImportantLine,
                       LineAt(prompt, domainContext, 10) + |FinalAnswer|)
  {
    var ls := Lines(prompt, domainContext);
    JoinBlank(ls, "\n", 10);
  }

  /** Another blank line follows the warning, and "Begin:" closes the output. */
  lemma TemplateEnd(prompt: string, domainContext: string)
    ensures var r := Template(prompt, domainContext);
      && ContainsAt(r, "\n" + "\n" + Cue, LineAt(prompt, domainContext, 12) + |ImportantLine|)
      && EndsWith(r, "\n" + "\n" + Cue)
  {
    var ls := Lines(prompt, domainContext);
    JoinBlank(ls, "\n", 12);
  }

  /** For a fixed prompt the domain context is read back from the first line. */
  lemma TemplateContextInjective(prompt: string, a: string, b: string)
    ensures Template(prompt, a) == Template(prompt, b) <==> a == b
  {
    if Template(prompt, a) == Template(prompt, b) {
      assert |a| == |b|;
      PrefixOfPrefix(Template(prompt, a), Task + a + Colon, prompt);
      PrefixOfPrefix(Template(prompt, a), Task + a, Colon);
      PrefixOfPrefix(Template(prompt, b), Task + b + Colon, prompt);
      PrefixOfPrefix(Template(prompt, b), Task + b, Colon);
      assert (Task + a)[|Task|..] == a;
      assert (Task + b)[|Task|..] == b;
    }
  }

  /** A non-empty call-time domain decides the output on its own, whatever the instance holds. */
  lemma CallDomainDecides(instanceA: Option<string>, instanceB: Option<string>, prompt: string, domain: string)
    requires domain != ""
    ensures Improve(instanceA, prompt, Some(domain)) == Improve(instanceB, prompt, Some(domain))
    ensures StartsWith(Improve(instanceA, prompt, Some(domain)), Task + DomainClause + domain + Colon + prompt + "\n")
  {
    assert DomainContext(instanceA, Some(domain)) == DomainClause + domain;
    assert DomainContext(instanceB, Some(domain)) == DomainClause + domain;
  }

  /** Without any domain the first line is "Task: " and the prompt. */
  lemma NoDomainFirstLine(prompt: string)
    ensures StartsWith(Improve(None, prompt, None), Task + Colon + prompt + "\n")
    ensures StartsWith(Improve(Some(""), prompt, Some("")), Task + Colon + prompt + "\n")
  {
    assert Task + "" == Task;
  }

  /** A call-time domain replaces an instance domain: the output is the one the
      instance domain alone gives exactly when the two domains are the same. */
  lemma CallDomainReplacesInstance(instanceDomain: string, prompt: string, domain: string)
    requires domain != ""
    ensures Improve(Some(instanceDomain), prompt, Some(domain)) == Improve(Some(instanceDomain), prompt, None)
        <==> domain == instanceDomain
  {
    var a := DomainContext(Some(instanceDomain), Some(domain));
    var b := DomainContext(Some(instanceDomain), None);
    TemplateContextInjective(prompt, a, b);
    if a == b {
      assert instanceDomain != "";
      assert (DomainClause + domain)[|DomainClause|..] == domain;
      assert (DomainClause + instanceDomain)[|DomainClause|..] == instanceDomain;
    }
  }
}
