/** Role prompting: frame the prompt with a persona the model should adopt. */
module RoleStrategy {
  import opened Wrappers
  import opened Text

  /** The persona used when neither the call nor the instance names one. */
  const DefaultRole := "an expert in the relevant field"

  const Opening := "You are "
  const Period := "."
  const Instruction := " Provide clear, professional, and contextually appropriate responses.\n\n"

  /** `role or self.role or "an expert in the relevant field"`. */
  function EffectiveRole(instanceRole: Option<string>, callRole: Option<string>): (r: string)
    ensures r != ""
    ensures Truthy(callRole, "") ==> r == callRole.value
    ensures !Truthy(callRole, "") && Truthy(instanceRole, "") ==> r == instanceRole.value
    ensures !Truthy(callRole, "") && !Truthy(instanceRole, "") ==> r == DefaultRole
  {
    Or(callRole, "", Or(instanceRole, "", DefaultRole))
  }

  /** The template with its input variables, `{role}` and `{prompt}`, filled in. */
  function Template(prompt: string, role: string): (r: string)
    ensures StartsWith(r, Opening + role + Period)
    ensures EndsWith(r, Period + Instruction + prompt)
    ensures |r| == |Opening| + |role| + |Period + Instruction| + |prompt|
  {
    Opening + role + Period + Instruction + prompt
  }

  /** `RoleStrategy.improve(prompt, role=callRole)` on an instance built with `instanceRole`. */
  function Improve(instanceRole: Option<string>, prompt: string, callRole: Option<string>): (r: string)
  {
    Template(prompt, EffectiveRole(instanceRole, callRole))
  }

  /** The output opens with "You are", ends with the untouched prompt, and is longer than it. */
  lemma ImproveFrames(instanceRole: Option<string>, prompt: string, callRole: Option<string>)
    ensures StartsWith(Improve(instanceRole, prompt, callRole), "You are")
    ensures EndsWith(Improve(instanceRole, prompt, callRole), prompt)
    ensures ContainsAt(Improve(instanceRole, prompt, callRole), prompt,
                       |Improve(instanceRole, prompt, callRole)| - |prompt|)
    ensures |Improve(instanceRole, prompt, callRole)| > |prompt|
  {
    var r := Improve(instanceRole, prompt, callRole);
    assert Opening == "You are" + " ";
  }

  /** A non-empty call-time role decides the output on its own: the instance role is
      irrelevant, and that role is the one stated after "You are ". */
  lemma CallRoleOverrides(instanceA: Option<string>, instanceB: Option<string>, prompt: string, role: string)
    requires role != ""
    ensures Improve(instanceA, prompt, Some(role)) == Improve(instanceB, prompt, Some(role))
    ensures StartsWith(Improve(instanceA, prompt, Some(role)), Opening + role + Period)
  {
  }

  /** For a fixed prompt the role is read back from the output. */
  lemma TemplateRoleInjective(prompt: string, a: string, b: string)
    ensures Template(prompt, a) == Template(prompt, b) <==> a == b
  {
    if Template(prompt, a) == Template(prompt, b) {
      var r := Template(prompt, a);
      assert |a| == |b|;
      assert r[|Opening|..|Opening| + |a|] == (Opening + a + Period)[|Opening|..|Opening| + |a|];
      assert r[|Opening|..|Opening| + |b|] == (Opening + b + Period)[|Opening|..|Opening| + |b|];
    }
  }

  /** Outputs for the same prompt agree exactly when the effective roles do. */
  lemma RoleDeterminesOutput(instA: Option<string>, callA: Option<string>,
                             instB: Option<string>, callB: Option<string>, prompt: string)
    ensures Improve(instA, prompt, callA) == Improve(instB, prompt, callB)
        <==> EffectiveRole(instA, callA) == EffectiveRole(instB, callB)
  {
    TemplateRoleInjective(prompt, EffectiveRole(instA, callA), EffectiveRole(instB, callB));
  }
}
