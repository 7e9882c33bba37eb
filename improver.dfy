/** The registry: strategy instances under lowercase keys, looked up by name. */
module Improver {
  import opened Wrappers
  import opened Text
  import opened Strategies

  /** An ordered dictionary from keys to strategy instances, in insertion order. */
  type Registry = seq<(string, Strategy)>

  /** The keys, in registration order: seven strategies and three aliases. */
  const Keys: seq<string> := ["role", "few-shot", "cot", "chain-of-thought", "self-consistency",
                              "tot", "tree-of-thought", "sot", "skeleton-of-thought", "react"]

  /** The instance under each key, in the same order: every strategy with its
      defaults, an alias holding a second instance of the same class. */
  const Instances: seq<Strategy> :=
    [DefaultRole, DefaultFewShot, ChainOfThought, ChainOfThought, DefaultSelfConsistency,
     DefaultTreeOfThought, DefaultTreeOfThought, DefaultSkeletonOfThought, DefaultSkeletonOfThought,
     DefaultReAct]

  /** The dictionary the constructor builds: the `i`-th key mapped to the `i`-th instance. */
  function DefaultRegistry(): (reg: Registry)
    ensures |reg| == |Keys| == |Instances|
    ensures forall i :: 0 <= i < |reg| ==> reg[i] == (Keys[i], Instances[i])
  {
    seq(|Keys|, i requires 0 <= i < |Keys| => (Keys[i], Instances[i]))
  }

  /** `list(d.keys())`. */
  function KeysOf(reg: Registry): (ks: seq<string>)
    ensures |ks| == |reg|
    ensures forall i :: 0 <= i < |reg| ==> ks[i] == reg[i].0
  {
    if reg == [] then [] else [reg[0].0] + KeysOf(reg[1..])
  }

  /** `d.get(key)`: the instance registered under `key`, if any. */
  function Lookup(reg: Registry, key: string): (r: Option<Strategy>)
    ensures r.None? <==> key !in KeysOf(reg)
  {
    if reg == [] then None
    else if reg[0].0 == key then Some(reg[0].1)
    else
      assert KeysOf(reg) == [reg[0].0] + KeysOf(reg[1..]);
      Lookup(reg[1..], key)
  }

  /** Should a key repeat, the first entry under it is the one found. */
  lemma {:induction false} LookupFirst(reg: Registry, key: string, i: nat)
    requires i < |reg| && reg[i].0 == key
    requires forall j :: 0 <= j < i ==> reg[j].0 != key
    ensures Lookup(reg, key) == Some(reg[i].1)
  {
    if i > 0 {
      LookupFirst(reg[1..], key, i - 1);
    }
  }

  /** With distinct keys, looking up an entry's key finds that entry's instance. */
  lemma LookupEntry(reg: Registry, i: nat)
    requires i < |reg|
    requires forall a, b :: 0 <= a < b < |reg| ==> reg[a].0 != reg[b].0
    ensures Lookup(reg, reg[i].0) == Some(reg[i].1)
  {
    LookupFirst(reg, reg[i].0, i);
  }

  /** The error raised by `improve` for an unknown name: the name as given, then every
      key in order. */
  function UnknownStrategyMessage(strategy: string, keys: seq<string>): (msg: string)
    ensures StartsWith(msg, "Unknown strategy: '" + strategy + "'")
    ensures ContainsAt(msg, ". Available strategies: ", |"Unknown strategy: '" + strategy + "'"|)
    ensures EndsWith(msg, Join(keys, ", "))
    ensures |msg| == |"Unknown strategy: '" + strategy + "'"| + |". Available strategies: "| + |Join(keys, ", ")|
  {
    var head := "Unknown strategy: '" + strategy + "'";
    var msg := head + ". Available strategies: " + Join(keys, ", ");
    assert msg[..|head|] == head;
    assert msg[|head|..|head| + |". Available strategies: "|] == ". Available strategies: ";
    msg
  }

  /** The error raised by `get_strategy_info` for an unknown name: no list of keys. */
  function UnknownInfoMessage(strategy: string): (msg: string)
    ensures StartsWith(msg, "Unknown strategy: '" + strategy + "'")
    ensures |msg| == |"Unknown strategy: '"| + |strategy| + 1
  {
    "Unknown strategy: '" + strategy + "'"
  }

  /** The dictionary `get_strategy_info` returns. */
  datatype StrategyInfo = StrategyInfo(name: string, key: string)

  /** `PromptImprover.improve(prompt, strategy, **kwargs)` on a registry: the name is
      lowercased and looked up; the instance registered under it handles the call, and
      an unknown name is an error that lists every key. */
  function ImproveWith(reg: Registry, prompt: string, strategy: string, params: Params): (r: Result<string>)
    ensures r.Err? <==> Lower(strategy) !in KeysOf(reg)
    ensures r.Err? ==> r.message == UnknownStrategyMessage(strategy, KeysOf(reg))
  {
    match Lookup(reg, Lower(strategy))
    case None => Err(UnknownStrategyMessage(strategy, KeysOf(reg)))
    case Some(s) => Ok(Strategies.Improve(s, prompt, params))
  }

  /** `PromptImprover.get_strategy_info(strategy)` on a registry: the display name of
      the instance under the lowercased name, and that name as the key; an unknown name
      is an error without the list of keys. */
  function InfoWith(reg: Registry, strategy: string): (r: Result<StrategyInfo>)
    ensures r.Err? <==> Lower(strategy) !in KeysOf(reg)
    ensures r.Err? ==> r.message == UnknownInfoMessage(strategy)
    ensures r.Ok? ==> r.value.key == Lower(strategy)
  {
    match Lookup(reg, Lower(strategy))
    case None => Err(UnknownInfoMessage(strategy))
    case Some(s) => Ok(StrategyInfo(Name(s), Lower(strategy)))
  }

  /** A known name is handled by the first instance registered under its lowercasing. */
  lemma ImproveWithFirst(reg: Registry, prompt: string, strategy: string, params: Params, i: nat)
    requires i < |reg| && reg[i].0 == Lower(strategy)
    requires forall j :: 0 <= j < i ==> reg[j].0 != Lower(strategy)
    ensures ImproveWith(reg, prompt, strategy, params) == Ok(Strategies.Improve(reg[i].1, prompt, params))
  {
    LookupFirst(reg, Lower(strategy), i);
  }

  /** The info for a known name is that instance's display name, and the lowercased name. */
  lemma InfoWithFirst(reg: Registry, strategy: string, i: nat)
    requires i < |reg| && reg[i].0 == Lower(strategy)
    requires forall j :: 0 <= j < i ==> reg[j].0 != Lower(strategy)
    ensures InfoWith(reg, strategy) == Ok(StrategyInfo(Name(reg[i].1), Lower(strategy)))
  {
    LookupFirst(reg, Lower(strategy), i);
  }

  class PromptImprover {
    /** `self.strategies`, built once by the constructor and only read afterwards. */
    const strategies: Registry

    ghost predicate Valid() {
      strategies == DefaultRegistry()
    }

    /** Builds the registry of default instances. */
    constructor()
      ensures Valid()
    {
      strategies := DefaultRegistry();
    }

    /** `improve`: an error exactly when the lowercased name is not one of the keys,
        then the registered instance's `improve`, as `ImproveWith` states it. */
    method Improve(prompt: string, strategy: string, params: Params) returns (r: Result<string>)
      requires Valid()
      ensures r == ImproveWith(strategies, prompt, strategy, params)
      ensures r.Err? <==> Lower(strategy) !in Keys
      ensures r.Err? ==> r.message == UnknownStrategyMessage(strategy, Keys)
    {
      ImproveWithDefault(prompt, strategy, params);
      r := ImproveWith(strategies, prompt, strategy, params);
    }

    /** `get_available_strategies`: the keys, in registration order. */
    method GetAvailableStrategies() returns (keys: seq<string>)
      requires Valid()
      ensures keys == Keys
    {
      RegistryKeys();
      keys := KeysOf(strategies);
    }

    /** `get_strategy_info`: an error exactly when the lowercased name is not a key,
        otherwise the instance's display name and the key, as `InfoWith` states it. */
    method GetStrategyInfo(strategy: string) returns (r: Result<StrategyInfo>)
      requires Valid()
      ensures r == InfoWith(strategies, strategy)
      ensures r.Err? <==> Lower(strategy) !in Keys
    {
      RegistryKeys();
      r := InfoWith(strategies, strategy);
    }
  }

  /** On the default registry, `ImproveWith` fails exactly for a name whose lowercasing is
      not one of the ten keys, and its message lists them. */
  lemma ImproveWithDefault(prompt: string, strategy: string, params: Params)
    ensures ImproveWith(DefaultRegistry(), prompt, strategy, params).Err? <==> Lower(strategy) !in Keys
    ensures ImproveWith(DefaultRegistry(), prompt, strategy, params).Err? ==>
      ImproveWith(DefaultRegistry(), prompt, strategy, params).message == UnknownStrategyMessage(strategy, Keys)
  {
    RegistryKeys();
  }

  /** The registry holds exactly the ten keys, in order. */
  lemma RegistryKeys()
    ensures KeysOf(DefaultRegistry()) == Keys
  {
    var reg := DefaultRegistry();
    var ks := KeysOf(reg);
    assert forall i | 0 <= i < |Keys| :: ks[i] == reg[i].0;
  }

  /** No key is registered twice. */
  lemma KeysDistinct()
    ensures forall i, j :: 0 <= i < j < |Keys| ==> Keys[i] != Keys[j]
  {
  }

  /** Hence no two entries of the registry share a key. */
  lemma RegistryDistinct()
    ensures forall i, j :: 0 <= i < j < |DefaultRegistry()| ==> DefaultRegistry()[i].0 != DefaultRegistry()[j].0
  {
    KeysDistinct();
  }

  /** The instance under the `i`-th key is the `i`-th one registered. */
  lemma LookupKey(i: nat)
    requires i < |Keys|
    ensures Lookup(DefaultRegistry(), Keys[i]) == Some(Instances[i])
  {
    RegistryDistinct();
    LookupEntry(DefaultRegistry(), i);
  }

  /** Every key is lowercase, so each is found under its own lowercasing. */
  lemma KeysLowercase()
    ensures forall k | k in Keys :: IsLower(k) && Lower(k) == k
  {
    forall k | k in Keys
      ensures IsLower(k) && Lower(k) == k
    {
      assert IsLower(k);
      LowerIdentity(k);
    }
  }

  /** Two names that lowercase to the `i`-th and `j`-th keys, where those keys are
      registered with the same instance, give the same output for the same prompt and
      arguments. */
  lemma SameInstanceSameOutput(prompt: string, a: string, b: string, params: Params, i: nat, j: nat)
    requires i < |Keys| && j < |Keys| && Lower(a) == Keys[i] && Lower(b) == Keys[j]
    requires Instances[i] == Instances[j]
    ensures ImproveWith(DefaultRegistry(), prompt, a, params).Ok?
    ensures ImproveWith(DefaultRegistry(), prompt, a, params) == ImproveWith(DefaultRegistry(), prompt, b, params)
  {
    LookupKey(i);
    LookupKey(j);
  }

  /** The aliases: names lowercasing to "cot" and "chain-of-thought", to "tot" and
      "tree-of-thought", or to "sot" and "skeleton-of-thought" reach two instances of
      the same class with the same defaults, so the same prompt and arguments give the
      same output under either name. */
  lemma AliasesAgree(prompt: string, a: string, b: string, params: Params)
    requires || (Lower(a) == "cot" && Lower(b) == "chain-of-thought")
             || (Lower(a) == "tot" && Lower(b) == "tree-of-thought")
             || (Lower(a) == "sot" && Lower(b) == "skeleton-of-thought")
    ensures ImproveWith(DefaultRegistry(), prompt, a, params).Ok?
    ensures ImproveWith(DefaultRegistry(), prompt, a, params) == ImproveWith(DefaultRegistry(), prompt, b, params)
  {
    if Lower(a) == "cot" {
      SameInstanceSameOutput(prompt, a, b, params, 2, 3);
    } else if Lower(a) == "tot" {
      SameInstanceSameOutput(prompt, a, b, params, 5, 6);
    } else {
      SameInstanceSameOutput(prompt, a, b, params, 7, 8);
    }
  }

  /** The name is looked up in lowercase: names that differ only in the case of
      ASCII letters reach the same instance and give the same output. */
  lemma CaseInsensitive(prompt: string, a: string, b: string, params: Params)
    requires Lower(a) == Lower(b)
    ensures ImproveWith(DefaultRegistry(), prompt, a, params).Ok? == ImproveWith(DefaultRegistry(), prompt, b, params).Ok?
    ensures ImproveWith(DefaultRegistry(), prompt, a, params).Ok? ==>
      ImproveWith(DefaultRegistry(), prompt, a, params) == ImproveWith(DefaultRegistry(), prompt, b, params)
  {
  }

  /** "ROLE", "Role" and "role" all lowercase to the key "role". */
  lemma RoleInAnyCase()
    ensures Lower("ROLE") == "role" && Lower("Role") == "role" && Lower("role") == "role"
  {
  }

  /** A known name always succeeds, and its output keeps the prompt verbatim and is
      longer than it. */
  lemma KnownNameKeepsPrompt(prompt: string, strategy: string, params: Params)
    requires Lower(strategy) in Keys
    ensures ImproveWith(DefaultRegistry(), prompt, strategy, params).Ok?
    ensures var r := ImproveWith(DefaultRegistry(), prompt, strategy, params).value;
      Contains(r, prompt) && |r| > |prompt|
  {
    var i :| 0 <= i < |Keys| && Keys[i] == Lower(strategy);
    LookupKey(i);
    ImproveKeepsPrompt(Instances[i], prompt, params);
  }

  /** The display name each key reports, in key order. */
  const DisplayNames: seq<string> :=
    ["Role Prompting", "Few-Shot Learning", "Chain of Thought", "Chain of Thought", "Self-Consistency",
     "Tree of Thought", "Tree of Thought", "Skeleton of Thought", "Skeleton of Thought", "ReAct"]

  /** The info for a key is the display name of the instance under it, and the key
      itself. */
  lemma InfoForKey(i: nat)
    requires i < |Keys|
    ensures InfoWith(DefaultRegistry(), Keys[i]) == Ok(StrategyInfo(Name(Instances[i]), Keys[i]))
  {
    LookupKey(i);
    KeysLowercase();
    assert Keys[i] in Keys;
  }

  /** The display names the registered instances report, in key order. */
  lemma RegisteredNames()
    ensures forall i :: 0 <= i < |Instances| ==> Name(Instances[i]) == DisplayNames[i]
  {
  }
}
