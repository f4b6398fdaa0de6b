/** Checking a workflow against a configuration, and what a checked workflow cannot do wrong. */
module Validation {
  import opened Common
  import opened Workflow
  import opened WorkflowRuns

  datatype ProviderConfig = Anthropic(apiKey: Option<string>, apiKeyEnv: Option<string>)

  datatype ModelConfig = ModelConfig(provider: string, modelId: string)

  datatype Config = Config(providers: map<string, ProviderConfig>, models: map<string, ModelConfig>)

  datatype Problem =
    | StartUndefined(name: string)
    | ModelUndefined(agent: string, model: string)
    | TargetUndefined(agent: string, to: string)
    | BadCondition(agent: string, condition: string)
    | ProviderUndefined(modelKey: string, provider: string)

  predicate Defined(def: Definition, name: string) {
    exists a :: a in def.agents && a.name == name
  }

  function Transitions(a: AgentDef): seq<Transition> {
    if a.transitions.Some? then a.transitions.value else []
  }

  /** What is wrong with one transition of `agent`; `parses` says whether a condition evaluates at all. */
  predicate WrongTransition(def: Definition, parses: string -> bool, agent: string, t: Transition, p: Problem) {
    || (p == TargetUndefined(agent, t.to) && !Defined(def, t.to))
    || (t.condition.Some? && p == BadCondition(agent, t.condition.value) && !parses(t.condition.value))
  }

  predicate WrongAgent(def: Definition, cfg: Config, parses: string -> bool, a: AgentDef, p: Problem) {
    || (p == ModelUndefined(a.name, a.model) && a.model !in cfg.models)
    || (exists t :: t in Transitions(a) && WrongTransition(def, parses, a.name, t, p))
  }

  predicate WrongModel(cfg: Config, key: string, p: Problem)
    requires key in cfg.models
  {
    p == ProviderUndefined(key, cfg.models[key].provider) && cfg.models[key].provider !in cfg.providers
  }

  /** `p` is something that is wrong. */
  predicate IsProblem(def: Definition, cfg: Config, parses: string -> bool, p: Problem) {
    || (p == StartUndefined(def.start) && !Defined(def, def.start))
    || (exists a :: a in def.agents && WrongAgent(def, cfg, parses, a, p))
    || (exists k :: k in cfg.models && WrongModel(cfg, k, p))
  }

  /** What each problem says. */
  lemma ProblemsMean(def: Definition, cfg: Config, parses: string -> bool, name: string, other: string)
    ensures IsProblem(def, cfg, parses, StartUndefined(name)) <==>
            name == def.start && forall a :: a in def.agents ==> a.name != name
    ensures IsProblem(def, cfg, parses, ModelUndefined(name, other)) <==>
            (exists a :: a in def.agents && a.name == name && a.model == other) && other !in cfg.models
    ensures IsProblem(def, cfg, parses, TargetUndefined(name, other)) <==>
            && (exists a, t :: a in def.agents && a.name == name && a.transitions.Some?
                               && t in a.transitions.value && t.to == other)
            && forall a :: a in def.agents ==> a.name != other
    ensures IsProblem(def, cfg, parses, BadCondition(name, other)) <==>
            && (exists a, t :: a in def.agents && a.name == name && a.transitions.Some?
                               && t in a.transitions.value && t.condition == Some(other))
            && !parses(other)
    ensures IsProblem(def, cfg, parses, ProviderUndefined(name, other)) <==>
            name in cfg.models && cfg.models[name].provider == other && other !in cfg.providers
  {
    var target, bad := TargetUndefined(name, other), BadCondition(name, other);
    forall a, t | a in def.agents && a.name == name && a.transitions.Some? && t in a.transitions.value
      ensures t.to == other && !Defined(def, other) ==> IsProblem(def, cfg, parses, target)
      ensures t.condition == Some(other) && !parses(other) ==> IsProblem(def, cfg, parses, bad)
    {
      assert t in Transitions(a);
      if t.to == other && !Defined(def, other) {
        assert WrongTransition(def, parses, a.name, t, target);
        assert WrongAgent(def, cfg, parses, a, target);
      }
      if t.condition == Some(other) && !parses(other) {
        assert WrongTransition(def, parses, a.name, t, bad);
        assert WrongAgent(def, cfg, parses, a, bad);
      }
    }
  }

  method CheckTransitions(def: Definition, parses: string -> bool, a: AgentDef) returns (errs: seq<Problem>)
    ensures forall p :: p in errs <==> exists t :: t in Transitions(a) && WrongTransition(def, parses, a.name, t, p)
  {
    errs := [];
    var ts := Transitions(a);
    var i := 0;
    while i < |ts|
      invariant 0 <= i <= |ts|
      invariant forall p :: p in errs <==> exists j :: 0 <= j < i && WrongTransition(def, parses, a.name, ts[j], p)
    {
      var t := ts[i];
      if !Defined(def, t.to) {
        errs := errs + [TargetUndefined(a.name, t.to)];
      }
      if t.condition.Some? && !parses(t.condition.value) {
        errs := errs + [BadCondition(a.name, t.condition.value)];
      }
      i := i + 1;
    }
  }

  method CheckAgents(def: Definition, cfg: Config, parses: string -> bool) returns (errs: seq<Problem>)
    ensures forall p :: p in errs <==> exists a :: a in def.agents && WrongAgent(def, cfg, parses, a, p)
  {
    errs := [];
    var i := 0;
    while i < |def.agents|
      invariant 0 <= i <= |def.agents|
      invariant forall p :: p in errs <==> exists j :: 0 <= j < i && WrongAgent(def, cfg, parses, def.agents[j], p)
    {
      var a := def.agents[i];
      if a.model !in cfg.models {
        errs := errs + [ModelUndefined(a.name, a.model)];
      }
      var more := CheckTransitions(def, parses, a);
      errs := errs + more;
      i := i + 1;
    }
  }

  /** The models are visited in no particular order. */
  method CheckModels(cfg: Config) returns (errs: seq<Problem>)
    ensures forall p :: p in errs <==> exists k :: k in cfg.models && WrongModel(cfg, k, p)
  {
    errs := [];
    var todo := cfg.models.Keys;
    while todo != {}
      invariant todo <= cfg.models.Keys
      invariant forall p :: p in errs <==> exists k :: k in cfg.models.Keys - todo && WrongModel(cfg, k, p)
      decreases |todo|
    {
      var k :| k in todo;
      ghost var done := cfg.models.Keys - todo;
      ghost var before := errs;
      if cfg.models[k].provider !in cfg.providers {
        errs := errs + [ProviderUndefined(k, cfg.models[k].provider)];
      }
      todo := todo - {k};
      assert cfg.models.Keys - todo == done + {k};
      forall p ensures p in errs <==> exists x :: x in done + {k} && WrongModel(cfg, x, p) {
        assert p in errs <==> p in before || WrongModel(cfg, k, p);
      }
    }
  }

  /** Reports everything that is wrong, and nothing else. */
  method Validate(def: Definition, cfg: Config, parses: string -> bool) returns (errs: seq<Problem>)
    ensures forall p :: p in errs <==> IsProblem(def, cfg, parses, p)
  {
    errs := [];
    if !Defined(def, def.start) {
      errs := [StartUndefined(def.start)];
    }
    var agents := CheckAgents(def, cfg, parses);
    var models := CheckModels(cfg);
    errs := errs + agents + models;
  }

  // ---- The provider registry ------------------------------------------------------------------

  datatype RegistryError = RegistryError(model: string)

  /** `vars` are the environment variables; `accepts` says whether a provider can be made with a key. */
  predicate Usable(cfg: Config, vars: map<string, string>, accepts: Option<string> -> bool, key: string)
    requires key in cfg.models
  {
    && cfg.models[key].provider in cfg.providers
    && var pc := cfg.providers[cfg.models[key].provider];
       if pc.apiKey.Some? then pc.apiKey.value != "" && accepts(pc.apiKey)
       else if pc.apiKeyEnv.Some? then
         pc.apiKeyEnv.value in vars && vars[pc.apiKeyEnv.value] != "" && accepts(Some(vars[pc.apiKeyEnv.value]))
       else accepts(None)
  }

  /** A configured key cannot be had: the inline one is empty, or the environment has none or an empty one. */
  predicate KeyMissing(pc: ProviderConfig, vars: map<string, string>) {
    if pc.apiKey.Some? then pc.apiKey == Some("")
    else pc.apiKeyEnv.Some? && (pc.apiKeyEnv.value !in vars || vars[pc.apiKeyEnv.value] == "")
  }

  /**
    The key to authenticate with. There is none to be had exactly when one is configured but
    missing; a key is never empty and comes from the place configured; and no
    authentication is meant only if no place is configured.
   */
  method ResolveKey(pc: ProviderConfig, vars: map<string, string>) returns (r: Option<Option<string>>)
    ensures r.None? <==> KeyMissing(pc, vars)
    ensures r.Some? && r.value.Some? ==>
              && r.value.value != ""
              && (pc.apiKey == r.value || (pc.apiKey.None? && pc.apiKeyEnv.Some? &&
                                           pc.apiKeyEnv.value in vars && vars[pc.apiKeyEnv.value] == r.value.value))
    ensures r == Some(None) <==> pc.apiKey.None? && pc.apiKeyEnv.None?
  {
    if pc.apiKey.Some? {
      if pc.apiKey.value == "" {
        return None;
      }
      return Some(pc.apiKey);
    }
    if pc.apiKeyEnv.Some? {
      if pc.apiKeyEnv.value !in vars || vars[pc.apiKeyEnv.value] == "" {
        return None;
      }
      return Some(Some(vars[pc.apiKeyEnv.value]));
    }
    return Some(None);
  }

  /** The keys that get a provider: every model's, or none at all. */
  method BuildRegistry(cfg: Config, vars: map<string, string>, accepts: Option<string> -> bool)
    returns (r: Result<set<string>, RegistryError>)
    ensures r.Ok? <==> forall k :: k in cfg.models ==> Usable(cfg, vars, accepts, k)
    ensures r.Ok? ==> r.value == cfg.models.Keys
    ensures r.Err? ==> r.error.model in cfg.models && !Usable(cfg, vars, accepts, r.error.model)
  {
    var registry: set<string> := {};
    var todo := cfg.models.Keys;
    while todo != {}
      invariant todo <= cfg.models.Keys && registry == cfg.models.Keys - todo
      invariant forall k :: k in registry ==> Usable(cfg, vars, accepts, k)
      decreases |todo|
    {
      var k :| k in todo;
      var name := cfg.models[k].provider;
      if name !in cfg.providers {
        return Err(RegistryError(k));
      }
      var key := ResolveKey(cfg.providers[name], vars);
      if key.None? || !accepts(key.value) {
        return Err(RegistryError(k));
      }
      registry := registry + {k};
      todo := todo - {k};
    }
    return Ok(registry);
  }

  // ---- Validated workflows do not go wrong ------------------------------------------------------

  /** The workflow is valid under `cfg`, and the registry was built from the same `cfg`. */
  ghost predicate Checked(env: Env, cfg: Config, parses: string -> bool) {
    && (forall p :: !IsProblem(env.def, cfg, parses, p))
    && env.providers == cfg.models.Keys
  }

  predicate Structural(f: Failure) {
    f.StartMissing? || f.TargetMissing? || f.NoProvider?
  }

  /** Every defined agent of a checked workflow can run. */
  lemma DefinedCanRun(env: Env, cfg: Config, parses: string -> bool, name: string)
    requires Checked(env, cfg, parses) && Defined(env.def, name)
    ensures CanRun(env, name)
  {
    var def := FindAgent(env.def.agents, name).value;
    var p := ModelUndefined(def.name, def.model);
    assert !IsProblem(env.def, cfg, parses, p);
    assert !WrongAgent(env.def, cfg, parses, def, p);
  }

  lemma StartCanRun(env: Env, cfg: Config, parses: string -> bool)
    requires Checked(env, cfg, parses)
    ensures CanRun(env, env.def.start)
  {
    if !Defined(env.def, env.def.start) {
      assert IsProblem(env.def, cfg, parses, StartUndefined(env.def.start));
    }
    DefinedCanRun(env, cfg, parses, env.def.start);
  }

  lemma TargetCanRun(env: Env, cfg: Config, parses: string -> bool, agent: string, t: Transition)
    requires Checked(env, cfg, parses) && t in TransitionsOf(env, agent)
    ensures CanRun(env, t.to)
  {
    var a := FindAgent(env.def.agents, agent).value;
    if !Defined(env.def, t.to) {
      assert t in Transitions(a);
      assert WrongTransition(env.def, parses, a.name, t, TargetUndefined(a.name, t.to));
      assert WrongAgent(env.def, cfg, parses, a, TargetUndefined(a.name, t.to));
      assert IsProblem(env.def, cfg, parses, TargetUndefined(a.name, t.to));
    }
    DefinedCanRun(env, cfg, parses, t.to);
  }

  /** With a runnable current agent, an answer fails structurally exactly when the agent it leads to cannot run. */
  lemma FailsStructurallyIff(env: Env, child: Option<Session>, s: State, c: Command, newId: Session, copied: bool)
    requires s.agent.Some? ==> CanRun(env, s.agent.value)
    ensures var r := Handle(env, child, s, c, newId, copied);
            (exists e :: e in EventsOf(r.effect) && e.WorkflowFailed? && Structural(e.failure)) <==>
            Destination(env, s, c).Some? && !CanRun(env, Destination(env, s, c).value)
  {
    hide FindAgent, FindNextTransition, TransitionsOf;
    var r := Handle(env, child, s, c, newId, copied);
    if Destination(env, s, c).Some? && !CanRun(env, Destination(env, s, c).value) {
      assert EventsOf(r.effect)[0].WorkflowFailed?;
      assert EventsOf(r.effect)[0] in EventsOf(r.effect);
    }
  }

  lemma DestinationCanRun(env: Env, cfg: Config, parses: string -> bool, s: State, c: Command)
    requires Checked(env, cfg, parses) && Destination(env, s, c).Some?
    ensures CanRun(env, Destination(env, s, c).value)
  {
    hide CanRun, IsProblem;
    if c.Start? {
      StartCanRun(env, cfg, parses);
    } else {
      var ts := TransitionsOf(env, s.agent.value);
      var t := FindNextTransition(env, ts, c.output).value;
      assert t in ts;
      TargetCanRun(env, cfg, parses, s.agent.value, t);
    }
  }

  /**
    Once validation reports nothing and the registry is built, no reachable step fails for
    want of an agent or provider.
   */
  lemma {:induction false} CheckedNeverFailsStructurally(
      env: Env, cfg: Config, parses: string -> bool, steps: seq<Step>)
    requires Checked(env, cfg, parses)
    ensures forall e :: e in Exec(env, steps).log && e.WorkflowFailed? ==> !Structural(e.failure)
    decreases steps
  {
    hide Checked, Handle, OnRecovery, CanRun, Structural, AllJustified, StatusFits, Destination;
    if steps != [] {
      var sys, step := Exec(env, steps[..|steps| - 1]), steps[|steps| - 1];
      CheckedNeverFailsStructurally(env, cfg, parses, steps[..|steps| - 1]);
      ReachableSound(env, steps[..|steps| - 1]);
      if step.Do? && sys.live.Some? {
        var me := sys.live.value;
        FailsStructurallyIff(env, me.child, me.state, step.command, sys.nextId, step.copied);
        if Destination(env, me.state, step.command).Some? {
          DestinationCanRun(env, cfg, parses, me.state, step.command);
        }
      }
    }
  }
}
