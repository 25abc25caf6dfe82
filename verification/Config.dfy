/** The configuration of internal/config/config.go, as far as routing and scheduling read it. */
module Config {
  import opened Wrappers
  import opened Sets

  datatype ModelConfig = ModelConfig(
    path: string,
    alias: string,
    gpus: seq<int>,
    minFreeMB: Option<int>,
    pinned: Option<bool>,
    powerLimit: Option<int>,
    powerLimits: Option<map<int, int>>,
    env: set<string>)

  datatype SchedulerConfig = SchedulerConfig(portStart: int, portEnd: int, maxInstances: Option<int>,
    minUptime: Option<int>)

  datatype Config = Config(models: map<string, ModelConfig>, scheduler: Option<SchedulerConfig>,
    defaultEnv: set<string>)

  datatype Error =
    | ModelNotFound(name: string)
    | AliasUnknown(name: string, target: string)
    | AliasLoop(name: string)
    | AliasChain(name: string)
    | BadPort(port: int)
    | BadPortRange
    | BadMaxInstances(n: int)
    | OwnedEnv
    | BadGPUs(name: string)
    | BadMinFree(name: string)
    | BadPowerLimit(name: string)

  // ----- aliases -----

  /** An alias is acceptable when it is absent or names a model that is not an alias itself. */
  predicate AliasOk(models: map<string, ModelConfig>, name: string)
    requires name in models
  {
    var alias := models[name].alias;
    alias == "" || (alias in models && models[alias].alias == "")
  }

  ghost predicate AliasesOk(models: map<string, ModelConfig>)
  {
    forall name :: name in models ==> AliasOk(models, name)
  }

  /** One-step resolution, whatever the alias target is. */
  function ResolveModel(models: map<string, ModelConfig>, name: string): (r: Result<(string, ModelConfig), Error>)
    ensures r.Ok? <==> name in models && (models[name].alias == "" || models[name].alias in models)
    ensures r.Ok? ==> r.value.0 in models && models[r.value.0] == r.value.1
    ensures r.Ok? && models[name].alias == "" ==> r.value.0 == name
    ensures r.Ok? && models[name].alias != "" ==> r.value.0 == models[name].alias
  {
    if name !in models then Err(ModelNotFound(name))
    else if models[name].alias == "" then Ok((name, models[name]))
    else if models[name].alias !in models then Err(AliasUnknown(name, models[name].alias))
    else Ok((models[name].alias, models[models[name].alias]))
  }

  /** The alias rule is what makes one step enough: it holds exactly when every configured name resolves
      to a model that is not an alias, and then resolving twice is resolving once. */
  lemma AliasesOkIffResolved(models: map<string, ModelConfig>)
    ensures AliasesOk(models) <==>
            forall name :: name in models ==>
              ResolveModel(models, name).Ok? && ResolveModel(models, name).value.1.alias == ""
    ensures AliasesOk(models) ==>
            forall name :: name in models ==>
              var r := ResolveModel(models, name); r.Ok? && ResolveModel(models, r.value.0) == r
  {
    if forall name :: name in models ==>
      ResolveModel(models, name).Ok? && ResolveModel(models, name).value.1.alias == "" {
      forall name | name in models
        ensures AliasOk(models, name)
      {
        assert ResolveModel(models, name).Ok?;
      }
    }
  }

  /** Follows the alias chain from one name.  The names seen so far bound the walk. */
  method WalkAlias(models: map<string, ModelConfig>, name: string) returns (err: Option<Error>)
    requires name in models
    ensures err.None? <==> AliasOk(models, name)
  {
    var seen, current, steps := {name}, name, 0;
    while true
      invariant current in models && current in seen
      invariant steps == 0 ==> current == name && seen == {name}
      invariant steps == 1 ==> current == models[name].alias && models[current].alias != ""
      invariant steps > 0 ==> models[name].alias != ""
      invariant steps > 0 && models[name].alias in models ==> models[models[name].alias].alias != ""
      decreases models.Keys - seen
    {
      var next := models[current].alias;
      if next == "" {
        break;
      }
      steps := steps + 1;
      if next in seen {
        return Some(AliasLoop(name));
      }
      if next !in models {
        return Some(AliasUnknown(name, next));
      }
      ghost var before := models.Keys - seen;
      seen := seen + {next};
      assert next in before && next !in models.Keys - seen;
      current := next;
      if models[next].alias == "" {
        break;
      }
    }
    if steps > 1 {
      return Some(AliasChain(name));
    }
    return None;
  }

  /** Names are visited in any order, as ranging over a Go map does. */
  method ValidateAliases(models: map<string, ModelConfig>) returns (err: Option<Error>)
    ensures err.None? <==> AliasesOk(models)
  {
    var todo := models.Keys;
    while todo != {}
      invariant todo <= models.Keys
      invariant forall name :: name in models && name !in todo ==> AliasOk(models, name)
    {
      var name :| name in todo;
      todo := todo - {name};
      if models[name].alias == "" {
        continue;
      }
      err := WalkAlias(models, name);
      if err.Some? {
        return;
      }
    }
    err := None;
  }

  // ----- scheduler settings -----

  predicate ValidPort(port: int)
  {
    1 <= port <= 65535
  }

  ghost predicate NoDuplicates(gpus: seq<int>)
  {
    forall i, j :: 0 <= i < j < |gpus| ==> gpus[i] != gpus[j]
  }

  /** A model the scheduler can place: a non-empty duplicate-free list of GPUs and a memory floor. */
  ghost predicate Schedulable(model: ModelConfig)
  {
    && model.gpus != [] && NoDuplicates(model.gpus) && (forall g :: g in model.gpus ==> g >= 0)
    && model.minFreeMB.Some? && model.minFreeMB.value > 0
  }

  const CUDA := "CUDA_VISIBLE_DEVICES"

  ghost predicate ValidScheduler(c: Config)
  {
    c.scheduler.Some? ==>
      var s := c.scheduler.value;
      && ValidPort(s.portStart) && ValidPort(s.portEnd) && s.portStart <= s.portEnd
      && (s.maxInstances.Some? ==> 0 < s.maxInstances.value <= s.portEnd - s.portStart + 1)
      && CUDA !in c.defaultEnv
      && (forall name :: name in c.models ==> CUDA !in c.models[name].env)
      && (forall name :: name in c.models && c.models[name].alias == "" ==> Schedulable(c.models[name]))
  }

  method ValidateModelForScheduler(name: string, model: ModelConfig) returns (err: Option<Error>)
    ensures err.None? <==> Schedulable(model)
  {
    if |model.gpus| == 0 {
      return Some(BadGPUs(name));
    }
    var seen: set<int> := {};
    for i := 0 to |model.gpus|
      invariant NoDuplicates(model.gpus[..i]) && forall g :: g in model.gpus[..i] ==> g >= 0
      invariant seen == set g | g in model.gpus[..i]
    {
      var gpu := model.gpus[i];
      assert model.gpus[..i + 1] == model.gpus[..i] + [gpu];
      assert gpu in model.gpus;
      if gpu < 0 {
        return Some(BadGPUs(name));
      }
      if gpu in seen {
        var j :| 0 <= j < i && model.gpus[j] == gpu;
        return Some(BadGPUs(name));
      }
      seen := seen + {gpu};
    }
    assert model.gpus[..|model.gpus|] == model.gpus;
    if model.minFreeMB.None? || model.minFreeMB.value <= 0 {
      return Some(BadMinFree(name));
    }
    return None;
  }

  method ValidateScheduler(c: Config) returns (err: Option<Error>)
    ensures err.None? <==> ValidScheduler(c)
  {
    if c.scheduler.None? {
      return None;
    }
    var s := c.scheduler.value;
    if !ValidPort(s.portStart) {
      return Some(BadPort(s.portStart));
    }
    if !ValidPort(s.portEnd) {
      return Some(BadPort(s.portEnd));
    }
    if s.portStart > s.portEnd {
      return Some(BadPortRange);
    }
    if s.maxInstances.Some? {
      if s.maxInstances.value <= 0 {
        return Some(BadMaxInstances(s.maxInstances.value));
      }
      var portCount := s.portEnd - s.portStart + 1;
      if s.maxInstances.value > portCount {
        return Some(BadMaxInstances(s.maxInstances.value));
      }
    }
    if CUDA in c.defaultEnv {
      return Some(OwnedEnv);
    }
    var todo := c.models.Keys;
    while todo != {}
      invariant todo <= c.models.Keys
      invariant forall name :: name in c.models && name !in todo ==> CUDA !in c.models[name].env
    {
      var name :| name in todo;
      todo := todo - {name};
      if CUDA in c.models[name].env {
        return Some(OwnedEnv);
      }
    }
    todo := c.models.Keys;
    while todo != {}
      invariant todo <= c.models.Keys
      invariant forall name :: name in c.models && name !in todo && c.models[name].alias == "" ==>
                Schedulable(c.models[name])
    {
      var name :| name in todo;
      todo := todo - {name};
      if c.models[name].alias != "" {
        continue;
      }
      err := ValidateModelForScheduler(name, c.models[name]);
      if err.Some? {
        return;
      }
    }
    return None;
  }

  // ----- per-model power limits -----

  ghost predicate PowerLimitsOk(model: ModelConfig)
  {
    var limits := if model.powerLimits.Some? then model.powerLimits.value else map[];
    && (model.powerLimit.None? || limits == map[])
    && (model.powerLimit.Some? ==> model.powerLimit.value > 0)
    && (forall g :: g in limits ==> limits[g] > 0)
    && (model.gpus != [] ==> forall g :: g in limits ==> g in model.gpus)
  }

  method ValidateModelPowerLimits(name: string, model: ModelConfig) returns (err: Option<Error>)
    ensures err.None? <==> PowerLimitsOk(model)
  {
    var limits := if model.powerLimits.Some? then model.powerLimits.value else map[];
    if model.powerLimit.Some? && |limits| > 0 {
      return Some(BadPowerLimit(name));
    }
    if model.powerLimit.Some? && model.powerLimit.value <= 0 {
      return Some(BadPowerLimit(name));
    }
    var todo := limits.Keys;
    while todo != {}
      invariant todo <= limits.Keys
      invariant forall g :: g in limits && g !in todo ==> limits[g] > 0
    {
      NonEmpty(todo);
      var g :| g in todo;
      todo := todo - {g};
      if limits[g] <= 0 {
        return Some(BadPowerLimit(name));
      }
    }
    if |limits| > 0 && |model.gpus| > 0 {
      var validGPUs := set g | g in model.gpus;
      todo := limits.Keys;
      while todo != {}
        invariant todo <= limits.Keys
        invariant forall g :: g in limits && g !in todo ==> g in model.gpus
      {
        NonEmpty(todo);
        var g :| g in todo;
        todo := todo - {g};
        if g !in validGPUs {
          return Some(BadPowerLimit(name));
        }
      }
    }
    return None;
  }
}
