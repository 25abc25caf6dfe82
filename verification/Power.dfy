/**
 GPU power limits of internal/gpu/power.go.  `current` is the table of limits in force; a call to
 nvidia-smi is its update.  Which GPUs nvidia-smi refuses is a parameter, `broken`.
 */
module Power {
  import opened Wrappers
  import opened Config
  import opened Sets

  type Limits = map<int, int>

  /** The override a model puts on one GPU.  A non-nil power_limits table hides power_limit altogether. */
  function Override(powerLimit: Option<int>, powerLimits: Option<Limits>, gpu: int): Option<int>
  {
    match powerLimits
    case Some(table) => if gpu in table then Some(table[gpu]) else None
    case None => powerLimit
  }

  /** The GPUs of a list that an apply call sets. */
  function Attempted(gpus: seq<int>, powerLimit: Option<int>, powerLimits: Option<Limits>): set<int>
  {
    set g | g in gpus && Override(powerLimit, powerLimits, g).Some?
  }

  function Patch(dom: set<int>, powerLimit: Option<int>, powerLimits: Option<Limits>): Limits
    requires forall g :: g in dom ==> Override(powerLimit, powerLimits, g).Some?
  {
    map g | g in dom :: Override(powerLimit, powerLimits, g).value
  }

  /** The table after applying a model's limits: each overridden GPU that nvidia-smi accepts is set. */
  function Applied(current: Limits, gpus: seq<int>, powerLimit: Option<int>, powerLimits: Option<Limits>,
      broken: set<int>): Limits
  {
    current + Patch(Attempted(gpus, powerLimit, powerLimits) - broken, powerLimit, powerLimits)
  }

  function Overridden(defaults: Limits, current: Limits, gpus: seq<int>): set<int>
  {
    set g | g in gpus && g in defaults && g in current && current[g] != defaults[g]
  }

  /** The table after reverting: every GPU of the list that has a default and differs from it. */
  function Reverted(defaults: Limits, current: Limits, gpus: seq<int>, broken: set<int>): Limits
  {
    current + map g | g in Overridden(defaults, current, gpus) - broken :: defaults[g]
  }

  ghost predicate AtDefault(defaults: Limits, current: Limits, gpu: int)
  {
    gpu in defaults ==> gpu in current && current[gpu] == defaults[gpu]
  }

  /** Applying and then reverting is the identity on the GPUs with a default, from a default state. */
  lemma RevertUndoesApply(defaults: Limits, current: Limits, gpus: seq<int>, pl: Option<int>, pls: Option<Limits>,
      broken: set<int>, g: int)
    requires forall g :: AtDefault(defaults, current, g)
    ensures AtDefault(defaults, Reverted(defaults, Applied(current, gpus, pl, pls, broken), gpus, {}), g)
    ensures g !in gpus && g in current ==>
              var t := Reverted(defaults, Applied(current, gpus, pl, pls, broken), gpus, {});
              g in t && t[g] == current[g]
  {
    assert AtDefault(defaults, current, g);
  }

  /** Each GPU with a default that the call does set was asked for exactly that default. */
  ghost predicate SetsOnlyDefaults(defaults: Limits, gpus: seq<int>, pl: Option<int>, pls: Option<Limits>,
      broken: set<int>)
  {
    forall g :: g in Attempted(gpus, pl, pls) && g in defaults && g !in broken ==>
      Override(pl, pls, g) == Some(defaults[g])
  }

  /** An apply call with some GPUs refused leaves every GPU at its default exactly if that is all it set. */
  lemma RefusedApplyKeepsDefaults(defaults: Limits, current: Limits, gpus: seq<int>, pl: Option<int>,
      pls: Option<Limits>, broken: set<int>)
    requires forall g :: AtDefault(defaults, current, g)
    ensures (forall g :: AtDefault(defaults, Applied(current, gpus, pl, pls, broken), g)) <==>
            SetsOnlyDefaults(defaults, gpus, pl, pls, broken)
  {
    var t := Applied(current, gpus, pl, pls, broken);
    if forall g :: AtDefault(defaults, t, g) {
      forall g | g in Attempted(gpus, pl, pls) && g in defaults && g !in broken
        ensures Override(pl, pls, g) == Some(defaults[g])
      {
        assert AtDefault(defaults, t, g);
      }
    } else {
      var g :| !AtDefault(defaults, t, g);
      assert AtDefault(defaults, current, g);
    }
  }

  /** The comment at the function says a set power_limit goes to every GPU of the model.  For a model that
      passes validation it does exactly if power_limits is nil, or every GPU stands at the limit already. */
  lemma PowerLimitReachesAll(mc: ModelConfig, current: Limits)
    requires PowerLimitsOk(mc) && mc.powerLimit.Some?
    ensures var t := Applied(current, mc.gpus, mc.powerLimit, mc.powerLimits, {});
            (forall g :: g in mc.gpus ==> g in t && t[g] == mc.powerLimit.value) <==>
            mc.powerLimits.None? || forall g :: g in mc.gpus ==> g in current && current[g] == mc.powerLimit.value
  {
    var t := Applied(current, mc.gpus, mc.powerLimit, mc.powerLimits, {});
    forall g | g in mc.gpus
      ensures g in Attempted(mc.gpus, mc.powerLimit, mc.powerLimits) <==> mc.powerLimits.None?
    {
      assert mc.powerLimits.Some? ==> g !in mc.powerLimits.value;
    }
  }

  /** power_limit 300 beside an empty power_limits table is valid, and leaves the GPU at 200. */
  lemma PowerLimitHidden(mc: ModelConfig)
    requires mc.gpus == [0] && mc.powerLimit == Some(300) && mc.powerLimits == Some(map[])
    ensures PowerLimitsOk(mc) && Applied(map[0 := 200], mc.gpus, mc.powerLimit, mc.powerLimits, {})[0] == 200
  {
    assert Attempted(mc.gpus, mc.powerLimit, mc.powerLimits) == {};
  }

  predicate StandsAt(limits: Limits, g: int, watts: int)
  {
    g in limits && limits[g] == watts
  }

  predicate SameLimit(limits: Limits, limits': Limits, g: int)
  {
    (g in limits' <==> g in limits) && (g in limits ==> limits'[g] == limits[g])
  }

  class Manager {
    const defaults: Limits
    const required: bool
    var current: Limits

    constructor (defaults: Limits, required: bool)
      ensures this.defaults == defaults && this.required == required && current == map[]
    {
      this.defaults, this.required := defaults, required;
      current := map[];
    }

    method SetLimit(gpu: int, watts: int, broken: set<int>) returns (ok: bool)
      modifies this
      ensures ok <==> gpu !in broken
      ensures current == if gpu in broken then old(current) else old(current)[gpu := watts]
    {
      if gpu in broken {
        return false;
      }
      current := current[gpu := watts];
      return true;
    }

    method RevertToDefault(gpu: int, broken: set<int>) returns (ok: bool)
      modifies this
      ensures current == Reverted(defaults, old(current), [gpu], broken)
      ensures ok <==> gpu !in Overridden(defaults, old(current), [gpu]) || gpu !in broken
    {
      assert [gpu][0] == gpu;
      if gpu !in defaults {
        return true;
      }
      if gpu !in current || current[gpu] == defaults[gpu] {
        return true;
      }
      ok := SetLimit(gpu, defaults[gpu], broken);
    }

    /** Returns the GPU of the first error, lowest index first; every default is attempted. */
    method ApplyStartupLimits(broken: set<int>) returns (firstErr: Option<int>)
      modifies this
      ensures current == old(current) + (map g | g in defaults.Keys - broken :: defaults[g])
      ensures firstErr.Some? <==> required && exists g :: g in defaults && g in broken
      ensures firstErr.Some? ==> firstErr.value in defaults && firstErr.value in broken
      ensures firstErr.Some? ==> forall g :: g in defaults && g in broken ==> firstErr.value <= g
    {
      firstErr := None;
      var rest := defaults.Keys;
      ghost var done: set<int> := {};
      while rest != {}
        invariant done + rest == defaults.Keys && done !! rest
        invariant forall a, b :: a in done && b in rest ==> a < b
        invariant current == old(current) + (map g | g in done - broken :: defaults[g])
        invariant firstErr.None? ==> !required || forall g :: g in done ==> g !in broken
        invariant firstErr.Some? ==> required && firstErr.value in done && firstErr.value in broken
        invariant firstErr.Some? ==> forall g :: g in done && g in broken ==> firstErr.value <= g
      {
        var gpu := Least(rest);
        var ok := SetLimit(gpu, defaults[gpu], broken);
        if !ok && required && firstErr.None? {
          firstErr := Some(gpu);
        }
        rest := rest - {gpu};
        done := done + {gpu};
      }
      assert done == defaults.Keys;
      assert defaults.Keys - broken == done - broken;
      assert firstErr.Some? ==> firstErr.value in defaults && firstErr.value in broken;
    }

    /** Returns the GPU of the first error; the loop goes on past errors. */
    method ApplyModelLimits(gpus: seq<int>, powerLimit: Option<int>, powerLimits: Option<Limits>, broken: set<int>)
        returns (firstErr: Option<int>)
      modifies this
      ensures current == Applied(old(current), gpus, powerLimit, powerLimits, broken)
      ensures forall g :: g in gpus && g !in broken ==>
                && (powerLimits.Some? && g in powerLimits.value ==> StandsAt(current, g, powerLimits.value[g]))
                && (powerLimits.None? && powerLimit.Some? ==> StandsAt(current, g, powerLimit.value))
      ensures forall g :: (g !in gpus || g in broken || (powerLimits.Some? && g !in powerLimits.value)
                           || (powerLimits.None? && powerLimit.None?)) ==> SameLimit(old(current), current, g)
      ensures firstErr.Some? <==> required && Attempted(gpus, powerLimit, powerLimits) * broken != {}
      ensures firstErr.Some? ==> firstErr.value in Attempted(gpus, powerLimit, powerLimits) * broken
    {
      firstErr := None;
      if powerLimit.None? && powerLimits.None? {
        assert Attempted(gpus, powerLimit, powerLimits) == {};
        return;
      }
      for i := 0 to |gpus|
        invariant current == Applied(old(current), gpus[..i], powerLimit, powerLimits, broken)
        invariant firstErr.Some? <==> required && Attempted(gpus[..i], powerLimit, powerLimits) * broken != {}
        invariant firstErr.Some? ==> firstErr.value in Attempted(gpus[..i], powerLimit, powerLimits) * broken
      {
        var gpu := gpus[i];
        AttemptedSnoc(gpus, i, powerLimit, powerLimits);
        AppliedSnoc(old(current), gpus, i, powerLimit, powerLimits, broken);
        if powerLimits.Some? && gpu !in powerLimits.value {
          continue;
        }
        var watts := if powerLimits.Some? then powerLimits.value[gpu] else powerLimit.value;
        var ok := SetLimit(gpu, watts, broken);
        if !ok && required && firstErr.None? {
          firstErr := Some(gpu);
        }
        assert !ok ==> gpu in Attempted(gpus[..i + 1], powerLimit, powerLimits) * broken;
      }
      assert gpus[..|gpus|] == gpus;
    }

    method RevertModelLimits(gpus: seq<int>, broken: set<int>)
      modifies this
      ensures current == Reverted(defaults, old(current), gpus, broken)
      ensures forall g :: g in gpus && g !in broken && g in defaults && g in old(current) ==>
                StandsAt(current, g, defaults[g])
      ensures forall g :: g !in gpus || g in broken || g !in defaults ==> SameLimit(old(current), current, g)
    {
      for i := 0 to |gpus|
        invariant current == Reverted(defaults, old(current), gpus[..i], broken)
      {
        RevertedSnoc(defaults, old(current), gpus, i, broken);
        var _ := RevertToDefault(gpus[i], broken);
      }
      assert gpus[..|gpus|] == gpus;
    }
  }

  lemma AttemptedSnoc(gpus: seq<int>, i: nat, pl: Option<int>, pls: Option<Limits>)
    requires i < |gpus|
    ensures Attempted(gpus[..i + 1], pl, pls) ==
            Attempted(gpus[..i], pl, pls) + if Override(pl, pls, gpus[i]).Some? then {gpus[i]} else {}
  {
    assert gpus[..i + 1] == gpus[..i] + [gpus[i]];
  }

  /** One more GPU in the list: the loop of RevertModelLimits, seen from its specification. */
  lemma RevertedSnoc(defaults: Limits, current: Limits, gpus: seq<int>, i: nat, broken: set<int>)
    requires i < |gpus|
    ensures Reverted(defaults, current, gpus[..i + 1], broken) ==
            Reverted(defaults, Reverted(defaults, current, gpus[..i], broken), [gpus[i]], broken)
  {
    assert gpus[..i + 1] == gpus[..i] + [gpus[i]];
  }

  lemma PatchSnoc(dom: set<int>, pl: Option<int>, pls: Option<Limits>, g: int)
    requires (forall x :: x in dom ==> Override(pl, pls, x).Some?) && Override(pl, pls, g).Some?
    ensures Patch(dom + {g}, pl, pls) == Patch(dom, pl, pls)[g := Override(pl, pls, g).value]
  {
  }

  /** One more GPU in the list: the loop of ApplyModelLimits, seen from its specification. */
  lemma AppliedSnoc(current: Limits, gpus: seq<int>, i: nat, pl: Option<int>, pls: Option<Limits>, broken: set<int>)
    requires i < |gpus|
    ensures var o, t := Override(pl, pls, gpus[i]), Applied(current, gpus[..i], pl, pls, broken);
            Applied(current, gpus[..i + 1], pl, pls, broken) ==
            if o.Some? && gpus[i] !in broken then t[gpus[i] := o.value] else t
  {
    AttemptedSnoc(gpus, i, pl, pls);
    var dom, dom' := Attempted(gpus[..i], pl, pls) - broken, Attempted(gpus[..i + 1], pl, pls) - broken;
    var g := gpus[i];
    if Override(pl, pls, g).Some? && g !in broken {
      assert dom' == dom + {g};
      PatchSnoc(dom, pl, pls, g);
    } else {
      assert dom' == dom;
    }
  }

  method Least(s: set<int>) returns (m: int)
    requires s != {}
    ensures m in s
    ensures forall x :: x in s ==> m <= x
  {
    NonEmpty(s);
    var first: int :| first in s;
    m := first;
    var rest := s - {m};
    while rest != {}
      invariant m in s && rest <= s
      invariant forall x :: x in s ==> x in rest || m <= x
    {
      NonEmpty(rest);
      var x: int :| x in rest;
      if x < m {
        m := x;
      }
      rest := rest - {x};
    }
  }
}
