/** The configuration migration chain: a registry of steps and the loop that applies them. */
module Migrate {
  import opened Basics

  /** The configuration as the migrator sees it: `body` is everything but the version. */
  datatype Config = Config(version: int, body: string)

  /** What a step leaves behind, and whether it returned an error. A step may also overwrite the
      version, and one that fails may have changed the configuration all the same. */
  datatype Stepped = Stepped(cfg: Config, ok: bool)

  type Step = Config -> Stepped

  type Registry = map<(int, int), Step>

  datatype Error =
    | TooNew(version: int, target: int)
    | NotRegistered(from: int, to: int)
    | StepFailed(from: int, to: int)

  datatype Result = Result(cfg: Config, error: Option<Error>)

  /** The loop from version to version, for a configuration that is not too new. */
  function Chained(funcs: Registry, cfg: Config, target: int): (r: Result)
    ensures r.error == None && cfg.version <= target ==> r.cfg.version == target
    decreases target - cfg.version
  {
    if cfg.version >= target then Result(cfg, None)
    else
      var from, to := cfg.version, cfg.version + 1;
      if (from, to) !in funcs then Result(cfg, Some(NotRegistered(from, to)))
      else
        var s := funcs[(from, to)](cfg);
        if !s.ok then Result(s.cfg, Some(StepFailed(from, to)))
        else Chained(funcs, s.cfg.(version := to), target)
  }

  function Migrated(funcs: Registry, cfg: Config, target: int): Result {
    if cfg.version > target then Result(cfg, Some(TooNew(cfg.version, target)))
    else Chained(funcs, cfg, target)
  }

  class AgentConfig {
    var configVersion: int
    var body: string

    constructor (cfg: Config)
      ensures Value() == cfg
    {
      configVersion, body := cfg.version, cfg.body;
    }

    function Value(): Config
      reads this
    {
      Config(configVersion, body)
    }
  }

  class Migrator {
    var funcs: Registry

    constructor ()
      ensures funcs == map[]
    {
      funcs := map[];
    }

    method Register(from: int, to: int, fn: Step)
      modifies this
      ensures funcs == old(funcs)[(from, to) := fn]
    {
      funcs := funcs[(from, to) := fn];
    }

    /** The configuration is changed in place, whether the migration succeeds or not. */
    method Migrate(cfg: AgentConfig, targetVersion: int) returns (error: Option<Error>)
      modifies cfg
      ensures Result(cfg.Value(), error) == Migrated(funcs, old(cfg.Value()), targetVersion)
    {
      if cfg.configVersion > targetVersion {
        return Some(TooNew(cfg.configVersion, targetVersion));
      }
      while cfg.configVersion < targetVersion
        invariant cfg.configVersion <= targetVersion
        invariant Chained(funcs, cfg.Value(), targetVersion) == Chained(funcs, old(cfg.Value()), targetVersion)
        decreases targetVersion - cfg.configVersion
      {
        var from := cfg.configVersion;
        var to := from + 1;
        if (from, to) !in funcs {
          return Some(NotRegistered(from, to));
        }
        var fn := funcs[(from, to)];
        var s := fn(cfg.Value());
        cfg.configVersion, cfg.body := s.cfg.version, s.cfg.body;
        if !s.ok {
          return Some(StepFailed(from, to));
        }
        cfg.configVersion := to;
      }
      return None;
    }
  }

  // ------------------------------------------------------------------ what it means

  /** `cs` are the configurations at versions cs[0].version, …, one registered step apart. */
  predicate IsChain(funcs: Registry, cs: seq<Config>) {
    && cs != []
    && forall i :: 0 <= i < |cs| - 1 ==> Advances(funcs, cs[i], cs[i + 1])
  }

  predicate Advances(funcs: Registry, a: Config, b: Config) {
    && (a.version, a.version + 1) in funcs
    && var s := funcs[(a.version, a.version + 1)](a); s.ok && b == s.cfg.(version := a.version + 1)
  }

  /** Migration succeeds with `result` if and only if `result` is at the target version and at
      the end of a chain of registered steps, each applied once, in order, none left out. */
  lemma {:induction false} SuccessIsChain(funcs: Registry, cfg: Config, target: int, result: Config)
    ensures Migrated(funcs, cfg, target) == Result(result, None) <==>
      cfg.version <= target
      && exists cs :: IsChain(funcs, cs) && cs[0] == cfg && cs[|cs| - 1] == result && |cs| == target - cfg.version + 1
  {
    if Migrated(funcs, cfg, target) == Result(result, None) {
      var cs := TheChain(funcs, cfg, target);
    }
    if cfg.version <= target {
      forall cs | IsChain(funcs, cs) && cs[0] == cfg && cs[|cs| - 1] == result && |cs| == target - cfg.version + 1
        ensures Migrated(funcs, cfg, target) == Result(result, None)
      {
        ChainMigrates(funcs, cs, target);
      }
    }
  }

  lemma {:induction false} TheChain(funcs: Registry, cfg: Config, target: int) returns (cs: seq<Config>)
    requires cfg.version <= target && Chained(funcs, cfg, target).error == None
    ensures IsChain(funcs, cs) && cs[0] == cfg && |cs| == target - cfg.version + 1
    ensures cs[|cs| - 1] == Chained(funcs, cfg, target).cfg
    decreases target - cfg.version
  {
    if cfg.version == target {
      cs := [cfg];
    } else {
      var next := funcs[(cfg.version, cfg.version + 1)](cfg).cfg.(version := cfg.version + 1);
      var rest := TheChain(funcs, next, target);
      cs := [cfg] + rest;
      assert Advances(funcs, cfg, next);
      forall i | 0 <= i < |cs| - 1 ensures Advances(funcs, cs[i], cs[i + 1]) {
        if i > 0 {
          assert Advances(funcs, rest[i - 1], rest[i - 1 + 1]);
        }
      }
    }
  }

  lemma {:induction false} ChainMigrates(funcs: Registry, cs: seq<Config>, target: int)
    requires IsChain(funcs, cs) && cs[0].version <= target && |cs| == target - cs[0].version + 1
    ensures Chained(funcs, cs[0], target) == Result(cs[|cs| - 1], None)
    decreases |cs|
  {
    if |cs| > 1 {
      assert Advances(funcs, cs[0], cs[0 + 1]);
      var rest := cs[1..];
      forall i | 0 <= i < |rest| - 1 ensures Advances(funcs, rest[i], rest[i + 1]) {
        assert Advances(funcs, cs[i + 1], cs[i + 1 + 1]);
      }
      ChainMigrates(funcs, rest, target);
    }
  }

  /** Migrating to `mid` and then on to `target` is migrating to `target`, errors included. */
  lemma {:induction false} InTwoLegs(funcs: Registry, cfg: Config, mid: int, target: int)
    requires cfg.version <= mid <= target
    ensures
      var first := Migrated(funcs, cfg, mid);
      Migrated(funcs, cfg, target) == if first.error == None then Migrated(funcs, first.cfg, target) else first
    decreases mid - cfg.version
  {
    if cfg.version < mid {
      var key := (cfg.version, cfg.version + 1);
      if key in funcs && funcs[key](cfg).ok {
        InTwoLegs(funcs, funcs[key](cfg).cfg.(version := cfg.version + 1), mid, target);
      }
    }
  }

  /** On the way it does not matter what version a successful step writes: two registries that
      differ only in that migrate alike. */
  lemma {:induction false} VersionWritesIgnored(funcs: Registry, others: Registry, cfg: Config, target: int)
    requires funcs.Keys == others.Keys
    requires forall k, c :: k in funcs ==> SameButVersion(funcs[k](c), others[k](c))
    ensures Migrated(funcs, cfg, target) == Migrated(others, cfg, target)
    decreases target - cfg.version
  {
    if cfg.version < target {
      var key := (cfg.version, cfg.version + 1);
      assert key in funcs <==> key in others;
      if key in funcs {
        assert SameButVersion(funcs[key](cfg), others[key](cfg));
        if funcs[key](cfg).ok {
          VersionWritesIgnored(funcs, others, funcs[key](cfg).cfg.(version := cfg.version + 1), target);
        }
      }
    }
  }

  predicate SameButVersion(a: Stepped, b: Stepped) {
    a.ok == b.ok && a.cfg.body == b.cfg.body && (!a.ok ==> a.cfg == b.cfg)
  }

  /** A registration matters only if it is for one of the steps from version to version that
      lie on the way. */
  lemma {:induction false} OnlyStepsOnTheWay(funcs: Registry, from: int, to: int, fn: Step, cfg: Config, target: int)
    requires to != from + 1 || from < cfg.version || from >= target
    ensures Migrated(funcs[(from, to) := fn], cfg, target) == Migrated(funcs, cfg, target)
    decreases target - cfg.version
  {
    if cfg.version < target {
      var key := (cfg.version, cfg.version + 1);
      if key in funcs && funcs[key](cfg).ok {
        OnlyStepsOnTheWay(funcs, from, to, fn, funcs[key](cfg).cfg.(version := cfg.version + 1), target);
      }
    }
  }

  predicate StoppedAt(funcs: Registry, last: Config, target: int, r: Result) {
    var key := (last.version, last.version + 1);
    last.version < target &&
    if key !in funcs then r == Result(last, Some(NotRegistered(key.0, key.1)))
    else !funcs[key](last).ok && r == Result(funcs[key](last).cfg, Some(StepFailed(key.0, key.1)))
  }

  /** Where it stops: at once and without a change if the configuration is too new, or else at the
      first version on the way whose step is missing or fails. */
  lemma {:induction false} StopsAtFirstGap(funcs: Registry, cfg: Config, target: int)
    ensures
      var r := Migrated(funcs, cfg, target);
      r.error.Some? ==>
        if cfg.version > target then r == Result(cfg, Some(TooNew(cfg.version, target)))
        else exists cs :: IsChain(funcs, cs) && cs[0] == cfg && StoppedAt(funcs, cs[|cs| - 1], target, r)
  {
    var r := Migrated(funcs, cfg, target);
    if r.error.Some? && cfg.version <= target {
      var cs := BeforeGap(funcs, cfg, target);
    }
  }

  lemma {:induction false} BeforeGap(funcs: Registry, cfg: Config, target: int) returns (cs: seq<Config>)
    requires cfg.version <= target && Chained(funcs, cfg, target).error.Some?
    ensures IsChain(funcs, cs) && cs[0] == cfg
    ensures StoppedAt(funcs, cs[|cs| - 1], target, Chained(funcs, cfg, target))
    decreases target - cfg.version
  {
    var key := (cfg.version, cfg.version + 1);
    if key in funcs && funcs[key](cfg).ok {
      var next := funcs[key](cfg).cfg.(version := cfg.version + 1);
      var rest := BeforeGap(funcs, next, target);
      cs := [cfg] + rest;
      assert Advances(funcs, cfg, next);
      forall i | 0 <= i < |cs| - 1 ensures Advances(funcs, cs[i], cs[i + 1]) {
        if i > 0 {
          assert Advances(funcs, rest[i - 1], rest[i - 1 + 1]);
        }
      }
    } else {
      cs := [cfg];
    }
  }

  /** The one step of the default registry. */
  function DefaultStep(cfg: Config): Stepped {
    Stepped(if cfg.version == 0 then cfg.(version := 1) else cfg, true)
  }

  const CURRENT_VERSION := 1

  /** With the default registry the current version is reached from 0 and from itself only. */
  lemma DefaultReachesIff(cfg: Config)
    ensures
      var r := Migrated(map[(0, 1) := DefaultStep], cfg, CURRENT_VERSION);
      (r.error == None <==> cfg.version == 0 || cfg.version == 1) &&
      (r.error == None ==> r.cfg == cfg.(version := CURRENT_VERSION))
  {
    if cfg.version == 0 {
      assert Chained(map[(0, 1) := DefaultStep], cfg.(version := 1), 1) == Result(cfg.(version := 1), None);
    }
  }
}
