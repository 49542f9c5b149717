/** The environment factories handed to the training framework: each
    writes a per-worker id into the configuration it receives, builds the
    simulator from that configuration and wraps it for the framework's
    multi-agent interface unless multi-agent mode is explicitly off. */
module Utils {
  import opened Python

  const WORKER_ID := "worker_id"
  const NUM_ENVS_PER_WORKER := "num_envs_per_worker"
  const MULTIAGENT := "multiagent"
  const RLLIB_WRAPPER := "RLLibWrapper"
  const CUSTOM_REWARD_WRAPPER := "CustomRewardWrapper"
  const BAD_OPERAND := TypeError("unsupported operand type for worker_id")

  /** The indices the framework attaches as attributes to the config of an
      environment it creates on a worker. */
  datatype WorkerContext = WorkerContext(workerIndex: int, vectorIndex: int)

  /** The configuration passed to a factory: a dict, plus the framework's
      worker attributes when the framework built it (None for a plain dict,
      which has no `worker_index` attribute). */
  class EnvConfig {
    var entries: map<string, Value>
    const context: Option<WorkerContext>

    constructor (entries: map<string, Value>, context: Option<WorkerContext>)
      ensures this.entries == entries && this.context == context
    {
      this.entries := entries;
      this.context := context;
    }
  }

  /** `entries.get("num_envs_per_worker", 1)` as a multiplier; None when
      the stored value is not a number. */
  function NumEnvsPerWorker(entries: map<string, Value>): Option<int>
  {
    if NUM_ENVS_PER_WORKER in entries then AsInt(entries[NUM_ENVS_PER_WORKER]) else Some(1)
  }

  /** `worker_index * num_envs_per_worker + vector_index`, with one env per
      worker when the key is absent. */
  function WorkerId(ctx: WorkerContext, entries: map<string, Value>): (r: Result<int>)
    ensures NUM_ENVS_PER_WORKER !in entries ==> r == Ok(ctx.workerIndex + ctx.vectorIndex)
    ensures NUM_ENVS_PER_WORKER in entries && entries[NUM_ENVS_PER_WORKER].Int? ==>
              r == Ok(ctx.workerIndex * entries[NUM_ENVS_PER_WORKER].i + ctx.vectorIndex)
    ensures r.Err? <==> NUM_ENVS_PER_WORKER in entries &&
                        !(entries[NUM_ENVS_PER_WORKER].Int? || entries[NUM_ENVS_PER_WORKER].Bool?)
  {
    match NumEnvsPerWorker(entries)
    case Some(n) => Ok(ctx.workerIndex * n + ctx.vectorIndex)
    case None => Err(BAD_OPERAND)
  }

  lemma {:induction false} MultipleOfPositiveIsAtLeast(k: int, n: int)
    requires k >= 1 && n >= 1
    ensures k * n >= n
  {
    if k > 1 {
      MultipleOfPositiveIsAtLeast(k - 1, n);
      assert k * n == (k - 1) * n + n;
    }
  }

  /** With `n >= 1` envs per worker and vector indices in `[0, n)`, distinct
      (worker, vector) pairs get distinct worker ids. */
  lemma WorkerIdsAreDistinct(c1: WorkerContext, c2: WorkerContext, entries: map<string, Value>, n: int)
    requires n >= 1 && NumEnvsPerWorker(entries) == Some(n)
    requires 0 <= c1.vectorIndex < n && 0 <= c2.vectorIndex < n
    requires WorkerId(c1, entries) == WorkerId(c2, entries)
    ensures c1 == c2
  {
    var w1, w2 := c1.workerIndex, c2.workerIndex;
    assert w1 * n + c1.vectorIndex == w2 * n + c2.vectorIndex;
    if w1 < w2 {
      MultipleOfPositiveIsAtLeast(w2 - w1, n);
    } else if w2 < w1 {
      MultipleOfPositiveIsAtLeast(w1 - w2, n);
    }
  }

  /** The `hasattr(env_config, "worker_index")` block: without worker
      attributes the config is left alone; otherwise `worker_id` is its only
      entry written. A non-numeric `num_envs_per_worker` raises before the
      write. */
  method AssignWorkerId(cfg: EnvConfig) returns (err: Option<PyError>)
    modifies cfg
    ensures cfg.context.None? ==> err == None && cfg.entries == old(cfg.entries)
    ensures cfg.context.Some? ==>
              match WorkerId(cfg.context.value, old(cfg.entries))
              case Ok(id) => err == None && cfg.entries == old(cfg.entries)[WORKER_ID := Int(id)]
              case Err(e) => err == Some(e) && cfg.entries == old(cfg.entries)
  {
    err := None;
    if cfg.context.Some? {
      var id := WorkerId(cfg.context.value, cfg.entries);
      if id.Err? {
        return Some(id.error);
      }
      cfg.entries := cfg.entries[WORKER_ID := Int(id.value)];
    }
  }

  // ---------------------------------------------------------------------
  // Environments and wrappers

  /** An environment: the simulator built from keyword arguments, or one
      of the two wrappers around another environment. */
  datatype Env =
    | Simulator(kwargs: map<string, Value>)
    | CustomRewardWrapper(inner: Env)
    | RLLibWrapper(inner: Env)

  /** The wrapper names from the outside in. */
  function Layers(env: Env): seq<string>
  {
    match env
    case Simulator(_) => []
    case CustomRewardWrapper(inner) => [CUSTOM_REWARD_WRAPPER] + Layers(inner)
    case RLLibWrapper(inner) => [RLLIB_WRAPPER] + Layers(inner)
  }

  /** The innermost environment. */
  function Base(env: Env): (r: Env)
    ensures r.Simulator?
  {
    match env
    case Simulator(_) => env
    case CustomRewardWrapper(inner) => Base(inner)
    case RLLibWrapper(inner) => Base(inner)
  }

  /** Multi-agent mode is off only when the key is present and falsy. */
  predicate MultiagentDisabled(entries: map<string, Value>)
  {
    MULTIAGENT in entries && !Truthy(entries[MULTIAGENT])
  }

  /** The factories' final step: the environment as is when multi-agent
      mode is disabled, otherwise wrapped in the framework adapter. */
  function WrapForTraining(entries: map<string, Value>, env: Env): (r: Env)
    ensures r == env <==> MultiagentDisabled(entries)
    ensures !MultiagentDisabled(entries) ==> r == RLLibWrapper(env)
    ensures Base(r) == Base(env)
  {
    if MultiagentDisabled(entries) then env
    else
      assert |Layers(RLLibWrapper(env))| == |Layers(env)| + 1;
      RLLibWrapper(env)
  }

  /** A missing `multiagent` key, or any truthy value under it, means the
      environment is wrapped. */
  lemma MissingMultiagentKeyWraps(entries: map<string, Value>, env: Env)
    requires MULTIAGENT !in entries || Truthy(entries[MULTIAGENT])
    ensures Layers(WrapForTraining(entries, env)) == [RLLIB_WRAPPER] + Layers(env)
  {
  }

  /** `create_custom_reward_rllib_env`: simulator from the (updated)
      config, reward wrapper next, framework adapter outermost. */
  method CreateCustomRewardRllibEnv(cfg: EnvConfig) returns (r: Result<Env>)
    modifies cfg
    ensures cfg.context.None? ==> cfg.entries == old(cfg.entries)
    ensures cfg.context.Some? && WorkerId(cfg.context.value, old(cfg.entries)).Ok? ==>
              cfg.entries == old(cfg.entries)[WORKER_ID := Int(WorkerId(cfg.context.value, old(cfg.entries)).value)]
    ensures r.Err? <==> cfg.context.Some? && WorkerId(cfg.context.value, old(cfg.entries)).Err?
    ensures r.Err? ==> cfg.entries == old(cfg.entries)
    ensures r.Ok? ==> Base(r.value) == Simulator(cfg.entries)
    ensures r.Ok? ==> Layers(r.value) == (if MultiagentDisabled(cfg.entries) then [] else [RLLIB_WRAPPER]) + [CUSTOM_REWARD_WRAPPER]
  {
    var err := AssignWorkerId(cfg);
    if err.Some? {
      return Err(err.value);
    }
    var env := CustomRewardWrapper(Simulator(cfg.entries));
    assert Layers(env) == [CUSTOM_REWARD_WRAPPER] && Base(env) == Simulator(cfg.entries);
    if MULTIAGENT in cfg.entries && !Truthy(cfg.entries[MULTIAGENT]) {
      return Ok(env);
    }
    return Ok(RLLibWrapper(env));
  }

  /** `create_rllib_env`: as above, but never with the reward wrapper. */
  method CreateRllibEnv(cfg: EnvConfig) returns (r: Result<Env>)
    modifies cfg
    ensures cfg.context.None? ==> cfg.entries == old(cfg.entries)
    ensures cfg.context.Some? && WorkerId(cfg.context.value, old(cfg.entries)).Ok? ==>
              cfg.entries == old(cfg.entries)[WORKER_ID := Int(WorkerId(cfg.context.value, old(cfg.entries)).value)]
    ensures r.Err? <==> cfg.context.Some? && WorkerId(cfg.context.value, old(cfg.entries)).Err?
    ensures r.Err? ==> cfg.entries == old(cfg.entries)
    ensures r.Ok? ==> Base(r.value) == Simulator(cfg.entries)
    ensures r.Ok? ==> Layers(r.value) == if MultiagentDisabled(cfg.entries) then [] else [RLLIB_WRAPPER]
  {
    var err := AssignWorkerId(cfg);
    if err.Some? {
      return Err(err.value);
    }
    var env := Simulator(cfg.entries);
    if MULTIAGENT in cfg.entries && !Truthy(cfg.entries[MULTIAGENT]) {
      return Ok(env);
    }
    return Ok(RLLibWrapper(env));
  }
}
