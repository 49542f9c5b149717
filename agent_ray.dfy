/** The policy-backed agent: locating and adjusting the training
    configuration stored next to the checkpoint, and `act`, which
    concatenates the team's observations into one policy input and cuts the
    policy's action vector back into one 3-wide slice per player. */
module AgentRay {
  import opened Python
  import opened PosixPath

  const CHECKPOINT_DIR := "ray_results/checkpoint_001000"
  const CHECKPOINT_FILE := "checkpoint-1000"
  const CHECKPOINT_RELATIVE := CHECKPOINT_DIR + "/" + CHECKPOINT_FILE
  const PARAMS_FILE := "params.pkl"
  const PARENT_PARAMS_FILE := "../params.pkl"
  const NUM_WORKERS := "num_workers"
  const NUM_GPUS := "num_gpus"
  const ENV := "env"
  const DUMMY_ENV := "DummyEnv"
  /** Width of one player's action. */
  const ACTION_WIDTH := 3
  const NO_PARAMS := ValueError("Could not find params.pkl in either the checkpoint dir or its parent directory!")
  const EMPTY_CONCATENATE := ValueError("need at least one array to concatenate")

  // ---------------------------------------------------------------------
  // Configuration lookup

  /** A training configuration: a dict from option names to values. */
  type Config = map<string, Value>

  /** The checkpoint path: CHECKPOINT_RELATIVE under the directory that
      holds the adapter's source file. */
  function CheckpointPath(agentDir: string): string
  {
    Join(agentDir, CHECKPOINT_RELATIVE)
  }

  /** `params.pkl` in the checkpoint's own directory. */
  function OwnParams(checkpointPath: string): string
  {
    Join(Dirname(checkpointPath), PARAMS_FILE)
  }

  /** `params.pkl` reached through the checkpoint directory's parent. */
  function ParentParams(checkpointPath: string): string
  {
    Join(Dirname(checkpointPath), PARENT_PARAMS_FILE)
  }

  /** `evaluation` is `loaded` with parallelism switched off and the
      environment replaced by the placeholder, and nothing else changed. */
  ghost predicate IsEvaluationConfig(loaded: Config, evaluation: Config)
  {
    && evaluation.Keys == loaded.Keys + {NUM_WORKERS, NUM_GPUS, ENV}
    && evaluation[NUM_WORKERS] == Int(0)
    && evaluation[NUM_GPUS] == Int(0)
    && evaluation[ENV] == Str(DUMMY_ENV)
    && forall k :: k in loaded && k !in {NUM_WORKERS, NUM_GPUS, ENV} ==> evaluation[k] == loaded[k]
  }

  /** The configuration part of the adapter's constructor: try `params.pkl`
      beside the checkpoint, then in the parent directory, load the first
      that exists (`fs` is the file system, `unpickle` the file contents)
      and override the three evaluation settings in place. */
  method LoadConfig(checkpointPath: string, fs: string -> bool, unpickle: string -> Config)
    returns (r: Result<Config>)
    ensures r.Err? <==> checkpointPath == "" ||
                        (!Exists(fs, OwnParams(checkpointPath)) && !Exists(fs, ParentParams(checkpointPath)))
    ensures r.Err? ==> r.error == NO_PARAMS
    ensures r.Ok? && Exists(fs, OwnParams(checkpointPath)) ==>
              IsEvaluationConfig(unpickle(OwnParams(checkpointPath)), r.value)
    ensures r.Ok? && !Exists(fs, OwnParams(checkpointPath)) ==>
              IsEvaluationConfig(unpickle(ParentParams(checkpointPath)), r.value)
  {
    var configPath := "";
    if checkpointPath != "" {
      var configDir := Dirname(checkpointPath);
      configPath := Join(configDir, PARAMS_FILE);
      if !Exists(fs, configPath) {
        configPath := Join(configDir, PARENT_PARAMS_FILE);
      }
    }
    var config: Config;
    if Exists(fs, configPath) {
      config := unpickle(configPath);
    } else {
      return Err(NO_PARAMS);
    }
    config := config[NUM_WORKERS := Int(0)];
    config := config[NUM_GPUS := Int(0)];
    config := config[ENV := Str(DUMMY_ENV)];
    return Ok(config);
  }

  /** Adjusting an already adjusted configuration changes nothing. */
  lemma EvaluationConfigIsStable(loaded: Config, evaluation: Config)
    requires IsEvaluationConfig(loaded, evaluation)
    ensures IsEvaluationConfig(evaluation, evaluation)
  {
  }

  /** The checkpoint of the adapter installed in `agentDir` lies in
      `agentDir/ray_results/checkpoint_001000`. */
  lemma CheckpointDirectory(agentDir: string)
    requires agentDir != "" && agentDir[|agentDir| - 1] != '/'
    ensures CheckpointPath(agentDir) != ""
    ensures Dirname(CheckpointPath(agentDir)) == agentDir + "/" + CHECKPOINT_DIR
  {
    var dir := agentDir + "/" + CHECKPOINT_DIR;
    assert CheckpointPath(agentDir) == dir + "/" + CHECKPOINT_FILE;
    DirnameOfJoin(dir, CHECKPOINT_FILE);
  }

  /** For the adapter installed in `agentDir`, the two places searched are
      `params.pkl` in `agentDir/ray_results/checkpoint_001000` and
      `../params.pkl` relative to it. */
  lemma ParamsCandidates(agentDir: string)
    requires agentDir != "" && agentDir[|agentDir| - 1] != '/'
    ensures OwnParams(CheckpointPath(agentDir)) == agentDir + "/" + CHECKPOINT_DIR + "/" + PARAMS_FILE
    ensures ParentParams(CheckpointPath(agentDir)) == agentDir + "/" + CHECKPOINT_DIR + "/" + PARENT_PARAMS_FILE
  {
    CheckpointDirectory(agentDir);
  }

  // ---------------------------------------------------------------------
  // Ordered dicts of per-player vectors

  /** A dict from player id to a vector, in insertion (iteration) order. */
  type PlayerDict = seq<(int, Vec)>

  function Keys(d: PlayerDict): seq<int>
  {
    seq(|d|, i requires 0 <= i < |d| => d[i].0)
  }

  function Values(d: PlayerDict): seq<Vec>
  {
    seq(|d|, i requires 0 <= i < |d| => d[i].1)
  }

  /** No player id occurs twice, as in any dict. */
  predicate DistinctKeys(d: PlayerDict)
  {
    forall i, j :: 0 <= i < j < |d| ==> d[i].0 != d[j].0
  }

  /** `d[k] = v`: an existing key keeps its place, a new one goes last. */
  function Store(d: PlayerDict, k: int, v: Vec): (r: PlayerDict)
    ensures k !in Keys(d) ==> r == d + [(k, v)]
    ensures k in Keys(d) ==> |r| == |d| && Keys(r) == Keys(d)
    ensures k in Keys(d) && DistinctKeys(d) ==>
              forall i :: 0 <= i < |d| ==> r[i] == (if d[i].0 == k then (k, v) else d[i])
  {
    if d == [] then [(k, v)]
    else if d[0].0 == k then
      assert Keys(d)[0] == k;
      [(k, v)] + d[1..]
    else
      assert Keys(d) == [d[0].0] + Keys(d[1..]);
      var rest := Store(d[1..], k, v);
      assert Keys([d[0]] + rest) == [d[0].0] + Keys(rest);
      [d[0]] + rest
  }

  // ---------------------------------------------------------------------
  // Serialising observations

  /** `np.concatenate` of a list of vectors. */
  function Concat(parts: seq<Vec>): Vec
  {
    if parts == [] then [] else Concat(parts[..|parts| - 1]) + parts[|parts| - 1]
  }

  function TotalLength(parts: seq<Vec>): nat
  {
    if parts == [] then 0 else TotalLength(parts[..|parts| - 1]) + |parts[|parts| - 1]|
  }

  /** The policy input is as long as all observations together. */
  lemma {:induction false} ConcatLength(parts: seq<Vec>)
    ensures |Concat(parts)| == TotalLength(parts)
  {
    if parts != [] {
      ConcatLength(parts[..|parts| - 1]);
    }
  }

  /** With `n` observations of length `len` each, the input has `n * len`
      entries (2L for a two-player team). */
  lemma {:induction false} ConcatUniformLength(parts: seq<Vec>, len: nat)
    requires forall i :: 0 <= i < |parts| ==> |parts[i]| == len
    ensures |Concat(parts)| == |parts| * len
  {
    if parts != [] {
      ConcatUniformLength(parts[..|parts| - 1], len);
    }
  }

  /** Reading the input back at the running offsets recovers each player's
      observation unchanged: the concatenation loses nothing. */
  lemma {:induction false} ConcatRecoversParts(parts: seq<Vec>, i: nat)
    requires i < |parts|
    ensures TotalLength(parts[..i]) + |parts[i]| <= |Concat(parts)|
    ensures Concat(parts)[TotalLength(parts[..i])..TotalLength(parts[..i]) + |parts[i]|] == parts[i]
  {
    var init := parts[..|parts| - 1];
    ConcatLength(init);
    if i == |parts| - 1 {
      assert parts[..i] == init;
    } else {
      assert init[..i] == parts[..i];
      ConcatRecoversParts(init, i);
    }
  }

  /** The first loop of `act`: collect the observations in iteration order
      and concatenate them; numpy refuses an empty list. */
  method ConcatObservations(observation: PlayerDict) returns (r: Result<Vec>)
    ensures r.Err? <==> observation == []
    ensures r.Err? ==> r.error == EMPTY_CONCATENATE
    ensures r.Ok? ==> r.value == Concat(Values(observation))
  {
    var obs: seq<Vec> := [];
    var i := 0;
    while i < |observation|
      invariant 0 <= i <= |observation|
      invariant obs == Values(observation[..i])
    {
      assert Values(observation[..i + 1]) == Values(observation[..i]) + [observation[i].1];
      obs := obs + [observation[i].1];
      i := i + 1;
    }
    assert observation[..i] == observation;
    if obs == [] {
      return Err(EMPTY_CONCATENATE);
    }
    return Ok(Concat(obs));
  }

  // ---------------------------------------------------------------------
  // Deserialising actions

  /** numpy's `s[lo:hi]` for 0 <= lo <= hi: bounds past the end are clamped. */
  function PySlice(s: Vec, lo: nat, hi: nat): (r: Vec)
    requires lo <= hi
    ensures |r| <= hi - lo
    ensures hi <= |s| ==> r == s[lo..hi]
  {
    var a := if lo <= |s| then lo else |s|;
    var b := if hi <= |s| then hi else |s|;
    s[a..b]
  }

  /** The action slice of the player at position `i`. */
  function ActionSlice(act: Vec, i: nat): Vec
  {
    PySlice(act, ACTION_WIDTH * i, ACTION_WIDTH * (i + 1))
  }

  /** The slices of the first `n` positions. */
  function Slices(act: Vec, n: nat): (r: seq<Vec>)
    ensures |r| == n
  {
    seq(n, i requires 0 <= i < n => ActionSlice(act, i))
  }

  /** When the action vector covers all `n` players, every slice has width 3
      and the slices, consecutive and disjoint, tile `act[0:3n]`. */
  lemma {:induction false} SlicesTileActions(act: Vec, n: nat)
    requires ACTION_WIDTH * n <= |act|
    ensures forall i :: 0 <= i < n ==> |Slices(act, n)[i]| == ACTION_WIDTH
    ensures Concat(Slices(act, n)) == act[..ACTION_WIDTH * n]
  {
    if n > 0 {
      var s := Slices(act, n);
      assert s[..n - 1] == Slices(act, n - 1);
      SlicesTileActions(act, n - 1);
      assert act[..ACTION_WIDTH * n] == act[..ACTION_WIDTH * (n - 1)] + act[ACTION_WIDTH * (n - 1)..ACTION_WIDTH * n];
    }
  }

  /** The second loop of `act`: player `i` in iteration order gets
      `act[3i:3(i+1)]`, stored under its own id. */
  method SliceActions(observation: PlayerDict, act: Vec) returns (actions: PlayerDict)
    requires DistinctKeys(observation)
    ensures Keys(actions) == Keys(observation)
    ensures Values(actions) == Slices(act, |observation|)
  {
    actions := [];
    var i := 0;
    while i < |observation|
      invariant 0 <= i <= |observation|
      invariant |actions| == i
      invariant forall j :: 0 <= j < i ==> actions[j] == (observation[j].0, ActionSlice(act, j))
    {
      var playerId := observation[i].0;
      assert playerId !in Keys(actions);
      actions := Store(actions, playerId, ActionSlice(act, i));
      i := i + 1;
    }
  }

  // ---------------------------------------------------------------------
  // The agent

  /** `compute_single_action`'s answer: the action and the auxiliary
      outputs that `act` ignores. */
  datatype PolicyOutput = PolicyOutput(action: Vec, stateOuts: seq<Vec>, info: map<string, real>)

  /** The restored policy, as a function of its input. */
  type Policy = Vec -> PolicyOutput

  /** The adapter: it keeps only the evaluation policy; the trainer and the
      configuration it was built from are dropped once the policy is out. */
  class RayAgent {
    /** The sub-policy restored from the checkpoint. */
    const policy: Policy

    constructor (policy: Policy)
      ensures this.policy == policy
    {
      this.policy := policy;
    }

    /** `RayAgent(env)` for the adapter installed in `agentDir`: load the
        evaluation configuration, build a trainer from it, restore the
        checkpoint and keep the trainer's default policy. `restore` stands
        for those three trainer steps. Construction raises exactly when no
        configuration file is found. */
    static method Create(agentDir: string, fs: string -> bool, unpickle: string -> Config,
                         restore: (Config, string) -> Policy)
      returns (r: Result<RayAgent>)
      ensures r.Err? <==> CheckpointPath(agentDir) == "" ||
                          (!Exists(fs, OwnParams(CheckpointPath(agentDir))) &&
                           !Exists(fs, ParentParams(CheckpointPath(agentDir))))
      ensures r.Err? ==> r.error == NO_PARAMS
      ensures r.Ok? ==> fresh(r.value)
      ensures r.Ok? ==>
                var path := CheckpointPath(agentDir);
                var chosen := if Exists(fs, OwnParams(path)) then OwnParams(path) else ParentParams(path);
                exists evaluation :: IsEvaluationConfig(unpickle(chosen), evaluation) &&
                                     r.value.policy == restore(evaluation, path)
    {
      var path := CheckpointPath(agentDir);
      var config := LoadConfig(path, fs, unpickle);
      if config.Err? {
        return Err(config.error);
      }
      var agent := new RayAgent(restore(config.value, path));
      return Ok(agent);
    }

    /** `act`: one policy call on the concatenated observations; the
        result has the same player ids in the same order, each with its
        3-wide slice of the policy's action. */
    method Act(observation: PlayerDict) returns (r: Result<PlayerDict>)
      requires DistinctKeys(observation)
      ensures r.Err? <==> observation == []
      ensures r.Err? ==> r.error == EMPTY_CONCATENATE
      ensures r.Ok? ==> Keys(r.value) == Keys(observation)
      ensures r.Ok? ==> Values(r.value) == Slices(policy(Concat(Values(observation))).action, |observation|)
    {
      var obs := ConcatObservations(observation);
      if obs.Err? {
        return Err(obs.error);
      }
      var output := policy(obs.value);
      var act := output.action;
      var actions := SliceActions(observation, act);
      return Ok(actions);
    }
  }
}
