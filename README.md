# Soccer-twos rollout glue, modelled in Dafny

This project models the small amount of logic that the soccer-twos
evaluation scripts contain around the external simulator and the external
reinforcement-learning framework:

- **Rollout driver** (`custom_watch.py`): finding the agent class in an
  agent module, resolving the `-m/-m1/-m2` and `-c/-c1/-c2` options,
  choosing between the one-argument and two-argument agent constructor, and
  one iteration of the match loop. An iteration routes players 2 and 3 to
  team 1's agent as its local players 0 and 1, and merges both agents'
  actions into the four-entry joint action. It then steps the simulator and
  adds each team's rewards to its counter. When any done flag is set, it logs
  the totals and zeroes both counters.
- **Policy adapter** (`thiago_ma_teams/agent_ray.py`): finding `params.pkl`
  next to the checkpoint or in its parent directory, and forcing the
  evaluation settings (no workers, no GPUs, the placeholder environment).
  Then `act`, which concatenates the team's observations in dict order, calls
  the policy once, and gives player `i` the slice `act[3i:3(i+1)]`.
- **Environment factories** (`utils.py`): computing `worker_id` from the
  framework's worker attributes, and deciding whether to wrap. The env is
  returned unwrapped only if `multiagent` is present and falsy; otherwise the
  framework adapter is the outermost layer. Only the custom-reward factory
  adds the reward wrapper, and it adds it inside the adapter.

Files and modules:

- `python.dfy` (`Python`): `Option`, `Result`, the raised exceptions, the
  dynamically typed config values, and Python truthiness.
- `posix_path.dfy` (`PosixPath`): `os.path.dirname`, `os.path.join` and
  `os.path.exists`, as used by the adapter.
- `custom_watch.dfy` (`CustomWatch`), `agent_ray.dfy` (`AgentRay`) and
  `utils.dfy` (`Utils`): one module per source file.

The simulator, the agents' `act`, the import machinery, the file system, the
unpickler and the policy network are all parameters: they are functions
supplied by the caller. So is the effect of calling an agent class (the
exception its constructor raises, if any). The match loop's state is the
class `CustomWatch.MatchDriver`, with the fields `obs`, `team0Reward` and
`team1Reward`, and two ghost fields: every step taken so far, and the index
in it where the current episode starts. Its invariant says that the counters
equal the sum of each team's rewards since the last step that had a done
flag. The configuration handed to a factory is the class `Utils.EnvConfig`,
whose dict the factory updates in place.

The code has three behaviours that its option help texts do not mention.
The model reproduces each one as the code has it:

- When only one of `-c1` and `-c2` is given, both agents get "latest". The
  given checkpoint is ignored; it is not used for its own team.
- Option values are checked by truthiness, so an empty string counts as not
  given.
- After an episode ends, `reset()` is called but its observations are
  discarded. The next iteration therefore acts on the final step's
  observations. The model keeps this behaviour: `MatchDriver.Record` leaves
  `obs` equal to the step's observations.

## Model

| member | source | states |
|---|---|---|
| CustomWatch.AgentClassOf | custom_watch.py:13-21 | ValueError naming the module exactly when no listed class is an agent class; otherwise the class at the first qualifying position |
| CustomWatch.FirstAgentIndex | custom_watch.py:14-17 | the index found holds a class other than AgentInterface that subclasses it, and no earlier class does; there is no index exactly when no class qualifies |
| CustomWatch.GetAgentClass | custom_watch.py:13-21 | the search loop returns the first qualifying class in listing order, and raises ValueError exactly when no class qualifies |
| CustomWatch.SelectedClassHasLeastName | custom_watch.py:14 | when reflection lists the classes sorted by name, the chosen class has the alphabetically least name among all agent classes |
| CustomWatch.UniqueAgentClassIsSelected | custom_watch.py:14-17 | a module with exactly one agent class yields that class |
| CustomWatch.ResolveModules | custom_watch.py:38-46 | -m gives both teams the same module even when -m1/-m2 are present; otherwise both -m1 and -m2 are needed, else ValueError; resolved names are non-empty |
| CustomWatch.ResolveCheckpoints | custom_watch.py:48-56 | -c applies to both teams; -c1/-c2 are used only as a pair; every other case gives ("latest", "latest") |
| CustomWatch.ConstructorFor | custom_watch.py:66-73 | the agent is built from the env alone iff its checkpoint is "latest"; otherwise it gets (env, checkpoint) with the checkpoint unchanged |
| CustomWatch.CheckpointsReachConstructors | custom_watch.py:48-73 | with no usable checkpoint option both agents get the one-argument constructor; a non-"latest" -c reaches both constructors verbatim |
| CustomWatch.LoadAgents | custom_watch.py:38-73 | the module error comes first; then, in order, agent 1's missing-class error, the exception agent 1's constructor raises, agent 2's missing-class error and agent 2's constructor exception; on success each agent is its module's selected class with the constructor form chosen for its checkpoint |
| CustomWatch.TeamView | custom_watch.py:91-92 | an agent sees players first and first+1 as its local keys 0 and 1, and nothing else |
| CustomWatch.MergeActions | custom_watch.py:93-98 | the joint action has exactly keys 0..3: 0,1 are agent 1's local 0,1 and 2,3 are agent 2's local 0,1; KeyError names the first local key an agent left out |
| CustomWatch.MergeInvertsTeamView | custom_watch.py:91-98 | viewing the joint action through each team's renumbering gives back exactly that team's two actions |
| CustomWatch.CountersAreEpisodeSums | custom_watch.py:104-109 | after any sequence of steps, the counters equal each team's reward sum since the last step with a done flag |
| CustomWatch.EpisodeEndLogsFullEpisode | custom_watch.py:104-109 | a step with a done flag logs the sums of the whole episode including that step's rewards, and leaves both counters at zero |
| CustomWatch.AccumulateStep | custom_watch.py:104-110 | totals are logged exactly when some done flag is set, and then the counters are zero; what is kept plus what is logged equals the old counters plus the step's team rewards |
| CustomWatch.EpisodeStartIsLastDone | custom_watch.py:104-110 | the steps from an index that follows a done step and has no done step after it are exactly the steps since the last done step |
| CustomWatch.EpisodeEnds | custom_watch.py:106-109 | after a step with a done flag the current episode starts after that step and its sums are zero |
| CustomWatch.EpisodeContinues | custom_watch.py:104-105 | after a step without a done flag the current episode keeps its start, and its sums grow by that step's team rewards |
| CustomWatch.SumRewardsAppend | custom_watch.py:104-105 | extending a run of steps by one step adds that step's team rewards to the sums |
| CustomWatch.MatchDriver.constructor | custom_watch.py:86-88 | the loop starts from the reset observations with both counters at zero |
| CustomWatch.MatchDriver.CountersMatchHistory | custom_watch.py:87-110 | in every valid state the counters equal each team's reward sum since the last done step of the whole history, which is also what replaying the history from zero gives |
| CustomWatch.MatchDriver.ChooseActions | custom_watch.py:91-98 | the joint action is the merge of agent 1's answer for players 0,1 and agent 2's answer for players 2,3 |
| CustomWatch.MatchDriver.Record | custom_watch.py:101-110 | obs becomes the step's observations (the reset's are discarded); team 0 adds reward[0]+reward[1] and team 1 adds reward[2]+reward[3]; if any done flag is set the sums are logged and both counters become zero and the episode restarts after this step; the episode-sum invariant is kept |
| CustomWatch.MatchDriver.Step | custom_watch.py:89-110 | one iteration: a merge KeyError leaves the state unchanged; otherwise the simulator's answer to the joint action is recorded as above |
| PosixPath.Dirname | thiago_ma_teams/agent_ray.py:38 | the directory is a prefix of the path reaching at most to its last slash, empty when there is no slash, followed in the path only by slashes up to that last slash, and ending in a non-slash unless it is all slashes |
| PosixPath.Join | thiago_ma_teams/agent_ray.py:39-42 | an absolute second part replaces the first; otherwise the result starts with the first part, ends with the second, and has one '/' between them exactly when the first part is non-empty and lacks a trailing '/' |
| PosixPath.DirnameOfJoin | thiago_ma_teams/agent_ray.py:38-39 | the directory of dir/name is dir again, for a directory without a trailing slash and a single-component name |
| AgentRay.LoadConfig | thiago_ma_teams/agent_ray.py:36-61 | params.pkl beside the checkpoint is used if it exists, else ../params.pkl; ValueError exactly when neither exists (or the checkpoint path is empty); the loaded config gets num_workers = 0, num_gpus = 0 and env = "DummyEnv", and every other key keeps its value |
| AgentRay.EvaluationConfigIsStable | thiago_ma_teams/agent_ray.py:56-61 | applying the overrides to an already overridden config changes nothing |
| AgentRay.CheckpointDirectory | thiago_ma_teams/agent_ray.py:16-38 | the checkpoint path is non-empty, so the lookup branch always runs, and its directory is agentDir/ray_results/checkpoint_001000 |
| AgentRay.ParamsCandidates | thiago_ma_teams/agent_ray.py:36-42 | the two files tried are checkpoint_001000/params.pkl and checkpoint_001000/../params.pkl under agentDir/ray_results |
| AgentRay.Store | thiago_ma_teams/agent_ray.py:91 | assigning a new key appends it at the end of the dict; an existing key keeps its position and gets the new value, and every other entry is unchanged |
| AgentRay.ConcatLength | thiago_ma_teams/agent_ray.py:81-87 | the policy input is as long as all observation vectors together |
| AgentRay.ConcatUniformLength | thiago_ma_teams/agent_ray.py:81-87 | n observations of length L give an input of length n*L, so 2L for a team |
| AgentRay.ConcatRecoversParts | thiago_ma_teams/agent_ray.py:84-87 | reading the input back at the running offsets returns each player's observation unchanged |
| AgentRay.ConcatObservations | thiago_ma_teams/agent_ray.py:81-87 | the first loop builds the concatenation of the observations in dict order; an empty dict raises ValueError |
| AgentRay.PySlice | thiago_ma_teams/agent_ray.py:91 | a slice is never wider than hi-lo, and is exactly s[lo..hi] when it fits |
| AgentRay.SlicesTileActions | thiago_ma_teams/agent_ray.py:90-91 | when the action vector has at least 3n entries, every slice has width 3 and the consecutive slices concatenate to act[0:3n] |
| AgentRay.SliceActions | thiago_ma_teams/agent_ray.py:90-91 | the output has the input's player ids in the same order, and the player at position i gets act[3i:3(i+1)] |
| AgentRay.RayAgent.constructor | thiago_ma_teams/agent_ray.py:69 | the agent keeps only the policy; the config and the trainer are not fields of the object |
| AgentRay.RayAgent.Create | thiago_ma_teams/agent_ray.py:27-69 | construction raises ValueError exactly when the config lookup fails; otherwise the new agent's policy is the one restored from the checkpoint with the evaluation version of the chosen params file |
| AgentRay.RayAgent.Act | thiago_ma_teams/agent_ray.py:71-93 | the result has the observation's keys in order, and each value is the player's 3-wide slice of the policy's first output on the concatenated observations; an empty dict raises ValueError |
| Utils.WorkerId | utils.py:23-27 | worker_id = worker_index * num_envs_per_worker + vector_index, with num_envs_per_worker defaulting to 1; a non-numeric value raises TypeError |
| Utils.WorkerIdsAreDistinct | utils.py:44-48 | with n >= 1 envs per worker and vector indices below n, different (worker, vector) pairs get different worker ids |
| Utils.AssignWorkerId | utils.py:23-27 | without the worker attributes the config is unchanged; otherwise worker_id is the only entry written |
| Utils.WrapForTraining | utils.py:29-32 | the env is returned unwrapped iff "multiagent" is present and falsy; otherwise it is wrapped once in RLLibWrapper |
| Utils.MissingMultiagentKeyWraps | utils.py:50-53 | a missing or truthy "multiagent" adds exactly an RLLibWrapper layer on the outside |
| Utils.CreateCustomRewardRllibEnv | utils.py:14-32 | the simulator is built from the updated config; CustomRewardWrapper is applied first and RLLibWrapper outermost, unless multiagent is disabled |
| Utils.CreateRllibEnv | utils.py:35-53 | as above, but without CustomRewardWrapper |

## Left out

- The simulator (`soccer_twos.make`, `step`, `reset`, rendering, `close`) is external. A step is a function from the joint action to a transition, and the simulator is assumed to return keys 0..3 in obs, reward and done. The env's `reset()` has no effect on the modelled state.
- Module import and reflection are not modelled. A module is its name and its classes, in the order reflection lists them. Reflection sorts by name; that order is an input (`SortedByName`), not computed. Import errors are not modelled.
- argparse parsing, `print_help` and `--base-port` handling are not modelled. The parsed options are a record of optional strings.
- Logging is left out. The totals that would be logged are returned by `MatchDriver.Record` and `MatchDriver.Step` instead.
- The unbounded `while True` loop is left out. One iteration is modelled as `MatchDriver.Step`.
- `ray.init`, `register_env`, `get_trainable_cls`, trainer construction, `restore`, `get_policy` and pickle loading are framework calls and file I/O. The file system and the unpickler are parameters, and the trainer's construction, `restore` and `get_policy("default")` together are one parameter of `RayAgent.Create`, from the evaluation config and the checkpoint path to the policy. A pickle that is not a dict is not modelled.
- `realpath(__file__)` is I/O. The adapter's directory is a parameter of `CheckpointPath`.
- `compute_single_action` is neural-network inference in floating point. The policy is a function from the input vector to its outputs, and vectors are sequences of reals.
- AgentRay.RayAgent.Act: that the policy is called exactly once per `act` is not stated. The model only shows that the result depends on one policy output for the concatenated input.
- Rewards are reals. Float rounding in the running sums is not modelled.
- Config values are `None`, bools, ints, floats (as reals), strings and other objects; each other object carries its own truth value, so the model does not compute `__bool__` or `__len__`.
- Utils.WorkerId: a float `num_envs_per_worker` is not modelled. Any value other than an int or a bool counts as a TypeError.
- `RLLibWrapper` adds no behaviour. It appears only as a layer of the `Env` datatype.
- Agents are functions on dicts. An exception raised inside an agent's `act` is not modelled; only a KeyError from a missing action key is.
