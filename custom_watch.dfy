/** The rollout driver: picks an agent class out of each agent module,
    resolves the command-line options for modules and checkpoints, chooses
    the constructor form, and runs the match loop one step at a time
    (joint-action merge, per-team reward counters, episode boundary). */
module CustomWatch {
  import opened Python

  const AGENT_INTERFACE := "AgentInterface"
  const LATEST := "latest"
  const MISSING_MODULES := ValueError("Must specify selfplay (-m) or team (-m1, -m2) agent modules")

  function NoAgentClass(moduleName: string): PyError
  {
    ValueError("No AgentInterface subclass found in module " + moduleName)
  }

  // ---------------------------------------------------------------------
  // Agent class lookup

  /** A class found in a module by reflection, with whether it is a
      subclass of `AgentInterface` (the interface itself included). */
  datatype ClassMember = ClassMember(name: string, subclassesAgentInterface: bool)

  /** An imported module: its name and its classes in the order reflection
      lists them. */
  datatype PyModule = PyModule(name: string, classes: seq<ClassMember>)

  predicate IsAgentClass(c: ClassMember)
  {
    c.name != AGENT_INTERFACE && c.subclassesAgentInterface
  }

  /** Position of the first agent class, or None when there is none. */
  function FirstAgentIndex(classes: seq<ClassMember>): (r: Option<nat>)
    ensures r.Some? ==> r.value < |classes| && IsAgentClass(classes[r.value])
    ensures r.Some? ==> forall j :: 0 <= j < r.value ==> !IsAgentClass(classes[j])
    ensures r.None? <==> forall j :: 0 <= j < |classes| ==> !IsAgentClass(classes[j])
  {
    if classes == [] then None
    else if IsAgentClass(classes[0]) then Some(0)
    else
      match FirstAgentIndex(classes[1..])
      case None => None
      case Some(i) => Some(i + 1)
  }

  /** What `get_agent_class` returns or raises for module `m`. */
  function AgentClassOf(m: PyModule): (r: Result<ClassMember>)
    ensures r.Err? <==> forall j :: 0 <= j < |m.classes| ==> !IsAgentClass(m.classes[j])
    ensures r.Err? ==> r.error == NoAgentClass(m.name)
    ensures r.Ok? ==> exists i :: 0 <= i < |m.classes| && m.classes[i] == r.value &&
                        IsAgentClass(m.classes[i]) &&
                        forall j :: 0 <= j < i ==> !IsAgentClass(m.classes[j])
  {
    match FirstAgentIndex(m.classes)
    case Some(i) => Ok(m.classes[i])
    case None => Err(NoAgentClass(m.name))
  }

  /** The reflective search: the first class in listing order that is an
      agent class, or ValueError when the module has none. */
  method GetAgentClass(m: PyModule) returns (r: Result<ClassMember>)
    ensures r == AgentClassOf(m)
    ensures r.Err? <==> forall j :: 0 <= j < |m.classes| ==> !IsAgentClass(m.classes[j])
    ensures r.Ok? ==> IsAgentClass(r.value) && r.value in m.classes
  {
    var i := 0;
    while i < |m.classes|
      invariant 0 <= i <= |m.classes|
      invariant forall j :: 0 <= j < i ==> !IsAgentClass(m.classes[j])
    {
      if IsAgentClass(m.classes[i]) {
        return Ok(m.classes[i]);
      }
      i := i + 1;
    }
    return Err(NoAgentClass(m.name));
  }

  /** Code-point order on names, as Python compares strings. */
  predicate NameLe(a: string, b: string)
  {
    a == [] || (b != [] && (a[0] < b[0] || (a[0] == b[0] && NameLe(a[1..], b[1..]))))
  }

  lemma {:induction false} NameLeReflexive(a: string)
    ensures NameLe(a, a)
  {
    if a != [] {
      NameLeReflexive(a[1..]);
    }
  }

  /** Reflection lists a module's members sorted by name. */
  predicate SortedByName(classes: seq<ClassMember>)
  {
    forall i, j :: 0 <= i < j < |classes| ==> NameLe(classes[i].name, classes[j].name)
  }

  /** With the members sorted by name, the class picked is the agent class
      whose name comes first. */
  lemma SelectedClassHasLeastName(m: PyModule)
    requires SortedByName(m.classes)
    requires AgentClassOf(m).Ok?
    ensures forall j :: 0 <= j < |m.classes| && IsAgentClass(m.classes[j]) ==>
              NameLe(AgentClassOf(m).value.name, m.classes[j].name)
  {
    var k := FirstAgentIndex(m.classes).value;
    NameLeReflexive(m.classes[k].name);
  }

  /** A module with exactly one agent class yields that class. */
  lemma {:induction false} UniqueAgentClassIsSelected(m: PyModule, k: nat)
    requires k < |m.classes| && IsAgentClass(m.classes[k])
    requires forall j :: 0 <= j < |m.classes| && j != k ==> !IsAgentClass(m.classes[j])
    ensures AgentClassOf(m) == Ok(m.classes[k])
  {
  }

  // ---------------------------------------------------------------------
  // Command-line option resolution

  /** The parsed command line; an absent option is None. */
  datatype CliArgs = CliArgs(
    agentModule: Option<string>,
    agent1Module: Option<string>,
    agent2Module: Option<string>,
    checkpoint: Option<string>,
    checkpoint1: Option<string>,
    checkpoint2: Option<string>)

  /** An option counts as given when it is present and non-empty (Python
      truthiness of the parsed string). */
  predicate Given(o: Option<string>)
  {
    o.Some? && o.value != ""
  }

  /** The module names for team 0 and team 1: `-m` wins for both teams,
      otherwise `-m1` and `-m2` are both needed. */
  function ResolveModules(args: CliArgs): (r: Result<(string, string)>)
    ensures r.Err? <==> !Given(args.agentModule) && !(Given(args.agent1Module) && Given(args.agent2Module))
    ensures r.Err? ==> r.error == MISSING_MODULES
    ensures Given(args.agentModule) ==> r == Ok((args.agentModule.value, args.agentModule.value))
    ensures !Given(args.agentModule) && r.Ok? ==> r.value == (args.agent1Module.value, args.agent2Module.value)
    ensures r.Ok? ==> r.value.0 != "" && r.value.1 != ""
  {
    if Given(args.agentModule) then
      Ok((args.agentModule.value, args.agentModule.value))
    else if Given(args.agent1Module) && Given(args.agent2Module) then
      Ok((args.agent1Module.value, args.agent2Module.value))
    else
      Err(MISSING_MODULES)
  }

  /** The checkpoints for team 0 and team 1: `-c` wins for both teams,
      `-c1`/`-c2` apply only as a pair, and "latest" is used otherwise. */
  function ResolveCheckpoints(args: CliArgs): (r: (string, string))
    ensures Given(args.checkpoint) ==> r == (args.checkpoint.value, args.checkpoint.value)
    ensures !Given(args.checkpoint) && Given(args.checkpoint1) && Given(args.checkpoint2) ==>
              r == (args.checkpoint1.value, args.checkpoint2.value)
    ensures !Given(args.checkpoint) && !(Given(args.checkpoint1) && Given(args.checkpoint2)) ==>
              r == (LATEST, LATEST)
  {
    if Given(args.checkpoint) then
      (args.checkpoint.value, args.checkpoint.value)
    else if Given(args.checkpoint1) && Given(args.checkpoint2) then
      (args.checkpoint1.value, args.checkpoint2.value)
    else
      (LATEST, LATEST)
  }

  // ---------------------------------------------------------------------
  // Agent construction

  /** The argument list an agent class is called with besides nothing:
      the environment alone, or the environment and a checkpoint. */
  datatype ConstructorCall = EnvOnly | EnvAndCheckpoint(checkpoint: string)

  /** An agent as constructed: its class and the call made to it. */
  datatype AgentInstance = AgentInstance(agentClass: ClassMember, call: ConstructorCall)

  function ConstructorFor(checkpoint: string): (r: ConstructorCall)
    ensures r == EnvOnly <==> checkpoint == LATEST
    ensures r.EnvAndCheckpoint? ==> r.checkpoint == checkpoint
  {
    if checkpoint == LATEST then EnvOnly else EnvAndCheckpoint(checkpoint)
  }

  /** Whenever no usable checkpoint option is given (none at all, or only
      one of `-c1`/`-c2`), both agents are built from the environment alone;
      otherwise a non-"latest" checkpoint reaches its constructor verbatim. */
  lemma CheckpointsReachConstructors(args: CliArgs)
    ensures !Given(args.checkpoint) && !(Given(args.checkpoint1) && Given(args.checkpoint2)) ==>
              ConstructorFor(ResolveCheckpoints(args).0) == EnvOnly &&
              ConstructorFor(ResolveCheckpoints(args).1) == EnvOnly
    ensures Given(args.checkpoint) && args.checkpoint.value != LATEST ==>
              ConstructorFor(ResolveCheckpoints(args).0) == EnvAndCheckpoint(args.checkpoint.value) &&
              ConstructorFor(ResolveCheckpoints(args).1) == EnvAndCheckpoint(args.checkpoint.value)
  {
  }

  /** Resolve the options, import both modules and build both agents, in
      the order the script does. `importModule` stands for the import
      machinery, and `construct` for calling an agent class: it gives the
      exception the constructor raises, if any. */
  method LoadAgents(args: CliArgs, importModule: string -> PyModule,
                    construct: (ClassMember, ConstructorCall) -> Option<PyError>)
    returns (r: Result<(AgentInstance, AgentInstance)>)
    ensures ResolveModules(args).Err? ==> r == Err(MISSING_MODULES)
    ensures ResolveModules(args).Ok? ==>
              var m1 := importModule(ResolveModules(args).value.0);
              var m2 := importModule(ResolveModules(args).value.1);
              var (c1, c2) := ResolveCheckpoints(args);
              if AgentClassOf(m1).Err? then r == Err(AgentClassOf(m1).error)
              else if construct(AgentClassOf(m1).value, ConstructorFor(c1)).Some? then
                r == Err(construct(AgentClassOf(m1).value, ConstructorFor(c1)).value)
              else if AgentClassOf(m2).Err? then r == Err(AgentClassOf(m2).error)
              else if construct(AgentClassOf(m2).value, ConstructorFor(c2)).Some? then
                r == Err(construct(AgentClassOf(m2).value, ConstructorFor(c2)).value)
              else r == Ok((AgentInstance(AgentClassOf(m1).value, ConstructorFor(c1)),
                            AgentInstance(AgentClassOf(m2).value, ConstructorFor(c2))))
  {
    var names := ResolveModules(args);
    if names.Err? {
      return Err(names.error);
    }
    var (c1, c2) := ResolveCheckpoints(args);
    var m1 := importModule(names.value.0);
    var m2 := importModule(names.value.1);
    var class1 := GetAgentClass(m1);
    if class1.Err? {
      return Err(class1.error);
    }
    var raised1 := construct(class1.value, ConstructorFor(c1));
    if raised1.Some? {
      return Err(raised1.value);
    }
    var agent1 := AgentInstance(class1.value, ConstructorFor(c1));
    var class2 := GetAgentClass(m2);
    if class2.Err? {
      return Err(class2.error);
    }
    var raised2 := construct(class2.value, ConstructorFor(c2));
    if raised2.Some? {
      return Err(raised2.value);
    }
    var agent2 := AgentInstance(class2.value, ConstructorFor(c2));
    return Ok((agent1, agent2));
  }

  // ---------------------------------------------------------------------
  // The match loop

  /** A dict keyed by player index. */
  type PlayerMap = map<int, Vec>

  /** An agent's `act`: observations of its two players in, actions out. */
  type Agent = PlayerMap -> PlayerMap

  /** What one simulator step returns: observations, rewards and done
      flags, each keyed by player index. */
  datatype Transition = Transition(obs: PlayerMap, reward: map<int, real>, done: map<int, bool>)

  /** The dict has an entry for each of the four players 0..3. */
  predicate HasPlayers<V>(m: map<int, V>)
  {
    0 in m && 1 in m && 2 in m && 3 in m
  }

  /** What the simulator guarantees about every step it returns. */
  predicate WellFormed(t: Transition)
  {
    HasPlayers(t.obs) && HasPlayers(t.reward) && HasPlayers(t.done)
  }

  /** The observations of players `first` and `first + 1`, renumbered as
      the agent's local players 0 and 1. */
  function TeamView(obs: PlayerMap, first: int): (r: PlayerMap)
    requires first in obs && first + 1 in obs
    ensures r.Keys == {0, 1}
    ensures r[0] == obs[first] && r[1] == obs[first + 1]
  {
    map[0 := obs[first], 1 := obs[first + 1]]
  }

  /** The joint action: team 0's local actions 0,1 under keys 0,1 and
      team 1's local actions 0,1 under keys 2,3; KeyError for the first
      local action an agent did not return. */
  function MergeActions(a1: PlayerMap, a2: PlayerMap): (r: Result<PlayerMap>)
    ensures r.Ok? <==> 0 in a1 && 1 in a1 && 0 in a2 && 1 in a2
    ensures r.Err? ==> r.error == KeyError(if 0 !in a1 then 0 else if 1 !in a1 then 1 else if 0 !in a2 then 0 else 1)
    ensures r.Ok? ==> r.value.Keys == {0, 1, 2, 3}
    ensures r.Ok? ==> r.value[0] == a1[0] && r.value[1] == a1[1] && r.value[2] == a2[0] && r.value[3] == a2[1]
  {
    if 0 !in a1 then Err(KeyError(0))
    else if 1 !in a1 then Err(KeyError(1))
    else if 0 !in a2 then Err(KeyError(0))
    else if 1 !in a2 then Err(KeyError(1))
    else Ok(map[0 := a1[0], 1 := a1[1], 2 := a2[0], 3 := a2[1]])
  }

  /** Routing is consistent both ways: viewing the joint action through
      each team's renumbering gives back exactly that team's two actions. */
  lemma MergeInvertsTeamView(a1: PlayerMap, a2: PlayerMap)
    requires MergeActions(a1, a2).Ok?
    ensures TeamView(MergeActions(a1, a2).value, 0) == map[0 := a1[0], 1 := a1[1]]
    ensures TeamView(MergeActions(a1, a2).value, 2) == map[0 := a2[0], 1 := a2[1]]
  {
  }

  /** `max(done.values())` over booleans: some player is done. */
  predicate AnyDone(done: map<int, bool>)
  {
    true in done.Values
  }

  /** A pair of per-team reward sums. */
  datatype Totals = Totals(team0: real, team1: real)

  const ZERO := Totals(0.0, 0.0)

  function Add(a: Totals, b: Totals): Totals
  {
    Totals(a.team0 + b.team0, a.team1 + b.team1)
  }

  /** Player `p`'s reward in `t`; every well-formed step has one. */
  function Reward(t: Transition, p: int): real
  {
    if p in t.reward then t.reward[p] else 0.0
  }

  /** The two teams' rewards in one step. */
  function TeamRewards(t: Transition): Totals
  {
    Totals(Reward(t, 0) + Reward(t, 1), Reward(t, 2) + Reward(t, 3))
  }

  /** The counters after a step and the totals logged by it, if any. */
  datatype Accumulated = Accumulated(counters: Totals, logged: Option<Totals>)

  /** One step of reward bookkeeping: add the step's team rewards, then, if
      any player is done, log the sums and zero the counters. */
  function AccumulateStep(counters: Totals, t: Transition): (r: Accumulated)
    ensures r.logged.Some? <==> AnyDone(t.done)
    ensures r.logged.Some? ==> r.counters == ZERO
    ensures Add(r.counters, if r.logged.Some? then r.logged.value else ZERO) == Add(counters, TeamRewards(t))
  {
    var sums := Add(counters, TeamRewards(t));
    if AnyDone(t.done) then Accumulated(ZERO, Some(sums)) else Accumulated(sums, None)
  }

  /** The counters after running the bookkeeping over `ts` from zero. */
  function Replay(ts: seq<Transition>): Totals
  {
    if ts == [] then ZERO
    else AccumulateStep(Replay(ts[..|ts| - 1]), ts[|ts| - 1]).counters
  }

  /** The steps after the last one that had a done flag: the current
      episode so far. */
  function SinceLastDone(ts: seq<Transition>): seq<Transition>
  {
    if ts == [] then []
    else if AnyDone(ts[|ts| - 1].done) then []
    else SinceLastDone(ts[..|ts| - 1]) + [ts[|ts| - 1]]
  }

  /** Sum of the team rewards over `ts`. */
  function SumRewards(ts: seq<Transition>): Totals
  {
    if ts == [] then ZERO
    else Add(SumRewards(ts[..|ts| - 1]), TeamRewards(ts[|ts| - 1]))
  }

  /** The counters always hold the running sums of each team's rewards
      since the last step with a done flag. */
  lemma {:induction false} CountersAreEpisodeSums(ts: seq<Transition>)
    ensures Replay(ts) == SumRewards(SinceLastDone(ts))
  {
    if ts != [] {
      var init, last := ts[..|ts| - 1], ts[|ts| - 1];
      CountersAreEpisodeSums(init);
      if !AnyDone(last.done) {
        var e := SinceLastDone(init) + [last];
        assert e[..|e| - 1] == SinceLastDone(init);
      }
    }
  }

  /** A step with a done flag logs the whole episode's sums, that step's
      rewards included, and leaves both counters at zero. */
  lemma EpisodeEndLogsFullEpisode(ts: seq<Transition>, t: Transition)
    requires AnyDone(t.done)
    ensures AccumulateStep(Replay(ts), t).logged == Some(SumRewards(SinceLastDone(ts) + [t]))
    ensures AccumulateStep(Replay(ts), t).counters == ZERO
  {
    CountersAreEpisodeSums(ts);
    var e := SinceLastDone(ts) + [t];
    assert e[..|e| - 1] == SinceLastDone(ts);
  }

  /** The current episode of `h` starts at index `start`: the step before
      it (if any) has a done flag and none of the steps from `start` on has. */
  ghost predicate EpisodeStartsAt(h: seq<Transition>, start: nat)
  {
    && start <= |h|
    && (0 < start ==> AnyDone(h[start - 1].done))
    && forall i :: start <= i < |h| ==> !AnyDone(h[i].done)
  }

  /** That description picks out exactly the steps since the last done step. */
  lemma {:induction false} EpisodeStartIsLastDone(h: seq<Transition>, start: nat)
    requires EpisodeStartsAt(h, start)
    ensures h[start..] == SinceLastDone(h)
  {
    if h != [] {
      var init, last := h[..|h| - 1], h[|h| - 1];
      if start == |h| {
        assert AnyDone(last.done);
      } else {
        assert !AnyDone(last.done);
        assert EpisodeStartsAt(init, start) by {
          assert forall i :: start <= i < |init| ==> init[i] == h[i];
        }
        EpisodeStartIsLastDone(init, start);
        assert h[start..] == init[start..] + [last];
      }
    }
  }

  /** A step with a done flag ends the current episode: the next one starts
      after it and is empty. */
  lemma EpisodeEnds(h: seq<Transition>, start: nat, t: Transition)
    requires EpisodeStartsAt(h, start) && AnyDone(t.done)
    ensures EpisodeStartsAt(h + [t], |h| + 1)
    ensures SumRewards((h + [t])[|h| + 1..]) == ZERO
  {
    assert (h + [t])[|h| + 1..] == [];
  }

  /** A step without a done flag extends the current episode, whose sums
      grow by that step's team rewards. */
  lemma EpisodeContinues(h: seq<Transition>, start: nat, t: Transition)
    requires EpisodeStartsAt(h, start) && !AnyDone(t.done)
    ensures EpisodeStartsAt(h + [t], start)
    ensures SumRewards((h + [t])[start..]) == Add(SumRewards(h[start..]), TeamRewards(t))
  {
    var h' := h + [t];
    assert forall i :: start <= i < |h| ==> h'[i] == h[i];
    if 0 < start {
      assert h'[start - 1] == h[start - 1];
    }
    assert h'[start..] == h[start..] + [t];
    SumRewardsAppend(h[start..], t);
  }

  /** The sums of an episode extended by one step grow by that step's team
      rewards. */
  lemma SumRewardsAppend(e: seq<Transition>, t: Transition)
    ensures SumRewards(e + [t]) == Add(SumRewards(e), TeamRewards(t))
  {
    assert (e + [t])[..|e|] == e;
  }

  /** The driver's loop state. */
  class MatchDriver {
    var obs: PlayerMap
    var team0Reward: real
    var team1Reward: real
    /** Every step taken so far. */
    ghost var history: seq<Transition>
    /** Where the current episode starts in `history`: just after the last
        step with a done flag. */
    ghost var episodeStart: nat

    /** The observations cover all four players, and the counters hold
        each team's reward sum over the current episode. */
    ghost predicate Valid()
      reads this
    {
      && HasPlayers(obs)
      && EpisodeStartsAt(history, episodeStart)
      && Totals(team0Reward, team1Reward) == SumRewards(history[episodeStart..])
    }

    /** State after the first `reset()`: its observations and two zero counters. */
    constructor (initialObs: PlayerMap)
      requires HasPlayers(initialObs)
      ensures Valid()
      ensures obs == initialObs && team0Reward == 0.0 && team1Reward == 0.0
      ensures history == [] && episodeStart == 0
    {
      obs := initialObs;
      team0Reward := 0.0;
      team1Reward := 0.0;
      history := [];
      episodeStart := 0;
    }

    /** In a valid state the counters are what replaying the whole history
        from zero gives: each team's reward sum since the last done step. */
    lemma CountersMatchHistory()
      requires Valid()
      ensures Totals(team0Reward, team1Reward) == SumRewards(SinceLastDone(history))
      ensures Totals(team0Reward, team1Reward) == Replay(history)
    {
      EpisodeStartIsLastDone(history, episodeStart);
      CountersAreEpisodeSums(history);
    }

    /** The team-1 and team-2 actions chosen for the current observations,
        merged into the joint action. */
    method ChooseActions(agent1: Agent, agent2: Agent) returns (r: Result<PlayerMap>)
      requires Valid()
      ensures r == MergeActions(agent1(TeamView(obs, 0)), agent2(TeamView(obs, 2)))
    {
      var agent1Actions := agent1(TeamView(obs, 0));
      var agent2Actions := agent2(TeamView(obs, 2));
      r := MergeActions(agent1Actions, agent2Actions);
    }

    /** Take in the simulator's answer `t`: the observations are replaced,
        the counters grow by the team rewards and, at an episode end, the
        sums are logged and the counters zeroed. The observations returned
        by the `reset()` that follows are discarded, so `obs` keeps those of
        the final step. */
    method Record(t: Transition) returns (logged: Option<Totals>)
      requires Valid() && WellFormed(t)
      modifies this
      ensures Valid()
      ensures obs == t.obs
      ensures Accumulated(Totals(team0Reward, team1Reward), logged)
                == AccumulateStep(Totals(old(team0Reward), old(team1Reward)), t)
      ensures history == old(history) + [t]
      ensures episodeStart == if AnyDone(t.done) then |history| else old(episodeStart)
    {
      obs := t.obs;
      team0Reward := team0Reward + (t.reward[0] + t.reward[1]);
      team1Reward := team1Reward + (t.reward[2] + t.reward[3]);
      logged := None;
      if AnyDone(t.done) {
        EpisodeEnds(history, episodeStart, t);
        logged := Some(Totals(team0Reward, team1Reward));
        team0Reward := 0.0;
        team1Reward := 0.0;
        episodeStart := |history| + 1;
      } else {
        EpisodeContinues(history, episodeStart, t);
      }
      history := history + [t];
    }

    /** One loop iteration: both agents act, the joint action goes to the
        simulator (`env` gives its answer), and the answer is recorded. The
        result is the totals logged at an episode end, if any; a KeyError
        from the merge leaves the state as it was. */
    method Step(agent1: Agent, agent2: Agent, env: PlayerMap -> Transition)
      returns (r: Result<Option<Totals>>)
      requires Valid()
      requires forall a :: WellFormed(env(a))
      modifies this
      ensures Valid()
      ensures var joint := MergeActions(agent1(TeamView(old(obs), 0)), agent2(TeamView(old(obs), 2)));
              if joint.Err? then
                r == Err(joint.error) && unchanged(this)
              else
                var t := env(joint.value);
                && r == Ok(AccumulateStep(Totals(old(team0Reward), old(team1Reward)), t).logged)
                && obs == t.obs
                && Totals(team0Reward, team1Reward) == AccumulateStep(Totals(old(team0Reward), old(team1Reward)), t).counters
                && history == old(history) + [t]
    {
      var actions := ChooseActions(agent1, agent2);
      if actions.Err? {
        return Err(actions.error);
      }
      var t := env(actions.value);
      var logged := Record(t);
      return Ok(logged);
    }
  }
}
