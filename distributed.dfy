/** The replicated log's command path and set-up decisions
    (internal/log/distributed.go). Consensus, the stores it opens, protobuf
    marshalling and the application log are outside the model: what each of
    them returns is given by an `Env` value or a function parameter. */
module Distributed {
  import opened Wrappers
  import opened Api
  import opened Steps
  import opened Segments

  /** `Config.Raft`: the settings `setupRaft` reads. */
  datatype RaftConfig = RaftConfig(
    localID: string,
    heartbeatTimeout: int,
    electionTimeout: int,
    leaderLeaseTimeout: int,
    commitTimeout: int,
    bootstrap: bool)

  /** `log.Config`. */
  datatype Config = Config(segment: SegmentConfig, raft: RaftConfig)

  /** The consensus library's own configuration (`raft.Config`): the fields
      `setupRaft` sets, and the rest of the library's defaults as one value. */
  datatype ConsensusConfig = ConsensusConfig(
    localID: string,
    heartbeatTimeout: int,
    electionTimeout: int,
    leaderLeaseTimeout: int,
    commitTimeout: int,
    otherSettings: map<string, int>)

  // ---------------------------------------------------------------------------
  // The command envelope

  /** A command as proposed to consensus: one byte naming the request type,
      then the marshalled request. */
  function Envelope(reqType: byte, request: seq<byte>): (cmd: seq<byte>)
    ensures |cmd| == 1 + |request|
    ensures cmd[0] == reqType && cmd[1..] == request
  {
    [reqType] + request
  }

  /** How the state machine splits a command it is handed: the request type
      and the bytes that follow it. An empty command holds neither. */
  function Unwrap(cmd: seq<byte>): Option<(byte, seq<byte>)>
  {
    if cmd == [] then None else Some((cmd[0], cmd[1..]))
  }

  /** The envelope and its unwrapping are inverse: every command the state
      machine can split is the envelope of what it splits into, and every
      envelope splits back into its request type and request. */
  lemma UnwrapEnvelope(reqType: byte, request: seq<byte>, cmd: seq<byte>)
    ensures Unwrap(Envelope(reqType, request)) == Some((reqType, request))
    ensures Unwrap(cmd) == Some((reqType, request)) <==> cmd == Envelope(reqType, request)
  {
  }

  // ---------------------------------------------------------------------------
  // Applying a command through consensus

  /** The value the state machine returned for a command: an error value, a
      `*api.ProduceResponse`, or any other value. */
  datatype Response = ErrorValue(err: Error) | Produced(offset: nat) | OtherValue

  /** The future `raft.Apply` hands back once the command is decided: its
      own error, and the state machine's response. */
  datatype Future = Future(error: Option<Error>, response: Response)

  /** The outcome of `apply` for a decided command: the future's error if it
      has one, else the response if that is itself an error, else success
      with the response. */
  function Classify(f: Future): (r: Result<Response>)
    ensures r.Ok? <==> f.error.None? && !f.response.ErrorValue?
    ensures r.Ok? ==> r.value == f.response
    ensures f.error.Some? ==> r == Err(f.error.value)
    ensures f.error.None? && f.response.ErrorValue? ==> r == Err(f.response.err)
  {
    if f.error.Some? then Err(f.error.value)
    else if f.response.ErrorValue? then Err(f.response.err)
    else Ok(f.response)
  }

  /** The application log `*Log`, as far as this model sees it: the
      configuration it was opened with and what `Read` returns at each offset. */
  datatype LocalLog = LocalLog(config: Config, read: nat -> Result<Record>)

  /** A started consensus instance: the configuration it runs with and the
      configuration its log store was opened with. How each proposed command
      is decided is given to each proposal (see `DistributedLog.Apply`). */
  datatype Consensus = Consensus(config: ConsensusConfig, logStoreConfig: Config)

  // ---------------------------------------------------------------------------
  // Configuration decisions in setupRaft

  /** The configuration the consensus log store is opened with: the
      caller's, except that its first segment starts at offset 1. */
  function LogStoreConfigOf(config: Config): (c: Config)
    ensures c.segment.initialOffset == 1
    ensures c.raft == config.raft
    ensures c.segment.maxStoreBytes == config.segment.maxStoreBytes
    ensures c.segment.maxIndexBytes == config.segment.maxIndexBytes
  {
    config.(segment := config.segment.(initialOffset := 1))
  }

  /** `logConfig := l.config; logConfig.Segment.InitialOffset = 1`: a copy
      changed in one field; the caller's configuration is a value and stays
      as it was. */
  method LogStoreConfig(config: Config) returns (logConfig: Config)
    ensures logConfig == LogStoreConfigOf(config)
  {
    logConfig := config;
    logConfig := logConfig.(segment := logConfig.segment.(initialOffset := 1));
  }

  /** A configured timeout replaces the default only when it is non-zero. */
  function Override(configured: int, default: int): (t: int)
    ensures configured != 0 ==> t == configured
    ensures configured == 0 ==> t == default
  {
    if configured != 0 then configured else default
  }

  /** The consensus configuration: the library's defaults with the local
      ID set and each timeout overridden by a non-zero configured one. */
  function ConsensusConfigOf(defaults: ConsensusConfig, raft: RaftConfig): (c: ConsensusConfig)
    ensures c.localID == raft.localID && c.otherSettings == defaults.otherSettings
    ensures c.heartbeatTimeout == Override(raft.heartbeatTimeout, defaults.heartbeatTimeout)
    ensures c.electionTimeout == Override(raft.electionTimeout, defaults.electionTimeout)
    ensures c.leaderLeaseTimeout == Override(raft.leaderLeaseTimeout, defaults.leaderLeaseTimeout)
    ensures c.commitTimeout == Override(raft.commitTimeout, defaults.commitTimeout)
  {
    ConsensusConfig(
      raft.localID,
      Override(raft.heartbeatTimeout, defaults.heartbeatTimeout),
      Override(raft.electionTimeout, defaults.electionTimeout),
      Override(raft.leaderLeaseTimeout, defaults.leaderLeaseTimeout),
      Override(raft.commitTimeout, defaults.commitTimeout),
      defaults.otherSettings)
  }

  /** With no timeout configured the defaults stand; a configuration whose
      timeouts are all non-zero replaces every default timeout; and applying
      the overrides to their own result changes nothing. */
  lemma ConsensusConfigOverrides(defaults: ConsensusConfig, raft: RaftConfig)
    ensures raft.heartbeatTimeout == raft.electionTimeout == raft.leaderLeaseTimeout == raft.commitTimeout == 0 ==>
              ConsensusConfigOf(defaults, raft) == defaults.(localID := raft.localID)
    ensures raft.heartbeatTimeout != 0 && raft.electionTimeout != 0 &&
            raft.leaderLeaseTimeout != 0 && raft.commitTimeout != 0 ==>
              var c := ConsensusConfigOf(defaults, raft);
              c.heartbeatTimeout == raft.heartbeatTimeout && c.electionTimeout == raft.electionTimeout &&
              c.leaderLeaseTimeout == raft.leaderLeaseTimeout && c.commitTimeout == raft.commitTimeout
    ensures ConsensusConfigOf(ConsensusConfigOf(defaults, raft), raft) == ConsensusConfigOf(defaults, raft)
  {
  }

  /** `config := raft.DefaultConfig()` followed by the field assignments and
      the four non-zero checks, one after the other. */
  method ConsensusConfigFrom(defaults: ConsensusConfig, raft: RaftConfig) returns (config: ConsensusConfig)
    ensures config == ConsensusConfigOf(defaults, raft)
  {
    config := defaults;
    config := config.(localID := raft.localID);
    if raft.heartbeatTimeout != 0 {
      config := config.(heartbeatTimeout := raft.heartbeatTimeout);
    }
    if raft.electionTimeout != 0 {
      config := config.(electionTimeout := raft.electionTimeout);
    }
    if raft.leaderLeaseTimeout != 0 {
      config := config.(leaderLeaseTimeout := raft.leaderLeaseTimeout);
    }
    if raft.commitTimeout != 0 {
      config := config.(commitTimeout := raft.commitTimeout);
    }
  }

  /** A new cluster is bootstrapped only when bootstrapping is asked for and
      no earlier state was found. */
  predicate ShouldBootstrap(bootstrap: bool, hasState: bool)
    ensures ShouldBootstrap(bootstrap, hasState) ==> bootstrap
    ensures hasState ==> !ShouldBootstrap(bootstrap, hasState)
    ensures bootstrap && !hasState ==> ShouldBootstrap(bootstrap, hasState)
  {
    bootstrap && !hasState
  }

  // ---------------------------------------------------------------------------
  // NewDistributedLog: setupLog, then setupRaft

  /** Each external step of the set-up, with what it is given. */
  datatype SetupStep =
    | MakeLogDir
    | OpenLog(logConfig: Config)
    | MakeRaftDir
    | OpenLogStore(storeConfig: Config)
    | OpenStableStore
    | OpenSnapshotStore
    | StartRaft(raftConfig: ConsensusConfig)
    | CheckExistingState
    | BootstrapCluster(id: string, addr: string)

  /** What the outside world answers to each step: the two directory
      creations, opening the application log, the three stores, starting
      consensus, asking for existing state, and bootstrapping; plus the
      transport's local address and the library's default configuration. */
  datatype Env = Env(
    makeLogDir: Option<Error>,
    openLog: Config -> Result<LocalLog>,
    makeRaftDir: Option<Error>,
    openLogStore: Config -> Option<Error>,
    openStableStore: Option<Error>,
    openSnapshotStore: Option<Error>,
    startRaft: ConsensusConfig -> Option<Error>,
    hasExistingState: Result<bool>,
    bootstrap: (string, string) -> Option<Error>,
    localAddr: string,
    defaults: ConsensusConfig)

  function StatusOf(err: Option<Error>): (st: Status)
    ensures st == Nil <==> err == None
    ensures err.Some? ==> st == Failed(err.value)
  {
    if err.Some? then Failed(err.value) else Nil
  }

  function StepOutcome(env: Env, s: SetupStep): Status
  {
    match s
    case MakeLogDir => StatusOf(env.makeLogDir)
    case OpenLog(c) => if env.openLog(c).Err? then Failed(env.openLog(c).error) else Nil
    case MakeRaftDir => StatusOf(env.makeRaftDir)
    case OpenLogStore(c) => StatusOf(env.openLogStore(c))
    case OpenStableStore => StatusOf(env.openStableStore)
    case OpenSnapshotStore => StatusOf(env.openSnapshotStore)
    case StartRaft(c) => StatusOf(env.startRaft(c))
    case CheckExistingState => if env.hasExistingState.Err? then Failed(env.hasExistingState.error) else Nil
    case BootstrapCluster(id, addr) => StatusOf(env.bootstrap(id, addr))
  }

  function StepOutcomes(env: Env): SetupStep -> Status
  {
    s => StepOutcome(env, s)
  }

  /** `setupLog`'s steps: the directory, then the application log opened
      with the caller's configuration. */
  function LogPlan(config: Config): seq<SetupStep>
  {
    [MakeLogDir, OpenLog(config)]
  }

  /** `setupRaft`'s steps: the directory, the log store with its own
      configuration, the other two stores, consensus with the derived
      configuration, the state check, and the bootstrap when it is called
      for. */
  function RaftPlan(config: Config, env: Env): seq<SetupStep>
  {
    [MakeRaftDir, OpenLogStore(LogStoreConfigOf(config)), OpenStableStore, OpenSnapshotStore,
     StartRaft(ConsensusConfigOf(env.defaults, config.raft)), CheckExistingState]
    + if ShouldBootstrap(config.raft.bootstrap, env.hasExistingState == Ok(true))
      then [BootstrapCluster(config.raft.localID, env.localAddr)] else []
  }

  /** All of `NewDistributedLog`'s steps, in order. */
  function Plan(config: Config, env: Env): (plan: seq<SetupStep>)
    ensures |plan| == if ShouldBootstrap(config.raft.bootstrap, env.hasExistingState == Ok(true)) then 9 else 8
    ensures plan[0] == MakeLogDir && plan[1] == OpenLog(config)
    ensures plan[2] == MakeRaftDir && plan[3] == OpenLogStore(LogStoreConfigOf(config))
    ensures plan[4] == OpenStableStore && plan[5] == OpenSnapshotStore
    ensures plan[6] == StartRaft(ConsensusConfigOf(env.defaults, config.raft))
    ensures plan[7] == CheckExistingState && forall i | 0 <= i < 8 :: !plan[i].BootstrapCluster?
    ensures |plan| == 9 ==> plan[8] == BootstrapCluster(config.raft.localID, env.localAddr)
  {
    LogPlan(config) + RaftPlan(config, env)
  }

  class DistributedLog {
    const config: Config
    var log: Option<LocalLog>
    var raft: Option<Consensus>

    /** `&DistributedLog{config: config}`: no log and no consensus yet. */
    constructor (config: Config)
      ensures this.config == config && log == None && raft == None
    {
      this.config := config;
      log := None;
      raft := None;
    }

    /** `setupLog`: makes the log directory, then opens the application log
        with the caller's configuration. */
    method SetupLog(env: Env) returns (err: Option<Error>, ghost ran: seq<SetupStep>)
      modifies this
      ensures Run(LogPlan(config), StepOutcomes(env)) == (ran, StatusOf(err))
      ensures raft == old(raft)
      ensures err == None ==> env.openLog(config).Ok? && log == Some(env.openLog(config).value)
    {
      ghost var todo := LogPlan(config);
      ran := [];
      assert ran + Run(todo, StepOutcomes(env)).0 == Run(todo, StepOutcomes(env)).0;
      assert todo[0] == MakeLogDir;
      RunNext(LogPlan(config), ran, todo, StepOutcomes(env));
      if env.makeLogDir.Some? {
        return env.makeLogDir, ran + [todo[0]];
      }
      ran, todo := ran + [todo[0]], todo[1..];
      assert todo[0] == OpenLog(config);
      RunNext(LogPlan(config), ran, todo, StepOutcomes(env));
      var appLog := env.openLog(config);
      if appLog.Err? {
        return Some(appLog.error), ran + [todo[0]];
      }
      log := Some(appLog.value);
      ran, todo := ran + [todo[0]], todo[1..];
      assert todo == [] && ran + [] == ran;
      return None, ran;
    }

    /** `setupRaft`: makes the consensus directory, opens the log store with
        the log store's configuration and the other two stores, starts
        consensus with the derived configuration, asks for existing state,
        and bootstraps when that is called for. */
    method SetupRaft(env: Env) returns (err: Option<Error>, ghost ran: seq<SetupStep>)
      modifies this
      ensures Run(RaftPlan(config, env), StepOutcomes(env)) == (ran, StatusOf(err))
      ensures log == old(log)
      ensures err == None ==>
                var raftConfig := ConsensusConfigOf(env.defaults, config.raft);
                && env.startRaft(raftConfig) == None
                && raft == Some(Consensus(raftConfig, LogStoreConfigOf(config)))
    {
      ghost var plan := RaftPlan(config, env);
      ghost var todo := plan;
      ran := [];
      assert ran + Run(todo, StepOutcomes(env)).0 == Run(todo, StepOutcomes(env)).0;
      RunNext(plan, ran, todo, StepOutcomes(env));
      if env.makeRaftDir.Some? {
        return env.makeRaftDir, ran + [todo[0]];
      }
      ran, todo := ran + [todo[0]], todo[1..];
      var logConfig := LogStoreConfig(config);
      assert todo[0] == OpenLogStore(logConfig);
      RunNext(plan, ran, todo, StepOutcomes(env));
      var e := env.openLogStore(logConfig);
      if e.Some? {
        return e, ran + [todo[0]];
      }
      ran, todo := ran + [todo[0]], todo[1..];
      assert todo[0] == OpenStableStore;
      RunNext(plan, ran, todo, StepOutcomes(env));
      if env.openStableStore.Some? {
        return env.openStableStore, ran + [todo[0]];
      }
      ran, todo := ran + [todo[0]], todo[1..];
      assert todo[0] == OpenSnapshotStore;
      RunNext(plan, ran, todo, StepOutcomes(env));
      if env.openSnapshotStore.Some? {
        return env.openSnapshotStore, ran + [todo[0]];
      }
      ran, todo := ran + [todo[0]], todo[1..];
      var raftConfig := ConsensusConfigFrom(env.defaults, config.raft);
      assert todo[0] == StartRaft(raftConfig);
      RunNext(plan, ran, todo, StepOutcomes(env));
      var started := env.startRaft(raftConfig);
      if started.Some? {
        return started, ran + [todo[0]];
      }
      raft := Some(Consensus(raftConfig, logConfig));
      ran, todo := ran + [todo[0]], todo[1..];
      assert todo[0] == CheckExistingState;
      RunNext(plan, ran, todo, StepOutcomes(env));
      var hasState := env.hasExistingState;
      if hasState.Err? {
        return Some(hasState.error), ran + [todo[0]];
      }
      ran, todo := ran + [todo[0]], todo[1..];
      err := None;
      if config.raft.bootstrap && !hasState.value {
        assert todo[0] == BootstrapCluster(config.raft.localID, env.localAddr);
        RunNext(plan, ran, todo, StepOutcomes(env));
        err := env.bootstrap(config.raft.localID, env.localAddr);
        ran, todo := ran + [todo[0]], todo[1..];
        if err.Some? {
          return err, ran;
        }
      }
      assert todo == [] && ran + [] == ran;
      return err, ran;
    }

    /** `apply(reqType, req)`: writes the type byte and then the marshalled
        request into a buffer, proposes the buffer to consensus, and
        classifies the decided future. A marshalling error is returned
        before anything is proposed. `proposed` is the command handed to
        consensus, if any, and `future` is what consensus decided for this
        one proposal. Once decided, the state machine applies the command
        to the application log, which this model does not follow: the
        application log may change, consensus stays the same instance. */
    method Apply<M>(reqType: byte, req: M, marshal: M -> Result<seq<byte>>, future: Future)
      returns (proposed: Option<seq<byte>>, r: Result<Response>)
      requires raft.Some?
      modifies this
      ensures raft == old(raft)
      ensures marshal(req).Err? ==> proposed == None && r == Err(marshal(req).error)
      ensures marshal(req).Ok? ==>
                && proposed == Some(Envelope(reqType, marshal(req).value))
                && r == Classify(future)
    {
      var buf: seq<byte> := [];
      buf := buf + [reqType];
      var b := marshal(req);
      if b.Err? {
        return None, Err(b.error);
      }
      buf := buf + b.value;
      assert buf == Envelope(reqType, b.value);
      return Some(buf), Classify(future);
    }

    /** `Append(record)`: applies a produce request of the record and hands
        back the offset of the response. Any error gives offset 0 with that
        error; a successful response that is not a produce response makes
        the type assertion panic. */
    method Append(record: Record, appendRequestType: byte,
                  marshal: ProduceRequest -> Result<seq<byte>>, future: Future)
      returns (offset: nat, st: Status)
      requires raft.Some?
      modifies this
      ensures raft == old(raft)
      ensures var m := marshal(ProduceRequest(record));
              var r := if m.Err? then Err(m.error) else Classify(future);
              && (r.Err? ==> offset == 0 && st == Failed(r.error))
              && (r.Ok? && r.value.Produced? ==> offset == r.value.offset && st == Nil)
              && (r.Ok? && !r.value.Produced? ==> st == Panicked)
    {
      var _, r := Apply(appendRequestType, ProduceRequest(record), marshal, future);
      if r.Err? {
        return 0, Failed(r.error);
      }
      if !r.value.Produced? {
        return 0, Panicked;
      }
      return r.value.offset, Nil;
    }

    /** `Read(offset)`: what the application log reads at that offset. It
        reads neither the consensus instance nor anything else. */
    function Read(offset: nat): (r: Result<Record>)
      reads this`log
      requires log.Some?
      ensures r == log.value.read(offset)
    {
      log.value.read(offset)
    }
  }


  /** `NewDistributedLog(dataDir, config)`: sets up the application log, then
      consensus, and returns no log with the first error. The steps taken
      and the error are those of running the plan until its first failing
      step; on success the log holds the application log opened with the
      caller's configuration and consensus started with the derived
      configuration over the log store's one. */
  method NewDistributedLog(config: Config, env: Env)
    returns (l: DistributedLog?, err: Option<Error>, ghost ran: seq<SetupStep>)
    ensures Run(Plan(config, env), StepOutcomes(env)) == (ran, StatusOf(err))
    ensures l != null <==> err == None
    ensures l != null ==>
              var raftConfig := ConsensusConfigOf(env.defaults, config.raft);
              && fresh(l) && l.config == config
              && env.openLog(config).Ok? && l.log == Some(env.openLog(config).value)
              && env.startRaft(raftConfig) == None
              && l.raft == Some(Consensus(raftConfig, LogStoreConfigOf(config)))
  {
    var dl := new DistributedLog(config);
    RunConcat(LogPlan(config), RaftPlan(config, env), StepOutcomes(env));
    var e1, ran1 := dl.SetupLog(env);
    if e1.Some? {
      return null, e1, ran1;
    }
    var e2, ran2 := dl.SetupRaft(env);
    if e2.Some? {
      return null, e2, ran1 + ran2;
    }
    return dl, None, ran1 + ran2;
  }

  /** An append is successful exactly when the command was decided without
      error and the state machine answered with a produce response; the
      offset is then that response's offset. */
  lemma AppendSucceedsIff(f: Future)
    ensures Classify(f).Ok? && Classify(f).value.Produced? <==>
              f.error.None? && f.response.Produced?
    ensures f.error.None? && f.response.Produced? ==> Classify(f) == Ok(Produced(f.response.offset))
  {
  }


  /** A cluster is bootstrapped exactly when bootstrapping is asked for,
      the state check found no earlier state, and every step before the
      bootstrap succeeded. */
  lemma BootstrapIff(config: Config, env: Env)
    ensures var plan := Plan(config, env);
            BootstrapCluster(config.raft.localID, env.localAddr) in Run(plan, StepOutcomes(env)).0 <==>
              && config.raft.bootstrap && env.hasExistingState == Ok(false)
              && forall i | 0 <= i < 8 :: StepOutcome(env, plan[i]) == Nil
  {
    BootstrapOnlyIf(config, env);
    BootstrapIf(config, env);
  }

  lemma BootstrapOnlyIf(config: Config, env: Env)
    ensures var plan := Plan(config, env);
            BootstrapCluster(config.raft.localID, env.localAddr) in Run(plan, StepOutcomes(env)).0 ==>
              && config.raft.bootstrap && env.hasExistingState == Ok(false)
              && forall i | 0 <= i < 8 :: StepOutcome(env, plan[i]) == Nil
  {
    var plan := Plan(config, env);
    var b := BootstrapCluster(config.raft.localID, env.localAddr);
    var ran := Run(plan, StepOutcomes(env)).0;
    if b in ran {
      RunStopsAtFirstFailure(plan, StepOutcomes(env));
      var i :| 0 <= i < |ran| && ran[i] == b;
      assert plan[i] == b;
      assert i == 8 && |plan| == 9;
      assert ShouldBootstrap(config.raft.bootstrap, env.hasExistingState == Ok(true));
      forall k | 0 <= k < 8 ensures StepOutcome(env, plan[k]) == Nil {
        assert ran[k] == plan[k];
      }
      assert StepOutcome(env, CheckExistingState) == Nil;
      assert env.hasExistingState.Ok? && env.hasExistingState.value == false;
    }
  }

  lemma BootstrapIf(config: Config, env: Env)
    ensures var plan := Plan(config, env);
            && config.raft.bootstrap && env.hasExistingState == Ok(false)
            && (forall i | 0 <= i < 8 :: StepOutcome(env, plan[i]) == Nil)
            ==> BootstrapCluster(config.raft.localID, env.localAddr) in Run(plan, StepOutcomes(env)).0
  {
    var plan := Plan(config, env);
    var b := BootstrapCluster(config.raft.localID, env.localAddr);
    var ran := Run(plan, StepOutcomes(env)).0;
    if && config.raft.bootstrap && env.hasExistingState == Ok(false)
       && forall i | 0 <= i < 8 :: StepOutcome(env, plan[i]) == Nil
    {
      RunStopsAtFirstFailure(plan, StepOutcomes(env));
      assert |plan| == 9 && plan[8] == b;
      if Run(plan, StepOutcomes(env)).1 != Nil {
        var last := |ran| - 1;
        assert ran[last] == plan[last];
        assert StepOutcome(env, plan[last]) != Nil;
        assert last == 8;
      }
      assert ran[8] == b;
    }
  }
}
