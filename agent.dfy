/** The agent (internal/agent/agent.go): one node's wiring of logger, log,
    RPC server, cluster membership and replicator. Each setup and teardown
    step talks to a collaborator outside the model (zap, the log, gRPC, the
    discovery package), so a step is represented only by the status it ends
    with; what the model keeps is the order of the steps, where the sequence
    stops, which agent fields the steps fill in, and the run-once shutdown. */
module Agents {
  import opened Wrappers
  import opened Channels
  import opened Steps
  import opened Net

  /** The agent's `Config`, without the two TLS configurations, which are
      only handed on to gRPC. */
  datatype Config = Config(
    dataDir: string,
    bindAddr: string,
    rpcPort: int,
    nodeName: string,
    startJoinAddrs: seq<string>,
    aclModelFile: string,
    aclModelPolicy: string)

  /** `Config.RPCAddr`: the host of `BindAddr` with the RPC port, or `" "`
      and the splitter's error when `BindAddr` is not a host:port pair. */
  function RPCAddr(c: Config): (r: (string, Option<Error>))
    ensures r.1.Some? <==> SplitHostPort(c.bindAddr).Err?
    ensures r.1.Some? ==> r.0 == " " && r.1.value == SplitHostPort(c.bindAddr).error
  {
    match SplitHostPort(c.bindAddr)
    case Err(e) => (" ", Some(e))
    case Ok((host, _)) => (host + ":" + FormatInt(c.rpcPort), None)
  }

  /** For a bind address whose host holds no colon ("host:port", or a
      bracketed "[host]:port"), the RPC address is an address on the same
      host whose port reads back as `RPCPort`. */
  lemma RPCAddrSameHost(c: Config)
    requires SplitHostPort(c.bindAddr).Ok? && ':' !in SplitHostPort(c.bindAddr).value.0
    ensures RPCAddr(c).1 == None
    ensures SplitHostPort(RPCAddr(c).0) == Ok((SplitHostPort(c.bindAddr).value.0, FormatInt(c.rpcPort)))
    ensures ParseInt(SplitHostPort(RPCAddr(c).0).value.1) == Some(c.rpcPort)
  {
    var host := SplitHostPort(c.bindAddr).value.0;
    assert JoinHostPort(host, FormatInt(c.rpcPort)) == RPCAddr(c).0;
    SplitJoinHostPort(host, FormatInt(c.rpcPort));
    ParseFormatInt(c.rpcPort);
  }

  /** As written, an IPv6 bind address loses its brackets: whenever the
      bind host holds a colon ("[::1]:8400"), the RPC address ("::1:8401")
      no longer splits into a host and a port. */
  lemma RPCAddrDropsIPv6Brackets(c: Config)
    requires SplitHostPort(c.bindAddr).Ok? && ':' in SplitHostPort(c.bindAddr).value.0
    ensures RPCAddr(c).1 == None
    ensures SplitHostPort(RPCAddr(c).0).Err?
  {
    var host := SplitHostPort(c.bindAddr).value.0;
    var a := RPCAddr(c).0;
    assert a == host + ":" + FormatInt(c.rpcPort);
    assert a[|host|] == ':';
    assert forall k | |host| < k < |a| :: a[k] == FormatInt(c.rpcPort)[k - |host| - 1];
    assert LastIndex(a, ':') == |host|;
    assert a[..|host|] == host;
    assert a[0] != '[' by {
      assert a[0] == host[0];
    }
  }

  /** The bind address "[::1]:8400" splits into host "::1" and port "8400". */
  lemma SplitIPv6Loopback()
    ensures SplitHostPort("[::1]:8400") == Ok(("::1", "8400"))
  {
    assert ':' in "::1" && ':' !in "8400";
    assert '[' !in "::1" + "8400" && ']' !in "::1" + "8400";
    assert JoinHostPort("::1", "8400") == "[::1]:8400";
    SplitJoinHostPort("::1", "8400");
  }

  /** `RPCAddr` with the host and port joined by `net.JoinHostPort`. */
  function JoinedRPCAddr(c: Config): (r: (string, Option<Error>))
    ensures r.1.Some? <==> SplitHostPort(c.bindAddr).Err?
    ensures r.1.Some? ==> r.0 == " " && r.1.value == SplitHostPort(c.bindAddr).error
  {
    match SplitHostPort(c.bindAddr)
    case Err(e) => (" ", Some(e))
    case Ok((host, _)) => (JoinHostPort(host, FormatInt(c.rpcPort)), None)
  }

  /** Joined, every bind address that splits, IPv6 literals included, gives
      an RPC address on the same host whose port reads back as `RPCPort`. */
  lemma JoinedRPCAddrSameHost(c: Config)
    requires SplitHostPort(c.bindAddr).Ok?
    ensures JoinedRPCAddr(c).1 == None
    ensures SplitHostPort(JoinedRPCAddr(c).0) == Ok((SplitHostPort(c.bindAddr).value.0, FormatInt(c.rpcPort)))
    ensures ParseInt(SplitHostPort(JoinedRPCAddr(c).0).value.1) == Some(c.rpcPort)
  {
    SplitJoinHostPort(SplitHostPort(c.bindAddr).value.0, FormatInt(c.rpcPort));
    ParseFormatInt(c.rpcPort);
  }

  datatype SetupStep = SetupLogger | SetupLog | SetupServer | SetupMembership
  datatype TeardownStep = LeaveMembership | CloseReplicator | StopServer | CloseLog

  /** The agent fields that hold a component; one not yet present is nil. */
  datatype Component = LogField | ServerField | MembershipField | ReplicatorField

  const SetupOrder: seq<SetupStep> := [SetupLogger, SetupLog, SetupServer, SetupMembership]
  const TeardownOrder: seq<TeardownStep> := [LeaveMembership, CloseReplicator, StopServer, CloseLog]

  /** The fields each setup step assigns, as written: `setupMembership` keeps
      the replicator it builds in a local variable and hands it to the
      membership only, so no step ever sets the replicator field. */
  function AssignsAsWritten(s: SetupStep): (fields: set<Component>)
    ensures ReplicatorField !in fields
    ensures s == SetupLogger <==> fields == {}
  {
    match s
    case SetupLogger => {}
    case SetupLog => {LogField}
    case SetupServer => {ServerField}
    case SetupMembership => {MembershipField}
  }

  /** The fields each setup step assigns once `setupMembership` also stores
      its replicator in the agent. */
  function Assigns(s: SetupStep): set<Component>
  {
    if s == SetupMembership then {MembershipField, ReplicatorField} else AssignsAsWritten(s)
  }

  function AssignedBy(steps: seq<SetupStep>, assigns: SetupStep -> set<Component>): set<Component>
  {
    if steps == [] then {} else assigns(steps[0]) + AssignedBy(steps[1..], assigns)
  }

  /** The field whose method a teardown step calls. */
  function Receiver(t: TeardownStep): Component
  {
    match t
    case LeaveMembership => MembershipField
    case CloseReplicator => ReplicatorField
    case StopServer => ServerField
    case CloseLog => LogField
  }

  /** How one teardown step ends: a method called through a nil field
      panics; `GracefulStop` is wrapped in a function that returns nil;
      `Replicator.Close` always returns nil (see Replicators); leaving the
      membership and closing the log end as those collaborators report. */
  function TeardownOutcome(present: set<Component>, leave: Status, closeLog: Status, t: TeardownStep): (st: Status)
    ensures Receiver(t) !in present ==> st == Panicked
    ensures Receiver(t) in present ==> st != Nil ==>
              (t == LeaveMembership && st == leave) || (t == CloseLog && st == closeLog)
  {
    if Receiver(t) !in present then Panicked
    else match t
      case LeaveMembership => leave
      case CloseLog => closeLog
      case _ => Nil
  }

  /** The teardown outcome of every step. */
  function TeardownOutcomes(present: set<Component>, leave: Status, closeLog: Status): TeardownStep -> Status
  {
    t => TeardownOutcome(present, leave, closeLog, t)
  }

  /** As written, the agent `New` returns has no replicator, so the first
      `Shutdown` returns the membership's error when leaving fails and
      otherwise panics in its second step; the server is never stopped and
      the log never closed. */
  lemma AsWrittenShutdownPanics(leave: Status, closeLog: Status)
    ensures AssignedBy(SetupOrder, AssignsAsWritten) == {LogField, ServerField, MembershipField}
    ensures var present := AssignedBy(SetupOrder, AssignsAsWritten);
            var (ran, st) := Run(TeardownOrder, TeardownOutcomes(present, leave, closeLog));
            && (leave != Nil ==> ran == [LeaveMembership] && st == leave)
            && (leave == Nil ==> ran == [LeaveMembership, CloseReplicator] && st == Panicked)
  {
    assert SetupOrder[1..][1..][1..][1..] == [];
    var f := TeardownOutcomes({LogField, ServerField, MembershipField}, leave, closeLog);
    if leave == Nil {
      assert TeardownOrder[1..] == [CloseReplicator, StopServer, CloseLog];
      assert Run(TeardownOrder[1..], f).1 == Panicked && Run(TeardownOrder[1..], f).0 == [CloseReplicator];
      assert Run(TeardownOrder, f).0 == [LeaveMembership, CloseReplicator];
    }
  }

  /** With the replicator stored, every field a teardown step calls through
      is set, so `Shutdown` returns the first error among leaving the
      membership and closing the log, running exactly the steps up to it,
      and panics only if one of those two collaborators does. */
  lemma ShutdownStopsAtFirstError(leave: Status, closeLog: Status)
    ensures AssignedBy(SetupOrder, Assigns) == {LogField, ServerField, MembershipField, ReplicatorField}
    ensures var present := AssignedBy(SetupOrder, Assigns);
            var (ran, st) := Run(TeardownOrder, TeardownOutcomes(present, leave, closeLog));
            && (leave != Nil ==> ran == [LeaveMembership] && st == leave)
            && (leave == Nil ==> ran == TeardownOrder && st == closeLog)
  {
  }

  /** What an agent has done since it was created, in order. */
  datatype Event = ShutdownsClosed | Ran(step: TeardownStep)

  /** One `Ran` event per step, in order. */
  function RanEvents(steps: seq<TeardownStep>): seq<Event>
  {
    seq(|steps|, i requires 0 <= i < |steps| => Ran(steps[i]))
  }

  class Agent {
    const config: Config
    /** The component fields that are not nil. */
    var present: set<Component>
    var shutdown: bool
    const shutdowns: Signal
    ghost var events: seq<Event>

    /** `shutdown` is set exactly when `shutdowns` has been closed. */
    ghost predicate Valid()
      reads this, shutdowns
    {
      shutdown <==> shutdowns.closed
    }

    /** The literal `&Agent{Config: config, shutdowns: make(chan struct{})}`. */
    constructor (config: Config)
      ensures Valid() && fresh(shutdowns)
      ensures this.config == config && present == {} && !shutdown && events == []
    {
      this.config := config;
      present := {};
      shutdown := false;
      shutdowns := new Signal();
      events := [];
    }

    /** `New`: runs the setup steps in order and returns the agent only when
        all of them succeed; otherwise no agent and the first failure.
        `assigns` gives the fields each setup step fills in:
        `AssignsAsWritten` for the program as written, `Assigns` once
        `setupMembership` also stores its replicator. */
    static method New(config: Config, setup: SetupStep -> Status, assigns: SetupStep -> set<Component>)
      returns (agent: Agent?, st: Status, ran: seq<SetupStep>)
      ensures (ran, st) == Run(SetupOrder, setup)
      ensures agent != null <==> st == Nil
      ensures agent != null ==>
                && fresh(agent) && fresh(agent.shutdowns) && agent.Valid()
                && agent.config == config && !agent.shutdown && agent.events == []
                && agent.present == AssignedBy(SetupOrder, assigns)
    {
      var a := new Agent(config);
      ran, st := RunInOrder(SetupOrder, setup);
      a.present := AssignedBy(ran, assigns);
      if st != Nil {
        return null, st, ran;
      }
      RunStopsAtFirstFailure(SetupOrder, setup);
      agent := a;
    }

    /** `Shutdown`: the first call marks the agent shut down and closes
        `shutdowns` before any teardown step, then runs the teardown steps in
        order until one does not return nil; every later call returns nil
        and does nothing. */
    method Shutdown(leave: Status, closeLog: Status) returns (st: Status)
      requires Valid()
      modifies this, shutdowns
      ensures Valid() && shutdown && present == old(present)
      ensures old(shutdown) ==> st == Nil && events == old(events)
      ensures !old(shutdown) ==>
                var (ran, s) := Run(TeardownOrder, TeardownOutcomes(old(present), leave, closeLog));
                && st == s
                && events == old(events) + [ShutdownsClosed] + RanEvents(ran)
    {
      if shutdown {
        return Nil;
      }
      shutdown := true;
      shutdowns.Close();
      events := events + [ShutdownsClosed];
      var ran;
      ran, st := RunInOrder(TeardownOrder, TeardownOutcomes(present, leave, closeLog));
      events := events + RanEvents(ran);
    }
  }

  /** A setup in which every step returns nil. */
  function AllSucceed(s: SetupStep): Status
  {
    Nil
  }

  /** As written: an agent whose setup succeeded, shut down twice (as the
      test's deferred cleanup does). The first call returns the membership's
      error when leaving fails and otherwise panics at the nil replicator;
      since the flag is set before the teardown and the lock is released by
      a deferred unlock, a second call, once the panic is recovered, returns
      nil. */
  method ShutdownTwiceAsWritten(config: Config, leave: Status, closeLog: Status)
    returns (first: Status, second: Status)
    ensures first == (if leave != Nil then leave else Panicked)
    ensures second == Nil
  {
    var a, st, _ := Agent.New(config, AllSucceed, AssignsAsWritten);
    RunStopsAtFirstFailure(SetupOrder, AllSucceed);
    assert a != null;
    AsWrittenShutdownPanics(leave, closeLog);
    first := a.Shutdown(leave, closeLog);
    ghost var events := a.events;
    second := a.Shutdown(Nil, Nil);
    assert a.events == events;
  }

  /** Corrected: with the replicator stored, shutting down twice runs the
      teardown once; the first call returns the first error among leaving
      the membership and closing the log, the second returns nil and
      records nothing. */
  method ShutdownTwice(config: Config, leave: Status, closeLog: Status)
    returns (first: Status, second: Status)
    ensures first == (if leave != Nil then leave else closeLog)
    ensures second == Nil
  {
    var a, st, _ := Agent.New(config, AllSucceed, Assigns);
    RunStopsAtFirstFailure(SetupOrder, AllSucceed);
    assert a != null;
    ShutdownStopsAtFirstError(leave, closeLog);
    first := a.Shutdown(leave, closeLog);
    ghost var events := a.events;
    second := a.Shutdown(Nil, Nil);
    assert a.events == events;
  }
}
