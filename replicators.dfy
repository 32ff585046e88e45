/** Membership bookkeeping of the replicator (internal/log/replicators.go):
    a map from peer name to that peer's private leave signal, a `closed` flag
    and a global close signal. Every public method takes the replicator's one
    mutex for its whole body, so the methods below run one at a time. The
    replicate goroutine itself (dialling the peer, streaming records into the
    local server) is outside the model; starting it is recorded as a `Loop`. */
module Replicators {
  import opened Wrappers
  import opened Channels

  /** One `go r.replicate(addr, leave)`: a replication loop started for the
      peer `name`, which stops when `leave` (or the global close) is closed. */
  datatype Loop = Loop(name: string, addr: string, leave: Signal)

  class Replicator {
    /** `servers`; `None` is Go's nil map (reads as empty, cannot be written). */
    var servers: Option<map<string, Signal>>
    var closed: bool
    /** `close`; null is Go's nil channel. */
    var close: Signal?
    /** `logger`: the name of the logger once `init` has set it. */
    var logger: Option<string>
    /** Every replication loop started so far, oldest first. */
    var loops: seq<Loop>
    /** Every signal this replicator has made. */
    ghost var Repr: set<Signal>

    /** The map as Go reads it: a nil map has no entries. */
    function Servers(): map<string, Signal>
      reads this`servers
    {
      if servers.Some? then servers.value else map[]
    }

    /** True once `init` has filled every nil field. */
    predicate Initialized()
      reads this
    {
      servers.Some? && close != null && logger.Some?
    }

    /** Of two loops started for the same peer, the older one has been told to
        leave: at most one loop per peer is ever still listening. */
    ghost predicate OneLoopPerName()
      reads this, Repr
      requires forall i | 0 <= i < |loops| :: loops[i].leave in Repr
    {
      forall i, j | 0 <= i < j < |loops| && loops[i].name == loops[j].name :: loops[i].leave.closed
    }

    ghost predicate Valid()
      reads this, Repr
    {
      // every stored leave signal is one of ours, still open, and owned by one peer
      && (forall n | n in Servers() :: Servers()[n] in Repr && !Servers()[n].closed)
      && (forall n, m | n in Servers() && m in Servers() && n != m :: Servers()[n] != Servers()[m])
      // the global close signal is never a peer's leave signal
      && (close != null ==> close in Repr && forall n | n in Servers() :: Servers()[n] != close)
      // `closed` is set exactly when the global signal has been closed
      && (closed ==> Initialized() && close.closed)
      && (!closed && close != null ==> !close.closed)
      // every started loop listens on its own signal; a loop not yet told to
      // leave is the one the map holds for its peer
      && (forall i | 0 <= i < |loops| :: loops[i].leave in Repr)
      && (forall i, j | 0 <= i < j < |loops| :: loops[i].leave != loops[j].leave)
      && (forall i | 0 <= i < |loops| && !loops[i].leave.closed ::
            loops[i].name in Servers() && Servers()[loops[i].name] == loops[i].leave)
      && OneLoopPerName()
    }

    /** The zero value `Replicator{}`: nil map, nil channel, not closed. */
    constructor ()
      ensures Valid() && fresh(Repr)
      ensures servers == None && close == null && logger == None
      ensures !closed && loops == []
    {
      servers := None;
      closed := false;
      close := null;
      logger := None;
      loops := [];
      Repr := {};
    }

    /** `init`: fills the nil fields and never replaces a field already set,
        so calling it on an initialized replicator changes nothing. */
    method Init()
      requires Valid()
      modifies this
      ensures Valid() && Initialized() && fresh(Repr - old(Repr))
      ensures old(Initialized()) ==> unchanged(this)
      ensures old(servers).Some? ==> servers == old(servers)
      ensures old(servers).None? ==> servers == Some(map[])
      ensures old(close) != null ==> close == old(close)
      ensures old(close) == null ==> fresh(close) && !close.closed
      ensures old(logger).Some? ==> logger == old(logger)
      ensures old(logger).None? ==> logger == Some("replicator")
      ensures Servers() == old(Servers()) && closed == old(closed) && loops == old(loops)
    {
      if logger.None? {
        logger := Some("replicator");
      }
      if servers.None? {
        servers := Some(map[]);
      }
      if close == null {
        var c := new Signal();
        close := c;
        Repr := Repr + {c};
      }
    }

    /** `Join(name, addr)`: starts replicating from a peer unless the
        replicator is closed or already replicates that peer. Always nil. */
    method Join(name: string, addr: string) returns (err: Option<Error>)
      requires Valid()
      modifies this
      ensures Valid() && Initialized() && fresh(Repr - old(Repr))
      ensures err == None
      ensures closed == old(closed) && (old(close) != null ==> close == old(close))
      ensures old(close) == null ==> fresh(close)
      ensures old(closed) || name in old(Servers()) ==>
                Servers() == old(Servers()) && loops == old(loops)
      ensures !old(closed) && name !in old(Servers()) ==>
                && name in Servers()
                && fresh(Servers()[name]) && !Servers()[name].closed
                && Servers() == old(Servers())[name := Servers()[name]]
                && loops == old(loops) + [Loop(name, addr, Servers()[name])]
    {
      Init();
      if closed {
        return None;
      }
      if name in servers.value {
        return None;
      }
      StartLoop(name, addr);
      return None;
    }

    /** The two statements that end `Join` for a new peer: store a fresh
        leave signal under its name, and start its replication loop. */
    method StartLoop(name: string, addr: string)
      requires Valid() && Initialized() && !closed && name !in Servers()
      modifies this
      ensures Valid() && Initialized() && fresh(Repr - old(Repr))
      ensures closed == old(closed) && close == old(close) && logger == old(logger)
      ensures name in Servers() && fresh(Servers()[name]) && !Servers()[name].closed
      ensures Servers() == old(Servers())[name := Servers()[name]]
      ensures loops == old(loops) + [Loop(name, addr, Servers()[name])]
    {
      var leave := new Signal();
      servers := Some(servers.value[name := leave]);
      Repr := Repr + {leave};
      loops := loops + [Loop(name, addr, leave)];
    }

    /** `Leave(name)`: tells the peer's loop to stop by closing its leave
        signal, then forgets the peer. A peer not present is ignored. */
    method Leave(name: string) returns (err: Option<Error>)
      requires Valid()
      modifies this, if name in Servers() then {Servers()[name]} else {}
      ensures Valid() && Initialized() && fresh(Repr - old(Repr))
      ensures err == None
      ensures closed == old(closed) && loops == old(loops)
      ensures old(close) != null ==> close == old(close)
      ensures old(close) == null ==> fresh(close)
      ensures name !in old(Servers()) ==> Servers() == old(Servers())
      ensures name in old(Servers()) ==>
                old(Servers())[name].closed && Servers() == old(Servers()) - {name}
    {
      Init();
      if name !in servers.value {
        return None;
      }
      var leave := servers.value[name];
      leave.Close();
      servers := Some(servers.value - {name});
      return None;
    }

    /** `Close()`: the first call marks the replicator closed and closes the
        global signal, which stops every loop; later calls change nothing.
        Peers stay in the map. */
    method Close() returns (err: Option<Error>)
      requires Valid()
      modifies this, close
      ensures Valid() && Initialized() && closed && fresh(Repr - old(Repr))
      ensures err == None
      ensures close.closed
      ensures Servers() == old(Servers()) && loops == old(loops)
      ensures old(close) != null ==> close == old(close)
      ensures old(close) == null ==> fresh(close)
      ensures old(closed) ==> unchanged(this) && unchanged(old(close))
      ensures !old(closed) && old(close) != null ==> !old(close.closed)
    {
      Init();
      if closed {
        return None;
      }
      closed := true;
      close.Close();
      return None;
    }
  }

  /** No two loops for the same peer are both still listening. */
  lemma AtMostOneListeningLoop(r: Replicator, i: nat, j: nat)
    requires r.Valid()
    requires i < |r.loops| && j < |r.loops| && r.loops[i].name == r.loops[j].name
    requires !r.loops[i].leave.closed && !r.loops[j].leave.closed
    ensures i == j
  {
  }

  /** A peer joined before `Close` stays in the map, a second `Join` after
      `Close` starts no loop, and the peer can still leave afterwards: its
      signal is closed once and its entry is removed. Repeating `Leave` and
      `Close` is harmless. */
  method JoinCloseLeave(name: string, addr: string)
    returns (peersAfterClose: set<string>, loopsStarted: nat, signalled: bool, peersAfterLeave: set<string>)
    ensures peersAfterClose == {name} && loopsStarted == 1
    ensures signalled && peersAfterLeave == {}
  {
    var r := new Replicator();
    var _ := r.Join(name, addr);
    assert name in r.Servers();
    var leave := r.Servers()[name];
    var _ := r.Close();
    var _ := r.Join(name, addr);
    assert r.Servers() == map[name := leave];
    peersAfterClose, loopsStarted := r.Servers().Keys, |r.loops|;
    var _ := r.Leave(name);
    var _ := r.Leave(name);
    var _ := r.Close();
    signalled, peersAfterLeave := leave.closed, r.Servers().Keys;
  }
}
