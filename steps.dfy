/** Running a fixed list of fallible steps in order and stopping at the first
    one that does not return nil: the loop shape of the agent's `New` and
    `Shutdown` (internal/agent/agent.go) and, written out step by step, of
    `NewDistributedLog` and `setupRaft` (internal/log/distributed.go). */
module Steps {
  import opened Wrappers

  /** What one step did: returned nil, returned an error, or panicked. */
  datatype Status = Nil | Failed(error: Error) | Panicked

  /** The steps that run, in order, and how the sequence ends: every step runs
      until one does not return Nil; that step is the last one run and its
      status is the status of the whole sequence. */
  function Run<S>(steps: seq<S>, outcome: S -> Status): (seq<S>, Status)
  {
    if steps == [] then ([], Nil)
    else if outcome(steps[0]) != Nil then ([steps[0]], outcome(steps[0]))
    else
      var (rest, st) := Run(steps[1..], outcome);
      ([steps[0]] + rest, st)
  }

  /** Every step that ran did so in the given order (a prefix of the list);
      the sequence ends Nil exactly when every step ran and returned Nil;
      otherwise it ends with the first step that did not, and with its status. */
  lemma {:induction false} RunStopsAtFirstFailure<S>(steps: seq<S>, outcome: S -> Status)
    ensures Run(steps, outcome).0 <= steps
    ensures Run(steps, outcome).1 == Nil <==>
              Run(steps, outcome).0 == steps && forall i | 0 <= i < |steps| :: outcome(steps[i]) == Nil
    ensures Run(steps, outcome).1 != Nil ==>
              var ran := Run(steps, outcome).0;
              && |ran| > 0
              && outcome(ran[|ran| - 1]) == Run(steps, outcome).1
              && forall i | 0 <= i < |ran| - 1 :: outcome(ran[i]) == Nil
  {
    if steps != [] && outcome(steps[0]) == Nil {
      RunStopsAtFirstFailure(steps[1..], outcome);
      var (rest, st) := Run(steps[1..], outcome);
      assert Run(steps, outcome) == ([steps[0]] + rest, st);
      if st == Nil {
        assert steps == [steps[0]] + steps[1..];
        forall i | 0 <= i < |steps| ensures outcome(steps[i]) == Nil {
          if i > 0 { assert steps[i] == steps[1..][i - 1]; }
        }
      } else {
        forall i | 0 <= i < |rest| ensures outcome(([steps[0]] + rest)[i]) == Nil || i == |rest| {
          if 0 < i < |rest| { assert ([steps[0]] + rest)[i] == rest[i - 1]; }
        }
      }
      if forall i | 0 <= i < |steps| :: outcome(steps[i]) == Nil {
        assert forall i | 0 <= i < |steps[1..]| :: outcome(steps[1..][i]) == Nil by {
          forall i | 0 <= i < |steps[1..]| ensures outcome(steps[1..][i]) == Nil {
            assert steps[1..][i] == steps[i + 1];
          }
        }
      }
    }
  }

  /** Running two lists one after the other is running their concatenation:
      the second list starts only when the first ended Nil. */
  lemma {:induction false} RunConcat<S>(first: seq<S>, second: seq<S>, outcome: S -> Status)
    ensures Run(first + second, outcome) ==
              if Run(first, outcome).1 != Nil then Run(first, outcome)
              else (Run(first, outcome).0 + Run(second, outcome).0, Run(second, outcome).1)
  {
    if first == [] {
      assert first + second == second && [] + Run(second, outcome).0 == Run(second, outcome).0;
    } else {
      assert (first + second)[0] == first[0];
      assert (first + second)[1..] == first[1..] + second;
      if outcome(first[0]) == Nil {
        RunConcat(first[1..], second, outcome);
        var (rest, _) := Run(first[1..], outcome);
        assert [first[0]] + (rest + Run(second, outcome).0) == ([first[0]] + rest) + Run(second, outcome).0;
      }
    }
  }

  /** One step of a run written out step by step: when the steps `done` have
      run and returned Nil and `todo` remains, the next step either ends the
      run with its status or joins `done`. */
  lemma RunNext<S>(steps: seq<S>, done: seq<S>, todo: seq<S>, outcome: S -> Status)
    requires todo != []
    requires Run(steps, outcome) == (done + Run(todo, outcome).0, Run(todo, outcome).1)
    ensures outcome(todo[0]) != Nil ==> Run(steps, outcome) == (done + [todo[0]], outcome(todo[0]))
    ensures outcome(todo[0]) == Nil ==>
              Run(steps, outcome) == ((done + [todo[0]]) + Run(todo[1..], outcome).0, Run(todo[1..], outcome).1)
  {
    if outcome(todo[0]) == Nil {
      var rest := Run(todo[1..], outcome).0;
      assert done + ([todo[0]] + rest) == (done + [todo[0]]) + rest;
    }
  }

  /** `for _, fn := range steps { if err := fn(); err != nil { return err } }`,
      reporting which steps ran. */
  method RunInOrder<S>(steps: seq<S>, outcome: S -> Status) returns (ran: seq<S>, st: Status)
    ensures (ran, st) == Run(steps, outcome)
  {
    ran, st := [], Nil;
    var i := 0;
    assert steps[i..] == steps;
    while i < |steps|
      invariant 0 <= i <= |steps|
      invariant ran == steps[..i]
      invariant Run(steps, outcome).0 == ran + Run(steps[i..], outcome).0
      invariant Run(steps, outcome).1 == Run(steps[i..], outcome).1
    {
      assert steps[i..][0] == steps[i] && steps[i..][1..] == steps[i + 1..];
      var s := outcome(steps[i]);
      if s != Nil {
        assert Run(steps[i..], outcome) == ([steps[i]], s);
        ran, st := ran + [steps[i]], s;
        return;
      }
      ran := ran + [steps[i]];
      i := i + 1;
    }
    assert steps[i..] == [] && ran + [] == ran;
  }
}
