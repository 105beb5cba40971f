/**
 The polling of configuration in cmd/client/main.go:361-389: one goroutine that sends each new
 configuration to the store, then to the requester, then to the limiter, over channels of capacity
 one. The requester can end before the others (agent/requester.go:56-60).
 */
module Polling {

  datatype Stage = Waiting | ToPersistor | ToRequester | ToLimiter

  /** Where the goroutine is, what the three channels hold, and whether the requester still receives. */
  datatype State = State(stage: Stage, persistor: nat, requester: nat, limiter: nat, requesterAlive: bool)

  datatype Step =
    | Poll(failed: bool)
    | SendPersistor | SendRequester | SendLimiter
    | TakePersistor | TakeRequester | TakeLimiter
    | RequesterEnds

  predicate Enabled(s: State, st: Step) {
    match st
    case Poll(_) => s.stage == Waiting
    case SendPersistor => s.stage == ToPersistor && s.persistor < 1
    case SendRequester => s.stage == ToRequester && s.requester < 1
    case SendLimiter => s.stage == ToLimiter && s.limiter < 1
    case TakePersistor => s.persistor > 0
    case TakeRequester => s.requester > 0 && s.requesterAlive
    case TakeLimiter => s.limiter > 0
    case RequesterEnds => s.requesterAlive
  }

  function Next(s: State, st: Step): State
    requires Enabled(s, st)
  {
    match st
    case Poll(failed) => if failed then s else s.(stage := ToPersistor)
    case SendPersistor => s.(stage := ToRequester, persistor := s.persistor + 1)
    case SendRequester => s.(stage := ToLimiter, requester := s.requester + 1)
    case SendLimiter => s.(stage := Waiting, limiter := s.limiter + 1)
    case TakePersistor => s.(persistor := s.persistor - 1)
    case TakeRequester => s.(requester := s.requester - 1)
    case TakeLimiter => s.(limiter := s.limiter - 1)
    case RequesterEnds => s.(requesterAlive := false)
  }

  predicate Runs(s: State, steps: seq<Step>)
    decreases steps
  {
    steps == [] || (Enabled(s, steps[0]) && Runs(Next(s, steps[0]), steps[1..]))
  }

  function Run(s: State, steps: seq<Step>): State
    requires Runs(s, steps)
    decreases steps
  {
    if steps == [] then s else Run(Next(s, steps[0]), steps[1..])
  }

  /** How many configurations of this run reach the limiter's channel. */
  function ForLimiter(steps: seq<Step>): nat {
    if steps == [] then 0 else (if steps[0] == SendLimiter then 1 else 0) + ForLimiter(steps[1..])
  }

  function StillPossible(s: State): int {
    1 - s.requester + (if s.stage == ToLimiter then 1 else 0)
  }

  /** Once the requester has ended, its channel is never emptied again: whatever is polled later,
      at most two more configurations reach the limiter, and at most one when the goroutine is
      not just about to send. */
  lemma {:induction false} LimiterStarves(s: State, steps: seq<Step>)
    requires !s.requesterAlive && s.requester <= 1 && Runs(s, steps)
    ensures ForLimiter(steps) <= StillPossible(s)
    decreases steps
  {
    if steps != [] {
      LimiterStarves(Next(s, steps[0]), steps[1..]);
    }
  }

  /** The receivers' half of one poll that passes while the requester lives, before what follows. */
  function Received(rest: seq<Step>): seq<Step> {
    [TakePersistor] + ([TakeRequester] + ([TakeLimiter] + rest))
  }

  function Sent(rest: seq<Step>): seq<Step> {
    [Poll(false)] + ([SendPersistor] + ([SendRequester] + ([SendLimiter] + rest)))
  }

  function Rounds(n: nat): seq<Step> {
    if n == 0 then [] else Sent(Received(Rounds(n - 1)))
  }

  lemma RunsPrepend(s: State, st: Step, rest: seq<Step>)
    requires Enabled(s, st) && Runs(Next(s, st), rest)
    ensures Runs(s, [st] + rest)
    ensures ForLimiter([st] + rest) == (if st == SendLimiter then 1 else 0) + ForLimiter(rest)
  {
    assert ([st] + rest)[1..] == rest;
  }

  lemma ReceivedRuns(rest: seq<Step>)
    requires Runs(State(Waiting, 0, 0, 0, true), rest)
    ensures Runs(State(Waiting, 1, 1, 1, true), Received(rest))
    ensures ForLimiter(Received(rest)) == ForLimiter(rest)
  {
    RunsPrepend(State(Waiting, 0, 0, 1, true), TakeLimiter, rest);
    RunsPrepend(State(Waiting, 0, 1, 1, true), TakeRequester, [TakeLimiter] + rest);
    hide Runs, ForLimiter;
    RunsPrepend(State(Waiting, 1, 1, 1, true), TakePersistor, [TakeRequester] + ([TakeLimiter] + rest));
  }

  lemma SentRuns(rest: seq<Step>)
    requires Runs(State(Waiting, 1, 1, 1, true), rest)
    ensures Runs(State(Waiting, 0, 0, 0, true), Sent(rest))
    ensures ForLimiter(Sent(rest)) == 1 + ForLimiter(rest)
  {
    hide Runs, ForLimiter;
    RunsPrepend(State(ToLimiter, 1, 1, 0, true), SendLimiter, rest);
    RunsPrepend(State(ToRequester, 1, 0, 0, true), SendRequester, [SendLimiter] + rest);
    RunsPrepend(State(ToPersistor, 0, 0, 0, true), SendPersistor, [SendRequester] + ([SendLimiter] + rest));
    RunsPrepend(State(Waiting, 0, 0, 0, true), Poll(false),
                [SendPersistor] + ([SendRequester] + ([SendLimiter] + rest)));
  }

  lemma {:induction false} AnyNumberWhileAlive(n: nat)
    ensures Runs(State(Waiting, 0, 0, 0, true), Rounds(n))
    ensures ForLimiter(Rounds(n)) == n
    decreases n
  {
    if n > 0 {
      AnyNumberWhileAlive(n - 1);
      hide Runs, ForLimiter;
      ReceivedRuns(Rounds(n - 1));
      SentRuns(Received(Rounds(n - 1)));
    }
  }

  /** Some run from s brings n configurations to the limiter. */
  ghost predicate CanReach(s: State, n: nat) {
    exists steps: seq<Step> :: Runs(s, steps) && ForLimiter(steps) >= n
  }

  lemma CanReachBefore(s: State, st: Step, n: nat)
    requires Enabled(s, st) && CanReach(Next(s, st), n)
    ensures CanReach(s, n)
  {
    var steps: seq<Step> :| Runs(Next(s, st), steps) && ForLimiter(steps) >= n;
    hide Runs, ForLimiter, Enabled, Next;
    RunsPrepend(s, st, steps);
    assert Runs(s, [st] + steps) && ForLimiter([st] + steps) >= n;
  }

  /** No channel holds more than its capacity. */
  predicate WithinCapacity(s: State) {
    s.persistor <= 1 && s.requester <= 1 && s.limiter <= 1
  }

  function SendsLeft(stage: Stage): nat {
    match stage case Waiting => 0 case ToLimiter => 1 case ToRequester => 2 case ToPersistor => 3
  }

  lemma CanReachBy(s: State, steps: seq<Step>)
    requires Runs(s, steps)
    ensures CanReach(s, ForLimiter(steps))
  {
  }

  /** With the requester alive the goroutine is never blocked for good: once the receivers have
      emptied the channels it finishes the poll, from any state. */
  lemma {:induction false} FromAnyState(s: State, n: nat)
    requires s.requesterAlive && WithinCapacity(s)
    ensures CanReach(s, n)
    decreases 2 * SendsLeft(s.stage) + s.persistor + s.requester + s.limiter
  {
    hide CanReach;
    if s == State(Waiting, 0, 0, 0, true) {
      AnyNumberWhileAlive(n);
      CanReachBy(s, Rounds(n));
    } else {
      var st := if s.persistor > 0 then TakePersistor
                else if s.requester > 0 then TakeRequester
                else if s.limiter > 0 then TakeLimiter
                else if s.stage == ToPersistor then SendPersistor
                else if s.stage == ToRequester then SendRequester
                else SendLimiter;
      FromAnyState(Next(s, st), n);
      CanReachBefore(s, st, n);
    }
  }

  /** From every state, every number of configurations can still reach the limiter exactly while the
      requester lives: without it no run brings a third one. */
  lemma ReachesLimiterIff(s: State)
    requires WithinCapacity(s)
    ensures (forall n: nat :: CanReach(s, n)) <==> s.requesterAlive
  {
    if s.requesterAlive {
      forall n: nat
        ensures CanReach(s, n)
      {
        FromAnyState(s, n);
      }
    } else {
      forall steps: seq<Step> | Runs(s, steps)
        ensures ForLimiter(steps) < 3
      {
        LimiterStarves(s, steps);
      }
      assert !CanReach(s, 3);
    }
  }
}
