/**
 The data limiter of message/limiter.go as a state machine: the state functions on values,
 and one step of a whole system that also has the snapshot file and process restarts.
 DataLimiter.dfy proves the imperative limiter against these functions.
 */
module Limiter {
  import opened GoInt
  import opened Calendar
  import opened Broker

  /** The exported fields of DataLimiter: what is saved and loaded. */
  datatype Account = Account(budget: int, hasBudget: bool, count: int, periodEnd: Time)

  const NEW_ACCOUNT := Account(0, false, 0, ZERO_TIME)

  datatype State = Terminal | Initial | UnderBudget | OverBudget | Cleanup

  /** The configuration that the backend sends (api/api.go:252-258). */
  datatype CellularConfig = CellularConfig(date: int, defined: bool, limit: int)

  /** The snapshot file of FilePersistor: a save truncates it before it encodes. */
  datatype File = Missing | Torn | Saved(account: Account)

  /** How a save ends: written, refused before the file is touched, or cut off after truncation. */
  datatype SaveOutcome = Written | Refused | Cut

  function Save(f: File, a: Account, outcome: SaveOutcome): File {
    match outcome
    case Written => Saved(a)
    case Refused => f
    case Cut => Torn
  }

  /** A new limiter's account: `Load` leaves the zero value alone when it fails. */
  function Load(f: File): Account {
    if f.Saved? then f.account else NEW_ACCOUNT
  }

  /** `initial`: the state that an account starts from. */
  function Settle(a: Account): State {
    if a.hasBudget && a.count > NineTenths(a.budget) then OverBudget else UnderBudget
  }

  /** `handleMessage`, first branch negated: is a message of n bytes sent? */
  predicate Accepts(a: Account, n: nat) {
    !a.hasBudget || n + a.count <= a.budget
  }

  /** `handleMessage`: the next state once a message of n bytes was sent and the count saved. */
  function AfterSend(a: Account, n: nat, outcome: SaveOutcome): State {
    if a.hasBudget && (n + a.count > NineTenths(a.budget) || outcome != Written) then OverBudget else UnderBudget
  }

  function Charge(a: Account, n: nat): Account {
    a.(count := a.count + n)
  }

  /** `startThisPeriod`, before its save. */
  function NextPeriod(a: Account, now: Time): Account {
    a.(periodEnd := EnsuredFuture(a.periodEnd, now), count := 0)
  }

  /** `apply`, before its save. */
  function Reconfigured(conf: CellularConfig, now: Time): Account {
    Account(1_000_000 * conf.limit, conf.defined, 0, AppliedPeriodEnd(conf.date, now))
  }

  /** A process, its snapshot file, and everything that processes have sent on so far. */
  datatype System = System(account: Account, state: State, file: File, out: seq<Message>)

  /** What can happen to the system. `Proceed` is the step of `initial` and of `cleanup`, which
      wait for nothing. `Restart` is the end of a process, by crash or by exit, and the start of
      the next one. `CrashSending` is a crash after a message was sent and before the count was
      saved. */
  datatype Event =
    | Proceed
    | Tick(now: Time, save: SaveOutcome)
    | Receive(m: Message, save: SaveOutcome)
    | InputClosed
    | Configure(conf: CellularConfig, now: Time, save: SaveOutcome)
    | Restart
    | CrashSending(m: Message)

  predicate Waiting(st: State) {
    st == UnderBudget || st == OverBudget
  }

  predicate Enabled(s: System, e: Event) {
    match e
    case Proceed => s.state == Initial || s.state == Cleanup
    case Tick(_, _) => Waiting(s.state)
    case Receive(_, _) => Waiting(s.state)
    case InputClosed => Waiting(s.state)
    case Configure(_, _, _) => Waiting(s.state)
    case Restart => true
    case CrashSending(m) => s.state == UnderBudget && Accepts(s.account, Len(m))
  }

  /** `handleMessage` on the whole system. */
  function Handle(s: System, m: Message, save: SaveOutcome): System {
    var n := Len(m);
    if !Accepts(s.account, n) then s.(state := OverBudget)
    else
      var a := Charge(s.account, n);
      System(a, AfterSend(s.account, n, save), Save(s.file, a, save), s.out + [m])
  }

  /** A change of account that is saved and sends the machine back to `initial`. */
  function Reset(s: System, a: Account, save: SaveOutcome): System {
    System(a, Initial, Save(s.file, a, save), s.out)
  }

  function NewProcess(f: File, out: seq<Message>): System {
    System(Load(f), Initial, f, out)
  }

  function Step(s: System, e: Event): System
    requires Enabled(s, e)
  {
    match e
    case Proceed => s.(state := if s.state == Cleanup then Terminal else Settle(s.account))
    case Tick(now, save) => Reset(s, NextPeriod(s.account, now), save)
    case Receive(m, save) => if s.state == OverBudget then s else Handle(s, m, save)
    case InputClosed => s.(state := Cleanup)
    case Configure(conf, now, save) => Reset(s, Reconfigured(conf, now), save)
    case Restart => NewProcess(s.file, s.out)
    case CrashSending(m) => NewProcess(s.file, s.out + [m])
  }

  /** Is this sequence of events possible from s? */
  predicate Runs(s: System, es: seq<Event>)
    decreases es
  {
    es == [] || (Enabled(s, es[0]) && Runs(Step(s, es[0]), es[1..]))
  }

  function Run(s: System, es: seq<Event>): System
    requires Runs(s, es)
    decreases es
  {
    if es == [] then s else Run(Step(s, es[0]), es[1..])
  }

  lemma {:induction false} RunConcat(s: System, a: seq<Event>, b: seq<Event>)
    ensures Runs(s, a + b) <==> Runs(s, a) && Runs(Run(s, a), b)
    ensures Runs(s, a + b) ==> Run(s, a + b) == Run(Run(s, a), b)
    decreases a
  {
    if a == [] {
      assert a + b == b;
    } else {
      assert (a + b)[0] == a[0] && (a + b)[1..] == a[1..] + b;
      if Enabled(s, a[0]) {
        RunConcat(Step(s, a[0]), a[1..], b);
      }
    }
  }

  lemma RunSnoc(s: System, es: seq<Event>, e: Event)
    requires Runs(s, es) && Enabled(Run(s, es), e)
    ensures Runs(s, es + [e]) && Run(s, es + [e]) == Step(Run(s, es), e)
  {
    var t := Run(s, es);
    assert [e][1..] == [];
    assert Runs(Step(t, e), []);
    RunConcat(s, es, [e]);
    assert Run(t, [e]) == Run(Step(t, e), []);
  }
}
