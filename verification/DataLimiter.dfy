/**
 The imperative data limiter of message/limiter.go with the FilePersistor of
 message/persistor.go. Times, save outcomes and the choices of `select` are parameters; every
 method is proved against the step function of module Limiter, so the theorems of LimiterRuns
 and LimiterBudget are about these methods.
 */
module DataLimiters {
  import opened GoInt
  import opened Calendar
  import opened Broker
  import opened Limiter

  class FilePersistor {
    var file: File

    constructor (f: File)
      ensures file == f
    {
      file := f;
    }

    /** `Save`: true when the error is nil. */
    method Save(a: Account, outcome: SaveOutcome) returns (ok: bool)
      modifies this
      ensures file == Limiter.Save(old(file), a, outcome)
      ensures ok <==> outcome == Written
    {
      match outcome {
        case Written => file := Saved(a);
        case Refused =>
        case Cut => file := Torn;
      }
      return outcome == Written;
    }
  }

  class DataLimiter {
    const store: FilePersistor
    var budget: int
    var hasBudget: bool
    var count: int
    var periodEnd: Time
    var timer: Time            // the period end that the timer waits for
    var out: seq<Message>      // everything sent on the output channel
    var closed: bool           // is the output channel closed?

    function Acct(): Account
      reads this
    {
      Account(budget, hasBudget, count, periodEnd)
    }

    /** The system of module Limiter that this process is, in the given state. */
    function View(st: State): System
      reads this, store
    {
      System(Acct(), st, store.file, out)
    }

    /** `NewDataLimiter`: loads the snapshot, and keeps the zero value when that fails. `sent` is
        what earlier processes sent. */
    constructor (persistor: FilePersistor, sent: seq<Message>)
      ensures store == persistor && !closed
      ensures View(Initial) == NewProcess(persistor.file, sent)
    {
      store := persistor;
      budget, hasBudget, count, periodEnd := 0, false, 0, ZERO_TIME;
      timer := ZERO_TIME;
      out, closed := sent, false;
      new;
      if persistor.file.Saved? {
        var a := persistor.file.account;
        budget, hasBudget, count, periodEnd := a.budget, a.hasBudget, a.count, a.periodEnd;
      }
    }

    /** `initial`: arms the timer and picks the state to wait in. */
    method InitialState() returns (next: State)
      modifies this`timer
      ensures timer == periodEnd
      ensures View(next) == Step(old(View(Initial)), Proceed)
    {
      timer := periodEnd;
      if hasBudget && count > NineTenths(budget) {
        return OverBudget;
      }
      return UnderBudget;
    }

    /** `increment`. */
    method Increment(n: nat, save: SaveOutcome) returns (ok: bool)
      modifies this`count, store
      ensures Acct() == Charge(old(Acct()), n)
      ensures store.file == Limiter.Save(old(store.file), Acct(), save)
      ensures ok <==> save == Written
    {
      count := count + n;
      ok := store.Save(Acct(), save);
    }

    /** `handleMessage`. */
    method HandleMessage(m: Message, save: SaveOutcome) returns (next: State)
      modifies this`count, this`out, store
      ensures View(next) == Handle(old(View(UnderBudget)), m, save)
    {
      var n := Len(m);
      if hasBudget {
        if n + count > budget {
          return OverBudget;
        } else if n + count > NineTenths(budget) {
          out := out + [m];
          var _ := Increment(n, save);
          return OverBudget;
        }
      }
      out := out + [m];
      var ok := Increment(n, save);
      if !ok && hasBudget {
        return OverBudget;
      }
      return UnderBudget;
    }

    /** `startThisPeriod`. */
    method StartThisPeriod(now: Time, save: SaveOutcome)
      modifies this`periodEnd, this`count, store
      ensures forall st :: View(Initial) == Reset(old(View(st)), NextPeriod(old(Acct()), now), save)
      ensures FirstNotBefore(old(periodEnd), now, periodEnd) && count == 0
    {
      FirstIterate(periodEnd, now);
      periodEnd := EnsureFuture(periodEnd, now);
      count := 0;
      var _ := store.Save(Acct(), save);
    }

    /** `apply`. */
    method Apply(conf: CellularConfig, now: Time, save: SaveOutcome) returns (next: State)
      modifies this`periodEnd, this`budget, this`hasBudget, this`count, store
      ensures next == Initial
      ensures forall st :: View(Initial) == Reset(old(View(st)), Reconfigured(conf, now), save)
      ensures FirstNotBefore(Date(now.month, conf.date, 0), now, periodEnd) && count == 0
    {
      FirstIterate(Date(now.month, conf.date, 0), now);
      periodEnd := EnsureFuture(DayThisMonth(conf.date, now), now);
      budget := 1_000_000 * conf.limit;
      hasBudget := conf.defined;
      count := 0;
      var _ := store.Save(Acct(), save);
      return Initial;
    }

    /** One turn of `serve`: the state function of st, with the choice that `select` makes. */
    method Turn(st: State, e: Event) returns (next: State)
      requires Enabled(View(st), e) && !e.Restart? && !e.CrashSending?
      requires !closed
      modifies this, store
      ensures View(next) == Step(old(View(st)), e)
      ensures closed <==> next == Terminal
    {
      match e
      case Proceed =>
        if st == Cleanup {
          closed := true;
          return Terminal;
        }
        next := InitialState();
      case Tick(now, save) =>
        StartThisPeriod(now, save);
        next := Initial;
      case Receive(m, save) =>
        if st == OverBudget {
          return OverBudget;
        }
        next := HandleMessage(m, save);
      case InputClosed =>
        next := Cleanup;
      case Configure(conf, now, save) =>
        next := Apply(conf, now, save);
    }

    /** `serve`: runs the state functions until the terminal state; the events that the
        environment offers are given in advance. */
    method Serve(es: seq<Event>) returns (st: State)
      requires !closed && Runs(View(Initial), es)
      requires forall i :: 0 <= i < |es| ==> !es[i].Restart? && !es[i].CrashSending?
      modifies this, store
      ensures View(st) == Run(old(View(Initial)), es)
      ensures closed <==> st == Terminal
    {
      st := Initial;
      var i := 0;
      ghost var start := View(Initial);
      while i < |es|
        invariant 0 <= i <= |es|
        invariant Runs(View(st), es[i..]) && Run(View(st), es[i..]) == Run(start, es)
        invariant closed <==> st == Terminal
      {
        assert es[i..][0] == es[i] && es[i..][1..] == es[i + 1..];
        st := Turn(st, es[i]);
        i := i + 1;
      }
      assert es[i..] == [];
    }
  }
}
