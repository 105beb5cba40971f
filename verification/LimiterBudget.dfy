/** The data limiter's promise (message/limiter.go:13-14): at most the budget is transmitted per
    period. How much the code can really transmit, and when the promise holds. */
module LimiterBudget {
  import opened Calendar
  import opened Broker
  import opened Limiter

  /** Events that start counting afresh: a new period, a configuration, a new process. */
  predicate StartsAfresh(e: Event) {
    e.Tick? || e.Configure? || e.Restart? || e.CrashSending?
  }

  function FreshStarts(es: seq<Event>): nat {
    if es == [] then 0 else (if StartsAfresh(es[0]) then 1 else 0) + FreshStarts(es[1..])
  }

  predicate Limited(a: Account, budget: nat) {
    a.hasBudget && a.budget <= budget && a.count >= 0
  }

  /** The account in force and the one on file are both limited. */
  predicate LimitedSystem(s: System, budget: nat) {
    Limited(s.account, budget) && s.file.Saved? && Limited(s.file.account, budget)
  }

  /** Every configuration sets a budget of at most the given one. */
  predicate Limiting(e: Event, budget: nat) {
    e.Configure? ==> e.conf.defined && 1_000_000 * e.conf.limit <= budget
  }

  predicate AllLimiting(es: seq<Event>, budget: nat) {
    es == [] || (Limiting(es[0], budget) && AllLimiting(es[1..], budget))
  }

  // ---- Saves and new processes ----

  predicate StartsProcess(e: Event) {
    e.Restart? || e.CrashSending?
  }

  /** How the save that an event makes ends; None when it makes none. */
  function SaveMade(s: System, e: Event): Option<SaveOutcome> {
    match e
    case Tick(_, save) => Some(save)
    case Configure(_, _, save) => Some(save)
    case Receive(m, save) => if s.state == UnderBudget && Accepts(s.account, Len(m)) then Some(save) else None
    case _ => None
  }

  function SoundAfter(sound: bool, made: Option<SaveOutcome>): bool {
    if made == Some(Written) then true else if made == Some(Cut) then false else sound
  }

  /** Whenever a process starts, the last save that was not refused has been written. `sound` says
      so of the saves before this run. */
  predicate SavesSound(s: System, es: seq<Event>, sound: bool)
    requires Runs(s, es)
    decreases es
  {
    es == [] ||
    ((StartsProcess(es[0]) ==> sound)
     && SavesSound(Step(s, es[0]), es[1..], SoundAfter(sound, SaveMade(s, es[0]))))
  }

  /** Every process that starts in this run has a budget of at most the given one. */
  predicate ProcessesLimited(s: System, es: seq<Event>, budget: nat)
    requires Runs(s, es)
    decreases es
  {
    es == [] ||
    ((StartsProcess(es[0]) ==> Limited(Step(s, es[0]).account, budget))
     && ProcessesLimited(Step(s, es[0]), es[1..], budget))
  }

  /** The account in force is limited, and the one on file is, or the file is torn. */
  predicate LimitedFor(s: System, budget: nat, sound: bool) {
    && Limited(s.account, budget)
    && (if sound then s.file.Saved? && Limited(s.file.account, budget) else s.file.Torn?)
  }

  lemma StepLimited(s: System, e: Event, budget: nat, sound: bool)
    requires LimitedFor(s, budget, sound) && Enabled(s, e) && Limiting(e, budget)
    ensures StartsProcess(e) ==> (Limited(Step(s, e).account, budget) <==> sound)
    ensures (StartsProcess(e) ==> sound) ==> LimitedFor(Step(s, e), budget, SoundAfter(sound, SaveMade(s, e)))
  {
    hide EnsuredFuture;
  }

  lemma {:induction false} ProcessesLimitedFrom(s: System, es: seq<Event>, budget: nat, sound: bool)
    requires LimitedFor(s, budget, sound) && Runs(s, es) && AllLimiting(es, budget)
    ensures ProcessesLimited(s, es, budget) <==> SavesSound(s, es, sound)
    decreases es
  {
    if es != [] {
      StepLimited(s, es[0], budget, sound);
      hide Step, Limiting, Limited, LimitedFor, SoundAfter;
      if StartsProcess(es[0]) ==> sound {
        ProcessesLimitedFrom(Step(s, es[0]), es[1..], budget, SoundAfter(sound, SaveMade(s, es[0])));
      }
    }
  }

  /** The comment on `Load` says that a failed load means no budget. Over any run, every process
      that starts still has its budget exactly when at each start the last save that was not
      refused has been written; a torn file that a later save repairs does no harm. */
  lemma KeepsBudgetIff(s: System, es: seq<Event>, budget: nat)
    requires LimitedSystem(s, budget) && Runs(s, es) && AllLimiting(es, budget)
    ensures ProcessesLimited(s, es, budget) <==> SavesSound(s, es, true)
  {
    ProcessesLimitedFrom(s, es, budget, true);
  }

  /** Is the last save of this run that was not refused written? */
  function SoundAfterRun(s: System, es: seq<Event>, sound: bool): bool
    requires Runs(s, es)
    decreases es
  {
    if es == [] then sound else SoundAfterRun(Step(s, es[0]), es[1..], SoundAfter(sound, SaveMade(s, es[0])))
  }

  lemma {:induction false} SavesSoundConcat(s: System, a: seq<Event>, b: seq<Event>, sound: bool)
    requires Runs(s, a + b) && Runs(s, a) && Runs(Run(s, a), b)
    ensures SavesSound(s, a + b, sound) <==>
            SavesSound(s, a, sound) && SavesSound(Run(s, a), b, SoundAfterRun(s, a, sound))
    decreases a
  {
    if a == [] {
      assert a + b == b;
    } else {
      assert (a + b)[0] == a[0] && (a + b)[1..] == a[1..] + b;
      hide Step, Enabled, SaveMade, SoundAfter, StartsProcess;
      SavesSoundConcat(Step(s, a[0]), a[1..], b, SoundAfter(sound, SaveMade(s, a[0])));
    }
  }

  // ---- The bound ----

  lemma StepBytes(s: System, e: Event)
    requires Enabled(s, e)
    ensures var t := Step(s, e);
            || (t.out == s.out && (!StartsAfresh(e) ==> t.account == s.account))
            || ((e.Receive? || e.CrashSending?)
                && Accepts(s.account, Len(e.m)) && Total(t.out) == Total(s.out) + Len(e.m)
                && (e.Receive? ==> t.account.count == s.account.count + Len(e.m)))
  {
    hide EnsuredFuture;
    if e.Receive? || e.CrashSending? {
      TotalPush(s.out, e.m);
    }
  }

  /** One budget for the stretch at the beginning and one for each fresh start. */
  function Allowed(freshStarts: nat, budget: nat): nat {
    (freshStarts + 1) * budget
  }

  lemma AllowedFirst(budget: nat)
    ensures Allowed(0, budget) == budget
  {
  }

  lemma AllowedNext(n: nat, budget: nat)
    ensures Allowed(n + 1, budget) == Allowed(n, budget) + budget
  {
  }

  lemma LimitedForMeans(s: System, budget: nat, sound: bool)
    requires LimitedFor(s, budget, sound)
    ensures Limited(s.account, budget)
  {
  }

  /** A run from a state whose current stretch has sent g bytes sends at most one budget for this
      stretch and one for each fresh start. */
  lemma {:induction false} StretchBound(s: System, es: seq<Event>, budget: nat, sound: bool, g: nat)
    requires LimitedFor(s, budget, sound) && Runs(s, es) && AllLimiting(es, budget) && SavesSound(s, es, sound)
    requires g <= s.account.count && g <= budget
    ensures Total(Run(s, es).out) + g <= Total(s.out) + Allowed(FreshStarts(es), budget)
    decreases es
  {
    hide Step, Limiting, LimitedFor, SaveMade, SoundAfter, StartsProcess, Allowed;
    if es == [] {
      AllowedFirst(budget);
    } else {
      var e := es[0];
      var t := Step(s, e);
      StepLimited(s, e, budget, sound);
      StepBytes(s, e);
      LimitedForMeans(s, budget, sound);
      var sound' := SoundAfter(sound, SaveMade(s, e));
      LimitedForMeans(t, budget, sound');
      var n := Total(t.out) - Total(s.out);
      if StartsAfresh(e) {
        StretchBound(t, es[1..], budget, sound', 0);
        AllowedNext(FreshStarts(es[1..]), budget);
        assert n + g <= budget;
      } else {
        assert t.out != s.out ==> e.Receive?;
        assert t.account.count == s.account.count + n;
        StretchBound(t, es[1..], budget, sound', g + n);
      }
    }
  }

  /** The bound on whole runs: periods, configurations, crashes, restarts, refused saves and cut
      saves that are repaired before the next start, in any order, transmit at most one budget more
      than there are fresh starts. */
  lemma RunBound(s: System, es: seq<Event>, budget: nat)
    requires LimitedSystem(s, budget) && Runs(s, es) && AllLimiting(es, budget) && SavesSound(s, es, true)
    ensures Total(Run(s, es).out) - Total(s.out) <= Allowed(FreshStarts(es), budget)
  {
    StretchBound(s, es, budget, true, 0);
  }

  // ---- The bound is reached ----

  /** `setBudget`: the bytes of a budget in megabytes. */
  function Bytes(megabytes: nat): nat {
    1_000_000 * megabytes
  }

  function Big(n: nat): (m: Message)
    ensures Len(m) == n
  {
    Message("", PROFILE, Some(seq(n, _ => 0)), None)
  }

  function Configurations(es: seq<Event>): nat {
    if es == [] then 0 else (if es[0].Configure? then 1 else 0) + Configurations(es[1..])
  }

  function Restarts(es: seq<Event>): nat {
    if es == [] then 0 else (if es[0].Restart? || es[0].CrashSending? then 1 else 0) + Restarts(es[1..])
  }

  function Ticks(es: seq<Event>): nat {
    if es == [] then 0 else (if es[0].Tick? then 1 else 0) + Ticks(es[1..])
  }

  /** Does this event leave the period end where it is? A tick does when the period end is not before
      now, because the clock was set back or the timer fires on the instant; a configuration does
      when its billing day gives the same period end. */
  predicate StaysInPeriod(s: System, e: Event) {
    && (e.Tick? ==> !Before(s.account.periodEnd, e.now))
    && (e.Configure? ==> AppliedPeriodEnd(e.conf.date, e.now) == s.account.periodEnd)
  }

  predicate SamePeriod(s: System, es: seq<Event>)
    requires Runs(s, es)
    decreases es
  {
    es == [] || (StaysInPeriod(s, es[0]) && SamePeriod(Step(s, es[0]), es[1..]))
  }

  lemma {:induction false} FreshStartsByKind(es: seq<Event>)
    ensures FreshStarts(es) == Configurations(es) + Restarts(es) + Ticks(es)
  {
    if es != [] {
      FreshStartsByKind(es[1..]);
    }
  }

  /** A limiter just reset to a budget of the given number of megabytes, and saved. */
  predicate JustReset(s: System, megabytes: nat) {
    && s.state == Initial && s.file == Saved(s.account)
    && s.account.hasBudget && s.account.budget == Bytes(megabytes) && s.account.count == 0
  }

  /** The numbers of configurations, of restarts and of ticks within the period. */
  datatype Counts = Counts(configurations: nat, restarts: nat, ticks: nat)

  function Sum(n: Counts): nat {
    n.configurations + n.restarts + n.ticks
  }

  /** The same configuration again, on the last instant of the period. */
  function Poll(megabytes: nat, end: Time): (e: Event)
    ensures e.Configure?
  {
    Configure(CellularConfig(end.day, true, megabytes), end, Written)
  }

  lemma SameEnd(end: Time)
    requires end.nano == 0
    ensures AppliedPeriodEnd(end.day, end) == end
  {
  }

  /** A run inside one period with the given counts. */
  predicate InPeriod(s: System, es: seq<Event>, budget: nat, n: Counts) {
    && Runs(s, es) && AllLimiting(es, budget) && SavesSound(s, es, true) && SamePeriod(s, es)
    && Configurations(es) == n.configurations && Restarts(es) == n.restarts && Ticks(es) == n.ticks
  }

  /** A run inside one period that sends the given bytes. */
  predicate Sends(s: System, es: seq<Event>, budget: nat, n: Counts, bytes: nat) {
    InPeriod(s, es, budget, n) && Total(Run(s, es).out) == bytes
  }

  function Counted(n: Counts, e: Event): Counts {
    Counts(n.configurations + (if e.Configure? then 1 else 0), n.restarts + (if StartsProcess(e) then 1 else 0),
           n.ticks + (if e.Tick? then 1 else 0))
  }

  /** Limiting events of the same period whose save, if any, is written. */
  predicate Orderly(s: System, e: Event, budget: nat) {
    && Enabled(s, e) && Limiting(e, budget)
    && StaysInPeriod(s, e) && SoundAfter(true, SaveMade(s, e))
  }

  lemma Prepend(s: System, e: Event, rest: seq<Event>, budget: nat, n: Counts, bytes: nat)
    requires Orderly(s, e, budget) && Sends(Step(s, e), rest, budget, n, bytes)
    ensures Sends(s, [e] + rest, budget, Counted(n, e), bytes)
  {
    hide Step, Enabled, Limiting, StaysInPeriod, SaveMade, SoundAfter;
    assert ([e] + rest)[1..] == rest;
  }

  lemma PrependTwo(s: System, e: Event, rest: seq<Event>, budget: nat, n: Counts, bytes: nat)
    requires Orderly(s, Proceed, budget) && Orderly(Step(s, Proceed), e, budget)
    requires Sends(Step(Step(s, Proceed), e), rest, budget, n, bytes)
    ensures Sends(s, [Proceed] + ([e] + rest), budget, Counted(n, e), bytes)
  {
    assert Counted(Counted(n, e), Proceed) == Counted(n, e);
    assert Enabled(s, Proceed);
    hide *;
    Prepend(Step(s, Proceed), e, rest, budget, n, bytes);
    Prepend(s, Proceed, [e] + rest, budget, Counted(n, e), bytes);
  }

  /** What a limiter does that is just reset again after an event, having sent one message in all. */
  predicate ResetAgain(s: System, t: System, megabytes: nat) {
    t.out == s.out + [Big(Bytes(megabytes))] && JustReset(t, megabytes) && t.account.periodEnd == s.account.periodEnd
  }

  /** A message of exactly the budget passes a limiter just reset; a crash, a configuration or a
      tick of the same period then leaves it just reset again. */
  lemma BigPasses(s: System, megabytes: nat)
    requires JustReset(s, megabytes)
    ensures var b := Bytes(megabytes);
            var crash, receive := CrashSending(Big(b)), Receive(Big(b), Written);
            var end := s.account.periodEnd;
            var tick, poll := Tick(end, Written), Poll(megabytes, end);
            var s1 := Step(s, Proceed);
            && Enabled(s, Proceed) && Orderly(s, Proceed, b)
            && Enabled(s1, crash) && Orderly(s1, crash, b) && Enabled(s1, receive) && Orderly(s1, receive, b)
            && ResetAgain(s, Step(s1, crash), megabytes)
            && (var s2 := Step(s1, receive);
                && s2.out == s.out + [Big(b)]
                && Enabled(s2, tick) && Orderly(s2, tick, b) && ResetAgain(s, Step(s2, tick), megabytes)
                && Enabled(s2, poll)
                && (end.nano == 0 ==> Orderly(s2, poll, b) && ResetAgain(s, Step(s2, poll), megabytes)))
  {
    if s.account.periodEnd.nano == 0 {
      SameEnd(s.account.periodEnd);
    }
    hide AppliedPeriodEnd;
  }

  function Budgets(n: nat, budget: nat): nat {
    if n == 0 then 0 else Budgets(n - 1, budget) + budget
  }

  lemma {:induction false} BudgetsIsProduct(n: nat, budget: nat)
    ensures Budgets(n, budget) == n * budget
  {
    if n > 0 {
      BudgetsIsProduct(n - 1, budget);
      assert n * budget == (n - 1) * budget + budget;
    }
  }

  /** Two steps that lead a limiter just reset to one just reset again, after a message. */
  lemma PrependThree(s: System, e: Event, f: Event, rest: seq<Event>, budget: nat, n: Counts, bytes: nat)
    requires Orderly(s, Proceed, budget) && Orderly(Step(s, Proceed), e, budget) && e.Receive?
    requires Orderly(Step(Step(s, Proceed), e), f, budget)
    requires Sends(Step(Step(Step(s, Proceed), e), f), rest, budget, n, bytes)
    ensures Sends(s, [Proceed] + ([e] + ([f] + rest)), budget, Counted(n, f), bytes)
  {
    assert Counted(Counted(n, f), e) == Counted(n, f);
    hide *;
    Prepend(Step(Step(s, Proceed), e), f, rest, budget, n, bytes);
    PrependTwo(s, e, [f] + rest, budget, Counted(n, f), bytes);
  }

  lemma SendsNothing(s: System, budget: nat)
    ensures Sends(s, [], budget, Counts(0, 0, 0), Total(s.out))
  {
  }

  ghost predicate CanSend(s: System, megabytes: nat, n: Counts, bytes: nat) {
    exists es: seq<Event> :: Sends(s, es, Bytes(megabytes), n, bytes)
  }

  /** A limiter just reset sends one budget and then continues after a tick, a crash or a configuration. */
  lemma ContinueReset(s: System, f: Event, megabytes: nat, n: Counts, bytes: nat)
    requires JustReset(s, megabytes)
    requires f == Tick(s.account.periodEnd, Written)
             || (f == Poll(megabytes, s.account.periodEnd) && s.account.periodEnd.nano == 0)
    requires var s2 := Step(Step(s, Proceed), Receive(Big(Bytes(megabytes)), Written));
             Enabled(s2, f) && CanSend(Step(s2, f), megabytes, n, bytes)
    ensures CanSend(s, megabytes, Counted(n, f), bytes)
  {
    hide Step, Enabled, Orderly, JustReset, Sends, Total, Big, Poll, Bytes;
    var e := Receive(Big(Bytes(megabytes)), Written);
    BigPasses(s, megabytes);
    var rest: seq<Event> :| Sends(Step(Step(Step(s, Proceed), e), f), rest, Bytes(megabytes), n, bytes);
    PrependThree(s, e, f, rest, Bytes(megabytes), n, bytes);
  }

  lemma ContinueCrashed(s: System, megabytes: nat, n: Counts, bytes: nat)
    requires JustReset(s, megabytes)
    requires var m := Big(Bytes(megabytes));
             Enabled(Step(s, Proceed), CrashSending(m))
             && CanSend(Step(Step(s, Proceed), CrashSending(m)), megabytes, n, bytes)
    ensures CanSend(s, megabytes, n.(restarts := n.restarts + 1), bytes)
  {
    hide Step, Enabled, Orderly, JustReset, Sends, Total, Big, Poll, Bytes;
    var e := CrashSending(Big(Bytes(megabytes)));
    BigPasses(s, megabytes);
    assert Counted(n, e) == n.(restarts := n.restarts + 1);
    var rest: seq<Event> :| Sends(Step(Step(s, Proceed), e), rest, Bytes(megabytes), n, bytes);
    PrependTwo(s, e, rest, Bytes(megabytes), n, bytes);
  }

  lemma EndHere(s: System, megabytes: nat)
    requires JustReset(s, megabytes)
    ensures CanSend(s, megabytes, Counts(0, 0, 0), Total(s.out) + Bytes(megabytes))
  {
    hide Step, Enabled, Orderly, JustReset, Sends, Total, Big, Poll, Bytes;
    var e := Receive(Big(Bytes(megabytes)), Written);
    BigPasses(s, megabytes);
    TotalPush(s.out, Big(Bytes(megabytes)));
    assert Counted(Counts(0, 0, 0), e) == Counts(0, 0, 0);
    var s2 := Step(Step(s, Proceed), e);
    SendsNothing(s2, Bytes(megabytes));
    PrependTwo(s, e, [], Bytes(megabytes), Counts(0, 0, 0), Total(s2.out));
  }

  lemma OneBudgetMore(s: System, t: System, megabytes: nat, k: nat)
    requires ResetAgain(s, t, megabytes)
    ensures JustReset(t, megabytes) && t.account.periodEnd == s.account.periodEnd
    ensures Total(t.out) + Budgets(k, Bytes(megabytes)) == Total(s.out) + Budgets(k + 1, Bytes(megabytes))
  {
    TotalPush(s.out, Big(Bytes(megabytes)));
  }

  lemma CrashStarts(e: Event)
    requires e.CrashSending?
    ensures StartsProcess(e)
  {
  }

  lemma BudgetsOne(budget: nat)
    ensures Budgets(1, budget) == budget
  {
    assert Budgets(0, budget) == 0;
  }

  lemma NoneLeft(n: Counts)
    requires n.ticks == 0 && n.restarts == 0 && n.configurations == 0
    ensures Sum(n) == 0
  {
  }

  lemma OneBudget(n: Counts, budget: nat)
    requires Sum(n) == 0
    ensures n == Counts(0, 0, 0)
    ensures Budgets(Sum(n) + 1, budget) == budget
  {
    hide Budgets;
    BudgetsOne(budget);
  }

  lemma CountedOff(n: Counts, f: Event)
    requires (f.Tick? && n.ticks > 0) || (f.Configure? && n.configurations > 0) || (StartsProcess(f) && n.restarts > 0)
    ensures var fewer := if f.Tick? then n.(ticks := n.ticks - 1)
                         else if f.Configure? then n.(configurations := n.configurations - 1)
                         else n.(restarts := n.restarts - 1);
            Counted(fewer, f) == n && Sum(fewer) + 1 == Sum(n)
  {
  }

  /** The bound is reached: whatever the counts, some run that keeps the period end sends one budget
      more than their sum. Only a period end at midnight can be kept by a configuration. */
  lemma {:induction false} GreedyRun(s: System, megabytes: nat, n: Counts)
    requires JustReset(s, megabytes) && (n.configurations > 0 ==> s.account.periodEnd.nano == 0)
    ensures CanSend(s, megabytes, n, Total(s.out) + Budgets(Sum(n) + 1, Bytes(megabytes)))
    decreases Sum(n)
  {
    hide *;
    BigPasses(s, megabytes);
    var end := s.account.periodEnd;
    var crash, tick, poll := CrashSending(Big(Bytes(megabytes))), Tick(end, Written), Poll(megabytes, end);
    var s1 := Step(s, Proceed);
    var s2 := Step(s1, Receive(Big(Bytes(megabytes)), Written));
    var bytes := Total(s.out) + Budgets(Sum(n) + 1, Bytes(megabytes));
    if n.ticks > 0 {
      CountedOff(n, tick);
      OneBudgetMore(s, Step(s2, tick), megabytes, Sum(n));
      GreedyRun(Step(s2, tick), megabytes, n.(ticks := n.ticks - 1));
      ContinueReset(s, tick, megabytes, n.(ticks := n.ticks - 1), bytes);
    } else if n.restarts > 0 {
      assert StartsProcess(crash) by { CrashStarts(crash); }
      CountedOff(n, crash);
      OneBudgetMore(s, Step(s1, crash), megabytes, Sum(n));
      GreedyRun(Step(s1, crash), megabytes, n.(restarts := n.restarts - 1));
      ContinueCrashed(s, megabytes, n.(restarts := n.restarts - 1), bytes);
    } else if n.configurations > 0 {
      CountedOff(n, poll);
      OneBudgetMore(s, Step(s2, poll), megabytes, Sum(n));
      GreedyRun(Step(s2, poll), megabytes, n.(configurations := n.configurations - 1));
      ContinueReset(s, poll, megabytes, n.(configurations := n.configurations - 1), bytes);
    } else {
      assert Sum(n) == 0 by { NoneLeft(n); }
      OneBudget(n, Bytes(megabytes));
      EndHere(s, megabytes);
    }
  }

  /** The file, unless torn, has the period end of the account. */
  predicate KeepsEnd(s: System, sound: bool) {
    if sound then s.file.Saved? && s.file.account.periodEnd == s.account.periodEnd else s.file.Torn?
  }

  lemma StepKeepsEnd(s: System, e: Event, sound: bool)
    requires KeepsEnd(s, sound) && Enabled(s, e) && StaysInPeriod(s, e) && (StartsProcess(e) ==> sound)
    ensures Step(s, e).account.periodEnd == s.account.periodEnd
    ensures KeepsEnd(Step(s, e), SoundAfter(sound, SaveMade(s, e)))
    ensures e.Configure? ==> s.account.periodEnd.nano == 0
  {
    if e.Configure? {
      AppliedAtMidnight(e.conf.date, e.now);
    }
    hide AppliedPeriodEnd;
  }

  /** The period end stays what it is over a whole run inside a period, and when it is not at midnight
      no configuration arrives. */
  lemma {:induction false} PeriodEndKept(s: System, es: seq<Event>, sound: bool)
    requires KeepsEnd(s, sound) && Runs(s, es) && SavesSound(s, es, sound) && SamePeriod(s, es)
    ensures Run(s, es).account.periodEnd == s.account.periodEnd
    ensures s.account.periodEnd.nano != 0 ==> Configurations(es) == 0
    decreases es
  {
    if es != [] {
      StepKeepsEnd(s, es[0], sound);
      hide Step, KeepsEnd, StaysInPeriod, SaveMade, SoundAfter;
      PeriodEndKept(Step(s, es[0]), es[1..], SoundAfter(sound, SaveMade(s, es[0])));
    }
  }

  /** Did this run transmit at most the budget? */
  predicate KeepsPromise(s: System, es: seq<Event>, megabytes: nat) {
    Runs(s, es) ==> Total(Run(s, es).out) - Total(s.out) <= Bytes(megabytes)
  }

  /** The promise of one budget per period, from every reset limiter: it holds for all runs that keep
      the period end exactly when no configuration arrives in them, no process starts in them and no
      timer fires in them, because `apply` and `startThisPeriod` reset the count even when the period
      stays the same, and a crash can forget a message. (A configuration cannot arrive at all when
      the period end in force is not at midnight, where each of them puts it.) */
  lemma PeriodPromiseIff(s: System, megabytes: nat, n: Counts)
    requires megabytes > 0 && JustReset(s, megabytes)
    ensures (forall es: seq<Event> :: InPeriod(s, es, Bytes(megabytes), n) ==> KeepsPromise(s, es, megabytes))
            <==> n == Counts(0, 0, 0) || (n.configurations > 0 && s.account.periodEnd.nano != 0)
  {
    var b := Bytes(megabytes);
    if n == Counts(0, 0, 0) {
      forall es: seq<Event> | InPeriod(s, es, b, n)
        ensures KeepsPromise(s, es, megabytes)
      {
        RunBound(s, es, b);
        FreshStartsByKind(es);
      }
    } else if n.configurations > 0 && s.account.periodEnd.nano != 0 {
      forall es: seq<Event> | InPeriod(s, es, b, n)
        ensures false
      {
        PeriodEndKept(s, es, true);
      }
    } else {
      BudgetsIsProduct(Sum(n) + 1, b);
      GreedyRun(s, megabytes, n);
      var es: seq<Event> :| Sends(s, es, b, n, Total(s.out) + Budgets(Sum(n) + 1, b));
      assert (Sum(n) + 1) * b > b;
      assert !KeepsPromise(s, es, megabytes);
    }
  }

  /** An atomic save is needed: when one save is cut off, the next process finds no snapshot, so
      it has no budget and sends whatever it receives. */
  lemma CutSaveLosesBudget(s: System, m: Message, big: Message)
    requires s.state == UnderBudget && Accepts(s.account, Len(m))
    ensures var es := [Receive(m, Cut), Restart, Proceed, Receive(big, Written)];
            Runs(s, es) && !Run(s, es).account.hasBudget && Run(s, es).out == s.out + [m] + [big]
  {
    var es := [Receive(m, Cut), Restart, Proceed, Receive(big, Written)];
    var s1 := Step(s, es[0]);
    var s2 := Step(s1, es[1]);
    var s3 := Step(s2, es[2]);
    var s4 := Step(s3, es[3]);
    assert es[1..][1..] == es[2..] && es[2..][1..] == es[3..] && es[3..][1..] == [];
    assert Runs(s3, es[3..]) && Run(s3, es[3..]) == s4;
    assert Runs(s2, es[2..]) && Run(s2, es[2..]) == s4;
    assert Runs(s1, es[1..]) && Run(s1, es[1..]) == s4;
  }
}
