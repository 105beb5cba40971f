/** What the data limiter keeps over whole runs: messages, timers, configurations, failed saves,
    crashes and restarts in any order. */
module LimiterRuns {
  import opened GoInt
  import opened Calendar
  import opened Broker
  import opened Limiter

  // ---- What timers, configurations and restarts do ----

  /** What is on file after a save of this account. */
  predicate FiledAs(before: File, after: File, a: Account, save: SaveOutcome) {
    && (save == Written ==> after.Saved? && after.account == a)
    && (save == Refused ==> after == before)
    && (save == Cut ==> after == Torn)
  }

  /** The timer: the period end moves on, month by month, to the first one that is not before now, and
      stays when it is not before now already; the count starts again, the budget stays, nothing is
      sent, and a written save stores that account. */
  lemma TickMeans(s: System, now: Time, save: SaveOutcome)
    requires Waiting(s.state)
    ensures var t := Step(s, Tick(now, save));
            var end, end' := s.account.periodEnd, t.account.periodEnd;
            && FirstNotBefore(end, now, end') && (!Before(end, now) ==> end' == end)
            && (end.day <= 28 ==> end'.day == end.day && end'.nano == end.nano)
            && t.account.count == 0
            && t.account.budget == s.account.budget && t.account.hasBudget == s.account.hasBudget
            && t.state == Initial && t.out == s.out && FiledAs(s.file, t.file, t.account, save)
  {
    hide FirstNotBefore, Before;
    var end := s.account.periodEnd;
    assert Step(s, Tick(now, save)).account.periodEnd == EnsuredFuture(end, now);
    hide EnsuredFuture;
    FirstIterate(end, now);
    if end.day <= 28 {
      EnsureFutureClosedForm(end, now);
    }
  }

  /** A configuration: budget and limit are its own, the count starts again, and the period end is the
      first of the months that follow midnight on its day of this month, normalised, that is not
      before now; for days 1 to 28 that falls on the day itself, less than 31 days away. */
  lemma ConfigureMeans(s: System, conf: CellularConfig, now: Time, save: SaveOutcome)
    requires Waiting(s.state)
    ensures var t := Step(s, Configure(conf, now, save));
            var start, end' := Date(now.month, conf.date, 0), t.account.periodEnd;
            && FirstNotBefore(start, now, end') && end'.nano == 0
            && (1 <= conf.date <= 28 ==> end'.day == conf.date && Nanos(end') < Nanos(now) + 31 * NANOS_PER_DAY)
            && t.account.budget == conf.limit * 1_000_000 && (t.account.hasBudget <==> conf.defined)
            && t.account.count == 0
            && t.state == Initial && t.out == s.out && FiledAs(s.file, t.file, t.account, save)
  {
    hide FirstNotBefore, Before, Date, EnsuredFuture;
    assert Step(s, Configure(conf, now, save)).account.periodEnd == EnsuredFuture(Date(now.month, conf.date, 0), now);
    FirstIterate(Date(now.month, conf.date, 0), now);
    AppliedAtMidnight(conf.date, now);
    if 1 <= conf.date <= 28 {
      ApplyOnBillingDay(conf.date, now);
    }
  }

  /** A new process: the account on file, or no budget and a period that ended at midnight on the
      first day of year 1. */
  lemma RestartMeans(s: System)
    ensures var t := Step(s, Restart);
            && t.state == Initial && t.out == s.out && t.file == s.file
            && (s.file.Saved? ==> t.account == s.file.account)
            && (!s.file.Saved? ==>
                  && !t.account.hasBudget && t.account.count == 0
                  && DayNumber(t.account.periodEnd) == DaysBeforeYear(1)
                  && t.account.periodEnd.day == 1 && t.account.periodEnd.nano == 0)
  {
    YearStart(1);
    hide MonthStart, DaysBeforeYear;
  }

  /** The time of the last timer or configuration of the present process, if there was one. */
  function LastReset(es: seq<Event>, before: Option<Time>): Option<Time> {
    if es == [] then before
    else
      var e := es[0];
      LastReset(es[1..], if e.Tick? || e.Configure? then Some(e.now)
                         else if e.Restart? || e.CrashSending? then None else before)
  }

  /** After any run, the period end in force is not before the time at which this process last looked. */
  lemma {:induction false} PeriodEndAhead(s: System, es: seq<Event>, before: Option<Time>)
    requires Runs(s, es) && (before.Some? ==> !Before(s.account.periodEnd, before.value))
    ensures var last := LastReset(es, before);
            last.Some? ==> !Before(Run(s, es).account.periodEnd, last.value)
    decreases es
  {
    if es != [] {
      var e := es[0];
      if e.Tick? {
        TickMeans(s, e.now, e.save);
      } else if e.Configure? {
        ConfigureMeans(s, e.conf, e.now, e.save);
      } else if e.Receive? {
        assert Step(s, e).account.periodEnd == s.account.periodEnd;
      }
      hide EnsuredFuture, AppliedPeriodEnd, Before, Iterate, Date;
      PeriodEndAhead(Step(s, e), es[1..],
                     if e.Tick? || e.Configure? then Some(e.now)
                     else if e.Restart? || e.CrashSending? then None else before);
    }
  }

  // ---- Invariants of every run ----

  /** The limiter drops messages only under a budget, and passes them only below the threshold. */
  predicate Consistent(s: System) {
    && (s.state == OverBudget ==> s.account.hasBudget)
    && (s.state == UnderBudget && s.account.hasBudget ==> s.account.count <= NineTenths(s.account.budget))
  }

  lemma {:induction false} AlwaysConsistent(s: System, es: seq<Event>)
    requires Consistent(s) && Runs(s, es)
    ensures Consistent(Run(s, es))
    decreases es
  {
    if es != [] {
      AlwaysConsistent(Step(s, es[0]), es[1..]);
    }
  }

  /** Events inside one process that neither reset the count nor change the budget. */
  predicate Plain(e: Event) {
    e.Proceed? || e.Receive? || e.InputClosed?
  }

  predicate AllPlain(es: seq<Event>) {
    forall i :: 0 <= i < |es| ==> Plain(es[i])
  }

  lemma PlainStep(s: System, e: Event) returns (sent: seq<Message>)
    requires Enabled(s, e) && Plain(e)
    ensures Step(s, e).out == s.out + sent
    ensures Step(s, e).account == Charge(s.account, Total(sent))
  {
    assert Total([]) == 0;
    if e.Receive? && s.state != OverBudget && Accepts(s.account, Len(e.m)) {
      sent := [e.m];
      TotalOne(e.m);
    } else {
      sent := [];
    }
  }

  lemma {:induction false} PlainRun(s: System, es: seq<Event>) returns (sent: seq<Message>)
    requires Runs(s, es) && AllPlain(es)
    ensures Run(s, es).out == s.out + sent
    ensures Run(s, es).account == Charge(s.account, Total(sent))
    decreases es
  {
    hide Step, Enabled;
    if es == [] {
      sent := [];
      assert s.out + [] == s.out && Total([]) == 0;
    } else {
      var first := PlainStep(s, es[0]);
      assert AllPlain(es[1..]) by {
        forall i | 0 <= i < |es[1..]| ensures Plain(es[1..][i]) { assert es[1..][i] == es[i + 1]; }
      }
      var rest := PlainRun(Step(s, es[0]), es[1..]);
      sent := first + rest;
      assert s.out + first + rest == s.out + sent;
      TotalConcat(first, rest);
    }
  }

  /** Between resets, the count moves by exactly the bytes sent on, whatever saves fail, and
      nothing else in the account moves. */
  lemma CountTracksBytes(s: System, es: seq<Event>)
    requires Runs(s, es) && AllPlain(es)
    ensures var r := Run(s, es);
            && s.out <= r.out
            && r.account == Charge(s.account, Total(r.out[|s.out|..]))
  {
    var sent := PlainRun(s, es);
    assert (s.out + sent)[|s.out|..] == sent;
  }

  // ---- Which messages of an epoch are sent ----

  function Receipts(ms: seq<Message>, saves: seq<SaveOutcome>): (es: seq<Event>)
    requires |ms| == |saves|
    ensures |es| == |ms|
  {
    if ms == [] then []
    else Receipts(ms[..|ms| - 1], saves[..|ms| - 1]) + [Receive(ms[|ms| - 1], saves[|ms| - 1])]
  }

  /** An epoch's j-th message meets no obstacle: the count before it is below the threshold,
      it fits the budget, and the save before it succeeded. */
  predicate Clear(a: Account, ms: seq<Message>, saves: seq<SaveOutcome>, j: nat)
    requires |ms| == |saves| && j < |ms|
  {
    && a.count + Total(ms[..j]) <= NineTenths(a.budget)
    && a.count + Total(ms[..j + 1]) <= a.budget
    && (j > 0 ==> saves[j - 1] == Written)
  }

  /** Is the i-th message received in an epoch sent on? Said with prefix sums only. */
  predicate MaySend(a: Account, ms: seq<Message>, saves: seq<SaveOutcome>, i: nat)
    requires |ms| == |saves| && i < |ms|
  {
    a.hasBudget ==> forall j :: 0 <= j <= i ==> Clear(a, ms, saves, j)
  }

  /** The run that received ms from s ended in t and sent the first p messages. */
  predicate CutAt(s: System, ms: seq<Message>, saves: seq<SaveOutcome>, t: System, p: nat)
    requires |ms| == |saves|
  {
    var a := s.account;
    && p <= |ms|
    && t.out == s.out + ms[..p]
    && t.account == Charge(a, Total(ms[..p]))
    && (t.state == UnderBudget || t.state == OverBudget)
    && (t.state == UnderBudget ==> p == |ms|)
    && (t.state == UnderBudget && a.hasBudget ==>
          && a.count + Total(ms) <= NineTenths(a.budget)
          && (|ms| > 0 ==> saves[|ms| - 1] == Written))
    && (t.state == OverBudget ==>
          && a.hasBudget
          && (|| a.count + Total(ms[..p]) > NineTenths(a.budget)
              || (p > 0 && saves[p - 1] != Written)
              || (p < |ms| && a.count + Total(ms[..p + 1]) > a.budget)))
    && forall i :: 0 <= i < |ms| ==> (i < p <==> MaySend(a, ms, saves, i))
  }

  lemma MaySendPrefix(a: Account, ms: seq<Message>, saves: seq<SaveOutcome>, i: nat)
    requires |ms| == |saves| && i < |ms| - 1
    ensures MaySend(a, ms, saves, i) <==> MaySend(a, ms[..|ms| - 1], saves[..|ms| - 1], i)
  {
    var ms', saves' := ms[..|ms| - 1], saves[..|ms| - 1];
    forall j | 0 <= j <= i
      ensures Clear(a, ms, saves, j) <==> Clear(a, ms', saves', j)
    {
      assert ms[..j] == ms'[..j] && ms[..j + 1] == ms'[..j + 1];
    }
    if MaySend(a, ms, saves, i) && a.hasBudget {
      assert forall j :: 0 <= j <= i ==> Clear(a, ms, saves, j);
    }
    if MaySend(a, ms', saves', i) && a.hasBudget {
      assert forall j :: 0 <= j <= i ==> Clear(a, ms', saves', j);
    }
  }

  lemma CutSent(s: System, ms: seq<Message>, saves: seq<SaveOutcome>, t: System)
    requires |ms| == |saves| > 0 && t.state == UnderBudget && Accepts(t.account, Len(ms[|ms| - 1]))
    requires CutAt(s, ms[..|ms| - 1], saves[..|ms| - 1], t, |ms| - 1)
    ensures CutAt(s, ms, saves, Handle(t, ms[|ms| - 1], saves[|ms| - 1]), |ms|)
  {
    var n := |ms| - 1;
    assert ms[..n] == ms[..n][..n] && ms[..n + 1] == ms;
    assert s.out + ms == (s.out + ms[..n]) + [ms[n]];
    forall i | 0 <= i < n
      ensures MaySend(s.account, ms, saves, i)
    {
      MaySendPrefix(s.account, ms, saves, i);
    }
    if s.account.hasBudget {
      assert Clear(s.account, ms, saves, n);
      assert n > 0 ==> MaySend(s.account, ms, saves, n - 1);
    }
    assert MaySend(s.account, ms, saves, n);
  }

  lemma CutDropped(s: System, ms: seq<Message>, saves: seq<SaveOutcome>, t: System, p: nat)
    requires |ms| == |saves| > 0
    requires t.state == UnderBudget ==> !Accepts(t.account, Len(ms[|ms| - 1]))
    requires CutAt(s, ms[..|ms| - 1], saves[..|ms| - 1], t, p)
    ensures CutAt(s, ms, saves, t.(state := OverBudget), p)
  {
    var n := |ms| - 1;
    assert ms[..n][..p] == ms[..p];
    forall i | 0 <= i < n
      ensures i < p <==> MaySend(s.account, ms, saves, i)
    {
      MaySendPrefix(s.account, ms, saves, i);
    }
    if p < n {
      assert ms[..n][..p + 1] == ms[..p + 1];
      assert !MaySend(s.account, ms, saves, p);
    } else {
      assert ms[..n + 1] == ms;
      assert !Clear(s.account, ms, saves, n);
    }
    assert !MaySend(s.account, ms, saves, n);
  }

  /** How many messages an epoch sends, with the state that it ends in. */
  lemma {:induction false} EpochCut(s: System, ms: seq<Message>, saves: seq<SaveOutcome>) returns (p: nat)
    requires s.state == Initial && |ms| == |saves|
    ensures var es := [Proceed] + Receipts(ms, saves);
            Runs(s, es) && CutAt(s, ms, saves, Run(s, es), p)
    decreases ms
  {
    var es := [Proceed] + Receipts(ms, saves);
    if ms == [] {
      p := 0;
      assert es == [Proceed];
      assert Runs(Step(s, Proceed), es[1..]);
    } else {
      var n := |ms| - 1;
      var before := [Proceed] + Receipts(ms[..n], saves[..n]);
      var q := EpochCut(s, ms[..n], saves[..n]);
      var e := Receive(ms[n], saves[n]);
      var t := Run(s, before);
      assert es == before + [e];
      RunSnoc(s, before, e);
      if t.state == UnderBudget && Accepts(t.account, Len(ms[n])) {
        p := n + 1;
        CutSent(s, ms, saves, t);
      } else {
        p := q;
        CutDropped(s, ms, saves, t, q);
      }
    }
  }

  /** Within one process and one epoch, the messages sent are a prefix of those received, in
      order; the i-th is in it exactly when no prefix sum up to it crosses the threshold or the
      budget and no save before it failed. */
  lemma EpochSendsPrefix(s: System, ms: seq<Message>, saves: seq<SaveOutcome>)
    requires s.state == Initial && |ms| == |saves|
    ensures var es := [Proceed] + Receipts(ms, saves);
            && Runs(s, es)
            && exists p: nat ::
                 && p <= |ms|
                 && Run(s, es).out == s.out + ms[..p]
                 && forall i :: 0 <= i < |ms| ==> (i < p <==> MaySend(s.account, ms, saves, i))
  {
    var p := EpochCut(s, ms, saves);
  }

  /** Without a budget every message is sent, whatever saves fail. */
  lemma UnlimitedSendsAll(s: System, ms: seq<Message>, saves: seq<SaveOutcome>)
    requires s.state == Initial && |ms| == |saves| && !s.account.hasBudget
    ensures var es := [Proceed] + Receipts(ms, saves);
            Runs(s, es) && Run(s, es).out == s.out + ms
  {
    var p := EpochCut(s, ms, saves);
    assert ms[..p] == ms;
  }

  /** Two-sided utilisation: when every message is at most a tenth of the budget and all saves
      succeed, an epoch is over budget exactly when it has sent more than nine tenths of the
      budget, and never more than all of it. */
  lemma Utilisation(s: System, ms: seq<Message>, saves: seq<SaveOutcome>)
    requires s.state == Initial && s.account.hasBudget && s.account.budget >= 0 && s.account.count == 0
    requires |ms| == |saves|
    requires forall i :: 0 <= i < |ms| ==> 10 * Len(ms[i]) <= s.account.budget && saves[i] == Written
    ensures var es := [Proceed] + Receipts(ms, saves);
            && Runs(s, es)
            && s.out <= Run(s, es).out
            && (var sent := Total(Run(s, es).out[|s.out|..]);
                && (Run(s, es).state == OverBudget <==> sent > NineTenths(s.account.budget))
                && sent <= s.account.budget)
  {
    var p := EpochCut(s, ms, saves);
    var r := Run(s, [Proceed] + Receipts(ms, saves));
    assert r.out[|s.out|..] == ms[..p];
    if p > 0 {
      assert MaySend(s.account, ms, saves, p - 1);
      assert Clear(s.account, ms, saves, p - 1);
    } else {
      assert ms[..0] == [];
    }
    if r.state == UnderBudget {
      assert ms[..p] == ms;
    } else if p < |ms| {
      assert ms[..p + 1][..p] == ms[..p] && ms[..p + 1][p] == ms[p];
      assert Total(ms[..p + 1]) == Total(ms[..p]) + Len(ms[p]);
    }
  }

  // ---- Crashes and failed saves in one epoch ----

  /** Events of one epoch, across processes: no timer and no configuration, and saves that are
      atomic (written, or refused before the file is touched). */
  predicate EpochEvent(e: Event) {
    && !e.Tick? && !e.Configure?
    && (e.Receive? ==> e.save != Cut)
  }

  /** A run with its books: the messages sent but lost from the count by crashes, those sent but
      not yet saved, and the number of restarts. */
  datatype Ledger = Ledger(sys: System, lost: seq<Message>, unsaved: seq<Message>, restarts: nat)

  function Book(l: Ledger, e: Event): Ledger
    requires Enabled(l.sys, e)
  {
    var t := Step(l.sys, e);
    match e
    case Restart => Ledger(t, l.lost + l.unsaved, [], l.restarts + 1)
    case CrashSending(m) => Ledger(t, l.lost + l.unsaved + [m], [], l.restarts + 1)
    case Receive(m, save) =>
      Ledger(t, l.lost, if |t.out| == |l.sys.out| then l.unsaved else if save == Written then [] else l.unsaved + [m],
             l.restarts)
    case _ => l.(sys := t)
  }

  function Books(l: Ledger, es: seq<Event>): Ledger
    requires Runs(l.sys, es)
    decreases es
  {
    if es == [] then l else Books(Book(l, es[0]), es[1..])
  }

  predicate Balanced(l: Ledger, sentBefore: nat, budget: nat) {
    var a := l.sys.account;
    && a.hasBudget && a.budget == budget
    && Total(l.unsaved) <= a.count <= budget
    && l.sys.file == Saved(a.(count := a.count - Total(l.unsaved)))
    && Total(l.sys.out) == sentBefore + a.count + Total(l.lost)
    && |l.lost| <= l.restarts
    && (forall i :: 0 <= i < |l.lost| ==> Len(l.lost[i]) <= budget)
    && |l.unsaved| <= 1
    && (l.unsaved != [] ==> l.sys.state != UnderBudget && l.sys.state != Initial)
  }

  lemma TotalSmall(ms: seq<Message>)
    requires |ms| <= 1
    ensures Total(ms) == (if ms == [] then 0 else Len(ms[0]))
  {
    if ms != [] {
      assert ms == [ms[0]];
      TotalOne(ms[0]);
    }
  }

  lemma RestartBalanced(l: Ledger, sentBefore: nat, budget: nat)
    requires Balanced(l, sentBefore, budget)
    ensures Balanced(Book(l, Restart), sentBefore, budget)
  {
    TotalSmall(l.unsaved);
    TotalSmall([]);
    TotalConcat(l.lost, l.unsaved);
  }

  lemma CrashSendingBalanced(l: Ledger, m: Message, sentBefore: nat, budget: nat)
    requires Balanced(l, sentBefore, budget) && Enabled(l.sys, CrashSending(m))
    ensures Balanced(Book(l, CrashSending(m)), sentBefore, budget)
  {
    assert l.lost + l.unsaved + [m] == l.lost + [m];
    TotalPush(l.lost, m);
    TotalPush(l.sys.out, m);
    TotalSmall([]);
  }

  lemma ChargedBalanced(l: Ledger, m: Message, next: State, sentBefore: nat, budget: nat)
    requires Balanced(l, sentBefore, budget) && l.unsaved == []
    requires l.sys.account.count + Len(m) <= budget
    ensures var a := Charge(l.sys.account, Len(m));
            var out := l.sys.out + [m];
            && Balanced(Ledger(System(a, next, Saved(a), out), l.lost, [], l.restarts), sentBefore, budget)
            && Balanced(Ledger(System(a, OverBudget, l.sys.file, out), l.lost, [m], l.restarts), sentBefore, budget)
  {
    TotalPush(l.sys.out, m);
    TotalSmall([]);
    TotalSmall([m]);
    hide Total, Len;
    var a := Charge(l.sys.account, Len(m));
    assert a.(count := a.count - Len(m)) == l.sys.account;
    assert l.sys.account.(count := l.sys.account.count - 0) == l.sys.account;
  }

  lemma SentBalanced(l: Ledger, m: Message, save: SaveOutcome, sentBefore: nat, budget: nat)
    requires Balanced(l, sentBefore, budget) && save != Cut
    requires l.sys.state == UnderBudget && Accepts(l.sys.account, Len(m))
    ensures Balanced(Book(l, Receive(m, save)), sentBefore, budget)
  {
    var a := Charge(l.sys.account, Len(m));
    var next := AfterSend(l.sys.account, Len(m), save);
    var out := l.sys.out + [m];
    var b := Book(l, Receive(m, save));
    assert l.unsaved + [m] == [m];
    ChargedBalanced(l, m, next, sentBefore, budget);
    if save == Written {
      assert b == Ledger(System(a, next, Saved(a), out), l.lost, [], l.restarts);
    } else {
      assert b == Ledger(System(a, OverBudget, l.sys.file, out), l.lost, [m], l.restarts);
    }
    hide *;
  }

  lemma ReceiveBalanced(l: Ledger, m: Message, save: SaveOutcome, sentBefore: nat, budget: nat)
    requires Balanced(l, sentBefore, budget) && Enabled(l.sys, Receive(m, save)) && save != Cut
    ensures Balanced(Book(l, Receive(m, save)), sentBefore, budget)
  {
    if l.sys.state == UnderBudget && Accepts(l.sys.account, Len(m)) {
      SentBalanced(l, m, save, sentBefore, budget);
    } else {
      hide NineTenths, Total, Len;
    }
  }

  lemma BookBalanced(l: Ledger, e: Event, sentBefore: nat, budget: nat)
    requires Balanced(l, sentBefore, budget) && Enabled(l.sys, e) && EpochEvent(e)
    ensures Balanced(Book(l, e), sentBefore, budget)
  {
    match e
    case Restart => RestartBalanced(l, sentBefore, budget);
    case CrashSending(m) => CrashSendingBalanced(l, m, sentBefore, budget);
    case Receive(m, save) => ReceiveBalanced(l, m, save, sentBefore, budget);
    case _ =>
  }

  lemma {:induction false} BooksBalanced(l: Ledger, es: seq<Event>, sentBefore: nat, budget: nat)
    requires Balanced(l, sentBefore, budget) && Runs(l.sys, es)
    requires forall i :: 0 <= i < |es| ==> EpochEvent(es[i])
    ensures Balanced(Books(l, es), sentBefore, budget)
    ensures Books(l, es).sys == Run(l.sys, es)
    decreases es
  {
    if es != [] {
      BookBalanced(l, es[0], sentBefore, budget);
      forall i | 0 <= i < |es[1..]|
        ensures EpochEvent(es[1..][i])
      {
        assert es[1..][i] == es[i + 1];
      }
      BooksBalanced(Book(l, es[0]), es[1..], sentBefore, budget);
    }
  }

  lemma {:induction false} TotalAtMost(ms: seq<Message>, bound: nat)
    requires forall i :: 0 <= i < |ms| ==> Len(ms[i]) <= bound
    ensures Total(ms) <= |ms| * bound
  {
    if ms != [] {
      TotalAtMost(ms[..|ms| - 1], bound);
      assert |ms| * bound == (|ms| - 1) * bound + bound;
    }
  }

  lemma Scale(x: nat, y: nat, k: nat)
    requires x <= y
    ensures x * k <= y * k
  {
  }

  lemma LostBound(lost: seq<Message>, restarts: nat, budget: nat)
    requires |lost| <= restarts && forall i :: 0 <= i < |lost| ==> Len(lost[i]) <= budget
    ensures Total(lost) + budget <= (restarts + 1) * budget
  {
    TotalAtMost(lost, budget);
    Scale(|lost|, restarts, budget);
    assert (restarts + 1) * budget == restarts * budget + budget;
  }

  /** Exact accounting in an epoch that a saved reset started, over any crashes and failed saves:
      the bytes sent are the count plus the bytes lost from it, each restart loses at most one
      message, and with k restarts at most k+1 budgets are sent. */
  lemma EpochAccounting(s: System, es: seq<Event>)
    requires s.state == Initial && s.file == Saved(s.account)
    requires s.account.hasBudget && s.account.budget >= 0 && s.account.count == 0
    requires Runs(s, es) && forall i :: 0 <= i < |es| ==> EpochEvent(es[i])
    ensures var l := Books(Ledger(s, [], [], 0), es);
            && l.sys == Run(s, es)
            && Total(l.sys.out) == Total(s.out) + l.sys.account.count + Total(l.lost)
            && l.sys.account.count <= s.account.budget
            && |l.lost| <= l.restarts
            && Total(l.sys.out) - Total(s.out) <= (l.restarts + 1) * s.account.budget
  {
    var l0 := Ledger(s, [], [], 0);
    BooksBalanced(l0, es, Total(s.out), s.account.budget);
    var l := Books(l0, es);
    LostBound(l.lost, l.restarts, s.account.budget);
    hide Books, Run, Runs, Total;
  }
}
