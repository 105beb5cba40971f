/** The limiter inside the pipeline is the state machine of module Limiter, so its budget bounds
    what reaches the broker. */
module PipelineBudget {
  import opened Broker
  import opened Pipeline
  import A = Agent
  import L = Limiter
  import B = LimiterBudget
  import S = Store

  /** While a message is handed over but not charged, the state machine has not taken it yet. */
  function Settled(s: System): seq<Message> {
    if s.limiter.hold.Charging? && |s.handed| > 0 then s.handed[..|s.handed| - 1] else s.handed
  }

  /** The state machine's view of the pipeline. */
  function View(s: System): L.System {
    L.System(s.limiter.account, if s.limiter.open then s.limiter.state else L.Terminal, s.file, Settled(s))
  }

  /** The limiter is in a waiting state, and a message it holds was accepted and, once charged for,
      is the last one handed over. */
  predicate Coherent(s: System) {
    && L.Waiting(s.limiter.state)
    && (!s.limiter.open ==> s.limiter.hold.Free?)
    && (!s.limiter.hold.Free? ==>
          s.limiter.state == L.UnderBudget && L.Accepts(s.limiter.account, Len(s.limiter.hold.m)))
    && (s.limiter.hold.Charging? ==> |s.handed| > 0 && s.handed[|s.handed| - 1] == s.limiter.hold.m)
  }

  /** The events of the state machine that a step of the pipeline stands for. */
  function Events(s: System, st: Step): seq<L.Event> {
    match st
    case LimiterTake =>
      if s.merger.buf != [] && !(s.limiter.state == L.UnderBudget && L.Accepts(s.limiter.account, Len(s.merger.buf[0])))
      then [L.Receive(s.merger.buf[0], L.Written)] else []
    case LimiterSave(save) => if s.limiter.hold.Charging? then [L.Receive(s.limiter.hold.m, save)] else []
    case LimiterTimer(now, save) => [L.Tick(now, save), L.Proceed]
    case LimiterConfigure(conf, now, save) => [L.Configure(conf, now, save), L.Proceed]
    case LimiterClose => [L.InputClosed, L.Proceed]
    case Restart(_, _, _) =>
      [if s.limiter.hold.Charging? then L.CrashSending(s.limiter.hold.m) else L.Restart, L.Proceed]
    case _ => []
  }

  lemma RunTwo(s: L.System, e: L.Event, f: L.Event)
    requires L.Enabled(s, e) && L.Enabled(L.Step(s, e), f)
    ensures L.Runs(s, [e, f]) && L.Run(s, [e, f]) == L.Step(L.Step(s, e), f)
  {
    hide L.Step, L.Enabled;
    var s1, s2 := L.Step(s, e), L.Step(L.Step(s, e), f);
    assert [e, f][1..] == [f] && [f][1..] == [];
    assert L.Runs(s2, []) && L.Run(s2, []) == s2;
    assert L.Runs(s1, [f]) && L.Run(s1, [f]) == s2;
  }

  lemma RunOne(s: L.System, e: L.Event)
    requires L.Enabled(s, e)
    ensures L.Runs(s, [e]) && L.Run(s, [e]) == L.Step(s, e)
  {
    hide L.Step, L.Enabled;
    assert [e][1..] == [];
    assert L.Runs(L.Step(s, e), []) && L.Run(L.Step(s, e), []) == L.Step(s, e);
  }

  /** Is the step of the pipeline what the events do to the view? */
  ghost predicate Simulates(s: System, st: Step, t: System) {
    && Coherent(t)
    && L.Runs(View(s), Events(s, st))
    && L.Run(View(s), Events(s, st)) == View(t)
  }

  lemma SameLimiter(s: System, st: Step, t: System)
    requires Coherent(s) && Events(s, st) == []
    requires t.limiter == s.limiter && t.file == s.file && t.handed == s.handed
    ensures Simulates(s, st, t)
  {
  }

  lemma TakeSimulates(s: System)
    requires Shape(s) && Coherent(s) && Enabled(s, LimiterTake)
    ensures Simulates(s, LimiterTake, Downstream(s, LimiterTake))
  {
    var m := s.merger.buf[0];
    if Events(s, LimiterTake) != [] {
      RunOne(View(s), L.Receive(m, L.Written));
    }
  }

  lemma GiveSimulates(s: System)
    requires Shape(s) && Coherent(s) && Enabled(s, LimiterGive)
    ensures Simulates(s, LimiterGive, Downstream(s, LimiterGive))
  {
    var t := Downstream(s, LimiterGive);
    assert t.handed == s.handed + [s.limiter.hold.m];
    assert Settled(t) == s.handed == Settled(s);
  }

  lemma SaveSimulates(s: System, save: L.SaveOutcome)
    requires Shape(s) && Coherent(s) && Enabled(s, LimiterSave(save))
    ensures Simulates(s, LimiterSave(save), Downstream(s, LimiterSave(save)))
  {
    var m := s.limiter.hold.m;
    assert s.handed == s.handed[..|s.handed| - 1] + [m];
    RunOne(View(s), L.Receive(m, save));
  }

  lemma ResetSimulates(s: System, st: Step)
    requires Shape(s) && Coherent(s) && Enabled(s, st) && (st.LimiterTimer? || st.LimiterConfigure? || st.LimiterClose?)
    ensures Simulates(s, st, Downstream(s, st))
  {
    hide L.NextPeriod, L.Reconfigured;
    var es := Events(s, st);
    RunTwo(View(s), es[0], es[1]);
  }

  lemma RestartSimulates(s: System, st: Step)
    requires Shape(s) && Coherent(s) && Enabled(s, st) && st.Restart?
    ensures Simulates(s, st, Downstream(s, st))
  {
    var es := Events(s, st);
    if s.limiter.hold.Charging? {
      assert s.handed == s.handed[..|s.handed| - 1] + [s.limiter.hold.m];
    }
    RunTwo(View(s), es[0], es[1]);
  }

  lemma DownstreamSimulates(s: System, st: Step)
    requires Shape(s) && Coherent(s) && Enabled(s, st) && IsDownstream(st)
    ensures Simulates(s, st, Downstream(s, st))
  {
    if st.LimiterTake? {
      TakeSimulates(s);
    } else if st.LimiterGive? {
      GiveSimulates(s);
    } else if st.LimiterSave? {
      SaveSimulates(s, st.save);
    } else if st.LimiterTimer? || st.LimiterConfigure? || st.LimiterClose? {
      ResetSimulates(s, st);
    } else if st.Restart? {
      RestartSimulates(s, st);
    } else {
      var t := Downstream(s, st);
      assert t.limiter == s.limiter && t.file == s.file && t.handed == s.handed;
      hide Downstream;
      SameLimiter(s, st, t);
    }
  }

  /** Refinement: every step of the pipeline is a run of the limiter's state machine. */
  lemma StepSimulates(s: System, st: Step)
    requires Shape(s) && Coherent(s) && Enabled(s, st)
    ensures Simulates(s, st, Next(s, st))
  {
    hide Enabled, Upstream, Converting, Loading, Requesting, Downstream, Simulates, Coherent;
    if IsUpstream(st) {
      UpstreamFrame(s, st);
      SameLimiter(s, st, Upstream(s, st));
    } else if IsConverting(st) {
      ConvertingFrame(s, st);
      SameLimiter(s, st, Converting(s, st));
    } else if IsLoading(st) {
      LoadingFrame(s, st);
      SameLimiter(s, st, Loading(s, st));
    } else if IsRequesting(st) {
      RequestingFrame(s, st);
      SameLimiter(s, st, Requesting(s, st));
    } else {
      DownstreamSimulates(s, st);
    }
  }

  ghost function AllEvents(s: System, steps: seq<Step>): seq<L.Event>
    requires Shape(s) && Runs(s, steps)
    decreases steps
  {
    if steps == [] then [] else Events(s, steps[0]) + AllEvents(Next(s, steps[0]), steps[1..])
  }

  lemma {:induction false} RunSimulates(s: System, steps: seq<Step>)
    requires Shape(s) && Coherent(s) && Runs(s, steps)
    ensures var t := Run(s, steps);
            && Coherent(t)
            && L.Runs(View(s), AllEvents(s, steps))
            && L.Run(View(s), AllEvents(s, steps)) == View(t)
    decreases steps
  {
    if steps == [] {
      assert AllEvents(s, steps) == [];
    } else {
      var t := Next(s, steps[0]);
      StepSimulates(s, steps[0]);
      RunSimulates(t, steps[1..]);
      L.RunConcat(View(s), Events(s, steps[0]), AllEvents(t, steps[1..]));
    }
    hide *;
  }

  // ---- Bytes at the broker ----

  /** Steps that start the count afresh: a new period, a configuration, a new process. */
  predicate StartsAfresh(st: Step) {
    st.LimiterTimer? || st.LimiterConfigure? || st.Restart?
  }

  function FreshStarts(steps: seq<Step>): nat {
    if steps == [] then 0 else (if StartsAfresh(steps[0]) then 1 else 0) + FreshStarts(steps[1..])
  }

  /** Every configuration sets a budget of at most the given one. */
  predicate Limiting(st: Step, budget: nat) {
    st.LimiterConfigure? ==> st.conf.defined && 1_000_000 * st.conf.limit <= budget
  }

  predicate AllLimiting(steps: seq<Step>, budget: nat) {
    steps == [] || (Limiting(steps[0], budget) && AllLimiting(steps[1..], budget))
  }

  /** How the limiter's save in a step ends; None when it makes none. */
  function SaveMade(st: Step): Option<L.SaveOutcome> {
    match st
    case LimiterSave(save) => Some(save)
    case LimiterTimer(_, save) => Some(save)
    case LimiterConfigure(_, _, save) => Some(save)
    case _ => None
  }

  /** Whenever a process starts, the limiter's last save that was not refused has been written.
      `sound` says so of the saves before these steps. */
  predicate SavesSound(steps: seq<Step>, sound: bool) {
    steps == [] ||
    ((steps[0].Restart? ==> sound) && SavesSound(steps[1..], B.SoundAfter(sound, SaveMade(steps[0]))))
  }

  lemma SoundOne(s: L.System, e: L.Event, sound: bool)
    requires L.Enabled(s, e)
    ensures L.Runs(s, [e])
    ensures B.SavesSound(s, [e], sound) <==> (B.StartsProcess(e) ==> sound)
    ensures B.SoundAfterRun(s, [e], sound) == B.SoundAfter(sound, B.SaveMade(s, e))
  {
    RunOne(s, e);
    hide L.Step, L.Enabled, B.SaveMade, B.SoundAfter, B.StartsProcess;
    assert [e][1..] == [];
    var t := L.Step(s, e);
    assert L.Runs(t, []) && B.SavesSound(t, [], B.SoundAfter(sound, B.SaveMade(s, e)));
  }

  lemma SoundTwo(s: L.System, e: L.Event, f: L.Event, sound: bool)
    requires L.Enabled(s, e) && L.Enabled(L.Step(s, e), f) && f == L.Proceed
    ensures L.Runs(s, [e, f])
    ensures B.SavesSound(s, [e, f], sound) <==> (B.StartsProcess(e) ==> sound)
    ensures B.SoundAfterRun(s, [e, f], sound) == B.SoundAfter(sound, B.SaveMade(s, e))
  {
    RunTwo(s, e, f);
    SoundOne(L.Step(s, e), f, B.SoundAfter(sound, B.SaveMade(s, e)));
    assert B.SaveMade(L.Step(s, e), f) == None;
    hide L.Step, L.Enabled, B.SaveMade;
    assert [e, f][1..] == [f];
  }

  /** The events of a step make the save that the step makes. */
  lemma StepSound(s: System, st: Step, sound: bool)
    requires Shape(s) && Coherent(s) && Enabled(s, st) && (st.Restart? ==> sound)
    requires L.Runs(View(s), Events(s, st))
    ensures B.SavesSound(View(s), Events(s, st), sound)
    ensures B.SoundAfterRun(View(s), Events(s, st), sound) == B.SoundAfter(sound, SaveMade(st))
  {
    var es := Events(s, st);
    hide L.NextPeriod, L.Reconfigured;
    if |es| == 1 {
      SoundOne(View(s), es[0], sound);
    } else if |es| == 2 {
      SoundTwo(View(s), es[0], es[1], sound);
    }
  }

  lemma {:induction false} RunSound(s: System, steps: seq<Step>, sound: bool)
    requires Shape(s) && Coherent(s) && Runs(s, steps) && SavesSound(steps, sound)
    ensures L.Runs(View(s), AllEvents(s, steps))
    ensures B.SavesSound(View(s), AllEvents(s, steps), sound)
    decreases steps
  {
    RunSimulates(s, steps);
    if steps != [] {
      var t := Next(s, steps[0]);
      StepSimulates(s, steps[0]);
      StepSound(s, steps[0], sound);
      RunSound(t, steps[1..], B.SoundAfter(sound, SaveMade(steps[0])));
      L.RunConcat(View(s), Events(s, steps[0]), AllEvents(t, steps[1..]));
      B.SavesSoundConcat(View(s), Events(s, steps[0]), AllEvents(t, steps[1..]), sound);
    }
    hide *;
  }

  lemma {:induction false} EventsConcat(a: seq<L.Event>, b: seq<L.Event>, budget: nat)
    ensures B.FreshStarts(a + b) == B.FreshStarts(a) + B.FreshStarts(b)
    ensures B.AllLimiting(a, budget) && B.AllLimiting(b, budget) ==> B.AllLimiting(a + b, budget)
    decreases |a|
  {
    if a == [] {
      assert a + b == b;
    } else {
      assert (a + b)[1..] == a[1..] + b;
      EventsConcat(a[1..], b, budget);
    }
  }

  lemma OneEvent(e: L.Event, budget: nat)
    ensures B.FreshStarts([e]) == (if B.StartsAfresh(e) then 1 else 0)
    ensures B.AllLimiting([e], budget) <==> B.Limiting(e, budget)
  {
    assert [e][1..] == [] && B.FreshStarts([]) == 0;
  }

  lemma StepEvents(s: System, st: Step, budget: nat)
    requires Limiting(st, budget)
    ensures B.FreshStarts(Events(s, st)) <= (if StartsAfresh(st) then 1 else 0)
    ensures B.AllLimiting(Events(s, st), budget)
  {
    var es := Events(s, st);
    if |es| == 1 {
      OneEvent(es[0], budget);
      assert es == [es[0]];
    } else if |es| == 2 {
      OneEvent(es[0], budget);
      OneEvent(es[1], budget);
      EventsConcat([es[0]], [es[1]], budget);
      assert es == [es[0]] + [es[1]];
    }
  }

  lemma {:induction false} RunEvents(s: System, steps: seq<Step>, budget: nat)
    requires Shape(s) && Runs(s, steps) && AllLimiting(steps, budget)
    ensures B.FreshStarts(AllEvents(s, steps)) <= FreshStarts(steps)
    ensures B.AllLimiting(AllEvents(s, steps), budget)
    decreases steps
  {
    hide Next, Enabled, Events, Limiting, StartsAfresh;
    if steps != [] {
      StepEvents(s, steps[0], budget);
      RunEvents(Next(s, steps[0]), steps[1..], budget);
      EventsConcat(Events(s, steps[0]), AllEvents(Next(s, steps[0]), steps[1..]), budget);
    }
  }

  /** A message handed over and not yet charged could be charged at once. */
  lemma HandedBound(s: L.System, es: seq<L.Event>, t: System, budget: nat)
    requires B.LimitedSystem(s, budget) && L.Runs(s, es) && B.AllLimiting(es, budget) && B.SavesSound(s, es, true)
    requires Coherent(t) && L.Run(s, es) == View(t)
    ensures Total(t.handed) - Total(s.out) <= B.Allowed(B.FreshStarts(es), budget)
  {
    if t.limiter.hold.Charging? {
      var e := L.Receive(t.limiter.hold.m, L.Written);
      assert t.handed == Settled(t) + [t.limiter.hold.m];
      L.RunSnoc(s, es, e);
      EventsConcat(es, [e], budget);
      assert [e][1..] == [];
      assert B.FreshStarts([e]) == 0 && B.AllLimiting([e], budget);
      SoundOne(L.Run(s, es), e, B.SoundAfterRun(s, es, true));
      B.SavesSoundConcat(s, es, [e], true);
      B.RunBound(s, es + [e], budget);
    } else {
      B.RunBound(s, es, budget);
    }
  }

  /** The bytes that the broker acknowledged, with those being published, never outgrow what was
      handed over. */
  function Backlog(s: System): int {
    Total(s.handed) - Total(s.published) - (if s.producer.Publishing? then Len(s.producer.m) else 0)
  }

  lemma DownstreamBacklog(s: System, st: Step)
    requires Shape(s) && Enabled(s, st) && IsDownstream(st)
    ensures Backlog(s) <= Backlog(Downstream(s, st))
  {
    if st.LimiterGive? {
      TotalPush(s.handed, s.limiter.hold.m);
    } else if st.Publish? {
      TotalPush(s.published, s.producer.m);
    }
    hide L.NextPeriod, L.Reconfigured, L.Settle, Total;
  }

  lemma StepBacklog(s: System, st: Step)
    requires Shape(s) && Enabled(s, st)
    ensures Backlog(s) <= Backlog(Next(s, st))
  {
    if IsUpstream(st) {
      UpstreamFrame(s, st);
    } else if IsConverting(st) {
      ConvertingFrame(s, st);
    } else if IsLoading(st) {
      LoadingFrame(s, st);
    } else if IsRequesting(st) {
      RequestingFrame(s, st);
    } else {
      DownstreamBacklog(s, st);
    }
    hide Enabled, Upstream, Converting, Loading, Requesting, Downstream;
  }

  lemma {:induction false} RunBacklog(s: System, steps: seq<Step>)
    requires Shape(s) && Runs(s, steps)
    ensures Backlog(s) <= Backlog(Run(s, steps))
    decreases steps
  {
    hide Next, Enabled, Backlog;
    if steps != [] {
      StepBacklog(s, steps[0]);
      RunBacklog(Next(s, steps[0]), steps[1..]);
    }
  }

  lemma MoreStarts(a: nat, b: nat, budget: nat)
    requires a <= b
    ensures B.Allowed(a, budget) <= B.Allowed(b, budget)
  {
  }

  lemma HandedInRun(s: System, steps: seq<Step>, budget: nat)
    requires Shape(s) && Coherent(s) && s.limiter.hold.Free?
    requires B.LimitedSystem(View(s), budget)
    requires Runs(s, steps) && AllLimiting(steps, budget) && SavesSound(steps, true)
    ensures Total(Run(s, steps).handed) - Total(s.handed) <= B.Allowed(FreshStarts(steps), budget)
  {
    assert View(s).out == s.handed;
    hide *;
    RunSimulates(s, steps);
    RunEvents(s, steps, budget);
    RunSound(s, steps, true);
    HandedBound(View(s), AllEvents(s, steps), Run(s, steps), budget);
    MoreStarts(B.FreshStarts(AllEvents(s, steps)), FreshStarts(steps), budget);
  }

  lemma PublishedInRun(s: System, steps: seq<Step>)
    requires Shape(s) && s.producer.Receiving? && Runs(s, steps)
    ensures Total(Run(s, steps).published) - Total(s.published) <= Total(Run(s, steps).handed) - Total(s.handed)
  {
    RunBacklog(s, steps);
    hide Run, Runs;
  }

  /** The bound on runs from any state in which the limiter holds no message. */
  lemma RunBytes(s: System, steps: seq<Step>, budget: nat)
    requires Shape(s) && Coherent(s) && s.limiter.hold.Free? && s.producer.Receiving?
    requires B.LimitedSystem(View(s), budget)
    requires Runs(s, steps) && AllLimiting(steps, budget) && SavesSound(steps, true)
    ensures Total(Run(s, steps).published) - Total(s.published) <= B.Allowed(FreshStarts(steps), budget)
  {
    hide *;
    HandedInRun(s, steps, budget);
    PublishedInRun(s, steps);
  }

  /** The budget at the broker: from the start of a process that finds a limited snapshot, over any
      run of the whole client, with crashes, restarts, new periods, configurations, refused saves
      and cut saves that are repaired before the next start, the broker acknowledges at most one
      budget more than there are fresh starts. */
  lemma BrokerBytes(place: S.Place, files: S.Files, a: L.Account, handed: seq<Message>, published: seq<Message>,
                    log: seq<Message>, stream: seq<A.Decode>, points: seq<A.Decode>, steps: seq<Step>, budget: nat)
    requires B.Limited(a, budget)
    requires var s := NewProcess(place, files, L.Saved(a), handed, published, log, stream, points);
             Runs(s, steps) && AllLimiting(steps, budget) && SavesSound(steps, true)
    ensures var s := NewProcess(place, files, L.Saved(a), handed, published, log, stream, points);
            Total(Run(s, steps).published) - Total(published) <= B.Allowed(FreshStarts(steps), budget)
  {
    var s := NewProcess(place, files, L.Saved(a), handed, published, log, stream, points);
    assert Coherent(s) && B.LimitedSystem(View(s), budget) && s.published == published;
    hide NewProcess, Run, Runs, B.Allowed, Coherent, B.LimitedSystem, View;
    RunBytes(s, steps, budget);
  }
}
