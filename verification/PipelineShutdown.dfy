/** Shutdown of the client: no deadlock, a bounded number of steps, and every channel closed exactly
    once with no send after its close. */
module PipelineShutdown {
  import opened Broker
  import opened Pipeline
  import A = Agent
  import C = Converters
  import L = Limiter
  import M = Merge
  import S = Store

  function One<T>(w: M.Worker<T>): int {
    if w.Finished? then 0 else 1
  }

  /** Who is still there: the wait groups count the live workers, a worker ends only after its
      source, and a stage closes its output only after its input is closed and drained. */
  predicate Orderly(s: System)
    requires Shape(s)
  {
    && s.agents.wg == One(s.agents.workers[0]) + One(s.agents.workers[1])
    && (s.agents.closed ==> s.agents.wg == 0)
    && s.agents.buf == []
    && (s.agents.workers[0].Finished? ==> ServerClosed(s))
    && (s.agents.workers[1].Finished? ==> s.points.phase.PointClosed?)
    && (s.converter.ConverterClosed? ==> s.agents.closed)
    && s.merger.wg == One(s.merger.workers[0]) + One(s.merger.workers[1]) + One(s.merger.workers[2])
    && (s.merger.closed ==> s.merger.wg == 0)
    && (s.merger.workers[0].Finished? ==> MergeSourceClosed(s, 0))
    && (s.merger.workers[1].Finished? ==> MergeSourceClosed(s, 1))
    && (s.merger.workers[2].Finished? ==> MergeSourceClosed(s, 2))
    && (!s.limiter.open ==> s.merger.closed && s.merger.buf == [] && s.limiter.hold.Free?)
    && (s.producer.ProducerFinished? ==> !s.limiter.open)
  }

  lemma NewOrderly(place: S.Place, files: S.Files, file: L.File, handed: seq<Message>, published: seq<Message>,
                   log: seq<Message>, stream: seq<A.Decode>, points: seq<A.Decode>)
    ensures Orderly(NewProcess(place, files, file, handed, published, log, stream, points))
  {
  }

  lemma UpstreamOrderly(s: System, st: Step)
    requires Shape(s) && Orderly(s) && Enabled(s, st) && IsUpstream(st)
    ensures Orderly(Upstream(s, st))
  {
    hide A.ScanServer, A.ScanDataPoint;
  }

  lemma ConvertingOrderly(s: System, st: Step)
    requires Shape(s) && Orderly(s) && Enabled(s, st) && IsConverting(st)
    ensures Orderly(Converting(s, st))
  {
    hide S.Create, C.Convert;
  }

  lemma LoadingOrderly(s: System, st: Step)
    requires Shape(s) && Orderly(s) && Enabled(s, st) && IsLoading(st)
    ensures Orderly(Loading(s, st))
  {
    hide S.LoadMessage, ListsAll;
  }

  lemma RequestingOrderly(s: System, st: Step)
    requires Shape(s) && Orderly(s) && Enabled(s, st) && IsRequesting(st)
    ensures Orderly(Requesting(s, st))
  {
  }

  lemma MergerOrderly(s: System, st: Step)
    requires Shape(s) && Orderly(s) && Enabled(s, st) && (st.Put? || st.MergeFinish? || st.MergeClose?)
    ensures Orderly(Downstream(s, st))
  {
  }

  lemma LimiterOrderly(s: System, st: Step)
    requires Shape(s) && Orderly(s) && Enabled(s, st) && IsDownstream(st) && !st.Restart?
    requires !(st.Put? || st.MergeFinish? || st.MergeClose?)
    ensures Orderly(Downstream(s, st))
  {
    hide L.NextPeriod, L.Reconfigured, L.Settle, L.Accepts, L.Charge, L.AfterSend;
  }

  lemma DownstreamOrderly(s: System, st: Step)
    requires Shape(s) && Orderly(s) && Enabled(s, st) && IsDownstream(st)
    ensures Orderly(Downstream(s, st))
  {
    if st.Put? || st.MergeFinish? || st.MergeClose? {
      MergerOrderly(s, st);
    } else if st.Restart? {
      NewOrderly(s.place.(pid := st.pid), s.store.files, s.file, s.handed, s.published, s.log, st.stream, st.points);
      hide NewProcess, Orderly;
    } else {
      LimiterOrderly(s, st);
    }
  }

  lemma StepOrderly(s: System, st: Step)
    requires Shape(s) && Orderly(s) && Enabled(s, st)
    ensures Orderly(Next(s, st))
  {
    hide Orderly, Enabled, Upstream, Converting, Loading, Requesting, Downstream;
    if IsUpstream(st) {
      UpstreamOrderly(s, st);
    } else if IsConverting(st) {
      ConvertingOrderly(s, st);
    } else if IsLoading(st) {
      LoadingOrderly(s, st);
    } else if IsRequesting(st) {
      RequestingOrderly(s, st);
    } else {
      DownstreamOrderly(s, st);
    }
  }

  // ---- Work ----

  function AgentWork(w: M.Worker<A.AgentMessage>): nat {
    match w case Idle => 1 case Holding(_) => 16 case Finished => 0
  }

  function MergeWork(w: M.Worker<Message>): nat {
    match w case Idle => 1 case Holding(_) => 6 case Finished => 0
  }

  function ServerWork(v: ServerStage): nat {
    match v.phase
    case Scanning => 19 + 17 * |v.stream|
    case Sending(_) => 35 + 17 * |v.stream|
    case SendingExit => 18
    case AtEnd => 2
    case OutClosed => 1
    case DoneClosed => 0
  }

  function PointWork(v: PointStage): nat {
    match v.phase
    case PointScanning => 1 + 17 * |v.stream|
    case PointSending(_) => 17 + 17 * |v.stream|
    case PointClosed => 0
  }

  function ConverterWork(c: ConverterStage): nat {
    match c case Ready => 1 case Emitting(_) => 7 case ConverterClosed => 0
  }

  function LoaderWork(l: LoaderStage, files: nat): nat {
    match l
    case NotListed => 9 + 8 * files
    case Listed(paths) => 1 + 8 * |paths|
    case Loaded(_, rest) => 7 + 8 * |rest|
    case LoaderClosed => 0
  }

  function RequesterWork(r: RequesterStage): nat {
    match r case Asking(_) => 8 case Reporting(_) => 7 case Quitting => 1 case RequesterClosed => 0
  }

  function LimiterWork(l: LimiterStage): nat {
    (match l.hold case Free => 0 case Charging(_) => 1 case Offering(_) => 3) + (if l.open then 1 else 0)
  }

  function ProducerWork(p: ProducerStage): nat {
    match p case Receiving => 1 case Publishing(_) => 2 case ProducerFinished => 0
  }

  /** The work left upstream of the converter, in the sources of broker messages, and downstream:
      every message is worth more the further it still has to go. */
  function UpstreamWork(s: System): nat
    requires Shape(s)
  {
    ServerWork(s.server) + PointWork(s.points) + AgentWork(s.agents.workers[0]) + AgentWork(s.agents.workers[1])
    + (if s.agents.closed then 0 else 1)
  }

  function MiddleWork(s: System): nat {
    ConverterWork(s.converter) + LoaderWork(s.loader, |s.store.files|) + RequesterWork(s.requester)
  }

  function DownstreamWork(s: System): nat
    requires Shape(s)
  {
    MergeWork(s.merger.workers[0]) + MergeWork(s.merger.workers[1]) + MergeWork(s.merger.workers[2])
    + 4 * |s.merger.buf| + (if s.merger.closed then 0 else 1) + LimiterWork(s.limiter) + ProducerWork(s.producer)
  }

  function Work(s: System): nat
    requires Shape(s)
  {
    UpstreamWork(s) + MiddleWork(s) + DownstreamWork(s)
  }

  /** Timers, ticks and configuration. */
  predicate FromOutside(st: Step) {
    st.RequesterTick? || st.RequesterPeriod? || st.LimiterTimer? || st.LimiterConfigure? || st.StorageLimit?
  }

  lemma {:induction false} ListingLength(files: S.Files, order: seq<string>)
    requires ListsAll(files, order)
    ensures |order| <= |files|
    decreases |order|
  {
    if order != [] {
      var rest := files - {order[0]};
      forall p
        ensures p in rest <==> p in order[1..]
      {
        if p in order && p != order[0] {
          var i :| 0 <= i < |order| && order[i] == p;
          assert order[1..][i - 1] == p;
        }
      }
      ListingLength(rest, order[1..]);
      assert rest.Keys == files.Keys - {order[0]};
    }
  }

  lemma CreateKeys(st: S.State, place: S.Place, limit: Option<int>, measured: Option<nat>, m: Message,
                   write: S.WriteOutcome)
    ensures var t := S.Create(st, place, limit, measured, m, write).0;
            t.files.Keys == st.files.Keys || exists p :: p in t.files.Keys && t.files.Keys == st.files.Keys + {p}
  {
    var t := S.Create(st, place, limit, measured, m, write).0;
    if t.files != st.files {
      var p := S.Names.Name(place.dir, place.pid, st.count);
      assert p in t.files.Keys && t.files.Keys == st.files.Keys + {p};
    }
  }

  lemma CreateFiles(st: S.State, place: S.Place, limit: Option<int>, measured: Option<nat>, m: Message,
                    write: S.WriteOutcome)
    ensures |S.Create(st, place, limit, measured, m, write).0.files| <= |st.files| + 1
  {
    hide *;
    CreateKeys(st, place, limit, measured, m, write);
    var t := S.Create(st, place, limit, measured, m, write).0;
    if t.files.Keys != st.files.Keys {
      var p :| p in t.files.Keys && t.files.Keys == st.files.Keys + {p};
      assert |st.files.Keys + {p}| <= |st.files.Keys| + 1;
    }
  }

  lemma ServerWorks(s: System, st: Step)
    requires Shape(s) && Enabled(s, st)
    requires st.ServerScan? || st.ServerGive? || st.ServerCloseOut? || st.ServerCloseDone?
    ensures var t := Upstream(s, st);
            && MiddleWork(t) == MiddleWork(s) && DownstreamWork(t) == DownstreamWork(s)
            && UpstreamWork(t) < UpstreamWork(s)
  {
    hide A.ScanServer, PointWork, MergeWork, LimiterWork, ProducerWork, ConverterWork, LoaderWork, RequesterWork;
  }

  lemma UpstreamWorks(s: System, st: Step)
    requires Shape(s) && Enabled(s, st) && IsUpstream(st)
    ensures var t := Upstream(s, st);
            && MiddleWork(t) == MiddleWork(s) && DownstreamWork(t) == DownstreamWork(s)
            && UpstreamWork(t) < UpstreamWork(s)
  {
    hide A.ScanDataPoint, MergeWork, LimiterWork, ProducerWork, ConverterWork, LoaderWork, RequesterWork;
    if st.ServerScan? || st.ServerGive? || st.ServerCloseOut? || st.ServerCloseDone? {
      ServerWorks(s, st);
    } else {
      hide ServerWork;
    }
  }

  lemma ConvertedWorks(s: System, m: A.AgentMessage, encoded: C.Encoded, measured: Option<nat>, write: S.WriteOutcome)
    requires Shape(s) && s.converter.Ready?
    ensures var t := Converted(s, m, encoded, measured, write);
            && t.agents == s.agents && t.server == s.server && t.points == s.points
            && t.merger == s.merger && t.limiter == s.limiter && t.producer == s.producer
            && MiddleWork(t) <= MiddleWork(s) + 14
  {
    CreateFiles(s.store, s.place, s.limit, measured, C.Convert(m, encoded), write);
    hide S.Create, C.Convert;
  }

  lemma SameMiddle(s: System, t: System)
    requires s.converter == t.converter && s.loader == t.loader && s.requester == t.requester && s.store == t.store
    ensures MiddleWork(s) == MiddleWork(t)
  {
  }

  lemma ConvertingWorks(s: System, st: Step)
    requires Shape(s) && Enabled(s, st) && IsConverting(st)
    ensures Work(Converting(s, st)) < Work(s)
  {
    if st.Convert? {
      var s' := s.(agents := M.Next(s.agents, M.Handoff(st.i)));
      ConvertedWorks(s', s.agents.workers[st.i].m, st.encoded, st.measured, st.write);
      hide Converted, MiddleWork, ServerWork, PointWork, MergeWork, LimiterWork, ProducerWork;
      assert UpstreamWork(s') == UpstreamWork(s) - 15;
      assert MiddleWork(s') == MiddleWork(s) by { SameMiddle(s, s'); }
    } else {
      hide ServerWork, PointWork, LimiterWork, ProducerWork, LoaderWork, RequesterWork;
    }
  }

  lemma LoadingWorks(s: System, st: Step)
    requires Shape(s) && Enabled(s, st) && IsLoading(st)
    ensures Work(Loading(s, st)) < Work(s)
  {
    if st.LoaderList? && st.order.Some? {
      ListingLength(s.store.files, st.order.value);
    }
    hide S.LoadMessage, ListsAll, ServerWork, PointWork, LimiterWork, ProducerWork, ConverterWork, RequesterWork;
  }

  lemma RequestingWorks(s: System, st: Step)
    requires Shape(s) && Enabled(s, st) && IsRequesting(st)
    ensures Work(Requesting(s, st)) <= Work(s)
    ensures !FromOutside(st) ==> Work(Requesting(s, st)) < Work(s)
  {
    hide ServerWork, PointWork, LimiterWork, ProducerWork, ConverterWork, LoaderWork;
  }

  lemma LimiterWorks(s: System, st: Step)
    requires Shape(s) && Enabled(s, st) && IsDownstream(st) && !st.Restart?
    requires !st.Put? && !st.MergeFinish? && !st.MergeClose? && !st.Publish? && !st.ProducerFinish?
    ensures Work(Downstream(s, st)) <= Work(s)
    ensures !FromOutside(st) ==> Work(Downstream(s, st)) < Work(s)
  {
    hide L.NextPeriod, L.Reconfigured, L.Settle, L.Accepts, L.Charge, L.AfterSend;
    hide ServerWork, PointWork, ConverterWork, LoaderWork, RequesterWork, MergeWork;
  }

  lemma MergerWorks(s: System, st: Step)
    requires Shape(s) && Enabled(s, st) && (st.Put? || st.MergeFinish? || st.MergeClose?)
    ensures Work(Downstream(s, st)) < Work(s)
  {
    var t := Downstream(s, st);
    assert t == s.(merger := t.merger);
    assert UpstreamWork(t) == UpstreamWork(s) && MiddleWork(t) == MiddleWork(s);
    hide UpstreamWork, MiddleWork, LimiterWork, ProducerWork;
  }

  lemma FewerFiles(files: S.Files, path: string)
    ensures |files - {path}| <= |files|
  {
    assert (files - {path}).Keys == files.Keys - {path};
  }

  lemma PublishWorks(s: System, st: Step)
    requires Shape(s) && Enabled(s, st) && (st.Publish? || st.ProducerFinish?)
    ensures Work(Downstream(s, st)) < Work(s)
  {
    if st.Publish? && st.acknowledged && s.producer.m.path.Some? {
      FewerFiles(s.store.files, s.producer.m.path.value);
    }
    var t := Downstream(s, st);
    assert t == s.(producer := t.producer, store := t.store, published := t.published);
    assert UpstreamWork(t) == UpstreamWork(s) && ProducerWork(t.producer) < ProducerWork(s.producer);
    assert |t.store.files| <= |s.store.files|;
    hide Downstream, UpstreamWork, ConverterWork, RequesterWork, MergeWork, LimiterWork, ProducerWork;
  }

  lemma DownstreamWorks(s: System, st: Step)
    requires Shape(s) && Enabled(s, st) && IsDownstream(st) && !st.Restart?
    ensures Work(Downstream(s, st)) <= Work(s)
    ensures !FromOutside(st) ==> Work(Downstream(s, st)) < Work(s)
  {
    hide Work, Downstream, Enabled;
    if st.Put? || st.MergeFinish? || st.MergeClose? {
      MergerWorks(s, st);
    } else if st.Publish? || st.ProducerFinish? {
      PublishWorks(s, st);
    } else {
      LimiterWorks(s, st);
    }
  }

  /** Every step of the pipeline strictly decreases the work left, and timers, ticks and
      configurations never increase it. */
  lemma StepWorks(s: System, st: Step)
    requires Shape(s) && Enabled(s, st) && !st.Restart?
    ensures Work(Next(s, st)) <= Work(s)
    ensures !FromOutside(st) ==> Work(Next(s, st)) < Work(s)
  {
    hide Enabled, Upstream, Converting, Loading, Requesting, Downstream, UpstreamWork, MiddleWork, DownstreamWork;
    if IsUpstream(st) {
      UpstreamWorks(s, st);
    } else if IsConverting(st) {
      ConvertingWorks(s, st);
    } else if IsLoading(st) {
      LoadingWorks(s, st);
    } else if IsRequesting(st) {
      RequestingWorks(s, st);
    } else {
      DownstreamWorks(s, st);
    }
  }

  // ---- No deadlock ----

  /** The client is finished: `run` has returned, and the server has told the requester. */
  predicate AllDone(s: System) {
    s.producer.ProducerFinished? && s.server.phase.DoneClosed?
  }

  predicate OfThePipeline(st: Step) {
    !FromOutside(st) && !st.Restart?
  }

  /** The most downstream step that can go on. */
  function DownstreamStep(s: System): Option<Step>
    requires Shape(s)
  {
    if s.producer.Publishing? then Some(Publish(false, false))
    else if s.limiter.hold.Charging? then Some(LimiterSave(L.Refused))
    else if s.limiter.hold.Offering? then Some(LimiterGive)
    else if s.merger.buf != [] then Some(LimiterTake)
    else if s.merger.workers[0].Holding? then Some(Put(0))
    else if s.merger.workers[1].Holding? then Some(Put(1))
    else if s.merger.workers[2].Holding? then Some(Put(2))
    else None
  }

  function SourceStep(s: System): Option<Step>
    requires Shape(s)
  {
    if s.converter.Emitting? then Some(ConverterGive)
    else if s.loader.NotListed? then Some(LoaderList(None))
    else if s.loader.Loaded? then Some(LoaderGive)
    else if s.loader.Listed? then Some(if s.loader.paths == [] then LoaderClose else LoaderRead(Whole))
    else if s.requester.Reporting? then Some(RequesterGive)
    else if s.requester.Quitting? then Some(RequesterClose)
    else None
  }

  function AgentStep(s: System): Option<Step>
    requires Shape(s)
  {
    if s.agents.workers[0].Holding? then Some(Convert(0, C.Encoded(None, ""), None, S.Unopened))
    else if s.agents.workers[1].Holding? then Some(Convert(1, C.Encoded(None, ""), None, S.Unopened))
    else if s.server.phase.Scanning? then Some(ServerScan)
    else if s.server.phase.Sending? || s.server.phase.SendingExit? then Some(ServerGive)
    else if s.server.phase.AtEnd? then Some(ServerCloseOut)
    else if s.server.phase.OutClosed? then Some(ServerCloseDone)
    else if s.points.phase.PointScanning? then Some(PointScan)
    else if s.points.phase.PointSending? then Some(PointGive)
    else None
  }

  /** With both agent streams at their end and nothing in flight, the closes follow each other. */
  function ClosingStep(s: System): Step
    requires Shape(s)
  {
    if s.agents.workers[0].Idle? then AgentFinish(0)
    else if s.agents.workers[1].Idle? then AgentFinish(1)
    else if !s.agents.closed then AgentClose
    else if s.converter.Ready? then ConverterClose
    else if s.requester.Asking? then RequesterDone
    else if s.merger.workers[0].Idle? then MergeFinish(0)
    else if s.merger.workers[1].Idle? then MergeFinish(1)
    else if s.merger.workers[2].Idle? then MergeFinish(2)
    else if !s.merger.closed then MergeClose
    else if s.limiter.open then LimiterClose
    else ProducerFinish
  }

  lemma DownstreamCanGo(s: System)
    requires Shape(s) && Orderly(s) && DownstreamStep(s).Some?
    ensures Enabled(s, DownstreamStep(s).value) && OfThePipeline(DownstreamStep(s).value)
  {
  }

  lemma SourceCanGo(s: System)
    requires Shape(s) && Orderly(s) && DownstreamStep(s).None? && SourceStep(s).Some?
    ensures Enabled(s, SourceStep(s).value) && OfThePipeline(SourceStep(s).value)
  {
  }

  lemma AgentCanGo(s: System)
    requires Shape(s) && Orderly(s) && DownstreamStep(s).None? && SourceStep(s).None? && AgentStep(s).Some?
    ensures Enabled(s, AgentStep(s).value) && OfThePipeline(AgentStep(s).value)
  {
  }

  lemma ClosingCanGo(s: System)
    requires Shape(s) && Orderly(s) && DownstreamStep(s).None? && SourceStep(s).None? && AgentStep(s).None?
    requires !AllDone(s)
    ensures Enabled(s, ClosingStep(s)) && OfThePipeline(ClosingStep(s))
  {
  }

  /** No deadlock: in every orderly state that is not finished, some goroutine can take a step. */
  lemma NotStuck(s: System)
    requires Shape(s) && Orderly(s) && !AllDone(s)
    ensures exists st :: OfThePipeline(st) && Enabled(s, st)
  {
    if DownstreamStep(s).Some? {
      DownstreamCanGo(s);
    } else if SourceStep(s).Some? {
      SourceCanGo(s);
    } else if AgentStep(s).Some? {
      AgentCanGo(s);
    } else {
      ClosingCanGo(s);
    }
  }

  // ---- Whole runs of one process ----

  /** Steps of a run that are the pipeline's own. */
  function OwnSteps(steps: seq<Step>): nat {
    if steps == [] then 0 else (if FromOutside(steps[0]) then 0 else 1) + OwnSteps(steps[1..])
  }

  lemma {:induction false} RunWorks(s: System, steps: seq<Step>)
    requires Shape(s) && Orderly(s) && Runs(s, steps) && OneProcess(steps)
    ensures Orderly(Run(s, steps))
    ensures OwnSteps(steps) + Work(Run(s, steps)) <= Work(s)
    decreases steps
  {
    hide Next, Orderly, Enabled, Work;
    if steps != [] {
      StepOrderly(s, steps[0]);
      StepWorks(s, steps[0]);
      assert OneProcess(steps[1..]) by {
        forall i | 0 <= i < |steps[1..]| ensures !steps[1..][i].Restart? { assert steps[1..][i] == steps[i + 1]; }
      }
      RunWorks(Next(s, steps[0]), steps[1..]);
    }
  }

  lemma NewWork(place: S.Place, files: S.Files, file: L.File, handed: seq<Message>, published: seq<Message>,
                log: seq<Message>, stream: seq<A.Decode>, points: seq<A.Decode>)
    ensures Work(NewProcess(place, files, file, handed, published, log, stream, points))
            == 47 + 17 * |stream| + 17 * |points| + 8 * |files|
  {
  }

  // ---- Closing channels ----

  datatype Channel =
    | ServerOut | ServerDone | PointsOut | AgentsOut | ConverterOut | LoaderOut | RequesterOut | MergerOut | LimiterOut

  predicate IsClosed(s: System, c: Channel) {
    match c
    case ServerOut => ServerClosed(s)
    case ServerDone => s.server.phase.DoneClosed?
    case PointsOut => s.points.phase.PointClosed?
    case AgentsOut => s.agents.closed
    case ConverterOut => s.converter.ConverterClosed?
    case LoaderOut => s.loader.LoaderClosed?
    case RequesterOut => s.requester.RequesterClosed?
    case MergerOut => s.merger.closed
    case LimiterOut => !s.limiter.open
  }

  /** Does this step execute a close of the channel? */
  predicate Closes(s: System, st: Step, c: Channel) {
    match c
    case ServerOut => st.ServerCloseOut?
    case ServerDone => st.ServerCloseDone?
    case PointsOut => st.PointScan? && s.points.stream == []
    case AgentsOut => st.AgentClose?
    case ConverterOut => st.ConverterClose?
    case LoaderOut => st.LoaderClose?
    case RequesterOut => st.RequesterClose?
    case MergerOut => st.MergeClose?
    case LimiterOut => st.LimiterClose?
  }

  /** Does this step send on the channel? */
  predicate Sends(st: Step, c: Channel) {
    match c
    case ServerOut => st.ServerGive?
    case ServerDone => false
    case PointsOut => st.PointGive?
    case AgentsOut => st.Convert?
    case ConverterOut => st.ConverterGive?
    case LoaderOut => st.LoaderGive?
    case RequesterOut => st.RequesterGive?
    case MergerOut => st.Put?
    case LimiterOut => st.LimiterGive?
  }

  /** A channel is never closed twice and never sent on after its close. */
  lemma NoPanic(s: System, st: Step, c: Channel)
    requires Shape(s) && Orderly(s) && Enabled(s, st) && IsClosed(s, c)
    ensures !Closes(s, st, c) && !Sends(st, c)
  {
  }

  lemma DoneClosesAll(s: System)
    requires Shape(s) && Orderly(s) && AllDone(s)
    ensures forall c :: IsClosed(s, c)
  {
  }

  /** Shutdown: from the start of a process whose agent streams are finite, however timers, ticks
      and configurations are interleaved, the pipeline takes at most a fixed number of steps; and a
      state in which it cannot take another is finished, with every channel closed. */
  lemma Shutdown(place: S.Place, files: S.Files, file: L.File, handed: seq<Message>, published: seq<Message>,
                 log: seq<Message>, stream: seq<A.Decode>, points: seq<A.Decode>, steps: seq<Step>)
    requires var s := NewProcess(place, files, file, handed, published, log, stream, points);
             Runs(s, steps) && OneProcess(steps)
    ensures var s := NewProcess(place, files, file, handed, published, log, stream, points);
            var t := Run(s, steps);
            && OwnSteps(steps) <= Work(s) == 47 + 17 * |stream| + 17 * |points| + 8 * |files|
            && ((forall st :: OfThePipeline(st) ==> !Enabled(t, st)) ==> AllDone(t))
            && (AllDone(t) ==> forall c :: IsClosed(t, c))
  {
    var s := NewProcess(place, files, file, handed, published, log, stream, points);
    NewOrderly(place, files, file, handed, published, log, stream, points);
    NewWork(place, files, file, handed, published, log, stream, points);
    hide NewProcess, Work;
    RunWorks(s, steps);
    var t := Run(s, steps);
    hide Run, Runs, Enabled;
    if !AllDone(t) {
      NotStuck(t);
    } else {
      DoneClosesAll(t);
    }
  }

  lemma UpstreamCloses(s: System, st: Step, c: Channel)
    requires Shape(s) && Enabled(s, st) && IsUpstream(st)
    ensures IsClosed(Upstream(s, st), c) <==> IsClosed(s, c) || Closes(s, st, c)
  {
    hide A.ScanServer, A.ScanDataPoint;
  }

  lemma ConvertingCloses(s: System, st: Step, c: Channel)
    requires Shape(s) && Enabled(s, st) && IsConverting(st)
    ensures IsClosed(Converting(s, st), c) <==> IsClosed(s, c) || Closes(s, st, c)
  {
    hide S.Create, C.Convert;
  }

  lemma LoadingCloses(s: System, st: Step, c: Channel)
    requires Shape(s) && Enabled(s, st) && IsLoading(st)
    ensures IsClosed(Loading(s, st), c) <==> IsClosed(s, c) || Closes(s, st, c)
  {
    hide S.LoadMessage, ListsAll;
  }

  lemma RequestingCloses(s: System, st: Step, c: Channel)
    requires Shape(s) && Enabled(s, st) && IsRequesting(st)
    ensures IsClosed(Requesting(s, st), c) <==> IsClosed(s, c) || Closes(s, st, c)
  {
  }

  lemma DownstreamCloses(s: System, st: Step, c: Channel)
    requires Shape(s) && Enabled(s, st) && IsDownstream(st) && !st.Restart?
    ensures IsClosed(Downstream(s, st), c) <==> IsClosed(s, c) || Closes(s, st, c)
  {
    hide L.NextPeriod, L.Reconfigured, L.Settle, L.Accepts, L.Charge, L.AfterSend;
  }

  lemma StepCloses(s: System, st: Step, c: Channel)
    requires Shape(s) && Enabled(s, st) && !st.Restart?
    ensures IsClosed(Next(s, st), c) <==> IsClosed(s, c) || Closes(s, st, c)
  {
    hide Enabled, Upstream, Converting, Loading, Requesting, Downstream, IsClosed, Closes;
    if IsUpstream(st) {
      UpstreamCloses(s, st, c);
    } else if IsConverting(st) {
      ConvertingCloses(s, st, c);
    } else if IsLoading(st) {
      LoadingCloses(s, st, c);
    } else if IsRequesting(st) {
      RequestingCloses(s, st, c);
    } else {
      DownstreamCloses(s, st, c);
    }
  }

  ghost function Closings(s: System, steps: seq<Step>, c: Channel): nat
    requires Shape(s) && Runs(s, steps)
    decreases steps
  {
    if steps == [] then 0
    else (if Closes(s, steps[0], c) then 1 else 0) + Closings(Next(s, steps[0]), steps[1..], c)
  }

  lemma {:induction false} ClosingsCount(s: System, steps: seq<Step>, c: Channel)
    requires Shape(s) && Orderly(s) && Runs(s, steps) && OneProcess(steps)
    ensures Closings(s, steps, c) + (if IsClosed(s, c) then 1 else 0) == (if IsClosed(Run(s, steps), c) then 1 else 0)
    decreases steps
  {
    hide Next, Orderly, Enabled, Closes, IsClosed;
    if steps != [] {
      StepOrderly(s, steps[0]);
      StepCloses(s, steps[0], c);
      if IsClosed(s, c) {
        NoPanic(s, steps[0], c);
      }
      assert OneProcess(steps[1..]) by {
        forall i | 0 <= i < |steps[1..]| ensures !steps[1..][i].Restart? { assert steps[1..][i] == steps[i + 1]; }
      }
      ClosingsCount(Next(s, steps[0]), steps[1..], c);
    }
  }

  /** In a run of one process that finishes, every channel is closed exactly once. */
  lemma ClosedExactlyOnce(place: S.Place, files: S.Files, file: L.File, handed: seq<Message>, published: seq<Message>,
                          log: seq<Message>, stream: seq<A.Decode>, points: seq<A.Decode>, steps: seq<Step>, c: Channel)
    requires var s := NewProcess(place, files, file, handed, published, log, stream, points);
             Runs(s, steps) && OneProcess(steps) && AllDone(Run(s, steps))
    ensures Closings(NewProcess(place, files, file, handed, published, log, stream, points), steps, c) == 1
  {
    var s := NewProcess(place, files, file, handed, published, log, stream, points);
    NewOrderly(place, files, file, handed, published, log, stream, points);
    assert !IsClosed(s, c);
    hide NewProcess, Orderly, Runs, Run, IsClosed, Closings;
    ClosingsCount(s, steps, c);
    RunWorks(s, steps);
    DoneClosesAll(Run(s, steps));
  }
}
