/**
 The whole client of cmd/client/main.go:301-349 as an interleaved step system: agent server and
 data point server, agent merger, converter with its store, message loader, periodic requester,
 message merger, data limiter and producer, each a goroutine that blocks on its channels, plus the
 files that outlive the process and its restarts.

 A send on an unbuffered channel is one step of its sender and its receiver together.
 */
module Pipeline {
  import opened Broker
  import opened Calendar
  import A = Agent
  import C = Converters
  import L = Limiter
  import M = Merge
  import S = Store

  datatype ServerPhase =
    | Scanning
    | Sending(m: A.AgentMessage)
    | SendingExit
    | AtEnd
    | OutClosed
    | DoneClosed

  datatype ServerStage = ServerStage(stream: seq<A.Decode>, scanner: A.Scanner, phase: ServerPhase)

  datatype PointPhase = PointScanning | PointSending(p: A.AgentMessage) | PointClosed

  datatype PointStage = PointStage(stream: seq<A.Decode>, scanner: A.Scanner, phase: PointPhase)

  datatype ConverterStage = Ready | Emitting(m: Message) | ConverterClosed

  datatype LoaderStage =
    | NotListed
    | Listed(paths: seq<string>)
    | Loaded(m: Message, rest: seq<string>)
    | LoaderClosed

  datatype RequesterStage = Asking(failedOnce: bool) | Reporting(m: Message) | Quitting | RequesterClosed

  /** The limiter between taking a message and saving the count: it offers the message to the
      producer, and once that has it, it charges the account. */
  datatype Hold = Free | Offering(m: Message) | Charging(m: Message)

  datatype LimiterStage = LimiterStage(account: L.Account, state: L.State, hold: Hold, open: bool)

  datatype ProducerStage = Receiving | Publishing(m: Message) | ProducerFinished

  /** `published` and `handed` are what the broker acknowledged and what the limiter handed over, in
      all processes so far; `log` is every message whose save succeeded. `base` and `created` belong
      to the present process: where its publications start, and the paths it has created. */
  datatype System = System(
    server: ServerStage,
    points: PointStage,
    agents: M.State<A.AgentMessage>,
    converter: ConverterStage,
    loader: LoaderStage,
    requester: RequesterStage,
    merger: M.State<Message>,
    limiter: LimiterStage,
    producer: ProducerStage,
    place: S.Place,
    limit: Option<int>,
    store: S.State,
    file: L.File,
    handed: seq<Message>,
    published: seq<Message>,
    log: seq<Message>,
    base: nat,
    created: set<string>)

  /** What the loader finds when it reads a file: all of it, an error, or only its first n characters,
      because the converter is still writing it. */
  datatype Reading = Whole | Unreadable | HalfWritten(n: nat)

  datatype Step =
    // agent server (agent/server.go:75-89)
    | ServerScan | ServerGive | ServerCloseOut | ServerCloseDone
    // data point server (agent/datapoint.go:56-65)
    | PointScan | PointGive
    // agent merger (agent/merge.go:36-50)
    | AgentFinish(i: nat) | AgentClose
    // converter (schema/convert.go:91-116), receiving from worker i of the agent merger
    | Convert(i: nat, encoded: C.Encoded, measured: Option<nat>, write: S.WriteOutcome)
    | ConverterGive | ConverterClose
    // message loader (broker/message.go:111-127)
    | LoaderList(order: Option<seq<string>>) | LoaderRead(reading: Reading) | LoaderGive | LoaderClose
    // periodic requester (agent/requester.go:37-71)
    | RequesterTick(failure: Option<string>) | RequesterPeriod(seconds: int) | RequesterDone
    | RequesterGive | RequesterClose
    // message merger (message/merge.go:33-47)
    | Put(i: nat) | MergeFinish(i: nat) | MergeClose
    // data limiter (message/limiter.go:114-225)
    | LimiterTake | LimiterGive | LimiterSave(save: L.SaveOutcome)
    | LimiterTimer(now: Time, save: L.SaveOutcome)
    | LimiterConfigure(conf: L.CellularConfig, now: Time, save: L.SaveOutcome)
    | LimiterClose
    // producer (broker/mqtt.go:98-114)
    | Publish(acknowledged: bool, removed: bool) | ProducerFinish
    // a new storage limit (broker/message.go:91), and the end of the process and the next start
    | StorageLimit(limit: Option<int>)
    | Restart(pid: nat, stream: seq<A.Decode>, points: seq<A.Decode>)

  predicate Shape(s: System) {
    && |s.agents.workers| == |s.agents.got| == 2 && s.agents.cap == 0
    && |s.merger.workers| == |s.merger.got| == 3 && s.merger.cap == 10
  }

  /** A process that starts on the files of the given place. */
  function NewProcess(place: S.Place, files: S.Files, file: L.File, handed: seq<Message>, published: seq<Message>,
                      log: seq<Message>, stream: seq<A.Decode>, points: seq<A.Decode>): (s: System)
    ensures Shape(s)
  {
    var a := L.Load(file);
    System(
      ServerStage(stream, A.NEW_SCANNER, Scanning),
      PointStage(points, A.NEW_SCANNER, PointScanning),
      M.Start(2, 0), Ready, NotListed, Asking(false), M.Start(3, 10),
      LimiterStage(a, L.Settle(a), Free, true), Receiving,
      place, None, S.State(files, 0), file, handed, published, log, |published|, {})
  }

  predicate ServerClosed(s: System) {
    s.server.phase.OutClosed? || s.server.phase.DoneClosed?
  }

  /** Is the i-th source of the agent merger closed? */
  predicate AgentSourceClosed(s: System, i: nat) {
    if i == 0 then ServerClosed(s) else s.points.phase.PointClosed?
  }

  /** Is the i-th source of the message merger closed? */
  predicate MergeSourceClosed(s: System, i: nat) {
    if i == 0 then s.converter.ConverterClosed?
    else if i == 1 then s.loader.LoaderClosed?
    else s.requester.RequesterClosed?
  }

  /** The names in the directory, each once; none when `Stat` of the directory fails, because the
      loader then takes it for absent. */
  ghost predicate ListsAll(files: S.Files, order: seq<string>) {
    && (order == [] || forall p :: p in files <==> p in order)
    && forall i, j :: 0 <= i < j < |order| ==> order[i] != order[j]
  }

  /** A creation is one step, taken when the file is opened; until the converter sends the message
      on, the file may still be half written. */
  predicate BeingWritten(s: System, path: string) {
    s.converter.Emitting? && s.converter.m.path == Some(path)
  }

  /** The text that the loader reads; None is an error. */
  function TextRead(files: S.Files, path: string, reading: Reading): Option<string> {
    match reading
    case Whole => S.Lookup(files, path)
    case Unreadable => None
    case HalfWritten(n) =>
      var text := S.Lookup(files, path);
      if text.Some? && n < |text.value| then Some(text.value[..n]) else text
  }

  ghost predicate Enabled(s: System, st: Step)
    requires Shape(s)
  {
    match st
    case ServerScan => s.server.phase.Scanning?
    case ServerGive => (s.server.phase.Sending? || s.server.phase.SendingExit?) && s.agents.workers[0].Idle?
    case ServerCloseOut => s.server.phase.AtEnd?
    case ServerCloseDone => s.server.phase.OutClosed?
    case PointScan => s.points.phase.PointScanning?
    case PointGive => s.points.phase.PointSending? && s.agents.workers[1].Idle?
    case AgentFinish(i) => i < 2 && s.agents.workers[i].Idle? && AgentSourceClosed(s, i)
    case AgentClose => s.agents.wg == 0 && !s.agents.closed
    case Convert(i, _, _, _) => i < 2 && s.agents.workers[i].Holding? && s.agents.buf == [] && s.converter.Ready?
    case ConverterGive => s.converter.Emitting? && s.merger.workers[0].Idle?
    case ConverterClose => s.converter.Ready? && s.agents.closed && s.agents.buf == []
    case LoaderList(order) => s.loader.NotListed? && (order.Some? ==> ListsAll(s.store.files, order.value))
    case LoaderRead(reading) =>
      s.loader.Listed? && s.loader.paths != [] && (reading.HalfWritten? ==> BeingWritten(s, s.loader.paths[0]))
    case LoaderGive => s.loader.Loaded? && s.merger.workers[1].Idle?
    case LoaderClose => s.loader == Listed([])
    case RequesterTick(_) => s.requester.Asking?
    case RequesterPeriod(_) => s.requester.Asking?
    case RequesterDone => s.requester.Asking? && s.server.phase.DoneClosed?
    case RequesterGive => s.requester.Reporting? && s.merger.workers[2].Idle?
    case RequesterClose => s.requester.Quitting?
    case Put(i) => i < 3 && s.merger.workers[i].Holding? && |s.merger.buf| < 10
    case MergeFinish(i) => i < 3 && s.merger.workers[i].Idle? && MergeSourceClosed(s, i)
    case MergeClose => s.merger.wg == 0 && !s.merger.closed
    case LimiterTake => s.limiter.open && s.limiter.hold.Free? && s.merger.buf != []
    case LimiterGive => s.limiter.hold.Offering? && s.producer.Receiving?
    case LimiterSave(_) => s.limiter.hold.Charging?
    case LimiterTimer(_, _) => s.limiter.open && s.limiter.hold.Free?
    case LimiterConfigure(_, _, _) => s.limiter.open && s.limiter.hold.Free?
    case LimiterClose => s.limiter.open && s.limiter.hold.Free? && s.merger.closed && s.merger.buf == []
    case Publish(_, _) => s.producer.Publishing?
    case ProducerFinish => s.producer.Receiving? && !s.limiter.open
    case StorageLimit(_) => true
    case Restart(_, _, _) => true
  }

  function Scanned(s: System): System
    requires s.server.phase.Scanning?
  {
    var v := s.server;
    if v.stream == [] then
      s.(server := v.(phase := if v.scanner.errd then AtEnd else SendingExit))
    else
      var scanner := A.ScanServer(v.scanner, v.stream[0]);
      s.(server := ServerStage(v.stream[1..], scanner, if scanner.err.None? then Sending(scanner.msg) else Scanning))
  }

  function PointScanned(s: System): System
    requires s.points.phase.PointScanning?
  {
    var v := s.points;
    if v.stream == [] then
      s.(points := v.(phase := PointClosed))
    else
      var scanner := A.ScanDataPoint(v.scanner, v.stream[0]);
      var phase := if scanner.err.None? then PointSending(scanner.msg) else PointScanning;
      s.(points := PointStage(v.stream[1..], scanner, phase))
  }

  /** The converter receives a message, converts it, stores it, and has a message to send. */
  function Converted(s: System, m: A.AgentMessage, encoded: C.Encoded, measured: Option<nat>, write: S.WriteOutcome)
    : System
  {
    if !C.Kept(m) then s
    else
      var (store, r) := S.Create(s.store, s.place, s.limit, measured, C.Convert(m, encoded), write);
      match r
      case Failed(error) => s.(store := store, converter := Emitting(ErrorOnly(error)))
      case Created(b) =>
        s.(store := store, converter := Emitting(b), log := s.log + [b],
           created := s.created + (if b.path.Some? then {b.path.value} else {}))
  }

  /** The limiter's account changes, is saved, and `initial` picks the state to wait in. */
  function LimiterReset(s: System, a: L.Account, save: L.SaveOutcome): System {
    s.(limiter := s.limiter.(account := a, state := L.Settle(a)), file := L.Save(s.file, a, save))
  }

  function LimiterTaken(s: System): System
    requires s.merger.buf != [] && Shape(s)
  {
    var m := s.merger.buf[0];
    var l := s.limiter;
    s.(merger := M.Next(s.merger, M.Take),
       limiter := if l.state == L.UnderBudget && L.Accepts(l.account, Len(m)) then l.(hold := Offering(m))
                  else l.(state := L.OverBudget))
  }

  /** The broker acknowledges a message or not, and if it does, removing its file succeeds or not. */
  function Published(s: System, acknowledged: bool, removed: bool): System
    requires s.producer.Publishing?
  {
    var m := s.producer.m;
    if acknowledged then
      s.(producer := Receiving, published := s.published + [m],
         store := if m.path.Some? && removed then s.store.(files := s.store.files - {m.path.value}) else s.store)
    else
      s.(producer := Receiving)
  }

  /** Steps of the agent servers and their merger. */
  predicate IsUpstream(st: Step) {
    st.ServerScan? || st.ServerGive? || st.ServerCloseOut? || st.ServerCloseDone? || st.PointScan?
    || st.PointGive? || st.AgentFinish? || st.AgentClose?
  }

  /** Steps of the converter, of the loader and of the requester. */
  predicate IsConverting(st: Step) {
    st.Convert? || st.ConverterGive? || st.ConverterClose?
  }

  predicate IsLoading(st: Step) {
    st.LoaderList? || st.LoaderRead? || st.LoaderGive? || st.LoaderClose?
  }

  predicate IsRequesting(st: Step) {
    st.RequesterTick? || st.RequesterPeriod? || st.RequesterDone? || st.RequesterGive? || st.RequesterClose?
  }

  /** Steps of the message merger, the limiter and the producer, and what comes from outside. */
  predicate IsDownstream(st: Step) {
    !IsUpstream(st) && !IsConverting(st) && !IsLoading(st) && !IsRequesting(st)
  }

  ghost function Upstream(s: System, st: Step): (t: System)
    requires Shape(s) && Enabled(s, st) && IsUpstream(st)
    ensures Shape(t)
  {
    match st
    case ServerScan => Scanned(s)
    case ServerGive =>
      var m := if s.server.phase.Sending? then s.server.phase.m else A.CLEAN_EXIT;
      s.(server := s.server.(phase := if s.server.phase.Sending? then Scanning else AtEnd),
         agents := M.Next(s.agents, M.Receive(0, m)))
    case ServerCloseOut => s.(server := s.server.(phase := OutClosed))
    case ServerCloseDone => s.(server := s.server.(phase := DoneClosed))
    case PointScan => PointScanned(s)
    case PointGive =>
      s.(points := s.points.(phase := PointScanning), agents := M.Next(s.agents, M.Receive(1, s.points.phase.p)))
    case AgentFinish(i) => s.(agents := M.Next(s.agents, M.Finish(i)))
    case AgentClose => s.(agents := M.Next(s.agents, M.Close))
  }

  ghost function Converting(s: System, st: Step): (t: System)
    requires Shape(s) && Enabled(s, st) && IsConverting(st)
    ensures Shape(t)
  {
    match st
    case Convert(i, encoded, measured, write) =>
      Converted(s.(agents := M.Next(s.agents, M.Handoff(i))), s.agents.workers[i].m, encoded, measured, write)
    case ConverterGive => s.(converter := Ready, merger := M.Next(s.merger, M.Receive(0, s.converter.m)))
    case ConverterClose => s.(converter := ConverterClosed)
  }

  ghost function Loading(s: System, st: Step): (t: System)
    requires Shape(s) && Enabled(s, st) && IsLoading(st)
    ensures Shape(t)
  {
    match st
    case LoaderList(order) =>
      s.(loader := if order.Some? then Listed(order.value) else Loaded(ErrorOnly(S.NOT_MEASURED), []))
    case LoaderRead(reading) =>
      var p := s.loader.paths[0];
      s.(loader := Loaded(S.LoadMessage(p, TextRead(s.store.files, p, reading)), s.loader.paths[1..]))
    case LoaderGive => s.(loader := Listed(s.loader.rest), merger := M.Next(s.merger, M.Receive(1, s.loader.m)))
    case LoaderClose => s.(loader := LoaderClosed)
  }

  ghost function Requesting(s: System, st: Step): (t: System)
    requires Shape(s) && Enabled(s, st) && IsRequesting(st)
    ensures Shape(t)
  {
    match st
    case RequesterTick(failure) =>
      if failure.None? then s
      else s.(requester := if s.requester.failedOnce then Reporting(ErrorOnly(failure.value)) else Asking(true))
    case RequesterPeriod(_) => s
    case RequesterDone => s.(requester := Quitting)
    case RequesterGive => s.(requester := Quitting, merger := M.Next(s.merger, M.Receive(2, s.requester.m)))
    case RequesterClose => s.(requester := RequesterClosed)
  }

  ghost function Downstream(s: System, st: Step): (t: System)
    requires Shape(s) && Enabled(s, st) && IsDownstream(st)
    ensures Shape(t)
  {
    match st
    case Put(i) => s.(merger := M.Next(s.merger, M.Put(i)))
    case MergeFinish(i) => s.(merger := M.Next(s.merger, M.Finish(i)))
    case MergeClose => s.(merger := M.Next(s.merger, M.Close))
    case LimiterTake => LimiterTaken(s)
    case LimiterGive =>
      s.(limiter := s.limiter.(hold := Charging(s.limiter.hold.m)), producer := Publishing(s.limiter.hold.m),
         handed := s.handed + [s.limiter.hold.m])
    case LimiterSave(save) =>
      var n := Len(s.limiter.hold.m);
      var a := L.Charge(s.limiter.account, n);
      s.(limiter := s.limiter.(account := a, state := L.AfterSend(s.limiter.account, n, save), hold := Free),
         file := L.Save(s.file, a, save))
    case LimiterTimer(now, save) => LimiterReset(s, L.NextPeriod(s.limiter.account, now), save)
    case LimiterConfigure(conf, now, save) => LimiterReset(s, L.Reconfigured(conf, now), save)
    case LimiterClose => s.(limiter := s.limiter.(open := false))
    case Publish(acknowledged, removed) => Published(s, acknowledged, removed)
    case ProducerFinish => s.(producer := ProducerFinished)
    case StorageLimit(limit) => s.(limit := limit)
    case Restart(pid, stream, points) =>
      NewProcess(s.place.(pid := pid), s.store.files, s.file, s.handed, s.published, s.log, stream, points)
  }

  ghost function Next(s: System, st: Step): (t: System)
    requires Shape(s) && Enabled(s, st)
    ensures Shape(t)
  {
    if IsUpstream(st) then Upstream(s, st)
    else if IsConverting(st) then Converting(s, st)
    else if IsLoading(st) then Loading(s, st)
    else if IsRequesting(st) then Requesting(s, st)
    else Downstream(s, st)
  }

  // ---- What each group of steps leaves alone ----

  lemma UpstreamFrame(s: System, st: Step)
    requires Shape(s) && Enabled(s, st) && IsUpstream(st)
    ensures var t := Upstream(s, st);
            t == s.(server := t.server, points := t.points, agents := t.agents)
  {
    hide A.ScanServer, A.ScanDataPoint;
  }

  lemma ConvertingFrame(s: System, st: Step)
    requires Shape(s) && Enabled(s, st) && IsConverting(st)
    ensures var t := Converting(s, st);
            t == s.(agents := t.agents, converter := t.converter, merger := t.merger,
                    store := t.store, log := t.log, created := t.created)
    ensures var t := Converting(s, st);
            if st.Convert? then t.merger == s.merger
            else t.store == s.store && t.log == s.log && t.created == s.created
  {
    hide S.Create, C.Convert;
  }

  lemma LoadingFrame(s: System, st: Step)
    requires Shape(s) && Enabled(s, st) && IsLoading(st)
    ensures var t := Loading(s, st);
            t == s.(loader := t.loader, merger := t.merger)
  {
    hide S.LoadMessage, ListsAll;
  }

  lemma RequestingFrame(s: System, st: Step)
    requires Shape(s) && Enabled(s, st) && IsRequesting(st)
    ensures var t := Requesting(s, st);
            t == s.(requester := t.requester, merger := t.merger)
  {
  }

  ghost predicate Runs(s: System, steps: seq<Step>)
    requires Shape(s)
    decreases steps
  {
    steps == [] || (Enabled(s, steps[0]) && Runs(Next(s, steps[0]), steps[1..]))
  }

  ghost function Run(s: System, steps: seq<Step>): (t: System)
    requires Shape(s) && Runs(s, steps)
    ensures Shape(t)
    decreases steps
  {
    if steps == [] then s else Run(Next(s, steps[0]), steps[1..])
  }

  /** Steps of the process that is running. */
  ghost predicate OneProcess(steps: seq<Step>) {
    forall i :: 0 <= i < |steps| ==> !steps[i].Restart?
  }
}
