/** What goes through the channels of the wired client: over every run of a process, each stage sends
    what its own module says of it, and a finished run has passed all of it on. */
module PipelineContents {
  import opened Broker
  import opened Pipeline
  import A = Agent
  import C = Converters
  import L = Limiter
  import M = Merge
  import S = Store

  // ---- The mergers ----

  /** The step of the agent merger that a step of the client is. */
  function AgentsStep(s: System, st: Step): Option<M.Step<A.AgentMessage>>
    requires Shape(s)
  {
    match st
    case ServerGive => Some(M.Receive(0, if s.server.phase.Sending? then s.server.phase.m else A.CLEAN_EXIT))
    case PointGive => if s.points.phase.PointSending? then Some(M.Receive(1, s.points.phase.p)) else None
    case AgentFinish(i) => Some(M.Finish(i))
    case AgentClose => Some(M.Close)
    case Convert(i, _, _, _) => Some(M.Handoff(i))
    case _ => None
  }

  /** The step of the message merger that a step of the client is. */
  function MergerStep(s: System, st: Step): Option<M.Step<Message>>
    requires Shape(s)
  {
    match st
    case ConverterGive => if s.converter.Emitting? then Some(M.Receive(0, s.converter.m)) else None
    case LoaderGive => if s.loader.Loaded? then Some(M.Receive(1, s.loader.m)) else None
    case RequesterGive => if s.requester.Reporting? then Some(M.Receive(2, s.requester.m)) else None
    case Put(i) => Some(M.Put(i))
    case MergeFinish(i) => Some(M.Finish(i))
    case MergeClose => Some(M.Close)
    case LimiterTake => Some(M.Take)
    case _ => None
  }

  predicate Moved<T(==)>(before: M.State<T>, after: M.State<T>, st: Option<M.Step<T>>) {
    if st.None? then after == before
    else M.Enabled(before, st.value) && |before.got| == |before.workers| && after == M.Next(before, st.value)
  }

  lemma UpstreamMoves(s: System, st: Step)
    requires Shape(s) && Enabled(s, st) && IsUpstream(st)
    ensures var t := Upstream(s, st);
            Moved(s.agents, t.agents, AgentsStep(s, st)) && Moved(s.merger, t.merger, MergerStep(s, st))
  {
    hide A.ScanServer, A.ScanDataPoint;
  }

  lemma ConvertingMoves(s: System, st: Step)
    requires Shape(s) && Enabled(s, st) && IsConverting(st)
    ensures var t := Converting(s, st);
            Moved(s.agents, t.agents, AgentsStep(s, st)) && Moved(s.merger, t.merger, MergerStep(s, st))
  {
    hide S.Create, C.Convert;
  }

  lemma LoadingMoves(s: System, st: Step)
    requires Shape(s) && Enabled(s, st) && IsLoading(st)
    ensures var t := Loading(s, st);
            Moved(s.agents, t.agents, AgentsStep(s, st)) && Moved(s.merger, t.merger, MergerStep(s, st))
  {
    hide S.LoadMessage, ListsAll;
  }

  lemma RequestingMoves(s: System, st: Step)
    requires Shape(s) && Enabled(s, st) && IsRequesting(st)
    ensures var t := Requesting(s, st);
            Moved(s.agents, t.agents, AgentsStep(s, st)) && Moved(s.merger, t.merger, MergerStep(s, st))
  {
  }

  lemma DownstreamMoves(s: System, st: Step)
    requires Shape(s) && Enabled(s, st) && IsDownstream(st) && !st.Restart?
    ensures var t := Downstream(s, st);
            Moved(s.agents, t.agents, AgentsStep(s, st)) && Moved(s.merger, t.merger, MergerStep(s, st))
  {
    hide L.NextPeriod, L.Reconfigured, L.Settle, L.Accepts, L.Charge, L.AfterSend;
  }

  /** Every step of a process moves the two mergers by at most one step of their own. */
  lemma StepMoves(s: System, st: Step)
    requires Shape(s) && Enabled(s, st) && !st.Restart?
    ensures var t := Next(s, st);
            Moved(s.agents, t.agents, AgentsStep(s, st)) && Moved(s.merger, t.merger, MergerStep(s, st))
  {
    hide Enabled, Upstream, Converting, Loading, Requesting, Downstream, Moved;
    if IsUpstream(st) {
      UpstreamMoves(s, st);
    } else if IsConverting(st) {
      ConvertingMoves(s, st);
    } else if IsLoading(st) {
      LoadingMoves(s, st);
    } else if IsRequesting(st) {
      RequestingMoves(s, st);
    } else {
      DownstreamMoves(s, st);
    }
  }

  ghost predicate Merging(s: System) {
    M.Inv(s.agents) && M.Inv(s.merger)
  }

  lemma StepMerging(s: System, st: Step)
    requires Shape(s) && Merging(s) && Enabled(s, st) && !st.Restart?
    ensures Merging(Next(s, st))
  {
    StepMoves(s, st);
    hide Next, Enabled, M.Inv, M.Next, M.Enabled;
    var a, m := AgentsStep(s, st), MergerStep(s, st);
    if a.Some? {
      M.NextInv(s.agents, a.value);
    }
    if m.Some? {
      M.NextInv(s.merger, m.value);
    }
  }

  // ---- The other stages ----

  lemma DownstreamLeaves(s: System, st: Step)
    requires Shape(s) && Enabled(s, st) && IsDownstream(st) && !st.Restart?
    ensures var t := Downstream(s, st);
            && t.server == s.server && t.points == s.points && t.converter == s.converter && t.log == s.log
            && t.loader == s.loader && t.requester == s.requester
            && t.limit == (if st.StorageLimit? then st.limit else s.limit)
  {
    hide L.NextPeriod, L.Reconfigured, L.Settle, L.Accepts, L.Charge, L.AfterSend;
  }

  /** A step leaves the stages alone that it is not a step of. */
  lemma StepLeaves(s: System, st: Step)
    requires Shape(s) && Enabled(s, st) && !st.Restart?
    ensures var t := Next(s, st);
            && (!IsUpstream(st) ==> t.server == s.server && t.points == s.points)
            && (!IsConverting(st) ==> t.converter == s.converter && t.log == s.log)
            && (!IsLoading(st) ==> t.loader == s.loader)
            && (!IsRequesting(st) ==> t.requester == s.requester)
            && (!st.StorageLimit? ==> t.limit == s.limit)
  {
    hide Enabled;
    if IsUpstream(st) {
      UpstreamFrame(s, st);
      hide Upstream;
    } else if IsConverting(st) {
      ConvertingFrame(s, st);
      hide Converting;
    } else if IsLoading(st) {
      LoadingFrame(s, st);
      hide Loading;
    } else if IsRequesting(st) {
      RequestingFrame(s, st);
      hide Requesting;
    } else {
      DownstreamLeaves(s, st);
      hide Downstream;
    }
  }

  // ---- The agent servers ----

  function ServerRest(v: ServerStage): seq<A.AgentMessage> {
    (if v.scanner.err.Some? then [] else A.Messages(v.stream))
    + (if v.scanner.errd || A.HasEvent(v.stream) then [] else [A.CLEAN_EXIT])
  }

  /** What the server has still to send, said by the stream that is left. */
  function ServerLeft(v: ServerStage): seq<A.AgentMessage> {
    match v.phase
    case Scanning => ServerRest(v)
    case Sending(m) => [m] + ServerRest(v)
    case SendingExit => [A.CLEAN_EXIT]
    case AtEnd => []
    case OutClosed => []
    case DoneClosed => []
  }

  function PointLeft(v: PointStage): seq<A.AgentMessage> {
    (if v.phase.PointSending? then [v.phase.p] else [])
    + (if v.scanner.err.Some? then [] else A.PointSends(v.stream))
  }

  predicate Serving(s: System, stream: seq<A.Decode>)
    requires Shape(s)
  {
    s.agents.got[0] + ServerLeft(s.server) == A.ServerSends(stream)
  }

  predicate Pointing(s: System, points: seq<A.Decode>)
    requires Shape(s)
  {
    && s.agents.got[1] + PointLeft(s.points) == A.PointSends(points)
    && (s.points.phase.PointClosed? ==> s.points.stream == [])
  }

  lemma HasEventNext(d: A.Decode, rest: seq<A.Decode>)
    ensures A.HasEvent([d] + rest) <==> A.IsEvent(d) || A.HasEvent(rest)
  {
    assert ([d] + rest)[0] == d;
    assert forall i :: 0 <= i < |rest| ==> ([d] + rest)[i + 1] == rest[i];
  }

  lemma MessagesNext(d: A.Decode, rest: seq<A.Decode>)
    ensures A.Messages([d] + rest) == if d.Undecodable? then [] else [d.m] + A.Messages(rest)
    ensures A.PointSends([d] + rest) ==
            if d.Undecodable? then [] else [A.AgentMessage("datapoint", d.m.data)] + A.PointSends(rest)
  {
    assert ([d] + rest)[1..] == rest;
  }

  lemma NoEvents()
    ensures !A.HasEvent([]) && A.Messages([]) == [] && A.PointSends([]) == []
  {
  }

  lemma ServerScanLeft(s: System)
    requires Shape(s) && s.server.phase.Scanning?
    ensures ServerLeft(Upstream(s, ServerScan).server) == ServerLeft(s.server)
  {
    var v := s.server;
    var w := Upstream(s, ServerScan).server;
    assert w == Scanned(s).server;
    hide Upstream, A.HasEvent, A.Messages;
    if v.stream != [] {
      assert v.stream == [v.stream[0]] + v.stream[1..];
      HasEventNext(v.stream[0], v.stream[1..]);
      MessagesNext(v.stream[0], v.stream[1..]);
    } else {
      NoEvents();
    }
  }

  lemma PointScanLeft(s: System)
    requires Shape(s) && s.points.phase.PointScanning?
    ensures PointLeft(Upstream(s, PointScan).points) == PointLeft(s.points)
    ensures Upstream(s, PointScan).points.phase.PointClosed? ==> Upstream(s, PointScan).points.stream == []
  {
    var v := s.points;
    var w := Upstream(s, PointScan).points;
    assert w == PointScanned(s).points;
    hide Upstream, A.PointSends;
    if v.stream != [] {
      assert v.stream == [v.stream[0]] + v.stream[1..];
      MessagesNext(v.stream[0], v.stream[1..]);
    } else {
      NoEvents();
    }
  }

  lemma ScanStages(s: System, st: Step)
    requires Shape(s) && Enabled(s, st) && IsUpstream(st)
    ensures st.ServerScan? ==> Upstream(s, st).points == s.points
    ensures st.PointScan? ==> Upstream(s, st).server == s.server
  {
    hide A.ScanServer, A.ScanDataPoint;
  }

  /** A message that is given moves from what is left to what was received. */
  lemma GiveLeft(s: System, st: Step)
    requires Shape(s) && Enabled(s, st) && IsUpstream(st) && !st.ServerScan? && !st.PointScan?
    ensures var t := Upstream(s, st);
            var a := AgentsStep(s, st);
            && ServerLeft(s.server) == (if st.ServerGive? then [a.value.m] else []) + ServerLeft(t.server)
            && PointLeft(s.points) == (if st.PointGive? then [a.value.m] else []) + PointLeft(t.points)
            && (t.points.phase.PointClosed? ==> s.points.phase.PointClosed? && t.points == s.points)
  {
    hide A.HasEvent, A.Messages, A.PointSends, M.Next;
  }

  lemma AgentsGot(s: System, st: Step)
    requires Shape(s) && Enabled(s, st) && IsUpstream(st)
    ensures var t := Upstream(s, st);
            && t.agents.got[0] == s.agents.got[0] + (if st.ServerGive? then [AgentsStep(s, st).value.m] else [])
            && t.agents.got[1] == s.agents.got[1] + (if st.PointGive? then [AgentsStep(s, st).value.m] else [])
  {
    UpstreamMoves(s, st);
    hide Upstream;
  }

  lemma Associate<T>(a: seq<T>, b: seq<T>, c: seq<T>)
    ensures a + b + c == a + (b + c)
  {
  }

  /** What the servers have sent and have still to send is the same after each of their steps. */
  lemma UpstreamKeeps(s: System, st: Step)
    requires Shape(s) && Enabled(s, st) && IsUpstream(st)
    ensures var t := Upstream(s, st);
            && t.agents.got[0] + ServerLeft(t.server) == s.agents.got[0] + ServerLeft(s.server)
            && t.agents.got[1] + PointLeft(t.points) == s.agents.got[1] + PointLeft(s.points)
            && (t.points.phase.PointClosed? ==>
                  t.points.stream == [] || (s.points.phase.PointClosed? && t.points == s.points))
  {
    AgentsGot(s, st);
    ScanStages(s, st);
    if st.ServerScan? {
      ServerScanLeft(s);
    } else if st.PointScan? {
      PointScanLeft(s);
    } else {
      GiveLeft(s, st);
    }
    var t := Upstream(s, st);
    hide Upstream, Enabled, ServerLeft, PointLeft, AgentsStep, IsUpstream;
    var a := if st.ServerGive? then [AgentsStep(s, st).value.m] else [];
    var b := if st.PointGive? then [AgentsStep(s, st).value.m] else [];
    Associate(s.agents.got[0], a, ServerLeft(t.server));
    Associate(s.agents.got[1], b, PointLeft(t.points));
  }

  lemma GotUnchanged(s: System, st: Step)
    requires Shape(s) && Enabled(s, st) && !st.Restart? && !IsUpstream(st)
    ensures Next(s, st).agents.got == s.agents.got
  {
    StepMoves(s, st);
    hide Next, Enabled;
  }

  lemma StepServing(s: System, st: Step, stream: seq<A.Decode>, points: seq<A.Decode>)
    requires Shape(s) && Serving(s, stream) && Pointing(s, points) && Enabled(s, st) && !st.Restart?
    ensures Serving(Next(s, st), stream) && Pointing(Next(s, st), points)
  {
    if IsUpstream(st) {
      UpstreamKeeps(s, st);
      hide Upstream;
    } else {
      StepLeaves(s, st);
      GotUnchanged(s, st);
      hide Next;
    }
    hide Enabled, ServerLeft, PointLeft, A.ServerSends, A.PointSends, AgentsStep;
  }
}
