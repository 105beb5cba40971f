/** What the converter, the loader and the requester of the wired client send, and what a run of a
    process has passed on when it is finished. */
module PipelineOutputs {
  import opened Broker
  import opened Pipeline
  import opened PipelineContents
  import A = Agent
  import C = Converters
  import D = PipelineDelivery
  import L = Limiter
  import M = Merge
  import S = Store
  import Shutdown = PipelineShutdown

  // ---- The converter ----

  /** The messages that are not of type "log" or "applog". */
  function KeptOf(ms: seq<A.AgentMessage>): seq<A.AgentMessage> {
    if ms == [] then []
    else
      var n := |ms| - 1;
      KeptOf(ms[..n]) + (if ms[n].kind != "log" && ms[n].kind != "applog" then [ms[n]] else [])
  }

  /** The messages that own a file. */
  function StoredOf(ms: seq<Message>): seq<Message> {
    if ms == [] then []
    else
      var n := |ms| - 1;
      StoredOf(ms[..n]) + (if ms[n].path.Some? then [ms[n]] else [])
  }

  lemma KeptOfPush(ms: seq<A.AgentMessage>, m: A.AgentMessage)
    ensures KeptOf(ms + [m]) == KeptOf(ms) + (if C.Kept(m) then [m] else [])
  {
    assert (ms + [m])[..|ms|] == ms;
  }

  lemma StoredOfPush(ms: seq<Message>, m: Message)
    ensures StoredOf(ms + [m]) == StoredOf(ms) + (if m.path.Some? then [m] else [])
  {
    assert (ms + [m])[..|ms|] == ms;
  }

  /** Is b what may be made of m: its conversion with a file, or an error without one? */
  ghost predicate MadeFrom(b: Message, m: A.AgentMessage) {
    if b.path.Some? then exists e :: C.Tells(b, m, e)
    else
      && b == Message(b.error, "logs", None, None)
      && (b.error == S.NOT_MEASURED || b.error == S.STORAGE_FULL || b.error == S.NOT_SAVED)
  }

  ghost predicate Made(outs: seq<Message>, ins: seq<A.AgentMessage>) {
    |outs| == |ins| && forall i :: 0 <= i < |outs| ==> MadeFrom(outs[i], ins[i])
  }

  /** Is b what must be made of m? It is stored exactly when the directory was measured, the payload
      fits the limit and the write is complete, and then it tells of m. */
  ghost predicate SentFor(b: Message, m: A.AgentMessage, limit: Option<int>, encoded: C.Encoded, measured: Option<nat>,
                          write: S.WriteOutcome)
  {
    && MadeFrom(b, m)
    && (b.path.Some? <==>
          measured.Some? && S.Fits(limit, C.PayloadLen(m, encoded) + measured.value) && write.Complete?)
    && (b.path.Some? ==> C.Tells(b, m, encoded))
  }

  lemma CreatedSame(st: S.State, place: S.Place, limit: Option<int>, measured: Option<nat>, m: Message,
                    write: S.WriteOutcome)
    ensures var r := S.Create(st, place, limit, measured, m, write).1;
            r.Created? ==> r.m.path.Some? && r.m == m.(path := r.m.path)
  {
  }

  lemma CreatedTells(m: Message, b: Message, a: A.AgentMessage, encoded: C.Encoded)
    requires C.Tells(m, a, encoded) && b == m.(path := b.path)
    ensures C.Tells(b, a, encoded)
  {
  }

  lemma CreateSends(st: S.State, place: S.Place, limit: Option<int>, measured: Option<nat>, a: A.AgentMessage,
                    encoded: C.Encoded, write: S.WriteOutcome)
    requires C.Kept(a)
    ensures var r := S.Create(st, place, limit, measured, C.Convert(a, encoded), write).1;
            && (r.Created? ==> r.m.path.Some? && SentFor(r.m, a, limit, encoded, measured, write))
            && (r.Failed? ==> SentFor(ErrorOnly(r.error), a, limit, encoded, measured, write))
  {
    hide S.Create, C.Convert, S.Fits;
    var m := C.Convert(a, encoded);
    C.ConvertTells(a, encoded);
    assert Len(m) == C.PayloadLen(a, encoded);
    hide C.Tells, C.PayloadLen, Len;
    S.CreateMeans(st, place, limit, measured, m, write);
    CreatedSame(st, place, limit, measured, m, write);
    var r := S.Create(st, place, limit, measured, m, write).1;
    if r.Created? {
      CreatedTells(m, r.m, a, encoded);
    } else {
      assert r.error == S.NOT_MEASURED || r.error == S.STORAGE_FULL || r.error == S.NOT_SAVED;
    }
  }

  /** A conversion in the wired client: of a kept message, what must be made of it goes on, and what is
      stored is logged as saved; of others nothing. */
  lemma ConvertSends(s: System, st: Step)
    requires Shape(s) && Enabled(s, st) && st.Convert?
    ensures var t := Next(s, st);
            var a := s.agents.workers[st.i].m;
            if a.kind == "log" || a.kind == "applog" then t.converter == s.converter && t.log == s.log
            else
              && t.converter.Emitting?
              && SentFor(t.converter.m, a, s.limit, st.encoded, st.measured, st.write)
              && t.log == s.log + (if t.converter.m.path.Some? then [t.converter.m] else [])
  {
    var a := s.agents.workers[st.i].m;
    assert Next(s, st) == Converting(s, st);
    D.ConvertEffect(s, st);
    hide Converting, Next, Enabled, S.Create, C.Convert, SentFor;
    assert C.Kept(a) <==> a.kind != "log" && a.kind != "applog";
    if C.Kept(a) {
      CreateSends(s.store, s.place, s.limit, st.measured, a, st.encoded, st.write);
    }
  }

  function ConverterSent(s: System): seq<Message>
    requires Shape(s)
  {
    s.merger.got[0] + (if s.converter.Emitting? then [s.converter.m] else [])
  }

  ghost predicate Converted(s: System, log: seq<Message>)
    requires Shape(s)
  {
    Made(ConverterSent(s), KeptOf(s.agents.delivered)) && s.log == log + StoredOf(ConverterSent(s))
  }

  lemma MadePush(outs: seq<Message>, ins: seq<A.AgentMessage>, b: Message, m: A.AgentMessage)
    requires Made(outs, ins) && MadeFrom(b, m)
    ensures Made(outs + [b], ins + [m])
  {
    hide MadeFrom;
  }

  lemma HandedOver(s: System, st: Step)
    requires Shape(s) && Enabled(s, st) && st.Convert?
    ensures var t := Next(s, st);
            t.agents.delivered == s.agents.delivered + [s.agents.workers[st.i].m] && t.merger == s.merger
    ensures s.converter.Ready?
  {
    StepMoves(s, st);
    hide Next;
  }

  lemma ConvertConverted(s: System, st: Step, log: seq<Message>)
    requires Shape(s) && Converted(s, log) && Enabled(s, st) && st.Convert?
    ensures Converted(Next(s, st), log)
  {
    var t := Next(s, st);
    var a := s.agents.workers[st.i].m;
    HandedOver(s, st);
    ConvertSends(s, st);
    KeptOfPush(s.agents.delivered, a);
    assert C.Kept(a) <==> a.kind != "log" && a.kind != "applog";
    assert ConverterSent(s) == s.merger.got[0];
    hide Next, Enabled, MadeFrom, KeptOf, StoredOf, Made, C.Kept, C.Tells;
    if a.kind != "log" && a.kind != "applog" {
      var b := t.converter.m;
      MadePush(ConverterSent(s), KeptOf(s.agents.delivered), b, a);
      StoredOfPush(ConverterSent(s), b);
      Associate(log, StoredOf(ConverterSent(s)), if b.path.Some? then [b] else []);
    }
  }

  lemma AgentsBuffer(s: System, st: Step)
    requires Shape(s) && Enabled(s, st) && !st.Convert?
    ensures var a := AgentsStep(s, st);
            a.Some? ==> !a.value.Handoff? && !a.value.Take?
  {
  }

  /** What the message merger received from each of its sources changes only by the three gives. */
  lemma MergerGot(s: System, st: Step)
    requires Shape(s) && Enabled(s, st) && !st.Restart?
    ensures var t := Next(s, st);
            && t.merger.got[0] == s.merger.got[0] + (if st.ConverterGive? then [s.converter.m] else [])
            && t.merger.got[1] == s.merger.got[1] + (if st.LoaderGive? then [s.loader.m] else [])
            && t.merger.got[2] == s.merger.got[2] + (if st.RequesterGive? then [s.requester.m] else [])
            && (!st.Convert? ==> t.agents.delivered == s.agents.delivered)
  {
    StepMoves(s, st);
    if !st.Convert? {
      AgentsBuffer(s, st);
    }
    hide Next;
  }

  lemma GiveConverted(s: System, st: Step)
    requires Shape(s) && Enabled(s, st) && IsConverting(st) && !st.Convert?
    ensures ConverterSent(Next(s, st)) == ConverterSent(s) && Next(s, st).log == s.log
  {
    MergerGot(s, st);
    ConvertingFrame(s, st);
    assert Next(s, st) == Converting(s, st);
    assert !Converting(s, st).converter.Emitting?;
    hide Next, Converting;
  }

  lemma ConvertedSame(s: System, t: System, log: seq<Message>)
    requires Shape(s) && Shape(t) && Converted(s, log)
    requires ConverterSent(t) == ConverterSent(s) && t.agents.delivered == s.agents.delivered && t.log == s.log
    ensures Converted(t, log)
  {
  }

  lemma OtherConverted(s: System, st: Step)
    requires Shape(s) && Enabled(s, st) && !IsConverting(st) && !st.Restart?
    ensures var t := Next(s, st);
            ConverterSent(t) == ConverterSent(s) && t.agents.delivered == s.agents.delivered && t.log == s.log
  {
    MergerGot(s, st);
    StepLeaves(s, st);
    hide Next, Enabled;
  }

  lemma StepConverted(s: System, st: Step, log: seq<Message>)
    requires Shape(s) && Converted(s, log) && Enabled(s, st) && !st.Restart?
    ensures Converted(Next(s, st), log)
  {
    hide Next, Enabled, Converted, ConverterSent;
    if st.Convert? {
      ConvertConverted(s, st, log);
    } else if IsConverting(st) {
      MergerGot(s, st);
      GiveConverted(s, st);
      ConvertedSame(s, Next(s, st), log);
    } else {
      OtherConverted(s, st);
      ConvertedSame(s, Next(s, st), log);
    }
  }

  // ---- The loader ----

  /** The listing that the loader has made so far; an error is None inside. */
  function ListingAfter(listing: Option<Option<seq<string>>>, st: Step): Option<Option<seq<string>>> {
    if st.LoaderList? then Some(st.order) else listing
  }

  function Listing(steps: seq<Step>, before: Option<Option<seq<string>>>): Option<Option<seq<string>>> {
    if steps == [] then before else Listing(steps[1..], ListingAfter(before, steps[0]))
  }

  function LoaderSent(s: System): seq<Message>
    requires Shape(s)
  {
    s.merger.got[1] + (if s.loader.Loaded? then [s.loader.m] else [])
  }

  /** The loader sends one message for each listed path, in the order of the listing, or one error
      when the listing failed. */
  predicate Loads(s: System, listing: Option<Option<seq<string>>>)
    requires Shape(s)
  {
    var sent, left := LoaderSent(s), D.Pending(s.loader);
    match listing
    case None => s.loader.NotListed? && sent == []
    case Some(None) => !s.loader.NotListed? && sent == [Message(S.NOT_MEASURED, "logs", None, None)] && left == []
    case Some(Some(order)) =>
      && !s.loader.NotListed? && |sent| + |left| == |order| && left == order[|sent|..]
      && (forall i :: 0 <= i < |sent| ==> sent[i].path == Some(order[i]))
      && (s.loader.LoaderClosed? ==> left == [])
  }

  lemma LoaderStages(s: System, st: Step)
    requires Shape(s) && Enabled(s, st) && IsLoading(st)
    ensures var t := Next(s, st).loader;
            match st
            case LoaderList(order) =>
              && s.loader.NotListed?
              && t == (if order.Some? then Listed(order.value)
                       else Loaded(Message(S.NOT_MEASURED, "logs", None, None), []))
            case LoaderRead(_) =>
              && s.loader.Listed? && s.loader.paths != []
              && t.Loaded? && t.m.path == Some(s.loader.paths[0]) && t.rest == s.loader.paths[1..]
            case LoaderGive => s.loader.Loaded? && t == Listed(s.loader.rest)
            case LoaderClose => s.loader == Listed([]) && t == LoaderClosed
  {
    hide ListsAll;
  }

  lemma LoadingLoads(s: System, st: Step, listing: Option<Option<seq<string>>>)
    requires Shape(s) && Loads(s, listing) && Enabled(s, st) && IsLoading(st)
    ensures Loads(Next(s, st), ListingAfter(listing, st))
  {
    MergerGot(s, st);
    LoaderStages(s, st);
    hide Next, Enabled;
    assert st.LoaderGive? ==> LoaderSent(Next(s, st)) == LoaderSent(s);
  }

  lemma OtherLoads(s: System, st: Step, listing: Option<Option<seq<string>>>)
    requires Shape(s) && Loads(s, listing) && Enabled(s, st) && !IsLoading(st) && !st.Restart?
    ensures Loads(Next(s, st), ListingAfter(listing, st))
  {
    MergerGot(s, st);
    StepLeaves(s, st);
    hide Next, Enabled;
  }

  lemma StepLoads(s: System, st: Step, listing: Option<Option<seq<string>>>)
    requires Shape(s) && Loads(s, listing) && Enabled(s, st) && !st.Restart?
    ensures Loads(Next(s, st), ListingAfter(listing, st))
  {
    hide Next, Enabled, Loads;
    if IsLoading(st) {
      LoadingLoads(s, st, listing);
    } else {
      OtherLoads(s, st, listing);
    }
  }

  // ---- The requester ----

  /** What a step offers to the requester's select. */
  function InputOf(st: Step): seq<A.Input> {
    match st
    case RequesterTick(failure) => [A.Tick(failure)]
    case RequesterPeriod(seconds) => [A.Period(seconds)]
    case RequesterDone => [A.DoneSeen]
    case _ => []
  }

  function Inputs(steps: seq<Step>): seq<A.Input> {
    if steps == [] then [] else InputOf(steps[0]) + Inputs(steps[1..])
  }

  lemma {:induction false} EndingNext(es: seq<A.Input>, e: A.Input, n: nat)
    requires n <= |es| && !A.EndingFrom(es, n, false).returned
    ensures A.EndingFrom(es, n, false) == A.Ending(|es|, [], false)
    ensures A.EndingFrom(es + [e], n, false) ==
            (if e == A.DoneSeen || (A.Fails(e) && exists j :: 0 <= j < |es| && A.Fails(es[j]))
             then A.Ending(|es| + 1, if A.Fails(e) then [Message(e.failure.value, "logs", None, None)] else [], true)
             else A.Ending(|es| + 1, [], false))
    decreases |es| - n
  {
    var all := es + [e];
    assert all[|es|] == e && forall j :: 0 <= j < |es| ==> all[j] == es[j];
    if n == |es| {
      assert A.StopsAt(all, n) <==> e == A.DoneSeen || (A.Fails(e) && exists j :: 0 <= j < |es| && A.Fails(es[j]));
    } else {
      assert A.StopsAt(all, n) <==> A.StopsAt(es, n);
      EndingNext(es, e, n + 1);
    }
  }

  /** The requester has sent, and returned, as the method that models it does on the same inputs, and
      it saw the server done only when the server is. */
  predicate Requests(s: System, es: seq<A.Input>)
    requires Shape(s)
  {
    var e := A.EndingFrom(es, 0, false);
    && e.taken == |es| && (e.returned <==> !s.requester.Asking?)
    && e.out == s.merger.got[2] + (if s.requester.Reporting? then [s.requester.m] else [])
    && (s.requester.Asking? ==> (s.requester.failedOnce <==> exists j :: 0 <= j < |es| && A.Fails(es[j])))
    && (A.DoneSeen in es ==> s.server.phase.DoneClosed?)
  }

  lemma RequestingStages(s: System, st: Step)
    requires Shape(s) && Enabled(s, st) && IsRequesting(st)
    ensures var t := Next(s, st).requester;
            match st
            case RequesterTick(failure) =>
              && s.requester.Asking?
              && t == (if failure.None? then s.requester
                       else if s.requester.failedOnce then Reporting(Message(failure.value, "logs", None, None))
                       else Asking(true))
            case RequesterPeriod(_) => s.requester.Asking? && t == s.requester
            case RequesterDone => s.requester.Asking? && t == Quitting
            case RequesterGive => s.requester.Reporting? && t == Quitting
            case RequesterClose => s.requester.Quitting? && t == RequesterClosed
  {
  }

  lemma FailedBefore(es: seq<A.Input>, e: A.Input)
    ensures (exists j :: 0 <= j < |es + [e]| && A.Fails((es + [e])[j])) <==>
            A.Fails(e) || exists j :: 0 <= j < |es| && A.Fails(es[j])
  {
    assert (es + [e])[|es|] == e && forall j :: 0 <= j < |es| ==> (es + [e])[j] == es[j];
  }

  lemma StaysDone(s: System, st: Step)
    requires Shape(s) && Enabled(s, st) && !st.Restart?
    ensures s.server.phase.DoneClosed? ==> Next(s, st).server.phase.DoneClosed?
    ensures A.DoneSeen in InputOf(st) ==> Next(s, st).server.phase.DoneClosed?
  {
    StepLeaves(s, st);
    if IsUpstream(st) {
      hide A.ScanServer, A.ScanDataPoint;
    } else {
      hide Next;
    }
  }

  lemma RequestingRequests(s: System, st: Step, es: seq<A.Input>)
    requires Shape(s) && Requests(s, es) && Enabled(s, st) && IsRequesting(st)
    ensures Requests(Next(s, st), es + InputOf(st))
  {
    MergerGot(s, st);
    RequestingStages(s, st);
    StaysDone(s, st);
    hide Next, Enabled, A.EndingFrom;
    if InputOf(st) == [] {
      assert es + [] == es;
    } else {
      EndingNext(es, InputOf(st)[0], 0);
      FailedBefore(es, InputOf(st)[0]);
    }
  }

  lemma OtherRequests(s: System, st: Step, es: seq<A.Input>)
    requires Shape(s) && Requests(s, es) && Enabled(s, st) && !IsRequesting(st) && !st.Restart?
    ensures Requests(Next(s, st), es + InputOf(st))
  {
    MergerGot(s, st);
    StepLeaves(s, st);
    StaysDone(s, st);
    hide Next, Enabled, A.EndingFrom;
    assert InputOf(st) == [] && es + [] == es;
  }

  lemma StepRequests(s: System, st: Step, es: seq<A.Input>)
    requires Shape(s) && Requests(s, es) && Enabled(s, st) && !st.Restart?
    ensures Requests(Next(s, st), es + InputOf(st))
  {
    hide Next, Enabled, Requests;
    if IsRequesting(st) {
      RequestingRequests(s, st, es);
    } else {
      OtherRequests(s, st, es);
    }
  }

  // ---- The storage limit ----

  /** The last storage limit that arrived in this process; none before the first. */
  function LimitAfter(steps: seq<Step>, before: Option<int>): Option<int> {
    if steps == [] then before else LimitAfter(steps[1..], if steps[0].StorageLimit? then steps[0].limit else before)
  }

  // ---- Whole runs ----

  /** What a process started from, and what its loader and requester were offered so far. */
  datatype Origin = Origin(stream: seq<A.Decode>, points: seq<A.Decode>, log: seq<Message>)
  datatype Course = Course(listing: Option<Option<seq<string>>>, inputs: seq<A.Input>, limit: Option<int>)

  function CourseAfter(c: Course, steps: seq<Step>): Course {
    Course(Listing(steps, c.listing), c.inputs + Inputs(steps), LimitAfter(steps, c.limit))
  }

  /** What every stage has sent so far. */
  ghost predicate Contents(s: System, o: Origin, c: Course)
    requires Shape(s)
  {
    && Merging(s) && Serving(s, o.stream) && Pointing(s, o.points)
    && Converted(s, o.log) && Loads(s, c.listing) && Requests(s, c.inputs) && s.limit == c.limit
  }

  lemma StepLimit(s: System, st: Step)
    requires Shape(s) && Enabled(s, st) && !st.Restart?
    ensures Next(s, st).limit == if st.StorageLimit? then st.limit else s.limit
  {
    StepLeaves(s, st);
  }

  lemma StepContents(s: System, st: Step, o: Origin, c: Course)
    requires Shape(s) && Contents(s, o, c) && Enabled(s, st) && !st.Restart?
    ensures Contents(Next(s, st), o, Course(ListingAfter(c.listing, st), c.inputs + InputOf(st),
                                            if st.StorageLimit? then st.limit else c.limit))
  {
    StepMerging(s, st);
    StepServing(s, st, o.stream, o.points);
    StepConverted(s, st, o.log);
    StepLoads(s, st, c.listing);
    StepRequests(s, st, c.inputs);
    StepLimit(s, st);
    hide Next, Enabled, Merging, Serving, Pointing, Converted, Loads, Requests, ListingAfter, InputOf;
  }

  lemma {:induction false} RunContents(s: System, steps: seq<Step>, o: Origin, c: Course)
    requires Shape(s) && Contents(s, o, c) && Runs(s, steps) && OneProcess(steps)
    ensures Contents(Run(s, steps), o, CourseAfter(c, steps))
    decreases steps
  {
    hide Next, Enabled, Contents, ListingAfter, InputOf;
    if steps == [] {
      assert c.inputs + [] == c.inputs;
    } else {
      var st := steps[0];
      StepContents(s, st, o, c);
      assert OneProcess(steps[1..]) by {
        forall i | 0 <= i < |steps[1..]| ensures !steps[1..][i].Restart? { assert steps[1..][i] == steps[i + 1]; }
      }
      RunContents(Next(s, st), steps[1..], o, Course(ListingAfter(c.listing, st), c.inputs + InputOf(st),
                                                     if st.StorageLimit? then st.limit else c.limit));
      Associate(c.inputs, InputOf(st), Inputs(steps[1..]));
    }
  }

  lemma StartServes(stream: seq<A.Decode>, points: seq<A.Decode>)
    ensures ServerLeft(ServerStage(stream, A.NEW_SCANNER, Scanning)) == A.ServerSends(stream)
    ensures PointLeft(PointStage(points, A.NEW_SCANNER, PointScanning)) == A.PointSends(points)
  {
    hide A.HasEvent, A.Messages, A.PointSends;
  }

  lemma StartSources(s: System, o: Origin)
    requires Shape(s) && s.agents == M.Start(2, 0) && s.merger == M.Start(3, 10)
    requires s.server == ServerStage(o.stream, A.NEW_SCANNER, Scanning)
    requires s.points == PointStage(o.points, A.NEW_SCANNER, PointScanning)
    ensures Merging(s) && Serving(s, o.stream) && Pointing(s, o.points)
  {
    M.StartInv<A.AgentMessage>(2, 0);
    M.StartInv<Message>(3, 10);
    StartServes(o.stream, o.points);
    assert s.agents.got[0] == [] && s.agents.got[1] == [];
    hide ServerLeft, PointLeft, A.ServerSends, A.PointSends, M.Inv;
  }

  lemma StartOutputs(s: System)
    requires Shape(s) && s.agents == M.Start(2, 0) && s.merger == M.Start(3, 10)
    requires s.converter.Ready? && s.loader.NotListed? && s.requester == Asking(false)
    ensures Converted(s, s.log) && Loads(s, None) && Requests(s, [])
  {
    assert s.merger.got == [[], [], []];
    assert ConverterSent(s) == [] && KeptOf([]) == [] && StoredOf([]) == [];
  }

  lemma StartContents(place: S.Place, files: S.Files, file: L.File, handed: seq<Message>, published: seq<Message>,
                      log: seq<Message>, stream: seq<A.Decode>, points: seq<A.Decode>)
    ensures Contents(NewProcess(place, files, file, handed, published, log, stream, points),
                     Origin(stream, points, log), Course(None, [], None))
  {
    var s := NewProcess(place, files, file, handed, published, log, stream, points);
    StartSources(s, Origin(stream, points, log));
    StartOutputs(s);
    hide Merging, Serving, Pointing, Converted, Loads, Requests, M.Start;
  }

  /** The i-th message of the merger's output came from some source in that source's order. */
  ghost predicate Interleaves<T>(m: M.State<T>) {
    && |m.tags| == |m.delivered + m.buf|
    && forall i :: 0 <= i < |m.workers| && i < |m.got| ==>
         m.got[i] == M.Project(m.delivered + m.buf, m.tags, i) + M.Held(m.workers[i])
  }

  lemma MergingInterleaves<T(!new)>(m: M.State<T>)
    requires M.Inv(m)
    ensures Interleaves(m)
  {
  }

  lemma ClosedLeft(t: System)
    requires Shape(t)
    ensures ServerClosed(t) ==> ServerLeft(t.server) == []
    ensures t.points.phase.PointClosed? && t.points.stream == [] ==> PointLeft(t.points) == []
  {
    NoEvents();
    hide A.PointSends;
  }

  lemma ContentsMean(t: System, o: Origin, c: Course)
    requires Shape(t) && Contents(t, o, c) && Shutdown.Orderly(t)
    ensures t.agents.got[0] <= A.ServerSends(o.stream) && t.agents.got[1] <= A.PointSends(o.points)
    ensures t.agents.workers[0].Finished? ==> t.agents.got[0] == A.ServerSends(o.stream)
    ensures t.agents.workers[1].Finished? ==> t.agents.got[1] == A.PointSends(o.points)
    ensures Interleaves(t.agents) && Interleaves(t.merger)
    ensures Converted(t, o.log) && Loads(t, c.listing) && Requests(t, c.inputs) && t.limit == c.limit
  {
    MergingInterleaves(t.agents);
    MergingInterleaves(t.merger);
    ClosedLeft(t);
    hide M.Inv, Interleaves, Converted, Loads, Requests, ServerLeft, PointLeft, A.ServerSends, A.PointSends;
  }

  /** What the stages of a process send, over any run and interleaving: the agent merger receives from
      the server a beginning of the messages before the first undecodable item and the clean exit
      that follows exactly without an event, and all of it once that worker has finished; from the
      data point server likewise; both mergers interleave what they received; and the converter, the
      loader and the requester send the message merger what the agent merger delivered, what was
      listed and what the write errors call for. */
  lemma StagesSend(place: S.Place, files: S.Files, file: L.File, handed: seq<Message>, published: seq<Message>,
                   log: seq<Message>, stream: seq<A.Decode>, points: seq<A.Decode>, steps: seq<Step>)
    requires var s := NewProcess(place, files, file, handed, published, log, stream, points);
             Runs(s, steps) && OneProcess(steps)
    ensures var t := Run(NewProcess(place, files, file, handed, published, log, stream, points), steps);
            && t.agents.got[0] <= A.ServerSends(stream)
            && (t.agents.workers[0].Finished? ==> t.agents.got[0] == A.ServerSends(stream))
            && t.agents.got[1] <= A.PointSends(points)
            && (t.agents.workers[1].Finished? ==> t.agents.got[1] == A.PointSends(points))
            && Interleaves(t.agents) && Interleaves(t.merger)
            && Converted(t, log) && Loads(t, Listing(steps, None)) && Requests(t, Inputs(steps))
            && t.limit == LimitAfter(steps, None)
  {
    var s := NewProcess(place, files, file, handed, published, log, stream, points);
    StartContents(place, files, file, handed, published, log, stream, points);
    Shutdown.NewOrderly(place, files, file, handed, published, log, stream, points);
    hide NewProcess, Contents, Shutdown.Orderly;
    RunContents(s, steps, Origin(stream, points, log), Course(None, [], None));
    Shutdown.RunWorks(s, steps);
    var t := Run(s, steps);
    hide Run, Runs;
    assert [] + Inputs(steps) == Inputs(steps);
    ContentsMean(t, Origin(stream, points, log), CourseAfter(Course(None, [], None), steps));
  }

  // ---- The limiter and the producer ----

  /** Without a budget, what the limiter took from the merger is what it handed to the producer, but
      for one message that it is offering. */
  predicate PassesAll(s: System, handed: seq<Message>) {
    && s.limiter.state == L.UnderBudget && !s.limiter.account.hasBudget
    && handed + s.merger.delivered == s.handed + (if s.limiter.hold.Offering? then [s.limiter.hold.m] else [])
  }

  lemma MergerDelivered(s: System, st: Step)
    requires Shape(s) && Enabled(s, st) && !st.Restart?
    ensures Next(s, st).merger.delivered == s.merger.delivered + (if st.LimiterTake? then [s.merger.buf[0]] else [])
  {
    StepMoves(s, st);
    hide Next;
  }

  lemma LimiterStages(s: System, st: Step, handed: seq<Message>)
    requires Shape(s) && PassesAll(s, handed) && Enabled(s, st) && IsDownstream(st) && !st.Restart?
    requires st.LimiterConfigure? ==> !st.conf.defined
    ensures var t := Downstream(s, st);
            && t.limiter.state == L.UnderBudget && !t.limiter.account.hasBudget
            && t.handed == s.handed + (if st.LimiterGive? then [s.limiter.hold.m] else [])
            && (if t.limiter.hold.Offering? then [t.limiter.hold.m] else []) ==
               (if st.LimiterTake? then [s.merger.buf[0]]
                else if s.limiter.hold.Offering? && !st.LimiterGive? then [s.limiter.hold.m] else [])
            && (st.LimiterTake? ==> s.limiter.hold.Free?) && (st.LimiterGive? ==> s.limiter.hold.Offering?)
  {
    hide A.ScanServer;
  }

  lemma LimiterLeft(s: System, st: Step)
    requires Shape(s) && Enabled(s, st) && !IsDownstream(st)
    ensures Next(s, st).limiter == s.limiter && Next(s, st).handed == s.handed
  {
    if IsUpstream(st) {
      UpstreamFrame(s, st);
    } else if IsConverting(st) {
      ConvertingFrame(s, st);
    } else if IsLoading(st) {
      LoadingFrame(s, st);
    } else {
      RequestingFrame(s, st);
    }
    hide Enabled, Upstream, Converting, Loading, Requesting;
  }

  lemma StepPassesAll(s: System, st: Step, handed: seq<Message>)
    requires Shape(s) && PassesAll(s, handed) && Enabled(s, st) && !st.Restart?
    requires st.LimiterConfigure? ==> !st.conf.defined
    ensures PassesAll(Next(s, st), handed)
  {
    MergerDelivered(s, st);
    if IsDownstream(st) {
      LimiterStages(s, st, handed);
      assert Next(s, st) == Downstream(s, st);
      hide Next, Downstream, Enabled;
    } else {
      LimiterLeft(s, st);
      hide Next, Enabled;
    }
  }

  ghost predicate NoBudgetComes(steps: seq<Step>) {
    forall i :: 0 <= i < |steps| && steps[i].LimiterConfigure? ==> !steps[i].conf.defined
  }

  lemma {:induction false} RunPassesAll(s: System, steps: seq<Step>, handed: seq<Message>)
    requires Shape(s) && PassesAll(s, handed) && Runs(s, steps) && OneProcess(steps) && NoBudgetComes(steps)
    ensures PassesAll(Run(s, steps), handed)
    decreases steps
  {
    hide Next, Enabled, PassesAll;
    if steps != [] {
      StepPassesAll(s, steps[0], handed);
      assert OneProcess(steps[1..]) && NoBudgetComes(steps[1..]) by {
        forall i | 0 <= i < |steps[1..]|
          ensures !steps[1..][i].Restart? && (steps[1..][i].LimiterConfigure? ==> !steps[1..][i].conf.defined)
        {
          assert steps[1..][i] == steps[i + 1];
        }
      }
      RunPassesAll(Next(s, steps[0]), steps[1..], handed);
    }
  }

  /** What the producer tried to publish, and with what success. */
  datatype Attempt = Attempt(m: Message, acknowledged: bool)

  function AttemptIn(s: System, st: Step): seq<Attempt> {
    if st.Publish? && s.producer.Publishing? then [Attempt(s.producer.m, st.acknowledged)] else []
  }

  ghost function Attempts(s: System, steps: seq<Step>): seq<Attempt>
    requires Shape(s) && Runs(s, steps)
    decreases steps
  {
    if steps == [] then [] else AttemptIn(s, steps[0]) + Attempts(Next(s, steps[0]), steps[1..])
  }

  function Tried(attempts: seq<Attempt>): seq<Message> {
    if attempts == [] then [] else [attempts[0].m] + Tried(attempts[1..])
  }

  function Accepted(attempts: seq<Attempt>): seq<Message> {
    if attempts == [] then [] else (if attempts[0].acknowledged then [attempts[0].m] else []) + Accepted(attempts[1..])
  }

  lemma AttemptsConcat(a: seq<Attempt>, b: seq<Attempt>)
    requires |a| <= 1
    ensures Tried(a + b) == Tried(a) + Tried(b) && Accepted(a + b) == Accepted(a) + Accepted(b)
  {
    if a == [] {
      assert a + b == b;
    } else {
      assert (a + b)[1..] == b && a[1..] == [];
    }
  }

  function Publishings(s: System): seq<Message> {
    if s.producer.Publishing? then [s.producer.m] else []
  }

  function Given(s: System, st: Step): seq<Message> {
    if st.LimiterGive? && s.limiter.hold.Offering? then [s.limiter.hold.m] else []
  }

  lemma AttemptInMeans(s: System, st: Step)
    ensures Tried(AttemptIn(s, st)) == if st.Publish? then Publishings(s) else []
    ensures Accepted(AttemptIn(s, st)) == if st.Publish? && st.acknowledged then Publishings(s) else []
  {
    assert forall a: Attempt :: [a][1..] == [];
  }

  lemma AtMostOne(s: System, st: Step)
    ensures |AttemptIn(s, st)| <= 1
  {
  }

  lemma DownstreamAttempts(s: System, st: Step)
    requires Shape(s) && Enabled(s, st) && IsDownstream(st) && !st.Restart?
    ensures var t := Downstream(s, st);
            && t.handed == s.handed + Given(s, st)
            && Publishings(s) + Given(s, st) == (if st.Publish? then Publishings(s) else []) + Publishings(t)
            && t.published == s.published + (if st.Publish? && st.acknowledged then Publishings(s) else [])
  {
    hide L.NextPeriod, L.Reconfigured, L.Settle, L.Accepts, L.Charge, L.AfterSend, M.Next;
  }

  lemma ProducerLeft(s: System, st: Step)
    requires Shape(s) && Enabled(s, st) && !IsDownstream(st)
    ensures var t := Next(s, st);
            t.producer == s.producer && t.published == s.published && t.handed == s.handed
  {
    if IsUpstream(st) {
      UpstreamFrame(s, st);
    } else if IsConverting(st) {
      ConvertingFrame(s, st);
    } else if IsLoading(st) {
      LoadingFrame(s, st);
    } else {
      RequestingFrame(s, st);
    }
    hide Enabled, Upstream, Converting, Loading, Requesting;
  }

  lemma StepAttempts(s: System, st: Step)
    requires Shape(s) && Enabled(s, st) && !st.Restart?
    ensures var t := Next(s, st);
            && t.handed == s.handed + Given(s, st)
            && Publishings(s) + Given(s, st) == Tried(AttemptIn(s, st)) + Publishings(t)
            && t.published == s.published + Accepted(AttemptIn(s, st))
  {
    AttemptInMeans(s, st);
    if IsDownstream(st) {
      DownstreamAttempts(s, st);
      assert Next(s, st) == Downstream(s, st);
    } else {
      ProducerLeft(s, st);
    }
    hide Next, Downstream, Enabled, Tried, Accepted, AttemptIn;
  }

  lemma Regroup<T>(p: seq<T>, g: seq<T>, r: seq<T>, t1: seq<T>, p1: seq<T>, t2: seq<T>, p2: seq<T>)
    requires p + g == t1 + p1 && p1 + r == t2 + p2
    ensures p + (g + r) == (t1 + t2) + p2
  {
    assert p + (g + r) == (p + g) + r == t1 + (p1 + r) == (t1 + t2) + p2;
  }

  lemma {:induction false} RunAttempts(s: System, steps: seq<Step>) returns (given: seq<Message>)
    requires Shape(s) && Runs(s, steps) && OneProcess(steps)
    ensures var t := Run(s, steps);
            && t.handed == s.handed + given
            && Publishings(s) + given == Tried(Attempts(s, steps)) + Publishings(t)
            && t.published == s.published + Accepted(Attempts(s, steps))
    decreases steps
  {
    hide Next, Enabled, Publishings, Given, AttemptIn;
    if steps == [] {
      given := [];
      assert s.handed + [] == s.handed && s.published + [] == s.published;
    } else {
      var st := steps[0];
      var t1 := Next(s, st);
      StepAttempts(s, st);
      assert OneProcess(steps[1..]) by {
        forall i | 0 <= i < |steps[1..]| ensures !steps[1..][i].Restart? { assert steps[1..][i] == steps[i + 1]; }
      }
      var rest := RunAttempts(t1, steps[1..]);
      given := Given(s, st) + rest;
      var t := Run(t1, steps[1..]);
      var later := Attempts(t1, steps[1..]);
      assert Run(s, steps) == t && Attempts(s, steps) == AttemptIn(s, st) + later;
      hide Attempts, Run, Runs, Tried, Accepted;
      AtMostOne(s, st);
      AttemptsConcat(AttemptIn(s, st), later);
      Associate(s.handed, Given(s, st), rest);
      Regroup(Publishings(s), Given(s, st), rest, Tried(AttemptIn(s, st)), Publishings(t1), Tried(later),
              Publishings(t));
      Associate(s.published, Accepted(AttemptIn(s, st)), Accepted(later));
    }
  }

  /** The producer tries each message handed over exactly once and in order, but for one that it still
      has, and what is published besides is what was acknowledged of these. */
  lemma PublishesInOrder(place: S.Place, files: S.Files, file: L.File, handed: seq<Message>, published: seq<Message>,
                         log: seq<Message>, stream: seq<A.Decode>, points: seq<A.Decode>, steps: seq<Step>)
    requires var s := NewProcess(place, files, file, handed, published, log, stream, points);
             Runs(s, steps) && OneProcess(steps)
    ensures var s := NewProcess(place, files, file, handed, published, log, stream, points);
            var t := Run(s, steps);
            && t.handed == handed + Tried(Attempts(s, steps)) + Publishings(t)
            && t.published == published + Accepted(Attempts(s, steps))
  {
    var s := NewProcess(place, files, file, handed, published, log, stream, points);
    var new' := RunAttempts(s, steps);
    assert Publishings(s) + new' == new';
    hide Attempts, Run, Runs, Tried, Accepted, Publishings;
    Associate(handed, Tried(Attempts(s, steps)), Publishings(Run(s, steps)));
  }

  /** One publication: acknowledged, the message joins what was published, and its own file goes exactly
      when the removal succeeds too; refused, nothing changes. */
  lemma PublishMeans(s: System, st: Step)
    requires Shape(s) && Enabled(s, st) && st.Publish?
    ensures var t := Next(s, st);
            var m := s.producer.m;
            && t.published == s.published + (if st.acknowledged then [m] else [])
            && (forall p :: p in t.store.files <==>
                  p in s.store.files && !(st.acknowledged && st.removed && m.path == Some(p)))
            && (forall p :: p in t.store.files ==> t.store.files[p] == s.store.files[p])
            && t.producer.Receiving?
  {
  }

  // ---- A finished run ----

  lemma UnlimitedPassesAll(place: S.Place, files: S.Files, file: L.File, handed: seq<Message>, published: seq<Message>,
                           log: seq<Message>, stream: seq<A.Decode>, points: seq<A.Decode>, steps: seq<Step>)
    requires !L.Load(file).hasBudget && NoBudgetComes(steps)
    requires var s := NewProcess(place, files, file, handed, published, log, stream, points);
             Runs(s, steps) && OneProcess(steps)
    ensures PassesAll(Run(NewProcess(place, files, file, handed, published, log, stream, points), steps), handed)
  {
    var s := NewProcess(place, files, file, handed, published, log, stream, points);
    assert handed + [] == handed;
    assert PassesAll(s, handed);
    hide NewProcess, PassesAll, Run, Runs;
    RunPassesAll(s, steps, handed);
  }

  lemma PassedAll(t: System, handed: seq<Message>)
    requires PassesAll(t, handed)
    ensures t.limiter.hold.Free? ==> t.handed == handed + t.merger.delivered
  {
  }

  lemma FinishedStages(t: System, log: seq<Message>, listing: Option<Option<seq<string>>>, es: seq<A.Input>)
    requires Shape(t) && Shutdown.Orderly(t) && Shutdown.AllDone(t)
    requires Interleaves(t.agents) && Interleaves(t.merger)
    requires Converted(t, log) && Loads(t, listing) && Requests(t, es)
    ensures var a, m := t.agents, t.merger;
            && a.workers[0].Finished? && a.workers[1].Finished? && t.limiter.hold.Free?
            && |a.tags| == |a.delivered| && |m.tags| == |m.delivered|
            && (forall i :: 0 <= i < 2 ==> a.got[i] == M.Project(a.delivered, a.tags, i))
            && (forall i :: 0 <= i < 3 ==> m.got[i] == M.Project(m.delivered, m.tags, i))
            && Made(m.got[0], KeptOf(a.delivered)) && t.log == log + StoredOf(m.got[0])
            && m.got[2] == A.EndingFrom(es, 0, false).out
            && (listing.Some? && listing.value.Some? ==> |m.got[1]| == |listing.value.value|)
  {
    var a, m := t.agents, t.merger;
    assert a.delivered + a.buf == a.delivered && m.delivered + m.buf == m.delivered;
    assert ConverterSent(t) == m.got[0];
    hide Made, KeptOf, StoredOf, A.EndingFrom, M.Project;
  }

  /** A finished run has passed everything on: all that the servers send reached the converter, all that
      the converter made of it, that was listed and that the requester reported reached the limiter,
      each source in its own order; and without a budget all of it was handed to the producer. */
  lemma FinishedPassesAll(place: S.Place, files: S.Files, file: L.File, handed: seq<Message>, published: seq<Message>,
                          log: seq<Message>, stream: seq<A.Decode>, points: seq<A.Decode>, steps: seq<Step>)
    requires var s := NewProcess(place, files, file, handed, published, log, stream, points);
             Runs(s, steps) && OneProcess(steps) && Shutdown.AllDone(Run(s, steps))
    ensures var t := Run(NewProcess(place, files, file, handed, published, log, stream, points), steps);
            var a, m := t.agents, t.merger;
            && a.got[0] == A.ServerSends(stream) && a.got[1] == A.PointSends(points)
            && |a.tags| == |a.delivered| && |m.tags| == |m.delivered|
            && (forall i :: 0 <= i < 2 ==> a.got[i] == M.Project(a.delivered, a.tags, i))
            && (forall i :: 0 <= i < 3 ==> m.got[i] == M.Project(m.delivered, m.tags, i))
            && Made(m.got[0], KeptOf(a.delivered)) && t.log == log + StoredOf(m.got[0])
            && m.got[2] == A.EndingFrom(Inputs(steps), 0, false).out
            && (Listing(steps, None).Some? && Listing(steps, None).value.Some? ==>
                  |m.got[1]| == |Listing(steps, None).value.value|)
            && (!L.Load(file).hasBudget && NoBudgetComes(steps) ==> t.handed == handed + m.delivered)
  {
    var s := NewProcess(place, files, file, handed, published, log, stream, points);
    StagesSend(place, files, file, handed, published, log, stream, points, steps);
    Shutdown.NewOrderly(place, files, file, handed, published, log, stream, points);
    hide NewProcess, Shutdown.Orderly, Runs, PassesAll, Converted, Loads, Requests, Interleaves, Made, NoBudgetComes;
    if !L.Load(file).hasBudget && NoBudgetComes(steps) {
      UnlimitedPassesAll(place, files, file, handed, published, log, stream, points, steps);
      PassedAll(Run(s, steps), handed);
    }
    Shutdown.RunWorks(s, steps);
    hide Run, Shutdown.AllDone, A.EndingFrom, M.Project, Listing, Inputs;
    FinishedStages(Run(s, steps), log, Listing(steps, None), Inputs(steps));
  }
}
