/** Bounded duplication: how often one stored message can reach the broker in one run. */
module PipelineCopies {
  import opened Broker
  import opened Pipeline
  import opened PipelineDelivery
  import A = Agent
  import C = Converters
  import L = Limiter
  import M = Merge
  import S = Store
  import Names

  function Has(m: Message, path: string): nat {
    if m.path == Some(path) then 1 else 0
  }

  function Copies(ms: seq<Message>, path: string): nat {
    if ms == [] then 0 else Has(ms[0], path) + Copies(ms[1..], path)
  }

  lemma {:induction false} CopiesPush(ms: seq<Message>, m: Message, path: string)
    ensures Copies(ms + [m], path) == Copies(ms, path) + Has(m, path)
    decreases |ms|
  {
    if ms == [] {
      assert ms + [m] == [m] && [m][1..] == [];
    } else {
      assert (ms + [m])[1..] == ms[1..] + [m];
      CopiesPush(ms[1..], m, path);
    }
  }

  function Waiting(paths: seq<string>, path: string): nat {
    if paths == [] then 0 else (if paths[0] == path then 1 else 0) + Waiting(paths[1..], path)
  }

  lemma {:induction false} WaitingOnce(paths: seq<string>, path: string)
    requires forall i, j :: 0 <= i < j < |paths| ==> paths[i] != paths[j]
    ensures Waiting(paths, path) <= 1
    ensures path !in paths ==> Waiting(paths, path) == 0
    decreases |paths|
  {
    if paths != [] {
      WaitingOnce(paths[1..], path);
      if paths[0] == path {
        assert path !in paths[1..];
      }
    }
  }

  function InWorker(w: M.Worker<Message>, path: string): nat {
    if w.Holding? then Has(w.m, path) else 0
  }

  function InSources(s: System, path: string): nat {
    (if s.converter.Emitting? then Has(s.converter.m, path) else 0)
    + (if s.loader.Loaded? then Has(s.loader.m, path) else 0)
    + Waiting(Pending(s.loader), path)
    + (if s.requester.Reporting? then Has(s.requester.m, path) else 0)
  }

  function InMerger(s: System, path: string): nat
    requires Shape(s)
  {
    InWorker(s.merger.workers[0], path) + InWorker(s.merger.workers[1], path) + InWorker(s.merger.workers[2], path)
    + Copies(s.merger.buf, path)
  }

  function PastMerger(s: System, path: string): nat {
    (if s.limiter.hold.Offering? then Has(s.limiter.hold.m, path) else 0)
    + (if s.producer.Publishing? then Has(s.producer.m, path) else 0)
    + (if s.base <= |s.published| then Copies(s.published[s.base..], path) else 0)
  }

  /** All copies of the message stored at a path: on their way, or published in this run. */
  function Everywhere(s: System, path: string): nat
    requires Shape(s)
  {
    InSources(s, path) + InMerger(s, path) + PastMerger(s, path)
  }

  /** One copy from the converter if this process created the path, and one from the loader once
      it has listed the directory. */
  ghost predicate Bounded(s: System, path: string)
    requires Shape(s)
  {
    && s.base <= |s.published|
    && Everywhere(s, path) <= (if path in s.created then 1 else 0) + (if s.loader.NotListed? then 0 else 1)
    && (forall p :: p in s.created ==> Past(s.place, s.store.count, p))
  }

  lemma NewBounded(place: S.Place, files: S.Files, file: L.File, handed: seq<Message>, published: seq<Message>,
                   log: seq<Message>, stream: seq<A.Decode>, points: seq<A.Decode>, path: string)
    ensures Bounded(NewProcess(place, files, file, handed, published, log, stream, points), path)
  {
    assert published[|published|..] == [];
  }

  lemma ConvertEffectOnCreated(s: System, st: Step)
    requires Shape(s) && Enabled(s, st) && st.Convert?
    ensures var t := Converting(s, st);
            && t.place == s.place && t.loader == s.loader && t.requester == s.requester && t.merger == s.merger
            && t.limiter == s.limiter && t.producer == s.producer && t.published == s.published && t.base == s.base
            && s.store.count <= t.store.count
            && ((t.created == s.created
                 && (t.converter == s.converter || (t.converter.Emitting? && t.converter.m.path.None?)))
                || (var own := Names.Name(s.place.dir, s.place.pid, s.store.count);
                    && t.store.count == s.store.count + 1
                    && t.created == s.created + {own}
                    && t.converter.Emitting? && t.converter.m.path == Some(own)))
  {
    ConvertingFrame(s, st);
    ConvertEffect(s, st);
    var a := s.agents.workers[st.i].m;
    var r := S.Create(s.store, s.place, s.limit, st.measured, C.Convert(a, st.encoded), st.write).1;
    var t := Converting(s, st);
    if C.Kept(a) && r.Created? {
      assert t.created == s.created + {r.m.path.value};
    }
    hide C.Convert, Names.Name;
  }

  lemma ConvertBounded(s: System, st: Step, path: string)
    requires Shape(s) && Bounded(s, path) && Enabled(s, st) && st.Convert?
    ensures Bounded(Converting(s, st), path)
  {
    ConvertEffectOnCreated(s, st);
    OwnNamePast(s.place, s.store.count);
    var t := Converting(s, st);
    hide Converting, Enabled, Names.Name;
    assert InMerger(t, path) == InMerger(s, path) && PastMerger(t, path) == PastMerger(s, path);
    hide InMerger, PastMerger;
    assert s.converter.Ready?;
  }

  /** Steps that move messages on, without a new one and without new names. */
  lemma QuietBounded(s: System, t: System, path: string)
    requires Shape(s) && Shape(t) && Bounded(s, path)
    requires t.created == s.created && t.place == s.place && t.store.count == s.store.count
    requires t.base == s.base && |s.published| <= |t.published| && (s.loader.NotListed? <==> t.loader.NotListed?)
    requires Everywhere(t, path) <= Everywhere(s, path)
    ensures Bounded(t, path)
  {
    hide Everywhere;
  }

  lemma UpstreamBounded(s: System, st: Step, path: string)
    requires Shape(s) && Bounded(s, path) && Enabled(s, st) && IsUpstream(st)
    ensures Bounded(Upstream(s, st), path)
  {
    UpstreamFrame(s, st);
    hide Upstream;
    QuietBounded(s, Upstream(s, st), path);
  }

  lemma ConverterBounded(s: System, st: Step, path: string)
    requires Shape(s) && Bounded(s, path) && Enabled(s, st) && (st.ConverterGive? || st.ConverterClose?)
    ensures Bounded(Converting(s, st), path)
  {
    ConvertingFrame(s, st);
    var t := Converting(s, st);
    assert PastMerger(t, path) == PastMerger(s, path) && t.merger.buf == s.merger.buf;
    hide PastMerger, Copies;
    QuietBounded(s, t, path);
  }

  lemma NoneWaiting(path: string)
    ensures Waiting([], path) == 0
  {
  }

  lemma LoaderBounded(s: System, st: Step, path: string)
    requires Shape(s) && Bounded(s, path) && Enabled(s, st) && IsLoading(st)
    ensures Bounded(Loading(s, st), path)
  {
    LoadingFrame(s, st);
    LoadEffect(s, st);
    var t := Loading(s, st);
    assert t.merger.buf == s.merger.buf;
    assert PastMerger(t, path) == PastMerger(s, path);
    if st.LoaderList? {
      if st.order.Some? {
        WaitingOnce(st.order.value, path);
      }
      assert t.merger == s.merger;
      hide Loading, PastMerger, Copies, Waiting, S.LoadMessage;
      assert Waiting([], path) == 0 by { NoneWaiting(path); }
    } else {
      assert st.LoaderRead? ==> t.merger == s.merger && t.loader.m.path == Some(s.loader.paths[0]);
      hide PastMerger, Copies, S.LoadMessage;
      QuietBounded(s, t, path);
    }
  }

  lemma RequesterBounded(s: System, st: Step, path: string)
    requires Shape(s) && Bounded(s, path) && Enabled(s, st) && IsRequesting(st)
    ensures Bounded(Requesting(s, st), path)
  {
    RequestingFrame(s, st);
    var t := Requesting(s, st);
    assert t.merger.buf == s.merger.buf && PastMerger(t, path) == PastMerger(s, path);
    hide PastMerger, Copies, Waiting;
    QuietBounded(s, t, path);
  }

  lemma PutCounts(s: System, st: Step, path: string)
    requires Shape(s) && Enabled(s, st) && (st.Put? || st.MergeFinish? || st.MergeClose?)
    ensures InMerger(Downstream(s, st), path) == InMerger(s, path)
    ensures Downstream(s, st) == s.(merger := Downstream(s, st).merger)
  {
    if st.Put? {
      CopiesPush(s.merger.buf, s.merger.workers[st.i].m, path);
    }
    hide Copies;
  }

  lemma PutBounded(s: System, st: Step, path: string)
    requires Shape(s) && Bounded(s, path) && Enabled(s, st) && (st.Put? || st.MergeFinish? || st.MergeClose?)
    ensures Bounded(Downstream(s, st), path)
  {
    PutCounts(s, st, path);
    var t := Downstream(s, st);
    hide Downstream, Enabled, InMerger;
    assert InSources(t, path) == InSources(s, path) && PastMerger(t, path) == PastMerger(s, path);
    QuietBounded(s, t, path);
  }

  lemma TakeBounded(s: System, st: Step, path: string)
    requires Shape(s) && Bounded(s, path) && Enabled(s, st) && (st.LimiterTake? || st.LimiterGive? || st.LimiterSave?)
    ensures Bounded(Downstream(s, st), path)
  {
    hide L.Accepts, L.Charge, L.AfterSend;
    var t := Downstream(s, st);
    assert InSources(t, path) == InSources(s, path);
    assert t.merger.workers == s.merger.workers && t.published == s.published && t.base == s.base;
    assert st.LimiterTake? ==> t.merger.buf == s.merger.buf[1..] && t.producer == s.producer;
    assert !st.LimiterTake? ==> t.merger == s.merger;
    hide InSources;
    QuietBounded(s, t, path);
  }

  lemma PublishBounded(s: System, st: Step, path: string)
    requires Shape(s) && Bounded(s, path) && Enabled(s, st) && st.Publish?
    ensures Bounded(Downstream(s, st), path)
  {
    var t := Downstream(s, st);
    assert InSources(t, path) == InSources(s, path) && InMerger(t, path) == InMerger(s, path);
    if st.acknowledged {
      assert t.published[t.base..] == s.published[s.base..] + [s.producer.m];
      CopiesPush(s.published[s.base..], s.producer.m, path);
    }
    hide InSources, InMerger, Copies;
    QuietBounded(s, t, path);
  }

  lemma DownstreamBounded(s: System, st: Step, path: string)
    requires Shape(s) && Bounded(s, path) && Enabled(s, st) && IsDownstream(st)
    ensures Bounded(Downstream(s, st), path)
  {
    if st.Put? || st.MergeFinish? || st.MergeClose? {
      PutBounded(s, st, path);
    } else if st.LimiterTake? || st.LimiterGive? || st.LimiterSave? {
      TakeBounded(s, st, path);
    } else if st.Publish? {
      PublishBounded(s, st, path);
    } else if st.Restart? {
      NewBounded(s.place.(pid := st.pid), s.store.files, s.file, s.handed, s.published, s.log, st.stream, st.points,
                 path);
    } else {
      hide L.NextPeriod, L.Reconfigured, L.Settle;
      var t := Downstream(s, st);
      assert InSources(t, path) == InSources(s, path) && InMerger(t, path) == InMerger(s, path);
      assert PastMerger(t, path) == PastMerger(s, path);
      QuietBounded(s, t, path);
    }
  }

  lemma StepBounded(s: System, st: Step, path: string)
    requires Shape(s) && Bounded(s, path) && Enabled(s, st)
    ensures Bounded(Next(s, st), path)
  {
    hide Enabled, Upstream, Converting, Loading, Requesting, Downstream, Bounded;
    if IsUpstream(st) {
      UpstreamBounded(s, st, path);
    } else if st.Convert? {
      ConvertBounded(s, st, path);
    } else if IsConverting(st) {
      ConverterBounded(s, st, path);
    } else if IsLoading(st) {
      LoaderBounded(s, st, path);
    } else if IsRequesting(st) {
      RequesterBounded(s, st, path);
    } else {
      DownstreamBounded(s, st, path);
    }
  }

  lemma {:induction false} RunBounded(s: System, steps: seq<Step>, path: string)
    requires Shape(s) && Bounded(s, path) && Runs(s, steps)
    ensures Bounded(Run(s, steps), path)
    decreases steps
  {
    if steps != [] {
      hide Next, Bounded, Enabled;
      StepBounded(s, steps[0], path);
      RunBounded(Next(s, steps[0]), steps[1..], path);
    }
  }

  /** Bounded duplication: in one run, a message stored by this process reaches the broker at most
      twice (the converter's copy and the loader's), and one left over by an earlier process at
      most once, whatever restarts came before. */
  lemma BoundedDuplication(place: S.Place, files: S.Files, file: L.File, handed: seq<Message>, published: seq<Message>,
                           log: seq<Message>, stream: seq<A.Decode>, points: seq<A.Decode>, steps: seq<Step>,
                           path: string)
    requires Runs(NewProcess(place, files, file, handed, published, log, stream, points), steps)
    ensures var t := Run(NewProcess(place, files, file, handed, published, log, stream, points), steps);
            && t.base <= |t.published|
            && Copies(t.published[t.base..], path) <= (if path in t.created then 2 else 1)
  {
    NewBounded(place, files, file, handed, published, log, stream, points, path);
    hide NewProcess;
    RunBounded(NewProcess(place, files, file, handed, published, log, stream, points), steps, path);
    hide Run, Runs;
  }
}
