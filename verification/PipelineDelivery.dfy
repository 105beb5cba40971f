/** At-least-once delivery across restarts: a message whose save succeeded stays on disk until the
    broker has acknowledged its bytes. */
module PipelineDelivery {
  import opened Broker
  import opened Pipeline
  import A = Agent
  import C = Converters
  import L = Limiter
  import M = Merge
  import S = Store
  import Envelope
  import Names

  function Held(w: M.Worker<Message>): set<Message> {
    if w.Holding? then {w.m} else {}
  }

  /** The broker messages that are inside the process. */
  function Flying(s: System): set<Message>
    requires Shape(s)
  {
    (if s.converter.Emitting? then {s.converter.m} else {})
    + (if s.loader.Loaded? then {s.loader.m} else {})
    + (if s.requester.Reporting? then {s.requester.m} else {})
    + Held(s.merger.workers[0]) + Held(s.merger.workers[1]) + Held(s.merger.workers[2])
    + (set m | m in s.merger.buf)
    + (if s.limiter.hold.Offering? then {s.limiter.hold.m} else {})
    + (if s.producer.Publishing? then {s.producer.m} else {})
  }

  /** Same topic and same bytes: what the broker is sent. */
  predicate SamePayload(a: Message, b: Message) {
    a.topic == b.topic && a.bytes == b.bytes
  }

  /** The broker acknowledged this message: its own copy, under its path, and not merely an equal one. */
  ghost predicate Delivered(published: seq<Message>, m: Message) {
    exists i :: 0 <= i < |published| && published[i].path == m.path && SamePayload(published[i], m)
  }

  predicate OnDisk(files: S.Files, m: Message) {
    m.path.Some? && m.path.value in files && files[m.path.value] == Envelope.Marshal(m)
  }

  /** No name that the present process will still generate. */
  ghost predicate Past(place: S.Place, count: nat, path: string) {
    forall c: nat :: c >= count ==> path != Names.Name(place.dir, place.pid, c)
  }

  /** Publishing and removing m cannot lose a saved message: every saved message of m's path has
      m's payload or has been delivered. */
  ghost predicate Honest(log: seq<Message>, published: seq<Message>, m: Message) {
    m.path.Some? ==> forall i :: 0 <= i < |log| && log[i].path == m.path ==>
                       SamePayload(m, log[i]) || Delivered(published, log[i])
  }

  /** What is promised: every message that was saved is on disk or was delivered. */
  ghost predicate Safe(s: System) {
    forall i :: 0 <= i < |s.log| ==> OnDisk(s.store.files, s.log[i]) || Delivered(s.published, s.log[i])
  }

  ghost predicate AllHonest(s: System)
    requires Shape(s)
  {
    forall m :: m in Flying(s) ==> Honest(s.log, s.published, m)
  }

  function Pending(l: LoaderStage): seq<string> {
    match l case NotListed => [] case Listed(paths) => paths case Loaded(_, rest) => rest case LoaderClosed => []
  }

  /** Names still to be generated are neither on disk, nor in flight, nor waiting to be loaded. */
  ghost predicate FreshNames(s: System)
    requires Shape(s)
  {
    && (forall p :: p in s.store.files ==> Past(s.place, s.store.count, p))
    && (forall m :: m in Flying(s) && m.path.Some? ==> Past(s.place, s.store.count, m.path.value))
    && (forall p :: p in Pending(s.loader) ==> Past(s.place, s.store.count, p))
  }

  ghost predicate DeliveryInv(s: System)
    requires Shape(s)
  {
    Safe(s) && AllHonest(s) && FreshNames(s)
  }

  // ---- Where flying messages come from ----

  lemma UpstreamFlying(s: System, st: Step)
    requires Shape(s) && Enabled(s, st) && IsUpstream(st)
    ensures Flying(Upstream(s, st)) == Flying(s)
  {
    UpstreamFrame(s, st);
    hide Upstream;
  }

  lemma ConvertingFlying(s: System, st: Step)
    requires Shape(s) && Enabled(s, st) && IsConverting(st)
    ensures var t := Converting(s, st);
            Flying(t) <= Flying(s) + (if st.Convert? && t.converter.Emitting? then {t.converter.m} else {})
  {
    hide S.Create, C.Convert;
  }

  lemma LoadingFlying(s: System, st: Step)
    requires Shape(s) && Enabled(s, st) && IsLoading(st)
    ensures var t := Loading(s, st);
            Flying(t) <= Flying(s) +
                         (if (st.LoaderRead? || st.LoaderList?) && t.loader.Loaded? then {t.loader.m} else {})
  {
    hide S.LoadMessage, ListsAll;
  }

  lemma RequestingFlying(s: System, st: Step)
    requires Shape(s) && Enabled(s, st) && IsRequesting(st)
    ensures var t := Requesting(s, st);
            Flying(t) <= Flying(s) + (if st.RequesterTick? && t.requester.Reporting? then {t.requester.m} else {})
  {
  }

  lemma MergerFlying(s: System, st: Step)
    requires Shape(s) && Enabled(s, st) && (st.Put? || st.MergeFinish? || st.MergeClose?)
    ensures Flying(Downstream(s, st)) <= Flying(s)
  {
    var t := Downstream(s, st);
    assert t == s.(merger := t.merger);
    assert st.Put? ==> t.merger.buf == s.merger.buf + [s.merger.workers[st.i].m];
    assert !st.Put? ==> t.merger.buf == s.merger.buf;
    assert forall i :: 0 <= i < 3 && t.merger.workers[i].Holding? ==> t.merger.workers[i] == s.merger.workers[i];
    hide Downstream;
  }

  lemma TakeFlying(s: System, st: Step)
    requires Shape(s) && Enabled(s, st) && st.LimiterTake?
    ensures Flying(Downstream(s, st)) <= Flying(s)
  {
    hide L.Accepts;
    var t := Downstream(s, st);
    assert t == s.(merger := t.merger, limiter := t.limiter);
    assert t.merger.buf == s.merger.buf[1..] && t.merger.workers == s.merger.workers;
    assert t.limiter.hold.Offering? ==> t.limiter.hold.m == s.merger.buf[0];
    hide Downstream;
  }

  lemma HandoverFlying(s: System, st: Step)
    requires Shape(s) && Enabled(s, st) && (st.LimiterGive? || st.LimiterSave? || st.Publish?)
    ensures Flying(Downstream(s, st)) <= Flying(s)
  {
    hide L.Charge, L.AfterSend;
    var t := Downstream(s, st);
    assert t.converter == s.converter && t.loader == s.loader && t.requester == s.requester && t.merger == s.merger;
    assert t.limiter.hold.Offering? ==> t.limiter.hold == s.limiter.hold;
    assert t.producer.Publishing? ==>
        t.producer == s.producer || (s.limiter.hold.Offering? && t.producer.m == s.limiter.hold.m);
    hide Downstream;
  }

  lemma NewProcessFlying(s: System, st: Step)
    requires Shape(s) && Enabled(s, st) && st.Restart?
    ensures Flying(Downstream(s, st)) == {}
  {
  }

  lemma DownstreamFlying(s: System, st: Step)
    requires Shape(s) && Enabled(s, st) && IsDownstream(st)
    ensures Flying(Downstream(s, st)) <= Flying(s)
  {
    if st.Put? || st.MergeFinish? || st.MergeClose? {
      MergerFlying(s, st);
    } else if st.LimiterTake? {
      TakeFlying(s, st);
    } else if st.LimiterGive? || st.LimiterSave? || st.Publish? {
      HandoverFlying(s, st);
    } else if st.Restart? {
      NewProcessFlying(s, st);
    } else {
      hide L.NextPeriod, L.Reconfigured, L.Settle;
    }
  }

  // ---- Each kind of step keeps the promise ----

  lemma DeliveredLater(published: seq<Message>, more: seq<Message>, m: Message)
    requires Delivered(published, m)
    ensures Delivered(published + more, m)
  {
    var i :| 0 <= i < |published| && published[i].path == m.path && SamePayload(published[i], m);
    assert (published + more)[i] == published[i];
  }

  lemma HonestLater(log: seq<Message>, published: seq<Message>, more: seq<Message>, m: Message)
    requires Honest(log, published, m)
    ensures Honest(log, published + more, m)
  {
    if m.path.Some? {
      forall i | 0 <= i < |log| && log[i].path == m.path && !SamePayload(m, log[i])
        ensures Delivered(published + more, log[i])
      {
        DeliveredLater(published, more, log[i]);
      }
    }
  }

  /** A step that changes neither the log, the publications, the files nor the names. */
  lemma QuietStep(s: System, st: Step, t: System)
    requires Shape(s) && Shape(t) && DeliveryInv(s)
    requires t.log == s.log && t.published == s.published && t.store == s.store && t.place == s.place
    requires forall m :: m in Flying(t) ==> m in Flying(s) || m.path.None?
    requires forall p :: p in Pending(t.loader) ==> p in Pending(s.loader)
    ensures DeliveryInv(t)
  {
  }

  /** `CreateMessage` on the promise: the new file's name is new, so nothing saved is overwritten. */
  lemma CreateKeepsSafe(s: System, measured: Option<nat>, m: Message, write: S.WriteOutcome)
    requires Shape(s) && DeliveryInv(s)
    ensures var (store, r) := S.Create(s.store, s.place, s.limit, measured, m, write);
            var log := if r.Created? then s.log + [r.m] else s.log;
            && (forall i :: 0 <= i < |log| ==> OnDisk(store.files, log[i]) || Delivered(s.published, log[i]))
            && (forall f :: f in Flying(s) ==> Honest(log, s.published, f))
            && (r.Created? ==> Honest(log, s.published, r.m))
  {
    var (store, r) := S.Create(s.store, s.place, s.limit, measured, m, write);
    var path := Names.Name(s.place.dir, s.place.pid, s.store.count);
    var log := if r.Created? then s.log + [r.m] else s.log;
    assert path !in s.store.files;
    assert r.Created? ==> r.m == m.(path := Some(path)) && Envelope.Marshal(r.m) == Envelope.Marshal(m);
    hide Names.Name, Envelope.Marshal, Flying;
    forall i | 0 <= i < |log|
      ensures OnDisk(store.files, log[i]) || Delivered(s.published, log[i])
    {
      if i < |s.log| {
        assert log[i] == s.log[i];
      }
    }
    assert forall i :: 0 <= i < |s.log| && s.log[i].path == Some(path) ==> Delivered(s.published, s.log[i]);
  }

  lemma OwnNamePast(place: S.Place, count: nat)
    ensures Past(place, count + 1, Names.Name(place.dir, place.pid, count))
  {
    forall c: nat | c >= count + 1
      ensures Names.Name(place.dir, place.pid, count) != Names.Name(place.dir, place.pid, c)
    {
      if Names.Name(place.dir, place.pid, count) == Names.Name(place.dir, place.pid, c) {
        Names.NameInjective(place.dir, place.pid, count, place.pid, c);
      }
    }
  }

  lemma CreateKeepsNames(s: System, measured: Option<nat>, m: Message, write: S.WriteOutcome)
    requires Shape(s) && FreshNames(s) && m.path.None?
    ensures var (store, r) := S.Create(s.store, s.place, s.limit, measured, m, write);
            && (forall p :: p in store.files ==> Past(s.place, store.count, p))
            && (forall f :: f in Flying(s) && f.path.Some? ==> Past(s.place, store.count, f.path.value))
            && (forall p :: p in Pending(s.loader) ==> Past(s.place, store.count, p))
            && (r.Created? ==> r.m.path.Some? && Past(s.place, store.count, r.m.path.value))
  {
    OwnNamePast(s.place, s.store.count);
    hide Names.Name, Envelope.Marshal, Flying;
  }

  /** A message that may be brought into the process. */
  ghost predicate Welcome(t: System, m: Message) {
    Honest(t.log, t.published, m) && (m.path.Some? ==> Past(t.place, t.store.count, m.path.value))
  }

  /** The parts of the promise after a step that brings messages in. */
  lemma Assemble(s: System, t: System, born: set<Message>)
    requires Shape(s) && Shape(t) && Safe(t)
    requires Flying(t) <= Flying(s) + born
    requires forall m :: m in Flying(s) ==> Welcome(t, m)
    requires forall m :: m in born ==> Welcome(t, m)
    requires forall p :: p in t.store.files ==> Past(t.place, t.store.count, p)
    requires forall p :: p in Pending(t.loader) ==> Past(t.place, t.store.count, p)
    ensures DeliveryInv(t)
  {
    hide Flying, Safe, Past, Honest;
  }

  lemma ConvertEffect(s: System, st: Step)
    requires Shape(s) && Enabled(s, st) && st.Convert?
    ensures var t := Converting(s, st);
            var a := s.agents.workers[st.i].m;
            var m := C.Convert(a, st.encoded);
            var (store, r) := S.Create(s.store, s.place, s.limit, st.measured, m, st.write);
            && t.place == s.place && t.published == s.published && t.loader == s.loader
            && m.path.None?
            && t.created ==
               (if C.Kept(a) && r.Created? && r.m.path.Some? then s.created + {r.m.path.value} else s.created)
            && (C.Kept(a) ==>
                  && t.store == store
                  && t.log == (if r.Created? then s.log + [r.m] else s.log)
                  && t.converter == Emitting(if r.Created? then r.m else ErrorOnly(r.error)))
            && (!C.Kept(a) ==> t.store == s.store && t.log == s.log && t.converter == s.converter)
  {
    hide S.Create;
  }

  lemma ConvertDelivers(s: System, st: Step)
    requires Shape(s) && DeliveryInv(s) && Enabled(s, st) && st.Convert?
    ensures DeliveryInv(Converting(s, st))
  {
    ConvertEffect(s, st);
    ConvertingFlying(s, st);
    hide Converting, S.Create, C.Convert, Flying, Past, Delivered, OnDisk;
    var t := Converting(s, st);
    var a := s.agents.workers[st.i].m;
    var born := if t.converter.Emitting? then {t.converter.m} else {};
    if C.Kept(a) {
      CreateKeepsSafe(s, st.measured, C.Convert(a, st.encoded), st.write);
      CreateKeepsNames(s, st.measured, C.Convert(a, st.encoded), st.write);
      Assemble(s, t, born);
    } else {
      assert born == {};
      Assemble(s, t, born);
    }
  }

  lemma LoadEffect(s: System, st: Step)
    requires Shape(s) && Enabled(s, st) && IsLoading(st)
    ensures var t := Loading(s, st);
            && t.log == s.log && t.published == s.published && t.store == s.store && t.place == s.place
            && (st.LoaderRead? ==>
                  t.loader == Loaded(S.LoadMessage(s.loader.paths[0],
                                                   TextRead(s.store.files, s.loader.paths[0], st.reading)),
                                     s.loader.paths[1..]))
            && (st.LoaderList? ==> t.loader == if st.order.Some? then Listed(st.order.value)
                                               else Loaded(ErrorOnly(S.NOT_MEASURED), []))
            && (st.LoaderList? && st.order.Some? ==> forall p :: p in st.order.value ==> p in s.store.files)
            && (st.LoaderGive? || st.LoaderClose? ==> Pending(t.loader) == Pending(s.loader))
  {
    hide S.LoadMessage;
  }

  // ---- The premises ----

  /** What may happen when the loader reads: the files that may be unreadable, and whether it may find
      a file half written. */
  datatype Policy = Policy(unreadable: set<string>, halfRead: bool)

  /** An unreadable file is published with no topic and no bytes. */
  ghost predicate NothingToLose(published: seq<Message>, m: Message) {
    Delivered(published, m) || (m.topic == "" && m.bytes == None)
  }

  /** No saved message of these paths has anything to lose. */
  ghost predicate Expendable(log: seq<Message>, published: seq<Message>, paths: set<string>) {
    forall i :: 0 <= i < |log| && log[i].path.Some? && log[i].path.value in paths ==> NothingToLose(published, log[i])
  }

  /** None of these is a name that the process will still generate. */
  ghost predicate AllPast(place: S.Place, count: nat, paths: set<string>) {
    forall p :: p in paths ==> Past(place, count, p)
  }

  /** Steps within the policy, and new processes with an id that neither a file left over on disk nor
      one that may be unreadable carries. */
  ghost predicate Fair(s: System, st: Step, policy: Policy)
    requires Shape(s) && Enabled(s, st)
  {
    && (st.LoaderRead? && st.reading.Unreadable? ==> s.loader.paths[0] in policy.unreadable)
    && (st.LoaderRead? && st.reading.HalfWritten? ==> policy.halfRead)
    && (st.Restart? ==>
          && AllPast(s.place.(pid := st.pid), 0, s.store.files.Keys)
          && AllPast(s.place.(pid := st.pid), 0, policy.unreadable))
  }

  /** The files that may be unreadable hold nothing to lose, and will not. */
  ghost predicate Undisturbed(s: System, policy: Policy) {
    Expendable(s.log, s.published, policy.unreadable) && AllPast(s.place, s.store.count, policy.unreadable)
  }

  lemma NothingToLoseLater(published: seq<Message>, more: seq<Message>, m: Message)
    requires NothingToLose(published, m)
    ensures NothingToLose(published + more, m)
  {
    if Delivered(published, m) {
      DeliveredLater(published, more, m);
    }
  }

  lemma ExpendableLater(log: seq<Message>, published: seq<Message>, more: seq<Message>, paths: set<string>)
    requires Expendable(log, published, paths)
    ensures Expendable(log, published + more, paths)
  {
    hide NothingToLose;
    forall i | 0 <= i < |log| && NothingToLose(published, log[i])
      ensures NothingToLose(published + more, log[i])
    {
      NothingToLoseLater(published, more, log[i]);
    }
  }

  lemma CreatedName(st: S.State, place: S.Place, limit: Option<int>, measured: Option<nat>, m: Message,
                    write: S.WriteOutcome)
    ensures var (st', r) := S.Create(st, place, limit, measured, m, write);
            && st.count <= st'.count
            && (r.Created? ==> r.m.path == Some(Names.Name(place.dir, place.pid, st.count)))
  {
  }

  lemma ConvertUndisturbed(s: System, st: Step, policy: Policy)
    requires Shape(s) && Undisturbed(s, policy) && Enabled(s, st) && st.Convert?
    ensures Undisturbed(Converting(s, st), policy)
  {
    ConvertEffect(s, st);
    var m := C.Convert(s.agents.workers[st.i].m, st.encoded);
    CreatedName(s.store, s.place, s.limit, st.measured, m, st.write);
    assert Names.Name(s.place.dir, s.place.pid, s.store.count) !in policy.unreadable;
    hide Converting, Enabled, S.Create, C.Convert, C.Kept, Names.Name, NothingToLose;
  }

  lemma DownstreamUndisturbed(s: System, st: Step, policy: Policy)
    requires Shape(s) && Undisturbed(s, policy) && Enabled(s, st) && IsDownstream(st) && Fair(s, st, policy)
    ensures Undisturbed(Downstream(s, st), policy)
  {
    hide Expendable, AllPast, L.NextPeriod, L.Reconfigured, L.Settle;
    var t := Downstream(s, st);
    assert t.log == s.log;
    var more := if st.Publish? && st.acknowledged then [s.producer.m] else [];
    assert t.published == s.published + more;
    assert !st.Restart? ==> t.place == s.place && t.store.count == s.store.count;
    assert st.Restart? ==> t.place == s.place.(pid := st.pid) && t.store.count == 0;
    hide Downstream;
    ExpendableLater(s.log, s.published, more, policy.unreadable);
  }

  lemma StepUndisturbed(s: System, st: Step, policy: Policy)
    requires Shape(s) && Undisturbed(s, policy) && Enabled(s, st) && Fair(s, st, policy)
    ensures Undisturbed(Next(s, st), policy)
  {
    hide Expendable, AllPast;
    if IsUpstream(st) {
      UpstreamFrame(s, st);
    } else if st.Convert? {
      ConvertUndisturbed(s, st, policy);
    } else if IsConverting(st) {
      ConvertingFrame(s, st);
    } else if IsLoading(st) {
      LoadingFrame(s, st);
    } else if IsRequesting(st) {
      RequestingFrame(s, st);
    } else {
      DownstreamUndisturbed(s, st, policy);
    }
    hide Enabled, Upstream, Converting, Loading, Requesting, Downstream;
  }

  /** Reading a whole file, or finding that it is gone, gives an honest message. */
  lemma LoadedHonest(s: System, path: string)
    requires Safe(s)
    ensures Honest(s.log, s.published, S.LoadMessage(path, S.Lookup(s.store.files, path)))
  {
    var m := S.LoadMessage(path, S.Lookup(s.store.files, path));
    forall i | 0 <= i < |s.log| && s.log[i].path == m.path
      ensures SamePayload(m, s.log[i]) || Delivered(s.published, s.log[i])
    {
      if OnDisk(s.store.files, s.log[i]) {
        Envelope.MarshalRoundTrip(s.log[i], path);
      }
    }
  }

  /** An unreadable file gives an honest message when its saved messages have nothing to lose. */
  lemma UnreadHonest(log: seq<Message>, published: seq<Message>, path: string)
    requires forall i :: 0 <= i < |log| && log[i].path == Some(path) ==> NothingToLose(published, log[i])
    ensures Honest(log, published, S.LoadMessage(path, None))
  {
  }

  lemma ReadHonest(s: System, st: Step, policy: Policy)
    requires Shape(s) && Safe(s) && Undisturbed(s, policy) && !policy.halfRead
    requires Enabled(s, st) && st.LoaderRead? && Fair(s, st, policy)
    ensures var p := s.loader.paths[0];
            Honest(s.log, s.published, S.LoadMessage(p, TextRead(s.store.files, p, st.reading)))
  {
    var p := s.loader.paths[0];
    hide S.LoadMessage, Honest, NothingToLose, Safe;
    if st.reading.Whole? {
      LoadedHonest(s, p);
    } else {
      UnreadHonest(s.log, s.published, p);
    }
  }

  lemma LoadDelivers(s: System, st: Step, policy: Policy)
    requires Shape(s) && DeliveryInv(s) && Undisturbed(s, policy) && !policy.halfRead
    requires Enabled(s, st) && IsLoading(st) && Fair(s, st, policy)
    ensures DeliveryInv(Loading(s, st))
  {
    LoadEffect(s, st);
    LoadingFlying(s, st);
    var t := Loading(s, st);
    var born := if (st.LoaderRead? || st.LoaderList?) && t.loader.Loaded? then {t.loader.m} else {};
    if st.LoaderRead? {
      ReadHonest(s, st, policy);
      assert s.loader.paths[0] in Pending(s.loader);
    }
    hide Loading, Enabled, Fair, Undisturbed, S.LoadMessage, Flying, Past, Safe, TextRead;
    assert forall m :: m in born ==> Welcome(t, m);
    assert forall p :: p in Pending(t.loader) ==> p in Pending(s.loader) || p in s.store.files;
    Assemble(s, t, born);
  }

  lemma PublishDelivers(s: System, st: Step)
    requires Shape(s) && DeliveryInv(s) && Enabled(s, st) && st.Publish?
    ensures DeliveryInv(Downstream(s, st))
  {
    var t := Downstream(s, st);
    DownstreamFlying(s, st);
    var m := s.producer.m;
    if st.acknowledged {
      assert m in Flying(s);
      assert t.published == s.published + [m] && t.log == s.log && t.place == s.place && t.loader == s.loader;
      assert t.store.files ==
             if m.path.Some? && st.removed then s.store.files - {m.path.value} else s.store.files;
      hide Downstream, Flying;
      assert t.published[|s.published|] == m;
      forall i | 0 <= i < |t.log|
        ensures OnDisk(t.store.files, t.log[i]) || Delivered(t.published, t.log[i])
      {
        if Delivered(s.published, t.log[i]) {
          DeliveredLater(s.published, [m], t.log[i]);
        }
      }
      forall f | f in Flying(t)
        ensures Honest(t.log, t.published, f)
      {
        HonestLater(s.log, s.published, [m], f);
      }
    } else {
      QuietStep(s, st, t);
    }
  }

  lemma RestartDelivers(s: System, st: Step)
    requires Shape(s) && DeliveryInv(s) && Enabled(s, st) && st.Restart?
    requires AllPast(s.place.(pid := st.pid), 0, s.store.files.Keys)
    ensures DeliveryInv(Downstream(s, st))
  {
    NewProcessFlying(s, st);
    hide Flying;
  }

  lemma DownstreamDelivers(s: System, st: Step)
    requires Shape(s) && DeliveryInv(s) && Enabled(s, st) && IsDownstream(st)
    requires st.Restart? ==> AllPast(s.place.(pid := st.pid), 0, s.store.files.Keys)
    ensures DeliveryInv(Downstream(s, st))
  {
    if st.Publish? {
      PublishDelivers(s, st);
    } else if st.Restart? {
      RestartDelivers(s, st);
    } else {
      var t := Downstream(s, st);
      DownstreamFlying(s, st);
      assert t.log == s.log && t.published == s.published && t.store == s.store;
      assert t.place == s.place && t.loader == s.loader;
      hide Downstream;
      QuietStep(s, st, t);
    }
  }

  lemma BornOfRequester(s: System, st: Step)
    requires Shape(s) && Enabled(s, st) && st.RequesterTick?
    ensures var t := Requesting(s, st);
            t.requester.Reporting? ==> t.requester.m.path.None?
  {
  }

  /** Each step within the policy keeps the delivery invariant. */
  lemma StepDelivers(s: System, st: Step, policy: Policy)
    requires Shape(s) && DeliveryInv(s) && Undisturbed(s, policy) && !policy.halfRead
    requires Enabled(s, st) && Fair(s, st, policy)
    ensures DeliveryInv(Next(s, st)) && Undisturbed(Next(s, st), policy)
  {
    StepUndisturbed(s, st, policy);
    hide Undisturbed;
    if IsUpstream(st) {
      UpstreamFlying(s, st);
      UpstreamFrame(s, st);
      hide Upstream, Enabled, DeliveryInv, Flying;
      QuietStep(s, st, Upstream(s, st));
    } else if st.Convert? {
      ConvertDelivers(s, st);
      hide *;
    } else if IsConverting(st) {
      ConvertingFlying(s, st);
      ConvertingFrame(s, st);
      hide Converting, Enabled, DeliveryInv, Flying;
      QuietStep(s, st, Converting(s, st));
    } else if IsLoading(st) {
      LoadDelivers(s, st, policy);
    } else if IsRequesting(st) {
      RequestingFlying(s, st);
      RequestingFrame(s, st);
      if st.RequesterTick? {
        BornOfRequester(s, st);
      }
      hide Requesting, Enabled, DeliveryInv, Flying;
      QuietStep(s, st, Requesting(s, st));
    } else {
      DownstreamDelivers(s, st);
    }
  }

  // ---- Whole runs ----

  ghost predicate AllFair(s: System, steps: seq<Step>, policy: Policy)
    requires Shape(s) && Runs(s, steps)
    decreases steps
  {
    steps == [] || (Fair(s, steps[0], policy) && AllFair(Next(s, steps[0]), steps[1..], policy))
  }

  lemma StartDelivers(place: S.Place, files: S.Files, file: L.File, handed: seq<Message>, published: seq<Message>,
                      log: seq<Message>, stream: seq<A.Decode>, points: seq<A.Decode>, policy: Policy)
    requires forall i :: 0 <= i < |log| ==> OnDisk(files, log[i]) || Delivered(published, log[i])
    requires AllPast(place, 0, files.Keys)
    requires Expendable(log, published, policy.unreadable) && AllPast(place, 0, policy.unreadable)
    ensures var s := NewProcess(place, files, file, handed, published, log, stream, points);
            DeliveryInv(s) && Undisturbed(s, policy)
  {
    hide OnDisk, Delivered, Past;
  }

  /** The log of saved messages only grows. */
  lemma LogGrows(s: System, st: Step)
    requires Shape(s) && Enabled(s, st)
    ensures s.log <= Next(s, st).log
  {
    if IsUpstream(st) {
      UpstreamFrame(s, st);
    } else if st.Convert? {
      ConvertEffect(s, st);
    } else if IsConverting(st) {
      ConvertingFrame(s, st);
    } else if IsLoading(st) {
      LoadingFrame(s, st);
    } else if IsRequesting(st) {
      RequestingFrame(s, st);
    } else {
      assert Downstream(s, st).log == s.log;
    }
    hide Enabled, Upstream, Converting, Loading, Requesting, Downstream;
  }

  /** Every run within the policy keeps the promise. */
  lemma {:induction false} RunDelivers(s: System, steps: seq<Step>, policy: Policy)
    requires Shape(s) && DeliveryInv(s) && Undisturbed(s, policy) && !policy.halfRead
    requires Runs(s, steps) && AllFair(s, steps, policy)
    ensures s.log <= Run(s, steps).log && DeliveryInv(Run(s, steps))
    decreases steps
  {
    if steps != [] {
      hide Next, DeliveryInv, Undisturbed, Enabled, Fair;
      StepDelivers(s, steps[0], policy);
      LogGrows(s, steps[0]);
      RunDelivers(Next(s, steps[0]), steps[1..], policy);
    }
  }

  /** At-least-once: from the start of a process, over any run of processes that crash, exit and
      start again, whenever the loader lists the directory, and whatever the limiter drops, the broker
      refuses, a removal fails or a save leaves half written, every message whose save succeeded is on
      disk with its content or has been acknowledged. The premises: the loader reads whole files, and
      no file on disk carries a name of a process to come. */
  lemma AtLeastOnce(place: S.Place, files: S.Files, file: L.File, handed: seq<Message>, published: seq<Message>,
                    log: seq<Message>, stream: seq<A.Decode>, points: seq<A.Decode>, steps: seq<Step>)
    requires forall i :: 0 <= i < |log| ==> OnDisk(files, log[i]) || Delivered(published, log[i])
    requires AllPast(place, 0, files.Keys)
    requires var s := NewProcess(place, files, file, handed, published, log, stream, points);
             Runs(s, steps) && AllFair(s, steps, Policy({}, false))
    ensures var t := Run(NewProcess(place, files, file, handed, published, log, stream, points), steps);
            && log <= t.log
            && forall i :: 0 <= i < |t.log| ==> OnDisk(t.store.files, t.log[i]) || Delivered(t.published, t.log[i])
  {
    var policy := Policy({}, false);
    var s := NewProcess(place, files, file, handed, published, log, stream, points);
    StartDelivers(place, files, file, handed, published, log, stream, points, policy);
    assert s.log == log;
    hide NewProcess, AllHonest, FreshNames, Undisturbed, OnDisk, Delivered;
    RunDelivers(s, steps, policy);
  }

  // ---- When files are read whole ----

  /** The loader waits to read no file that this process has created. */
  predicate Separate(s: System) {
    && (s.converter.Emitting? && s.converter.m.path.Some? ==> s.converter.m.path.value in s.created)
    && (forall p :: p in Pending(s.loader) ==> p !in s.created)
  }

  lemma ConvertSeparate(s: System, st: Step)
    requires Shape(s) && FreshNames(s) && Separate(s) && Enabled(s, st) && st.Convert?
    ensures Separate(Converting(s, st))
  {
    ConvertEffect(s, st);
    CreatedName(s.store, s.place, s.limit, st.measured, C.Convert(s.agents.workers[st.i].m, st.encoded), st.write);
    assert forall p :: p in Pending(s.loader) ==> p != Names.Name(s.place.dir, s.place.pid, s.store.count);
    hide Converting, Enabled, S.Create, C.Convert, C.Kept, Names.Name, FreshNames, Pending;
  }

  lemma StepSeparate(s: System, st: Step)
    requires Shape(s) && FreshNames(s) && Separate(s) && Enabled(s, st) && (st.LoaderList? ==> s.created == {})
    ensures Separate(Next(s, st))
  {
    hide FreshNames;
    if IsUpstream(st) {
      UpstreamFrame(s, st);
      hide Upstream;
    } else if st.Convert? {
      ConvertSeparate(s, st);
    } else if IsConverting(st) {
      ConvertingFrame(s, st);
      hide S.Create, C.Convert;
    } else if IsLoading(st) {
      LoadEffect(s, st);
      LoadingFrame(s, st);
      hide Loading;
    } else if IsRequesting(st) {
      RequestingFrame(s, st);
      hide Requesting;
    } else {
      var t := Downstream(s, st);
      assert !st.Restart? ==> t.loader == s.loader && t.converter == s.converter && t.created == s.created;
      assert st.Restart? ==> t.loader.NotListed? && t.converter.Ready? && t.created == {};
      hide Downstream;
    }
    hide Enabled;
  }

  /** Does the loader of every process list the directory before the process stores a message? */
  ghost predicate ListsFirst(s: System, steps: seq<Step>)
    requires Shape(s) && Runs(s, steps)
    decreases steps
  {
    steps == [] ||
    ((steps[0].LoaderList? ==> s.created == {}) && ListsFirst(Next(s, steps[0]), steps[1..]))
  }

  lemma StepReadsWhole(s: System, st: Step, policy: Policy)
    requires Shape(s) && Separate(s) && Undisturbed(s, policy) && Enabled(s, st) && Fair(s, st, policy)
    ensures Fair(s, st, policy.(halfRead := false)) && Undisturbed(s, policy.(halfRead := false))
  {
    assert st.LoaderRead? ==> s.loader.paths[0] in Pending(s.loader);
  }

  lemma {:induction false} RunReadsWhole(s: System, steps: seq<Step>, policy: Policy)
    requires Shape(s) && DeliveryInv(s) && Undisturbed(s, policy) && Separate(s)
    requires Runs(s, steps) && AllFair(s, steps, policy) && ListsFirst(s, steps)
    ensures AllFair(s, steps, policy.(halfRead := false))
    decreases steps
  {
    if steps != [] {
      StepReadsWhole(s, steps[0], policy);
      StepDelivers(s, steps[0], policy.(halfRead := false));
      StepSeparate(s, steps[0]);
      hide Next, Enabled, Fair, Safe, AllHonest, Separate;
      RunReadsWhole(Next(s, steps[0]), steps[1..], policy);
    }
  }

  /** A file is never read half written when the loader has listed the directory before its process
      stores a message, so the promise of AtLeastOnce holds of all such runs. */
  lemma ListsFirstReadsWhole(place: S.Place, files: S.Files, file: L.File, handed: seq<Message>,
                             published: seq<Message>, log: seq<Message>, stream: seq<A.Decode>,
                             points: seq<A.Decode>, steps: seq<Step>)
    requires forall i :: 0 <= i < |log| ==> OnDisk(files, log[i]) || Delivered(published, log[i])
    requires AllPast(place, 0, files.Keys)
    requires var s := NewProcess(place, files, file, handed, published, log, stream, points);
             Runs(s, steps) && AllFair(s, steps, Policy({}, true)) && ListsFirst(s, steps)
    ensures AllFair(NewProcess(place, files, file, handed, published, log, stream, points), steps, Policy({}, false))
  {
    StartDelivers(place, files, file, handed, published, log, stream, points, Policy({}, true));
    var s := NewProcess(place, files, file, handed, published, log, stream, points);
    assert Separate(s);
    hide NewProcess, DeliveryInv, Undisturbed, Separate;
    RunReadsWhole(s, steps, Policy({}, true));
  }
}
