/** When the client can lose a stored message: the premises of at-least-once delivery are needed,
    each for every start of a process. */
module PipelineLoss {
  import opened Broker
  import opened Calendar
  import opened Pipeline
  import opened PipelineDelivery
  import A = Agent
  import C = Converters
  import L = Limiter
  import M = Merge
  import S = Store
  import Envelope
  import Names

  // ---- Runs that lose ----

  /** Nothing is left of this message: it is not on disk, no copy of it is on its way, and the broker
      has not acknowledged it. */
  ghost predicate Lost(s: System, m: Message)
    requires Shape(s)
  {
    && !OnDisk(s.store.files, m) && !Delivered(s.published, m)
    && forall f :: f in Flying(s) ==> !(f.path == m.path && SamePayload(f, m))
  }

  ghost predicate Loses(s: System)
    requires Shape(s)
  {
    exists i :: 0 <= i < |s.log| && Lost(s, s.log[i])
  }

  /** Some run of this process, within the policy, ends with a saved message lost. */
  ghost predicate CanLose(s: System, policy: Policy)
    requires Shape(s)
  {
    exists steps: seq<Step> ::
      OneProcess(steps) && Runs(s, steps) && AllFair(s, steps, policy) && Loses(Run(s, steps))
  }

  lemma CanLoseNow(s: System, saved: Message, policy: Policy)
    requires Shape(s) && saved in s.log && Lost(s, saved)
    ensures CanLose(s, policy)
  {
    hide Next, Enabled, Lost, Fair;
    var i :| 0 <= i < |s.log| && s.log[i] == saved;
    assert Loses(s);
    assert Runs(s, []) && Run(s, []) == s && AllFair(s, [], policy) && OneProcess([]);
  }

  lemma CanLoseBefore(s: System, st: Step, policy: Policy)
    requires Shape(s) && Enabled(s, st) && Fair(s, st, policy) && !st.Restart? && CanLose(Next(s, st), policy)
    ensures CanLose(s, policy)
  {
    hide Next, Enabled, Loses, Fair;
    var t := Next(s, st);
    var steps: seq<Step> :| OneProcess(steps) && Runs(t, steps) && AllFair(t, steps, policy) && Loses(Run(t, steps));
    assert ([st] + steps)[1..] == steps;
    assert Runs(s, [st] + steps) && Run(s, [st] + steps) == Run(t, steps);
    assert OneProcess([st] + steps) && AllFair(s, [st] + steps, policy);
  }

  // ---- Moving a message on ----

  /** The limiter is open and has no budget. */
  predicate PassesOn(s: System) {
    s.limiter.open && s.limiter.state == L.UnderBudget && !s.limiter.account.hasBudget
  }

  /** Nothing is on its way from the agent or to the broker, except perhaps in the loader. */
  predicate Calm(s: System) {
    && Shape(s) && PassesOn(s) && s.limiter.hold.Free? && s.producer.Receiving?
    && s.merger.buf == [] && s.merger.workers[0].Idle? && s.merger.workers[1].Idle? && s.merger.workers[2].Idle?
    && s.requester.Asking? && s.agents.workers[0].Idle? && s.agents.buf == []
    && s.converter.Ready? && s.server.phase.Scanning? && s.server.scanner.err.None? && s.limit == None
  }

  lemma LoadOn(s: System, m: Message, policy: Policy) returns (t: System)
    requires Shape(s) && s.loader.Loaded? && s.loader.m == m && s.merger.workers[1].Idle?
    ensures Shape(t) && t == s.(loader := Listed(s.loader.rest), merger := t.merger)
    ensures t.merger.workers == s.merger.workers[1 := M.Holding(m)] && t.merger.buf == s.merger.buf
    ensures CanLose(t, policy) ==> CanLose(s, policy)
  {
    LoadingFrame(s, LoaderGive);
    t := Loading(s, LoaderGive);
    assert t.merger.workers == s.merger.workers[1 := M.Holding(m)] && t.merger.buf == s.merger.buf;
    hide Loading, CanLose;
    if CanLose(t, policy) {
      CanLoseBefore(s, LoaderGive, policy);
    }
  }

  lemma PutOn(s: System, i: nat, m: Message, policy: Policy) returns (t: System)
    requires Shape(s) && i < 3 && s.merger.buf == [] && s.merger.workers[i] == M.Holding(m)
    ensures Shape(t) && t == s.(merger := t.merger) && t.merger.buf == [m]
    ensures t.merger.workers == s.merger.workers[i := M.Idle]
    ensures CanLose(t, policy) ==> CanLose(s, policy)
  {
    t := Downstream(s, Put(i));
    assert t == s.(merger := t.merger) && t.merger.buf == [m];
    assert t.merger.workers == s.merger.workers[i := M.Idle];
    hide Downstream, CanLose;
    if CanLose(t, policy) {
      CanLoseBefore(s, Put(i), policy);
    }
  }

  lemma TakeAndGive(s: System, m: Message, policy: Policy) returns (t: System)
    requires Shape(s) && PassesOn(s) && s.limiter.hold.Free? && s.producer.Receiving? && s.merger.buf == [m]
    ensures Shape(t) && t.merger.buf == [] && t.merger.workers == s.merger.workers
    ensures t == s.(merger := t.merger, limiter := s.limiter.(hold := Charging(m)), producer := Publishing(m),
                    handed := t.handed)
    ensures CanLose(t, policy) ==> CanLose(s, policy)
  {
    var s1 := Downstream(s, LimiterTake);
    assert s1 == s.(merger := s1.merger, limiter := s.limiter.(hold := Offering(m)));
    assert s1.merger.buf == [] && s1.merger.workers == s.merger.workers;
    t := Downstream(s1, LimiterGive);
    assert t == s1.(limiter := s.limiter.(hold := Charging(m)), producer := Publishing(m), handed := t.handed);
    hide Downstream, CanLose;
    if CanLose(t, policy) {
      CanLoseBefore(s1, LimiterGive, policy);
      CanLoseBefore(s, LimiterTake, policy);
    }
  }

  lemma ChargeFor(s: System, m: Message, policy: Policy) returns (t: System)
    requires Shape(s) && PassesOn(s) && s.limiter.hold == Charging(m)
    ensures Shape(t) && PassesOn(t) && t.limiter.hold.Free? && t == s.(limiter := t.limiter, file := t.file)
    ensures CanLose(t, policy) ==> CanLose(s, policy)
  {
    t := Downstream(s, LimiterSave(L.Refused));
    assert t == s.(limiter := t.limiter, file := t.file) && PassesOn(t) && t.limiter.hold.Free?;
    hide Downstream, CanLose;
    if CanLose(t, policy) {
      CanLoseBefore(s, LimiterSave(L.Refused), policy);
    }
  }

  lemma Refuse(s: System, m: Message, policy: Policy) returns (t: System)
    requires Shape(s) && s.producer == Publishing(m)
    ensures Shape(t) && t == s.(producer := Receiving)
    ensures CanLose(t, policy) ==> CanLose(s, policy)
  {
    t := Downstream(s, Publish(false, false));
    assert t == s.(producer := Receiving);
    hide Downstream, CanLose;
    if CanLose(t, policy) {
      CanLoseBefore(s, Publish(false, false), policy);
    }
  }

  lemma Acknowledge(s: System, m: Message, policy: Policy) returns (t: System)
    requires Shape(s) && s.producer == Publishing(m) && m.path.Some?
    ensures Shape(t) && t == s.(producer := Receiving, published := s.published + [m],
                                store := s.store.(files := s.store.files - {m.path.value}))
    ensures CanLose(t, policy) ==> CanLose(s, policy)
  {
    t := Downstream(s, Publish(true, true));
    assert t == s.(producer := Receiving, published := s.published + [m],
                   store := s.store.(files := s.store.files - {m.path.value}));
    hide Downstream, CanLose;
    if CanLose(t, policy) {
      CanLoseBefore(s, Publish(true, true), policy);
    }
  }

  /** A message passes through the limiter to the producer, which has nothing else. */
  lemma HandOn(s: System, m: Message, policy: Policy) returns (t: System)
    requires Shape(s) && PassesOn(s) && s.limiter.hold.Free? && s.producer.Receiving? && s.merger.buf == [m]
    ensures Shape(t) && PassesOn(t) && t.limiter.hold.Free? && t.producer == Publishing(m)
    ensures t.merger.buf == [] && t.merger.workers == s.merger.workers
    ensures t == s.(merger := t.merger, limiter := t.limiter, file := t.file, producer := t.producer,
                    handed := t.handed)
    ensures CanLose(t, policy) ==> CanLose(s, policy)
  {
    hide CanLose;
    var s1 := TakeAndGive(s, m, policy);
    t := ChargeFor(s1, m, policy);
  }

  lemma ConverterOn(s: System, m: Message, policy: Policy) returns (t: System)
    requires Shape(s) && s.converter == Emitting(m) && s.merger.workers[0].Idle?
    ensures Shape(t) && t == s.(converter := Ready, merger := t.merger)
    ensures t.merger.workers == s.merger.workers[0 := M.Holding(m)] && t.merger.buf == s.merger.buf
    ensures CanLose(t, policy) ==> CanLose(s, policy)
  {
    ConvertingFrame(s, ConverterGive);
    t := Converting(s, ConverterGive);
    assert t == s.(converter := Ready, merger := t.merger);
    assert t.merger.workers == s.merger.workers[0 := M.Holding(m)] && t.merger.buf == s.merger.buf;
    hide Converting, CanLose;
    if CanLose(t, policy) {
      CanLoseBefore(s, ConverterGive, policy);
    }
  }

  /** The converter's message passes through to the broker, which refuses it. */
  lemma PassOn(s: System, m: Message, policy: Policy) returns (t: System)
    requires Calm(s.(converter := Ready)) && s.converter == Emitting(m)
    ensures Calm(t)
    ensures t == s.(converter := Ready, merger := t.merger, limiter := t.limiter, file := t.file, handed := t.handed)
    ensures CanLose(t, policy) ==> CanLose(s, policy)
  {
    hide CanLose;
    var s1 := ConverterOn(s, m, policy);
    var s2 := PutOn(s1, 0, m, policy);
    var s3 := HandOn(s2, m, policy);
    t := Refuse(s3, m, policy);
  }

  /** The loader's message passes through to the broker, which acknowledges it, and its file is gone. */
  lemma LoadThrough(s: System, m: Message, policy: Policy) returns (t: System)
    requires Calm(s.(converter := Ready)) && s.loader.Loaded? && s.loader.m == m && m.path.Some?
    ensures Calm(t.(converter := Ready)) && t.loader.Listed?
    ensures t == s.(loader := t.loader, merger := t.merger, limiter := t.limiter, file := t.file, handed := t.handed,
                    published := s.published + [m], store := s.store.(files := s.store.files - {m.path.value}))
    ensures CanLose(t, policy) ==> CanLose(s, policy)
  {
    hide CanLose;
    var s1 := LoadOn(s, m, policy);
    var s2 := PutOn(s1, 1, m, policy);
    var s3 := HandOn(s2, m, policy);
    t := Acknowledge(s3, m, policy);
  }

  // ---- A message in the loader that is not what was saved at its path ----

  ghost predicate AtStake(s: System, saved: Message) {
    saved.path.Some? && saved in s.log && !Delivered(s.published, saved)
  }

  /** A message that the loader read from the path of a saved one, and that is not the same. */
  predicate Impostor(m: Message, saved: Message) {
    m.path == saved.path && !SamePayload(m, saved)
  }

  lemma NotDeliveredBy(published: seq<Message>, m: Message, saved: Message)
    requires !Delivered(published, saved) && Impostor(m, saved)
    ensures !Delivered(published + [m], saved)
  {
    forall j | 0 <= j < |published + [m]|
      ensures !((published + [m])[j].path == saved.path && SamePayload((published + [m])[j], saved))
    {
      if j < |published| {
        assert (published + [m])[j] == published[j];
      }
    }
  }

  lemma CalmFlying(s: System)
    requires Calm(s) && !s.loader.Loaded?
    ensures Flying(s) == {}
  {
  }

  lemma GoneLoses(s: System, t: System, saved: Message, m: Message, policy: Policy)
    requires Shape(s) && Calm(t) && !t.loader.Loaded? && AtStake(s, saved) && Impostor(m, saved)
    requires t.log == s.log && t.published == s.published + [m] && saved.path.value !in t.store.files
    ensures CanLose(t, policy)
  {
    NotDeliveredBy(s.published, m, saved);
    CalmFlying(t);
    hide CanLose, Delivered, SamePayload, Flying;
    assert Lost(t, saved);
    CanLoseNow(t, saved, policy);
  }

  /** The broker acknowledges the impostor, whose path is the saved message's, and then refuses the
      copy that the converter may still have. */
  lemma LoadedLoses(s: System, saved: Message, m: Message, policy: Policy)
    requires Calm(s.(converter := Ready)) && (s.converter.Ready? || s.converter.Emitting?)
    requires s.loader.Loaded? && s.loader.m == m && AtStake(s, saved) && Impostor(m, saved)
    ensures CanLose(s, policy)
  {
    hide CanLose, Delivered, SamePayload;
    var t := LoadThrough(s, m, policy);
    if t.converter.Emitting? {
      var t1 := PassOn(t, t.converter.m, policy);
      GoneLoses(s, t1, saved, m, policy);
    } else {
      assert t == t.(converter := Ready);
      GoneLoses(s, t, saved, m, policy);
    }
  }

  // ---- Feeding the converter ----

  const PROFILE_DATA := A.AgentMessage("profile", None)

  function Profile(bytes: seq<byte>): Message {
    Message("", PROFILE, Some(bytes), None)
  }

  /** The process s with the converter's turn on one more profile behind it. */
  ghost predicate Fed(s: System, t: System) {
    && Shape(t)
    && t == s.(server := t.server, agents := t.agents, converter := t.converter, store := t.store, log := t.log,
               created := t.created)
    && t.agents.workers[0].Idle? && t.agents.buf == []
    && t.server.phase.Scanning? && t.server.scanner.err.None?
  }

  lemma Scan(s: System, policy: Policy) returns (t: System)
    requires Calm(s) && s.server.stream != [] && s.server.stream[0] == A.Item(PROFILE_DATA)
    ensures Shape(t) && t == s.(server := t.server) && t.server.phase == Sending(PROFILE_DATA)
    ensures t.server.scanner.err.None? && t.server.stream == s.server.stream[1..]
    ensures CanLose(t, policy) ==> CanLose(s, policy)
  {
    UpstreamFrame(s, ServerScan);
    t := Upstream(s, ServerScan);
    hide Upstream, CanLose;
    if CanLose(t, policy) {
      CanLoseBefore(s, ServerScan, policy);
    }
  }

  lemma Give(s: System, policy: Policy) returns (t: System)
    requires Shape(s) && s.server.phase == Sending(PROFILE_DATA) && s.agents.workers[0].Idle?
    ensures Shape(t) && t == s.(server := s.server.(phase := Scanning), agents := t.agents)
    ensures t.agents.workers[0] == M.Holding(PROFILE_DATA) && t.agents.buf == s.agents.buf
    ensures CanLose(t, policy) ==> CanLose(s, policy)
  {
    UpstreamFrame(s, ServerGive);
    t := Upstream(s, ServerGive);
    hide Upstream, CanLose;
    if CanLose(t, policy) {
      CanLoseBefore(s, ServerGive, policy);
    }
  }

  function NextName(s: System): string {
    Names.Name(s.place.dir, s.place.pid, s.store.count)
  }

  function NextProfile(s: System, bytes: seq<byte>): Message {
    Profile(bytes).(path := Some(NextName(s)))
  }

  /** What the converter's turn on a profile did: it stored it, or failed to open its file. */
  ghost predicate Profiled(s: System, t: System, bytes: seq<byte>, write: S.WriteOutcome) {
    var b := NextProfile(s, bytes);
    && t.store.count == s.store.count + 1
    && (if write.Complete? then
          && t.store.files == s.store.files[NextName(s) := Envelope.Marshal(b)]
          && t.log == s.log + [b] && t.converter == Emitting(b) && t.created == s.created + {NextName(s)}
        else
          && t.store.files == s.store.files && t.log == s.log
          && t.converter == Emitting(ErrorOnly(S.NOT_SAVED)) && t.created == s.created)
  }

  lemma CreateAnyway(st: S.State, place: S.Place, m: Message, write: S.WriteOutcome)
    requires write.Complete? || write.Unopened?
    ensures var path := Names.Name(place.dir, place.pid, st.count);
            var b := m.(path := Some(path));
            S.Create(st, place, None, Some(0), m, write) ==
            (if write.Complete? then (S.State(st.files[path := Envelope.Marshal(b)], st.count + 1), S.Created(b))
             else (st.(count := st.count + 1), S.Failed(S.NOT_SAVED)))
  {
  }

  function Conversion(bytes: seq<byte>, write: S.WriteOutcome): Step {
    Convert(0, C.Encoded(Some(bytes), ""), Some(0), write)
  }

  lemma ProfileConverts(bytes: seq<byte>)
    ensures C.Convert(PROFILE_DATA, C.Encoded(Some(bytes), "")) == Profile(bytes) && C.Kept(PROFILE_DATA)
  {
  }

  lemma Converts(s: System, bytes: seq<byte>, write: S.WriteOutcome)
    requires Shape(s) && s.agents.workers[0] == M.Holding(PROFILE_DATA) && s.agents.buf == []
    requires s.converter.Ready? && s.limit == None && (write.Complete? || write.Unopened?)
    ensures Enabled(s, Conversion(bytes, write)) && IsConverting(Conversion(bytes, write))
    ensures Profiled(s, Converting(s, Conversion(bytes, write)), bytes, write)
  {
    hide Converting, Envelope.Marshal, Names.Name, S.Create, C.Convert, C.Kept, Profile;
    var st := Conversion(bytes, write);
    assert Enabled(s, st);
    hide Enabled;
    ConvertEffect(s, st);
    CreateAnyway(s.store, s.place, Profile(bytes), write);
    ProfileConverts(bytes);
  }

  lemma ConvertsFrame(s: System, bytes: seq<byte>, write: S.WriteOutcome)
    requires Shape(s) && Enabled(s, Conversion(bytes, write))
    ensures var t := Converting(s, Conversion(bytes, write));
            && t == s.(agents := t.agents, converter := t.converter, store := t.store, log := t.log,
                       created := t.created)
            && t.agents.workers[0].Idle? && t.agents.buf == s.agents.buf
  {
    ConvertingFrame(s, Conversion(bytes, write));
    hide S.Create, C.Convert;
  }

  lemma ProfiledSame(s: System, s2: System, t: System, bytes: seq<byte>, write: S.WriteOutcome)
    requires s2 == s.(server := s2.server, agents := s2.agents) && Profiled(s2, t, bytes, write)
    ensures Profiled(s, t, bytes, write)
  {
  }

  lemma CanLoseConverting(s: System, bytes: seq<byte>, write: S.WriteOutcome, policy: Policy)
    requires Shape(s) && Enabled(s, Conversion(bytes, write)) && IsConverting(Conversion(bytes, write))
    requires CanLose(Converting(s, Conversion(bytes, write)), policy)
    ensures CanLose(s, policy)
  {
    hide Converting, CanLose, Enabled;
    CanLoseBefore(s, Conversion(bytes, write), policy);
  }

  lemma ConvertOn(s: System, bytes: seq<byte>, write: S.WriteOutcome, policy: Policy) returns (t: System)
    requires Shape(s) && s.agents.workers[0] == M.Holding(PROFILE_DATA) && s.agents.buf == []
    requires s.converter.Ready? && s.limit == None && (write.Complete? || write.Unopened?)
    ensures Shape(t) && Profiled(s, t, bytes, write)
    ensures t == s.(agents := t.agents, converter := t.converter, store := t.store, log := t.log, created := t.created)
    ensures t.agents.workers[0].Idle? && t.agents.buf == []
    ensures CanLose(t, policy) ==> CanLose(s, policy)
  {
    hide *;
    Converts(s, bytes, write);
    ConvertsFrame(s, bytes, write);
    t := Converting(s, Conversion(bytes, write));
    if CanLose(t, policy) {
      CanLoseConverting(s, bytes, write, policy);
    }
  }

  /** The converter takes its turn on a profile with these bytes. */
  lemma Feed(s: System, bytes: seq<byte>, write: S.WriteOutcome, policy: Policy) returns (t: System)
    requires Calm(s) && s.server.stream != [] && s.server.stream[0] == A.Item(PROFILE_DATA)
    requires write.Complete? || write.Unopened?
    ensures Fed(s, t) && t.server.stream == s.server.stream[1..] && Profiled(s, t, bytes, write)
    ensures CanLose(t, policy) ==> CanLose(s, policy)
  {
    hide CanLose, Profiled;
    var s1 := Scan(s, policy);
    var s2 := Give(s1, policy);
    t := ConvertOn(s2, bytes, write, policy);
    ProfiledSame(s, s2, t, bytes, write);
  }

  /** Nothing but the counter and what is behind the converter has changed. */
  predicate Alike(s: System, t: System) {
    && t.loader == s.loader && t.log == s.log && t.published == s.published && t.place == s.place
    && t.created == s.created && t.store.files == s.store.files
  }

  function Profiles(n: nat): (stream: seq<A.Decode>)
    ensures |stream| == n
  {
    seq(n, _ => A.Item(PROFILE_DATA))
  }

  /** The counter moves on by a file that cannot be opened. */
  lemma Bump(s: System, n: nat, policy: Policy) returns (t: System)
    requires Calm(s) && s.server.stream == Profiles(n + 1)
    ensures Calm(t) && Alike(s, t) && t.store.count == s.store.count + 1 && t.server.stream == Profiles(n)
    ensures CanLose(t, policy) ==> CanLose(s, policy)
  {
    hide CanLose;
    assert s.server.stream[0] == A.Item(PROFILE_DATA) && s.server.stream[1..] == Profiles(n);
    var t1 := Feed(s, [], S.Unopened, policy);
    t := PassOn(t1, ErrorOnly(S.NOT_SAVED), policy);
  }

  lemma {:induction false} BumpTo(s: System, count: nat, n: nat, policy: Policy) returns (t: System)
    requires Calm(s) && s.store.count <= count && s.server.stream == Profiles(count - s.store.count + n)
    ensures Calm(t) && Alike(s, t) && t.store.count == count && t.server.stream == Profiles(n)
    ensures CanLose(t, policy) ==> CanLose(s, policy)
    decreases count - s.store.count
  {
    hide CanLose, Calm;
    if s.store.count == count {
      t := s;
    } else {
      var t1 := Bump(s, count - s.store.count - 1 + n, policy);
      t := BumpTo(t1, count, n, policy);
    }
  }

  // ---- The loader ----

  lemma {:induction false} SomeListing(files: S.Files) returns (order: seq<string>)
    ensures (forall p :: p in files <==> p in order) && forall i, j :: 0 <= i < j < |order| ==> order[i] != order[j]
    decreases |files|
  {
    if files == map[] {
      order := [];
    } else {
      var p :| p in files;
      var rest := SomeListing(files - {p});
      order := [p] + rest;
    }
  }

  lemma ListingFrom(files: S.Files, p: string) returns (order: seq<string>)
    requires p in files
    ensures order != [] && order[0] == p && ListsAll(files, order)
  {
    var rest := SomeListing(files - {p});
    order := [p] + rest;
    forall q
      ensures q in files <==> q in order
    {
      assert q in files - {p} <==> q in rest;
    }
  }

  lemma ListFirst(s: System, p: string, policy: Policy) returns (t: System)
    requires Shape(s) && s.loader.NotListed? && p in s.store.files
    ensures Shape(t) && t.loader.Listed? && t == s.(loader := t.loader)
    ensures t.loader.paths != [] && t.loader.paths[0] == p
    ensures CanLose(t, policy) ==> CanLose(s, policy)
  {
    var order := ListingFrom(s.store.files, p);
    var st := LoaderList(Some(order));
    LoadEffect(s, st);
    LoadingFrame(s, st);
    t := Loading(s, st);
    assert t == s.(loader := t.loader);
    hide Loading, CanLose, ListsAll;
    if CanLose(t, policy) {
      CanLoseBefore(s, st, policy);
    }
  }

  lemma ReadFirst(s: System, reading: Reading, policy: Policy) returns (t: System)
    requires Shape(s) && Enabled(s, LoaderRead(reading)) && Fair(s, LoaderRead(reading), policy)
    ensures var p := s.loader.paths[0];
            var m := S.LoadMessage(p, TextRead(s.store.files, p, reading));
            Shape(t) && t == s.(loader := Loaded(m, s.loader.paths[1..]))
    ensures CanLose(t, policy) ==> CanLose(s, policy)
  {
    var st := LoaderRead(reading);
    LoadEffect(s, st);
    LoadingFrame(s, st);
    t := Loading(s, st);
    hide Loading, CanLose, S.LoadMessage, TextRead;
    if CanLose(t, policy) {
      CanLoseBefore(s, st, policy);
    }
  }

  // ---- The ways to lose, from every start ----

  /** What a process finds when it starts: its place, the files, the limiter's snapshot, and what
      earlier processes handed over, had acknowledged and saved. */
  datatype History = History(place: S.Place, files: S.Files, file: L.File, handed: seq<Message>,
                             published: seq<Message>, log: seq<Message>)

  function Begin(h: History, stream: seq<A.Decode>, points: seq<A.Decode>): (s: System)
    ensures Shape(s)
  {
    NewProcess(h.place, h.files, h.file, h.handed, h.published, h.log, stream, points)
  }

  /** The first configuration lifts the budget, if there was one. */
  lemma Unlimited(h: History, stream: seq<A.Decode>, policy: Policy) returns (t: System)
    ensures Calm(t) && t == Begin(h, stream, []).(limiter := t.limiter, file := t.file)
    ensures CanLose(t, policy) ==> CanLose(Begin(h, stream, []), policy)
  {
    var s := Begin(h, stream, []);
    var st := LimiterConfigure(L.CellularConfig(1, false, 0), ZERO_TIME, L.Refused);
    hide AppliedPeriodEnd;
    t := Downstream(s, st);
    assert t == s.(limiter := t.limiter, file := t.file) && PassesOn(t) && t.limiter.hold.Free?;
    hide Downstream, CanLose;
    if CanLose(t, policy) {
      CanLoseBefore(s, st, policy);
    }
  }

  lemma {:induction false} LenAtMostTotal(ms: seq<Message>, i: nat)
    requires i < |ms|
    ensures Len(ms[i]) <= Total(ms)
    decreases |ms|
  {
    var n := |ms| - 1;
    if i < n {
      LenAtMostTotal(ms[..n], i);
    }
  }

  /** More bytes than anything published, and than the given message. */
  function NewBytes(published: seq<Message>, m: Message): (bytes: seq<byte>)
    ensures |bytes| > Total(published) && |bytes| > Len(m)
  {
    seq(Total(published) + Len(m) + 1, _ => 0)
  }

  lemma NewBytesUndelivered(published: seq<Message>, m: Message, b: Message)
    requires b.bytes == Some(NewBytes(published, m))
    ensures !Delivered(published, b) && !SamePayload(m, b)
  {
    forall i | 0 <= i < |published|
      ensures !(published[i].path == b.path && SamePayload(published[i], b))
    {
      LenAtMostTotal(published, i);
    }
  }

  /** A message found unreadable. */
  lemma UnreadableLoses(h: History, saved: Message, policy: Policy)
    requires saved in h.log && saved.path.Some? && saved.path.value in h.files
    requires saved.path.value in policy.unreadable && !NothingToLose(h.published, saved)
    ensures CanLose(Begin(h, [], []), policy)
  {
    var s := Unlimited(h, [], policy);
    var s1 := ListFirst(s, saved.path.value, policy);
    var s2 := ReadFirst(s1, Unreadable, policy);
    hide CanLose;
    var m := S.LoadMessage(saved.path.value, None);
    assert Impostor(m, saved) && AtStake(s2, saved);
    LoadedLoses(s2, saved, m, policy);
  }

  /** The converter stores a new message, unlike the given one, and still has it. */
  lemma FeedNew(s: System, m: Message, policy: Policy) returns (t: System, b: Message)
    requires Calm(s) && s.server.stream == Profiles(1)
    ensures Calm(t.(converter := Ready)) && t.converter == Emitting(b) && t.loader == s.loader
    ensures AtStake(t, b) && !SamePayload(m, b) && b.path == Some(NextName(s)) && b.topic == PROFILE
    ensures NextName(s) in t.store.files && t.store.files[NextName(s)] == Envelope.Marshal(b)
    ensures CanLose(t, policy) ==> CanLose(s, policy)
  {
    hide CanLose, Envelope.Marshal, Names.Name;
    var bytes := NewBytes(s.published, m);
    assert s.server.stream[0] == A.Item(PROFILE_DATA);
    t := Feed(s, bytes, S.Complete, policy);
    b := NextProfile(s, bytes);
    NewBytesUndelivered(s.published, m, b);
    assert t.log[|s.log|] == b;
    hide Delivered, SamePayload;
  }

  lemma MayRead(s: System, reading: Reading, policy: Policy)
    requires Shape(s) && s.loader.Listed? && s.loader.paths != []
    requires reading == Whole
             || (reading == Unreadable && s.loader.paths[0] in policy.unreadable)
             || (reading == HalfWritten(0) && policy.halfRead && BeingWritten(s, s.loader.paths[0]))
    ensures Enabled(s, LoaderRead(reading)) && Fair(s, LoaderRead(reading), policy)
  {
  }

  lemma LoaderCalm(s: System, t: System)
    requires t == s.(loader := t.loader) && Calm(s)
    ensures Calm(t)
  {
  }

  /** A file of an earlier process under a name that this one will generate. */
  lemma NameTakenLoses(h: History, count: nat, policy: Policy)
    requires Names.Name(h.place.dir, h.place.pid, count) in h.files
    ensures CanLose(Begin(h, Profiles(count + 1), []), policy)
  {
    hide CanLose, Names.Name, S.LoadMessage, AtStake, SamePayload, Calm, Fair, Enabled;
    var path := Names.Name(h.place.dir, h.place.pid, count);
    var s := Unlimited(h, Profiles(count + 1), policy);
    var s1 := ListFirst(s, path, policy);
    MayRead(s1, Whole, policy);
    var s2 := ReadFirst(s1, Whole, policy);
    LoaderCalm(s, s2);
    var m := s2.loader.m;
    var s3 := BumpTo(s2, count, 1, policy);
    var s4, b := FeedNew(s3, m, policy);
    LoadedLoses(s4, b, m, policy);
  }

  lemma BadlyRead(path: string, files: S.Files, b: Message, reading: Reading)
    requires path in files && files[path] == Envelope.Marshal(b) && (reading == Unreadable || reading == HalfWritten(0))
    ensures var m := S.LoadMessage(path, TextRead(files, path, reading));
            m.topic == "" && m.path == Some(path)
  {
    assert |Envelope.BEFORE_ERROR| > 0 && !(Envelope.BEFORE_ERROR <= "");
    assert |files[path]| > 0 && files[path][..0] == "";
    assert Envelope.Unmarshal("", path) == None;
  }

  lemma LoaderOnly(s: System, t: System, saved: Message)
    requires t == s.(loader := t.loader) && Calm(s.(converter := Ready)) && AtStake(s, saved)
    ensures Calm(t.(converter := Ready)) && AtStake(t, saved)
  {
  }

  /** The file of a message that this process stores, read badly while the converter still has it. */
  lemma OwnFileLoses(s: System, b: Message, reading: Reading, policy: Policy)
    requires Calm(s.(converter := Ready)) && s.converter == Emitting(b) && s.loader.NotListed?
    requires AtStake(s, b) && b.topic == PROFILE && b.path.Some?
    requires b.path.value in s.store.files && s.store.files[b.path.value] == Envelope.Marshal(b)
    requires (reading == Unreadable && b.path.value in policy.unreadable)
             || (reading == HalfWritten(0) && policy.halfRead)
    ensures CanLose(s, policy)
  {
    var path := b.path.value;
    hide CanLose, Calm, AtStake, Enabled, Fair, Envelope.Marshal, S.LoadMessage, TextRead;
    BadlyRead(path, s.store.files, b, reading);
    var s1 := ListFirst(s, path, policy);
    MayRead(s1, reading, policy);
    var s2 := ReadFirst(s1, reading, policy);
    LoaderOnly(s, s2, b);
    LoadedLoses(s2, b, s2.loader.m, policy);
  }

  /** The file of a message that this process stores, read half written. */
  lemma HalfReadLoses(h: History, policy: Policy)
    requires policy.halfRead
    ensures CanLose(Begin(h, Profiles(1), []), policy)
  {
    hide CanLose, Names.Name, Envelope.Marshal, AtStake, Calm;
    var s := Unlimited(h, Profiles(1), policy);
    var s1, b := FeedNew(s, ErrorOnly(""), policy);
    OwnFileLoses(s1, b, HalfWritten(0), policy);
  }

  /** The file of a message that this process stores, found unreadable. */
  lemma ComingNameLoses(h: History, count: nat, policy: Policy)
    requires Names.Name(h.place.dir, h.place.pid, count) in policy.unreadable
    ensures CanLose(Begin(h, Profiles(count + 1), []), policy)
  {
    hide CanLose, Names.Name, Envelope.Marshal, AtStake, Calm;
    var s := Unlimited(h, Profiles(count + 1), policy);
    var s1 := BumpTo(s, count, 1, policy);
    var s2, b := FeedNew(s1, ErrorOnly(""), policy);
    OwnFileLoses(s2, b, Unreadable, policy);
  }

  // ---- The exact condition ----

  ghost predicate SafeHistory(h: History) {
    forall i :: 0 <= i < |h.log| ==> OnDisk(h.files, h.log[i]) || Delivered(h.published, h.log[i])
  }

  /** No file carries a name that this process will generate. */
  ghost predicate FreshStart(h: History) {
    AllPast(h.place, 0, h.files.Keys)
  }

  /** The files that may be unreadable hold nothing that the broker lacks, and are not to be written by
      this process. */
  ghost predicate HarmlessUnread(h: History, unreadable: set<string>) {
    Expendable(h.log, h.published, unreadable) && AllPast(h.place, 0, unreadable)
  }

  lemma SafeNeverLost(s: System)
    requires Shape(s) && Safe(s)
    ensures !Loses(s)
  {
  }

  lemma NeverLoses(h: History, stream: seq<A.Decode>, points: seq<A.Decode>, policy: Policy)
    requires SafeHistory(h) && FreshStart(h) && !policy.halfRead && HarmlessUnread(h, policy.unreadable)
    ensures !CanLose(Begin(h, stream, points), policy)
  {
    var s := Begin(h, stream, points);
    StartDelivers(h.place, h.files, h.file, h.handed, h.published, h.log, stream, points, policy);
    hide Begin, AllHonest, FreshNames, Undisturbed, Safe, Loses;
    forall steps: seq<Step> | Runs(s, steps) && AllFair(s, steps, policy)
      ensures !Loses(Run(s, steps))
    {
      RunDelivers(s, steps, policy);
      SafeNeverLost(Run(s, steps));
    }
  }

  /** At-least-once, exactly: from any start at which no saved message is lost yet, no process that
      keeps to the policy ever loses one, whatever its agent sends and whenever its loader lists the
      directory, exactly when no file carries a name that it will generate, no file is read half
      written, and the files that may be unreadable hold nothing that the broker lacks, now or later. */
  lemma DeliveryIff(h: History, policy: Policy)
    requires SafeHistory(h)
    ensures (forall stream, points :: !CanLose(Begin(h, stream, points), policy)) <==>
            FreshStart(h) && !policy.halfRead && HarmlessUnread(h, policy.unreadable)
  {
    hide CanLose, Begin;
    if !FreshStart(h) {
      var p, count: nat :| p in h.files && p == Names.Name(h.place.dir, h.place.pid, count);
      NameTakenLoses(h, count, policy);
    } else if policy.halfRead {
      HalfReadLoses(h, policy);
    } else if !Expendable(h.log, h.published, policy.unreadable) {
      var i :| 0 <= i < |h.log| && h.log[i].path.Some? && h.log[i].path.value in policy.unreadable
               && !NothingToLose(h.published, h.log[i]);
      UnreadableLoses(h, h.log[i], policy);
    } else if !AllPast(h.place, 0, policy.unreadable) {
      var p, count: nat :| p in policy.unreadable && p == Names.Name(h.place.dir, h.place.pid, count);
      ComingNameLoses(h, count, policy);
    } else {
      forall stream, points
        ensures !CanLose(Begin(h, stream, points), policy)
      {
        NeverLoses(h, stream, points, policy);
      }
    }
  }
}
