/**
 The converter of schema/convert.go: one broker message for every agent message it keeps, stored
 before it is sent on. The encodings of payloads are abstract bytes.
 */
module Converters {
  import opened Broker
  import opened Agent
  import opened Store
  import opened Persistors
  import Envelope
  import Names

  /** What the configured marshaler makes of a payload: bytes, and an error text that is empty
      when it succeeds. */
  datatype Encoded = Encoded(bytes: Option<seq<byte>>, error: string)

  /** `serve` drops these before they are converted. */
  predicate Kept(m: AgentMessage) {
    m.kind != "applog" && m.kind != "log"
  }

  function NotHandled(kind: string): string {
    "message of type \"" + kind + "\" not handled"
  }

  /** `convert`. */
  function Convert(m: AgentMessage, e: Encoded): Message {
    if m.kind == "profile" then Message(e.error, PROFILE, e.bytes, None)
    else if m.kind == "event" then Message(e.error, EVENT, e.bytes, None)
    else if m.kind == "log" then Message("", LOG, m.data, None)
    else if m.kind == "cleanExit" then Message(e.error, EVENT, e.bytes, None)
    else if m.kind == "datapoint" then Message(e.error, DATA_POINT, e.bytes, None)
    else Message(NotHandled(m.kind), LOG, None, None)
  }

  /** An agent message with all that the environment decides about its conversion: the encoding, the
      files removed before it, the limit in force, the reading of the directory when it is measured,
      the files removed between that and the write, and how the write ends. */
  datatype Job = Job(m: AgentMessage, encoded: Encoded, gone: set<string>, limit: Option<int>, listing: Listing,
                     late: set<string>, write: WriteOutcome)

  function Converted(job: Job): Message {
    Convert(job.m, job.encoded)
  }

  /** What is left in the directory when the message is written. */
  function Left(st: State, job: Job): State {
    st.(files := st.files - job.gone - AllGone(job.listing.gone) - job.late)
  }

  /** What measuring the directory for this message gives. */
  ghost function Measurement(st: State, job: Job): Option<nat> {
    Measure(st.files - job.gone, job.listing)
  }

  /** One turn of `serve`: the store after it and what is sent. */
  ghost function Turn(st: State, place: Place, job: Job): (State, seq<Message>) {
    if !Kept(job.m) then (st.(files := st.files - job.gone), [])
    else
      var (st', r) := Create(Left(st, job), place, job.limit, Measurement(st, job), Converted(job), job.write);
      (st', [if r.Created? then r.m else ErrorOnly(r.error)])
  }

  ghost function Turns(st: State, place: Place, jobs: seq<Job>): (State, seq<Message>) {
    if jobs == [] then (st, [])
    else
      var (st', out) := Turns(st, place, jobs[..|jobs| - 1]);
      var (st'', more) := Turn(st', place, jobs[|jobs| - 1]);
      (st'', out + more)
  }

  /** Every listing is a listing of the directory as it is at its turn. */
  ghost predicate AllListed(st: State, place: Place, jobs: seq<Job>) {
    forall i :: 0 <= i < |jobs| && Kept(jobs[i].m) ==>
      Lists(Turns(st, place, jobs[..i]).0.files - jobs[i].gone, jobs[i].listing)
  }

  /** The indices of the messages that are kept: all but those of type "applog" and "log". */
  function KeptIndices(jobs: seq<Job>): (ks: seq<nat>)
    ensures forall i :: 0 <= i < |ks| ==>
              ks[i] < |jobs| && jobs[ks[i]].m.kind != "applog" && jobs[ks[i]].m.kind != "log"
    ensures forall k :: 0 <= k < |jobs| && jobs[k].m.kind != "applog" && jobs[k].m.kind != "log" ==> k in ks
    ensures forall i, j :: 0 <= i < j < |ks| ==> ks[i] < ks[j]
  {
    if jobs == [] then []
    else
      var n := |jobs| - 1;
      var before := KeptIndices(jobs[..n]);
      assert forall k :: 0 <= k < n && Kept(jobs[k].m) ==> k in before by {
        forall k | 0 <= k < n && Kept(jobs[k].m)
          ensures k in before
        {
          assert jobs[..n][k] == jobs[k];
        }
      }
      before + (if Kept(jobs[n].m) then [n] else [])
  }

  /** Is the payload of such a message encoded? */
  predicate Encodes(kind: string) {
    kind == "profile" || kind == "event" || kind == "cleanExit" || kind == "datapoint"
  }

  /** What a broker message must say of an agent message that is kept: the topic follows from its type;
      the four types with a payload carry the encoder's bytes and error, any other no bytes and an
      error that names the type. */
  predicate Tells(b: Message, m: AgentMessage, e: Encoded) {
    && (b.topic == "profiler" <==> m.kind == "profile")
    && (b.topic == "events" <==> m.kind == "event" || m.kind == "cleanExit")
    && (b.topic == "datapoints" <==> m.kind == "datapoint")
    && (b.topic == "logs" <==> !Encodes(m.kind))
    && (Encodes(m.kind) ==> b.bytes == e.bytes && b.error == e.error)
    && (!Encodes(m.kind) ==> b.bytes == None && b.error == "message of type \"" + m.kind + "\" not handled")
  }

  lemma ConvertTells(m: AgentMessage, e: Encoded)
    requires Kept(m)
    ensures Tells(Convert(m, e), m, e) && Convert(m, e).path == None
  {
    assert PROFILE[0] == 'p' && EVENT[0] == 'e' && LOG[0] == 'l' && DATA_POINT[0] == 'd';
  }

  class Converter {
    const persistor: Persistor?
    var out: seq<Message>
    var closed: bool

    constructor (p: Persistor?)
      ensures persistor == p && out == [] && !closed
    {
      persistor := p;
      out, closed := [], false;
    }

    /** `serve` with a Persistor: its output is what Turns says. */
    method Serve(jobs: seq<Job>)
      requires persistor != null && !closed && out == []
      requires AllListed(State(persistor.dir.files, persistor.count), persistor.place, jobs)
      modifies this, persistor, persistor.dir
      ensures closed
      ensures (State(persistor.dir.files, persistor.count), out) ==
              Turns(old(State(persistor.dir.files, persistor.count)), persistor.place, jobs)
    {
      hide Create, Convert;
      ghost var st := State(persistor.dir.files, persistor.count);
      var i := 0;
      while i < |jobs|
        invariant 0 <= i <= |jobs|
        invariant !closed
        invariant (State(persistor.dir.files, persistor.count), out) ==
                  Turns(st, persistor.place, jobs[..i])
      {
        var job := jobs[i];
        assert jobs[..i + 1][..i] == jobs[..i];
        persistor.dir.files := persistor.dir.files - job.gone;
        i := i + 1;
        if job.m.kind == "applog" || job.m.kind == "log" {
          assert out == out + [];
          continue;
        }
        var brokerMsg := Convert(job.m, job.encoded);
        persistor.SetLimit(job.limit);
        var r := persistor.CreateMessage(brokerMsg, job.listing, job.late, job.write);
        match r {
          case Failed(error) => out := out + [ErrorOnly(error)];
          case Created(m) => out := out + [m];
        }
      }
      assert jobs[..i] == jobs;
      closed := true;
    }

    /** `serve` without a Persistor: every kept message, converted, in order, with no file. */
    method ServeUnstored(jobs: seq<Job>)
      requires persistor == null && !closed && out == []
      modifies this
      ensures closed
      ensures var ks := KeptIndices(jobs);
              && |out| == |ks|
              && forall i :: 0 <= i < |ks| ==> Tells(out[i], jobs[ks[i]].m, jobs[ks[i]].encoded) && out[i].path == None
    {
      hide Tells, Convert;
      var i := 0;
      while i < |jobs|
        invariant 0 <= i <= |jobs|
        invariant !closed
        invariant var ks := KeptIndices(jobs[..i]);
                  && |out| == |ks|
                  && forall j :: 0 <= j < |ks| ==>
                       Tells(out[j], jobs[ks[j]].m, jobs[ks[j]].encoded) && out[j].path == None
      {
        var job := jobs[i];
        assert jobs[..i + 1][..i] == jobs[..i];
        i := i + 1;
        if job.m.kind == "applog" || job.m.kind == "log" {
          continue;
        }
        ConvertTells(job.m, job.encoded);
        out := out + [Convert(job.m, job.encoded)];
      }
      assert jobs[..i] == jobs;
      closed := true;
    }
  }

  /** The message went out with a file of its own: named by this process with a count from lo to
      hi, and, as long as it is there, holding exactly this message. */
  ghost predicate Owned(m: Message, files: Files, place: Place, lo: nat, hi: nat) {
    exists c: nat ::
      && lo <= c < hi && m.path == Some(Names.Name(place.dir, place.pid, c))
      && (m.path.value in files ==> LoadMessage(m.path.value, Some(files[m.path.value])) == m)
  }

  lemma OwnedLater(m: Message, files: Files, gone: set<string>, place: Place, lo: nat, hi: nat)
    requires Owned(m, files, place, lo, hi)
    ensures Owned(m, files - gone, place, lo, hi)
  {
    var c: nat :| lo <= c < hi && m.path == Some(Names.Name(place.dir, place.pid, c))
                  && (m.path.value in files ==> LoadMessage(m.path.value, Some(files[m.path.value])) == m);
  }

  lemma OwnedAfterCreate(m: Message, st: State, place: Place, lo: nat, limit: Option<int>, measured: Option<nat>,
                         new': Message, write: WriteOutcome)
    requires Owned(m, st.files, place, lo, st.count)
    ensures var st' := Create(st, place, limit, measured, new', write).0;
            Owned(m, st'.files, place, lo, st'.count)
  {
    hide Envelope.Marshal, LoadMessage, Names.Name;
    var c: nat :| lo <= c < st.count && m.path == Some(Names.Name(place.dir, place.pid, c))
                  && (m.path.value in st.files ==> LoadMessage(m.path.value, Some(st.files[m.path.value])) == m);
    if Names.Name(place.dir, place.pid, c) == Names.Name(place.dir, place.pid, st.count) {
      Names.NameInjective(place.dir, place.pid, c, place.pid, st.count);
    }
    var st' := Create(st, place, limit, measured, new', write).0;
    assert lo <= c < st'.count;
  }

  lemma CreatedOwned(st: State, place: Place, lo: nat, limit: Option<int>, measured: Option<nat>,
                     m: Message, write: WriteOutcome)
    requires lo <= st.count && Create(st, place, limit, measured, m, write).1.Created?
    ensures var (st', r) := Create(st, place, limit, measured, m, write);
            && r.m == m.(path := r.m.path)
            && r.m.path == Some(Names.Name(place.dir, place.pid, st.count))
            && Owned(r.m, st'.files, place, lo, st'.count)
  {
    CreateThenLoad(st, place, limit, measured, m, write);
    hide LoadMessage;
    var c := st.count;
    assert lo <= c < c + 1;
  }

  /** The bytes of the message that must be made of m, given its encoding. */
  function PayloadLen(m: AgentMessage, e: Encoded): nat {
    if Encodes(m.kind) && e.bytes.Some? then |e.bytes.value| else 0
  }

  /** Is the message of this turn stored? */
  ghost predicate Stored(st: State, job: Job) {
    && Measurement(st, job).Some?
    && Fits(job.limit, PayloadLen(job.m, job.encoded) + Measurement(st, job).value)
    && job.write.Complete?
  }

  /** The error that is sent when it is not. */
  ghost function WhyNot(st: State, job: Job): string {
    if Measurement(st, job).None? then NOT_MEASURED
    else if !Fits(job.limit, PayloadLen(job.m, job.encoded) + Measurement(st, job).value) then STORAGE_FULL
    else NOT_SAVED
  }

  /** What one turn sends for a kept message, and that it owns its file. */
  ghost predicate Sent(m: Message, st: State, job: Job, files: Files, place: Place, lo: nat, hi: nat) {
    if Stored(st, job) then
      Tells(m, job.m, job.encoded) && Owned(m, files, place, lo, hi)
    else
      m == Message(WhyNot(st, job), "logs", None, None)
  }

  lemma ConvertedLen(job: Job)
    requires Kept(job.m)
    ensures Len(Converted(job)) == PayloadLen(job.m, job.encoded)
  {
    ConvertTells(job.m, job.encoded);
    hide Convert;
  }

  lemma LeftCount(st: State, job: Job)
    ensures Left(st, job).count == st.count
  {
  }

  lemma StoredTurn(st: State, place: Place, job: Job, lo: nat)
    requires lo <= st.count && Kept(job.m) && Stored(st, job)
    ensures var (st', out) := Turn(st, place, job);
            |out| == 1 && Tells(out[0], job.m, job.encoded) && Owned(out[0], st'.files, place, lo, st'.count)
  {
    hide Create, Convert, Fits, Owned, Measurement, Left, Names.Name;
    ConvertedLen(job);
    CreateMeans(Left(st, job), place, job.limit, Measurement(st, job), Converted(job), job.write);
    assert Left(st, job).count == st.count by { LeftCount(st, job); }
    CreatedOwned(Left(st, job), place, lo, job.limit, Measurement(st, job), Converted(job), job.write);
    ConvertTells(job.m, job.encoded);
  }

  lemma FailedTurn(st: State, place: Place, job: Job)
    requires Kept(job.m) && !Stored(st, job)
    ensures Turn(st, place, job).1 == [Message(WhyNot(st, job), "logs", None, None)]
  {
    hide Create, Fits, Measurement, Left, Names.Name, Envelope.Marshal;
    ConvertedLen(job);
    CreateMeans(Left(st, job), place, job.limit, Measurement(st, job), Converted(job), job.write);
  }

  lemma TurnSends(st: State, place: Place, job: Job, lo: nat)
    requires lo <= st.count && Kept(job.m)
    ensures var (st', out) := Turn(st, place, job);
            |out| == 1 && Sent(out[0], st, job, st'.files, place, lo, st'.count)
  {
    hide Turn, Stored, Owned, Tells, WhyNot;
    if Stored(st, job) {
      StoredTurn(st, place, job, lo);
    } else {
      FailedTurn(st, place, job);
    }
  }

  lemma TurnKeeps(m: Message, st: State, place: Place, job: Job, lo: nat)
    requires Owned(m, st.files, place, lo, st.count)
    ensures var st' := Turn(st, place, job).0;
            Owned(m, st'.files, place, lo, st'.count)
  {
    OwnedLater(m, st.files, job.gone, place, lo, st.count);
    var gone := job.gone + AllGone(job.listing.gone) + job.late;
    OwnedLater(m, st.files, gone, place, lo, st.count);
    assert st.files - gone == Left(st, job).files;
    OwnedAfterCreate(m, Left(st, job), place, lo, job.limit, Measurement(st, job), Converted(job), job.write);
  }

  lemma TurnCounts(st: State, place: Place, job: Job)
    ensures var (st', out) := Turn(st, place, job);
            st.count <= st'.count && |out| == (if Kept(job.m) then 1 else 0)
  {
  }

  /** A turn leaves every file alone but the one of the next name, and those that others remove. */
  lemma TurnLeaves(st: State, place: Place, job: Job, p: string)
    requires p != Names.Name(place.dir, place.pid, st.count)
    ensures var files, files' := st.files, Turn(st, place, job).0.files;
            var others := p in job.gone || (Kept(job.m) && (p in AllGone(job.listing.gone) || p in job.late));
            && (p in files' <==> p in files && !others)
            && (p in files' ==> files'[p] == files[p])
  {
    if Kept(job.m) {
      CreateMeans(Left(st, job), place, job.limit, Measurement(st, job), Converted(job), job.write);
      var st' := Turn(st, place, job).0;
      var path := Names.Name(place.dir, place.pid, st.count);
      hide Create, Convert, Fits, Measurement, AllGone, Names.Name;
      assert p in st'.files <==> p in st'.files - {path};
      assert p in Left(st, job).files <==> p in Left(st, job).files - {path};
      assert p in st'.files ==> (st'.files - {path})[p] == st'.files[p];
    }
  }

  lemma SentLater(m: Message, at: State, job: Job, st: State, place: Place, next: Job, lo: nat)
    requires Sent(m, at, job, st.files, place, lo, st.count)
    ensures var st' := Turn(st, place, next).0;
            Sent(m, at, job, st'.files, place, lo, st'.count)
  {
    hide Turn, Owned, WhyNot, Tells;
    if Stored(at, job) {
      TurnKeeps(m, st, place, next, lo);
    }
  }

  lemma KeptIndicesNext(jobs: seq<Job>, job: Job)
    ensures KeptIndices(jobs + [job]) == KeptIndices(jobs) + (if Kept(job.m) then [|jobs|] else [])
  {
    assert (jobs + [job])[..|jobs|] == jobs;
  }

  /** What the refinement says of the i-th output. */
  ghost predicate RefinesAt(st: State, place: Place, jobs: seq<Job>, k: nat, m: Message, st': State)
    requires k < |jobs|
  {
    Sent(m, Turns(st, place, jobs[..k]).0, jobs[k], st'.files, place, st.count, st'.count)
  }

  /** What the refinement says of the first turns of `serve`. */
  ghost predicate Refines(st: State, place: Place, jobs: seq<Job>, st': State, out: seq<Message>) {
    var ks := KeptIndices(jobs);
    && st.count <= st'.count
    && |out| == |ks|
    && forall i :: 0 <= i < |out| ==> RefinesAt(st, place, jobs, ks[i], out[i], st')
  }

  lemma RefinesNothing(st: State, place: Place)
    ensures Refines(st, place, [], st, [])
  {
  }

  lemma RefinesAtNext(st: State, place: Place, jobs: seq<Job>, job: Job, k: nat, m: Message, st': State)
    requires k < |jobs| && RefinesAt(st, place, jobs, k, m, st')
    ensures RefinesAt(st, place, jobs + [job], k, m, Turn(st', place, job).0)
  {
    assert (jobs + [job])[..k] == jobs[..k];
    hide Turn, Sent, Turns;
    SentLater(m, Turns(st, place, jobs[..k]).0, jobs[k], st', place, job, st.count);
  }

  lemma RefinesAtEnd(st: State, place: Place, jobs: seq<Job>, job: Job)
    requires Kept(job.m) && st.count <= Turns(st, place, jobs).0.count
    ensures var (st'', more) := Turn(Turns(st, place, jobs).0, place, job);
            |more| == 1 && RefinesAt(st, place, jobs + [job], |jobs|, more[0], st'')
  {
    assert (jobs + [job])[..|jobs|] == jobs;
    hide Turn, Sent, Turns;
    TurnSends(Turns(st, place, jobs).0, place, job, st.count);
  }

  lemma RefinesNext(st: State, place: Place, jobs: seq<Job>, job: Job)
    requires var (st', out) := Turns(st, place, jobs);
             Refines(st, place, jobs, st', out)
    ensures var (st', out) := Turns(st, place, jobs);
            var (st'', more) := Turn(st', place, job);
            Refines(st, place, jobs + [job], st'', out + more)
  {
    hide Turns, Turn, RefinesAt, KeptIndices, Kept;
    var (st', out) := Turns(st, place, jobs);
    var (st'', more) := Turn(st', place, job);
    TurnCounts(st', place, job);
    KeptIndicesNext(jobs, job);
    if Kept(job.m) {
      RefinesAtEnd(st, place, jobs, job);
    }
    var ks := KeptIndices(jobs);
    forall i | 0 <= i < |out|
      ensures RefinesAt(st, place, jobs + [job], ks[i], out[i], st'')
    {
      RefinesAtNext(st, place, jobs, job, ks[i], out[i], st');
    }
  }

  /** Converter refinement: the output has exactly one message for each input that is kept, in
      order. It is the conversion, owning a file that loads back to it until it is removed, exactly
      when the directory was measured, the message fits under the limit and the write was complete;
      otherwise it is the error on the logs topic that owns no file. */
  lemma {:induction false} ConverterRefines(st: State, place: Place, jobs: seq<Job>)
    ensures var (st', out) := Turns(st, place, jobs);
            Refines(st, place, jobs, st', out)
    decreases |jobs|
  {
    hide Refines, Turn;
    if jobs == [] {
      RefinesNothing(st, place);
    } else {
      var n := |jobs| - 1;
      ConverterRefines(st, place, jobs[..n]);
      RefinesNext(st, place, jobs[..n], jobs[n]);
      assert jobs[..n] + [jobs[n]] == jobs;
    }
  }

  lemma PathsBelow(m: Message, at: State, job: Job, files: Files, place: Place, lo: nat, hi: nat)
    requires Sent(m, at, job, files, place, lo, hi) && m.path.Some?
    ensures exists c: nat :: lo <= c < hi && m.path == Some(Names.Name(place.dir, place.pid, c))
  {
    hide Measurement, Fits, Tells, LoadMessage, Names.Name;
  }

  lemma PathIsNew(m: Message, place: Place, lo: nat, hi: nat, next: Message, hi': nat)
    requires exists c: nat :: lo <= c < hi && m.path == Some(Names.Name(place.dir, place.pid, c))
    requires exists c: nat :: hi <= c < hi' && next.path == Some(Names.Name(place.dir, place.pid, c))
    ensures m.path != next.path
  {
    var c: nat :| lo <= c < hi && m.path == Some(Names.Name(place.dir, place.pid, c));
    var d: nat :| hi <= d < hi' && next.path == Some(Names.Name(place.dir, place.pid, d));
    if m.path == next.path {
      Names.NameInjective(place.dir, place.pid, c, place.pid, d);
    }
  }

  lemma TurnPathIsNew(st: State, place: Place, jobs: seq<Job>, job: Job, i: nat)
    requires var out := Turns(st, place, jobs).1;
             i < |out| && out[i].path.Some?
    ensures var (st', out) := Turns(st, place, jobs);
            var more := Turn(st', place, job).1;
            more != [] ==> out[i].path != more[0].path
  {
    var (st', out) := Turns(st, place, jobs);
    var (st'', more) := Turn(st', place, job);
    ConverterRefines(st, place, jobs);
    TurnCounts(st', place, job);
    hide Turns, Turn, Sent, KeptIndices, Names.Name;
    if Kept(job.m) && more[0].path.Some? {
      TurnSends(st', place, job, st'.count);
      var k := KeptIndices(jobs)[i];
      PathsBelow(out[i], Turns(st, place, jobs[..k]).0, jobs[k], st'.files, place, st.count, st'.count);
      PathsBelow(more[0], st', job, st''.files, place, st'.count, st''.count);
      PathIsNew(out[i], place, st.count, st'.count, more[0], st''.count);
    }
  }

  predicate DistinctPaths(ms: seq<Message>) {
    forall i, j :: 0 <= i < j < |ms| && ms[i].path.Some? ==> ms[i].path != ms[j].path
  }

  lemma DistinctPathsPush(ms: seq<Message>, more: seq<Message>)
    requires DistinctPaths(ms) && |more| <= 1
    requires forall i :: 0 <= i < |ms| && ms[i].path.Some? && more != [] ==> ms[i].path != more[0].path
    ensures DistinctPaths(ms + more)
  {
  }

  /** No two messages ever own the same path, even after failed saves. */
  lemma {:induction false} PathsDistinct(st: State, place: Place, jobs: seq<Job>)
    ensures DistinctPaths(Turns(st, place, jobs).1)
    decreases |jobs|
  {
    hide Turn;
    if jobs == [] {
      assert Turns(st, place, jobs).1 == [];
    } else {
      var n := |jobs| - 1;
      var (st', out) := Turns(st, place, jobs[..n]);
      var more := Turn(st', place, jobs[n]).1;
      PathsDistinct(st, place, jobs[..n]);
      TurnCounts(st', place, jobs[n]);
      forall i | 0 <= i < |out| && out[i].path.Some? && more != []
        ensures out[i].path != more[0].path
      {
        TurnPathIsNew(st, place, jobs[..n], jobs[n], i);
      }
      DistinctPathsPush(out, more);
    }
  }

  /** The server's clean exit reaches the broker's events: what is made of a stream without an event
      ends in a message on "events", unless that message cannot be stored. */
  lemma CleanExitIsEvent(st: State, place: Place, stream: seq<Decode>, jobs: seq<Job>)
    requires !HasEvent(stream) && |jobs| == |ServerSends(stream)|
    requires forall i :: 0 <= i < |jobs| ==> jobs[i].m == ServerSends(stream)[i]
    ensures var out := Turns(st, place, jobs).1;
            var n := |jobs| - 1;
            var at := Turns(st, place, jobs[..n]).0;
            && n >= 0 && |out| > 0
            && out[|out| - 1].topic == (if Stored(at, jobs[n]) then "events" else "logs")
  {
    var n := |jobs| - 1;
    var (at, out) := Turns(st, place, jobs[..n]);
    var (st', more) := Turn(at, place, jobs[n]);
    assert jobs[n].m == CLEAN_EXIT;
    TurnSends(at, place, jobs[n], 0);
    assert Turns(st, place, jobs).1 == out + more;
    hide Turns, Turn, Stored, Owned, WhyNot;
  }
}
