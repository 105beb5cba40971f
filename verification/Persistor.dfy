/**
 The imperative message store of broker/message.go and the producer loop of broker/mqtt.go, over
 one message directory. Other goroutines run between any two file operations; what they remove
 is a parameter. Every method is proved against module Store.
 */
module Persistors {
  import opened GoInt
  import opened Broker
  import opened Store
  import Envelope
  import Names

  /** What the environment does around one use of the directory: is it found (`Stat` succeeds) and
      readable, in which order are its names read, which files are removed just before the i-th one
      is looked at, and which files cannot be looked at. A directory that is not found counts as
      empty, whatever the reason. */
  datatype Look = Look(found: bool, readable: bool, order: seq<string>, gone: seq<set<string>>, denied: set<string>)

  type Listing = l: Look | |l.gone| == |l.order| witness Look(false, false, [], [], {})

  ghost predicate Lists(files: Files, l: Listing) {
    && (if l.found then forall p :: p in files <==> p in l.order else l.order == [])
    && (forall i, j :: 0 <= i < j < |l.order| ==> l.order[i] != l.order[j])
  }

  function AllGone(gone: seq<set<string>>): set<string> {
    if gone == [] then {} else AllGone(gone[..|gone| - 1]) + gone[|gone| - 1]
  }

  lemma Snoc<T>(s: seq<T>, i: nat)
    requires i < |s|
    ensures s[..i + 1] == s[..i] + [s[i]] && s[..i + 1][..i] == s[..i]
  {
  }

  /** Bytes of the listed files that are present. */
  function SumOf(files: Files, order: seq<string>): nat {
    if order == [] then 0
    else SumOf(files, order[1..]) + (if order[0] in files then Envelope.TextSize(files[order[0]]) else 0)
  }

  lemma {:induction false} SumOfSame(a: Files, b: Files, order: seq<string>)
    requires forall i :: 0 <= i < |order| ==> Lookup(a, order[i]) == Lookup(b, order[i])
    ensures SumOf(a, order) == SumOf(b, order)
    decreases |order|
  {
    if order != [] {
      assert Lookup(a, order[0]) == Lookup(b, order[0]);
      forall i | 0 <= i < |order[1..]|
        ensures Lookup(a, order[1..][i]) == Lookup(b, order[1..][i])
      {
        assert order[1..][i] == order[i + 1];
      }
      SumOfSame(a, b, order[1..]);
    }
  }

  /** The sum over a list of distinct names that has every file is the size of the directory. */
  lemma {:induction false} SumPresent(files: Files, order: seq<string>)
    requires forall p :: p in files ==> p in order
    requires forall i, j :: 0 <= i < j < |order| ==> order[i] != order[j]
    ensures SumOf(files, order) == DirSize(files)
    decreases |order|
  {
    hide Envelope.TextSize;
    if order == [] {
      assert files == map[];
    } else {
      var rest := files - {order[0]};
      if order[0] in files {
        DirSizeWithout(files, order[0]);
      } else {
        assert rest == files;
      }
      forall p | p in rest
        ensures p in order[1..]
      {
        var i :| 0 <= i < |order| && order[i] == p;
        assert order[1..][i - 1] == p;
      }
      SumPresent(rest, order[1..]);
      SumOfSame(files, rest, order[1..]);
    }
  }

  lemma {:induction false} SumOfSplit(files: Files, order: seq<string>, i: nat)
    requires i <= |order|
    ensures SumOf(files, order) == SumOf(files, order[..i]) + SumOf(files, order[i..])
    decreases i
  {
    if i > 0 {
      assert order[1..][..i - 1] == order[..i][1..] && order[1..][i - 1..] == order[i..];
      SumOfSplit(files, order[1..], i - 1);
    }
  }

  lemma SumOfNone(files: Files)
    ensures SumOf(files, []) == 0
  {
  }

  lemma GoneStep(files: Files, gone: seq<set<string>>, i: nat)
    requires i < |gone|
    ensures files - AllGone(gone[..i]) - gone[i] == files - AllGone(gone[..i + 1])
    ensures gone[i] == {} ==> files - AllGone(gone[..i]) - gone[i] == files - AllGone(gone[..i])
  {
    Snoc(gone, i);
  }

  lemma SumStep(files: Files, order: seq<string>, i: nat)
    requires i < |order|
    ensures SumOf(files, order[..i + 1]) ==
            SumOf(files, order[..i]) + (if order[i] in files then Envelope.TextSize(files[order[i]]) else 0)
  {
    SumOfSplit(files, order[..i + 1], i);
    assert order[..i + 1][i..] == [order[i]] && order[..i + 1][..i] == order[..i];
    assert [order[i]][1..] == [];
  }

  /** What looking at the i-th listed file finds. */
  function Seen(start: Files, l: Listing, i: nat): Option<string>
    requires i < |l.order|
  {
    if l.order[i] in l.denied || l.order[i] in AllGone(l.gone[..i + 1]) then None else Lookup(start, l.order[i])
  }

  lemma SeenAt(start: Files, l: Listing, i: nat)
    requires i < |l.order|
    ensures Seen(start, l, i) ==
            (if l.order[i] in l.denied then None else Lookup(start - AllGone(l.gone[..i + 1]), l.order[i]))
  {
  }

  lemma NoneGone(gone: seq<set<string>>)
    ensures AllGone(gone[..0]) == {}
  {
  }

  /** What `size` returns: the size that the directory had when it was listed, or None (an error)
      when it cannot be read or a listed file cannot be looked at any more; and nothing for a
      directory that is not found. */
  ghost function Measure(files: Files, l: Listing): Option<nat> {
    if !l.found then Some(0)
    else if l.readable && forall i :: 0 <= i < |l.order| ==> Seen(files, l, i).Some? then Some(DirSize(files)) else None
  }

  lemma {:induction false} AllGoneMeans(gone: seq<set<string>>, p: string)
    ensures p in AllGone(gone) <==> exists j :: 0 <= j < |gone| && p in gone[j]
  {
    if gone != [] {
      var n := |gone| - 1;
      AllGoneMeans(gone[..n], p);
      assert forall j :: 0 <= j < n ==> gone[..n][j] == gone[j];
    }
  }

  /** Can the i-th listed file not be looked at when its turn comes? */
  predicate Missed(l: Listing, i: nat)
    requires i < |l.order|
  {
    l.order[i] in l.denied || exists j :: 0 <= j <= i && l.order[i] in l.gone[j]
  }

  lemma SeenMeans(files: Files, l: Listing, i: nat)
    requires Lists(files, l) && i < |l.order|
    ensures Seen(files, l, i).None? <==> Missed(l, i)
    ensures !Missed(l, i) ==> l.order[i] in files && Seen(files, l, i) == Some(files[l.order[i]])
  {
    var gone := l.gone[..i + 1];
    AllGoneMeans(gone, l.order[i]);
    assert forall j :: 0 <= j <= i ==> gone[j] == l.gone[j];
    assert l.order[i] in files;
    hide AllGone;
  }

  /** Measuring fails exactly when the directory is found and cannot be read, or a listed file cannot be
      looked at; otherwise it gives the size at the time of listing, or nothing when it is not found. */
  lemma MeasureMeans(files: Files, l: Listing)
    requires Lists(files, l)
    ensures Measure(files, l).None? <==> l.found && (!l.readable || exists i :: 0 <= i < |l.order| && Missed(l, i))
    ensures Measure(files, l).Some? ==> Measure(files, l).value == if l.found then DirSize(files) else 0
  {
    forall i | 0 <= i < |l.order|
      ensures Seen(files, l, i).None? <==> Missed(l, i)
    {
      SeenMeans(files, l, i);
    }
    hide Seen, Missed, DirSize;
  }

  /** How publishing a message ends, and the removal of its file after that. */
  datatype PublishOutcome = Refused | Acknowledged(removed: bool)

  /** The indices of the acknowledged messages, in order. */
  function AckedIndices(outcomes: seq<PublishOutcome>): (ks: seq<nat>)
    ensures forall i :: 0 <= i < |ks| ==> ks[i] < |outcomes| && outcomes[ks[i]].Acknowledged?
    ensures forall k :: 0 <= k < |outcomes| && outcomes[k].Acknowledged? ==> k in ks
    ensures forall i, j :: 0 <= i < j < |ks| ==> ks[i] < ks[j]
  {
    if outcomes == [] then []
    else
      var n := |outcomes| - 1;
      var before := AckedIndices(outcomes[..n]);
      assert forall k :: 0 <= k < n && outcomes[k].Acknowledged? ==> k in before by {
        forall k | 0 <= k < n && outcomes[k].Acknowledged?
          ensures k in before
        {
          assert outcomes[..n][k] == outcomes[k];
        }
      }
      before + (if outcomes[n].Acknowledged? then [n] else [])
  }

  /** Was the file of this path removed after one of these messages was acknowledged? */
  predicate RemovedAfter(input: seq<Message>, outcomes: seq<PublishOutcome>, path: string)
    requires |outcomes| == |input|
  {
    exists i :: 0 <= i < |input| && input[i].path == Some(path) && outcomes[i] == Acknowledged(true)
  }

  /** What was published besides: the acknowledged messages, in order and each once. */
  ghost predicate PublishedBesides(before: seq<Message>, after: seq<Message>, input: seq<Message>,
                                   outcomes: seq<PublishOutcome>)
    requires |outcomes| == |input|
  {
    var ks := AckedIndices(outcomes);
    && |after| == |before| + |ks| && before <= after
    && forall i :: 0 <= i < |ks| ==> after[|before| + i] == input[ks[i]]
  }

  /** What is left of the files: all but those removed after an acknowledgement, as they were. */
  ghost predicate FilesLeft(before: Files, after: Files, input: seq<Message>, outcomes: seq<PublishOutcome>)
    requires |outcomes| == |input|
  {
    && (forall p :: p in after <==> p in before && !RemovedAfter(input, outcomes, p))
    && (forall p :: p in after ==> after[p] == before[p])
  }

  lemma NothingServed(files: Files, published: seq<Message>)
    ensures PublishedBesides(published, published, [], []) && FilesLeft(files, files, [], [])
  {
  }

  lemma PublishedNext(before: seq<Message>, after: seq<Message>, input: seq<Message>, outcomes: seq<PublishOutcome>,
                      m: Message, outcome: PublishOutcome)
    requires |outcomes| == |input| && PublishedBesides(before, after, input, outcomes)
    ensures PublishedBesides(before, if outcome.Acknowledged? then after + [m] else after, input + [m],
                             outcomes + [outcome])
  {
    assert (outcomes + [outcome])[..|outcomes|] == outcomes;
    var ks := AckedIndices(outcomes);
    assert AckedIndices(outcomes + [outcome]) == ks + (if outcome.Acknowledged? then [|outcomes|] else []);
    hide AckedIndices;
  }

  lemma FilesLeftNext(before: Files, after: Files, input: seq<Message>, outcomes: seq<PublishOutcome>,
                      m: Message, outcome: PublishOutcome)
    requires |outcomes| == |input| && FilesLeft(before, after, input, outcomes)
    ensures FilesLeft(before, if m.path.Some? && outcome == Acknowledged(true) then after - {m.path.value} else after,
                      input + [m], outcomes + [outcome])
  {
    forall p
      ensures RemovedAfter(input + [m], outcomes + [outcome], p) <==>
              RemovedAfter(input, outcomes, p) || (m.path == Some(p) && outcome == Acknowledged(true))
    {
      assert (input + [m])[|input|] == m && (outcomes + [outcome])[|input|] == outcome;
      assert forall j :: 0 <= j < |input| ==> (input + [m])[j] == input[j] && (outcomes + [outcome])[j] == outcomes[j];
    }
    hide RemovedAfter;
  }

  /** A file is gone only if a message of its path was published. */
  lemma GoneWasPublished(before: seq<Message>, after: seq<Message>, files: Files, files': Files, input: seq<Message>,
                         outcomes: seq<PublishOutcome>, path: string)
    requires |outcomes| == |input|
    requires PublishedBesides(before, after, input, outcomes) && FilesLeft(files, files', input, outcomes)
    requires path in files && path !in files'
    ensures exists m :: m in after && m.path == Some(path)
  {
    var k: nat :| k < |input| && input[k].path == Some(path) && outcomes[k] == Acknowledged(true);
    var ks := AckedIndices(outcomes);
    var i :| 0 <= i < |ks| && ks[i] == k;
    assert after[|before| + i] == input[k];
  }

  /** The message directory, with all that was written to the broker so far. */
  class MessageDir {
    var files: Files
    var published: seq<Message>

    constructor (fs: Files)
      ensures files == fs && published == []
    {
      files := fs;
      published := [];
    }

    /** `size`, with removals going on. */
    method Size(l: Listing) returns (n: Option<nat>)
      requires Lists(files, l)
      modifies this`files
      ensures files == old(files) - AllGone(l.gone)
      ensures n == Measure(old(files), l)
      ensures l.found && n.Some? ==> DirSize(files) <= n.value
    {
      hide Envelope.TextSize, SumOf, DirSize;
      ghost var start := files;
      if l.found {
        SumPresent(start, l.order);
      }
      var sum := 0;
      var failed := l.found && !l.readable;
      var i := 0;
      assert l.order[..0] == [] && l.gone[..0] == [];
      assert SumOf(start, []) == 0 by { SumOfNone(start); }
      while i < |l.order|
        invariant 0 <= i <= |l.order|
        invariant files == start - AllGone(l.gone[..i])
        invariant failed <==> (l.found && !l.readable) || exists j :: 0 <= j < i && Seen(start, l, j).None?
        invariant !failed ==> sum == SumOf(start, l.order[..i])
      {
        GoneStep(start, l.gone, i);
        SumStep(start, l.order, i);
        files := files - l.gone[i];
        var path := l.order[i];
        if path in files && path !in l.denied {
          assert Seen(start, l, i) == Some(start[path]);
          sum := sum + Envelope.TextSize(files[path]);
        } else {
          assert Seen(start, l, i) == None;
          failed := true;
        }
        i := i + 1;
      }
      assert l.order[..i] == l.order && l.gone[..i] == l.gone;
      DirSizeRemove(start, AllGone(l.gone));
      n := if failed then None else Some(sum);
    }

    /** `Message.Remove`: the file system may refuse, and the file stays. */
    method Remove(m: Message, removed: bool)
      modifies this`files
      ensures files == (if m.path.Some? && removed then old(files) - {m.path.value} else old(files))
    {
      if m.path.Some? && removed {
        files := files - {m.path.value};
      }
    }

    /** `load`: reads the listed files one by one while others are removed. */
    method Load(l: Listing) returns (out: seq<Message>)
      requires Lists(files, l)
      modifies this`files
      ensures files == old(files) - AllGone(l.gone)
      ensures !l.found || l.readable ==> |out| == |l.order| && forall i :: 0 <= i < |out| ==>
                out[i] == LoadMessage(l.order[i], Seen(old(files), l, i))
      ensures l.found && !l.readable ==> out == [ErrorOnly(NOT_MEASURED)]
    {
      hide LoadMessage, AllGone, Seen, Lookup, Lists;
      ghost var start := files;
      assert AllGone(l.gone[..0]) == {} by { NoneGone(l.gone); }
      out := [];
      var i := 0;
      while i < |l.order|
        invariant 0 <= i <= |l.order| && |out| == i
        invariant files == start - AllGone(l.gone[..i])
        invariant forall j :: 0 <= j < i ==> out[j] == LoadMessage(l.order[j], Seen(start, l, j))
      {
        GoneStep(start, l.gone, i);
        SeenAt(start, l, i);
        files := files - l.gone[i];
        var path := l.order[i];
        var text := if path in l.denied then None else Lookup(files, path);
        out := out + [LoadMessage(path, text)];
        i := i + 1;
      }
      assert l.gone[..i] == l.gone;
      if l.found && !l.readable {
        out := [ErrorOnly(NOT_MEASURED)];
      }
    }

    /** `MQTTProducer.Serve` over a finished input stream: the acknowledged messages are published, in
        order and each once; a file is removed exactly when a message of its path was acknowledged
        and the removal succeeded; so a file whose message was refused stays. */
    method Serve(input: seq<Message>, outcomes: seq<PublishOutcome>)
      requires |outcomes| == |input|
      modifies this
      ensures PublishedBesides(old(published), published, input, outcomes)
      ensures FilesLeft(old(files), files, input, outcomes)
      ensures forall p :: p in old(files) && p !in files ==> exists m :: m in published && m.path == Some(p)
    {
      hide PublishedBesides, FilesLeft;
      var i := 0;
      NothingServed(files, published);
      while i < |input|
        invariant 0 <= i <= |input|
        invariant PublishedBesides(old(published), published, input[..i], outcomes[..i])
        invariant FilesLeft(old(files), files, input[..i], outcomes[..i])
      {
        Snoc(input, i);
        Snoc(outcomes, i);
        PublishedNext(old(published), published, input[..i], outcomes[..i], input[i], outcomes[i]);
        FilesLeftNext(old(files), files, input[..i], outcomes[..i], input[i], outcomes[i]);
        if outcomes[i].Acknowledged? {
          published := published + [input[i]];
          Remove(input[i], outcomes[i].removed);
        }
        i := i + 1;
      }
      assert input[..i] == input && outcomes[..i] == outcomes;
      forall p | p in old(files) && p !in files
        ensures exists m :: m in published && m.path == Some(p)
      {
        GoneWasPublished(old(published), published, old(files), files, input, outcomes, p);
      }
    }
  }

  /** The Persistor itself. */
  class Persistor {
    const place: Place
    const dir: MessageDir
    var limit: Option<int>
    var count: nat

    constructor (where: Place, fs: MessageDir)
      ensures place == where && dir == fs && limit == None && count == 0
    {
      place, dir, limit, count := where, fs, None, 0;
    }

    /** `serve`, the arrival of a new limit. */
    method SetLimit(l: Option<int>)
      modifies this`limit
      ensures limit == l
    {
      limit := l;
    }

    /** `CreateMessage`: `late` is removed between the measurement and the write. */
    method CreateMessage(m: Message, l: Listing, late: set<string>, write: WriteOutcome) returns (r: Result)
      requires Lists(dir.files, l)
      modifies this`count, dir`files
      ensures var left := old(dir.files) - AllGone(l.gone) - late;
              var measured := Measure(old(dir.files), l);
              && (l.found && measured.Some? ==> DirSize(left) <= measured.value)
              && (State(dir.files, count), r) == Create(State(left, old(count)), place, limit, measured, m, write)
      ensures var failed := l.found && (!l.readable || exists i :: 0 <= i < |l.order| && Missed(l, i));
              var size := if l.found then DirSize(old(dir.files)) else 0;
              && (r == Failed(NOT_MEASURED) <==> failed)
              && (r == Failed(STORAGE_FULL) <==> !failed && !Fits(limit, Len(m) + size))
              && (r.Created? <==> !failed && Fits(limit, Len(m) + size) && write.Complete?)
    {
      hide Envelope.TextSize, Envelope.Marshal, DirSize, AllGone, Names.Name, Create, Fits, Missed, Measure;
      MeasureMeans(dir.files, l);
      var measured := dir.Size(l);
      DirSizeRemove(dir.files, late);
      dir.files := dir.files - late;
      CreateMeans(State(dir.files, count), place, limit, measured, m, write);
      r := CreateMeasured(m, measured, write);
    }

    /** `CreateMessage` after the call of `size`. */
    method CreateMeasured(m: Message, measured: Option<nat>, write: WriteOutcome) returns (r: Result)
      modifies this`count, dir`files
      ensures (State(dir.files, count), r) ==
              Create(old(State(dir.files, count)), place, limit, measured, m, write)
      ensures r.Created? <==> measured.Some? && Fits(limit, Len(m) + measured.value) && write.Complete?
    {
      hide Envelope.TextSize, Envelope.Marshal, Names.Name;
      CreateMeans(State(dir.files, count), place, limit, measured, m, write);
      if measured.None? {
        return Failed(NOT_MEASURED);
      }
      if limit.Some? && Len(m) + measured.value > NineTenths(limit.value) {
        assert Full(limit, m, measured.value);
        return Failed(STORAGE_FULL);
      }
      assert !Full(limit, m, measured.value);
      var path := Names.Name(place.dir, place.pid, count);
      count := count + 1;
      var text := Envelope.Marshal(m);
      match write {
        case Unopened =>
          r := Failed(NOT_SAVED);
        case Complete =>
          dir.files := dir.files[path := text];
          r := Created(m.(path := Some(path)));
        case Partial(n) =>
          dir.files := dir.files[path := text[..if n < |text| then n else |text|]];
          r := Failed(NOT_SAVED);
      }
    }
  }
}
