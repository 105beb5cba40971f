/**
 The message store of broker/message.go on values: creating, measuring, loading and removing
 message files, and the bound on what the directory can hold. Persistor.dfy proves the imperative
 store against these functions.
 */
module Store {
  import opened GoInt
  import opened Broker
  import Envelope
  import Names

  type Files = map<string, string>

  // ---- Measuring ----

  /** The number of bytes in the directory. */
  ghost function DirSize(files: Files): nat {
    if files == map[] then 0
    else
      var path :| path in files;
      Envelope.TextSize(files[path]) + DirSize(files - {path})
  }

  /** The order of summation does not matter. */
  lemma {:induction false} DirSizeWithout(files: Files, path: string)
    requires path in files
    ensures DirSize(files) == Envelope.TextSize(files[path]) + DirSize(files - {path})
    decreases |files|
  {
    hide Envelope.TextSize;
    var first :| first in files && DirSize(files) == Envelope.TextSize(files[first]) + DirSize(files - {first});
    if first != path {
      DirSizeWithout(files - {first}, path);
      DirSizeWithout(files - {path}, first);
      assert files - {first} - {path} == files - {path} - {first};
    }
  }

  lemma DirSizeAdd(files: Files, path: string, text: string)
    ensures DirSize(files[path := text]) <= DirSize(files) + Envelope.TextSize(text)
    ensures path !in files ==> DirSize(files[path := text]) == DirSize(files) + Envelope.TextSize(text)
  {
    hide Envelope.TextSize;
    DirSizeWithout(files[path := text], path);
    assert files[path := text] - {path} == files - {path};
    if path in files {
      DirSizeWithout(files, path);
    } else {
      assert files - {path} == files;
    }
  }

  lemma {:induction false} DirSizeRemove(files: Files, gone: set<string>)
    ensures DirSize(files - gone) <= DirSize(files)
    decreases |gone|
  {
    hide Envelope.TextSize;
    if gone == {} {
      assert files - gone == files;
    } else {
      var path :| path in gone;
      DirSizeRemove(files, gone - {path});
      var rest := files - (gone - {path});
      assert files - gone == rest - {path};
      if path in rest {
        DirSizeWithout(rest, path);
      } else {
        assert rest - {path} == rest;
      }
    }
  }

  // ---- Creating ----

  /** The directory and the counter of one Persistor. */
  datatype State = State(files: Files, count: nat)

  /** Where a Persistor writes: its directory and the id of its process. */
  datatype Place = Place(dir: string, pid: nat)

  /** How writing a file ends: complete, not opened (or no directory), or cut off after n characters. */
  datatype WriteOutcome = Complete | Unopened | Partial(n: nat)

  datatype Result = Created(m: Message) | Failed(error: string)

  const STORAGE_FULL := "persistor: storage full"
  const NOT_MEASURED := "size: failed to calculate storage size"
  const NOT_SAVED := "save: unable to save message"

  predicate Full(limit: Option<int>, m: Message, measured: nat) {
    limit.Some? && Len(m) + measured > NineTenths(limit.value)
  }

  /** `CreateMessage` once the directory was measured; None when measuring failed. */
  function Create(st: State, place: Place, limit: Option<int>, measured: Option<nat>, m: Message, write: WriteOutcome)
    : (State, Result)
  {
    if measured.None? then (st, Failed(NOT_MEASURED))
    else if Full(limit, m, measured.value) then (st, Failed(STORAGE_FULL))
    else
      var path := Names.Name(place.dir, place.pid, st.count);
      var text := Envelope.Marshal(m);
      match write
      case Complete => (State(st.files[path := text], st.count + 1), Created(m.(path := Some(path))))
      case Unopened => (st.(count := st.count + 1), Failed(NOT_SAVED))
      case Partial(n) =>
        (State(st.files[path := text[..if n < |text| then n else |text|]], st.count + 1), Failed(NOT_SAVED))
  }

  /** Do n bytes pass the check against the limit? Nine tenths of it, rounded toward zero, which for
      a negative limit makes -1 pass for nothing at all. */
  predicate Fits(limit: Option<int>, n: nat) {
    match limit
    case None => true
    case Some(l) => if l >= 0 then 10 * n <= 9 * l else l == -1 && n == 0
  }

  lemma FitsUnlessFull(limit: Option<int>, m: Message, measured: nat)
    ensures Fits(limit, Len(m) + measured) <==> !Full(limit, m, measured)
  {
  }

  /** A creation ends in exactly one of four ways. It is refused when the directory was not measured,
      or when the message's bytes and the measured size do not fit the limit; then nothing changes.
      Otherwise a name is used up, and the message is created exactly when the write is complete; when
      it is not, only the file of that name can have changed, into a beginning of the text. */
  lemma CreateMeans(st: State, place: Place, limit: Option<int>, measured: Option<nat>, m: Message, write: WriteOutcome)
    ensures var (st', r) := Create(st, place, limit, measured, m, write);
            var tried := measured.Some? && Fits(limit, Len(m) + measured.value);
            var path := Names.Name(place.dir, place.pid, st.count);
            && (r == Failed(NOT_MEASURED) <==> measured.None?)
            && (r == Failed(STORAGE_FULL) <==> measured.Some? && !tried)
            && (r == Failed(NOT_SAVED) <==> tried && !write.Complete?)
            && (r.Created? <==> tried && write.Complete?)
            && (!tried ==> st' == st)
            && (tried ==> st'.count == st.count + 1 && st'.files - {path} == st.files - {path})
            && (tried && write.Unopened? ==> st'.files == st.files)
            && (tried && write.Partial? ==>
                  && path in st'.files && st'.files[path] <= Envelope.Marshal(m)
                  && (|st'.files[path]| == write.n
                      || (|st'.files[path]| < write.n && st'.files[path] == Envelope.Marshal(m))))
  {
    if measured.Some? {
      FitsUnlessFull(limit, m, measured.value);
    }
    hide Envelope.Marshal, Names.Name, Fits, Full;
    assert NOT_MEASURED[0] != STORAGE_FULL[0] && NOT_SAVED[2] != NOT_MEASURED[2] && STORAGE_FULL[0] != NOT_SAVED[0];
  }

  // ---- Loading ----

  const UNREADABLE := "could not read message file"
  const MALFORMED := "could not parse message file"

  /** `loadMessage`; None when the file cannot be read. */
  function LoadMessage(path: string, text: Option<string>): (m: Message)
    ensures m.path == Some(path)
  {
    if text.None? then Message(UNREADABLE, "", None, Some(path))
    else
      var m := Envelope.Unmarshal(text.value, path);
      if m.Some? then m.value.(path := Some(path)) else Message(MALFORMED, "", None, Some(path))
  }

  function Lookup(files: Files, path: string): Option<string> {
    if path in files then Some(files[path]) else None
  }

  /** A created message is found under a path that was this Persistor's next name, loads back
      exactly, and leaves every other file alone. */
  lemma CreateThenLoad(st: State, place: Place, limit: Option<int>, measured: Option<nat>, m: Message,
                       write: WriteOutcome)
    requires Create(st, place, limit, measured, m, write).1.Created?
    ensures var (st', r) := Create(st, place, limit, measured, m, write);
            var path := Names.Name(place.dir, place.pid, st.count);
            && r.m == m.(path := Some(path))
            && LoadMessage(path, Lookup(st'.files, path)) == r.m
            && st'.files - {path} == st.files - {path}
  {
    Envelope.MarshalRoundTrip(m, Names.Name(place.dir, place.pid, st.count));
  }

  // ---- The storage bound ----

  /** What happens to the directory: creations by the one Persistor, and removals by the producer. */
  datatype Op =
    | Creation(m: Message, measured: Option<nat>, write: WriteOutcome)
    | Removal(path: string)

  function Apply(st: State, place: Place, limit: Option<int>, op: Op): State {
    match op
    case Creation(m, measured, write) => Create(st, place, limit, measured, m, write).0
    case Removal(path) => st.(files := st.files - {path})
  }

  /** A measurement is at least the size of the directory when the file is written, because files
      only disappear in between, or it is blind: a directory that is not found measures nothing
      whatever it holds; see Persistors.MessageDir.Size. */
  ghost predicate Measured(st: State, op: Op, overhead: nat, blind: bool) {
    op.Creation? ==>
      && Envelope.Overhead(op.m) <= overhead
      && (op.measured.Some? ==> DirSize(st.files) <= op.measured.value || (blind && op.measured.value == 0))
  }

  ghost predicate AllMeasured(st: State, place: Place, limit: int, ops: seq<Op>, overhead: nat, blind: bool)
    decreases ops
  {
    ops == [] || (Measured(st, ops[0], overhead, blind)
                  && AllMeasured(Apply(st, place, Some(limit), ops[0]), place, limit, ops[1..], overhead, blind))
  }

  function ApplyAll(st: State, place: Place, limit: Option<int>, ops: seq<Op>): State
    decreases ops
  {
    if ops == [] then st else ApplyAll(Apply(st, place, limit, ops[0]), place, limit, ops[1..])
  }

  lemma {:induction false} PrefixSize(t: string, n: nat)
    requires n <= |t|
    ensures Envelope.TextSize(t[..n]) <= Envelope.TextSize(t)
    decreases n
  {
    if n > 0 {
      assert t[..n][1..] == t[1..][..n - 1];
      PrefixSize(t[1..], n - 1);
    }
  }

  /** One creation, complete or cut off, keeps the directory below six fifths of the limit and a constant. */
  lemma CreationBound(st: State, place: Place, limit: int, op: Op, overhead: nat)
    requires op.Creation? && Measured(st, op, overhead, false)
    ensures var size := DirSize(Apply(st, place, Some(limit), op).files);
            size == DirSize(st.files) || size <= 6 * limit / 5 + overhead + 4
  {
    var m := op.m;
    var text := Envelope.Marshal(m);
    var path := Names.Name(place.dir, place.pid, st.count);
    if op.measured.Some? && !Full(Some(limit), m, op.measured.value) && !op.write.Unopened? {
      Envelope.StoredSizeFormula(m);
      var n := if op.write.Complete? then |text| else if op.write.n < |text| then op.write.n else |text|;
      assert text[..|text|] == text;
      PrefixSize(text, n);
      DirSizeAdd(st.files, path, text[..n]);
      hide Envelope.TextSize, Envelope.Marshal, Envelope.Overhead;
      var stored := Envelope.StoredSize(m);
      assert 3 * stored <= 3 * overhead + 4 * Len(m) + 8;
      assert DirSize(st.files) + Len(m) <= NineTenths(limit);
    }
  }

  /** The storage bound: under any interleaving of creations and removals the directory never
      exceeds the larger of its starting size and 6/5 of the limit plus a constant for one
      message's envelope, although the limit is checked against raw bytes and base64 is written. */
  lemma {:induction false} StorageBound(st: State, place: Place, limit: int, ops: seq<Op>, overhead: nat)
    requires AllMeasured(st, place, limit, ops, overhead, false)
    ensures var size := DirSize(ApplyAll(st, place, Some(limit), ops).files);
            size <= DirSize(st.files) || size <= 6 * limit / 5 + overhead + 4
    decreases ops
  {
    hide Envelope.TextSize, Envelope.Overhead, Create;
    if ops != [] {
      if ops[0].Creation? {
        CreationBound(st, place, limit, ops[0], overhead);
      } else {
        DirSizeRemove(st.files, {ops[0].path});
      }
      StorageBound(Apply(st, place, Some(limit), ops[0]), place, limit, ops[1..], overhead);
    }
  }

  /** The configured limit itself is not kept: when a message is accepted under it, the directory
      stays within it exactly when the envelope and the base64 form also fit. */
  lemma WithinLimitIff(st: State, place: Place, limit: int, m: Message)
    requires Names.Name(place.dir, place.pid, st.count) !in st.files
    requires !Full(Some(limit), m, DirSize(st.files))
    ensures DirSize(Apply(st, place, Some(limit), Creation(m, Some(DirSize(st.files)), Complete)).files) <= limit <==>
            DirSize(st.files) + Envelope.Overhead(m)
            + (if m.bytes.None? then 0 else 4 * ((Len(m) + 2) / 3) - 2) <= limit
  {
    Envelope.StoredSizeFormula(m);
    DirSizeAdd(st.files, Names.Name(place.dir, place.pid, st.count), Envelope.Marshal(m));
  }

  /** A concrete case: 27 bytes pass a limit of 30 and take more than 30 on disk. */
  lemma LimitExceeded(place: Place)
    ensures var st := State(map[], 0);
            var m := Message("", PROFILE, Some(seq(27, _ => 0)), None);
            DirSize(Apply(st, place, Some(30), Creation(m, Some(0), Complete)).files) > 30
  {
    var st := State(map[], 0);
    var m := Message("", PROFILE, Some(seq(27, _ => 0)), None);
    assert Len(m) == 27 && DirSize(st.files) == 0;
    WithinLimitIff(st, place, 30, m);
  }

  // ---- A directory that is not found ----

  const EMPTY := Message("", LOG, None, None)

  /** Creations that each took the directory for absent, and so measured nothing. */
  function Blind(n: nat): seq<Op> {
    if n == 0 then [] else [Creation(EMPTY, Some(0), Complete)] + Blind(n - 1)
  }

  /** No file has a name that this Persistor will still generate. */
  ghost predicate NamesFree(st: State, place: Place) {
    forall c: nat :: c >= st.count ==> Names.Name(place.dir, place.pid, c) !in st.files
  }

  lemma BlindCreation(st: State, place: Place, limit: int)
    requires NamesFree(st, place) && NineTenths(limit) >= 0
    ensures var t := Apply(st, place, Some(limit), Creation(EMPTY, Some(0), Complete));
            NamesFree(t, place) && DirSize(t.files) > DirSize(st.files)
  {
    var path := Names.Name(place.dir, place.pid, st.count);
    Envelope.MarshalSize(EMPTY);
    DirSizeAdd(st.files, path, Envelope.Marshal(EMPTY));
    hide Envelope.TextSize, Envelope.Marshal, DirSize, Names.Name;
    forall c: nat | c > st.count
      ensures Names.Name(place.dir, place.pid, c) != path
    {
      if Names.Name(place.dir, place.pid, c) == path {
        Names.NameInjective(place.dir, place.pid, c, place.pid, st.count);
      }
    }
  }

  lemma PrependOp(st: State, place: Place, limit: int, op: Op, rest: seq<Op>, overhead: nat, blind: bool)
    requires Measured(st, op, overhead, blind)
    ensures var t := Apply(st, place, Some(limit), op);
            && ApplyAll(st, place, Some(limit), [op] + rest) == ApplyAll(t, place, Some(limit), rest)
            && (AllMeasured(t, place, limit, rest, overhead, blind) ==>
                  AllMeasured(st, place, limit, [op] + rest, overhead, blind))
  {
    hide Apply, Measured;
    assert ([op] + rest)[1..] == rest;
  }

  /** While `Stat` of the directory fails, `size` reports nothing and no error
      (broker/message.go:195-198), and the directory grows without a bound. */
  lemma {:induction false} BlindGrows(st: State, place: Place, limit: int, n: nat, overhead: nat)
    requires NamesFree(st, place) && NineTenths(limit) >= 0 && Envelope.Overhead(EMPTY) <= overhead
    ensures AllMeasured(st, place, limit, Blind(n), overhead, true)
    ensures DirSize(ApplyAll(st, place, Some(limit), Blind(n)).files) >= DirSize(st.files) + n
    decreases n
  {
    hide DirSize, Apply, NamesFree, Envelope.Overhead, NineTenths;
    if n > 0 {
      var op := Creation(EMPTY, Some(0), Complete);
      BlindCreation(st, place, limit);
      assert Measured(st, op, overhead, true) && Blind(n) == [op] + Blind(n - 1);
      hide *;
      PrependOp(st, place, limit, op, Blind(n - 1), overhead, true);
      BlindGrows(Apply(st, place, Some(limit), op), place, limit, n - 1, overhead);
    }
  }

  /** The bound of StorageBound on one sequence of operations. */
  ghost predicate StaysBounded(st: State, place: Place, limit: int, ops: seq<Op>, overhead: nat) {
    var size := DirSize(ApplyAll(st, place, Some(limit), ops).files);
    size <= DirSize(st.files) || size <= 6 * limit / 5 + overhead + 4
  }

  lemma {:induction false} NothingAccepted(st: State, place: Place, limit: int, ops: seq<Op>)
    requires NineTenths(limit) < 0
    ensures DirSize(ApplyAll(st, place, Some(limit), ops).files) <= DirSize(st.files)
    decreases ops
  {
    if ops != [] {
      if ops[0].Removal? {
        DirSizeRemove(st.files, {ops[0].path});
      } else {
        assert Apply(st, place, Some(limit), ops[0]) == st;
      }
      hide DirSize, Create;
      NothingAccepted(Apply(st, place, Some(limit), ops[0]), place, limit, ops[1..]);
    }
  }

  /** No message is accepted under a limit so negative that an empty message crosses its threshold;
      otherwise creations and removals keep the bound, from any start and for any envelopes, exactly
      when no measurement is blind. */
  lemma StorageBoundIff(st: State, place: Place, limit: int, blind: bool)
    requires NamesFree(st, place)
    ensures (forall ops, overhead :: AllMeasured(st, place, limit, ops, overhead, blind) ==>
                                       StaysBounded(st, place, limit, ops, overhead))
            <==> !blind || NineTenths(limit) < 0
  {
    if blind && NineTenths(limit) >= 0 {
      var overhead := Envelope.Overhead(EMPTY);
      var n := DirSize(st.files) + (if limit < 0 then 0 else 6 * limit / 5) + overhead + 5;
      BlindGrows(st, place, limit, n, overhead);
      hide DirSize, ApplyAll, AllMeasured, Envelope.Overhead, NamesFree;
      assert AllMeasured(st, place, limit, Blind(n), overhead, blind);
      assert !StaysBounded(st, place, limit, Blind(n), overhead);
    } else {
      forall ops, overhead | AllMeasured(st, place, limit, ops, overhead, blind)
        ensures StaysBounded(st, place, limit, ops, overhead)
      {
        if blind {
          NothingAccepted(st, place, limit, ops);
        } else {
          StorageBound(st, place, limit, ops, overhead);
        }
      }
    }
  }
}
