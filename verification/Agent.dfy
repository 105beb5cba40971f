/**
 The sources that read from the agent: the message server of agent/server.go, the data point
 server of agent/datapoint.go and the periodic requester of agent/requester.go. The byte stream is
 a sequence of decode outcomes; its end is EOF.
 */
module Agent {
  import opened Broker

  /** The type and the raw JSON data of an agent message. */
  datatype AgentMessage = AgentMessage(kind: string, data: Option<seq<byte>>)

  const CLEAN_EXIT := AgentMessage("cleanExit", None)

  datatype Decode = Item(m: AgentMessage) | Undecodable(why: string)

  /** The fields of Server that `scan` updates. The error is never cleared. */
  datatype Scanner = Scanner(errd: bool, msg: AgentMessage, err: Option<string>)

  const NEW_SCANNER := Scanner(false, AgentMessage("", None), None)

  /** `Server.scan` on a decode outcome. */
  function ScanServer(s: Scanner, d: Decode): Scanner {
    match d
    case Item(m) => s.(errd := s.errd || m.kind == "event", msg := m)
    case Undecodable(why) => s.(err := Some(why))
  }

  /** `DataPointServer.scan` on a decode outcome: the payload becomes the data of a data point. */
  function ScanDataPoint(s: Scanner, d: Decode): Scanner {
    match d
    case Item(m) => s.(msg := AgentMessage("datapoint", m.data))
    case Undecodable(why) => s.(err := Some(why))
  }

  /** The number of items before the first undecodable one. */
  function Leading(stream: seq<Decode>): (k: nat)
    ensures k <= |stream|
    ensures forall i :: 0 <= i < k ==> stream[i].Item?
    ensures k < |stream| ==> stream[k].Undecodable?
  {
    if stream == [] || stream[0].Undecodable? then 0 else 1 + Leading(stream[1..])
  }

  predicate IsEvent(d: Decode) {
    d.Item? && d.m.kind == "event"
  }

  predicate HasEvent(stream: seq<Decode>) {
    exists i :: 0 <= i < |stream| && IsEvent(stream[i])
  }

  /** The messages before the first undecodable item. */
  function Messages(stream: seq<Decode>): (ms: seq<AgentMessage>)
    ensures |ms| == Leading(stream)
    ensures forall i :: 0 <= i < |ms| ==> ms[i] == stream[i].m
  {
    if stream == [] || stream[0].Undecodable? then [] else [stream[0].m] + Messages(stream[1..])
  }

  /** All that a server sends on its stream. */
  function ServerSends(stream: seq<Decode>): seq<AgentMessage> {
    Messages(stream) + (if HasEvent(stream) then [] else [CLEAN_EXIT])
  }

  lemma ServerSendsIndexed(stream: seq<Decode>, out: seq<AgentMessage>)
    requires |out| == Leading(stream) + (if HasEvent(stream) then 0 else 1)
    requires forall i :: 0 <= i < Leading(stream) ==> out[i] == stream[i].m
    requires |out| > Leading(stream) ==> out[Leading(stream)] == CLEAN_EXIT
    ensures out == ServerSends(stream)
  {
    hide HasEvent;
  }

  /** All that a data point server sends on its stream. */
  function PointSends(stream: seq<Decode>): (ms: seq<AgentMessage>)
    ensures |ms| == Leading(stream)
    ensures forall i :: 0 <= i < |ms| ==> ms[i] == AgentMessage("datapoint", stream[i].m.data)
  {
    var ms := Messages(stream);
    seq(|ms|, i requires 0 <= i < |ms| => AgentMessage("datapoint", ms[i].data))
  }

  datatype Closing = OutClosed | DoneClosed

  class Server {
    var s: Scanner
    var out: seq<AgentMessage>
    var closed: seq<Closing>

    constructor ()
      ensures s == NEW_SCANNER && out == [] && closed == []
    {
      s := NEW_SCANNER;
      out, closed := [], [];
    }

    /** `serve`, on the stream that the decoder will find: what comes out are the messages before
        the first undecodable item, then one cleanExit exactly when no item anywhere in the stream
        is an event; and the output is closed before Done. */
    method Serve(stream: seq<Decode>)
      requires s == NEW_SCANNER && out == [] && closed == []
      modifies this
      ensures var k := Leading(stream);
              && |out| == k + (if HasEvent(stream) then 0 else 1)
              && (forall i :: 0 <= i < k ==> out[i] == stream[i].m)
              && (|out| > k ==> out[k] == CLEAN_EXIT)
      ensures out == ServerSends(stream)
      ensures closed == [OutClosed, DoneClosed]
    {
      hide ServerSends;
      var i := 0;
      while i < |stream|
        invariant 0 <= i <= |stream|
        invariant closed == []
        invariant s.errd <==> exists j :: 0 <= j < i && IsEvent(stream[j])
        invariant s.err.Some? <==> Leading(stream) < i
        invariant |out| == if Leading(stream) < i then Leading(stream) else i
        invariant forall j :: 0 <= j < |out| ==> stream[j].Item? && out[j] == stream[j].m
      {
        s := ScanServer(s, stream[i]);
        if s.err.None? {
          out := out + [s.msg];
        }
        i := i + 1;
      }
      if !s.errd {
        out := out + [CLEAN_EXIT];
      }
      ServerSendsIndexed(stream, out);
      closed := closed + [OutClosed];
      closed := closed + [DoneClosed];
    }
  }

  class DataPointServer {
    var s: Scanner
    var out: seq<AgentMessage>
    var closed: bool

    constructor ()
      ensures s == NEW_SCANNER && out == [] && !closed
    {
      s := NEW_SCANNER;
      out, closed := [], false;
    }

    /** `serve`: the data points before the first undecodable item, and nothing else. */
    method Serve(stream: seq<Decode>)
      requires s == NEW_SCANNER && out == [] && !closed
      modifies this
      ensures closed && |out| == Leading(stream)
      ensures forall i :: 0 <= i < |out| ==> out[i] == AgentMessage("datapoint", stream[i].m.data)
      ensures out == PointSends(stream)
    {
      var i := 0;
      while i < |stream|
        invariant 0 <= i <= |stream|
        invariant !closed
        invariant s.err.Some? <==> Leading(stream) < i
        invariant |out| == if Leading(stream) < i then Leading(stream) else i
        invariant forall j :: 0 <= j < |out| ==>
                    stream[j].Item? && out[j] == AgentMessage("datapoint", stream[j].m.data)
      {
        s := ScanDataPoint(s, stream[i]);
        if s.err.None? {
          out := out + [s.msg];
        }
        i := i + 1;
      }
      closed := true;
    }
  }

  // ---- The periodic requester ----

  /** What the select of `run` can pick: the done channel has closed, the ticker fired and the
      write succeeded (None) or failed, a new emission period arrived. */
  datatype Input = DoneSeen | Tick(failure: Option<string>) | Period(seconds: int)

  predicate Fails(e: Input) {
    e.Tick? && e.failure.Some?
  }

  function Failures(es: seq<Input>): nat {
    if es == [] then 0 else Failures(es[..|es| - 1]) + (if Fails(es[|es| - 1]) then 1 else 0)
  }

  /** Does `run` still go on after these inputs? It stops at the first done, and at the second
      failed write of all, which need not follow the first one directly. */
  predicate GoesOn(es: seq<Input>) {
    DoneSeen !in es && Failures(es) < 2
  }

  lemma {:induction false} FailuresGrow(es: seq<Input>, i: nat)
    requires i <= |es|
    ensures Failures(es[..i]) <= Failures(es)
    decreases |es|
  {
    if i < |es| {
      assert es[..|es| - 1][..i] == es[..i];
      FailuresGrow(es[..|es| - 1], i);
    } else {
      assert es[..i] == es;
    }
  }

  /** What a run of the requester does with the offered inputs: how many it takes, what it sends, and
      whether it returned. */
  datatype Ending = Ending(taken: nat, out: seq<Message>, returned: bool)

  /** The code's rule: does it return on the input at i, with an earlier failed write anywhere? */
  predicate StopsAt(es: seq<Input>, i: nat)
    requires i < |es|
  {
    es[i] == DoneSeen || (Fails(es[i]) && exists j :: 0 <= j < i && Fails(es[j]))
  }

  /** Two failed writes with no other write between them. */
  predicate InARow(es: seq<Input>, i: nat, j: nat)
    requires i < j < |es|
  {
    Fails(es[i]) && Fails(es[j]) && forall k :: i < k < j ==> !es[k].Tick?
  }

  /** The rule that the comment in `run` gives: on done, or on a second failed write in a row. */
  predicate StopsInARowAt(es: seq<Input>, i: nat)
    requires i < |es|
  {
    es[i] == DoneSeen || exists j :: 0 <= j < i && InARow(es, j, i)
  }

  /** How a run ends that has taken n inputs and follows the code's rule, or the comment's. */
  function EndingFrom(es: seq<Input>, n: nat, inARow: bool): Ending
    requires n <= |es|
    decreases |es| - n
  {
    if n == |es| then Ending(n, [], false)
    else if (if inARow then StopsInARowAt(es, n) else StopsAt(es, n)) then
      Ending(n + 1, if Fails(es[n]) then [ErrorOnly(es[n].failure.value)] else [], true)
    else EndingFrom(es, n + 1, inARow)
  }

  lemma StopsBefore(es: seq<Input>, i: nat)
    requires i <= |es| && !GoesOn(es[..i])
    ensures !GoesOn(es)
  {
    FailuresGrow(es, i);
  }

  /** `PeriodicRequester.run`: how many of the offered inputs it takes, what it sends, and whether it
      returned (closing its output) or still waits for input. */
  method RunRequester(es: seq<Input>) returns (taken: nat, out: seq<Message>, returned: bool)
    ensures taken <= |es|
    ensures returned <==> !GoesOn(es)
    ensures returned ==> taken > 0 && GoesOn(es[..taken - 1]) && !GoesOn(es[..taken])
    ensures !returned ==> taken == |es|
    ensures returned ==> es[taken - 1] == DoneSeen || Fails(es[taken - 1])
    ensures out == (if returned && Fails(es[taken - 1])
                    then [Message(es[taken - 1].failure.value, "logs", None, None)] else [])
    ensures Ending(taken, out, returned) == EndingFrom(es, 0, false)
  {
    var prevErr: Option<string> := None;
    out := [];
    taken := 0;
    while taken < |es|
      invariant 0 <= taken <= |es|
      invariant out == []
      invariant GoesOn(es[..taken])
      invariant prevErr.Some? <==> Failures(es[..taken]) == 1
      invariant prevErr.Some? <==> exists j :: 0 <= j < taken && Fails(es[j])
      invariant EndingFrom(es, taken, false) == EndingFrom(es, 0, false)
    {
      var e := es[taken];
      assert es[..taken + 1][..taken] == es[..taken] && es[..taken + 1] == es[..taken] + [e];
      taken := taken + 1;
      match e {
        case DoneSeen =>
          assert e in es[..taken];
          StopsBefore(es, taken);
          return taken, out, true;
        case Tick(failure) =>
          if failure.Some? {
            if prevErr.Some? {
              out := out + [ErrorOnly(failure.value)];
              StopsBefore(es, taken);
              return taken, out, true;
            }
            prevErr := failure;
          }
        case Period(_) =>
      }
    }
    assert es[..taken] == es;
    returned := false;
  }

  predicate TwoInARow(es: seq<Input>) {
    exists i, j :: 0 <= i < j < |es| && InARow(es, i, j)
  }

  lemma {:induction false} OneFailure(es: seq<Input>, i: nat)
    requires i < |es| && Fails(es[i])
    ensures Failures(es) >= 1
    decreases |es|
  {
    var n := |es| - 1;
    if i < n {
      OneFailure(es[..n], i);
    }
  }

  lemma {:induction false} FailuresBetween(es: seq<Input>, i: nat, j: nat)
    requires i < j < |es| && Fails(es[i]) && Fails(es[j])
    ensures Failures(es) >= 2
    decreases |es|
  {
    var n := |es| - 1;
    if j < n {
      FailuresBetween(es[..n], i, j);
    } else {
      OneFailure(es[..n], i);
    }
  }

  /** The comment in `run` speaks of two errors in a row. That is enough to stop, but it is not
      needed: the error before is not forgotten when a write succeeds. */
  lemma TwoInARowStops(es: seq<Input>)
    requires TwoInARow(es)
    ensures !GoesOn(es)
  {
    var i, j :| 0 <= i < j < |es| && InARow(es, i, j);
    FailuresBetween(es, i, j);
  }

  lemma StopsWithoutTwoInARow()
    ensures exists es :: DoneSeen !in es && !TwoInARow(es) && !GoesOn(es)
  {
    var es := [Tick(Some("first")), Tick(None), Tick(Some("second"))];
    FailuresBetween(es, 0, 2);
    assert es[1].Tick?;
    assert !TwoInARow(es);
    assert DoneSeen !in es;
  }

  /** Does a write succeed between the first two failed writes, with both before any done? */
  predicate SuccessBetweenFailures(es: seq<Input>) {
    exists i, k, j ::
      && 0 <= i < k < j < |es| && Fails(es[i]) && es[k] == Tick(None) && Fails(es[j])
      && (forall l :: 0 <= l < j && Fails(es[l]) ==> l == i)
      && DoneSeen !in es[..j]
  }

  /** Before the second failure the two rules agree, unless a write succeeded after the first one. */
  lemma {:induction false} SameEndingFrom(es: seq<Input>, n: nat)
    requires n <= |es| && !SuccessBetweenFailures(es)
    requires forall i :: 0 <= i < n ==> !StopsAt(es, i)
    ensures EndingFrom(es, n, true) == EndingFrom(es, n, false)
    decreases |es| - n
  {
    if n < |es| {
      if StopsAt(es, n) && es[n] != DoneSeen {
        forall l | 0 <= l < n
          ensures es[l] != DoneSeen && (Fails(es[l]) ==> forall j :: 0 <= j < l ==> !Fails(es[j]))
        {
          assert !StopsAt(es, l);
        }
        var j :| 0 <= j < n && Fails(es[j]);
        forall k | j < k < n
          ensures !es[k].Tick?
        {
          assert es[k] != Tick(None) && !Fails(es[k]);
        }
        assert InARow(es, j, n);
      }
      if !StopsAt(es, n) {
        SameEndingFrom(es, n + 1);
      }
    }
  }

  lemma {:induction false} EndsAt(es: seq<Input>, n: nat, i: nat, inARow: bool)
    requires n <= i < |es|
    requires forall l :: n <= l < i ==> !StopsAt(es, l)
    ensures !inARow && StopsAt(es, i) ==> EndingFrom(es, n, inARow) == EndingFrom(es, i, inARow)
    ensures inARow && !StopsInARowAt(es, i) ==> EndingFrom(es, n, inARow) == EndingFrom(es, i + 1, inARow)
    decreases i - n
  {
    if n < i {
      assert StopsInARowAt(es, n) ==> StopsAt(es, n);
      EndsAt(es, n + 1, i, inARow);
    }
  }

  lemma {:induction false} EndingAfter(es: seq<Input>, n: nat, inARow: bool)
    requires n <= |es|
    ensures var e := EndingFrom(es, n, inARow);
            e.taken > n || (e.taken == n && !e.returned)
    decreases |es| - n
  {
    if n < |es| {
      EndingAfter(es, n + 1, inARow);
    }
  }

  /** The requester takes, sends and returns as its comment says exactly when no write succeeds
      between the first two failed ones before a done: the earlier error is not forgotten. */
  lemma CommentHoldsIff(es: seq<Input>)
    ensures EndingFrom(es, 0, false) == EndingFrom(es, 0, true) <==> !SuccessBetweenFailures(es)
  {
    if SuccessBetweenFailures(es) {
      var i, k, j :| && 0 <= i < k < j < |es| && Fails(es[i]) && es[k] == Tick(None) && Fails(es[j])
                     && (forall l :: 0 <= l < j && Fails(es[l]) ==> l == i)
                     && DoneSeen !in es[..j];
      forall l | 0 <= l < j
        ensures !StopsAt(es, l)
      {
        assert es[l] == es[..j][l];
      }
      assert es[k].Tick?;
      assert !StopsInARowAt(es, j);
      EndsAt(es, 0, j, false);
      EndsAt(es, 0, j, true);
      EndingAfter(es, j + 1, true);
    } else {
      SameEndingFrom(es, 0);
    }
  }
}
