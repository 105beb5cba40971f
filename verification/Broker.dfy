/** Broker messages (broker/message.go:19-38), as every stage of the pipeline passes them on. */
module Broker {

  datatype Option<+T> = None | Some(value: T) {
    predicate IsFailure() {
      None?
    }

    function PropagateFailure<U>(): Option<U>
      requires None?
    {
      None
    }

    function Extract(): T
      requires Some?
    {
      value
    }
  }

  type byte = x: int | 0 <= x < 256

  const PROFILE := "profiler"
  const EVENT := "events"
  const LOG := "logs"
  const DATA_POINT := "datapoints"

  /** `bytes` is None for Go's nil slice. `path` is None for a message with no file system
      attached (`fs == nil`), which `Remove` leaves alone. */
  datatype Message = Message(error: string, topic: string, bytes: Option<seq<byte>>, path: Option<string>)

  /** `len(m.Bytes)`: the application-layer bytes that count against budgets and limits. */
  function Len(m: Message): nat {
    if m.bytes.None? then 0 else |m.bytes.value|
  }

  /** Bytes of a sequence of messages. */
  function Total(ms: seq<Message>): nat {
    if ms == [] then 0 else Total(ms[..|ms| - 1]) + Len(ms[|ms| - 1])
  }

  lemma {:induction false} TotalConcat(a: seq<Message>, b: seq<Message>)
    ensures Total(a + b) == Total(a) + Total(b)
  {
    if b == [] {
      assert a + b == a;
    } else {
      assert (a + b)[..|a + b| - 1] == a + b[..|b| - 1];
      TotalConcat(a, b[..|b| - 1]);
    }
  }

  lemma TotalOne(m: Message)
    ensures Total([m]) == Len(m)
  {
    assert [m][..0] == [];
  }

  lemma TotalPush(ms: seq<Message>, m: Message)
    ensures Total(ms + [m]) == Total(ms) + Len(m)
  {
    assert (ms + [m])[..|ms|] == ms;
  }

  /** `ErrorOnly`: a log message that carries an error text, no bytes and no file. */
  function ErrorOnly(error: string): Message {
    Message(error, LOG, None, None)
  }
}
