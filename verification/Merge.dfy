/**
 The fan-in of message/merge.go and agent/merge.go as an interleaved step system: one worker
 goroutine per source, a wait group, an output channel of some capacity (10 and 0), and a close.
 */
module Merge {

  datatype Worker<+T> = Idle | Holding(m: T) | Finished

  /** `cap` is the capacity of the output channel and `wg` the wait group's counter. `got` is what
      each worker received, `delivered` what the consumer received, and `tags` says which worker
      sent each message that went through the channel. */
  datatype State<T> = State(
    cap: nat, workers: seq<Worker<T>>, wg: int, buf: seq<T>, closed: bool,
    got: seq<seq<T>>, delivered: seq<T>, tags: seq<nat>)

  /** The steps of the goroutines. `Put` sends into the buffer; `Handoff` is a send that meets a
      waiting receiver, the only kind there is without a buffer. */
  datatype Step<T> =
    | Receive(i: nat, m: T)
    | Finish(i: nat)
    | Put(i: nat)
    | Handoff(i: nat)
    | Take
    | Close

  function Start<T>(n: nat, cap: nat): State<T> {
    State(cap, seq(n, _ => Idle), n, [], false, seq(n, _ => []), [], [])
  }

  predicate Enabled<T>(s: State<T>, st: Step<T>) {
    match st
    case Receive(i, _) => i < |s.workers| && s.workers[i].Idle?
    case Finish(i) => i < |s.workers| && s.workers[i].Idle?
    case Put(i) => i < |s.workers| && s.workers[i].Holding? && |s.buf| < s.cap
    case Handoff(i) => i < |s.workers| && s.workers[i].Holding? && s.buf == []
    case Take => s.buf != []
    case Close => s.wg == 0 && !s.closed
  }

  function Next<T>(s: State<T>, st: Step<T>): State<T>
    requires Enabled(s, st) && |s.got| == |s.workers|
  {
    match st
    case Receive(i, m) => s.(workers := s.workers[i := Holding(m)], got := s.got[i := s.got[i] + [m]])
    case Finish(i) => s.(workers := s.workers[i := Finished], wg := s.wg - 1)
    case Put(i) => s.(workers := s.workers[i := Idle], buf := s.buf + [s.workers[i].m], tags := s.tags + [i])
    case Handoff(i) =>
      s.(workers := s.workers[i := Idle], delivered := s.delivered + [s.workers[i].m], tags := s.tags + [i])
    case Take => s.(delivered := s.delivered + [s.buf[0]], buf := s.buf[1..])
    case Close => s.(closed := true)
  }

  function Live<T>(ws: seq<Worker<T>>): nat {
    if ws == [] then 0 else Live(ws[..|ws| - 1]) + (if ws[|ws| - 1].Finished? then 0 else 1)
  }

  lemma {:induction false} LiveUpdate<T>(ws: seq<Worker<T>>, i: nat, w: Worker<T>)
    requires i < |ws|
    ensures Live(ws[i := w]) == Live(ws) - (if ws[i].Finished? then 0 else 1) + (if w.Finished? then 0 else 1)
  {
    var n := |ws| - 1;
    if i < n {
      assert ws[i := w][..n] == ws[..n][i := w];
      LiveUpdate(ws[..n], i, w);
    } else {
      assert ws[i := w][..n] == ws[..n];
    }
  }

  lemma {:induction false} LiveNone<T>(ws: seq<Worker<T>>)
    ensures Live(ws) == 0 <==> forall i :: 0 <= i < |ws| ==> ws[i].Finished?
  {
    if ws != [] {
      LiveNone(ws[..|ws| - 1]);
      assert forall i :: 0 <= i < |ws| - 1 ==> ws[..|ws| - 1][i] == ws[i];
    }
  }

  function Held<T>(w: Worker<T>): seq<T> {
    if w.Holding? then [w.m] else []
  }

  /** The messages of one source among those that went through the channel, in order. */
  function Project<T>(out: seq<T>, tags: seq<nat>, i: nat): seq<T>
    requires |out| == |tags|
  {
    if out == [] then []
    else
      var n := |out| - 1;
      Project(out[..n], tags[..n], i) + (if tags[n] == i then [out[n]] else [])
  }

  lemma ProjectPush<T>(out: seq<T>, tags: seq<nat>, m: T, j: nat, i: nat)
    requires |out| == |tags|
    ensures Project(out + [m], tags + [j], i) == Project(out, tags, i) + (if j == i then [m] else [])
  {
    assert (out + [m])[..|out|] == out && (tags + [j])[..|tags|] == tags;
  }

  /** Everything that went through the channel. */
  function Sent<T>(s: State<T>): seq<T> {
    s.delivered + s.buf
  }

  /** What every reachable state keeps: the channel's history is an interleaving of what the
      workers received, each without the message it still holds; nothing is lost or duplicated. */
  ghost predicate Inv<T(!new)>(s: State<T>) {
    && |s.got| == |s.workers|
    && s.wg == Live(s.workers)
    && |s.buf| <= s.cap
    && |s.tags| == |Sent(s)|
    && (forall k :: 0 <= k < |s.tags| ==> s.tags[k] < |s.workers|)
    && (s.closed ==> s.wg == 0)
    && forall i :: 0 <= i < |s.workers| ==> s.got[i] == Project(Sent(s), s.tags, i) + Held(s.workers[i])
  }

  lemma {:induction false} LiveIdle<T>(n: nat)
    ensures Live(seq<Worker<T>>(n, _ => Idle)) == n
  {
    if n > 0 {
      var ws := seq<Worker<T>>(n, _ => Idle);
      assert ws[..n - 1] == seq<Worker<T>>(n - 1, _ => Idle);
      LiveIdle<T>(n - 1);
    }
  }

  lemma StartInv<T(!new)>(n: nat, cap: nat)
    ensures Inv(Start<T>(n, cap))
  {
    LiveIdle<T>(n);
  }

  lemma SendInv<T(!new)>(s: State<T>, st: Step<T>)
    requires Inv(s) && Enabled(s, st) && (st.Put? || st.Handoff?)
    ensures Inv(Next(s, st))
  {
    hide Live, Project;
    var i := st.i;
    var m := s.workers[i].m;
    var t := Next(s, st);
    LiveUpdate(s.workers, i, Idle);
    assert Sent(t) == Sent(s) + [m];
    forall j | 0 <= j < |t.workers|
      ensures t.got[j] == Project(Sent(t), t.tags, j) + Held(t.workers[j])
    {
      ProjectPush(Sent(s), s.tags, m, i, j);
    }
  }

  lemma NextInv<T(!new)>(s: State<T>, st: Step<T>)
    requires Inv(s) && Enabled(s, st)
    ensures Inv(Next(s, st))
  {
    match st
    case Receive(i, m) =>
      LiveUpdate(s.workers, i, Holding(m));
      assert Sent(Next(s, st)) == Sent(s);
    case Finish(i) =>
      LiveUpdate(s.workers, i, Finished);
      assert Sent(Next(s, st)) == Sent(s);
    case Put(_) => SendInv(s, st);
    case Handoff(_) => SendInv(s, st);
    case Take => assert Sent(Next(s, st)) == Sent(s);
    case Close => assert Sent(Next(s, st)) == Sent(s);
  }

  /** No worker sends after the close. */
  lemma NoSendAfterClose<T(!new)>(s: State<T>, st: Step<T>)
    requires Inv(s) && Enabled(s, st) && s.closed
    ensures st.Take?
  {
    LiveNone(s.workers);
  }

  // ---- A merger with its sources ----

  /** What each source has still to yield, and whether it closes after that. */
  datatype System<T> = System(todo: seq<seq<T>>, ends: seq<bool>, merger: State<T>)

  predicate Possible<T(==)>(s: System<T>, st: Step<T>) {
    && |s.todo| == |s.ends| == |s.merger.workers| == |s.merger.got|
    && Enabled(s.merger, st)
    && (st.Receive? ==> s.todo[st.i] != [] && st.m == s.todo[st.i][0])
    && (st.Finish? ==> s.todo[st.i] == [] && s.ends[st.i])
  }

  function Go<T(==)>(s: System<T>, st: Step<T>): System<T>
    requires Possible(s, st)
  {
    var todo := if st.Receive? then s.todo[st.i := s.todo[st.i][1..]] else s.todo;
    System(todo, s.ends, Next(s.merger, st))
  }

  predicate Runs<T(==)>(s: System<T>, steps: seq<Step<T>>)
    decreases steps
  {
    steps == [] || (Possible(s, steps[0]) && Runs(Go(s, steps[0]), steps[1..]))
  }

  function Run<T(==)>(s: System<T>, steps: seq<Step<T>>): System<T>
    requires Runs(s, steps)
    decreases steps
  {
    if steps == [] then s else Run(Go(s, steps[0]), steps[1..])
  }

  function Begin<T>(sources: seq<seq<T>>, ends: seq<bool>, cap: nat): System<T>
    requires |sources| == |ends|
  {
    System(sources, ends, Start(|sources|, cap))
  }

  ghost predicate SystemInv<T(!new)>(sources: seq<seq<T>>, ends: seq<bool>, s: System<T>) {
    && |s.todo| == |s.merger.workers| == |sources| == |ends|
    && s.ends == ends
    && Inv(s.merger)
    && (forall i :: 0 <= i < |sources| ==> sources[i] == s.merger.got[i] + s.todo[i])
    && (forall i :: 0 <= i < |sources| && s.merger.workers[i].Finished? ==> s.todo[i] == [] && ends[i])
  }

  lemma GoInv<T(!new)>(sources: seq<seq<T>>, ends: seq<bool>, s: System<T>, st: Step<T>)
    requires SystemInv(sources, ends, s) && Possible(s, st)
    ensures SystemInv(sources, ends, Go(s, st))
  {
    NextInv(s.merger, st);
    hide Inv;
    if st.Receive? {
      assert s.merger.got[st.i] + s.todo[st.i] == s.merger.got[st.i] + [st.m] + s.todo[st.i][1..];
    }
  }

  lemma {:induction false} RunInv<T(!new)>(sources: seq<seq<T>>, ends: seq<bool>, s: System<T>, steps: seq<Step<T>>)
    requires SystemInv(sources, ends, s) && Runs(s, steps)
    ensures SystemInv(sources, ends, Run(s, steps))
    ensures Run(s, steps).merger.cap == s.merger.cap
    decreases steps
  {
    hide SystemInv;
    if steps != [] {
      GoInv(sources, ends, s, steps[0]);
      RunInv(sources, ends, Go(s, steps[0]), steps[1..]);
    }
  }

  /** Merge correctness: in every reachable state, for any number of sources, the output history
      and the buffer are an interleaving of prefixes of the sources, each in its own order; the
      buffer respects its capacity; and once the output is closed, every source is closed and has
      been forwarded completely. */
  lemma MergeCorrect<T(!new)>(sources: seq<seq<T>>, ends: seq<bool>, cap: nat, steps: seq<Step<T>>)
    requires |sources| == |ends|
    requires Runs(Begin(sources, ends, cap), steps)
    ensures var s := Run(Begin(sources, ends, cap), steps);
            var m := s.merger;
            && |m.tags| == |m.delivered + m.buf|
            && |m.buf| <= cap
            && |m.workers| == |sources|
            && (forall k :: 0 <= k < |m.tags| ==> m.tags[k] < |sources|)
            && (forall i :: 0 <= i < |sources| ==>
                  Project(m.delivered + m.buf, m.tags, i) + Held(m.workers[i]) <= sources[i])
            && (m.closed ==> forall i :: 0 <= i < |sources| ==>
                  ends[i] && Project(m.delivered + m.buf, m.tags, i) == sources[i])
  {
    StartInv<T>(|sources|, cap);
    var s0 := Begin(sources, ends, cap);
    assert forall i :: 0 <= i < |sources| ==> sources[i] == [] + s0.todo[i];
    RunInv(sources, ends, s0, steps);
    var s := Run(s0, steps);
    if s.merger.closed {
      LiveNone(s.merger.workers);
    }
  }

  // ---- Progress ----

  function WorkerWeight<T>(w: Worker<T>): nat {
    match w
    case Idle => 1
    case Holding(_) => 3
    case Finished => 0
  }

  function Weight<T>(ws: seq<Worker<T>>): nat {
    if ws == [] then 0
    else Weight(ws[..|ws| - 1]) + WorkerWeight(ws[|ws| - 1])
  }

  lemma {:induction false} WeightUpdate<T>(ws: seq<Worker<T>>, i: nat, w: Worker<T>)
    requires i < |ws|
    ensures Weight(ws[i := w]) == Weight(ws) - WorkerWeight(ws[i]) + WorkerWeight(w)
  {
    var n := |ws| - 1;
    if i < n {
      assert ws[i := w][..n] == ws[..n][i := w];
      WeightUpdate(ws[..n], i, w);
    } else {
      assert ws[i := w][..n] == ws[..n];
    }
  }

  function Count<T>(todo: seq<seq<T>>): nat {
    if todo == [] then 0 else Count(todo[..|todo| - 1]) + |todo[|todo| - 1]|
  }

  lemma {:induction false} CountUpdate<T>(todo: seq<seq<T>>, i: nat, q: seq<T>)
    requires i < |todo|
    ensures Count(todo[i := q]) == Count(todo) - |todo[i]| + |q|
  {
    var n := |todo| - 1;
    if i < n {
      assert todo[i := q][..n] == todo[..n][i := q];
      CountUpdate(todo[..n], i, q);
    } else {
      assert todo[i := q][..n] == todo[..n];
    }
  }

  /** Remaining messages, messages on their way, and live workers. */
  function Work<T>(s: System<T>): nat {
    3 * Count(s.todo) + Weight(s.merger.workers) + |s.merger.buf| + (if s.merger.closed then 0 else 1)
  }

  lemma StepWorks<T(!new)>(s: System<T>, st: Step<T>)
    requires Possible(s, st)
    ensures Work(Go(s, st)) < Work(s)
  {
    match st
    case Receive(i, m) =>
      WeightUpdate(s.merger.workers, i, Holding(m));
      CountUpdate(s.todo, i, s.todo[i][1..]);
    case Finish(i) => WeightUpdate(s.merger.workers, i, Finished);
    case Put(i) => WeightUpdate(s.merger.workers, i, Idle);
    case Handoff(i) => WeightUpdate(s.merger.workers, i, Idle);
    case Take =>
    case Close =>
  }

  predicate Done<T(==)>(s: System<T>) {
    s.merger.closed && s.merger.buf == []
  }

  /** With sources that all close, a state that is not final has a possible step. */
  lemma NotStuck<T(!new)>(sources: seq<seq<T>>, ends: seq<bool>, s: System<T>)
    requires SystemInv(sources, ends, s) && (forall i :: 0 <= i < |ends| ==> ends[i]) && !Done(s)
    ensures exists st :: Possible(s, st)
  {
    LiveNone(s.merger.workers);
    if s.merger.buf != [] {
      assert Possible(s, Take);
    } else if i :| 0 <= i < |sources| && s.merger.workers[i].Holding? {
      assert Possible(s, Handoff(i));
    } else if i :| 0 <= i < |sources| && s.merger.workers[i].Idle? {
      if s.todo[i] == [] {
        assert Possible(s, Finish(i));
      } else {
        assert Possible(s, Receive(i, s.todo[i][0]));
      }
    } else {
      assert Possible(s, Close);
    }
  }

  lemma {:induction false} RunLength<T(!new)>(s: System<T>, steps: seq<Step<T>>)
    requires Runs(s, steps)
    ensures |steps| + Work(Run(s, steps)) <= Work(s)
    decreases steps
  {
    if steps != [] {
      StepWorks(s, steps[0]);
      RunLength(Go(s, steps[0]), steps[1..]);
    }
  }

  /** Merge completes: with finite sources that close and a consumer that keeps receiving, no run
      is longer than the initial work, and a run that cannot continue has closed the output after
      delivering an interleaving of all the sources. */
  lemma MergeCompletes<T(!new)>(sources: seq<seq<T>>, ends: seq<bool>, cap: nat, steps: seq<Step<T>>)
    requires |sources| == |ends| && forall i :: 0 <= i < |ends| ==> ends[i]
    requires Runs(Begin(sources, ends, cap), steps)
    ensures |steps| <= Work(Begin(sources, ends, cap))
    ensures var s := Run(Begin(sources, ends, cap), steps);
            (forall st :: !Possible(s, st)) ==>
              && s.merger.closed && |s.merger.tags| == |s.merger.delivered|
              && forall i :: 0 <= i < |sources| ==> Project(s.merger.delivered, s.merger.tags, i) == sources[i]
  {
    var s0 := Begin(sources, ends, cap);
    RunLength(s0, steps);
    MergeCorrect(sources, ends, cap, steps);
    StartInv<T>(|sources|, cap);
    assert forall i :: 0 <= i < |sources| ==> sources[i] == [] + s0.todo[i];
    RunInv(sources, ends, s0, steps);
    var s := Run(s0, steps);
    if forall st :: !Possible(s, st) {
      if !Done(s) {
        NotStuck(sources, ends, s);
      }
      assert s.merger.delivered + s.merger.buf == s.merger.delivered;
    }
  }
}
