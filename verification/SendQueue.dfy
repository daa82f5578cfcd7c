/** The queue of messages to send and the coroutines that write them: why a link
    delivers what is sent over it, once each and in order. */
module SendQueue {

  /** A coroutine before its first check of the queue, or suspended in a write. */
  datatype Writer<T> = Spawned | Writing(message: T)

  datatype State<T> = State(queue: seq<T>, writers: seq<Writer<T>>, wire: seq<T>)

  datatype Event<T> = Send(message: T) | Resume(writer: nat)

  // ---- Steps ----

  function OnSend<T>(s: State<T>, message: T): State<T> {
    s.(queue := s.queue + [message], writers := if s.queue == [] then s.writers + [Spawned] else s.writers)
  }

  /** Writer `i` checks the queue: it starts on the first message, or ends. */
  function Check<T>(s: State<T>, i: nat): State<T>
    requires i < |s.writers|
  {
    s.(writers := if s.queue == [] then s.writers[..i] + s.writers[i + 1..] else s.writers[i := Writing(s.queue[0])])
  }

  /** A write that is done takes the first message off the queue. */
  function OnResume<T>(s: State<T>, i: nat): State<T>
    requires Enabled(s, Resume(i))
  {
    match s.writers[i]
    case Spawned => Check(s, i)
    case Writing(message) => Check(s.(wire := s.wire + [message], queue := s.queue[1..]), i)
  }

  predicate Enabled<T>(s: State<T>, e: Event<T>) {
    e.Resume? ==> e.writer < |s.writers| && (s.writers[e.writer].Writing? ==> s.queue != [])
  }

  function Step<T>(s: State<T>, e: Event<T>): State<T>
    requires Enabled(s, e)
  {
    match e
    case Send(message) => OnSend(s, message)
    case Resume(i) => OnResume(s, i)
  }

  // ---- One writer ----

  /** There is a writer exactly if there is something to send, only one, and what it
      writes is the first in the queue. */
  ghost predicate Single<T>(s: State<T>) {
    if s.queue == [] then s.writers == []
    else s.writers == [Spawned] || s.writers == [Writing(s.queue[0])]
  }

  predicate IsRun<T>(s: State<T>, events: seq<Event<T>>)
    decreases |events|
  {
    events == [] || (Enabled(s, events[0]) && IsRun(Step(s, events[0]), events[1..]))
  }

  function Run<T>(s: State<T>, events: seq<Event<T>>): State<T>
    requires IsRun(s, events)
    decreases |events|
  {
    if events == [] then s else Run(Step(s, events[0]), events[1..])
  }

  function Sent<T>(events: seq<Event<T>>): seq<T> {
    if events == [] then []
    else (if events[0].Send? then [events[0].message] else []) + Sent(events[1..])
  }

  lemma StepKeepsSingle<T>(s: State<T>, e: Event<T>)
    requires Single(s) && Enabled(s, e)
    ensures Single(Step(s, e))
    ensures Step(s, e).wire + Step(s, e).queue == s.wire + s.queue + if e.Send? then [e.message] else []
  {
    if e.Resume? && s.writers[e.writer].Writing? {
      assert s.queue == [s.queue[0]] + s.queue[1..];
      assert s.wire + [s.queue[0]] + s.queue[1..] == s.wire + s.queue;
    }
  }

  /** However sends and writes interleave: what was written is a beginning of what was
      sent, in that order and once each, and the queue is the rest. */
  lemma {:induction false} WrittenInOrder<T>(s: State<T>, events: seq<Event<T>>)
    requires Single(s) && IsRun(s, events)
    ensures Single(Run(s, events))
    ensures Run(s, events).wire + Run(s, events).queue == s.wire + s.queue + Sent(events)
    decreases |events|
  {
    if events == [] {
      assert s.wire + s.queue + [] == s.wire + s.queue;
    } else {
      var e, rest := events[0], events[1..];
      StepKeepsSingle(s, e);
      WrittenInOrder(Step(s, e), rest);
      var now := if e.Send? then [e.message] else [];
      assert s.wire + s.queue + now + Sent(rest) == s.wire + s.queue + (now + Sent(rest));
    }
  }

  // ---- Everything is written ----

  /** What is left for the writer to do. */
  function Left<T>(s: State<T>): nat {
    |s.queue| + if s.writers != [] && s.writers[0].Spawned? then 1 else 0
  }

  /** Once nothing more is sent, a run of the writer has exactly as many steps as are
      left, and then all is written. */
  lemma {:induction false} WritingEnds<T>(s: State<T>, events: seq<Event<T>>)
    requires Single(s) && IsRun(s, events) && Sent(events) == [] && (forall e :: e in events ==> e.Resume?)
    ensures |events| + Left(Run(s, events)) == Left(s)
    ensures Left(Run(s, events)) == 0 <==> Run(s, events).writers == []
    ensures Run(s, events).writers == [] ==> Run(s, events).wire == s.wire + s.queue
    decreases |events|
  {
    WrittenInOrder(s, events);
    if events != [] {
      var e, rest := events[0], events[1..];
      assert e in events && forall x :: x in rest ==> x in events;
      StepKeepsSingle(s, e);
      StepSpends(s, e);
      WritingEnds(Step(s, e), rest);
    }
  }

  lemma StepSpends<T>(s: State<T>, e: Event<T>)
    requires Single(s) && Enabled(s, e) && e.Resume?
    ensures Left(Step(s, e)) == Left(s) - 1
  {
  }
}

/** The connection that keeps such a queue. */
module Connections {
  import opened SendQueue

  class Connection<T> {
    var messageQueue: seq<T>
    var writers: seq<Writer<T>>
    /** What went out. */
    ghost var wire: seq<T>

    ghost function Now(): State<T>
      reads this
    {
      State(messageQueue, writers, wire)
    }

    constructor ()
      ensures Now() == State([], [], []) && Single(Now())
    {
      messageQueue, writers, wire := [], [], [];
    }

    method Send(message: T) returns (ok: bool)
      modifies this
      ensures ok && Now() == OnSend(old(Now()), message)
    {
      messageQueue := messageQueue + [message];
      if |messageQueue| == 1 { writers := writers + [Spawned]; }
      ok := true;
    }

    /** A writer goes on, up to its next write or its end. */
    method Resume(i: nat)
      requires Enabled(Now(), Event.Resume(i))
      modifies this
      ensures Now() == OnResume(old(Now()), i)
    {
      if writers[i].Writing? {
        wire := wire + [writers[i].message];
        messageQueue := messageQueue[1..];
      }
      if messageQueue == [] {
        writers := writers[..i] + writers[i + 1..];
      } else {
        writers := writers[i := Writing(messageQueue[0])];
      }
    }
  }
}
