/** Queues of HTTP jobs by priority, with one request in flight: what every run keeps. */
module JobQueues {

  datatype Request = Request(target: string, verb: nat, context: string)

  datatype Job = Job(request: Request, retryTimes: int)

  /** `inFlight` are the requests sent and not yet answered. */
  datatype State = State(queues: seq<seq<Job>>, current: int, inFlight: seq<Request>)

  datatype Event =
    | Add(category: nat, job: Job)
    | Respond(ok: bool)
    | Fail

  function Total<T>(qs: seq<seq<T>>): nat {
    if qs == [] then 0 else |qs[0]| + Total(qs[1..])
  }

  /** The first queue with a job, or the number of queues. */
  function First<T>(qs: seq<seq<T>>): (k: nat)
    ensures k <= |qs| && forall j :: 0 <= j < k ==> qs[j] == []
    ensures k < |qs| ==> qs[k] != []
  {
    if qs == [] || qs[0] != [] then 0 else 1 + First(qs[1..])
  }

  // ---- Steps ----

  function SendNext(s: State): State {
    var k := First(s.queues);
    if k == |s.queues| then s else s.(current := k, inFlight := s.inFlight + [s.queues[k][0].request])
  }

  function Append(s: State, category: nat, job: Job): State {
    if category < |s.queues| then s.(queues := s.queues[category := s.queues[category] + [job]]) else s
  }

  /** A job goes to the end of its queue, and is sent if it is the only one. */
  function OnAdd(s: State, category: nat, job: Job): State {
    var t := Append(s, category, job);
    if Total(t.queues) == 1 then SendNext(t) else t
  }

  /** The queue with its front job done, or tried once more. */
  function Answered(q: seq<Job>, ok: bool): seq<Job>
    requires q != []
  {
    if ok || q[0].retryTimes <= 0 then q[1..]
    else [q[0].(retryTimes := q[0].retryTimes - 1)] + q[1..]
  }

  predicate HasCurrent(s: State) {
    0 <= s.current < |s.queues| && s.queues[s.current] != []
  }

  function OnRespond(s: State, ok: bool): State
    requires HasCurrent(s) && s.inFlight != []
  {
    SendNext(s.(queues := s.queues[s.current := Answered(s.queues[s.current], ok)], inFlight := s.inFlight[1..]))
  }

  function OnFail(s: State): State
    requires s.inFlight != []
  {
    SendNext(s.(inFlight := s.inFlight[1..]))
  }

  /** An answer needs a request to answer. */
  predicate Enabled(s: State, e: Event) {
    e.Add? || (s.inFlight != [] && HasCurrent(s))
  }

  function Step(s: State, e: Event): State
    requires Enabled(s, e)
  {
    match e
    case Add(category, job) => OnAdd(s, category, job)
    case Respond(ok) => OnRespond(s, ok)
    case Fail => OnFail(s)
  }

  function Start(n: nat): State {
    State(seq(n, _ => []), -1, [])
  }

  // ---- One request in flight ----

  /** One request is in flight exactly if there is a job, and it is the one at the front
      of the current queue. */
  predicate Steady(s: State) {
    if Total(s.queues) == 0 then s.inFlight == []
    else HasCurrent(s) && s.inFlight == [s.queues[s.current][0].request]
  }

  lemma {:induction false} TotalUpdate<T>(qs: seq<seq<T>>, k: nat, q: seq<T>)
    requires k < |qs|
    ensures Total(qs[k := q]) == Total(qs) - |qs[k]| + |q|
  {
    if k == 0 {
      assert qs[k := q][1..] == qs[1..];
    } else {
      assert qs[k := q][1..] == qs[1..][k - 1 := q];
      TotalUpdate(qs[1..], k - 1, q);
    }
  }

  lemma {:induction false} TotalZero<T>(qs: seq<seq<T>>)
    ensures Total(qs) == 0 <==> First(qs) == |qs|
    ensures forall k :: 0 <= k < |qs| ==> |qs[k]| <= Total(qs)
  {
    if qs != [] { TotalZero(qs[1..]); }
  }

  lemma SendIsSteady(s: State)
    requires s.inFlight == []
    ensures Steady(SendNext(s))
    ensures forall j :: 0 <= j < SendNext(s).current < |s.queues| && Total(s.queues) > 0 ==> s.queues[j] == []
  {
    TotalZero(s.queues);
  }

  /** Adding a job keeps one request in flight, unless the category is none of the
      queues' while a single job is waiting: that one is then sent a second time. */
  lemma AddKeepsSteadyExactly(s: State, category: nat, job: Job)
    requires Steady(s)
    ensures Steady(OnAdd(s, category, job)) <==> category < |s.queues| || Total(s.queues) != 1
    ensures category < |s.queues| && Total(s.queues) > 0 ==>
      OnAdd(s, category, job).inFlight == s.inFlight && OnAdd(s, category, job).current == s.current
  {
    TotalZero(s.queues);
    if category < |s.queues| {
      TotalUpdate(s.queues, category, s.queues[category] + [job]);
      var t := Append(s, category, job);
      if Total(t.queues) == 1 { SendIsSteady(t); }
    }
  }

  lemma AnswersKeepSteady(s: State, e: Event)
    requires Steady(s) && Enabled(s, e) && !e.Add?
    ensures Steady(Step(s, e))
    ensures forall j :: 0 <= j < Step(s, e).current && Total(Step(s, e).queues) > 0 ==> Step(s, e).queues[j] == []
  {
    assert s.inFlight[1..] == [];
    if e.Fail? {
      SendIsSteady(s.(inFlight := []));
    } else {
      SendIsSteady(s.(queues := s.queues[s.current := Answered(s.queues[s.current], e.ok)], inFlight := []));
    }
  }

  // ---- Runs ----

  predicate IsRun(s: State, events: seq<Event>)
    decreases |events|
  {
    events == [] || (Enabled(s, events[0]) && IsRun(Step(s, events[0]), events[1..]))
  }

  function Run(s: State, events: seq<Event>): State
    requires IsRun(s, events)
    decreases |events|
  {
    if events == [] then s else Run(Step(s, events[0]), events[1..])
  }

  /** All jobs are of the categories there are queues for. */
  ghost predicate Categorised(n: nat, events: seq<Event>) {
    forall e :: e in events && e.Add? ==> e.category < n
  }

  lemma StepKeepsQueues(s: State, e: Event)
    requires Enabled(s, e)
    ensures |Step(s, e).queues| == |s.queues|
  {
  }

  lemma {:induction false} RunsAreSteady(s: State, events: seq<Event>)
    requires Steady(s) && IsRun(s, events) && Categorised(|s.queues|, events)
    ensures Steady(Run(s, events)) && |Run(s, events).queues| == |s.queues|
    decreases |events|
  {
    if events != [] {
      var e := events[0];
      assert e in events && forall x :: x in events[1..] ==> x in events;
      if e.Add? { AddKeepsSteadyExactly(s, e.category, e.job); } else { AnswersKeepSteady(s, e); }
      StepKeepsQueues(s, e);
      RunsAreSteady(Step(s, e), events[1..]);
    }
  }

  lemma {:induction false} NothingInNothing(n: nat)
    ensures Total(Start(n).queues) == 0 && Steady(Start(n))
  {
    TotalZero(Start(n).queues);
  }

  /** So it is in every run from the start: one request is in flight exactly if there is a job. */
  lemma RunsFromStartAreSteady(n: nat, events: seq<Event>)
    requires IsRun(Start(n), events) && Categorised(n, events)
    ensures Steady(Run(Start(n), events))
    ensures Run(Start(n), events).inFlight == [] <==> Total(Run(Start(n), events).queues) == 0
  {
    NothingInNothing(n);
    RunsAreSteady(Start(n), events);
  }

  // ---- Conservation ----

  function Requests(q: seq<Job>): (rs: seq<Request>)
    ensures |rs| == |q| && forall i :: 0 <= i < |q| ==> rs[i] == q[i].request
  {
    seq(|q|, i requires 0 <= i < |q| => q[i].request)
  }

  /** What is added to queue `c` in the events, in order. */
  function Added(events: seq<Event>, c: nat): seq<Request> {
    if events == [] then []
    else (if events[0].Add? && events[0].category == c then [events[0].job.request] else []) + Added(events[1..], c)
  }

  /** What a step removes from queue `c`: the front of the current queue if its request
      was answered and is not to be tried again. */
  function RemovedAt(s: State, e: Event, c: nat): seq<Request>
    requires Enabled(s, e)
  {
    if e.Respond? && s.current == c && (e.ok || s.queues[c][0].retryTimes <= 0) then [s.queues[c][0].request] else []
  }

  function Removed(s: State, events: seq<Event>, c: nat): seq<Request>
    requires IsRun(s, events)
    decreases |events|
  {
    if events == [] then [] else RemovedAt(s, events[0], c) + Removed(Step(s, events[0]), events[1..], c)
  }

  lemma AnsweredConserves(q: seq<Job>, ok: bool)
    requires q != []
    ensures Requests(q) == (if ok || q[0].retryTimes <= 0 then [q[0].request] else []) + Requests(Answered(q, ok))
  {
  }

  lemma AddedOne(e: Event, c: nat)
    ensures Added([e], c) == if e.Add? && e.category == c then [e.job.request] else []
  {
    assert [e][1..] == [];
  }

  lemma QueueAfter(s: State, e: Event, c: nat)
    requires Enabled(s, e) && c < |s.queues|
    ensures c < |Step(s, e).queues|
    ensures Step(s, e).queues[c] ==
      if e.Add? && e.category == c then s.queues[c] + [e.job]
      else if e.Respond? && s.current == c then Answered(s.queues[c], e.ok)
      else s.queues[c]
  {
  }

  lemma StepConserves(s: State, e: Event, c: nat)
    requires Enabled(s, e) && c < |s.queues|
    ensures c < |Step(s, e).queues|
    ensures Requests(s.queues[c]) + Added([e], c) == RemovedAt(s, e, c) + Requests(Step(s, e).queues[c])
  {
    AddedOne(e, c);
    QueueAfter(s, e, c);
    if e.Respond? && s.current == c { AnsweredConserves(s.queues[c], e.ok); }
  }

  /** Every job is either still in its queue or was removed once, in the order in which
      the jobs of its category were added. */
  lemma {:induction false} JobsAreConserved(s: State, events: seq<Event>, c: nat)
    requires IsRun(s, events) && c < |s.queues|
    ensures c < |Run(s, events).queues|
    ensures Requests(s.queues[c]) + Added(events, c) == Removed(s, events, c) + Requests(Run(s, events).queues[c])
    decreases |events|
  {
    if events == [] {
      assert Requests(s.queues[c]) + [] == [] + Requests(s.queues[c]);
    } else {
      var e, rest := events[0], events[1..];
      StepConserves(s, e, c);
      JobsAreConserved(Step(s, e), rest, c);
      assert [e][1..] == [];
      assert Added([e], c) + Added(rest, c) == Added(events, c);
      Shuffle(Requests(s.queues[c]), Added([e], c), Added(rest, c), RemovedAt(s, e, c),
              Requests(Step(s, e).queues[c]), Removed(Step(s, e), rest, c), Requests(Run(s, events).queues[c]));
    }
  }

  lemma Shuffle(q: seq<Request>, a: seq<Request>, b: seq<Request>, r: seq<Request>, p: seq<Request>,
                t: seq<Request>, z: seq<Request>)
    requires q + a == r + p && p + b == t + z
    ensures q + (a + b) == r + t + z
  {
    assert q + (a + b) == q + a + b == r + p + b == r + (p + b) == r + (t + z);
  }

  // ---- Retries end ----

  function Tries(q: seq<Job>): nat {
    if q == [] then 0 else 1 + (if q[0].retryTimes > 0 then q[0].retryTimes else 0) + Tries(q[1..])
  }

  /** How many answers it takes at most until there is nothing left to send. */
  function Budget(qs: seq<seq<Job>>): nat {
    if qs == [] then 0 else Tries(qs[0]) + Budget(qs[1..])
  }

  lemma {:induction false} BudgetUpdate(qs: seq<seq<Job>>, k: nat, q: seq<Job>)
    requires k < |qs|
    ensures Budget(qs[k := q]) == Budget(qs) - Tries(qs[k]) + Tries(q)
  {
    if k == 0 {
      assert qs[k := q][1..] == qs[1..];
    } else {
      assert qs[k := q][1..] == qs[1..][k - 1 := q];
      BudgetUpdate(qs[1..], k - 1, q);
    }
  }

  lemma AnswerSpends(s: State, ok: bool)
    requires Enabled(s, Respond(ok))
    ensures Budget(OnRespond(s, ok).queues) ==
      Budget(s.queues) - if ok then Tries(s.queues[s.current][..1]) else 1
    ensures Tries(s.queues[s.current][..1]) >= 1
  {
    var q := s.queues[s.current];
    var a := Answered(q, ok);
    if ok || q[0].retryTimes <= 0 { assert a == q[1..]; } else { assert a[1..] == q[1..]; }
    assert q[..1][1..] == [] && q[..1][0] == q[0];
    BudgetUpdate(s.queues, s.current, a);
  }

  /** A failure changes no job; an answer changes none but the one in front of the current queue. */
  lemma OtherJobsStay(s: State, e: Event, c: nat)
    requires Enabled(s, e) && !e.Add? && c < |s.queues|
    ensures e.Fail? || c != s.current ==> Step(s, e).queues[c] == s.queues[c]
    ensures e.Respond? && c == s.current ==>
      var q, p := s.queues[c], Step(s, e).queues[c];
      if e.ok || q[0].retryTimes <= 0 then p == q[1..]
      else |p| == |q| && p[0] == Job(q[0].request, q[0].retryTimes - 1) && p[1..] == q[1..]
  {
    QueueAfter(s, e, c);
  }

  function Answers(events: seq<Event>): nat {
    if events == [] then 0 else (if events[0].Respond? then 1 else 0) + Answers(events[1..])
  }

  /** If every answer is bad, there is one for each try the jobs had: a job is tried once
      and then as often again as it says, requests that fail not being counted. */
  lemma {:induction false} BadAnswersUseUpTries(s: State, events: seq<Event>)
    requires IsRun(s, events) && forall e :: e in events ==> e == Respond(false) || e == Fail
    ensures Answers(events) + Budget(Run(s, events).queues) == Budget(s.queues)
    decreases |events|
  {
    if events != [] {
      assert events[0] in events && forall x :: x in events[1..] ==> x in events;
      if events[0].Respond? { AnswerSpends(s, false); }
      BadAnswersUseUpTries(Step(s, events[0]), events[1..]);
    }
  }

  /** If nothing is added and every request is answered, well or badly, there are no more
      answers than the jobs have tries, and once no answer is due no job is left. */
  lemma {:induction false} AnswersRunOut(s: State, events: seq<Event>)
    requires Steady(s) && IsRun(s, events) && forall e :: e in events ==> e.Respond?
    ensures |events| <= Budget(s.queues)
    ensures Run(s, events).inFlight == [] ==> Total(Run(s, events).queues) == 0
    decreases |events|
  {
    assert Categorised(|s.queues|, events);
    RunsAreSteady(s, events);
    if events != [] {
      var e := events[0];
      assert e in events && forall x :: x in events[1..] ==> x in events;
      AnswerSpends(s, e.ok);
      AnswersKeepSteady(s, e);
      AnswersRunOut(Step(s, e), events[1..]);
    }
  }
}
