/** How much is in flight, each message being weighed by some measure. */
module Loads {
  import opened Routes
  import opened RouterSpec

  type Measure = Message -> nat

  function Weight(q: seq<Message>, f: Measure): nat {
    if q == [] then 0 else f(q[0]) + Weight(q[1..], f)
  }

  ghost function Load(S: set<ConnId>, q: Queues, f: Measure): nat {
    if S == {} then 0
    else
      var c :| c in S;
      Weight(QueueOf(q, c), f) + Load(S - {c}, q, f)
  }

  lemma {:induction false} LoadSplits(S: set<ConnId>, q: Queues, f: Measure, c: ConnId)
    requires c in S
    ensures Load(S, q, f) == Weight(QueueOf(q, c), f) + Load(S - {c}, q, f)
  {
    var b :| b in S && Load(S, q, f) == Weight(QueueOf(q, b), f) + Load(S - {b}, q, f);
    if b != c {
      LoadSplits(S - {b}, q, f, c);
      LoadSplits(S - {c}, q, f, b);
      assert S - {b} - {c} == S - {c} - {b};
    }
  }

  /** Only the weight of each queue matters. */
  lemma {:induction false} LoadLocal(S: set<ConnId>, q: Queues, q': Queues, f: Measure)
    requires forall c :: c in S ==> Weight(QueueOf(q, c), f) == Weight(QueueOf(q', c), f)
    ensures Load(S, q, f) == Load(S, q', f)
  {
    if S != {} {
      var c :| c in S;
      LoadSplits(S, q, f, c);
      LoadSplits(S, q', f, c);
      LoadLocal(S - {c}, q, q', f);
    }
  }

  lemma LoadChange(S: set<ConnId>, q: Queues, q': Queues, f: Measure, c: ConnId)
    requires c in S && forall x :: x in S && x != c ==> QueueOf(q, x) == QueueOf(q', x)
    ensures Load(S, q', f) == Load(S, q, f) - Weight(QueueOf(q, c), f) + Weight(QueueOf(q', c), f)
  {
    LoadSplits(S, q, f, c);
    LoadSplits(S, q', f, c);
    LoadLocal(S - {c}, q, q', f);
  }

  lemma {:induction false} WeightAppend(q: seq<Message>, f: Measure, m: Message)
    ensures Weight(q + [m], f) == Weight(q, f) + f(m)
  {
    if q == [] {
      assert [m][1..] == [];
    } else {
      assert (q + [m])[1..] == q[1..] + [m];
      WeightAppend(q[1..], f, m);
    }
  }

  /** Taking the head off queue `c`. */
  lemma PopLightens(S: set<ConnId>, q: Queues, f: Measure, c: ConnId)
    requires c in S && QueueOf(q, c) != []
    ensures Load(S, q[c := QueueOf(q, c)[1..]], f) == Load(S, q, f) - f(QueueOf(q, c)[0])
  {
    LoadChange(S, q, q[c := QueueOf(q, c)[1..]], f, c);
  }

  /** Sending one message makes the load heavier by its weight. */
  lemma SendLoads(S: set<ConnId>, q: Queues, f: Measure, x: ConnId, m: Message)
    requires x in S
    ensures Load(S, Push(q, map[x := m]), f) == Load(S, q, f) + f(m)
  {
    var p := Push(q, map[x := m]);
    forall y | y in S ensures QueueOf(p, y) == if y == x then QueueOf(q, x) + [m] else QueueOf(q, y) {
      PushedQueue(q, map[x := m], y);
    }
    WeightAppend(QueueOf(q, x), f, m);
    LoadChange(S, q, p, f, x);
  }

  /** Messages that weigh nothing load nothing. */
  lemma WeightlessLoads(S: set<ConnId>, q: Queues, f: Measure, out: Outbox)
    requires forall c :: c in out ==> f(out[c]) == 0
    ensures Load(S, Push(q, out), f) == Load(S, q, f)
  {
    forall c | c in S ensures Weight(QueueOf(Push(q, out), c), f) == Weight(QueueOf(q, c), f) {
      PushedQueue(q, out, c);
      if c in out {
        WeightAppend(QueueOf(q, c), f, out[c]);
      } else {
        assert QueueOf(q, c) + [] == QueueOf(q, c);
      }
    }
    LoadLocal(S, Push(q, out), q, f);
  }

  /** Whatever the measure, empty queues are no load. */
  lemma EmptyLoad(S: set<ConnId>, q: Queues, f: Measure)
    requires forall c :: c in S ==> QueueOf(q, c) == []
    ensures Load(S, q, f) == 0
  {
  }
}
