/** The scanner inverts the writer: which buffers it accepts, which make it raise an
    error, and what it has handed over by then. */
module ScannerTheorems {
  import opened Codec
  import opened Messages
  import opened Grammars
  import opened Scanner

  /** The messages handed over: all of them, or those up to the first one refused. */
  ghost function Handled(log: seq<Message>, ms: seq<Message>, verdict: Verdict): seq<Message>
    decreases |ms|
  {
    if ms == [] then []
    else if verdict(log, ms[0]) then [ms[0]] + Handled(log + [ms[0]], ms[1..], verdict)
    else [ms[0]]
  }

  lemma {:induction false} AcceptedAreHandled(log: seq<Message>, ms: seq<Message>, verdict: Verdict)
    requires Accepted(log, ms, verdict)
    ensures Handled(log, ms, verdict) == ms
    decreases |ms|
  {
    if ms != [] {
      AcceptedCons(log, ms, verdict);
      AcceptedAreHandled(log + [ms[0]], ms[1..], verdict);
    }
  }

  lemma MoreHandled(m: Message, log: seq<Message>, tail: seq<Message>, verdict: Verdict)
    requires verdict(log, m)
    ensures Accepted(log, [m] + tail, verdict) <==> Accepted(log + [m], tail, verdict)
    ensures Handled(log, [m] + tail, verdict) == [m] + Handled(log + [m], tail, verdict)
    ensures log + [m] + tail == log + ([m] + tail)
  {
    assert ([m] + tail)[1..] == tail;
    AcceptedCons(log, [m] + tail, verdict);
  }

  /** What a run comes to on the bytes of `ms` and then `rest`. */
  ghost function RunOver(g: Grammar, ms: seq<Message>, rest: seq<Byte>, log: seq<Message>,
                         verdict: Verdict): (Outcome, seq<Message>)
    requires g.Good()
  {
    if Accepted(log, ms, verdict) then Run(g, rest, log + ms, verdict)
    else (Returned(false), log + Handled(log, ms, verdict))
  }

  lemma RunOverCons(g: Grammar, m: Message, tail: seq<Message>, rest: seq<Byte>, log: seq<Message>, verdict: Verdict)
    requires g.Good()
    ensures RunOver(g, [m] + tail, rest, log, verdict) ==
      if verdict(log, m) then RunOver(g, tail, rest, log + [m], verdict) else (Returned(false), log + [m])
  {
    if verdict(log, m) {
      MoreHandled(m, log, tail, verdict);
      var h := Handled(log + [m], tail, verdict);
      assert log + ([m] + h) == log + [m] + h;
    } else {
      AcceptedCons(log, [m] + tail, verdict);
    }
  }

  /** Completeness, with more bytes to follow: written messages are handed over in
      order, up to the first refusal. */
  lemma {:induction false} WrittenIsHandled(g: Grammar, ms: seq<Message>, rest: seq<Byte>, log: seq<Message>,
                                            verdict: Verdict)
    requires g.Good() && AllLegal(g, ms)
    ensures Run(g, SerializeAll(g, ms) + rest, log, verdict) == RunOver(g, ms, rest, log, verdict)
    decreases |ms|
  {
    if ms == [] {
      assert SerializeAll(g, ms) + rest == rest && log + ms == log;
    } else {
      var m, tail := ms[0], ms[1..];
      assert m in ms && forall x :: x in tail ==> x in ms;
      var more := SerializeAll(g, tail) + rest;
      Regroup(Serialize(g, m), SerializeAll(g, tail), rest);
      RunMessage(g, m, more, log, verdict);
      WrittenIsHandled(g, tail, rest, log + [m], verdict);
      assert ms == [m] + tail;
      RunOverCons(g, m, tail, rest, log, verdict);
    }
  }

  /** Completeness: on the bytes of any messages legal for the flow, `process` hands
      over exactly those messages in order, up to the first one refused, and returns
      true exactly if none is. */
  lemma Completeness(g: Grammar, ms: seq<Message>, log: seq<Message>, verdict: Verdict)
    requires g.Good() && AllLegal(g, ms)
    ensures Run(g, SerializeAll(g, ms), log, verdict) ==
      (Returned(Accepted(log, ms, verdict)), log + Handled(log, ms, verdict))
  {
    assert SerializeAll(g, ms) + [] == SerializeAll(g, ms);
    WrittenIsHandled(g, ms, [], log, verdict);
    if Accepted(log, ms, verdict) { AcceptedAreHandled(log, ms, verdict); }
  }

  /** How a run over `s` that ends with `out` and `handled` comes about: messages
      `ms` were handed over, and `rest` is what follows them. */
  ghost predicate Explains(g: Grammar, s: seq<Byte>, log: seq<Message>, verdict: Verdict, out: Outcome,
                           handled: seq<Message>, ms: seq<Message>, rest: seq<Byte>) {
    && AllLegal(g, ms) && s == SerializeAll(g, ms) + rest
    && handled == log + ms
    && match out
       case Raised => Accepted(log, ms, verdict) && Next(g, rest).Short?
       case Returned(true) => Accepted(log, ms, verdict) && rest == []
       case Returned(false) =>
         || (Accepted(log, ms, verdict) && rest != [] && Next(g, rest).Stuck?)
         || (!Accepted(log, ms, verdict) && Handled(log, ms, verdict) == ms)
  }

  lemma MoreLegal(g: Grammar, m: Message, tail: seq<Message>)
    requires WellFormed(g, m) && g.legal(m.kind) && AllLegal(g, tail)
    ensures AllLegal(g, [m] + tail) && SerializeAll(g, [m] + tail) == Serialize(g, m) + SerializeAll(g, tail)
  {
    assert ([m] + tail)[1..] == tail;
  }

  lemma ExplainAccepted(g: Grammar, m: Message, s: seq<Byte>, log: seq<Message>, verdict: Verdict,
                        out: Outcome, handled: seq<Message>, tail: seq<Message>, rest: seq<Byte>)
    requires g.Good() && WellFormed(g, m) && g.legal(m.kind) && verdict(log, m)
    requires Explains(g, s, log + [m], verdict, out, handled, tail, rest)
    ensures Explains(g, Serialize(g, m) + s, log, verdict, out, handled, [m] + tail, rest)
  {
    MoreLegal(g, m, tail);
    MoreHandled(m, log, tail, verdict);
    Regroup(Serialize(g, m), SerializeAll(g, tail), rest);
  }

  lemma ExplainRefused(g: Grammar, m: Message, s: seq<Byte>, log: seq<Message>, verdict: Verdict)
    requires g.Good() && WellFormed(g, m) && g.legal(m.kind) && !verdict(log, m)
    ensures Explains(g, Serialize(g, m) + s, log, verdict, Returned(false), log + [m], [m], s)
  {
    AcceptedCons(log, [m], verdict);
    assert SerializeAll(g, [m]) == Serialize(g, m) + SerializeAll(g, [m][1..]);
  }

  lemma FrontMessage(g: Grammar, s: seq<Byte>) returns (m: Message, more: seq<Byte>)
    requires g.Good() && Next(g, s).Whole?
    ensures WellFormed(g, m) && g.legal(m.kind) && s == Serialize(g, m) + more && |more| < |s|
  {
    var t := Next(g, s);
    WholeTokenIsMessage(g, s);
    m, more := MessageIn(g, t.kind, s, t.length).value, s[t.length..];
  }

  lemma ExplainStop(g: Grammar, s: seq<Byte>, log: seq<Message>, verdict: Verdict)
    requires g.Good() && (s == [] || !Next(g, s).Whole?)
    ensures Explains(g, s, log, verdict, Run(g, s, log, verdict).0, Run(g, s, log, verdict).1, [], s)
  {
    assert SerializeAll(g, []) + s == s && log + [] == log;
  }

  /** Soundness: whatever the buffer, what was handed over are well-formed messages
      legal for the flow whose bytes are the beginning of the buffer.  If the result
      is true they are all of it and all were accepted; if an error was raised, the
      next message promises more bytes than there are; if the result is false, the
      last message was refused or what follows is no whole message. */
  lemma {:induction false} Soundness(g: Grammar, s: seq<Byte>, log: seq<Message>, verdict: Verdict)
    returns (ms: seq<Message>, rest: seq<Byte>)
    requires g.Good()
    ensures Explains(g, s, log, verdict, Run(g, s, log, verdict).0, Run(g, s, log, verdict).1, ms, rest)
    decreases |s|
  {
    if s == [] || !Next(g, s).Whole? {
      ExplainStop(g, s, log, verdict);
      return [], s;
    }
    var m, more := FrontMessage(g, s);
    RunMessage(g, m, more, log, verdict);
    if verdict(log, m) {
      var tail;
      tail, rest := Soundness(g, more, log + [m], verdict);
      var (out, handled) := Run(g, more, log + [m], verdict);
      ExplainAccepted(g, m, more, log, verdict, out, handled, tail, rest);
      ms := [m] + tail;
    } else {
      ExplainRefused(g, m, more, log, verdict);
      ms, rest := [m], more;
    }
  }

  /** `process` returns true exactly on the buffers that are the bytes of messages
      legal for the flow, none of them refused. */
  lemma AcceptsExactlyTheWritten(g: Grammar, s: seq<Byte>, log: seq<Message>, verdict: Verdict)
    requires g.Good()
    ensures Run(g, s, log, verdict).0 == Returned(true) <==>
      exists ms :: AllLegal(g, ms) && s == SerializeAll(g, ms) && Accepted(log, ms, verdict)
  {
    if Run(g, s, log, verdict).0 == Returned(true) {
      var ms, rest := Soundness(g, s, log, verdict);
      assert SerializeAll(g, ms) + [] == SerializeAll(g, ms);
    }
    if ms :| AllLegal(g, ms) && s == SerializeAll(g, ms) && Accepted(log, ms, verdict) {
      Completeness(g, ms, log, verdict);
    }
  }

  /** The grammar accepts an empty rest after a count only where the count is zero,
      but the automaton does not check it: `process` raises the codec's error exactly
      when, after accepted messages, a count promises more bytes than there are. */
  lemma RaisesExactlyOnOverlongCounts(g: Grammar, s: seq<Byte>, log: seq<Message>, verdict: Verdict)
    requires g.Good()
    ensures Run(g, s, log, verdict).0 == Raised <==>
      exists ms, rest ::
        AllLegal(g, ms) && s == SerializeAll(g, ms) + rest && Accepted(log, ms, verdict) && Next(g, rest).Short?
  {
    if Run(g, s, log, verdict).0 == Raised {
      var ms, rest := Soundness(g, s, log, verdict);
    }
    if ms, rest :|
      AllLegal(g, ms) && s == SerializeAll(g, ms) + rest && Accepted(log, ms, verdict) && Next(g, rest).Short? {
      WrittenIsHandled(g, ms, rest, log, verdict);
      NothingStartsEmpty(g);
    }
  }

  lemma NothingStartsEmpty(g: Grammar)
    requires g.Good()
    ensures Next(g, []) == Stuck
  {
    forall k ensures !Starts(g, [], k) { assert |g.tag(k)| > 0; }
  }

  /** A buffer is the bytes of at most one list of messages. */
  lemma UniquelyDecodable(g: Grammar, ms: seq<Message>, ns: seq<Message>)
    requires g.Good() && AllLegal(g, ms) && AllLegal(g, ns) && SerializeAll(g, ms) == SerializeAll(g, ns)
    ensures ms == ns
  {
    var yes: Verdict := (log, m) => true;
    Completeness(g, ms, [], yes);
    Completeness(g, ns, [], yes);
    AcceptedAreHandled([], ms, yes);
    AcceptedAreHandled([], ns, yes);
    assert [] + ms == ms && [] + ns == ns;
  }

  /** A message cut short before the end of its count is not recognised.  The grammar
      takes an empty payload only where the count is zero, but the automaton does not
      check that, so one cut after its count raises the codec's error instead. */
  lemma CutShort(g: Grammar, m: Message, n: nat, log: seq<Message>, verdict: Verdict)
    requires g.Good() && WellFormed(g, m) && g.legal(m.kind) && 0 < n < |Serialize(g, m)|
    ensures Run(g, Serialize(g, m)[..n], log, verdict) ==
      (if n < HeadBytes(g, m.kind) then Returned(false) else Raised, log)
  {
    var k, s, t := m.kind, Serialize(g, m), Serialize(g, m)[..n];
    if n < |g.tag(k)| {
      forall j ensures !Starts(g, t, j) { assert g.tag(j) <= t ==> g.tag(j) <= g.tag(k); }
    } else {
      assert t[..|g.tag(k)|] == g.tag(k);
      NextFor(g, t, k);
      SerializedLength(g, m, []);
      if HeadBytes(g, k) <= n { SameCount(g, k, s + [], t); }
    }
  }

  lemma SameCount(g: Grammar, k: Kind, s: seq<Byte>, t: seq<Byte>)
    requires HeadBytes(g, k) <= |t| && t <= s
    ensures CountIn(g, k, s) == CountIn(g, k, t)
  {
    assert s[|g.tag(k)| + g.fixed(k)..HeadBytes(g, k)] == t[|g.tag(k)| + g.fixed(k)..HeadBytes(g, k)];
  }
}
