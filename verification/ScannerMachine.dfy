/** The automaton, byte by byte, and the handler it feeds. */
module ScannerMachine {
  import opened Codec
  import opened Messages
  import opened Grammars
  import opened FieldIO
  import opened Scanner

  /** Greetings are answered locally; everything else goes on to the server. */
  predicate IsGreeting(k: Kind) {
    k == Hello || k == HelloBack
  }

  /** What has been sent on after `ms` were handled: what was accepted but greetings. */
  ghost function Forwarded(g: Grammar, verdict: Verdict, ms: seq<Message>): seq<seq<Byte>>
    requires forall m :: m in ms ==> WellFormed(g, m)
  {
    if ms == [] then []
    else
      var n := |ms| - 1;
      Forwarded(g, verdict, ms[..n]) +
      if IsGreeting(ms[n].kind) || !verdict(ms[..n], ms[n]) then [] else [Serialize(g, ms[n])]
  }

  function Joined(chunks: seq<seq<Byte>>): seq<Byte> {
    if chunks == [] then [] else Joined(chunks[..|chunks| - 1]) + chunks[|chunks| - 1]
  }

  lemma {:induction false} SerializeAllGrows(g: Grammar, ms: seq<Message>, m: Message)
    requires AllLegal(g, ms + [m])
    ensures AllLegal(g, ms) && SerializeAll(g, ms + [m]) == SerializeAll(g, ms) + Serialize(g, m)
  {
    assert forall x :: x in ms ==> x in ms + [m];
    if ms == [] {
      assert SerializeAll(g, [m]) == Serialize(g, m) + SerializeAll(g, [m][1..]);
    } else {
      assert (ms + [m])[1..] == ms[1..] + [m];
      assert forall x :: x in ms[1..] + [m] ==> x in ms + [m];
      SerializeAllGrows(g, ms[1..], m);
      Regroup(Serialize(g, ms[0]), SerializeAll(g, ms[1..]), Serialize(g, m));
    }
  }

  /** The indices of `at` ascend, and are exactly those of the accepted messages but greetings. */
  ghost predicate PassesOn(verdict: Verdict, ms: seq<Message>, at: seq<nat>) {
    && (forall i, j :: 0 <= i < j < |at| ==> at[i] < at[j])
    && (forall i :: i in at <==>
          0 <= i < |ms| && ms[i].kind != Hello && ms[i].kind != HelloBack && verdict(ms[..i], ms[i]))
  }

  lemma PassesOnMore(verdict: Verdict, ms: seq<Message>, at: seq<nat>)
    requires ms != [] && PassesOn(verdict, ms[..|ms| - 1], at)
    ensures
      var n := |ms| - 1;
      PassesOn(verdict, ms, at + if IsGreeting(ms[n].kind) || !verdict(ms[..n], ms[n]) then [] else [n])
  {
    var n := |ms| - 1;
    forall i | 0 <= i < n ensures ms[..n][i] == ms[i] && ms[..n][..i] == ms[..i] {}
    assert forall k :: 0 <= k < |at| ==> at[k] in at;
  }

  /** The chunks are the messages at these indices as they are written. */
  ghost predicate WrittenAt(g: Grammar, ms: seq<Message>, at: seq<nat>, chunks: seq<seq<Byte>>)
    requires forall m :: m in ms ==> WellFormed(g, m)
  {
    |chunks| == |at| && forall k :: 0 <= k < |at| ==> at[k] < |ms| && chunks[k] == Serialize(g, ms[at[k]])
  }

  lemma WrittenAtMore(g: Grammar, ms: seq<Message>, at: seq<nat>, chunks: seq<seq<Byte>>)
    requires ms != [] && forall m :: m in ms ==> WellFormed(g, m)
    requires (forall m :: m in ms[..|ms| - 1] ==> WellFormed(g, m)) && WrittenAt(g, ms[..|ms| - 1], at, chunks)
    ensures
      var n := |ms| - 1;
      WrittenAt(g, ms, at, chunks) && WrittenAt(g, ms, at + [n], chunks + [Serialize(g, ms[n])])
  {
    forall k | 0 <= k < |at| ensures chunks[k] == Serialize(g, ms[at[k]]) {
      assert ms[..|ms| - 1][at[k]] == ms[at[k]];
    }
  }

  /** What has been sent on are the accepted messages, in order and chunk by chunk as they
      are written; greetings, and what was refused, are not among them. */
  lemma {:induction false} ForwardedAre(g: Grammar, verdict: Verdict, ms: seq<Message>) returns (at: seq<nat>)
    requires forall m :: m in ms ==> WellFormed(g, m)
    ensures PassesOn(verdict, ms, at) && WrittenAt(g, ms, at, Forwarded(g, verdict, ms))
  {
    if ms == [] { return []; }
    var n := |ms| - 1;
    assert forall m :: m in ms[..n] ==> m in ms;
    at := ForwardedAre(g, verdict, ms[..n]);
    PassesOnMore(verdict, ms, at);
    WrittenAtMore(g, ms, at, Forwarded(g, verdict, ms[..n]));
    if !IsGreeting(ms[n].kind) && verdict(ms[..n], ms[n]) {
      at := at + [n];
    } else {
      assert at + [] == at;
    }
  }

  lemma AcceptedBefore(ms: seq<Message>, verdict: Verdict)
    requires ms != [] && Accepted([], ms, verdict)
    ensures var n := |ms| - 1; verdict(ms[..n], ms[n]) && Accepted([], ms[..n], verdict)
  {
    var n := |ms| - 1;
    assert [] + ms[..n] == ms[..n];
    forall i | 0 <= i < n ensures verdict([] + ms[..n][..i], ms[..n][i]) { assert ms[..n][..i] == ms[..i]; }
  }

  /** If no message is a greeting or refused, what goes on to the server is byte for
      byte what came in. */
  lemma {:induction false} RelayIsTransparent(g: Grammar, verdict: Verdict, ms: seq<Message>)
    requires AllLegal(g, ms) && Accepted([], ms, verdict) && forall m :: m in ms ==> !IsGreeting(m.kind)
    ensures Joined(Forwarded(g, verdict, ms)) == SerializeAll(g, ms)
  {
    if ms != [] {
      var n := |ms| - 1;
      assert ms == ms[..n] + [ms[n]];
      SerializeAllGrows(g, ms[..n], ms[n]);
      AcceptedBefore(ms, verdict);
      assert forall m :: m in ms[..n] ==> m in ms;
      RelayIsTransparent(g, verdict, ms[..n]);
      var chunks := Forwarded(g, verdict, ms);
      assert chunks[..|chunks| - 1] == Forwarded(g, verdict, ms[..n]);
    }
  }

  class Handler {
    /** Whether the router, or the listeners of a greeting, accept a message, given
        everything handled before. */
    const g: Grammar
    const verdict: Verdict
    var log: seq<Message>
    var sent: seq<seq<Byte>>

    ghost predicate Valid()
      reads this
    {
      (forall m :: m in log ==> WellFormed(g, m)) && sent == Forwarded(g, verdict, log)
    }

    constructor (g: Grammar, verdict: Verdict)
      ensures Valid() && this.g == g && this.verdict == verdict && log == [] && sent == []
    {
      this.g, this.verdict := g, verdict;
      log, sent := [], [];
    }

    /** `operator()` */
    method Handle(m: Message) returns (ok: bool)
      requires Valid() && WellFormed(g, m)
      modifies this
      ensures Valid() && log == old(log) + [m] && ok == verdict(old(log), m)
      ensures sent == old(sent) + if ok && !IsGreeting(m.kind) then [Serialize(g, m)] else []
    {
      ok := verdict(log, m);
      if !IsGreeting(m.kind) {
        var buffer := WriteMessage(g, m);
        if ok { sent := sent + [buffer[..]]; }
      }
      log := log + [m];
      assert log[..|log| - 1] == old(log);
    }
  }

  /** Where the automaton is: before a tag, inside one, `seen` bytes into the fixed
      items or into a count, or in the final state after a tag or a count. */
  datatype Control =
    | Start
    | InTag
    | Fixed(kind: Kind, seen: nat)
    | Count(kind: Kind, seen: nat)
    | Final(kind: Kind)

  /** `q` is the tag of kind `k`. */
  predicate IsTagOf(g: Grammar, q: seq<Byte>, k: Kind) {
    g.legal(k) && q == g.tag(k)
  }

  predicate IsTag(g: Grammar, q: seq<Byte>) {
    exists k: Kind :: IsTagOf(g, q, k)
  }

  /** `q` is a proper beginning of a tag of the flow. */
  predicate IsTagStart(g: Grammar, q: seq<Byte>) {
    exists k: Kind :: g.legal(k) && q < g.tag(k)
  }

  /** Where a complete tag leads. */
  function AfterTag(g: Grammar, k: Kind): Control {
    if g.fixed(k) > 0 then Fixed(k, 0) else if g.unit(k) > 0 then Count(k, 0) else Final(k)
  }

  /** What the automaton knows in state `cs` at position `p`, the current token having
      begun at `ts` and its data at `data`. */
  ghost predicate At(g: Grammar, buf: seq<Byte>, ts: nat, data: nat, p: nat, dlen: nat, cs: Control) {
    && ts <= p <= |buf|
    && match cs
       case Start => ts == p
       case InTag => ts < p && IsTagStart(g, buf[ts..p])
       case Fixed(k, seen) =>
         Starts(g, buf[ts..], k) && data == ts + |g.tag(k)| && seen < g.fixed(k) && p == data + seen
       case Count(k, seen) =>
         && Starts(g, buf[ts..], k) && data == ts + |g.tag(k)| && g.unit(k) > 0 && seen < 4
         && p == data + g.fixed(k) + seen && (seen > 0 ==> dlen == Unbig(buf[data + g.fixed(k)..p]))
       case Final(k) =>
         && Starts(g, buf[ts..], k) && data == ts + |g.tag(k)| && p == ts + HeadBytes(g, k)
         && (g.unit(k) > 0 ==> dlen == CountIn(g, k, buf[ts..]))
  }

  // ---- Tags ----

  lemma PrefixOfPrefix(a: seq<Byte>, b: seq<Byte>, s: seq<Byte>, n: nat)
    requires a <= s && |a| <= n <= |s| && s[..n] < b
    ensures a <= b
  {
    assert a == s[..n][..|a|];
  }

  /** No tag ends inside a proper beginning of a tag. */
  lemma NoTagInside(g: Grammar, s: seq<Byte>, n: nat, k: Kind)
    requires g.Good() && n <= |s| && IsTagStart(g, s[..n]) && Starts(g, s, k)
    ensures n < |g.tag(k)|
  {
    var j :| g.legal(j) && s[..n] < g.tag(j);
    if |g.tag(k)| <= n { PrefixOfPrefix(g.tag(k), g.tag(j), s, n); }
  }

  /** Inside the tag of the message that starts here, the next byte ends or continues a tag. */
  lemma TagGoesOn(g: Grammar, s: seq<Byte>, n: nat, k: Kind)
    requires g.Good() && n <= |s| && (n == 0 || IsTagStart(g, s[..n])) && Starts(g, s, k)
    ensures n < |s| && (IsTag(g, s[..n + 1]) || IsTagStart(g, s[..n + 1]))
  {
    var tag := g.tag(k);
    if n > 0 { NoTagInside(g, s, n, k); }
    assert s[..n + 1] == tag[..n + 1];
    if n + 1 == |tag| { assert IsTagOf(g, s[..n + 1], k); } else { assert s[..n + 1] < tag; }
  }

  /** A byte that neither ends nor continues a tag: no message starts here. */
  lemma NoTag(g: Grammar, s: seq<Byte>, n: nat)
    requires g.Good() && n <= |s| && (n == 0 || IsTagStart(g, s[..n]))
    requires n < |s| ==> !IsTag(g, s[..n + 1]) && !IsTagStart(g, s[..n + 1])
    ensures Next(g, s) == Stuck
  {
    forall k ensures !Starts(g, s, k) {
      if Starts(g, s, k) { TagGoesOn(g, s, n, k); }
    }
  }

  lemma TagEnds(g: Grammar, buf: seq<Byte>, ts: nat, p: nat, k: Kind)
    requires ts <= p < |buf| && IsTagOf(g, buf[ts..p + 1], k)
    ensures Starts(g, buf[ts..], k) && p + 1 == ts + |g.tag(k)|
  {
    assert buf[ts..][..p + 1 - ts] == buf[ts..p + 1];
  }

  /** The first byte that fits no tag: nothing can be read from `ts` on. */
  lemma DeadByte(g: Grammar, buf: seq<Byte>, ts: nat, p: nat)
    requires g.Good() && ts <= p < |buf| && (p == ts || IsTagStart(g, buf[ts..p]))
    requires !IsTag(g, buf[ts..p + 1]) && !IsTagStart(g, buf[ts..p + 1])
    ensures Next(g, buf[ts..]) == Stuck
  {
    var s, n := buf[ts..], p - ts;
    assert s[..n] == buf[ts..p] && s[..n + 1] == buf[ts..p + 1];
    NoTag(g, s, n);
  }

  // ---- Steps inside a token ----

  lemma TagStep(g: Grammar, buf: seq<Byte>, ts: nat, p: nat, dlen: nat, k: Kind)
    requires ts <= p < |buf| && IsTagOf(g, buf[ts..p + 1], k)
    ensures At(g, buf, ts, p + 1, p + 1, dlen, AfterTag(g, k))
  {
    TagEnds(g, buf, ts, p, k);
  }

  function AfterFixed(g: Grammar, k: Kind, seen: nat): Control {
    if seen + 1 < g.fixed(k) then Fixed(k, seen + 1) else if g.unit(k) > 0 then Count(k, 0) else Final(k)
  }

  lemma FixedStep(g: Grammar, buf: seq<Byte>, ts: nat, data: nat, p: nat, dlen: nat, k: Kind, seen: nat)
    requires At(g, buf, ts, data, p, dlen, Fixed(k, seen)) && p < |buf|
    ensures At(g, buf, ts, data, p + 1, dlen, AfterFixed(g, k, seen))
  {
  }

  function AfterCount(k: Kind, seen: nat): Control {
    if seen + 1 < 4 then Count(k, seen + 1) else Final(k)
  }

  lemma CountStep(g: Grammar, buf: seq<Byte>, ts: nat, data: nat, p: nat, dlen: nat, k: Kind, seen: nat)
    requires At(g, buf, ts, data, p, dlen, Count(k, seen)) && p < |buf|
    ensures
      At(g, buf, ts, data, p + 1, if seen == 0 then buf[p] else 256 * dlen + buf[p],
         AfterCount(k, seen))
  {
    var from := data + g.fixed(k);
    UnbigGrows(buf, from, p);
    if seen == 0 { assert buf[from..p] == []; }
    if seen + 1 == 4 {
      var t := |g.tag(k)| + g.fixed(k);
      assert buf[ts..][t..t + 4] == buf[from..from + 4];
    }
  }

  /** What the final state has found, given where it puts the end. */
  lemma FinalToken(g: Grammar, buf: seq<Byte>, ts: nat, data: nat, p: nat, dlen: nat, k: Kind, te: nat)
    requires At(g, buf, ts, data, p, dlen, Final(k))
    requires te == if g.unit(k) > 0 && dlen > 0 && dlen * g.unit(k) <= |buf| - p then p + dlen * g.unit(k) else p
    ensures EndsAt(g, k, buf, ts, te)
  {
    if g.unit(k) > 0 && dlen == 0 { assert CountIn(g, k, buf[ts..]) * g.unit(k) == 0; }
    if g.unit(k) == 0 { assert CountIn(g, k, buf[ts..]) * g.unit(k) == 0; }
  }

  /** The end of the buffer, not in a final state. */
  lemma EndOfBuffer(g: Grammar, buf: seq<Byte>, ts: nat, data: nat, dlen: nat, cs: Control)
    requires g.Good() && At(g, buf, ts, data, |buf|, dlen, cs) && !cs.Final? && ts < |buf|
    ensures Next(g, buf[ts..]) == Stuck
  {
    var s := buf[ts..];
    if cs == InTag {
      assert s[..|s|] == s == buf[ts..|buf|];
      NoTag(g, s, |s|);
    } else {
      NextFor(g, s, cs.kind);
    }
  }

  // ---- One message ----

  /** Whether to go on, and if not what `process` comes to. */
  datatype Continuation = GoOn | Stop(out: Outcome)

  /** What has to follow from what was done so far for the result to come out as `Run` says. */
  ghost predicate SoFar(g: Grammar, buf: seq<Byte>, ts: nat, start: seq<Message>, log: seq<Message>, verdict: Verdict)
    requires g.Good() && ts <= |buf|
  {
    Run(g, buf, start, verdict) == Run(g, buf[ts..], log, verdict)
  }

  /** `te` is the end of the token at `ts`, or of its count if the token is short. */
  ghost predicate EndsAt(g: Grammar, k: Kind, buf: seq<Byte>, ts: nat, te: nat) {
    && ts <= te <= |buf|
    && var t := TokenOf(g, k, buf[ts..]);
    (t.Whole? && te == ts + t.length) || (t.Short? && te == ts + HeadBytes(g, k))
  }

  /** What the run from `s` comes to if its first message is read as `p`, with `rest` to follow. */
  ghost predicate ComesTo(g: Grammar, s: seq<Byte>, p: Parse<Message>, rest: seq<Byte>, log: seq<Message>,
                          verdict: Verdict)
    requires g.Good()
  {
    match p
    case Overrun => Run(g, s, log, verdict) == (Raised, log)
    case Got(m, _) =>
      && WellFormed(g, m)
      && Run(g, s, log, verdict) ==
         if verdict(log, m) then Run(g, rest, log + [m], verdict) else (Returned(false), log + [m])
  }

  /** What reading the first `n` bytes of `s` as a message means for the run. */
  lemma ProcMeaning(g: Grammar, k: Kind, s: seq<Byte>, n: nat, log: seq<Message>, verdict: Verdict)
    requires g.Good() && Starts(g, s, k)
    requires TokenOf(g, k, s) == Whole(k, n) || (TokenOf(g, k, s) == Short(k) && n == HeadBytes(g, k))
    ensures 0 < |g.tag(k)| <= n <= |s| && ComesTo(g, s, MessageIn(g, k, s, n), s[n..], log, verdict)
  {
    NextFor(g, s, k);
    if TokenOf(g, k, s).Short? {
      TokenReads(g, k, s, n);
    } else {
      WholeTokenIsMessage(g, s);
    }
  }

  lemma SameRead(g: Grammar, k: Kind, buf: seq<Byte>, ts: nat, data: nat, te: nat)
    requires ts <= data <= te <= |buf| && data == ts + |g.tag(k)|
    ensures MessageIn(g, k, buf[ts..], te - ts) == ReadFrom(g, k, buf[ts..data], buf[data..te])
    ensures buf[ts..][te - ts..] == buf[te..]
  {
    var s := buf[ts..];
    assert s[..|g.tag(k)|] == buf[ts..data] && s[|g.tag(k)|..te - ts] == buf[data..te];
  }

  lemma ProcReads(g: Grammar, k: Kind, buf: seq<Byte>, ts: nat, data: nat, te: nat, log: seq<Message>, verdict: Verdict)
    requires g.Good() && ts <= data <= te <= |buf| && data == ts + |g.tag(k)| && Starts(g, buf[ts..], k)
    requires EndsAt(g, k, buf, ts, te)
    ensures ts < te
    ensures ComesTo(g, buf[ts..], ReadFrom(g, k, buf[ts..data], buf[data..te]), buf[te..], log, verdict)
  {
    ProcMeaning(g, k, buf[ts..], te - ts, log, verdict);
    SameRead(g, k, buf, ts, data, te);
  }

  /** The action at the end of a message: read it, hand it over, go on if it was accepted. */
  method Proc(g: Grammar, h: Handler, k: Kind, buf: seq<Byte>, ts: nat, data: nat, te: nat) returns (v: Continuation)
    requires g.Good() && h.Valid() && h.g == g
    requires ts <= data <= te <= |buf| && data == ts + |g.tag(k)| && Starts(g, buf[ts..], k)
    requires EndsAt(g, k, buf, ts, te)
    modifies h
    ensures h.Valid()
    ensures v == GoOn ==> Run(g, buf[ts..], old(h.log), h.verdict) == Run(g, buf[te..], h.log, h.verdict) && ts < te
    ensures v.Stop? ==> Run(g, buf[ts..], old(h.log), h.verdict) == (v.out, h.log)
  {
    ProcReads(g, k, buf, ts, data, te, h.log, h.verdict);
    var p := ReadMessage(g, k, buf[ts..data], buf[data..te]);
    if p.Overrun? { return Stop(Raised); }
    var ok := h.Handle(p.value);
    if !ok { return Stop(Returned(false)); }
    v := GoOn;
  }

  /** What the automaton finds at a position: a message of some kind that the
      position `te` ends, or nothing it can read. */
  datatype Cut = Found(kind: Kind, data: nat, te: nat) | Nothing

  ghost predicate CutAt(g: Grammar, buf: seq<Byte>, ts: nat, cut: Cut)
    requires ts <= |buf|
  {
    match cut
    case Found(k, data, te) => Starts(g, buf[ts..], k) && data == ts + |g.tag(k)| && EndsAt(g, k, buf, ts, te)
    case Nothing => Next(g, buf[ts..]) == Stuck
  }

  /** A byte that ends a tag, or continues one, or does neither. */
  method TagByte(g: Grammar, buf: seq<Byte>, ts: nat, p: nat, ghost dlen: nat, cs: Control)
    returns (ok: bool, next: Control)
    requires g.Good() && p < |buf| && (cs == Start || cs == InTag)
    requires At(g, buf, ts, ts, p, dlen, cs)
    ensures ok ==> At(g, buf, ts, p + 1, p + 1, dlen, next) && next != Start
    ensures !ok ==> Next(g, buf[ts..]) == Stuck
  {
    var read := buf[ts..p + 1];
    if k: Kind :| IsTagOf(g, read, k) {
      TagStep(g, buf, ts, p, dlen, k);
      return true, AfterTag(g, k);
    }
    if IsTagStart(g, read) { return true, InTag; }
    DeadByte(g, buf, ts, p);
    return false, Start;
  }

  /** One byte, outside the final states: where the data begin, the count and the
      state after it. */
  method Advance(g: Grammar, buf: seq<Byte>, ts: nat, data: nat, p: nat, dlen: nat, cs: Control)
    returns (ok: bool, data': nat, dlen': nat, cs': Control)
    requires g.Good() && p < |buf| && !cs.Final? && At(g, buf, ts, data, p, dlen, cs)
    ensures ok ==> At(g, buf, ts, data', p + 1, dlen', cs') && cs' != Start
    ensures !ok ==> Next(g, buf[ts..]) == Stuck
  {
    ok, data', dlen' := true, data, dlen;
    if cs.Fixed? {
      FixedStep(g, buf, ts, data, p, dlen, cs.kind, cs.seen);
      cs' := AfterFixed(g, cs.kind, cs.seen);
    } else if cs.Count? {
      CountStep(g, buf, ts, data, p, dlen, cs.kind, cs.seen);
      dlen' := if cs.seen == 0 then buf[p] else 256 * dlen + buf[p];
      cs' := AfterCount(cs.kind, cs.seen);
    } else {
      ok, cs' := TagByte(g, buf, ts, p, dlen, cs);
      data' := p + 1;
    }
  }

  /** Up to a final state: its kind and where it was reached, or no message. */
  method ToFinal(g: Grammar, buf: seq<Byte>, ts: nat) returns (ok: bool, k: Kind, data: nat, p: nat, dlen: nat)
    requires g.Good() && ts < |buf|
    ensures ok ==> At(g, buf, ts, data, p, dlen, Final(k))
    ensures !ok ==> Next(g, buf[ts..]) == Stuck
  {
    var cs := Start;
    k, data, p, dlen := Noop, ts, ts, 0;
    while p < |buf| && !cs.Final?
      invariant At(g, buf, ts, data, p, dlen, cs)
    {
      ok, data, dlen, cs := Advance(g, buf, ts, data, p, dlen, cs);
      if !ok { return; }
      p := p + 1;
    }
    ok := cs.Final?;
    if ok { k := cs.kind; } else { EndOfBuffer(g, buf, ts, data, dlen, cs); }
  }

  /** The automaton from one start state to the action at the end of a message: a
      final state skips over what the count says if there is as much. */
  method Scan(g: Grammar, buf: seq<Byte>, ts: nat) returns (cut: Cut)
    requires g.Good() && ts < |buf|
    ensures CutAt(g, buf, ts, cut)
  {
    var ok, k, data, p, dlen := ToFinal(g, buf, ts);
    if !ok { return Nothing; }
    var te := p;
    if g.unit(k) > 0 && dlen > 0 && dlen * g.unit(k) <= |buf| - p {
      te := p + dlen * g.unit(k);
    }
    FinalToken(g, buf, ts, data, p, dlen, k, te);
    return Found(k, data, te);
  }

  /** `process` */
  method Process(g: Grammar, h: Handler, buf: seq<Byte>) returns (out: Outcome)
    requires g.Good() && h.Valid() && h.g == g
    modifies h
    ensures h.Valid() && (out, h.log) == Run(g, buf, old(h.log), h.verdict)
  {
    var ts: nat := 0;
    assert buf[0..] == buf;
    while ts < |buf|
      invariant h.Valid() && ts <= |buf|
      invariant SoFar(g, buf, ts, old(h.log), h.log, h.verdict)
    {
      var cut := Scan(g, buf, ts);
      if cut == Nothing { return Returned(false); }
      var v := Proc(g, h, cut.kind, buf, ts, cut.data, cut.te);
      if v.Stop? { return v.out; }
      ts := cut.te;
    }
    return Returned(true);
  }
}
