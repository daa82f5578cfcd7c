/** The core-protocol scanner: a byte-at-a-time automaton with length-guarded skips
    that cuts a buffer into messages and hands each one to a handler. */
module Scanner {
  import opened Codec
  import opened Messages
  import opened Grammars

  /** A handler's answer to a message, given those handled before. */
  type Verdict = (seq<Message>, Message) -> bool

  /** Everything up to the end of the count, where there is one. */
  function HeadBytes(g: Grammar, k: Kind): nat {
    |g.tag(k)| + g.fixed(k) + if g.unit(k) > 0 then 4 else 0
  }

  // ---- One token ----

  datatype Token = Whole(kind: Kind, length: nat) | Short(kind: Kind) | Stuck

  ghost predicate Starts(g: Grammar, s: seq<Byte>, k: Kind) {
    g.legal(k) && g.tag(k) <= s
  }

  /** The count field of a message of kind `k` at the start of `s`. */
  function CountIn(g: Grammar, k: Kind, s: seq<Byte>): nat
    requires HeadBytes(g, k) <= |s|
  {
    if g.unit(k) == 0 then 0 else Unbig(s[|g.tag(k)| + g.fixed(k)..HeadBytes(g, k)])
  }

  /** The token at the start of `s` if the message there is of kind `k`: whole, or
      promising more than there is, or cut short before the end of its count. */
  function TokenOf(g: Grammar, k: Kind, s: seq<Byte>): (t: Token)
    ensures t.Whole? ==> t.kind == k && HeadBytes(g, k) <= t.length <= |s|
  {
    if |s| < HeadBytes(g, k) then Stuck
    else
      var size := CountIn(g, k, s) * g.unit(k);
      if HeadBytes(g, k) + size <= |s| then Whole(k, HeadBytes(g, k) + size) else Short(k)
  }

  /** The token at the start of `s`; no message of the flow starts there if it is `Stuck`
      or is cut short. */
  ghost function Next(g: Grammar, s: seq<Byte>): (t: Token)
    ensures t.Whole? ==> Starts(g, s, t.kind) && HeadBytes(g, t.kind) <= t.length <= |s|
  {
    if k :| Starts(g, s, k) then TokenOf(g, k, s) else Stuck
  }

  lemma StartsUnique(g: Grammar, s: seq<Byte>, j: Kind, k: Kind)
    requires g.Good() && Starts(g, s, j) && Starts(g, s, k)
    ensures j == k
  {
    var tj, tk := g.tag(j), g.tag(k);
    assert |tj| <= |tk| ==> tj <= tk;
    assert |tk| <= |tj| ==> tk <= tj;
  }

  lemma NextFor(g: Grammar, s: seq<Byte>, k: Kind)
    requires g.Good() && Starts(g, s, k)
    ensures Next(g, s) == TokenOf(g, k, s)
  {
    forall j | Starts(g, s, j) ensures j == k { StartsUnique(g, s, j, k); }
  }

  // ---- Reading a token ----

  lemma {:induction false} FixedDecodes(fs: seq<Field>, data: seq<Byte>)
    requires AllFixed(fs)
    requires TotalWidth(fs) <= |data|
    ensures DecodeAll(fs, data).Got? && DecodeAll(fs, data).rest == data[TotalWidth(fs)..]
  {
    if fs != [] {
      assert fs[0] in fs;
      var rest := data[Width(fs[0])..];
      assert Decode(fs[0], data).Got? && Decode(fs[0], data).rest == rest;
      assert forall f :: f in fs[1..] ==> f in fs;
      FixedDecodes(fs[1..], rest);
      assert rest[TotalWidth(fs[1..])..] == data[TotalWidth(fs)..];
    }
  }

  lemma CountedDecodes(t: Field, unit: nat, buf: seq<Byte>)
    requires IsCounted(t, unit) && 4 <= |buf|
    ensures |buf| == 4 + Unbig(buf[..4]) * unit ==> Decode(t, buf).Got? && Decode(t, buf).rest == []
    ensures |buf| < 4 + Unbig(buf[..4]) * unit ==> Decode(t, buf).Overrun?
  {
    var p := DecodeNumber(buf, 4);
    if unit == 1 {
      assert Unbig(buf[..4]) * unit == p.value;
    } else {
      assert Unbig(buf[..4]) * unit == 4 * p.value;
    }
  }

  lemma SliceOfSlice(s: seq<Byte>, a: nat, b: nat, c: nat, d: nat)
    requires a <= b <= |s| && c <= d <= b - a
    ensures s[a..b][c..d] == s[a + c..a + d]
  {
    assert forall i :: 0 <= i < d - c ==> s[a..b][c..d][i] == s[a + c..a + d][i];
  }

  /** Fixed fields and a counted one, read off data that ends where the count says or before. */
  lemma CountedReads(fixed: seq<Field>, t: Field, unit: nat, data: seq<Byte>)
    requires IsCounted(t, unit) && TotalWidth(fixed) + 4 <= |data|
    requires AllFixed(fixed)
    ensures
      var w := TotalWidth(fixed);
      var end := w + 4 + Unbig(data[w..w + 4]) * unit;
      && (|data| == end ==> DecodeAll(fixed + [t], data).Got? && DecodeAll(fixed + [t], data).rest == [])
      && (|data| < end ==> DecodeAll(fixed + [t], data).Overrun?)
  {
    var w := TotalWidth(fixed);
    assert data[w..][..4] == data[w..w + 4];
    FixedDecodes(fixed, data);
    DecodeSplits(fixed, t, data);
    CountedDecodes(t, unit, data[w..]);
  }

  lemma TokenDecodes(s: seq<Byte>, length: nat, tag: nat, layout: seq<Field>, w: nat, unit: nat)
    requires Agree(layout, w, unit)
    requires tag + w + (if unit > 0 then 4 else 0) <= length <= |s|
    ensures
      var head := tag + w + if unit > 0 then 4 else 0;
      var size := (if unit == 0 then 0 else Unbig(s[tag + w..head])) * unit;
      var p := DecodeAll(layout, s[tag..length]);
      && (length == head + size ==> p.Got? && p.rest == [])
      && (length < head + size ==> p.Overrun?)
  {
    var data := s[tag..length];
    if unit == 0 {
      FixedDecodes(layout, data);
      assert data[w..] == s[tag + w..length];
    } else {
      var fixed, t :| layout == fixed + [t] && AllFixed(fixed) && TotalWidth(fixed) == w && IsCounted(t, unit);
      SliceOfSlice(s, tag, length, w, w + 4);
      CountedReads(fixed, t, unit, data);
    }
  }

  /** The message a token at the start of `s` reads as. */
  function MessageIn(g: Grammar, k: Kind, s: seq<Byte>, length: nat): Parse<Message>
    requires |g.tag(k)| <= length <= |s|
  {
    ReadFrom(g, k, s[..|g.tag(k)|], s[|g.tag(k)|..length])
  }

  lemma MessageInDecodes(g: Grammar, k: Kind, s: seq<Byte>, length: nat)
    requires g.tag(k) <= s && |g.tag(k)| <= length <= |s|
    ensures
      var p, m := DecodeAll(g.layout(k), s[|g.tag(k)|..length]), MessageIn(g, k, s, length);
      if p.Got? then m == Got(Message(k, p.value), p.rest) else m == Overrun
  {
    assert s[..|g.tag(k)|] == g.tag(k);
  }

  /** The scanner's cut is exactly what the codec consumes; cutting right after a
      count that is not zero makes the codec raise its error. */
  lemma TokenReads(g: Grammar, k: Kind, s: seq<Byte>, length: nat)
    requires g.Good() && g.tag(k) <= s && HeadBytes(g, k) <= length <= |s|
    ensures
      var size := CountIn(g, k, s) * g.unit(k);
      && (length == HeadBytes(g, k) + size ==> MessageIn(g, k, s, length).Got? && MessageIn(g, k, s, length).rest == [])
      && (length < HeadBytes(g, k) + size ==> MessageIn(g, k, s, length).Overrun?)
  {
    MessageInDecodes(g, k, s, length);
    TokenDecodes(s, length, |g.tag(k)|, g.layout(k), g.fixed(k), g.unit(k));
  }

  /** A whole token reads as a well-formed message that is written as the same bytes. */
  lemma WholeTokenIsMessage(g: Grammar, s: seq<Byte>)
    requires g.Good() && Next(g, s).Whole?
    ensures
      var t := Next(g, s);
      var p := MessageIn(g, t.kind, s, t.length);
      && p.Got? && p.rest == [] && p.value.kind == t.kind && g.legal(t.kind)
      && WellFormed(g, p.value) && Serialize(g, p.value) == s[..t.length]
  {
    var t := Next(g, s);
    var k, length := t.kind, t.length;
    NextFor(g, s, k);
    TokenReads(g, k, s, length);
    WrittenRead(g, k, s[..|g.tag(k)|], s[|g.tag(k)|..length]);
    assert s[..length] == s[..|g.tag(k)|] + s[|g.tag(k)|..length];
  }

  // ---- A whole buffer ----

  /** `Returned` is the result of `process`; `Raised` is the error of a message
      whose count promises more bytes than the buffer has. */
  datatype Outcome = Returned(ok: bool) | Raised

  /** What processing `s` returns and the messages handled by then, `log` being those
      handled before.  `verdict` is the handler's answer to each message. */
  ghost function Run(g: Grammar, s: seq<Byte>, log: seq<Message>, verdict: Verdict): (Outcome, seq<Message>)
    requires g.Good()
    decreases |s|
  {
    if s == [] then (Returned(true), log)
    else
      match Next(g, s)
      case Stuck => (Returned(false), log)
      case Short(_) => (Raised, log)
      case Whole(k, length) =>
        WholeTokenIsMessage(g, s);
        var m := MessageIn(g, k, s, length).value;
        if verdict(log, m) then Run(g, s[length..], log + [m], verdict) else (Returned(false), log + [m])
  }

  ghost predicate AllLegal(g: Grammar, ms: seq<Message>) {
    forall m :: m in ms ==> WellFormed(g, m) && g.legal(m.kind)
  }

  function SerializeAll(g: Grammar, ms: seq<Message>): seq<Byte>
    requires forall m :: m in ms ==> WellFormed(g, m)
  {
    if ms == [] then [] else Serialize(g, ms[0]) + SerializeAll(g, ms[1..])
  }

  /** The handler accepts all of `ms`, one after the other, having seen `log`. */
  ghost predicate Accepted(log: seq<Message>, ms: seq<Message>, verdict: Verdict) {
    forall i :: 0 <= i < |ms| ==> verdict(log + ms[..i], ms[i])
  }

  lemma AcceptedCons(log: seq<Message>, ms: seq<Message>, verdict: Verdict)
    requires ms != []
    ensures Accepted(log, ms, verdict) <==> verdict(log, ms[0]) && Accepted(log + [ms[0]], ms[1..], verdict)
  {
    assert log + ms[..0] == log;
    forall i | 0 < i < |ms| ensures log + [ms[0]] + ms[1..][..i - 1] == log + ms[..i] {
      assert ms[..i] == [ms[0]] + ms[1..][..i - 1];
    }
    if Accepted(log, ms, verdict) {
      forall i | 0 <= i < |ms[1..]| ensures verdict(log + [ms[0]] + ms[1..][..i], ms[1..][i]) {
        assert verdict(log + ms[..i + 1], ms[i + 1]);
      }
    }
    if verdict(log, ms[0]) && Accepted(log + [ms[0]], ms[1..], verdict) {
      forall i | 0 <= i < |ms| ensures verdict(log + ms[..i], ms[i]) {
        if i > 0 { assert verdict(log + [ms[0]] + ms[1..][..i - 1], ms[1..][i - 1]); }
      }
    }
  }

  // ---- A written message ----

  lemma {:induction false} FixedLength(fs: seq<Field>, vs: seq<Value>)
    requires AllFit(fs, vs) && AllFixed(fs)
    ensures |EncodeAll(fs, vs)| == TotalWidth(fs)
  {
    if fs != [] {
      assert fs[0] in fs && Fits(fs[0], vs[0]);
      assert forall f :: f in fs[1..] ==> f in fs;
      FixedLength(fs[1..], vs[1..]);
    }
  }

  lemma CountedLength(t: Field, unit: nat, v: Value)
    requires Fits(t, v) && IsCounted(t, unit)
    ensures |Encode(t, v)| >= 4 && |Encode(t, v)| == 4 + Unbig(Encode(t, v)[..4]) * unit
  {
    if t == Text {
      UnbigBig(|v.bytes|, 4);
      assert Encode(t, v)[..4] == Big(|v.bytes|, 4);
    } else {
      UnbigBig(|v.words|, 4);
      assert Encode(t, v)[..4] == Big(|v.words|, 4);
    }
  }

  /** Where the count is found in a message made of a head and a counted field. */
  lemma CountAt(head: seq<Byte>, counted: seq<Byte>, rest: seq<Byte>)
    requires |counted| >= 4
    ensures (head + counted + rest)[|head|..|head| + 4] == counted[..4]
  {
  }

  lemma CountedLengthAs(tag: seq<Byte>, front: seq<Byte>, t: Field, unit: nat, v: Value, rest: seq<Byte>)
    requires Fits(t, v) && IsCounted(t, unit)
    ensures
      var s := tag + (front + Encode(t, v));
      var head := |tag| + |front| + 4;
      head <= |s| && |s| == head + Unbig((s + rest)[|tag| + |front|..head]) * unit
  {
    CountedLength(t, unit, v);
    CountAt(tag + front, Encode(t, v), rest);
    Regroup(tag, front, Encode(t, v));
  }

  lemma SplitArgs(layout: seq<Field>, fixed: seq<Field>, t: Field, args: seq<Value>) returns (vs: seq<Value>, v: Value)
    requires AllFit(layout, args) && layout == fixed + [t]
    ensures args == vs + [v] && AllFit(fixed, vs) && Fits(t, v)
  {
    var n := |args| - 1;
    vs, v := args[..n], args[n];
    assert forall i :: 0 <= i < n ==> fixed[i] == layout[i];
    assert layout[n] == t && Fits(layout[n], args[n]);
  }

  lemma LengthSplit(tag: seq<Byte>, fixed: seq<Field>, t: Field, unit: nat, args: seq<Value>, rest: seq<Byte>)
    requires AllFit(fixed + [t], args) && AllFixed(fixed) && IsCounted(t, unit)
    ensures
      var s := tag + EncodeAll(fixed + [t], args);
      var w := TotalWidth(fixed);
      var head := |tag| + w + 4;
      head <= |s| && |s| == head + Unbig((s + rest)[|tag| + w..head]) * unit
  {
    var vs, v := SplitArgs(fixed + [t], fixed, t, args);
    FixedLength(fixed, vs);
    EncodeSplits(fixed, t, vs, v);
    CountedLengthAs(tag, EncodeAll(fixed, vs), t, unit, v, rest);
  }

  lemma LengthAs(tag: seq<Byte>, layout: seq<Field>, w: nat, unit: nat, args: seq<Value>, rest: seq<Byte>)
    requires AllFit(layout, args) && Agree(layout, w, unit)
    ensures
      var s := tag + EncodeAll(layout, args);
      var head := |tag| + w + if unit > 0 then 4 else 0;
      head <= |s| && |s| == head + (if unit == 0 then 0 else Unbig((s + rest)[|tag| + w..head])) * unit
  {
    if unit == 0 {
      FixedLength(layout, args);
    } else {
      var fixed, t :| layout == fixed + [t] && AllFixed(fixed) && TotalWidth(fixed) == w && IsCounted(t, unit);
      LengthSplit(tag, fixed, t, unit, args, rest);
    }
  }

  lemma SerializedLength(g: Grammar, m: Message, rest: seq<Byte>)
    requires g.Good() && WellFormed(g, m)
    ensures HeadBytes(g, m.kind) <= |Serialize(g, m)|
    ensures |Serialize(g, m)| == HeadBytes(g, m.kind) + CountIn(g, m.kind, Serialize(g, m) + rest) * g.unit(m.kind)
  {
    var k := m.kind;
    LengthAs(g.tag(k), g.layout(k), g.fixed(k), g.unit(k), m.args, rest);
  }

  /** The token at the front of a written message is that message. */
  lemma NextIsTheMessage(g: Grammar, m: Message, rest: seq<Byte>)
    requires g.Good() && WellFormed(g, m) && g.legal(m.kind)
    ensures Next(g, Serialize(g, m) + rest) == Whole(m.kind, |Serialize(g, m)|)
    ensures MessageIn(g, m.kind, Serialize(g, m) + rest, |Serialize(g, m)|) == Got(m, [])
  {
    var k, s, n := m.kind, Serialize(g, m) + rest, |Serialize(g, m)|;
    assert s[..|g.tag(k)|] == g.tag(k);
    assert s[|g.tag(k)|..n] == EncodeAll(g.layout(k), m.args);
    ReadWritten(g, m);
    assert Starts(g, s, k);
    NextFor(g, s, k);
    SerializedLength(g, m, rest);
  }

  /** What a message at the front does to a run. */
  lemma RunMessage(g: Grammar, m: Message, rest: seq<Byte>, log: seq<Message>, verdict: Verdict)
    requires g.Good() && WellFormed(g, m) && g.legal(m.kind)
    ensures Run(g, Serialize(g, m) + rest, log, verdict) ==
      if verdict(log, m) then Run(g, rest, log + [m], verdict) else (Returned(false), log + [m])
  {
    var s := Serialize(g, m) + rest;
    NextIsTheMessage(g, m, rest);
    assert s[|Serialize(g, m)|..] == rest;
  }
}
