/** The big-endian codec of message fields: fixed-width integers, strings with a
    four-byte length, and vectors of four-byte integers with a four-byte count. */
module Codec {

  type Byte = b: int | 0 <= b < 256

  datatype Field = U8 | U16 | S16 | U32 | Text | Words

  datatype Value = Number(n: int) | Bytes(bytes: seq<Byte>) | Numbers(words: seq<nat>)

  /** The values a field can hold; lengths have to fit their four-byte prefix. */
  ghost predicate Fits(f: Field, v: Value) {
    match f
    case U8 => v.Number? && 0 <= v.n < Cap(1)
    case U16 => v.Number? && 0 <= v.n < Cap(2)
    case S16 => v.Number? && -0x8000 <= v.n < 0x8000
    case U32 => v.Number? && 0 <= v.n < Cap(4)
    case Text => v.Bytes? && |v.bytes| < Cap(4)
    case Words => v.Numbers? && |v.words| < Cap(4) && forall w :: w in v.words ==> w < Cap(4)
  }

  // ---- Integers ----

  /** How many values fit in `width` bytes. */
  function Cap(width: nat): nat {
    if width == 0 then 1 else 256 * Cap(width - 1)
  }

  function Big(n: nat, width: nat): (bytes: seq<Byte>)
    ensures |bytes| == width
  {
    if width == 0 then [] else Big(n / 256, width - 1) + [n % 256]
  }

  function Unbig(bytes: seq<Byte>): nat {
    if bytes == [] then 0 else 256 * Unbig(bytes[..|bytes| - 1]) + bytes[|bytes| - 1]
  }

  lemma {:induction false} UnbigBig(n: nat, width: nat)
    requires n < Cap(width)
    ensures Unbig(Big(n, width)) == n
  {
    if width > 0 {
      UnbigBig(n / 256, width - 1);
      assert Big(n, width)[..width - 1] == Big(n / 256, width - 1);
    }
  }

  lemma {:induction false} BigUnbig(bytes: seq<Byte>)
    ensures Unbig(bytes) < Cap(|bytes|)
    ensures Big(Unbig(bytes), |bytes|) == bytes
  {
    if bytes != [] {
      var n := |bytes| - 1;
      BigUnbig(bytes[..n]);
      assert Unbig(bytes) / 256 == Unbig(bytes[..n]) && Unbig(bytes) % 256 == bytes[n];
      assert bytes == bytes[..n] + [bytes[n]];
    }
  }

  // ---- Words ----

  function EncodeWords(words: seq<nat>): (bytes: seq<Byte>)
    ensures |bytes| == 4 * |words|
  {
    if words == [] then [] else Big(words[0], 4) + EncodeWords(words[1..])
  }

  function DecodeWords(bytes: seq<Byte>, count: nat): (words: seq<nat>)
    requires |bytes| == 4 * count
    ensures |words| == count
  {
    if count == 0 then [] else [Unbig(bytes[..4])] + DecodeWords(bytes[4..], count - 1)
  }

  lemma {:induction false} WordsRoundTrip(words: seq<nat>)
    requires forall w :: w in words ==> w < Cap(4)
    ensures DecodeWords(EncodeWords(words), |words|) == words
  {
    if words != [] {
      var bytes := EncodeWords(words);
      assert bytes[..4] == Big(words[0], 4) && bytes[4..] == EncodeWords(words[1..]);
      assert words[0] in words && forall w :: w in words[1..] ==> w in words;
      UnbigBig(words[0], 4);
      WordsRoundTrip(words[1..]);
    }
  }

  lemma {:induction false} BytesRoundTrip(bytes: seq<Byte>, count: nat)
    requires |bytes| == 4 * count
    ensures EncodeWords(DecodeWords(bytes, count)) == bytes
    ensures forall w :: w in DecodeWords(bytes, count) ==> w < Cap(4)
  {
    if count > 0 {
      BytesRoundTrip(bytes[4..], count - 1);
      BigUnbig(bytes[..4]);
      assert bytes == bytes[..4] + bytes[4..];
    }
  }

  lemma Regroup(a: seq<Byte>, b: seq<Byte>, c: seq<Byte>)
    ensures a + (b + c) == a + b + c
  {
  }

  // ---- One field ----

  function Encode(f: Field, v: Value): seq<Byte>
    requires Fits(f, v)
  {
    match f
    case U8 => Big(v.n, 1)
    case U16 => Big(v.n, 2)
    case S16 => Big(if v.n < 0 then v.n + 0x1_0000 else v.n, 2)
    case U32 => Big(v.n, 4)
    case Text => Big(|v.bytes|, 4) + v.bytes
    case Words => Big(|v.words|, 4) + EncodeWords(v.words)
  }

  /** A read that succeeds leaves a rest; one that would pass the end raises an error. */
  datatype Parse<T> = Got(value: T, rest: seq<Byte>) | Overrun

  function DecodeNumber(buf: seq<Byte>, width: nat): Parse<nat> {
    if |buf| < width then Overrun else Got(Unbig(buf[..width]), buf[width..])
  }

  function Numeric(p: Parse<nat>): Parse<Value> {
    match p
    case Got(n, rest) => Got(Number(n), rest)
    case Overrun => Overrun
  }

  function Signed(p: Parse<nat>): Parse<Value> {
    match p
    case Got(n, rest) => Got(Number(if n < 0x8000 then n else n - 0x1_0000), rest)
    case Overrun => Overrun
  }

  function Textual(p: Parse<nat>): Parse<Value> {
    match p
    case Got(n, rest) => if |rest| < n then Overrun else Got(Bytes(rest[..n]), rest[n..])
    case Overrun => Overrun
  }

  function Vector(p: Parse<nat>): Parse<Value> {
    match p
    case Got(n, rest) => if |rest| < 4 * n then Overrun else Got(Numbers(DecodeWords(rest[..4 * n], n)), rest[4 * n..])
    case Overrun => Overrun
  }

  function Decode(f: Field, buf: seq<Byte>): Parse<Value> {
    match f
    case U8 => Numeric(DecodeNumber(buf, 1))
    case U16 => Numeric(DecodeNumber(buf, 2))
    case S16 => Signed(DecodeNumber(buf, 2))
    case U32 => Numeric(DecodeNumber(buf, 4))
    case Text => Textual(DecodeNumber(buf, 4))
    case Words => Vector(DecodeNumber(buf, 4))
  }

  // ---- What is on the wire ----

  function TwoBytes(a: int, b: int): int {
    0x100 * a + b
  }

  function FourBytes(a: int, b: int, c: int, d: int): int {
    0x100_0000 * a + 0x1_0000 * b + 0x100 * c + d
  }

  /** The first byte is the most significant. */
  lemma BytesAreBigEndian(b: seq<Byte>)
    ensures |b| == 1 ==> Unbig(b) == b[0]
    ensures |b| == 2 ==> Unbig(b) == TwoBytes(b[0], b[1])
    ensures |b| == 4 ==> Unbig(b) == FourBytes(b[0], b[1], b[2], b[3])
  {
    if |b| == 4 {
      assert b[..3][..2] == b[..2] && b[..2][..1] == b[..1] && b[..1][..0] == [];
    } else if |b| == 2 {
      assert b[..1][..0] == [];
    }
  }

  lemma SliceFurtherOn(bytes: seq<Byte>, from: nat, at: nat, to: nat, next: nat)
    requires from <= at && to == at - from && next == to + 4 && at + 4 <= |bytes|
    ensures bytes[from..][to..next] == bytes[at..at + 4]
  {
    var a, b := bytes[from..][to..next], bytes[at..at + 4];
    assert |a| == |b| && forall k :: 0 <= k < 4 ==> a[k] == b[k];
  }

  lemma {:induction false} WordsInOrder(bytes: seq<Byte>, count: nat, i: nat)
    requires |bytes| == 4 * count && i < count
    ensures DecodeWords(bytes, count)[i] == Unbig(bytes[4 * i..4 * i + 4])
  {
    if i == 0 {
      assert bytes[0..4] == bytes[..4];
    } else {
      var before := i - 1;
      WordsInOrder(bytes[4..], count - 1, before);
      SliceFurtherOn(bytes, 4, 4 * i, 4 * before, 4 * before + 4);
      assert DecodeWords(bytes, count)[i] == DecodeWords(bytes[4..], count - 1)[before];
    }
  }

  lemma WordAt(buf: seq<Byte>, n: nat, i: nat)
    requires i < n && 4 + 4 * n <= |buf|
    ensures buf[4..][..4 * n][4 * i..4 * i + 4] == buf[4 + 4 * i..8 + 4 * i]
  {
    var a, b := buf[4..][..4 * n][4 * i..4 * i + 4], buf[4 + 4 * i..8 + 4 * i];
    assert forall j :: 0 <= j < 4 ==> a[j] == b[j];
  }

  /** How each field reads: numbers from the most significant byte on, signed ones in two's
      complement, and texts and vectors after a count, in order. */
  lemma FieldsOnTheWire(f: Field, buf: seq<Byte>)
    requires Decode(f, buf).Got?
    ensures
      var v, rest := Decode(f, buf).value, Decode(f, buf).rest;
      match f
      case U8 => |buf| >= 1 && v == Number(buf[0]) && rest == buf[1..]
      case U16 => |buf| >= 2 && v == Number(TwoBytes(buf[0], buf[1])) && rest == buf[2..]
      case S16 =>
        && |buf| >= 2 && rest == buf[2..]
        && v == Number(TwoBytes(buf[0], buf[1]) - if buf[0] < 0x80 then 0 else 0x1_0000)
      case U32 =>
        && |buf| >= 4 && rest == buf[4..]
        && v == Number(FourBytes(buf[0], buf[1], buf[2], buf[3]))
      case Text => |buf| >= 4 && |buf| >= 4 + Unbig(buf[..4]) && v == Bytes(buf[4..4 + Unbig(buf[..4])])
      case Words =>
        && |buf| >= 4 && |buf| >= 4 + 4 * Unbig(buf[..4]) && v.Numbers? && |v.words| == Unbig(buf[..4])
        && forall i :: 0 <= i < |v.words| ==> v.words[i] == Unbig(buf[4 + 4 * i..8 + 4 * i])
  {
    if |buf| >= 1 { BytesAreBigEndian(buf[..1]); }
    if |buf| >= 2 { BytesAreBigEndian(buf[..2]); }
    if |buf| >= 4 {
      BytesAreBigEndian(buf[..4]);
      var n := Unbig(buf[..4]);
      if f == Words {
        forall i | 0 <= i < n ensures DecodeWords(buf[4..][..4 * n], n)[i] == Unbig(buf[4 + 4 * i..8 + 4 * i]) {
          WordsInOrder(buf[4..][..4 * n], n, i);
          WordAt(buf, n, i);
        }
      }
    }
  }

  lemma NumberDecodes(n: nat, width: nat, rest: seq<Byte>)
    requires n < Cap(width)
    ensures DecodeNumber(Big(n, width) + rest, width) == Got(n, rest)
  {
    UnbigBig(n, width);
    assert (Big(n, width) + rest)[..width] == Big(n, width);
  }

  lemma NumberEncodes(buf: seq<Byte>, width: nat)
    requires width <= |buf|
    ensures var p := DecodeNumber(buf, width);
      p.value < Cap(width) && buf == Big(p.value, width) + p.rest
  {
    BigUnbig(buf[..width]);
    assert buf == buf[..width] + buf[width..];
  }

  lemma CapIs()
    ensures Cap(1) == 256 && Cap(2) == 0x1_0000 && Cap(4) == 0x1_0000_0000
  {
    assert Cap(2) == 256 * Cap(1);
    assert Cap(3) == 256 * Cap(2);
  }

  lemma TextDecodes(v: Value, rest: seq<Byte>)
    requires Fits(Text, v)
    ensures Decode(Text, Encode(Text, v) + rest) == Got(v, rest)
  {
    var tail := v.bytes + rest;
    assert Encode(Text, v) + rest == Big(|v.bytes|, 4) + tail;
    NumberDecodes(|v.bytes|, 4, tail);
    assert tail[..|v.bytes|] == v.bytes && tail[|v.bytes|..] == rest;
  }

  lemma WordsDecode(v: Value, rest: seq<Byte>)
    requires Fits(Words, v)
    ensures Decode(Words, Encode(Words, v) + rest) == Got(v, rest)
  {
    var ws := EncodeWords(v.words);
    var tail := ws + rest;
    assert Encode(Words, v) + rest == Big(|v.words|, 4) + tail;
    NumberDecodes(|v.words|, 4, tail);
    assert tail[..4 * |v.words|] == ws && tail[4 * |v.words|..] == rest;
    WordsRoundTrip(v.words);
  }

  /** Reading what was written gives the value back and stops where it ended. */
  lemma DecodeEncode(f: Field, v: Value, rest: seq<Byte>)
    requires Fits(f, v)
    ensures Decode(f, Encode(f, v) + rest) == Got(v, rest)
  {
    CapIs();
    match f
    case U8 => NumberDecodes(v.n, 1, rest);
    case U16 => NumberDecodes(v.n, 2, rest);
    case S16 => NumberDecodes(if v.n < 0 then v.n + 0x1_0000 else v.n, 2, rest);
    case U32 => NumberDecodes(v.n, 4, rest);
    case Text => TextDecodes(v, rest);
    case Words => WordsDecode(v, rest);
  }

  lemma TextEncodes(buf: seq<Byte>)
    requires Decode(Text, buf).Got?
    ensures var p := Decode(Text, buf); Fits(Text, p.value) && buf == Encode(Text, p.value) + p.rest
  {
    NumberEncodes(buf, 4);
    var p := DecodeNumber(buf, 4);
    var text, rest := p.rest[..p.value], p.rest[p.value..];
    assert p.rest == text + rest;
    Regroup(Big(p.value, 4), text, rest);
  }

  lemma WordsEncode(buf: seq<Byte>)
    requires Decode(Words, buf).Got?
    ensures var p := Decode(Words, buf); Fits(Words, p.value) && buf == Encode(Words, p.value) + p.rest
  {
    NumberEncodes(buf, 4);
    var p := DecodeNumber(buf, 4);
    var ws, rest := p.rest[..4 * p.value], p.rest[4 * p.value..];
    BytesRoundTrip(ws, p.value);
    assert p.rest == ws + rest;
    Regroup(Big(p.value, 4), ws, rest);
  }

  /** Whatever was read successfully, writing it gives the bytes back. */
  lemma EncodeDecode(f: Field, buf: seq<Byte>)
    requires Decode(f, buf).Got?
    ensures var p := Decode(f, buf); Fits(f, p.value) && buf == Encode(f, p.value) + p.rest
  {
    CapIs();
    match f
    case U8 => NumberEncodes(buf, 1);
    case U16 => NumberEncodes(buf, 2);
    case S16 => NumberEncodes(buf, 2);
    case U32 => NumberEncodes(buf, 4);
    case Text => TextEncodes(buf);
    case Words => WordsEncode(buf);
  }

  // ---- The fields of a message ----

  ghost predicate AllFit(fs: seq<Field>, vs: seq<Value>) {
    |fs| == |vs| && forall i :: 0 <= i < |fs| ==> Fits(fs[i], vs[i])
  }

  function EncodeAll(fs: seq<Field>, vs: seq<Value>): seq<Byte>
    requires AllFit(fs, vs)
  {
    if fs == [] then [] else Encode(fs[0], vs[0]) + EncodeAll(fs[1..], vs[1..])
  }

  function DecodeAll(fs: seq<Field>, buf: seq<Byte>): Parse<seq<Value>> {
    if fs == [] then Got([], buf)
    else
      match Decode(fs[0], buf)
      case Overrun => Overrun
      case Got(v, rest) =>
        match DecodeAll(fs[1..], rest)
        case Overrun => Overrun
        case Got(vs, rest') => Got([v] + vs, rest')
  }

  /** One more field at the end. */
  lemma {:induction false} DecodeSplits(fs: seq<Field>, t: Field, data: seq<Byte>)
    ensures
      var p := DecodeAll(fs, data);
      if p.Overrun? || Decode(t, p.rest).Overrun? then DecodeAll(fs + [t], data) == Overrun
      else DecodeAll(fs + [t], data) == Got(p.value + [Decode(t, p.rest).value], Decode(t, p.rest).rest)
  {
    if fs == [] {
      assert [] + [t] == [t] && [t][1..] == [];
      var q := Decode(t, data);
      if q.Got? { assert DecodeAll([], q.rest) == Got([], q.rest); assert [q.value] + [] == [] + [q.value]; }
    } else {
      var p := Decode(fs[0], data);
      assert (fs + [t])[1..] == fs[1..] + [t];
      if p.Got? {
        DecodeSplits(fs[1..], t, p.rest);
        var r := DecodeAll(fs[1..], p.rest);
        if r.Got? && Decode(t, r.rest).Got? {
          var v := Decode(t, r.rest).value;
          assert [p.value] + (r.value + [v]) == [p.value] + r.value + [v];
        }
      }
    }
  }

  lemma {:induction false} EncodeSplits(fs: seq<Field>, t: Field, vs: seq<Value>, v: Value)
    requires AllFit(fs, vs) && Fits(t, v)
    ensures AllFit(fs + [t], vs + [v])
    ensures EncodeAll(fs + [t], vs + [v]) == EncodeAll(fs, vs) + Encode(t, v)
  {
    if fs == [] {
      assert [t][1..] == [] && [v][1..] == [];
      assert EncodeAll([t], [v]) == Encode(t, v) + EncodeAll([], []);
    } else {
      EncodeSplits(fs[1..], t, vs[1..], v);
      assert (fs + [t])[1..] == fs[1..] + [t] && (vs + [v])[1..] == vs[1..] + [v];
      Regroup(Encode(fs[0], vs[0]), EncodeAll(fs[1..], vs[1..]), Encode(t, v));
    }
  }

  lemma DecodeAllCons(fs: seq<Field>, buf: seq<Byte>, v: Value, tail: seq<Byte>, vs: seq<Value>, rest: seq<Byte>)
    requires fs != [] && Decode(fs[0], buf) == Got(v, tail) && DecodeAll(fs[1..], tail) == Got(vs, rest)
    ensures DecodeAll(fs, buf) == Got([v] + vs, rest)
  {
  }

  lemma {:induction false} DecodeEncodeAll(fs: seq<Field>, vs: seq<Value>, rest: seq<Byte>)
    requires AllFit(fs, vs)
    ensures DecodeAll(fs, EncodeAll(fs, vs) + rest) == Got(vs, rest)
  {
    if fs == [] {
      assert EncodeAll(fs, vs) + rest == rest;
    } else {
      var head, tail := Encode(fs[0], vs[0]), EncodeAll(fs[1..], vs[1..]);
      assert EncodeAll(fs, vs) + rest == head + (tail + rest) by { Regroup(head, tail, rest); }
      DecodeEncode(fs[0], vs[0], tail + rest);
      DecodeEncodeAll(fs[1..], vs[1..], rest);
      DecodeAllCons(fs, head + (tail + rest), vs[0], tail + rest, vs[1..], rest);
      assert vs == [vs[0]] + vs[1..];
    }
  }

  lemma AllFitCons(f: Field, v: Value, fs: seq<Field>, vs: seq<Value>)
    requires Fits(f, v) && AllFit(fs, vs)
    ensures AllFit([f] + fs, [v] + vs)
    ensures EncodeAll([f] + fs, [v] + vs) == Encode(f, v) + EncodeAll(fs, vs)
  {
    assert ([f] + fs)[1..] == fs && ([v] + vs)[1..] == vs;
  }

  lemma {:induction false} EncodeDecodeAll(fs: seq<Field>, buf: seq<Byte>)
    requires DecodeAll(fs, buf).Got?
    ensures var p := DecodeAll(fs, buf); AllFit(fs, p.value) && buf == EncodeAll(fs, p.value) + p.rest
  {
    if fs != [] {
      var p := Decode(fs[0], buf);
      var q := DecodeAll(fs[1..], p.rest);
      EncodeDecode(fs[0], buf);
      EncodeDecodeAll(fs[1..], p.rest);
      AllFitCons(fs[0], p.value, fs[1..], q.value);
      assert fs == [fs[0]] + fs[1..];
      Regroup(Encode(fs[0], p.value), EncodeAll(fs[1..], q.value), q.rest);
    }
  }

  /** No encoding is a proper prefix of another one of the same fields. */
  lemma EncodingsPrefixFree(fs: seq<Field>, vs: seq<Value>, us: seq<Value>, rest: seq<Byte>)
    requires AllFit(fs, vs) && AllFit(fs, us) && EncodeAll(fs, vs) == EncodeAll(fs, us) + rest
    ensures us == vs && rest == []
  {
    DecodeEncodeAll(fs, us, rest);
    DecodeEncodeAll(fs, vs, []);
    assert EncodeAll(fs, vs) + [] == EncodeAll(fs, vs);
  }

  /** Any shorter buffer raises an error. */
  lemma TruncatedOverruns(fs: seq<Field>, vs: seq<Value>, k: nat)
    requires AllFit(fs, vs) && k < |EncodeAll(fs, vs)|
    ensures DecodeAll(fs, EncodeAll(fs, vs)[..k]) == Overrun
  {
    var whole := EncodeAll(fs, vs);
    var p := DecodeAll(fs, whole[..k]);
    if p.Got? {
      EncodeDecodeAll(fs, whole[..k]);
      assert whole == whole[..k] + whole[k..];
      Regroup(EncodeAll(fs, p.value), p.rest, whole[k..]);
      EncodingsPrefixFree(fs, vs, p.value, p.rest + whole[k..]);
    }
  }
}
