/** Reading and writing of fields through a moving cursor. */
module FieldIO {
  import opened Codec
  import opened Messages
  import opened Grammars

  // ---- Reading ----

  lemma UnbigGrows(buf: seq<Byte>, from: nat, to: nat)
    requires from <= to < |buf|
    ensures Unbig(buf[from..to + 1]) == 256 * Unbig(buf[from..to]) + buf[to]
  {
    assert buf[from..to + 1][..to - from] == buf[from..to];
  }

  /** Big-endian bytes to a number; fails, and stays, if they are not all there. */
  method ReadNumber(buf: seq<Byte>, pos: nat, width: nat) returns (ok: bool, n: nat, end: nat)
    requires pos <= |buf|
    ensures pos <= end <= |buf|
    ensures DecodeNumber(buf[pos..], width) == if ok then Got(n, buf[end..]) else Overrun
  {
    n, end := 0, pos;
    if |buf| - pos < width { return false, n, end; }
    while end < pos + width
      invariant pos <= end <= pos + width
      invariant n == Unbig(buf[pos..end])
    {
      UnbigGrows(buf, pos, end);
      n := 256 * n + buf[end];
      end := end + 1;
    }
    assert buf[pos..][..width] == buf[pos..end] && buf[pos..][width..] == buf[end..];
    ok := true;
  }

  lemma {:induction false} DecodeWordsGrows(bytes: seq<Byte>, count: nat)
    requires |bytes| == 4 * count + 4
    ensures DecodeWords(bytes, count + 1) == DecodeWords(bytes[..4 * count], count) + [Unbig(bytes[4 * count..])]
  {
    if count == 0 {
      assert bytes[..4] == bytes == bytes[0..];
    } else {
      DecodeWordsGrows(bytes[4..], count - 1);
      assert bytes[4..][..4 * (count - 1)] == bytes[..4 * count][4..];
      assert bytes[4..][4 * (count - 1)..] == bytes[4 * count..];
      assert bytes[..4 * count][..4] == bytes[..4];
    }
  }

  /** One more number read from where the ones so far end. */
  lemma WordsRead(buf: seq<Byte>, from: nat, i: nat)
    requires from + 4 * i + 4 <= |buf|
    ensures
      var end := from + 4 * i;
      DecodeWords(buf[from..end + 4], i + 1) == DecodeWords(buf[from..end], i) + [Unbig(buf[end..][..4])]
  {
    var end := from + 4 * i;
    var bytes := buf[from..end + 4];
    assert bytes[..4 * i] == buf[from..end] && bytes[4 * i..] == buf[end..][..4];
    DecodeWordsGrows(bytes, i);
  }

  /** A count, then that many four-byte numbers. */
  method ReadWords(buf: seq<Byte>, pos: nat) returns (ok: bool, words: seq<nat>, end: nat)
    requires pos <= |buf|
    ensures pos <= end <= |buf|
    ensures Decode(Words, buf[pos..]) == if ok then Got(Numbers(words), buf[end..]) else Overrun
  {
    words := [];
    var size;
    ok, size, end := ReadNumber(buf, pos, 4);
    if !ok { return; }
    if |buf| - end < 4 * size { return false, words, end; }
    var from, i := end, 0;
    while i < size
      invariant i <= size && end == from + 4 * i <= |buf|
      invariant words == DecodeWords(buf[from..end], i)
    {
      var got, w, next := ReadNumber(buf, end, 4);
      assert |buf[next..]| == |buf[end..]| - 4;
      assert next == end + 4;
      WordsRead(buf, from, i);
      words, end, i := words + [w], next, i + 1;
    }
    assert buf[from..][..4 * size] == buf[from..end] && buf[from..][4 * size..] == buf[end..];
  }

  method ReadText(buf: seq<Byte>, pos: nat) returns (ok: bool, text: seq<Byte>, end: nat)
    requires pos <= |buf|
    ensures pos <= end <= |buf|
    ensures Decode(Text, buf[pos..]) == if ok then Got(Bytes(text), buf[end..]) else Overrun
  {
    text := [];
    var size;
    ok, size, end := ReadNumber(buf, pos, 4);
    if !ok { return; }
    if |buf| - end < size { return false, text, end; }
    text := buf[end..end + size];
    assert buf[end..][..size] == text && buf[end..][size..] == buf[end + size..];
    end := end + size;
  }

  method ReadField(buf: seq<Byte>, pos: nat, f: Field) returns (ok: bool, v: Value, end: nat)
    requires pos <= |buf|
    ensures pos <= end <= |buf|
    ensures Decode(f, buf[pos..]) == if ok then Got(v, buf[end..]) else Overrun
  {
    v := Number(0);
    match f {
      case U8 => { var n; ok, n, end := ReadNumber(buf, pos, 1); v := Number(n); }
      case U16 => { var n; ok, n, end := ReadNumber(buf, pos, 2); v := Number(n); }
      case S16 => {
        var n;
        ok, n, end := ReadNumber(buf, pos, 2);
        var i: int := n;
        v := Number(if i < 0x8000 then i else i - 0x1_0000);
      }
      case U32 => { var n; ok, n, end := ReadNumber(buf, pos, 4); v := Number(n); }
      case Text => { var t; ok, t, end := ReadText(buf, pos); v := Bytes(t); }
      case Words => { var ws; ok, ws, end := ReadWords(buf, pos); v := Numbers(ws); }
    }
  }

  lemma DecodeAllGrows(fs: seq<Field>, buf: seq<Byte>, i: nat)
    requires i < |fs|
    ensures
      var p := DecodeAll(fs[..i], buf);
      if p.Overrun? || Decode(fs[i], p.rest).Overrun? then DecodeAll(fs[..i + 1], buf) == Overrun
      else DecodeAll(fs[..i + 1], buf) == Got(p.value + [Decode(fs[i], p.rest).value], Decode(fs[i], p.rest).rest)
  {
    assert fs[..i + 1] == fs[..i] + [fs[i]];
    DecodeSplits(fs[..i], fs[i], buf);
  }

  lemma {:induction false} OverrunStays(fs: seq<Field>, buf: seq<Byte>, i: nat)
    requires i <= |fs| && DecodeAll(fs[..i], buf).Overrun?
    ensures DecodeAll(fs, buf).Overrun?
    decreases |fs| - i
  {
    if i < |fs| {
      DecodeAllGrows(fs, buf, i);
      OverrunStays(fs, buf, i + 1);
    } else {
      assert fs[..i] == fs;
    }
  }

  /** `read_from`: the tag is compared, then each field is read where the last one ended. */
  method ReadMessage(g: Grammar, k: Kind, header: seq<Byte>, data: seq<Byte>) returns (p: Parse<Message>)
    ensures p == ReadFrom(g, k, header, data)
  {
    if header != g.tag(k) { return Overrun; }
    var fs, vs: seq<Value>, pos, i := g.layout(k), [], 0, 0;
    assert data[0..] == data;
    while i < |fs|
      invariant i <= |fs| && pos <= |data|
      invariant DecodeAll(fs[..i], data) == Got(vs, data[pos..])
    {
      DecodeAllGrows(fs, data, i);
      var ok, v, end := ReadField(data, pos, fs[i]);
      if !ok {
        OverrunStays(fs, data, i + 1);
        return Overrun;
      }
      vs, pos, i := vs + [v], end, i + 1;
    }
    assert fs[..i] == fs;
    p := Got(Message(k, vs), data[pos..]);
  }

  // ---- Writing ----

  /** The buffer with `bytes` in place from `pos` on. */
  ghost predicate Written(was: seq<Byte>, now: seq<Byte>, pos: nat, bytes: seq<Byte>) {
    pos + |bytes| <= |was| && now == was[..pos] + bytes + was[pos + |bytes|..]
  }

  lemma WrittenTwice(a: seq<Byte>, b: seq<Byte>, c: seq<Byte>, pos: nat, x: seq<Byte>, y: seq<Byte>)
    requires Written(a, b, pos, x) && Written(b, c, pos + |x|, y)
    ensures Written(a, c, pos, x + y)
  {
    assert b[..pos + |x|] == a[..pos] + x;
    assert b[pos + |x| + |y|..] == a[pos + |x + y|..];
  }

  lemma Assembled(was: seq<Byte>, now: seq<Byte>, pos: nat, end: nat)
    requires |now| == |was| && pos <= end <= |was|
    requires now[..pos] == was[..pos] && now[end..] == was[end..]
    ensures Written(was, now, pos, now[pos..end])
  {
    assert now == now[..pos] + now[pos..end] + now[end..];
  }

  method WriteNumber(buf: array<Byte>, pos: nat, n: nat, width: nat) returns (end: nat)
    requires pos + width <= buf.Length
    modifies buf
    ensures end == pos + width && Written(old(buf[..]), buf[..], pos, Big(n, width))
  {
    end := pos + width;
    var i: nat, rest: nat := width, n;
    while i > 0
      invariant i <= width
      invariant Big(rest, i) + buf[pos + i..end] == Big(n, width)
      invariant buf[..pos] == old(buf[..pos]) && buf[end..] == old(buf[end..])
    {
      ghost var low := buf[pos + i..end];
      i := i - 1;
      buf[pos + i] := rest % 256;
      assert buf[pos + i..end] == [rest % 256] + low;
      Regroup(Big(rest / 256, i), [rest % 256], low);
      rest := rest / 256;
    }
    Assembled(old(buf[..]), buf[..], pos, end);
    assert Big(rest, 0) + buf[pos..end] == buf[pos..end] == buf[..][pos..end];
  }

  method WriteBytes(buf: array<Byte>, pos: nat, bytes: seq<Byte>) returns (end: nat)
    requires pos + |bytes| <= buf.Length
    modifies buf
    ensures end == pos + |bytes| && Written(old(buf[..]), buf[..], pos, bytes)
  {
    end := pos;
    while end < pos + |bytes|
      invariant pos <= end <= pos + |bytes|
      invariant buf[pos..end] == bytes[..end - pos]
      invariant buf[..pos] == old(buf[..pos]) && buf[end..] == old(buf[end..])
    {
      buf[end] := bytes[end - pos];
      end := end + 1;
    }
    Assembled(old(buf[..]), buf[..], pos, end);
    assert buf[..][pos..end] == buf[pos..end];
  }

  lemma {:induction false} EncodeWordsGrows(words: seq<nat>, i: nat)
    requires i < |words|
    ensures EncodeWords(words[..i + 1]) == EncodeWords(words[..i]) + Big(words[i], 4)
  {
    var now, next := words[..i], words[..i + 1];
    if i == 0 {
      assert next[1..] == [] && EncodeWords([]) == [];
    } else {
      assert next[1..] == words[1..][..i] && now[1..] == words[1..][..i - 1];
      EncodeWordsGrows(words[1..], i - 1);
    }
  }

  method WriteWords(buf: array<Byte>, pos: nat, words: seq<nat>) returns (end: nat)
    requires pos + 4 * |words| <= buf.Length
    modifies buf
    ensures end == pos + 4 * |words| && Written(old(buf[..]), buf[..], pos, EncodeWords(words))
  {
    end := pos;
    var i := 0;
    while i < |words|
      invariant i <= |words| && end == pos + 4 * i
      invariant Written(old(buf[..]), buf[..], pos, EncodeWords(words[..i]))
    {
      ghost var before := buf[..];
      EncodeWordsGrows(words, i);
      end := WriteNumber(buf, end, words[i], 4);
      WrittenTwice(old(buf[..]), before, buf[..], pos, EncodeWords(words[..i]), Big(words[i], 4));
      i := i + 1;
    }
    assert words[..i] == words;
  }

  /** `size_of` */
  function SizeOf(f: Field, v: Value): nat
    requires Fits(f, v)
  {
    match f
    case U8 => 1
    case U16 => 2
    case S16 => 2
    case U32 => 4
    case Text => 4 + |v.bytes|
    case Words => 4 + 4 * |v.words|
  }

  lemma SizeIsExact(f: Field, v: Value)
    requires Fits(f, v)
    ensures SizeOf(f, v) == |Encode(f, v)|
  {
  }

  method WriteField(buf: array<Byte>, pos: nat, f: Field, v: Value) returns (end: nat)
    requires Fits(f, v) && pos + SizeOf(f, v) <= buf.Length
    modifies buf
    ensures end == pos + SizeOf(f, v) && Written(old(buf[..]), buf[..], pos, Encode(f, v))
  {
    match f {
      case U8 => end := WriteNumber(buf, pos, v.n, 1);
      case U16 => end := WriteNumber(buf, pos, v.n, 2);
      case S16 => end := WriteNumber(buf, pos, if v.n < 0 then v.n + 0x1_0000 else v.n, 2);
      case U32 => end := WriteNumber(buf, pos, v.n, 4);
      case Text =>
        end := WriteNumber(buf, pos, |v.bytes|, 4);
        ghost var before := buf[..];
        end := WriteBytes(buf, end, v.bytes);
        WrittenTwice(old(buf[..]), before, buf[..], pos, Big(|v.bytes|, 4), v.bytes);
      case Words =>
        end := WriteNumber(buf, pos, |v.words|, 4);
        ghost var before := buf[..];
        end := WriteWords(buf, end, v.words);
        WrittenTwice(old(buf[..]), before, buf[..], pos, Big(|v.words|, 4), EncodeWords(v.words));
    }
  }

  lemma EncodeAllGrows(fs: seq<Field>, vs: seq<Value>, i: nat)
    requires AllFit(fs, vs) && i < |fs|
    ensures AllFit(fs[..i], vs[..i]) && AllFit(fs[..i + 1], vs[..i + 1])
    ensures EncodeAll(fs[..i + 1], vs[..i + 1]) == EncodeAll(fs[..i], vs[..i]) + Encode(fs[i], vs[i])
  {
    assert fs[..i + 1] == fs[..i] + [fs[i]] && vs[..i + 1] == vs[..i] + [vs[i]];
    EncodeSplits(fs[..i], fs[i], vs[..i], vs[i]);
  }

  lemma {:induction false} PrefixFitsIn(fs: seq<Field>, vs: seq<Value>, i: nat)
    requires AllFit(fs, vs) && i <= |fs|
    ensures |EncodeAll(fs[..i], vs[..i])| <= |EncodeAll(fs, vs)|
    decreases |fs| - i
  {
    if i < |fs| {
      EncodeAllGrows(fs, vs, i);
      PrefixFitsIn(fs, vs, i + 1);
    } else {
      assert fs[..i] == fs && vs[..i] == vs;
    }
  }

  /** `size` */
  method Size(g: Grammar, m: Message) returns (n: nat)
    requires WellFormed(g, m)
    ensures n == |Serialize(g, m)|
  {
    var fs, i := g.layout(m.kind), 0;
    n := |g.tag(m.kind)|;
    while i < |fs|
      invariant i <= |fs| && n == |g.tag(m.kind)| + |EncodeAll(fs[..i], m.args[..i])|
    {
      EncodeAllGrows(fs, m.args, i);
      SizeIsExact(fs[i], m.args[i]);
      n := n + SizeOf(fs[i], m.args[i]);
      i := i + 1;
    }
    assert fs[..i] == fs && m.args[..i] == m.args;
  }

  /** A buffer of `size()` bytes filled by `write_to`: the tag, then the fields. */
  method WriteMessage(g: Grammar, m: Message) returns (buf: array<Byte>)
    requires WellFormed(g, m)
    ensures fresh(buf) && buf[..] == Serialize(g, m)
  {
    var fs, tag := g.layout(m.kind), g.tag(m.kind);
    var size := Size(g, m);
    buf := new Byte[size](_ => 0);
    ghost var blank := buf[..];
    var end := WriteBytes(buf, 0, tag);
    assert EncodeAll(fs[..0], m.args[..0]) == [] && tag + [] == tag;
    var i := 0;
    while i < |fs|
      invariant i <= |fs| && end == |tag| + |EncodeAll(fs[..i], m.args[..i])|
      invariant Written(blank, buf[..], 0, tag + EncodeAll(fs[..i], m.args[..i]))
    {
      ghost var before, done := buf[..], EncodeAll(fs[..i], m.args[..i]);
      EncodeAllGrows(fs, m.args, i);
      PrefixFitsIn(fs, m.args, i + 1);
      SizeIsExact(fs[i], m.args[i]);
      end := WriteField(buf, end, fs[i], m.args[i]);
      WrittenTwice(blank, before, buf[..], 0, tag + done, Encode(fs[i], m.args[i]));
      Regroup(tag, done, Encode(fs[i], m.args[i]));
      i := i + 1;
    }
    assert fs[..i] == fs && m.args[..i] == m.args;
  }
}
