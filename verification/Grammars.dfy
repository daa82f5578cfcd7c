/** Messages over a grammar: how each kind is tagged, what fields it has, and how
    the scanner counts its bytes. */
module Grammars {
  import opened Codec
  import opened Messages

  /** `fixed` and `unit` are the scanner's view: how many bytes follow the tag, and
      how many bytes each unit of the counted part at the end has, 0 if there is none. */
  datatype Grammar = Grammar(
    tag: Kind -> seq<Byte>,
    layout: Kind -> seq<Field>,
    fixed: Kind -> nat,
    unit: Kind -> nat,
    legal: Kind -> bool)
  {
    /** Tags are not empty and none is a prefix of another, and the scanner's view
        agrees with the declared fields. */
    ghost predicate Good() {
      && (forall k :: tag(k) != [])
      && (forall j, k :: legal(j) && legal(k) && tag(j) <= tag(k) ==> j == k)
      && (forall k :: Agree(layout(k), fixed(k), unit(k)))
    }
  }

  function Width(f: Field): nat {
    match f
    case U8 => 1
    case U16 => 2
    case S16 => 2
    case U32 => 4
    case Text => 0
    case Words => 0
  }

  function TotalWidth(fs: seq<Field>): nat {
    if fs == [] then 0 else Width(fs[0]) + TotalWidth(fs[1..])
  }

  ghost predicate AllFixed(fs: seq<Field>) {
    forall f :: f in fs ==> f != Text && f != Words
  }

  predicate IsCounted(t: Field, unit: nat) {
    (t == Text && unit == 1) || (t == Words && unit == 4)
  }

  /** Fixed fields of `fixed` bytes in all, then a counted field if there are units. */
  ghost predicate Agree(layout: seq<Field>, fixed: nat, unit: nat) {
    if unit == 0 then AllFixed(layout) && TotalWidth(layout) == fixed
    else exists fs, t :: layout == fs + [t] && AllFixed(fs) && TotalWidth(fs) == fixed && IsCounted(t, unit)
  }

  datatype Message = Message(kind: Kind, args: seq<Value>)

  ghost predicate WellFormed(g: Grammar, m: Message) {
    AllFit(g.layout(m.kind), m.args)
  }

  function Serialize(g: Grammar, m: Message): seq<Byte>
    requires WellFormed(g, m)
  {
    g.tag(m.kind) + EncodeAll(g.layout(m.kind), m.args)
  }

  /** `read_from`, given where the tag and the data begin: the tag is compared, then
      the fields are read. */
  function ReadFrom(g: Grammar, k: Kind, header: seq<Byte>, data: seq<Byte>): Parse<Message> {
    if header != g.tag(k) then Overrun
    else
      match DecodeAll(g.layout(k), data)
      case Got(args, rest) => Got(Message(k, args), rest)
      case Overrun => Overrun
  }

  /** Writing a message and reading it back gives the message, and no byte is left. */
  lemma ReadWritten(g: Grammar, m: Message)
    requires WellFormed(g, m)
    ensures ReadFrom(g, m.kind, g.tag(m.kind), EncodeAll(g.layout(m.kind), m.args)) == Got(m, [])
  {
    DecodeEncodeAll(g.layout(m.kind), m.args, []);
    assert EncodeAll(g.layout(m.kind), m.args) + [] == EncodeAll(g.layout(m.kind), m.args);
  }

  /** Reading a message off all of some bytes and writing it gives those bytes. */
  lemma WrittenRead(g: Grammar, k: Kind, header: seq<Byte>, data: seq<Byte>)
    requires ReadFrom(g, k, header, data).Got? && ReadFrom(g, k, header, data).rest == []
    ensures var m := ReadFrom(g, k, header, data).value;
      WellFormed(g, m) && m.kind == k && Serialize(g, m) == header + data
  {
    EncodeDecodeAll(g.layout(k), data);
  }

  /** A message cut short anywhere, in its tag or in its fields, raises an error. */
  lemma ReadTruncated(g: Grammar, m: Message, n: nat)
    requires WellFormed(g, m) && n < |Serialize(g, m)|
    ensures
      var cut := Serialize(g, m)[..n];
      var data := if n < |g.tag(m.kind)| then n else |g.tag(m.kind)|;
      ReadFrom(g, m.kind, cut[..data], cut[data..]) == Overrun
  {
    var tag, fields := g.tag(m.kind), EncodeAll(g.layout(m.kind), m.args);
    if |tag| <= n {
      assert Serialize(g, m)[..n][|tag|..] == fields[..n - |tag|];
      TruncatedOverruns(g.layout(m.kind), m.args, n - |tag|);
    }
  }
}
