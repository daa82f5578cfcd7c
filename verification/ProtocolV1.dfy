/** Version 1 of the core protocol: its grammar agrees with its declared fields, so all
    that holds of scanners and writers over a good grammar holds of it. */
module ProtocolV1 {
  import opened Codec
  import opened Messages
  import opened Grammars
  import opened Scanner
  import opened ScannerTheorems
  import opened ScannerMachine

  /** The fixed items that follow the tag, each `any{n}` of the grammar by its `n`. */
  function Items(k: Kind): seq<nat> {
    match k
    case Hello => [2, 2]
    case HelloBack => [2, 2]
    case Enter => [2, 2, 4, 2]
    case ClipboardGrab => [1, 4]
    case Screensaver => [1]
    case KeyDown => [2, 2, 2]
    case KeyRepeat => [2, 2, 2, 2]
    case KeyUp => [2, 2, 2]
    case MouseDown => [1]
    case MouseUp => [1]
    case MouseMove => [2, 2]
    case MouseRelMove => [2, 2]
    case MouseWheelMove => [2, 2]
    case ClipboardData => [1, 4, 1]
    case Info => [2, 2, 2, 2, 2, 2, 2]
    case FileTransfer => [1]
    case DragInfo => [2]
    case Incompatible => [2, 2]
    case _ => []
  }

  function Sum(items: seq<nat>): nat {
    if items == [] then 0 else items[0] + Sum(items[1..])
  }

  /** Bytes per unit of the counted part at the end, or 0 where there is none. */
  function UnitSize(k: Kind): nat {
    match k
    case HelloBack => 1
    case ClipboardData => 1
    case SetOptions => 4
    case FileTransfer => 1
    case DragInfo => 1
    case _ => 0
  }

  function V1(flow: Flow): Grammar {
    Grammar(Tag, Layout, k => Sum(Items(k)), UnitSize, k => Legal(flow, k))
  }

  // ---- The grammar against the declared fields ----

  /** The fields before the counted one. */
  function FixedFields(k: Kind): seq<Field> {
    match k
    case HelloBack => [U16, U16]
    case ClipboardData => [U8, U32, U8]
    case SetOptions => []
    case FileTransfer => [U8]
    case DragInfo => [U16]
    case _ => Layout(k)
  }

  lemma FixedFieldsAre(k: Kind)
    ensures UnitSize(k) == 0 ==> FixedFields(k) == Layout(k)
    ensures UnitSize(k) == 1 ==> Layout(k) == FixedFields(k) + [Text]
    ensures UnitSize(k) == 4 ==> Layout(k) == FixedFields(k) + [Words]
    ensures UnitSize(k) in {0, 1, 4}
  {
  }

  lemma FixedFieldsAreFixed(k: Kind)
    ensures forall f :: f in FixedFields(k) ==> f != Text && f != Words
  {
  }

  lemma ItemsAreFields(k: Kind)
    ensures |FixedFields(k)| == |Items(k)|
    ensures forall i :: 0 <= i < |Items(k)| ==> Width(FixedFields(k)[i]) == Items(k)[i]
  {
  }

  lemma {:induction false} SameWidths(fs: seq<Field>, items: seq<nat>)
    requires |fs| == |items| && forall i :: 0 <= i < |items| ==> Width(fs[i]) == items[i]
    ensures TotalWidth(fs) == Sum(items)
  {
    if fs != [] { SameWidths(fs[1..], items[1..]); }
  }

  /** The scanner's grammar and the declared fields agree on every message: as many
      fixed bytes, and a counted field of the same unit in the same place. */
  lemma GrammarMatchesLayout(k: Kind)
    ensures Agree(Layout(k), Sum(Items(k)), UnitSize(k))
  {
    ItemsAreFields(k);
    SameWidths(FixedFields(k), Items(k));
    FixedFieldsAreFixed(k);
    FixedFieldsAre(k);
    var fs := FixedFields(k);
    assert UnitSize(k) == 1 ==> Layout(k) == fs + [Text] && IsCounted(Text, UnitSize(k));
    assert UnitSize(k) == 4 ==> Layout(k) == fs + [Words] && IsCounted(Words, UnitSize(k));
  }

  lemma V1Good(flow: Flow)
    ensures V1(flow).Good()
  {
    forall k ensures Tag(k) != [] && Agree(Layout(k), Sum(Items(k)), UnitSize(k)) {
      GrammarMatchesLayout(k);
    }
    forall j, k | Legal(flow, j) && Legal(flow, k) && Tag(j) <= Tag(k) ensures j == k {
      TagsPrefixFree(flow, j, k);
    }
  }

  /** The tags as the scanner knows them, next to those the messages are written with. */
  function ScannedTag(k: Kind): string {
    match k
    case Hello => "Synergy"
    case HelloBack => "Synergy"
    case Noop => "CNOP"
    case Close => "CBYE"
    case Enter => "CINN"
    case Leave => "COUT"
    case ClipboardGrab => "CCLP"
    case Screensaver => "CSEC"
    case ResetOptions => "CROP"
    case InfoAck => "CIAK"
    case KeepAlive => "CALV"
    case KeyDown => "DKDN"
    case KeyRepeat => "DKRP"
    case KeyUp => "DKUP"
    case MouseDown => "DMDN"
    case MouseUp => "DMUP"
    case MouseMove => "DMMV"
    case MouseRelMove => "DMRM"
    case MouseWheelMove => "DMWM"
    case ClipboardData => "DCLP"
    case Info => "DINF"
    case SetOptions => "DSOP"
    case FileTransfer => "DFTR"
    case DragInfo => "DDRG"
    case InfoQuery => "QINF"
    case Incompatible => "EICV"
    case Busy => "EBSY"
    case Unknown => "EUNK"
    case Bad => "EBAD"
  }

  lemma TagsAgree(k: Kind)
    ensures ScannedTag(k) == TagText(k)
  {
  }

  // ---- Which numbers are signed ----

  function Ones(n: nat): (bytes: seq<Byte>)
    ensures |bytes| == n && forall b :: b in bytes ==> b == 0xFF
  {
    seq<Byte>(n, _ => 0xFF)
  }

  function OnesIn(f: Field): Value {
    Number(match f
           case U8 => 0xFF
           case U16 => 0xFFFF
           case S16 => -1
           case U32 => 0xFFFF_FFFF
           case Text => 0
           case Words => 0)
  }

  lemma OnesDecode(f: Field, n: nat)
    requires f != Text && f != Words && Width(f) <= n
    ensures Decode(f, Ones(n)) == Got(OnesIn(f), Ones(n - Width(f)))
  {
    assert forall i :: 0 <= i < n ==> Ones(n)[i] in Ones(n);
    FieldsOnTheWire(f, Ones(n));
    assert Ones(n)[Width(f)..] == Ones(n - Width(f));
  }

  lemma {:induction false} AllOnesDecode(fs: seq<Field>)
    requires AllFixed(fs)
    ensures
      var p := DecodeAll(fs, Ones(TotalWidth(fs)));
      p.Got? && p.rest == [] && |p.value| == |fs| && forall i :: 0 <= i < |fs| ==> p.value[i] == OnesIn(fs[i])
  {
    if fs == [] {
      assert Ones(0) == [];
    } else {
      assert fs[0] in fs && forall f :: f in fs[1..] ==> f in fs;
      OnesDecode(fs[0], TotalWidth(fs));
      AllOnesDecode(fs[1..]);
      var q := DecodeAll(fs[1..], Ones(TotalWidth(fs[1..])));
      forall i | 0 <= i < |fs| ensures ([OnesIn(fs[0])] + q.value)[i] == OnesIn(fs[i]) {
        if i > 0 { assert q.value[i - 1] == OnesIn(fs[1..][i - 1]); }
      }
    }
  }

  /** What the numbers of a message are if all their bits are set: coordinates are -1, and
      ids, masks, counts, sizes and sequence numbers the greatest of their width. */
  function AllBitsSet(k: Kind): seq<int> {
    match k
    case Hello => [65535, 65535]
    case HelloBack => [65535, 65535]
    case Enter => [-1, -1, 4294967295, 65535]
    case ClipboardGrab => [255, 4294967295]
    case Screensaver => [255]
    case KeyDown => [65535, 65535, 65535]
    case KeyRepeat => [65535, 65535, 65535, 65535]
    case KeyUp => [65535, 65535, 65535]
    case MouseDown => [255]
    case MouseUp => [255]
    case MouseMove => [-1, -1]
    case MouseRelMove => [-1, -1]
    case MouseWheelMove => [-1, -1]
    case ClipboardData => [255, 4294967295, 255]
    case Info => [-1, -1, 65535, 65535, 65535, -1, -1]
    case FileTransfer => [255]
    case DragInfo => [65535]
    case Incompatible => [65535, 65535]
    case _ => []
  }

  lemma FieldsByOnes(k: Kind)
    ensures |FixedFields(k)| == |AllBitsSet(k)|
    ensures forall i :: 0 <= i < |AllBitsSet(k)| ==> OnesIn(FixedFields(k)[i]) == Number(AllBitsSet(k)[i])
  {
  }

  /** Each fixed part, all ones on the wire, reads as these numbers, and nothing is left. */
  lemma AllBitsSetRead(k: Kind)
    ensures
      var ns, p := AllBitsSet(k), DecodeAll(FixedFields(k), Ones(Sum(Items(k))));
      p.Got? && p.rest == [] && |p.value| == |ns| && forall i :: 0 <= i < |ns| ==> p.value[i] == Number(ns[i])
    ensures Layout(k) == FixedFields(k) + if UnitSize(k) == 0 then [] else if UnitSize(k) == 1 then [Text] else [Words]
  {
    ItemsAreFields(k);
    SameWidths(FixedFields(k), Items(k));
    FixedFieldsAreFixed(k);
    FixedFieldsAre(k);
    AllOnesDecode(FixedFields(k));
    FieldsByOnes(k);
  }

  // ---- What holds of version 1 ----

  /** Both flows share every tag but the greeting's, which reads one way from a
      server and another from a client. */
  lemma FlowsDifferInGreeting(k: Kind)
    ensures V1(STC).legal(k) && V1(CTS).legal(k) <==> !IsGreeting(k)
    ensures IsGreeting(k) ==> V1(STC).legal(k) != V1(CTS).legal(k) && V1(STC).tag(k) == V1(STC).tag(Hello)
    ensures V1(STC).legal(Hello) && V1(CTS).legal(HelloBack)
    ensures IsGreeting(k) <==> k == Hello || k == HelloBack
  {
  }

  /** No greeting is sent on to the server: nothing that is begins with its tag. */
  lemma NoGreetingIsForwarded(flow: Flow, verdict: Verdict, ms: seq<Message>)
    requires AllLegal(V1(flow), ms)
    ensures forall chunk :: chunk in Forwarded(V1(flow), verdict, ms) ==> !(Ascii("Synergy") <= chunk)
  {
    var g := V1(flow);
    V1Good(flow);
    var at := ForwardedAre(g, verdict, ms);
    forall chunk | chunk in Forwarded(g, verdict, ms) ensures !(Ascii("Synergy") <= chunk) {
      var k: nat :| k < |at| && chunk == Forwarded(g, verdict, ms)[k];
      assert at[k] in at;
      OthersDoNotBeginLikeGreetings(flow, ms[at[k]]);
    }
  }

  lemma OthersDoNotBeginLikeGreetings(flow: Flow, m: Message)
    requires WellFormed(V1(flow), m) && Legal(flow, m.kind) && !IsGreeting(m.kind)
    ensures !(Ascii("Synergy") <= Serialize(V1(flow), m))
  {
    var greeting := if flow.STC? then Hello else HelloBack;
    var tag := Tag(m.kind);
    assert Tag(greeting) == Ascii("Synergy");
    assert |tag| == 4 <= |Ascii("Synergy")|;
    if Ascii("Synergy") <= Serialize(V1(flow), m) {
      assert tag == Serialize(V1(flow), m)[..4];
      TagsPrefixFree(flow, m.kind, greeting);
    }
  }

  /** `process` returns true exactly on the bytes of messages legal for the flow,
      none of them refused, and on no buffer can the messages be other ones. */
  lemma V1AcceptsExactlyTheWritten(flow: Flow, s: seq<Byte>, log: seq<Message>, verdict: Verdict)
    ensures V1(flow).Good()
    ensures Run(V1(flow), s, log, verdict).0 == Returned(true) <==>
      exists ms :: AllLegal(V1(flow), ms) && s == SerializeAll(V1(flow), ms) && Accepted(log, ms, verdict)
    ensures forall ms, ns ::
      AllLegal(V1(flow), ms) && AllLegal(V1(flow), ns) && SerializeAll(V1(flow), ms) == SerializeAll(V1(flow), ns) ==>
        ms == ns
  {
    V1Good(flow);
    AcceptsExactlyTheWritten(V1(flow), s, log, verdict);
    forall ms, ns |
      AllLegal(V1(flow), ms) && AllLegal(V1(flow), ns) && SerializeAll(V1(flow), ms) == SerializeAll(V1(flow), ns)
      ensures ms == ns
    {
      UniquelyDecodable(V1(flow), ms, ns);
    }
  }
}
