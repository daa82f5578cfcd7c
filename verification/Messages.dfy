/** The 29 messages of the core protocol: tag, fields, and the bytes they travel as. */
module Messages {
  import opened Codec

  datatype Kind =
    | Hello | HelloBack | Noop | Close | Enter | Leave | ClipboardGrab | Screensaver
    | ResetOptions | InfoAck | KeepAlive | KeyDown | KeyRepeat | KeyUp | MouseDown
    | MouseUp | MouseMove | MouseRelMove | MouseWheelMove | ClipboardData | Info
    | SetOptions | FileTransfer | DragInfo | InfoQuery | Incompatible | Busy | Unknown | Bad

  function Ascii(s: string): (bytes: seq<Byte>)
    requires forall c :: c in s ==> c as int < 256
    ensures |bytes| == |s| && forall i :: 0 <= i < |s| ==> bytes[i] == s[i] as int
  {
    seq<Byte>(|s|, i requires 0 <= i < |s| => assert s[i] in s; s[i] as Byte)
  }

  function TagText(k: Kind): (s: string)
    ensures s != "" && forall c :: c in s ==> c as int < 256
  {
    match k
    case Hello => "Synergy"
    case HelloBack => "Synergy"
    case Noop => "CNOP"
    case Close => "CBYE"
    case Enter => "CINN"
    case Leave => "COUT"
    case ClipboardGrab => "CCLP"
    case Screensaver => "CSEC"
    case ResetOptions => "CROP"
    case InfoAck => "CIAK"
    case KeepAlive => "CALV"
    case KeyDown => "DKDN"
    case KeyRepeat => "DKRP"
    case KeyUp => "DKUP"
    case MouseDown => "DMDN"
    case MouseUp => "DMUP"
    case MouseMove => "DMMV"
    case MouseRelMove => "DMRM"
    case MouseWheelMove => "DMWM"
    case ClipboardData => "DCLP"
    case Info => "DINF"
    case SetOptions => "DSOP"
    case FileTransfer => "DFTR"
    case DragInfo => "DDRG"
    case InfoQuery => "QINF"
    case Incompatible => "EICV"
    case Busy => "EBSY"
    case Unknown => "EUNK"
    case Bad => "EBAD"
  }

  function Tag(k: Kind): (tag: seq<Byte>)
    ensures |tag| == |TagText(k)|
  {
    Ascii(TagText(k))
  }

  /** The fields as declared, a `Version` being its two numbers. */
  function Layout(k: Kind): seq<Field> {
    match k
    case Hello => [U16, U16]
    case HelloBack => [U16, U16, Text]
    case Enter => [S16, S16, U32, U16]
    case ClipboardGrab => [U8, U32]
    case Screensaver => [U8]
    case KeyDown => [U16, U16, U16]
    case KeyRepeat => [U16, U16, U16, U16]
    case KeyUp => [U16, U16, U16]
    case MouseDown => [U8]
    case MouseUp => [U8]
    case MouseMove => [S16, S16]
    case MouseRelMove => [S16, S16]
    case MouseWheelMove => [S16, S16]
    case ClipboardData => [U8, U32, U8, Text]
    case Info => [S16, S16, U16, U16, U16, S16, S16]
    case SetOptions => [Words]
    case FileTransfer => [U8, Text]
    case DragInfo => [U16, Text]
    case Incompatible => [U16, U16]
    case _ => []
  }

  datatype Flow = STC | CTS

  /** The messages a flow may carry: the greeting is `Hello` from the server and
      `HelloBack` from the client; all others go either way. */
  predicate Legal(flow: Flow, k: Kind) {
    k != (if flow.STC? then HelloBack else Hello)
  }

  // ---- Tags ----

  /** The kinds by the first four bytes of their tags; both greetings start alike. */
  function KindOf(flow: Flow, a: Byte, b: Byte, c: Byte, d: Byte): (k: Kind)
  {
    if a == 'S' as int then if flow.STC? then Hello else HelloBack
    else if a == 'C' as int then
      if b == 'N' as int then Noop
      else if b == 'B' as int then Close
      else if b == 'O' as int then Leave
      else if b == 'C' as int then ClipboardGrab
      else if b == 'S' as int then Screensaver
      else if b == 'R' as int then ResetOptions
      else if b == 'A' as int then KeepAlive
      else if c == 'A' as int then InfoAck
      else Enter
    else if a == 'D' as int then
      if b == 'K' as int then if c == 'D' as int then KeyDown else if c == 'R' as int then KeyRepeat else KeyUp
      else if b == 'M' as int then
        if c == 'D' as int then MouseDown
        else if c == 'U' as int then MouseUp
        else if c == 'M' as int then MouseMove
        else if c == 'R' as int then MouseRelMove
        else MouseWheelMove
      else if b == 'C' as int then ClipboardData
      else if b == 'I' as int then Info
      else if b == 'S' as int then SetOptions
      else if b == 'F' as int then FileTransfer
      else DragInfo
    else if a == 'Q' as int then InfoQuery
    else if b == 'I' as int then Incompatible
    else if b == 'U' as int then Unknown
    else if c == 'S' as int then Busy
    else Bad
  }

  lemma TagFound(flow: Flow, k: Kind)
    requires Legal(flow, k)
    ensures |Tag(k)| >= 4 && KindOf(flow, Tag(k)[0], Tag(k)[1], Tag(k)[2], Tag(k)[3]) == k
  {
  }

  /** No tag of a flow is a prefix of another. */
  lemma TagsPrefixFree(flow: Flow, j: Kind, k: Kind)
    requires Legal(flow, j) && Legal(flow, k) && Tag(j) <= Tag(k)
    ensures j == k
  {
    TagFound(flow, j);
    TagFound(flow, k);
  }
}
