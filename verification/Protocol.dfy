/** The JSON-lines wire protocol: framing with a size cap, field validation, and the byte
    strings that AEAD tags authenticate. */
module Protocol {
  import opened Wrappers
  import opened Text
  import opened Json
  import Base64

  const MAX_MESSAGE_BYTES := 65536
  const NEWLINE: byte := 10

  const MSG_HELLO := "hello"
  const MSG_LEGACY_READING := "legacy_reading"
  const MSG_MLKEM_REQUEST_PUBKEY := "mlkem_request_pubkey"
  const MSG_MLKEM_PUBKEY := "mlkem_pubkey"
  const MSG_MLKEM_ENCAPS := "mlkem_encaps"
  const MSG_MLKEM_ESTABLISHED := "mlkem_established"
  const MSG_PROTECTED_READING := "protected_reading"

  const CAP_CHACHA20_POLY1305 := "chacha20-poly1305"
  const CAP_MLKEM_768 := "ml-kem-768"

  /** A JSON object, in the order its members are written. */
  type Message = seq<Member>

  /** `message.get(name)`: when a name is repeated the last member wins. */
  function Get(m: Message, name: string): Option<Json> {
    if m == [] then None
    else if m[|m| - 1].name == name then Some(m[|m| - 1].value)
    else Get(m[..|m| - 1], name)
  }

  predicate WellFormedMessage(m: Message) {
    forall i | 0 <= i < |m| :: WellFormed(m[i].value)
  }

  // ----- field validation -----

  function RequireStr(m: Message, field: string): Result<string> {
    match Get(m, field)
    case Some(Str(s)) => if s != "" then Ok(s) else Err(ProtocolError)
    case _ => Err(ProtocolError)
  }

  function RequireInt(m: Message, field: string): Result<int> {
    match Get(m, field)
    case Some(Int(n)) => Ok(n)
    case _ => Err(ProtocolError)
  }

  /** The field is a non-empty string. */
  predicate HasText(m: Message, field: string) {
    Get(m, field).Some? && Get(m, field).value.Str? && Get(m, field).value.s != ""
  }

  function TextOf(m: Message, field: string): string
    requires HasText(m, field)
  {
    Get(m, field).value.s
  }

  predicate HasType(m: Message, kind: string) {
    Get(m, "type") == Some(Str(kind))
  }

  /** `b64d`: anything but a well-formed base64 string is a protocol error. */
  function B64d(v: Json): Result<bytes> {
    match v
    case Str(text) =>
      (match Base64.Decode(text)
       case Some(data) => Ok(data)
       case None => Err(ProtocolError))
    case _ => Err(ProtocolError)
  }

  // ----- framing -----

  function EncodeMessage(m: Message): bytes {
    Utf8(Print(Obj(m))) + [NEWLINE]
  }

  function NewlineIndex(data: bytes): (n: nat)
    ensures n <= |data|
    ensures n < |data| ==> data[n] == NEWLINE
    ensures NEWLINE !in data[..n]
  {
    if data == [] || data[0] == NEWLINE then 0 else 1 + NewlineIndex(data[1..])
  }

  /** `readline(limit)`: up to and including the first newline, at most `limit` bytes. */
  function Line(data: bytes, limit: nat): (line: bytes)
    ensures line <= data
  {
    var n := NewlineIndex(data);
    var end := if n < |data| then n + 1 else n;
    data[..if end < limit then end else limit]
  }

  /** The checks `read_message` makes on one line. */
  function ParseLine(line: bytes): Result<Message> {
    if line == [] then Err(ConnectionClosed)
    else if |line| > MAX_MESSAGE_BYTES then Err(ProtocolError)
    else if line[|line| - 1] != NEWLINE then Err(ProtocolError)
    else
      match Utf8Decode(line)
      case None => Err(ProtocolError)
      case Some(text) =>
        match Loads(text)
        case Some(Obj(members)) => Ok(members)
        case _ => Err(ProtocolError)
  }

  /** The next message of a byte stream, and the bytes left unread. */
  function ReadMessage(data: bytes): (r: (Result<Message>, bytes))
    ensures |r.1| <= |data|
    ensures r.0.Ok? ==> |r.1| < |data|
  {
    var line := Line(data, MAX_MESSAGE_BYTES + 1);
    (ParseLine(line), data[|line|..])
  }

  /** The bytes end before the line does, so a read waits for more. */
  predicate Unfinished(data: bytes) { NewlineIndex(data) == |data| <= MAX_MESSAGE_BYTES }

  /** A buffered stream and its read position. */
  class Stream {
    var unread: bytes

    constructor (data: bytes)
      ensures unread == data
    {
      unread := data;
    }

    method ReadLine(limit: nat) returns (line: bytes)
      modifies this
      ensures line == Line(old(unread), limit) && unread == old(unread)[|line|..]
    {
      line := Line(unread, limit);
      unread := unread[|line|..];
    }

    method Read() returns (r: Result<Message>)
      modifies this
      ensures (r, unread) == ReadMessage(old(unread))
    {
      var line := ReadLine(MAX_MESSAGE_BYTES + 1);
      if line == [] {
        return Err(ConnectionClosed);
      }
      if |line| > MAX_MESSAGE_BYTES {
        return Err(ProtocolError);
      }
      if line[|line| - 1] != NEWLINE {
        return Err(ProtocolError);
      }
      var text := Utf8Decode(line);
      if text.None? {
        return Err(ProtocolError);
      }
      var message := Loads(text.value);
      if message.None? || !message.value.Obj? {
        return Err(ProtocolError);
      }
      return Ok(message.value.members);
    }
  }

  /** The message's frame is within the cap. */
  predicate Fits(m: Message) { |EncodeMessage(m)| <= MAX_MESSAGE_BYTES }

  /** Some bytes are read as this message. */
  ghost predicate Readable(m: Message) { exists data :: ReadMessage(data).0 == Ok(m) }

  /** What a read can give: a message that some bytes are read as, or an error. */
  ghost predicate MayRead(read: Result<Message>) { read.Ok? ==> Readable(read.value) }

  /** All messages of a stream up to the first failure, and that failure. */
  function Drain(data: bytes): (seq<Message>, Exn)
    decreases |data|
  {
    match ReadMessage(data)
    case (Err(e), _) => ([], e)
    case (Ok(m), rest) =>
      var (ms, e) := Drain(rest);
      ([m] + ms, e)
  }

  /** A stream ends with a clean close or with a protocol error. */
  lemma {:induction false} DrainEnds(data: bytes)
    ensures Drain(data).1 == ConnectionClosed || Drain(data).1 == ProtocolError
    decreases |data|
  {
    hide Line, ParseLine;
    var (read, rest) := ReadMessage(data);
    if read.Ok? {
      DrainEnds(rest);
    } else {
      LineErrors(Line(data, MAX_MESSAGE_BYTES + 1));
    }
  }

  lemma LineErrors(line: bytes)
    ensures ParseLine(line).Err? ==>
              ParseLine(line).error == if line == [] then ConnectionClosed else ProtocolError
  {
    hide Utf8Decode, Loads;
  }

  function EncodeAll(ms: seq<Message>): bytes {
    if ms == [] then [] else EncodeMessage(ms[0]) + EncodeAll(ms[1..])
  }

  /** The printed text of a message is newline-free, so its frame ends at its only newline. */
  lemma FrameLine(m: Message)
    requires WellFormedMessage(m)
    ensures NewlineIndex(EncodeMessage(m)) == |EncodeMessage(m)| - 1
    ensures NEWLINE !in EncodeMessage(m)[..|EncodeMessage(m)| - 1]
  {
    var text := Print(Obj(m));
    PrintAscii(Obj(m));
    Utf8OfAscii(text);
    assert EncodeMessage(m)[..|text|] == Utf8(text);
    assert forall i | 0 <= i < |text| :: EncodeMessage(m)[i] == Utf8(text)[i] != NEWLINE;
    NewlineIndexIs(EncodeMessage(m), |text|);
  }

  lemma {:induction false} NewlineIndexIs(data: bytes, k: nat)
    requires k < |data| && data[k] == NEWLINE
    requires forall i | 0 <= i < k :: data[i] != NEWLINE
    ensures NewlineIndex(data) == k
  {
    if k > 0 {
      NewlineIndexIs(data[1..], k - 1);
    }
  }

  lemma {:induction false} NewlineIndexAppend(data: bytes, rest: bytes)
    requires NewlineIndex(data) < |data|
    ensures NewlineIndex(data + rest) == NewlineIndex(data)
  {
    if data[0] != NEWLINE {
      assert (data + rest)[1..] == data[1..] + rest;
      NewlineIndexAppend(data[1..], rest);
    }
  }

  lemma ParseFrame(m: Message)
    requires WellFormedMessage(m) && |EncodeMessage(m)| <= MAX_MESSAGE_BYTES
    ensures ParseLine(EncodeMessage(m)) == Ok(m)
  {
    var text := Print(Obj(m));
    PrintStart(Obj(m));
    ParsePrintObjLine(m);
    Utf8Append(text, "\n");
    assert Utf8("\n") == [NEWLINE];
    Utf8RoundTrip(text + "\n");
  }

  lemma ParsePrintObjLine(m: Message)
    requires WellFormedMessage(m)
    ensures Loads(Print(Obj(m)) + "\n") == Some(Obj(m))
  {
    PrintStart(Obj(m));
    if m != [] {
      ParsePrintMembers(m, "\n");
    }
    ParsePrintObj(m, "\n");
    assert SkipSpace("\n") == "";
  }

  lemma {:induction false} Utf8Append(s: string, t: string)
    ensures Utf8(s + t) == Utf8(s) + Utf8(t)
  {
    if s == "" {
      assert s + t == t;
    } else {
      assert (s + t)[1..] == s[1..] + t;
      Utf8Append(s[1..], t);
    }
  }

  /** A frame is read back exactly when it is within the cap; a longer one is a protocol error. */
  lemma ReadFrame(m: Message, rest: bytes)
    requires WellFormedMessage(m)
    ensures |EncodeMessage(m)| <= MAX_MESSAGE_BYTES ==> ReadMessage(EncodeMessage(m) + rest) == (Ok(m), rest)
    ensures |EncodeMessage(m)| > MAX_MESSAGE_BYTES ==> ReadMessage(EncodeMessage(m) + rest).0 == Err(ProtocolError)
  {
    hide ParseLine;
    var frame := EncodeMessage(m);
    FrameLine(m);
    NewlineIndexAppend(frame, rest);
    var line := Line(frame + rest, MAX_MESSAGE_BYTES + 1);
    if |frame| <= MAX_MESSAGE_BYTES {
      assert line == frame;
      ParseFrame(m);
    } else {
      LongLine(line);
    }
  }

  /** A frame on its own. */
  lemma ReadOne(m: Message)
    requires WellFormedMessage(m)
    ensures ReadMessage(EncodeMessage(m)).0 == if Fits(m) then Ok(m) else Err(ProtocolError)
    ensures Fits(m) ==> Readable(m)
  {
    hide EncodeMessage, ReadMessage;
    ReadFrame(m, []);
    assert EncodeMessage(m) + [] == EncodeMessage(m);
  }

  lemma LongLine(line: bytes)
    requires |line| > MAX_MESSAGE_BYTES
    ensures ParseLine(line) == Err(ProtocolError)
  {
  }

  /** A complete line of printable text is read as what its JSON is, and refused when that is not an
      object. */
  lemma ReadTextLine(text: string, rest: bytes)
    requires Ascii(text) && |text| < MAX_MESSAGE_BYTES
    ensures ReadMessage(Utf8(text) + [NEWLINE] + rest)
         == (match Loads(text + "\n") case Some(Obj(members)) => Ok(members) case _ => Err(ProtocolError), rest)
  {
    hide ParseLine, Utf8, NewlineIndex;
    var line := Utf8(text) + [NEWLINE];
    TextLineEnds(text);
    ParseTextLine(text);
    NewlineIndexAppend(line, rest);
    assert Line(line + rest, MAX_MESSAGE_BYTES + 1) == line;
  }

  lemma TextLineEnds(text: string)
    requires Ascii(text)
    ensures |Utf8(text)| == |text| && NewlineIndex(Utf8(text) + [NEWLINE]) == |text|
  {
    hide Utf8, NewlineIndex;
    var line := Utf8(text) + [NEWLINE];
    Utf8OfAscii(text);
    assert forall i | 0 <= i < |text| :: line[i] == Utf8(text)[i] != NEWLINE;
    NewlineIndexIs(line, |text|);
  }

  lemma ParseTextLine(text: string)
    requires Ascii(text) && |text| < MAX_MESSAGE_BYTES
    ensures ParseLine(Utf8(text) + [NEWLINE])
         == match Loads(text + "\n") case Some(Obj(members)) => Ok(members) case _ => Err(ProtocolError)
  {
    hide Loads, Utf8Decode, Utf8;
    Utf8OfAscii(text);
    NewlineUtf8();
    Utf8Append(text, "\n");
    Utf8RoundTrip(text + "\n");
  }

  lemma NewlineUtf8()
    ensures Utf8("\n") == [NEWLINE]
  {
  }

  /** A line that holds another value than an object, two values, or nothing is refused, and exactly
      that line is consumed. */
  lemma OnlyOneObject(v: Json, m: Message, rest: bytes)
    requires WellFormed(v) && WellFormedMessage(m) && |Print(Obj(m))| + |Print(v)| < MAX_MESSAGE_BYTES
    ensures !v.Obj? ==> ReadMessage(Utf8(Print(v)) + [NEWLINE] + rest) == (Err(ProtocolError), rest)
    ensures ReadMessage(Utf8(Print(Obj(m)) + Print(v)) + [NEWLINE] + rest) == (Err(ProtocolError), rest)
    ensures ReadMessage([NEWLINE] + rest) == (Err(ProtocolError), rest)
  {
    hide ReadMessage, Print, Utf8, WellFormed;
    PrintAscii(v);
    PrintAscii(Obj(m)) by { WellFormedObj(m); }
    LoadsValue(v);
    LoadsTwo(m, v);
    LoadsBlank();
    ReadTextLine(Print(v), rest);
    ReadTextLine(Print(Obj(m)) + Print(v), rest);
    ReadTextLine("", rest);
    assert Utf8("") == [] by { Utf8OfAscii(""); }
    assert Utf8("") + [NEWLINE] + rest == [NEWLINE] + rest && "" + "\n" == "\n";
  }

  lemma WellFormedObj(m: Message)
    requires WellFormedMessage(m)
    ensures WellFormed(Obj(m))
  {
  }

  lemma LoadsValue(v: Json)
    requires WellFormed(v)
    ensures Loads(Print(v) + "\n") == Some(v)
  {
    hide ParseValue, Print;
    PrintStart(v);
    ParsePrint(v, "\n");
    assert SkipSpace("\n") == "";
  }

  lemma LoadsTwo(m: Message, v: Json)
    requires WellFormed(v) && WellFormedMessage(m)
    ensures Loads(Print(Obj(m)) + Print(v) + "\n") == None
  {
    hide ParseValue, Print;
    var rest := Print(v) + "\n";
    WellFormedObj(m);
    PrintStart(Obj(m));
    PrintStart(v);
    if m != [] {
      ParsePrintMembers(m, rest);
    }
    ParsePrintObj(m, rest);
    assert Print(Obj(m)) + Print(v) + "\n" == Print(Obj(m)) + rest;
    assert rest[0] == Print(v)[0];
  }

  lemma LoadsBlank()
    ensures Loads("\n") == None
  {
    assert SkipSpace("\n") == "";
  }

  ghost predicate Sendable(ms: seq<Message>) {
    forall i | 0 <= i < |ms| :: WellFormedMessage(ms[i]) && |EncodeMessage(ms[i])| <= MAX_MESSAGE_BYTES
  }

  /** Bytes taken by the first `j` messages. */
  function Boundary(ms: seq<Message>, j: nat): nat
    requires j <= |ms|
  {
    |EncodeAll(ms[..j])|
  }

  /** How many whole messages fit into the first `k` bytes. */
  function Complete(ms: seq<Message>, k: nat): (j: nat)
    ensures j <= |ms|
  {
    if ms == [] || k < |EncodeMessage(ms[0])| then 0
    else 1 + Complete(ms[1..], k - |EncodeMessage(ms[0])|)
  }

  lemma {:induction false} CompleteBrackets(ms: seq<Message>, k: nat)
    ensures var j := Complete(ms, k);
            Boundary(ms, j) <= k && (j < |ms| ==> k < Boundary(ms, j + 1))
  {
    if ms != [] {
      var n := |EncodeMessage(ms[0])|;
      assert ms[..1] == [ms[0]] && EncodeAll([ms[0]]) == EncodeMessage(ms[0]);
      if k >= n {
        CompleteBrackets(ms[1..], k - n);
        var j := Complete(ms[1..], k - n);
        assert ms[..j + 1][1..] == ms[1..][..j];
        if j < |ms| - 1 {
          assert ms[..j + 2][1..] == ms[1..][..j + 1];
        }
      }
    }
  }

  lemma {:induction false} BoundaryIncreases(ms: seq<Message>, i: nat, j: nat)
    requires i < j <= |ms|
    ensures Boundary(ms, i) < Boundary(ms, j)
  {
    assert ms[..j][0] == ms[0];
    if i > 0 {
      assert ms[..i][1..] == ms[1..][..i - 1] && ms[..j][1..] == ms[1..][..j - 1];
      BoundaryIncreases(ms[1..], i - 1, j - 1);
    }
  }

  lemma {:induction false} DrainPrefix(ms: seq<Message>, k: nat)
    requires Sendable(ms) && k <= |EncodeAll(ms)|
    ensures var j := Complete(ms, k);
            && Drain(EncodeAll(ms)[..k]).0 == ms[..j]
            && Drain(EncodeAll(ms)[..k]).1 == if Boundary(ms, j) == k then ConnectionClosed else ProtocolError
  {
    hide EncodeMessage, ReadMessage;
    var data := EncodeAll(ms)[..k];
    if k == 0 {
      DrainNothing();
      if ms != [] {
        FrameNotEmpty(ms[0]);
      }
    } else {
      var frame := EncodeMessage(ms[0]);
      if k < |frame| {
        assert data == frame[..k];
        PartialFrame(ms[0], k);
      } else {
        var rest := EncodeAll(ms[1..])[..k - |frame|];
        assert data == frame + rest;
        ReadFrame(ms[0], rest);
        FrameNotEmpty(ms[0]);
        DrainPrefix(ms[1..], k - |frame|);
        var j := Complete(ms[1..], k - |frame|);
        assert ms[..j + 1] == [ms[0]] + ms[1..][..j];
      }
    }
  }

  lemma FrameNotEmpty(m: Message)
    ensures EncodeMessage(m) != []
  {
  }

  lemma DrainNothing()
    ensures Drain([]) == ([], ConnectionClosed)
  {
  }

  lemma PartialFrame(m: Message, k: nat)
    requires WellFormedMessage(m) && 0 < k < |EncodeMessage(m)| <= MAX_MESSAGE_BYTES
    ensures Drain(EncodeMessage(m)[..k]) == ([], ProtocolError)
  {
    var data := EncodeMessage(m)[..k];
    FrameLine(m);
    assert forall i | 0 <= i < k :: data[i] == EncodeMessage(m)[..|EncodeMessage(m)| - 1][i] != NEWLINE;
    assert NewlineIndex(data) == k;
    assert Line(data, MAX_MESSAGE_BYTES + 1) == data;
    assert data[k - 1] != NEWLINE;
  }

  /** Reading back a cut stream of frames yields a prefix of the messages, and the end is a
      clean close exactly when the cut is at a message boundary. */
  lemma TruncatedStream(ms: seq<Message>, k: nat)
    requires Sendable(ms) && k <= |EncodeAll(ms)|
    ensures var (got, end) := Drain(EncodeAll(ms)[..k]);
            && got <= ms
            && Boundary(ms, |got|) <= k
            && (|got| < |ms| ==> k < Boundary(ms, |got| + 1))
            && (end == ConnectionClosed <==> exists j | 0 <= j <= |ms| :: Boundary(ms, j) == k)
            && (end != ConnectionClosed ==> end == ProtocolError)
  {
    hide Drain, EncodeAll, EncodeMessage, Boundary, Complete;
    var j := Complete(ms, k);
    DrainPrefix(ms, k);
    CompleteBrackets(ms, k);
    forall i | 0 <= i <= |ms| && Boundary(ms, i) == k
      ensures i == j
    {
      if i < j {
        BoundaryIncreases(ms, i, j);
      } else if j + 1 < i {
        BoundaryIncreases(ms, j + 1, i);
      }
    }
  }

  lemma {:induction false} CompleteAll(ms: seq<Message>)
    ensures Complete(ms, |EncodeAll(ms)|) == |ms|
  {
    if ms != [] {
      CompleteAll(ms[1..]);
    }
  }

  /** Reading a concatenation of frames yields the same messages and a clean close. */
  lemma StreamRoundTrip(ms: seq<Message>)
    requires Sendable(ms)
    ensures Drain(EncodeAll(ms)) == (ms, ConnectionClosed)
  {
    var all := EncodeAll(ms);
    CompleteAll(ms);
    DrainPrefix(ms, |all|);
    assert all[..|all|] == all && ms[..|ms|] == ms;
  }

  // ----- authenticated context -----

  function LegacyAad(deviceId: string, sequence: int): bytes {
    Utf8(deviceId + ":" + IntText(sequence))
  }

  function SessionAad(sessionId: string): bytes {
    Utf8(sessionId)
  }

  function Strings(ss: seq<string>): (items: seq<Json>)
    ensures |items| == |ss| && forall i | 0 <= i < |ss| :: items[i] == Str(ss[i])
  {
    seq(|ss|, i requires 0 <= i < |ss| => Str(ss[i]))
  }

  function HelloClaims(deviceId: string, capabilities: seq<string>): bytes {
    Utf8(Print(Obj([Member("device_id", Str(deviceId)), Member("capabilities", Arr(Strings(capabilities)))])))
  }

  function GatewayClaims(gatewayId: string): bytes {
    Utf8(Print(Obj([Member("gateway_id", Str(gatewayId)), Member("scope", Str("gateway-cloud-handshake"))])))
  }

  lemma IntTextHasNoColon(n: int)
    ensures ':' !in IntText(n)
  {
  }

  /** The last colon of a string separates it in one way only. */
  lemma LastColonSplits(d1: string, x1: string, d2: string, x2: string)
    requires ':' !in x1 && ':' !in x2
    requires d1 + ":" + x1 == d2 + ":" + x2
    ensures d1 == d2 && x1 == x2
  {
    var s, t := d1 + ":" + x1, d2 + ":" + x2;
    assert s[|d1|] == ':' && forall i | |d1| < i < |s| :: s[i] != ':';
    assert t[|d2|] == ':' && forall i | |d2| < i < |t| :: t[i] != ':';
    assert d1 == s[..|d1|] == t[..|d2|] == d2;
    assert x1 == s[|d1| + 1..] == t[|d2| + 1..] == x2;
  }

  /** Neither the id nor the sequence of a reading's AAD can be changed, even when ids
      contain colons: the last colon is the separator. */
  lemma LegacyAadInjective(d1: string, n1: int, d2: string, n2: int)
    requires LegacyAad(d1, n1) == LegacyAad(d2, n2)
    ensures d1 == d2 && n1 == n2
  {
    Utf8Injective(d1 + ":" + IntText(n1), d2 + ":" + IntText(n2));
    IntTextHasNoColon(n1);
    IntTextHasNoColon(n2);
    LastColonSplits(d1, IntText(n1), d2, IntText(n2));
    IntTextInjective(n1, n2);
  }

  lemma ClaimsInjective(v: Json, w: Json)
    requires WellFormed(v) && WellFormed(w) && Utf8(Print(v)) == Utf8(Print(w))
    ensures v == w
  {
    Utf8Injective(Print(v), Print(w));
    PrintInjective(v, w);
  }

  lemma HelloClaimsInjective(d1: string, c1: seq<string>, d2: string, c2: seq<string>)
    requires HelloClaims(d1, c1) == HelloClaims(d2, c2)
    ensures d1 == d2 && c1 == c2
  {
    var v := Obj([Member("device_id", Str(d1)), Member("capabilities", Arr(Strings(c1)))]);
    var w := Obj([Member("device_id", Str(d2)), Member("capabilities", Arr(Strings(c2)))]);
    ClaimsInjective(v, w);
    assert v.members[0] == w.members[0] && v.members[1] == w.members[1];
    assert forall i | 0 <= i < |c1| :: Str(c1[i]) == Strings(c1)[i] == Strings(c2)[i] == Str(c2[i]);
  }

  lemma GatewayClaimsInjective(g1: string, g2: string)
    requires GatewayClaims(g1) == GatewayClaims(g2)
    ensures g1 == g2
  {
    var v := Obj([Member("gateway_id", Str(g1)), Member("scope", Str("gateway-cloud-handshake"))]);
    var w := Obj([Member("gateway_id", Str(g2)), Member("scope", Str("gateway-cloud-handshake"))]);
    ClaimsInjective(v, w);
    assert v.members[0] == w.members[0];
  }

  /** No byte string is authenticated context of two roles. */
  lemma FamiliesDisjoint(d: string, n: int, d': string, caps: seq<string>, g: string)
    ensures LegacyAad(d, n) != HelloClaims(d', caps)
    ensures LegacyAad(d, n) != GatewayClaims(g)
    ensures HelloClaims(d', caps) != GatewayClaims(g)
  {
    hide Utf8, Strings;
    var reading := d + ":" + IntText(n);
    var v := Obj([Member("device_id", Str(d')), Member("capabilities", Arr(Strings(caps)))]);
    var w := Obj([Member("gateway_id", Str(g)), Member("scope", Str("gateway-cloud-handshake"))]);
    assert IsDigit(reading[|reading| - 1]);
    assert Print(v)[|Print(v)| - 1] == '}' == Print(w)[|Print(w)| - 1];
    if LegacyAad(d, n) == HelloClaims(d', caps) {
      Utf8Injective(reading, Print(v));
    }
    if LegacyAad(d, n) == GatewayClaims(g) {
      Utf8Injective(reading, Print(w));
    }
    assert v.members[0] != w.members[0];
    if HelloClaims(d', caps) == GatewayClaims(g) {
      ClaimsInjective(v, w);
    }
  }

  // ----- sensor readings -----

  /** `reading_to_bytes(generate_reading(...))`; timestamp and temperature are opaque. */
  function SensorReading(deviceId: string, sequence: int, timestamp: string, temperature: string): Message {
    [Member("device_id", Str(deviceId)), Member("timestamp", Str(timestamp)),
     Member("temperature_c", Float(temperature)), Member("unit", Str("celsius")),
     Member("sequence", Int(sequence))]
  }

  function ReadingBytes(reading: Message): bytes {
    Utf8(Print(Obj(reading)))
  }

  predicate HasReadingFields(m: Message) {
    && Get(m, "device_id").Some? && Get(m, "timestamp").Some?
    && Get(m, "temperature_c").Some? && Get(m, "sequence").Some?
  }

  /** `parse_reading_bytes` */
  function ParseReading(plaintext: bytes): (r: Result<Message>)
    ensures r.Ok? ==> HasReadingFields(r.value)
    ensures r.Err? ==> r.error == ProtocolError
  {
    match Utf8Decode(plaintext)
    case None => Err(ProtocolError)
    case Some(text) =>
      match Loads(text)
      case Some(Obj(members)) => if HasReadingFields(members) then Ok(members) else Err(ProtocolError)
      case _ => Err(ProtocolError)
  }

  /** A reading is read back as it was written. */
  lemma ReadingRoundTrip(reading: Message)
    requires WellFormedMessage(reading) && HasReadingFields(reading)
    ensures ParseReading(ReadingBytes(reading)) == Ok(reading)
  {
    Utf8RoundTrip(Print(Obj(reading)));
    LoadsPrint(Obj(reading));
  }

  /** What the sensor writes carries its own device id and sequence. */
  lemma SensorReadingFields(deviceId: string, sequence: int, timestamp: string, temperature: string)
    requires FloatToken(temperature)
    ensures var r := SensorReading(deviceId, sequence, timestamp, temperature);
            && WellFormedMessage(r)
            && HasReadingFields(r)
            && Get(r, "device_id") == Some(Str(deviceId))
            && Get(r, "sequence") == Some(Int(sequence))
            && ParseReading(ReadingBytes(r)) == Ok(r)
  {
    var r := SensorReading(deviceId, sequence, timestamp, temperature);
    GetAt(r, 0);
    GetAt(r, 1);
    GetAt(r, 2);
    GetAt(r, 4);
    ReadingRoundTrip(r);
  }

  /** With distinct names, every member is found by its own name. */
  lemma {:induction false} GetAt(m: Message, i: nat)
    requires i < |m|
    requires forall j | i < j < |m| :: m[j].name != m[i].name
    ensures Get(m, m[i].name) == Some(m[i].value)
  {
    if i < |m| - 1 {
      GetAt(m[..|m| - 1], i);
    }
  }
}
