/** JSON text as `json.dumps(value, separators=(",", ":"))` prints it and `json.loads` reads it
    (RFC 8259). Floating-point numbers are opaque tokens: their text is carried, not their value. */
module Json {
  import opened Wrappers
  import opened Text

  datatype Json =
    | Null
    | Bool(b: bool)
    | Int(n: int)
    | Float(token: string)
    | Str(s: string)
    | Arr(items: seq<Json>)
    | Obj(members: seq<Member>)

  datatype Member = Member(name: string, value: Json)

  // ----- strings -----

  function HexDigit(d: nat): char
    requires d < 16
  {
    if d < 10 then DigitChar(d) else ('a' as int + d - 10) as char
  }

  predicate IsHex(c: char) { IsDigit(c) || 'a' <= c <= 'f' || 'A' <= c <= 'F' }

  function HexValue(c: char): (v: nat)
    requires IsHex(c)
    ensures v < 16
  {
    if IsDigit(c) then DigitValue(c)
    else if 'a' <= c <= 'f' then c as int - 'a' as int + 10
    else c as int - 'A' as int + 10
  }

  function Hex4(n: nat): (s: string)
    requires n < 0x10000
    ensures |s| == 4
  {
    [HexDigit(n / 4096), HexDigit(n / 256 % 16), HexDigit(n / 16 % 16), HexDigit(n % 16)]
  }

  predicate IsHex4(s: string) {
    |s| == 4 && IsHex(s[0]) && IsHex(s[1]) && IsHex(s[2]) && IsHex(s[3])
  }

  function Hex4Value(s: string): (n: nat)
    requires IsHex4(s)
    ensures n < 0x10000
  {
    HexValue(s[0]) * 4096 + HexValue(s[1]) * 256 + HexValue(s[2]) * 16 + HexValue(s[3])
  }

  lemma HexDigitRoundTrip(d: nat)
    requires d < 16
    ensures IsHex(HexDigit(d)) && HexValue(HexDigit(d)) == d
  {
  }

  lemma Base16Digits(n: nat)
    requires n < 0x10000
    ensures n == n / 4096 * 4096 + n / 256 % 16 * 256 + n / 16 % 16 * 16 + n % 16
  {
    var q := n / 16;
    var r := q / 16;
    assert r == n / 256 && r / 16 == n / 4096;
    assert n == 16 * q + n % 16 && q == 16 * r + q % 16 && r == 16 * (r / 16) + r % 16;
  }

  lemma Hex4RoundTrip(n: nat)
    requires n < 0x10000
    ensures IsHex4(Hex4(n)) && Hex4Value(Hex4(n)) == n
  {
    hide HexDigit, HexValue, IsHex;
    Base16Digits(n);
    HexDigitRoundTrip(n / 4096);
    HexDigitRoundTrip(n / 256 % 16);
    HexDigitRoundTrip(n / 16 % 16);
    HexDigitRoundTrip(n % 16);
  }

  predicate Plain(c: char) { ' ' <= c <= '~' && c != '"' && c != '\\' }

  /** One character of a string literal; everything outside printable ASCII is escaped, and
      characters past U+FFFF become a surrogate pair. */
  function EscapeChar(c: char): (s: string)
    ensures s != "" && s[0] != '"'
  {
    var n := c as int;
    if c == '"' then "\\\""
    else if c == '\\' then "\\\\"
    else if c == '\n' then "\\n"
    else if c == '\r' then "\\r"
    else if c == '\t' then "\\t"
    else if n == 0x0C then "\\f"
    else if n == 0x08 then "\\b"
    else if Plain(c) then [c]
    else if n < 0x10000 then "\\u" + Hex4(n)
    else "\\u" + Hex4(0xD800 + (n - 0x10000) / 1024) + "\\u" + Hex4(0xDC00 + (n - 0x10000) % 1024)
  }

  function Escape(s: string): string {
    if s == "" then "" else EscapeChar(s[0]) + Escape(s[1..])
  }

  function PrintStr(s: string): string { "\"" + Escape(s) + "\"" }

  /** One character of a string literal and the number of characters it took. Raw control
      characters are refused; so are lone surrogates, which Python would keep. */
  function NextChar(s: string): (r: Option<(char, nat)>)
    requires s != ""
    ensures r.Some? ==> 1 <= r.value.1 <= |s|
  {
    if s[0] < ' ' then None
    else if s[0] != '\\' then Some((s[0], 1))
    else if |s| < 2 then None
    else if s[1] == '"' || s[1] == '\\' || s[1] == '/' then Some((s[1], 2))
    else if s[1] == 'n' then Some(('\n', 2))
    else if s[1] == 'r' then Some(('\r', 2))
    else if s[1] == 't' then Some(('\t', 2))
    else if s[1] == 'f' then Some((0x0C as char, 2))
    else if s[1] == 'b' then Some((0x08 as char, 2))
    else if s[1] == 'u' && |s| >= 6 && IsHex4(s[2..6]) then
      var n := Hex4Value(s[2..6]);
      if n < 0xD800 || 0xE000 <= n then Some((n as char, 6))
      else if n < 0xDC00 && |s| >= 12 && s[6] == '\\' && s[7] == 'u' && IsHex4(s[8..12]) then
        var m := Hex4Value(s[8..12]);
        if 0xDC00 <= m < 0xE000 then
          Some(((0x10000 + (n - 0xD800) * 1024 + (m - 0xDC00)) as char, 12))
        else None
      else None
    else None
  }

  /** The string up to its closing quote, and what follows the quote. */
  function ParseChars(s: string): (r: Option<(string, string)>)
    ensures r.Some? ==> |r.value.1| < |s|
  {
    if s == "" then None
    else if s[0] == '"' then Some(("", s[1..]))
    else
      match NextChar(s)
      case None => None
      case Some((c, used)) =>
        match ParseChars(s[used..])
        case None => None
        case Some((cs, rest)) => Some(([c] + cs, rest))
  }

  lemma NextEscapedChar(c: char, rest: string)
    ensures NextChar(EscapeChar(c) + rest) == Some((c, |EscapeChar(c)|))
  {
    hide Hex4, Hex4Value, IsHex4;
    var n := c as int;
    var s := EscapeChar(c) + rest;
    if 0x10000 <= n {
      var hi, lo := 0xD800 + (n - 0x10000) / 1024, 0xDC00 + (n - 0x10000) % 1024;
      Hex4RoundTrip(hi);
      Hex4RoundTrip(lo);
      assert s[2..6] == Hex4(hi) && s[8..12] == Hex4(lo);
    } else if !Plain(c) && s[1] == 'u' {
      Hex4RoundTrip(n);
      assert s[2..6] == Hex4(n);
    }
  }

  lemma {:induction false} ParseEscaped(s: string, rest: string)
    ensures ParseChars(Escape(s) + "\"" + rest) == Some((s, rest))
  {
    var text := Escape(s) + "\"" + rest;
    if s == "" {
      assert text[1..] == rest;
    } else {
      hide EscapeChar, NextChar;
      var tail := Escape(s[1..]) + "\"" + rest;
      assert text == EscapeChar(s[0]) + tail;
      NextEscapedChar(s[0], tail);
      assert text[|EscapeChar(s[0])|..] == tail;
      ParseEscaped(s[1..], rest);
      assert [s[0]] + s[1..] == s;
    }
  }

  /** A string of plain characters is printed as itself between quotes. */
  lemma {:induction false} EscapePlain(s: string)
    requires forall i | 0 <= i < |s| :: Plain(s[i])
    ensures Escape(s) == s
  {
    if s != "" {
      EscapePlain(s[1..]);
    }
  }

  // ----- numbers -----

  function DigitRun(s: string): (n: nat)
    ensures n <= |s|
    ensures AllDigits(s[..n])
    ensures n < |s| ==> !IsDigit(s[n])
  {
    if s == "" || !IsDigit(s[0]) then 0 else 1 + DigitRun(s[1..])
  }

  function IntLength(s: string): (n: nat)
    ensures n <= |s|
  {
    var sign := if s != "" && s[0] == '-' then 1 else 0;
    if |s| <= sign || !IsDigit(s[sign]) then 0
    else if s[sign] == '0' then sign + 1
    else sign + DigitRun(s[sign..])
  }

  function FractionLength(s: string): (n: nat)
    ensures n <= |s|
  {
    if |s| >= 2 && s[0] == '.' && IsDigit(s[1]) then 1 + DigitRun(s[1..]) else 0
  }

  function ExponentLength(s: string): (n: nat)
    ensures n <= |s|
  {
    if s == "" || (s[0] != 'e' && s[0] != 'E') then 0
    else
      var sign := if |s| >= 2 && (s[1] == '+' || s[1] == '-') then 1 else 0;
      var digits := DigitRun(s[1 + sign..]);
      if digits == 0 then 0 else 1 + sign + digits
  }

  /** Lengths of the integer part and of the whole number at the front of `s`. */
  function NumberLength(s: string): (r: (nat, nat))
    ensures r.0 <= r.1 <= |s|
  {
    var i := IntLength(s);
    if i == 0 then (0, 0)
    else
      var f := FractionLength(s[i..]);
      (i, i + f + ExponentLength(s[i + f..]))
  }

  predicate FloatToken(token: string) {
    Ascii(token) && var (i, n) := NumberLength(token); 0 < i < n == |token|
  }

  function IntValue(s: string): int {
    if s != "" && s[0] == '-' && AllDigits(s[1..]) then 0 - DigitsValue(s[1..])
    else if AllDigits(s) then DigitsValue(s)
    else 0
  }

  function ParseNumber(s: string): (r: Option<(Json, string)>)
    ensures r.Some? ==> |r.value.1| < |s|
  {
    var (i, n) := NumberLength(s);
    if i == 0 then None
    else if i == n then Some((Int(IntValue(s[..i])), s[i..]))
    else Some((Float(s[..n]), s[n..]))
  }

  /** What follows a value inside printed JSON. */
  predicate Delimited(rest: string) {
    rest == "" || rest[0] == ',' || rest[0] == ']' || rest[0] == '}' || rest[0] == '\n'
  }

  lemma {:induction false} DigitRunStops(s: string, rest: string)
    requires rest == "" || !IsDigit(rest[0])
    ensures DigitRun(s + rest) == DigitRun(s)
  {
    if s == "" {
      assert s + rest == rest;
    } else {
      assert (s + rest)[1..] == s[1..] + rest;
      DigitRunStops(s[1..], rest);
    }
  }

  lemma IntLengthStops(s: string, rest: string)
    requires s != "" && Delimited(rest)
    ensures IntLength(s + rest) == IntLength(s)
  {
    hide DigitRun;
    var sign := if s[0] == '-' then 1 else 0;
    DigitRunStops(s[sign..], rest);
    assert (s + rest)[sign..] == s[sign..] + rest;
  }

  lemma NumberLengthStops(s: string, rest: string)
    requires s != "" && Delimited(rest)
    ensures NumberLength(s + rest) == NumberLength(s)
  {
    hide IntLength, FractionLength, ExponentLength;
    var t := s + rest;
    IntLengthStops(s, rest);
    var i := IntLength(s);
    assert t[i..] == s[i..] + rest;
    FractionStops(s[i..], rest);
    var f := FractionLength(s[i..]);
    assert t[i + f..] == s[i + f..] + rest;
    ExponentStops(s[i + f..], rest);
  }

  lemma FractionStops(s: string, rest: string)
    requires Delimited(rest)
    ensures FractionLength(s + rest) == FractionLength(s)
  {
    if s != "" {
      assert (s + rest)[1..] == s[1..] + rest;
      DigitRunStops(s[1..], rest);
    }
  }

  lemma ExponentStops(s: string, rest: string)
    requires Delimited(rest)
    ensures ExponentLength(s + rest) == ExponentLength(s)
  {
    if s != "" {
      var k := if |s| >= 2 && (s[1] == '+' || s[1] == '-') then 2 else 1;
      assert (s + rest)[k..] == s[k..] + rest;
      DigitRunStops(s[k..], rest);
    }
  }

  lemma {:induction false} DigitRunAll(s: string)
    requires AllDigits(s)
    ensures DigitRun(s) == |s|
  {
    if s != "" {
      DigitRunAll(s[1..]);
    }
  }

  lemma DigitsAreNumber(sign: string, digits: string)
    requires sign == "" || sign == "-"
    requires digits != "" && AllDigits(digits) && (digits == "0" || digits[0] != '0')
    ensures NumberLength(sign + digits) == (|sign + digits|, |sign + digits|)
  {
    hide IntLength, DigitRun;
    var s := sign + digits;
    DigitsIntLength(sign, digits);
    assert s[|s|..] == "";
  }

  lemma DigitsIntLength(sign: string, digits: string)
    requires sign == "" || sign == "-"
    requires digits != "" && AllDigits(digits) && (digits == "0" || digits[0] != '0')
    ensures IntLength(sign + digits) == |sign + digits|
  {
    hide DigitRun;
    assert (sign + digits)[|sign|..] == digits;
    DigitRunAll(digits);
  }

  lemma IntTextIsNumber(n: int)
    ensures NumberLength(IntText(n)) == (|IntText(n)|, |IntText(n)|)
    ensures IntValue(IntText(n)) == n
  {
    hide NumberLength;
    if n < 0 {
      DecimalRoundTrip(-n);
      DigitsAreNumber("-", Decimal(-n));
      assert IntText(n)[1..] == Decimal(-n);
    } else {
      DecimalRoundTrip(n);
      DigitsAreNumber("", Decimal(n));
      assert "" + Decimal(n) == IntText(n);
    }
  }

  // ----- printing -----

  function Print(v: Json): string
    decreases v, 0
  {
    match v
    case Null => "null"
    case Bool(b) => if b then "true" else "false"
    case Int(n) => IntText(n)
    case Float(token) => token
    case Str(s) => PrintStr(s)
    case Arr(items) => "[" + PrintItems(items) + "]"
    case Obj(members) => "{" + PrintMembers(members) + "}"
  }

  function PrintItems(items: seq<Json>): string
    decreases items, 0
  {
    if items == [] then ""
    else if |items| == 1 then Print(items[0])
    else Print(items[0]) + "," + PrintItems(items[1..])
  }

  function PrintMember(m: Member): string
    decreases m, 0
  {
    PrintStr(m.name) + ":" + Print(m.value)
  }

  function PrintMembers(members: seq<Member>): string
    decreases members, 0
  {
    if members == [] then ""
    else if |members| == 1 then PrintMember(members[0])
    else PrintMember(members[0]) + "," + PrintMembers(members[1..])
  }

  /** Every float token in the value is the text of a number. */
  predicate WellFormed(v: Json)
    decreases v, 0
  {
    match v
    case Float(token) => FloatToken(token)
    case Arr(items) => forall i | 0 <= i < |items| :: WellFormed(items[i])
    case Obj(members) => forall i | 0 <= i < |members| :: WellFormed(members[i].value)
    case _ => true
  }

  // ----- parsing -----

  predicate IsSpace(c: char) { c == ' ' || c == '\t' || c == '\n' || c == '\r' }

  function SkipSpace(s: string): (r: string)
    ensures |r| <= |s|
  {
    if s != "" && IsSpace(s[0]) then SkipSpace(s[1..]) else s
  }

  /** `s` without the leading `word`, when it starts with it. */
  function After(s: string, word: string): Option<string> {
    if |word| <= |s| && s[..|word|] == word then Some(s[|word|..]) else None
  }

  function ParseValue(s: string): (r: Option<(Json, string)>)
    ensures r.Some? ==> |r.value.1| < |s|
    decreases |s|, 0
  {
    if s == "" then None
    else if s[0] == '"' then
      match ParseChars(s[1..])
      case None => None
      case Some((cs, rest)) => Some((Str(cs), rest))
    else if s[0] == '[' then
      var t := SkipSpace(s[1..]);
      if t != "" && t[0] == ']' then Some((Arr([]), t[1..]))
      else
        match ParseItems(t)
        case None => None
        case Some((items, rest)) => Some((Arr(items), rest))
    else if s[0] == '{' then
      var t := SkipSpace(s[1..]);
      if t != "" && t[0] == '}' then Some((Obj([]), t[1..]))
      else
        match ParseMembers(t)
        case None => None
        case Some((members, rest)) => Some((Obj(members), rest))
    else if After(s, "null").Some? then Some((Null, s[4..]))
    else if After(s, "true").Some? then Some((Bool(true), s[4..]))
    else if After(s, "false").Some? then Some((Bool(false), s[5..]))
    else ParseNumber(s)
  }

  /** One or more values separated by commas, up to the closing bracket. */
  function ParseItems(s: string): (r: Option<(seq<Json>, string)>)
    ensures r.Some? ==> |r.value.1| < |s|
    decreases |s|, 1
  {
    match ParseValue(s)
    case None => None
    case Some((v, rest)) =>
      var t := SkipSpace(rest);
      if t == "" then None
      else if t[0] == ']' then Some(([v], t[1..]))
      else if t[0] != ',' then None
      else
        match ParseItems(SkipSpace(t[1..]))
        case None => None
        case Some((vs, rest')) => Some(([v] + vs, rest'))
  }

  function ParseMember(s: string): (r: Option<(Member, string)>)
    ensures r.Some? ==> |r.value.1| < |s|
    decreases |s|, 1
  {
    if s == "" || s[0] != '"' then None
    else
      match ParseChars(s[1..])
      case None => None
      case Some((name, rest)) =>
        var t := SkipSpace(rest);
        if t == "" || t[0] != ':' then None
        else
          match ParseValue(SkipSpace(t[1..]))
          case None => None
          case Some((v, rest')) => Some((Member(name, v), rest'))
  }

  /** One or more members separated by commas, up to the closing brace. */
  function ParseMembers(s: string): (r: Option<(seq<Member>, string)>)
    ensures r.Some? ==> |r.value.1| < |s|
    decreases |s|, 2
  {
    match ParseMember(s)
    case None => None
    case Some((m, rest)) =>
      var t := SkipSpace(rest);
      if t == "" then None
      else if t[0] == '}' then Some(([m], t[1..]))
      else if t[0] != ',' then None
      else
        match ParseMembers(SkipSpace(t[1..]))
        case None => None
        case Some((ms, rest')) => Some(([m] + ms, rest'))
  }

  /** `json.loads` */
  function Loads(text: string): Option<Json> {
    match ParseValue(SkipSpace(text))
    case None => None
    case Some((v, rest)) => if SkipSpace(rest) == "" then Some(v) else None
  }

  // ----- parsing undoes printing -----

  /** A printed value never starts like white space or the end of a container. */
  lemma PrintStart(v: Json)
    requires WellFormed(v)
    ensures Print(v) != "" && !IsSpace(Print(v)[0]) && Print(v)[0] != ']' && Print(v)[0] != '}'
  {
  }

  lemma ParsePrintWord(v: Json, rest: string)
    requires v.Null? || v.Bool?
    ensures ParseValue(Print(v) + rest) == Some((v, rest))
  {
    var s := Print(v) + rest;
    var k := |Print(v)|;
    assert s[..k] == Print(v) && s[k..] == rest;
    assert !v.Null? ==> s[..4][0] != 'n';
    assert v == Bool(false) ==> s[..4][0] != 't';
  }

  lemma NumberStart(text: string)
    requires text != "" && IntLength(text) > 0
    ensures text[0] == '-' || IsDigit(text[0])
  {
  }

  lemma ParsePrintNumber(text: string, rest: string)
    requires Delimited(rest)
    requires var (i, n) := NumberLength(text); 0 < i <= n == |text|
    ensures ParseValue(text + rest)
         == Some((if NumberLength(text).0 == |text| then Int(IntValue(text)) else Float(text), rest))
  {
    hide NumberLength, IntValue;
    var s := text + rest;
    NumberLengthStops(text, rest);
    IntLengthOfNumber(text);
    NumberStart(text);
    assert s[..|text|] == text && s[|text|..] == rest;
    NotAWord(s);
  }

  lemma IntLengthOfNumber(text: string)
    ensures IntLength(text) == NumberLength(text).0
  {
  }

  lemma NotAfter(s: string, word: string)
    requires s != "" && word != "" && s[0] != word[0]
    ensures After(s, word).None?
  {
    if |word| <= |s| {
      assert s[..|word|][0] == s[0];
    }
  }

  lemma NotAWord(s: string)
    requires s != "" && (s[0] == '-' || IsDigit(s[0]))
    ensures ParseValue(s) == ParseNumber(s)
  {
    hide After, ParseNumber, ParseItems, ParseMembers, ParseChars;
    NotAfter(s, "null");
    NotAfter(s, "true");
    NotAfter(s, "false");
  }

  lemma ParsePrintStr(cs: string, rest: string)
    ensures ParseValue(PrintStr(cs) + rest) == Some((Str(cs), rest))
  {
    hide ParseNumber, ParseItems, ParseMembers, ParseChars;
    var s := PrintStr(cs) + rest;
    assert s[1..] == Escape(cs) + "\"" + rest;
    ParseEscaped(cs, rest);
  }

  lemma ParseEmpty(rest: string)
    ensures ParseValue("[]" + rest) == Some((Arr([]), rest))
    ensures ParseValue("{}" + rest) == Some((Obj([]), rest))
  {
    hide ParseNumber, ParseItems, ParseMembers, ParseChars;
    var s, t := "[]" + rest, "{}" + rest;
    assert s[1..] == "]" + rest && s[1..][1..] == rest;
    assert t[1..] == "}" + rest && t[1..][1..] == rest;
  }

  lemma ParseArr(t: string, items: seq<Json>, rest: string)
    requires t != "" && !IsSpace(t[0]) && t[0] != ']' && ParseItems(t) == Some((items, rest))
    ensures ParseValue("[" + t) == Some((Arr(items), rest))
  {
    hide ParseNumber, ParseItems, ParseMembers, ParseChars;
    assert ("[" + t)[1..] == t;
  }

  lemma ParseObj(t: string, members: seq<Member>, rest: string)
    requires t != "" && !IsSpace(t[0]) && t[0] != '}' && ParseMembers(t) == Some((members, rest))
    ensures ParseValue("{" + t) == Some((Obj(members), rest))
  {
    hide ParseNumber, ParseItems, ParseMembers, ParseChars;
    assert ("{" + t)[1..] == t;
  }

  lemma PrintItemsStart(items: seq<Json>)
    requires items != [] && WellFormed(items[0])
    ensures PrintItems(items) != "" && !IsSpace(PrintItems(items)[0]) && PrintItems(items)[0] != ']'
  {
    hide Print;
    PrintStart(items[0]);
  }

  lemma PrintMembersStart(members: seq<Member>)
    requires members != []
    ensures PrintMembers(members) != "" && PrintMembers(members)[0] == '"'
  {
    hide PrintMember;
    PrintMemberStart(members[0]);
  }

  lemma ParsePrintArr(items: seq<Json>, rest: string)
    requires forall i | 0 <= i < |items| :: WellFormed(items[i])
    requires items != [] ==> ParseItems(PrintItems(items) + "]" + rest) == Some((items, rest))
    ensures ParseValue(Print(Arr(items)) + rest) == Some((Arr(items), rest))
  {
    hide ParseValue, ParseItems;
    if items == [] {
      assert Print(Arr(items)) == "[]";
      ParseEmpty(rest);
    } else {
      hide PrintItems;
      var t := PrintItems(items) + "]" + rest;
      PrintItemsStart(items);
      assert t[0] == PrintItems(items)[0];
      ParseArr(t, items, rest);
      assert Print(Arr(items)) + rest == "[" + t;
    }
  }

  lemma ParsePrintObj(members: seq<Member>, rest: string)
    requires members != [] ==> ParseMembers(PrintMembers(members) + "}" + rest) == Some((members, rest))
    ensures ParseValue(Print(Obj(members)) + rest) == Some((Obj(members), rest))
  {
    hide ParseValue, ParseMembers;
    if members == [] {
      assert Print(Obj(members)) == "{}";
      ParseEmpty(rest);
    } else {
      hide PrintMembers;
      var t := PrintMembers(members) + "}" + rest;
      PrintMembersStart(members);
      assert t[0] == PrintMembers(members)[0];
      ParseObj(t, members, rest);
      assert Print(Obj(members)) + rest == "{" + t;
    }
  }

  lemma {:induction false} ParsePrint(v: Json, rest: string)
    requires WellFormed(v) && Delimited(rest)
    ensures ParseValue(Print(v) + rest) == Some((v, rest))
    decreases v, 0
  {
    hide ParseValue;
    match v
    case Int(n) =>
      IntTextIsNumber(n);
      ParsePrintNumber(IntText(n), rest);
    case Float(token) => ParsePrintNumber(token, rest);
    case Str(cs) => ParsePrintStr(cs, rest);
    case Arr(items) =>
      if items != [] {
        ParsePrintItems(items, rest);
      }
      ParsePrintArr(items, rest);
    case Obj(members) =>
      if members != [] {
        ParsePrintMembers(members, rest);
      }
      ParsePrintObj(members, rest);
    case _ => ParsePrintWord(v, rest);
  }

  lemma ParseLastItem(s: string, v: Json, rest: string)
    requires ParseValue(s) == Some((v, "]" + rest))
    ensures ParseItems(s) == Some(([v], rest))
  {
    hide ParseValue;
    assert ("]" + rest)[1..] == rest && SkipSpace("]" + rest) == "]" + rest;
  }

  lemma ParseMoreItems(s: string, v: Json, tail: string, items: seq<Json>, rest: string)
    requires ParseValue(s) == Some((v, "," + tail)) && tail != "" && !IsSpace(tail[0])
    requires ParseItems(tail) == Some((items, rest))
    ensures ParseItems(s) == Some(([v] + items, rest))
  {
    hide ParseValue;
    assert ("," + tail)[1..] == tail && SkipSpace("," + tail) == "," + tail && SkipSpace(tail) == tail;
  }

  lemma {:induction false} ParsePrintItems(items: seq<Json>, rest: string)
    requires items != [] && forall i | 0 <= i < |items| :: WellFormed(items[i])
    ensures ParseItems(PrintItems(items) + "]" + rest) == Some((items, rest))
    decreases items, 0
  {
    hide ParseValue, Print, ParseItems;
    var s := PrintItems(items) + "]" + rest;
    if |items| == 1 {
      assert s == Print(items[0]) + ("]" + rest);
      ParsePrint(items[0], "]" + rest);
      ParseLastItem(s, items[0], rest);
      assert items == [items[0]];
    } else {
      var tail := PrintItems(items[1..]) + "]" + rest;
      assert s == Print(items[0]) + ("," + tail);
      ParsePrint(items[0], "," + tail);
      PrintStart(items[1]);
      assert tail[0] == Print(items[1])[0];
      ParsePrintItems(items[1..], rest);
      ParseMoreItems(s, items[0], tail, items[1..], rest);
      assert [items[0]] + items[1..] == items;
    }
  }

  lemma {:induction false} ParsePrintMember(m: Member, rest: string)
    requires WellFormed(m.value) && Delimited(rest)
    ensures ParseMember(PrintMember(m) + rest) == Some((m, rest))
    decreases m, 0
  {
    hide ParseValue, ParseChars, Print;
    var s := PrintMember(m) + rest;
    var tail := ":" + Print(m.value) + rest;
    assert s[1..] == Escape(m.name) + "\"" + tail;
    ParseEscaped(m.name, tail);
    PrintStart(m.value);
    assert tail[1..] == Print(m.value) + rest;
    ParsePrint(m.value, rest);
  }

  lemma PrintMemberStart(m: Member)
    ensures PrintMember(m) != "" && PrintMember(m)[0] == '"'
  {
  }

  lemma ParseLast(s: string, m: Member, rest: string)
    requires ParseMember(s) == Some((m, "}" + rest))
    ensures ParseMembers(s) == Some(([m], rest))
  {
    hide ParseMember;
    assert ("}" + rest)[1..] == rest && SkipSpace("}" + rest) == "}" + rest;
  }

  lemma ParseMore(s: string, m: Member, tail: string, members: seq<Member>, rest: string)
    requires ParseMember(s) == Some((m, "," + tail)) && tail != "" && !IsSpace(tail[0])
    requires ParseMembers(tail) == Some((members, rest))
    ensures ParseMembers(s) == Some(([m] + members, rest))
  {
    hide ParseMember;
    assert ("," + tail)[1..] == tail && SkipSpace("," + tail) == "," + tail && SkipSpace(tail) == tail;
  }

  lemma {:induction false} ParsePrintMembers(members: seq<Member>, rest: string)
    requires members != [] && forall i | 0 <= i < |members| :: WellFormed(members[i].value)
    ensures ParseMembers(PrintMembers(members) + "}" + rest) == Some((members, rest))
    decreases members, 0
  {
    hide ParseMember, PrintMember, ParseMembers;
    var s := PrintMembers(members) + "}" + rest;
    if |members| == 1 {
      assert s == PrintMember(members[0]) + ("}" + rest);
      ParsePrintMember(members[0], "}" + rest);
      ParseLast(s, members[0], rest);
      assert members == [members[0]];
    } else {
      var tail := PrintMembers(members[1..]) + "}" + rest;
      assert s == PrintMember(members[0]) + ("," + tail);
      ParsePrintMember(members[0], "," + tail);
      PrintMemberStart(members[1]);
      assert tail[0] == PrintMember(members[1])[0];
      ParsePrintMembers(members[1..], rest);
      ParseMore(s, members[0], tail, members[1..], rest);
      assert [members[0]] + members[1..] == members;
    }
  }

  /** `json.loads(json.dumps(v)) == v`, for every value. */
  lemma LoadsPrint(v: Json)
    requires WellFormed(v)
    ensures Loads(Print(v)) == Some(v)
  {
    PrintStart(v);
    assert Print(v) + "" == Print(v);
    ParsePrint(v, "");
  }

  lemma PrintInjective(v: Json, w: Json)
    requires WellFormed(v) && WellFormed(w) && Print(v) == Print(w)
    ensures v == w
  {
    LoadsPrint(v);
    LoadsPrint(w);
  }

  // ----- printed text is printable ASCII, so it holds no newline -----

  lemma EscapeCharAscii(c: char)
    ensures Ascii(EscapeChar(c))
  {
  }

  lemma {:induction false} EscapeAscii(s: string)
    ensures Ascii(Escape(s))
  {
    hide EscapeChar;
    if s != "" {
      EscapeCharAscii(s[0]);
      EscapeAscii(s[1..]);
    }
  }

  lemma {:induction false} PrintAscii(v: Json)
    requires WellFormed(v)
    ensures Ascii(Print(v))
    decreases v, 0
  {
    match v
    case Str(s) => EscapeAscii(s);
    case Arr(items) => PrintItemsAscii(items);
    case Obj(members) => PrintMembersAscii(members);
    case _ =>
  }

  lemma {:induction false} PrintItemsAscii(items: seq<Json>)
    requires forall i | 0 <= i < |items| :: WellFormed(items[i])
    ensures Ascii(PrintItems(items))
    decreases items, 0
  {
    if items != [] {
      PrintAscii(items[0]);
      PrintItemsAscii(items[1..]);
    }
  }

  lemma {:induction false} PrintMembersAscii(members: seq<Member>)
    requires forall i | 0 <= i < |members| :: WellFormed(members[i].value)
    ensures Ascii(PrintMembers(members))
    decreases members, 0
  {
    hide Print, PrintMember;
    if members != [] {
      PrintAscii(members[0].value);
      PrintMemberAscii(members[0]);
      PrintMembersAscii(members[1..]);
    }
  }

  lemma PrintMemberAscii(m: Member)
    requires Ascii(Print(m.value))
    ensures Ascii(PrintMember(m))
  {
    hide Print, Escape;
    EscapeAscii(m.name);
  }
}
