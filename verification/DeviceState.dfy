/** The device's persisted sequence counter (device/state.py). */
module DeviceState {
  import opened Wrappers
  import opened Text

  // ----- `int(text.strip())` -----

  /** What `str.strip` removes. */
  predicate IsSpace(c: char) {
    || '\t' <= c <= '\r' || '\U{1C}' <= c <= ' ' || c == '\U{85}' || c == '\U{A0}' || c == '\U{1680}'
    || '\U{2000}' <= c <= '\U{200A}' || '\U{2028}' <= c <= '\U{2029}' || c == '\U{202F}' || c == '\U{205F}'
        || c == '\U{3000}'
  }

  function StripLeft(s: string): string {
    if s != "" && IsSpace(s[0]) then StripLeft(s[1..]) else s
  }

  function Strip(s: string): string
    decreases |s|
  {
    if s != "" && IsSpace(s[|s| - 1]) then Strip(s[..|s| - 1]) else StripLeft(s)
  }

  /** Digits, with single underscores between them. */
  predicate IsNumeral(s: string) {
    && s != "" && IsDigit(s[0]) && IsDigit(s[|s| - 1])
    && (forall i | 0 <= i < |s| :: IsDigit(s[i]) || s[i] == '_')
    && (forall i | 0 <= i < |s| - 1 :: IsDigit(s[i]) || IsDigit(s[i + 1]))
  }

  function Dense(s: string): (r: string)
    requires forall i | 0 <= i < |s| :: IsDigit(s[i]) || s[i] == '_'
    ensures AllDigits(r)
    ensures AllDigits(s) ==> r == s
  {
    if s == "" then ""
    else if s[0] == '_' then Dense(s[1..])
    else [s[0]] + Dense(s[1..])
  }

  function Unsigned(s: string): Option<int> {
    if IsNumeral(s) then Some(DigitsValue(Dense(s))) else None
  }

  function Negated(n: Option<int>): Option<int> {
    if n.Some? then Some(-n.value) else None
  }

  function Signed(s: string): Option<int> {
    if s != "" && s[0] == '-' then Negated(Unsigned(s[1..]))
    else if s != "" && s[0] == '+' then Unsigned(s[1..])
    else Unsigned(s)
  }

  /** Python's `int`; None stands for ValueError. */
  function IntOf(text: string): Option<int> { Signed(Strip(text)) }

  // ----- the counter file -----

  /** `load_sequence`: 0 when the file is missing or does not hold an integer. */
  function Loaded(contents: Option<bytes>): int {
    match contents
    case None => 0
    case Some(data) =>
      match Utf8Decode(data)
      case None => 0
      case Some(text) =>
        match IntOf(text)
        case None => 0
        case Some(n) => n
  }

  /** `save_sequence` */
  function Saved(sequence: int): Option<bytes> { Some(Utf8(IntText(sequence))) }

  class StateFile {
    var contents: Option<bytes>

    constructor (contents: Option<bytes>)
      ensures this.contents == contents
    {
      this.contents := contents;
    }

    method Load() returns (sequence: int)
      ensures sequence == Loaded(contents)
    {
      if contents.None? {
        return 0;
      }
      var text := Utf8Decode(contents.value);
      if text.None? {
        return 0;
      }
      var n := IntOf(text.value);
      return if n.Some? then n.value else 0;
    }

    method Save(sequence: int)
      modifies this
      ensures contents == Saved(sequence)
    {
      contents := Some(Utf8(IntText(sequence)));
    }
  }

  lemma NothingToStrip(s: string)
    requires s != "" && !IsSpace(s[0]) && !IsSpace(s[|s| - 1])
    ensures Strip(s) == s
  {
  }

  lemma DigitsRead(s: string)
    requires s != "" && AllDigits(s)
    ensures Unsigned(s) == IntOf(s) == Some(DigitsValue(s) as int)
  {
    hide DigitsValue;
    NothingToStrip(s);
  }

  lemma MinusDigitsRead(s: string)
    requires s != "" && AllDigits(s)
    ensures IntOf("-" + s) == Some(-(DigitsValue(s) as int))
  {
    hide DigitsValue, Unsigned, Strip;
    NothingToStrip("-" + s);
    DigitsRead(s);
    assert ("-" + s)[1..] == s;
  }

  /** A saved counter is loaded back, whatever its sign. */
  lemma LoadSaved(n: int)
    ensures Loaded(Saved(n)) == n
  {
    hide IntOf, DigitsValue;
    Utf8RoundTrip(IntText(n));
    if n < 0 {
      DecimalRoundTrip(-n);
      MinusDigitsRead(Decimal(-n));
    } else {
      DecimalRoundTrip(n);
      DigitsRead(Decimal(n));
    }
  }

  lemma {:induction false} PrefixValue(s: string, k: nat)
    requires AllDigits(s) && k <= |s|
    ensures AllDigits(s[..k]) && DigitsValue(s[..k]) <= DigitsValue(s)
  {
    if k < |s| {
      var front := s[..|s| - 1];
      PrefixValue(front, k);
      assert front[..k] == s[..k];
    } else {
      assert s[..k] == s;
    }
  }

  lemma Utf8Prefix(s: string, k: nat)
    requires Ascii(s) && k <= |s|
    ensures |Utf8(s)| == |s| && Utf8(s)[..k] == Utf8(s[..k])
  {
    Utf8OfAscii(s);
    Utf8OfAscii(s[..k]);
  }

  /** A write torn after any number of bytes leaves a counter that reads as some smaller or equal
      number: never ahead of the one being saved. */
  lemma TornWriteNeverAhead(n: nat, k: nat)
    requires k <= |Utf8(IntText(n))|
    ensures 0 <= Loaded(Some(Utf8(IntText(n))[..k])) <= n
  {
    hide IntOf, DigitsValue;
    var s := Decimal(n);
    Utf8OfAscii(s);
    Utf8Prefix(s, k);
    Utf8RoundTrip(s[..k]);
    DecimalRoundTrip(n);
    PrefixValue(s, k);
    if k == 0 {
      assert IntOf("") == None by { EmptyIsNoInt(); }
    } else {
      DigitsRead(s[..k]);
    }
  }

  lemma EmptyIsNoInt()
    ensures IntOf("") == None
  {
  }

  // ----- what is read from other files -----

  predicate Blank(s: string) {
    forall i | 0 <= i < |s| :: IsSpace(s[i])
  }

  lemma {:induction false} StripLeftPad(pad: string, s: string)
    requires Blank(pad) && (s == "" || !IsSpace(s[0]))
    ensures StripLeft(pad + s) == s
  {
    hide IsSpace;
    if pad == "" {
      assert pad + s == s;
    } else {
      assert (pad + s)[1..] == pad[1..] + s;
      StripLeftPad(pad[1..], s);
    }
  }

  lemma {:induction false} StripPads(left: string, s: string, right: string)
    requires Blank(left) && Blank(right) && (s != "" ==> !IsSpace(s[0]) && !IsSpace(s[|s| - 1]))
    ensures Strip(left + s + right) == s
    decreases |left| + |right|
  {
    hide IsSpace;
    var text := left + s + right;
    if right != "" {
      assert text[|text| - 1] == right[|right| - 1];
      assert text[..|text| - 1] == left + s + right[..|right| - 1];
      StripPads(left, s, right[..|right| - 1]);
    } else if s != "" {
      assert text == left + s && text[|text| - 1] == s[|s| - 1];
      StripLeftPad(left, s);
    } else if left != "" {
      assert text == left && text[..|text| - 1] == left[..|left| - 1] + s + right;
      StripPads(left[..|left| - 1], s, right);
    }
  }

  /** A decimal number with a sign and white space around it is read as that number. */
  lemma PaddedIsRead(left: string, negative: bool, digits: string, right: string)
    requires Blank(left) && Blank(right) && digits != "" && AllDigits(digits)
    ensures var sign := if negative then "-" else "";
            Loaded(Some(Utf8(left + (sign + digits) + right)))
            == if negative then -(DigitsValue(digits) as int) else DigitsValue(digits) as int
  {
    hide DigitsValue, Strip, Unsigned;
    var s := (if negative then "-" else "") + digits;
    assert !IsSpace(s[0]) && !IsSpace(s[|s| - 1]);
    StripPads(left, s, right);
    NothingToStrip(s);
    Utf8RoundTrip(left + s + right);
    if negative {
      MinusDigitsRead(digits);
    } else {
      assert s == digits;
      DigitsRead(digits);
    }
  }

  /** No part of a number. */
  predicate Foreign(c: char) { !IsSpace(c) && !IsDigit(c) && c != '_' && c != '+' && c != '-' }

  lemma {:induction false} StripKeeps(text: string, i: nat)
    requires i < |text| && Foreign(text[i])
    ensures text[i] in Strip(text)
    decreases |text|
  {
    hide IsSpace;
    if IsSpace(text[|text| - 1]) {
      StripKeeps(text[..|text| - 1], i);
    } else {
      StripLeftKeeps(text, i);
    }
  }

  lemma {:induction false} StripLeftKeeps(text: string, i: nat)
    requires i < |text| && Foreign(text[i])
    ensures text[i] in StripLeft(text)
  {
    hide IsSpace;
    if IsSpace(text[0]) {
      StripLeftKeeps(text[1..], i - 1);
    }
  }

  lemma ForeignIsNoInt(text: string, c: char)
    requires c in text && Foreign(c)
    ensures Signed(text) == None
  {
    if text[0] == '-' || text[0] == '+' {
      assert c in text[1..];
    }
  }

  /** A missing file, one that is not text, a blank one, and one with a character that is no part of a
      number start the device at 0. */
  lemma UnreadableIsZero(contents: Option<bytes>)
    requires contents.Some? && Utf8Decode(contents.value).Some? ==>
               var text := Utf8Decode(contents.value).value;
               Blank(text) || exists i | 0 <= i < |text| :: Foreign(text[i])
    ensures Loaded(contents) == 0
  {
    hide Utf8Decode, Foreign, Signed;
    if contents.Some? && Utf8Decode(contents.value).Some? {
      var text := Utf8Decode(contents.value).value;
      if Blank(text) {
        StripPads(text, "", "");
        assert text + "" + "" == text;
        NothingIsNoInt();
      } else {
        var i :| 0 <= i < |text| && Foreign(text[i]);
        StripKeeps(text, i);
        ForeignIsNoInt(Strip(text), text[i]);
      }
    }
  }

  lemma NothingIsNoInt()
    ensures Signed("") == None
  {
  }
}
