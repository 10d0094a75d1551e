/** Base64 as section 4 of RFC 4648 defines it, decoded the way
    `base64.b64decode(text, validate=True)` does: strict alphabet and padding, but the unused
    trailing bits of the last group are not checked. */
module Base64 {
  import opened Wrappers
  import opened Text

  function Symbol(v: nat): (c: char)
    requires v < 64
    ensures c != '=' && ' ' <= c <= '~' && c != '"' && c != '\\'
  {
    if v < 26 then (v + 'A' as int) as char
    else if v < 52 then (v - 26 + 'a' as int) as char
    else if v < 62 then (v - 52 + '0' as int) as char
    else if v == 62 then '+'
    else '/'
  }

  predicate IsSymbol(c: char) {
    'A' <= c <= 'Z' || 'a' <= c <= 'z' || '0' <= c <= '9' || c == '+' || c == '/'
  }

  function SymbolValue(c: char): (v: nat)
    requires IsSymbol(c)
    ensures v < 64
  {
    if 'A' <= c <= 'Z' then c as int - 'A' as int
    else if 'a' <= c <= 'z' then c as int - 'a' as int + 26
    else if '0' <= c <= '9' then c as int - '0' as int + 52
    else if c == '+' then 62
    else 63
  }

  lemma SymbolValueOfSymbol(v: nat)
    requires v < 64
    ensures IsSymbol(Symbol(v)) && SymbolValue(Symbol(v)) == v
  {
  }

  function Group3(a: byte, b: byte, c: byte): string {
    [Symbol(a / 4), Symbol(a % 4 * 16 + b / 16), Symbol(b % 16 * 4 + c / 64), Symbol(c % 64)]
  }

  function Encode(data: bytes): string {
    if |data| == 0 then ""
    else if |data| == 1 then Group3(data[0], 0, 0)[..2] + "=="
    else if |data| == 2 then Group3(data[0], data[1], 0)[..3] + "="
    else Group3(data[0], data[1], data[2]) + Encode(data[3..])
  }

  function First(v0: nat, v1: nat): byte
    requires v0 < 64 && v1 < 64
  {
    v0 * 4 + v1 / 16
  }

  function Second(v1: nat, v2: nat): byte
    requires v1 < 64 && v2 < 64
  {
    v1 % 16 * 16 + v2 / 4
  }

  function Third(v2: nat, v3: nat): byte
    requires v2 < 64 && v3 < 64
  {
    v2 % 4 * 64 + v3
  }

  function Decode(text: string): Option<bytes> {
    if text == "" then Some([])
    else if |text| < 4 || !IsSymbol(text[0]) || !IsSymbol(text[1]) then None
    else
      var v0, v1 := SymbolValue(text[0]), SymbolValue(text[1]);
      if text[2..] == "==" then Some([First(v0, v1)])
      else if !IsSymbol(text[2]) then None
      else
        var v2 := SymbolValue(text[2]);
        if text[3..] == "=" then Some([First(v0, v1), Second(v1, v2)])
        else if !IsSymbol(text[3]) then None
        else
          match Decode(text[4..])
          case None => None
          case Some(rest) => Some([First(v0, v1), Second(v1, v2), Third(v2, SymbolValue(text[3]))] + rest)
  }

  lemma GroupArithmetic(a: byte, b: byte, c: byte)
    ensures First(a / 4, a % 4 * 16 + b / 16) == a
    ensures Second(a % 4 * 16 + b / 16, b % 16 * 4 + c / 64) == b
    ensures Third(b % 16 * 4 + c / 64, c % 64) == c
  {
  }

  /** The values of one group carry its three bytes. */
  lemma GroupCarries(a: byte, b: byte, c: byte)
    ensures var g := Group3(a, b, c);
            && (forall i | 0 <= i < 4 :: IsSymbol(g[i]) && g[i] != '=')
            && First(SymbolValue(g[0]), SymbolValue(g[1])) == a
            && Second(SymbolValue(g[1]), SymbolValue(g[2])) == b
            && Third(SymbolValue(g[2]), SymbolValue(g[3])) == c
  {
    hide Symbol, SymbolValue, IsSymbol, First, Second, Third;
    GroupArithmetic(a, b, c);
    SymbolValueOfSymbol(a / 4);
    SymbolValueOfSymbol(a % 4 * 16 + b / 16);
    SymbolValueOfSymbol(b % 16 * 4 + c / 64);
    SymbolValueOfSymbol(c % 64);
  }

  /** A full group decodes to its three bytes, whatever follows it. */
  lemma DecodeGroup(a: byte, b: byte, c: byte, rest: string)
    requires Decode(rest).Some?
    ensures Decode(Group3(a, b, c) + rest) == Some([a, b, c] + Decode(rest).value)
  {
    hide Symbol, SymbolValue, IsSymbol, First, Second, Third;
    var g := Group3(a, b, c);
    var text := g + rest;
    GroupCarries(a, b, c);
    assert forall i | 0 <= i < 4 :: text[i] == g[i];
    assert text[2..][0] == g[2] && text[3..][0] == g[3];
    assert text[4..] == rest;
  }

  lemma {:induction false} RoundTrip(data: bytes)
    ensures Decode(Encode(data)) == Some(data)
  {
    hide Symbol, SymbolValue, IsSymbol, First, Second, Third;
    if |data| == 0 {
    } else if |data| == 1 {
      GroupCarries(data[0], 0, 0);
      assert Encode(data)[2..] == "==";
      assert data == [data[0]];
    } else if |data| == 2 {
      GroupCarries(data[0], data[1], 0);
      assert Encode(data)[2..][0] != '=';
      assert Encode(data)[3..] == "=";
      assert data == [data[0], data[1]];
    } else {
      RoundTrip(data[3..]);
      DecodeGroup(data[0], data[1], data[2], Encode(data[3..]));
      assert [data[0], data[1], data[2]] + data[3..] == data;
    }
  }

  /** Length 4 * ceil(n / 3), and no character that JSON would escape. */
  lemma {:induction false} Shape(data: bytes)
    ensures |Encode(data)| == (|data| + 2) / 3 * 4
    ensures forall i | 0 <= i < |Encode(data)| ::
              ' ' <= Encode(data)[i] <= '~' && Encode(data)[i] != '"' && Encode(data)[i] != '\\'
  {
    if |data| >= 3 {
      Shape(data[3..]);
    }
  }

  lemma NotEmpty(data: bytes)
    requires data != []
    ensures Encode(data) != ""
  {
    Shape(data);
  }
}
