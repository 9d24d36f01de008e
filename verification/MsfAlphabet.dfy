/**
 The alphabet of an MSF field: which bytes stand for themselves and how the others are
 written, spelled out; and what reading two units as a number gives, against the rules of
 JavaScript's parseInt.
 */
module MsfAlphabet {
  import opened Locations
  import opened MsfUrl

  const LOWER := "0123456789abcdef"
  const UPPER := "0123456789ABCDEF"

  predicate IsLetterOrDigit(u: Unit) {
    'a' as int <= u <= 'z' as int || 'A' as int <= u <= 'Z' as int || '0' as int <= u <= '9' as int
  }

  /**
   Letters, digits and the underscore are written as they are; any other byte as a period
   and its two hexadecimal digits, in lower case.
   */
  lemma EscapeExactly(b: U8)
    ensures Escape(b) ==
      if IsLetterOrDigit(b) || b == '_' as int then [b] else ['.' as int, LOWER[b / 16] as int, LOWER[b % 16] as int]
  {
    DigitIsLower(b / 16);
    DigitIsLower(b % 16);
  }

  lemma DigitIsLower(n: nat)
    requires n < 16
    ensures HexDigit(n) == LOWER[n] as int
  {
  }

  /** Digits are read in either case. */
  lemma HexValueExactly(u: Unit, v: nat)
    requires v < 16
    ensures HexValue(u) == Some(v) <==> u == LOWER[v] as int || u == UPPER[v] as int
  {
  }

  // ---- parseInt with radix 16 ----

  /** White space and line terminators of ECMAScript. */
  const SPACES: seq<int> := [
    0x09, 0x0A, 0x0B, 0x0C, 0x0D, 0x20, 0xA0, 0x1680, 0x2000, 0x2001, 0x2002, 0x2003, 0x2004, 0x2005, 0x2006, 0x2007,
    0x2008, 0x2009, 0x200A, 0x2028, 0x2029, 0x202F, 0x205F, 0x3000, 0xFEFF]

  lemma SpaceExactly(u: Unit)
    ensures IsSpace(u) <==> u in SPACES
  {
    if 0x09 <= u <= 0x0D {
      assert SPACES[u - 0x09] == u;
    } else if 0x2000 <= u <= 0x200A {
      assert SPACES[u - 0x2000 + 8] == u;
    }
  }

  function SkipSpaces(text: seq<Unit>): seq<Unit> {
    if text != [] && IsSpace(text[0]) then SkipSpaces(text[1..]) else text
  }

  function SkipPrefix(text: seq<Unit>): seq<Unit> {
    if |text| >= 2 && text[0] == '0' as int && (text[1] == 'x' as int || text[1] == 'X' as int) then text[2..] else text
  }

  /** The number the leading digits stand for, read on from `value`. */
  function ReadDigits(text: seq<Unit>, value: nat): nat {
    if text != [] && HexValue(text[0]).Some? then ReadDigits(text[1..], value * 16 + HexValue(text[0]).value) else value
  }

  /** Nothing for what is not a number. */
  function ParseInt(text: seq<Unit>): Option<int> {
    var trimmed := SkipSpaces(text);
    var negative := trimmed != [] && trimmed[0] == '-' as int;
    var signed := negative || (trimmed != [] && trimmed[0] == '+' as int);
    var digits := SkipPrefix(if signed then trimmed[1..] else trimmed);
    if digits == [] || HexValue(digits[0]).None? then None
    else
      var n: int := ReadDigits(digits, 0);
      Some(if negative then -n else n)
  }

  /** What a period and any two units are read as: a number modulo 256, and 0 for what is none. */
  lemma ParsedByteExactly(a: Unit, b: Unit)
    ensures ParsedByte(a, b) == match ParseInt([a, b]) case None => 0 case Some(n) => n % 256
  {
    var text, second: seq<Unit> := [a, b], [b];
    assert text[1..] == second && second[1..] == [] && text[2..] == [];
    assert SkipSpaces(text) == if IsSpace(a) then SkipSpaces(second) else text;
    assert SkipSpaces(second) == if IsSpace(b) then [] else second;
    assert ReadDigits(second, 0) == if HexValue(b).Some? then HexValue(b).value else 0;
    if HexValue(a).Some? {
      var x := HexValue(a).value;
      assert ReadDigits(second, x) == if HexValue(b).Some? then x * 16 + HexValue(b).value else x;
    }
  }
}
