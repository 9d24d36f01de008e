/**
 The track identifier of an MSF URL (section 11.1.2 of draft-ietf-moq-msf): namespace
 fields and a track name, as bytes, written in a fragment with nothing but letters,
 digits, underscores, periods and hyphens.
 */
module MsfUrl {
  import opened Locations
  import opened Sequences

  /** A UTF-16 code unit. */
  type Unit = n: int | 0 <= n < 0x1_0000

  const DOT: Unit := 0x2E
  const DASH: Unit := 0x2D
  const AMPERSAND: Unit := 0x26
  const SLASH: U8 := 0x2F

  // ---- One field ----

  predicate IsLiteral(u: Unit) {
    0x30 <= u <= 0x39 || 0x41 <= u <= 0x5A || u == 0x5F || 0x61 <= u <= 0x7A
  }

  function HexDigit(n: nat): Unit
    requires n < 16
  {
    if n < 10 then 0x30 + n else 0x61 + (n - 10)
  }

  function Escape(b: U8): seq<Unit> {
    if IsLiteral(b) then [b] else [DOT, HexDigit(b / 16), HexDigit(b % 16)]
  }

  function Encoded(bytes: seq<U8>): seq<Unit> {
    if bytes == [] then [] else Escape(bytes[0]) + Encoded(bytes[1..])
  }

  function HexValue(u: Unit): (v: Option<nat>)
    ensures v.Some? ==> v.value < 16
  {
    if 0x30 <= u <= 0x39 then Some(u - 0x30)
    else if 0x61 <= u <= 0x66 then Some(u - 0x61 + 10)
    else if 0x41 <= u <= 0x46 then Some(u - 0x41 + 10)
    else None
  }

  /** What JavaScript's parseInt passes over at the start. */
  predicate IsSpace(u: Unit) {
    || 0x09 <= u <= 0x0D || u == 0x20 || u == 0xA0 || u == 0x1680 || 0x2000 <= u <= 0x200A
    || u == 0x2028 || u == 0x2029 || u == 0x202F || u == 0x205F || u == 0x3000 || u == 0xFEFF
  }

  /** parseInt of two units to base 16, as a byte: not a number is 0, a negative one wraps. */
  function ParsedByte(a: Unit, b: Unit): U8 {
    match (HexValue(a), HexValue(b))
    case (Some(x), Some(y)) => x * 16 + y
    case (Some(x), None) => x
    case (None, Some(y)) =>
      if IsSpace(a) || a == 0x2B then y else if a == DASH && y > 0 then 256 - y else 0
    case (None, None) => 0
  }

  function Decoded(text: seq<Unit>): seq<U8>
    decreases |text|
  {
    if text == [] then []
    else if text[0] == DOT && 2 < |text| then [ParsedByte(text[1], text[2])] + Decoded(text[3..])
    else [text[0] % 256] + Decoded(text[1..])
  }

  lemma EncodedFrom(out: seq<Unit>, bytes: seq<U8>, i: nat)
    requires i < |bytes| && out + Encoded(bytes[i..]) == Encoded(bytes)
    ensures out + Escape(bytes[i]) + Encoded(bytes[i + 1..]) == Encoded(bytes)
  {
    assert bytes[i..][1..] == bytes[i + 1..];
    Regroup(out, Escape(bytes[i]), Encoded(bytes[i + 1..]));
  }

  lemma Regroup<T>(a: seq<T>, b: seq<T>, c: seq<T>)
    ensures a + b + c == a + (b + c)
  {
  }

  method EncodeField(bytes: seq<U8>) returns (out: seq<Unit>)
    ensures out == Encoded(bytes)
  {
    out := [];
    var i := 0;
    while i < |bytes|
      invariant 0 <= i <= |bytes| && out + Encoded(bytes[i..]) == Encoded(bytes)
    {
      var b := bytes[i];
      EncodedFrom(out, bytes, i);
      var escape;
      if IsLiteral(b) {
        escape := [b];
      } else {
        escape := [DOT, HexDigit(b / 16), HexDigit(b % 16)];
      }
      assert escape == Escape(b);
      out := out + escape;
      i := i + 1;
    }
  }

  /** How far one reading goes. */
  function Step(text: seq<Unit>, i: nat): (n: nat)
    requires i < |text|
    ensures 0 < n && i + n <= |text|
  {
    if text[i] == DOT && i + 2 < |text| then 3 else 1
  }

  function ReadAt(text: seq<Unit>, i: nat): U8
    requires i < |text|
  {
    if text[i] == DOT && i + 2 < |text| then ParsedByte(text[i + 1], text[i + 2]) else text[i] % 256
  }

  lemma DecodedFrom(bytes: seq<U8>, text: seq<Unit>, i: nat)
    requires i < |text| && bytes + Decoded(text[i..]) == Decoded(text)
    ensures bytes + [ReadAt(text, i)] + Decoded(text[i + Step(text, i)..]) == Decoded(text)
  {
    var rest := text[i + Step(text, i)..];
    assert text[i..][Step(text, i)..] == rest;
    Regroup(bytes, [ReadAt(text, i)], Decoded(rest));
  }

  method DecodeField(text: seq<Unit>) returns (bytes: seq<U8>)
    ensures bytes == Decoded(text)
  {
    bytes := [];
    var i := 0;
    while i < |text|
      invariant 0 <= i <= |text| && bytes + Decoded(text[i..]) == Decoded(text)
    {
      DecodedFrom(bytes, text, i);
      var b: U8, n: nat;
      if text[i] == DOT && i + 2 < |text| {
        b, n := ParsedByte(text[i + 1], text[i + 2]), 3;
      } else {
        b, n := text[i] % 256, 1;
      }
      assert b == ReadAt(text, i) && n == Step(text, i);
      bytes := bytes + [b];
      i := i + n;
    }
  }

  /** Every field reads back as it was. */
  lemma {:induction false} FieldRoundTrip(bytes: seq<U8>)
    ensures Decoded(Encoded(bytes)) == bytes
  {
    if bytes != [] {
      FieldRoundTrip(bytes[1..]);
    }
  }

  /** No field has a hyphen or an ampersand in it, and only the empty field is empty. */
  lemma {:induction false} FieldIsPlain(bytes: seq<U8>)
    ensures DASH !in Encoded(bytes) && AMPERSAND !in Encoded(bytes) && |bytes| <= |Encoded(bytes)|
    ensures forall u :: u in Encoded(bytes) ==> IsLiteral(u) || u == DOT
  {
    if bytes != [] {
      FieldIsPlain(bytes[1..]);
      var b := bytes[0];
      assert forall u :: u in Escape(b) ==> IsLiteral(u) || u == DOT;
    }
  }

  // ---- Joining and splitting ----

  function Join<T>(parts: seq<seq<T>>, separator: seq<T>): seq<T> {
    if parts == [] then [] else if |parts| == 1 then parts[0] else parts[0] + separator + Join(parts[1..], separator)
  }

  lemma {:induction false} SplitJoin<T>(parts: seq<seq<T>>, separator: T)
    requires parts != [] && forall part :: part in parts ==> separator !in part
    ensures Split(Join(parts, [separator]), separator) == parts
  {
    if |parts| == 1 {
      SplitPlain(parts[0], separator);
    } else {
      var rest := parts[1..];
      assert parts[0] in parts && forall part :: part in rest ==> part in parts;
      SplitJoin(rest, separator);
      SplitFirst(parts[0], separator, Join(rest, [separator]));
      assert parts == [parts[0]] + rest;
    }
  }

  /** The other way round: what was split joins to what it was. */
  lemma {:induction false} JoinSplit<T>(text: seq<T>, separator: T)
    ensures Join(Split(text, separator), [separator]) == text
  {
    if text != [] {
      JoinSplit(text[1..], separator);
      var rest := Split(text[1..], separator);
      if text[0] == separator {
        assert ([[]] + rest)[1..] == rest;
      } else {
        var parts := [[text[0]] + rest[0]] + rest[1..];
        assert parts[1..] == rest[1..];
        assert Join(parts, [separator]) == [text[0]] + Join(rest, [separator]);
      }
    }
  }

  /** Where two hyphens first stand together. */
  function FirstDashes(text: seq<Unit>): (at: Option<nat>)
    ensures at.Some? ==> at.value + 2 <= |text| && text[at.value] == DASH && text[at.value + 1] == DASH
    ensures forall i :: 0 <= i < |text| - 1 && (at.Some? ==> i < at.value) ==> !(text[i] == DASH && text[i + 1] == DASH)
  {
    if |text| < 2 then None
    else if text[0] == DASH && text[1] == DASH then Some(0)
    else
      var rest := FirstDashes(text[1..]);
      assert forall i :: 1 <= i < |text| ==> text[i] == text[1..][i - 1];
      if rest.Some? then Some(rest.value + 1) else None
  }

  // ---- The identifier ----

  datatype Identifier = Identifier(fields: seq<seq<U8>>, track: Option<seq<U8>>)

  function EncodedFields(fields: seq<seq<U8>>): (parts: seq<seq<Unit>>)
    ensures |parts| == |fields| && forall i :: 0 <= i < |fields| ==> parts[i] == Encoded(fields[i])
  {
    seq(|fields|, i requires 0 <= i < |fields| => Encoded(fields[i]))
  }

  function DecodedFields(parts: seq<seq<Unit>>): (fields: seq<seq<U8>>)
    ensures |parts| == |fields| && forall i :: 0 <= i < |parts| ==> fields[i] == Decoded(parts[i])
  {
    seq(|parts|, i requires 0 <= i < |parts| => Decoded(parts[i]))
  }

  function Built(id: Identifier): seq<Unit> {
    Join(EncodedFields(id.fields), [DASH]) + if id.track.Some? then [DASH, DASH] + Encoded(id.track.value) else []
  }

  /** What stands before any parameters, cut at the first pair of hyphens. */
  function Parsed(value: seq<Unit>): Identifier {
    ParsedId(Split(value, AMPERSAND)[0])
  }

  ghost predicate NonEmptyFields(fields: seq<seq<U8>>) {
    forall field :: field in fields ==> field != []
  }

  /** Single hyphens only, and none at either end. */
  ghost predicate SingleDashes(text: seq<Unit>) {
    && (forall i :: 0 <= i < |text| - 1 ==> !(text[i] == DASH && text[i + 1] == DASH))
    && (text != [] ==> text[0] != DASH && text[|text| - 1] != DASH)
  }

  lemma {:induction false} NamespaceIsPlain(fields: seq<seq<U8>>)
    requires NonEmptyFields(fields)
    ensures SingleDashes(Join(EncodedFields(fields), [DASH])) && AMPERSAND !in Join(EncodedFields(fields), [DASH])
    ensures fields != [] ==> Join(EncodedFields(fields), [DASH]) != []
  {
    if fields != [] {
      FieldIsPlain(fields[0]);
      var first, rest := Encoded(fields[0]), Join(EncodedFields(fields[1..]), [DASH]);
      assert fields[0] in fields;
      assert EncodedFields(fields)[1..] == EncodedFields(fields[1..]);
      assert forall field :: field in fields[1..] ==> field in fields;
      NamespaceIsPlain(fields[1..]);
      assert forall u :: u in first ==> u != DASH;
      if |fields| > 1 {
        assert fields[1..] != [];
        OneDashBetween(first, rest);
      }
    }
  }

  lemma OneDashBetween(a: seq<Unit>, b: seq<Unit>)
    requires a != [] && DASH !in a && b != [] && SingleDashes(b)
    ensures SingleDashes(a + [DASH] + b)
  {
    var text := a + [DASH] + b;
    forall i | 0 <= i < |text| - 1 ensures !(text[i] == DASH && text[i + 1] == DASH) {
      if i < |a| {
        assert text[i] in a;
      } else if i == |a| {
        assert text[i + 1] == b[0];
      } else {
        assert text[i] == b[i - |a| - 1] && text[i + 1] == b[i - |a|];
      }
    }
    assert text[0] in a;
  }

  /** The first pair of hyphens is the true boundary. */
  lemma BoundaryIsFirst(namespace: seq<Unit>, rest: seq<Unit>)
    requires SingleDashes(namespace)
    ensures FirstDashes(namespace + [DASH, DASH] + rest) == Some(|namespace|)
    ensures FirstDashes(namespace) == None
  {
    var text := namespace + [DASH, DASH] + rest;
    assert text[|namespace|] == DASH && text[|namespace| + 1] == DASH;
    forall i | 0 <= i < |namespace| ensures !(text[i] == DASH && text[i + 1] == DASH) {
      assert text[i] == namespace[i];
      assert i + 1 < |namespace| ==> text[i + 1] == namespace[i + 1];
    }
  }

  /** An identifier reads back as it was, whatever parameters follow it. */
  lemma IdentifierRoundTrip(id: Identifier, parameters: seq<Unit>)
    requires id.fields != [] && NonEmptyFields(id.fields)
    requires parameters == [] || parameters[0] == AMPERSAND
    ensures Parsed(Built(id) + parameters) == id
  {
    BuiltIsPlain(id);
    FirstPart(Built(id), parameters);
    if id.track.Some? {
      WithTrack(id.fields, id.track.value);
    } else {
      WithoutTrack(id.fields);
    }
  }

  /** What is read of a text that has no ampersand in it. */
  function ParsedId(trackId: seq<Unit>): Identifier {
    match FirstDashes(trackId)
    case None => Identifier(DecodedFields(Split(trackId, DASH)), None)
    case Some(at) => Identifier(DecodedFields(Split(trackId[..at], DASH)), Some(Decoded(trackId[at + 2..])))
  }

  lemma WithTrack(fields: seq<seq<U8>>, track: seq<U8>)
    requires fields != [] && NonEmptyFields(fields)
    ensures ParsedId(Built(Identifier(fields, Some(track)))) == Identifier(fields, Some(track))
  {
    var namespace, rest := Join(EncodedFields(fields), [DASH]), Encoded(track);
    var value := Built(Identifier(fields, Some(track)));
    NamespaceIsPlain(fields);
    BoundaryIsFirst(namespace, rest);
    assert value == namespace + [DASH, DASH] + rest;
    assert value[..|namespace|] == namespace && value[|namespace| + 2..] == rest;
    FieldsRoundTrip(fields);
    FieldRoundTrip(track);
  }

  lemma WithoutTrack(fields: seq<seq<U8>>)
    requires fields != [] && NonEmptyFields(fields)
    ensures ParsedId(Built(Identifier(fields, None))) == Identifier(fields, None)
  {
    var namespace := Join(EncodedFields(fields), [DASH]);
    NamespaceIsPlain(fields);
    BoundaryIsFirst(namespace, []);
    assert Built(Identifier(fields, None)) == namespace;
    FieldsRoundTrip(fields);
  }

  lemma BuiltIsPlain(id: Identifier)
    requires NonEmptyFields(id.fields)
    ensures AMPERSAND !in Built(id)
  {
    NamespaceIsPlain(id.fields);
    if id.track.Some? {
      FieldIsPlain(id.track.value);
    }
  }

  lemma FirstPart(value: seq<Unit>, parameters: seq<Unit>)
    requires AMPERSAND !in value && (parameters == [] || parameters[0] == AMPERSAND)
    ensures Split(value + parameters, AMPERSAND)[0] == value
  {
    if parameters == [] {
      assert value + parameters == value;
      SplitPlain(value, AMPERSAND);
    } else {
      assert value + parameters == value + [AMPERSAND] + parameters[1..];
      SplitFirst(value, AMPERSAND, parameters[1..]);
    }
  }

  lemma FieldsRoundTrip(fields: seq<seq<U8>>)
    requires fields != []
    ensures DecodedFields(Split(Join(EncodedFields(fields), [DASH]), DASH)) == fields
  {
    var parts := EncodedFields(fields);
    forall part | part in parts ensures DASH !in part {
      var i :| 0 <= i < |parts| && parts[i] == part;
      FieldIsPlain(fields[i]);
    }
    SplitJoin(parts, DASH);
    forall i | 0 <= i < |fields| ensures DecodedFields(parts)[i] == fields[i] {
      FieldRoundTrip(fields[i]);
    }
  }

  /** Different identifiers have different values. */
  lemma BuiltIsInjective(a: Identifier, b: Identifier)
    requires a.fields != [] && NonEmptyFields(a.fields) && b.fields != [] && NonEmptyFields(b.fields)
    requires Built(a) == Built(b)
    ensures a == b
  {
    IdentifierRoundTrip(a, []);
    IdentifierRoundTrip(b, []);
    assert Built(a) + [] == Built(a) && Built(b) + [] == Built(b);
  }

  // ---- Namespaces written with slashes ----

  function NonEmpty<T(==)>(parts: seq<seq<T>>): seq<seq<T>> {
    if parts == [] then [] else (if parts[0] == [] then [] else [parts[0]]) + NonEmpty(parts[1..])
  }

  function BuiltValue(namespace: seq<U8>, track: Option<seq<U8>>): seq<Unit> {
    Built(Identifier(NonEmpty(Split(namespace, SLASH)), track))
  }

  function ParsedNamespace(value: seq<Unit>): seq<U8> {
    Join(Parsed(value).fields, [SLASH])
  }

  lemma {:induction false} NonEmptyOnes<T>(parts: seq<seq<T>>)
    ensures forall part :: part in NonEmpty(parts) <==> part in parts && part != []
    ensures (forall part :: part in parts ==> part != []) ==> NonEmpty(parts) == parts
  {
    if parts != [] {
      var rest := parts[1..];
      NonEmptyOnes(rest);
      assert parts == [parts[0]] + rest;
      if forall part :: part in parts ==> part != [] {
        assert parts[0] in parts && forall part :: part in rest ==> part in parts;
        assert NonEmpty(parts) == [parts[0]] + rest;
      }
    }
  }

  /** The track name reads back, and the namespace as its fields that are not empty. */
  lemma ValueRoundTrip(namespace: seq<U8>, track: Option<seq<U8>>)
    ensures ParsedNamespace(BuiltValue(namespace, track)) == Join(NonEmpty(Split(namespace, SLASH)), [SLASH])
    ensures Parsed(BuiltValue(namespace, track)).track == track
  {
    var id := Identifier(NonEmpty(Split(namespace, SLASH)), track);
    NonEmptyOnes(Split(namespace, SLASH));
    assert Built(id) + [] == Built(id);
    if id.fields == [] {
      NoFields(track);
    } else {
      IdentifierRoundTrip(id, []);
    }
  }

  lemma NoFields(track: Option<seq<U8>>)
    ensures Parsed(Built(Identifier([], track))) == Identifier([[]], track)
  {
    var value := Built(Identifier([], track));
    BuiltIsPlain(Identifier([], track));
    SplitPlain(value, AMPERSAND);
    if track.Some? {
      FieldRoundTrip(track.value);
      assert value == [DASH, DASH] + Encoded(track.value);
      assert value[..0] == [] && value[2..] == Encoded(track.value);
    }
  }

  /** So a namespace reads back as it was exactly if it is empty or has no empty field. */
  lemma NamespaceRoundTripsExactly(namespace: seq<U8>, track: Option<seq<U8>>)
    ensures ParsedNamespace(BuiltValue(namespace, track)) == namespace <==>
      namespace == [] || NonEmptyFields(Split(namespace, SLASH))
  {
    var parts := Split(namespace, SLASH);
    var fields := NonEmpty(parts);
    ValueRoundTrip(namespace, track);
    JoinSplit(namespace, SLASH);
    NonEmptyOnes(parts);
    if Join(fields, [SLASH]) == namespace && fields != [] {
      SplitJoin(fields, SLASH);
    }
  }
}
