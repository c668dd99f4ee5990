/** Percent-encoded components joined by `|` (sections 2.1 and 2.3 of RFC 3986).  Texts are their UTF-8 bytes. */
module PercentEncoding {
  import opened Prelude

  const PERCENT: Byte := 37
  const SEPARATOR: Byte := 124

  /** Letters, digits, and `-`, `.`, `_`, `~`. */
  predicate Unreserved(b: Byte) {
    65 <= b <= 90 || 97 <= b <= 122 || 48 <= b <= 57 || b in {45, 46, 95, 126}
  }

  function HexDigit(n: nat): Byte
    requires n < 16
  {
    if n < 10 then 48 + n else 55 + n
  }

  function HexValue(b: Byte): Option<nat> {
    if 48 <= b <= 57 then Some(b - 48) else if 65 <= b <= 70 then Some(b - 55) else None
  }

  /** `quote(component, safe="")` */
  function Quote(bytes: Bytes): Bytes {
    if bytes == [] then []
    else
      (if Unreserved(bytes[0]) then [bytes[0]]
       else [PERCENT, HexDigit(bytes[0] / 16), HexDigit(bytes[0] % 16)]) + Quote(bytes[1..])
  }

  function Unquote(text: Bytes): Option<Bytes>
    decreases |text|
  {
    if text == [] then Some([])
    else if text[0] != PERCENT then
      match Unquote(text[1..])
      case None => None
      case Some(rest) => Some([text[0]] + rest)
    else if |text| < 3 || HexValue(text[1]) == None || HexValue(text[2]) == None then None
    else
      match Unquote(text[3..])
      case None => None
      case Some(rest) => Some([HexValue(text[1]).value * 16 + HexValue(text[2]).value] + rest)
  }

  /** Unreserved bytes stand for themselves; what is written is made of them and of percent signs. */
  lemma {:induction false} QuoteKeepsUnreserved(bytes: Bytes)
    ensures Quote(bytes) == bytes <==> forall b | b in bytes :: Unreserved(b)
    ensures |Quote(bytes)| >= |bytes| && (|Quote(bytes)| == |bytes| <==> forall b | b in bytes :: Unreserved(b))
    ensures forall b | b in Quote(bytes) :: Unreserved(b) || b == PERCENT
  {
    if bytes != [] {
      var rest := bytes[1..];
      assert bytes == [bytes[0]] + rest;
      QuoteKeepsUnreserved(rest);
      assert forall b | b in rest :: b in bytes;
    }
  }

  lemma {:induction false} UnquoteUndoesQuote(bytes: Bytes)
    ensures Unquote(Quote(bytes)) == Some(bytes)
    ensures SEPARATOR !in Quote(bytes)
  {
    if bytes != [] {
      UnquoteUndoesQuote(bytes[1..]);
      var b := bytes[0];
      var head := if Unreserved(b) then [b] else [PERCENT, HexDigit(b / 16), HexDigit(b % 16)];
      assert Quote(bytes) == head + Quote(bytes[1..]);
      assert Quote(bytes)[|head|..] == Quote(bytes[1..]);
      assert [b] + bytes[1..] == bytes;
    }
  }

  function QuoteAll(components: seq<Bytes>): seq<Bytes> {
    seq(|components|, i requires 0 <= i < |components| => Quote(components[i]))
  }

  function Join(parts: seq<Bytes>): Bytes {
    if parts == [] then []
    else if |parts| == 1 then parts[0]
    else parts[0] + [SEPARATOR] + Join(parts[1..])
  }

  /** The pieces between separators. */
  function Split(text: Bytes): (parts: seq<Bytes>)
    ensures |parts| >= 1
  {
    if text == [] then [[]]
    else
      var parts := Split(text[1..]);
      if text[0] == SEPARATOR then [[]] + parts else [[text[0]] + parts[0]] + parts[1..]
  }

  lemma {:induction false} SplitUndoesJoin(parts: seq<Bytes>)
    requires parts != [] && forall p :: p in parts ==> SEPARATOR !in p
    ensures Split(Join(parts)) == parts
  {
    assert parts[0] in parts;
    if |parts| == 1 {
      SplitOne(parts[0]);
    } else {
      assert forall p :: p in parts[1..] ==> p in parts;
      SplitUndoesJoin(parts[1..]);
      SplitFirst(parts[0], Join(parts[1..]));
    }
  }

  lemma {:induction false} SplitOne(part: Bytes)
    requires SEPARATOR !in part
    ensures Split(part) == [part]
  {
    if part != [] {
      SplitOne(part[1..]);
      assert [part[0]] + part[1..] == part;
    }
  }

  lemma {:induction false} SplitFirst(part: Bytes, rest: Bytes)
    requires SEPARATOR !in part
    ensures Split(part + [SEPARATOR] + rest) == [part] + Split(rest)
  {
    if part == [] {
      assert (part + [SEPARATOR] + rest)[1..] == rest;
    } else {
      assert (part + [SEPARATOR] + rest)[1..] == part[1..] + [SEPARATOR] + rest;
      SplitFirst(part[1..], rest);
      assert [part[0]] + part[1..] == part;
    }
  }

  /** The joined text gives back every component, empty ones included. */
  lemma JoinedComponentsComeBack(components: seq<Bytes>)
    requires components != []
    ensures var parts := Split(Join(QuoteAll(components)));
            |parts| == |components| && forall i :: 0 <= i < |parts| ==> Unquote(parts[i]) == Some(components[i])
  {
    var quoted := QuoteAll(components);
    forall p | p in quoted ensures SEPARATOR !in p {
      var i :| 0 <= i < |quoted| && quoted[i] == p;
      UnquoteUndoesQuote(components[i]);
    }
    SplitUndoesJoin(quoted);
    forall i | 0 <= i < |quoted| ensures Unquote(quoted[i]) == Some(components[i]) {
      UnquoteUndoesQuote(components[i]);
    }
  }

  lemma JoinIsInjective(a: seq<Bytes>, b: seq<Bytes>)
    requires a != [] && b != [] && Join(QuoteAll(a)) == Join(QuoteAll(b))
    ensures a == b
  {
    JoinedComponentsComeBack(a);
    JoinedComponentsComeBack(b);
    var parts := Split(Join(QuoteAll(a)));
    forall i | 0 <= i < |a| ensures a[i] == b[i] {
      assert Unquote(parts[i]) == Some(a[i]);
      assert Unquote(parts[i]) == Some(b[i]);
    }
  }
}
