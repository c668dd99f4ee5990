/**
 * Canonical JSON: compact separators, sorted keys, and the escapes of section 7 of RFC 8259.
 * No two values share a text.
 */
module CanonicalJson {
  import opened Prelude

  datatype Json =
    | Null
    | Bool(b: bool)
    | Int(i: int)
    | Str(bytes: Bytes)
    | Arr(items: Items)
    | Obj(members: Members)

  datatype Items = NoItems | Item(head: Json, tail: Items)

  /** Members in the order they are written; the keys are part of the value. */
  datatype Members = NoMembers | Member(key: Bytes, value: Json, rest: Members)

  const QUOTE: Byte := 34
  const BACKSLASH: Byte := 92

  function LowerHex(n: nat): Byte
    requires n < 16
  {
    if n < 10 then 48 + n else 87 + n
  }

  // Texts are built in front of what follows them: `rest`.

  /** The bytes with an escape of one letter: quotation mark, backslash and five control characters. */
  predicate HasLetter(b: Byte) { b in {QUOTE, BACKSLASH, 8, 9, 10, 12, 13} }

  function Letter(b: Byte): Byte
    requires HasLetter(b)
  {
    if b == 8 then 98 else if b == 9 then 116 else if b == 10 then 110 else if b == 12 then 102 else if b == 13 then 114
    else b
  }

  function EscapeByte(b: Byte, rest: Bytes): Bytes {
    if HasLetter(b) then [BACKSLASH] + ([Letter(b)] + rest)
    else if b < 32 then [BACKSLASH] + ([117] + ([48] + ([48] + ([LowerHex(b / 16)] + ([LowerHex(b % 16)] + rest)))))
    else [b] + rest
  }

  function Escape(bytes: Bytes, rest: Bytes): Bytes {
    if bytes == [] then rest else EscapeByte(bytes[0], Escape(bytes[1..], rest))
  }

  function StringText(bytes: Bytes, rest: Bytes): Bytes {
    [QUOTE] + Escape(bytes, [QUOTE] + rest)
  }

  function NatText(n: nat): Bytes {
    if n < 10 then [48 + n] else NatText(n / 10) + [48 + n % 10]
  }

  function IntText(i: int, rest: Bytes): Bytes {
    if i < 0 then [45] + (NatText(-i) + rest) else NatText(i) + rest
  }

  function TextThen(j: Json, rest: Bytes): Bytes {
    match j
    case Null => [110] + ([117, 108, 108] + rest)
    case Bool(b) => if b then [116] + ([114, 117, 101] + rest) else [102] + ([97, 108, 115, 101] + rest)
    case Int(i) => IntText(i, rest)
    case Str(bytes) => StringText(bytes, rest)
    case Arr(items) => [91] + ItemsThen(items, rest)
    case Obj(members) => [123] + MembersThen(members, rest)
  }

  /** The items and the closing bracket. */
  function ItemsThen(items: Items, rest: Bytes): Bytes {
    match items
    case NoItems => [93] + rest
    case Item(head, tail) => TextThen(head, if tail.NoItems? then [93] + rest else [44] + ItemsThen(tail, rest))
  }

  function MembersThen(members: Members, rest: Bytes): Bytes {
    match members
    case NoMembers => [125] + rest
    case Member(key, value, more) =>
      StringText(key, [58] + TextThen(value, if more.NoMembers? then [125] + rest else [44] + MembersThen(more, rest)))
  }

  /** `json.dumps` with sorted keys and compact separators. */
  function Text(j: Json): Bytes {
    TextThen(j, [])
  }

  /** What may follow a value: nothing, a comma, or a closing bracket. */
  predicate Stops(rest: Bytes) {
    rest == [] || rest[0] in {44, 93, 125}
  }

  lemma Same(x: Byte, r: Bytes, y: Byte, q: Bytes)
    ensures [x] + r == [y] + q <==> x == y && r == q
  {
    if [x] + r == [y] + q {
      assert ([x] + r)[0] == x && ([y] + q)[0] == y;
      assert ([x] + r)[1..] == r && ([y] + q)[1..] == q;
    }
  }

  predicate Digits(bytes: Bytes) {
    forall i :: 0 <= i < |bytes| ==> 48 <= bytes[i] <= 57
  }

  lemma {:induction false} NatTextIsDigits(n: nat)
    ensures Digits(NatText(n)) && NatText(n) != []
  {
    if n >= 10 { NatTextIsDigits(n / 10); }
  }

  lemma {:induction false} NatTextInjective(m: nat, n: nat)
    requires NatText(m) == NatText(n)
    ensures m == n
  {
    NatTextIsDigits(m / 10);
    NatTextIsDigits(n / 10);
    assert (m >= 10 ==> |NatText(m)| >= 2) && (n >= 10 ==> |NatText(n)| >= 2);
    if m >= 10 && n >= 10 {
      assert NatText(m)[..|NatText(m)| - 1] == NatText(m / 10);
      assert NatText(n)[..|NatText(n)| - 1] == NatText(n / 10);
      NatTextInjective(m / 10, n / 10);
    }
  }

  lemma {:induction false} DigitsEndAtStop(a: Bytes, r: Bytes, b: Bytes, q: Bytes)
    requires Digits(a) && Digits(b) && Stops(r) && Stops(q) && a + r == b + q
    ensures a == b && r == q
  {
    assert [] + r == r && [] + q == q;
    assert (a != [] ==> (a + r)[0] == a[0]) && (b != [] ==> (b + q)[0] == b[0]);
    if a != [] && b != [] {
      assert (a + r)[1..] == a[1..] + r && (b + q)[1..] == b[1..] + q;
      DigitsEndAtStop(a[1..], r, b[1..], q);
      assert a == [a[0]] + a[1..] && b == [b[0]] + b[1..];
    }
  }

  lemma IntTextInjective(i: int, r: Bytes, j: int, q: Bytes)
    requires Stops(r) && Stops(q) && IntText(i, r) == IntText(j, q)
    ensures i == j && r == q
  {
    var m, n := if i < 0 then -i else i, if j < 0 then -j else j;
    NatTextIsDigits(m);
    NatTextIsDigits(n);
    assert IntText(i, r)[0] == if i < 0 then 45 else NatText(m)[0];
    assert IntText(j, q)[0] == if j < 0 then 45 else NatText(n)[0];
    if i < 0 { Same(45, NatText(m) + r, 45, NatText(n) + q); }
    DigitsEndAtStop(NatText(m), r, NatText(n), q);
    NatTextInjective(m, n);
  }

  predicate Escaped(b: Byte) { HasLetter(b) || b < 32 }

  lemma LettersDiffer(a: Byte, b: Byte)
    requires HasLetter(a) && HasLetter(b)
    ensures Letter(a) != 117 && (Letter(a) == Letter(b) ==> a == b)
  {
  }

  lemma HexEscapesDiffer(a: Byte, r: Bytes, b: Byte, q: Bytes)
    requires a < 32 && b < 32
    requires [LowerHex(a / 16)] + ([LowerHex(a % 16)] + r) == [LowerHex(b / 16)] + ([LowerHex(b % 16)] + q)
    ensures a == b && r == q
  {
    Same(LowerHex(a / 16), [LowerHex(a % 16)] + r, LowerHex(b / 16), [LowerHex(b % 16)] + q);
    Same(LowerHex(a % 16), r, LowerHex(b % 16), q);
    assert a == 16 * (a / 16) + a % 16 && b == 16 * (b / 16) + b % 16;
  }

  /** What stands behind the backslash of an escape. */
  function BehindBackslash(b: Byte, rest: Bytes): Bytes
    requires Escaped(b)
  {
    if HasLetter(b) then [Letter(b)] + rest
    else [117] + ([48] + ([48] + ([LowerHex(b / 16)] + ([LowerHex(b % 16)] + rest))))
  }

  lemma EscapesDiffer(a: Byte, r: Bytes, b: Byte, q: Bytes)
    requires Escaped(a) && Escaped(b) && BehindBackslash(a, r) == BehindBackslash(b, q)
    ensures a == b && r == q
  {
    assert BehindBackslash(a, r)[0] == if HasLetter(a) then Letter(a) else 117;
    assert BehindBackslash(b, q)[0] == if HasLetter(b) then Letter(b) else 117;
    if HasLetter(a) { LettersDiffer(a, a); }
    if HasLetter(b) { LettersDiffer(b, b); }
    if HasLetter(a) && HasLetter(b) {
      Same(Letter(a), r, Letter(b), q);
      LettersDiffer(a, b);
    } else if !HasLetter(a) && !HasLetter(b) {
      var x, y := [LowerHex(a / 16)] + ([LowerHex(a % 16)] + r), [LowerHex(b / 16)] + ([LowerHex(b % 16)] + q);
      Same(117, [48] + ([48] + x), 117, [48] + ([48] + y));
      Same(48, [48] + x, 48, [48] + y);
      Same(48, x, 48, y);
      HexEscapesDiffer(a, r, b, q);
    }
  }

  lemma EscapeBegins(b: Byte, rest: Bytes)
    ensures var x := EscapeByte(b, rest);
            x != [] && x[0] != QUOTE && x == if Escaped(b) then [BACKSLASH] + BehindBackslash(b, rest) else [b] + rest
    ensures Escaped(b) <==> EscapeByte(b, rest)[0] == BACKSLASH
  {
  }

  /** An escape tells its byte and what follows. */
  lemma EscapesArePrefixFree(a: Byte, r: Bytes, b: Byte, q: Bytes)
    requires EscapeByte(a, r) == EscapeByte(b, q)
    ensures a == b && r == q
  {
    EscapeBegins(a, r);
    EscapeBegins(b, q);
    if Escaped(a) {
      Same(BACKSLASH, BehindBackslash(a, r), BACKSLASH, BehindBackslash(b, q));
      EscapesDiffer(a, r, b, q);
    } else {
      Same(a, r, b, q);
    }
  }

  lemma {:induction false} EscapedTextEnds(s: Bytes, r: Bytes, t: Bytes, q: Bytes)
    requires Escape(s, [QUOTE] + r) == Escape(t, [QUOTE] + q)
    ensures s == t && r == q
    decreases |s|
  {
    if s != [] { EscapeBegins(s[0], Escape(s[1..], [QUOTE] + r)); }
    if t != [] { EscapeBegins(t[0], Escape(t[1..], [QUOTE] + q)); }
    assert s == [] <==> t == [];
    if s == [] {
      Same(QUOTE, r, QUOTE, q);
    } else {
      EscapesArePrefixFree(s[0], Escape(s[1..], [QUOTE] + r), t[0], Escape(t[1..], [QUOTE] + q));
      EscapedTextEnds(s[1..], r, t[1..], q);
      assert s == [s[0]] + s[1..] && t == [t[0]] + t[1..];
    }
  }

  lemma StringTextInjective(s: Bytes, r: Bytes, t: Bytes, q: Bytes)
    requires StringText(s, r) == StringText(t, q)
    ensures s == t && r == q
  {
    Same(QUOTE, Escape(s, [QUOTE] + r), QUOTE, Escape(t, [QUOTE] + q));
    EscapedTextEnds(s, r, t, q);
  }

  /** Each kind of value begins with bytes of its own, none of which closes a list. */
  function Kind(b: Byte): nat {
    if b == 110 then 0 else if b == 116 then 1 else if b == 102 then 2 else if b == 45 || 48 <= b <= 57 then 3
    else if b == QUOTE then 4 else if b == 91 then 5 else if b == 123 then 6 else 7
  }

  lemma TextBegins(j: Json, rest: Bytes)
    ensures TextThen(j, rest) != []
    ensures Kind(TextThen(j, rest)[0])
            == match j
               case Null => 0
               case Bool(b) => if b then 1 else 2
               case Int(_) => 3
               case Str(_) => 4
               case Arr(_) => 5
               case Obj(_) => 6
  {
    if j.Int? { NatTextIsDigits(if j.i < 0 then -j.i else j.i); }
  }

  /** Texts of different values differ, whatever follows them. */
  lemma {:induction false} TextInjective(a: Json, r: Bytes, b: Json, q: Bytes)
    requires Stops(r) && Stops(q) && TextThen(a, r) == TextThen(b, q)
    ensures a == b && r == q
    decreases a, 0
  {
    TextBegins(a, r);
    TextBegins(b, q);
    match a
    case Null => assert r == TextThen(a, r)[4..] && q == TextThen(b, q)[4..];
    case Bool(x) => var n := if x then 4 else 5; assert r == TextThen(a, r)[n..] && q == TextThen(b, q)[n..];
    case Int(i) => IntTextInjective(i, r, b.i, q);
    case Str(s) => StringTextInjective(s, r, b.bytes, q);
    case Arr(items) =>
      Same(91, ItemsThen(items, r), 91, ItemsThen(b.items, q));
      ItemsInjective(items, r, b.items, q);
    case Obj(members) =>
      Same(123, MembersThen(members, r), 123, MembersThen(b.members, q));
      MembersInjective(members, r, b.members, q);
  }

  function AfterItem(tail: Items, rest: Bytes): Bytes {
    if tail.NoItems? then [93] + rest else [44] + ItemsThen(tail, rest)
  }

  lemma ItemsBegin(items: Items, rest: Bytes)
    ensures ItemsThen(items, rest) != [] && (ItemsThen(items, rest)[0] == 93 <==> items.NoItems?)
  {
    if items.Item? { TextBegins(items.head, AfterItem(items.tail, rest)); }
  }

  lemma {:induction false} ItemsInjective(a: Items, r: Bytes, b: Items, q: Bytes)
    requires ItemsThen(a, r) == ItemsThen(b, q)
    ensures a == b && r == q
    decreases a, 1
  {
    ItemsBegin(a, r);
    ItemsBegin(b, q);
    if a.NoItems? {
      Same(93, r, 93, q);
    } else {
      TextInjective(a.head, AfterItem(a.tail, r), b.head, AfterItem(b.tail, q));
      assert AfterItem(a.tail, r)[0] == AfterItem(b.tail, q)[0];
      if a.tail.NoItems? {
        Same(93, r, 93, q);
      } else {
        Same(44, ItemsThen(a.tail, r), 44, ItemsThen(b.tail, q));
        ItemsInjective(a.tail, r, b.tail, q);
      }
    }
  }

  function AfterMember(more: Members, rest: Bytes): Bytes {
    if more.NoMembers? then [125] + rest else [44] + MembersThen(more, rest)
  }

  lemma {:induction false} MembersInjective(a: Members, r: Bytes, b: Members, q: Bytes)
    requires MembersThen(a, r) == MembersThen(b, q)
    ensures a == b && r == q
    decreases a, 1
  {
    assert MembersThen(a, r)[0] == if a.NoMembers? then 125 else QUOTE;
    assert MembersThen(b, q)[0] == if b.NoMembers? then 125 else QUOTE;
    if a.NoMembers? {
      Same(125, r, 125, q);
    } else {
      var x, y := AfterMember(a.rest, r), AfterMember(b.rest, q);
      StringTextInjective(a.key, [58] + TextThen(a.value, x), b.key, [58] + TextThen(b.value, y));
      Same(58, TextThen(a.value, x), 58, TextThen(b.value, y));
      TextInjective(a.value, x, b.value, y);
      assert x[0] == y[0];
      if a.rest.NoMembers? {
        Same(125, r, 125, q);
      } else {
        Same(44, MembersThen(a.rest, r), 44, MembersThen(b.rest, q));
        MembersInjective(a.rest, r, b.rest, q);
      }
    }
  }

  lemma TextDetermines(a: Json, b: Json)
    ensures Text(a) == Text(b) <==> a == b
  {
    if Text(a) == Text(b) { TextInjective(a, [], b, []); }
  }
}
