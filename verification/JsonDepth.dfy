/**
  The lexical depth check that runs over a response's bytes before they are parsed.

  It knows quotes, escapes and brackets, and nothing of the grammar.  Here it is compared
  with the nesting of the value: over every text of every JSON value (sections 2 and 7 of
  RFC 8259), given as a concrete syntax tree with all its white space and escapes.
 */
module JsonDepth {
  import opened Prelude

  const MAX_DEPTH := 64

  const QUOTE: Byte := 34
  const BACKSLASH: Byte := 92
  const COMMA: Byte := 44
  const COLON: Byte := 58

  // ---------- the scanner ----------

  datatype State = State(depth: nat, quoted: bool, escaped: bool)

  /** One byte; `None` when the depth bound is exceeded. */
  function ScanByte(s: State, b: Byte): Option<State> {
    if s.quoted then
      if s.escaped then Some(s.(escaped := false))
      else if b == BACKSLASH then Some(s.(escaped := true))
      else if b == QUOTE then Some(s.(quoted := false))
      else Some(s)
    else if b == QUOTE then Some(s.(quoted := true))
    else if b in {91, 123} then
      if s.depth + 1 > MAX_DEPTH then None else Some(s.(depth := s.depth + 1))
    else if b in {93, 125} && s.depth > 0 then Some(s.(depth := s.depth - 1))
    else Some(s)
  }

  function Scan(s: State, bytes: seq<Byte>): Option<State>
    decreases |bytes|
  {
    if bytes == [] then Some(s)
    else
      match ScanByte(s, bytes[0])
      case None => None
      case Some(s') => Scan(s', bytes[1..])
  }

  /** The program: true when the whole response is within the bound. */
  method ValidateJsonDepth(raw: seq<Byte>) returns (ok: bool)
    ensures ok <==> Scan(State(0, false, false), raw).Some?
  {
    var depth, quoted, escaped := 0, false, false;
    for i := 0 to |raw|
      invariant depth >= 0
      invariant Scan(State(depth, quoted, escaped), raw[i..]) == Scan(State(0, false, false), raw)
    {
      var byte := raw[i];
      assert raw[i..][1..] == raw[i + 1..];
      if quoted {
        if escaped { escaped := false; }
        else if byte == 92 { escaped := true; }
        else if byte == 34 { quoted := false; }
      } else if byte == 34 {
        quoted := true;
      } else if byte == 91 || byte == 123 {
        depth := depth + 1;
        if depth > MAX_DEPTH { return false; }
      } else if (byte == 93 || byte == 125) && depth != 0 {
        depth := depth - 1;
      }
    }
    return true;
  }

  lemma {:induction false} ScanJoins(s: State, a: seq<Byte>, b: seq<Byte>)
    ensures Scan(s, a + b) == match Scan(s, a) case None => None case Some(t) => Scan(t, b)
    decreases |a|
  {
    if a == [] {
      assert a + b == b;
    } else {
      assert (a + b)[1..] == a[1..] + b;
      match ScanByte(s, a[0]) {
        case None =>
        case Some(t) => ScanJoins(t, a[1..], b);
      }
    }
  }

  // ---------- JSON texts ----------

  /** One character of a string: a byte that stands for itself, or a backslash and the byte behind it. */
  datatype Char = Plain(b: Byte) | Escape(b: Byte)

  datatype Key = Key(chars: seq<Char>, beforeColon: seq<Byte>, afterColon: seq<Byte>)

  datatype Node =
    | Scalar(token: seq<Byte>)
    | Str(chars: seq<Char>)
    | Array(blank: seq<Byte>, items: Items)
    | Object(blank: seq<Byte>, items: Items)

  /** Array elements, or object members with their keys; each with the blanks around it. */
  datatype Items = End | More(before: seq<Byte>, key: Option<Key>, value: Node, after: seq<Byte>, rest: Items)

  predicate Blank(bytes: seq<Byte>) {
    forall b :: b in bytes ==> b in {9, 10, 13, 32}
  }

  /** Numbers, true, false and null: signs, dots, digits and letters. */
  predicate Token(bytes: seq<Byte>) {
    bytes != [] && forall b :: b in bytes ==> b in {43, 45, 46} || 48 <= b <= 57 || 65 <= b <= 90 || 97 <= b <= 122
  }

  predicate Character(c: Char) {
    match c
    case Plain(b) => b >= 32 && b != QUOTE && b != BACKSLASH
    case Escape(b) => b in {34, 47, 92, 98, 102, 110, 114, 116, 117}
  }

  predicate Chars(chars: seq<Char>) {
    forall c :: c in chars ==> Character(c)
  }

  predicate WellFormed(n: Node) {
    match n
    case Scalar(token) => Token(token)
    case Str(chars) => Chars(chars)
    case Array(blank, items) => Blank(blank) && WellFormedItems(items, false)
    case Object(blank, items) => Blank(blank) && WellFormedItems(items, true)
  }

  predicate WellFormedItems(items: Items, keyed: bool) {
    match items
    case End => true
    case More(before, key, value, after, rest) =>
      && Blank(before) && Blank(after) && WellFormed(value) && WellFormedItems(rest, keyed)
      && key.Some? == keyed
      && (keyed ==> Chars(key.value.chars) && Blank(key.value.beforeColon) && Blank(key.value.afterColon))
  }

  function CharsText(chars: seq<Char>): seq<Byte> {
    if chars == [] then []
    else (match chars[0] case Plain(b) => [b] case Escape(b) => [BACKSLASH, b]) + CharsText(chars[1..])
  }

  function StringText(chars: seq<Char>): seq<Byte> {
    [QUOTE] + CharsText(chars) + [QUOTE]
  }

  function KeyText(key: Option<Key>): seq<Byte> {
    match key
    case None => []
    case Some(k) => StringText(k.chars) + (k.beforeColon + [COLON] + k.afterColon)
  }

  function Text(n: Node): seq<Byte> {
    match n
    case Scalar(token) => token
    case Str(chars) => StringText(chars)
    case Array(blank, items) => [91] + (blank + ItemsText(items, true)) + [93]
    case Object(blank, items) => [123] + (blank + ItemsText(items, true)) + [125]
  }

  function ItemsText(items: Items, first: bool): seq<Byte> {
    match items
    case End => []
    case More(before, key, value, after, rest) =>
      (if first then [] else [COMMA]) + before + KeyText(key) + Text(value) + after + ItemsText(rest, false)
  }

  /** How deep arrays and objects are nested. */
  function Nesting(n: Node): nat {
    match n
    case Scalar(_) => 0
    case Str(_) => 0
    case Array(_, items) => 1 + NestingOfItems(items)
    case Object(_, items) => 1 + NestingOfItems(items)
  }

  function NestingOfItems(items: Items): nat {
    match items
    case End => 0
    case More(_, _, value, _, rest) =>
      var here, there := Nesting(value), NestingOfItems(rest);
      if here > there then here else there
  }

  // ---------- the scanner over texts ----------

  function Unquoted(depth: nat): State { State(depth, false, false) }

  predicate Neutral(b: Byte) { b !in {QUOTE, 91, 93, 123, 125} }

  lemma {:induction false} NeutralBytesPass(depth: nat, bytes: seq<Byte>)
    requires forall b :: b in bytes ==> Neutral(b)
    ensures Scan(Unquoted(depth), bytes) == Some(Unquoted(depth))
  {
    if bytes != [] {
      assert Neutral(bytes[0]);
      NeutralBytesPass(depth, bytes[1..]);
    }
  }

  lemma {:induction false} CharsStayQuoted(depth: nat, chars: seq<Char>)
    requires Chars(chars)
    ensures Scan(State(depth, true, false), CharsText(chars)) == Some(State(depth, true, false))
  {
    if chars != [] {
      var q := State(depth, true, false);
      CharsStayQuoted(depth, chars[1..]);
      assert chars[0] in chars;
      match chars[0] {
        case Plain(b) => ScanJoins(q, [b], CharsText(chars[1..]));
        case Escape(b) =>
          ScanJoins(q, [BACKSLASH, b], CharsText(chars[1..]));
          assert [BACKSLASH, b][1..] == [b];
      }
    }
  }

  lemma StringsPass(depth: nat, chars: seq<Char>)
    requires Chars(chars)
    ensures Scan(Unquoted(depth), StringText(chars)) == Some(Unquoted(depth))
  {
    CharsStayQuoted(depth, chars);
    ScanJoins(Unquoted(depth), [QUOTE], CharsText(chars));
    ScanJoins(Unquoted(depth), [QUOTE] + CharsText(chars), [QUOTE]);
  }

  lemma KeysPass(depth: nat, key: Option<Key>)
    requires key.Some? ==> Chars(key.value.chars) && Blank(key.value.beforeColon) && Blank(key.value.afterColon)
    ensures Scan(Unquoted(depth), KeyText(key)) == Some(Unquoted(depth))
  {
    if key.Some? {
      var filler := key.value.beforeColon + [COLON] + key.value.afterColon;
      StringsPass(depth, key.value.chars);
      NeutralBytesPass(depth, filler);
      ScanJoins(Unquoted(depth), StringText(key.value.chars), filler);
    }
  }

  function Reached(depth: nat, nesting: nat): Option<State> {
    if depth + nesting <= MAX_DEPTH then Some(Unquoted(depth)) else None
  }

  /**
    Over the text of a value, from any depth: the scanner ends unquoted at the depth it started from, or rejects;
    it rejects exactly when the nesting does not fit.
   */
  lemma {:induction false} ScannerMeasuresNesting(depth: nat, n: Node)
    requires WellFormed(n) && depth <= MAX_DEPTH
    ensures Scan(Unquoted(depth), Text(n)) == Reached(depth, Nesting(n))
    decreases n, 0
  {
    match n
    case Scalar(token) => NeutralBytesPass(depth, token);
    case Str(chars) => StringsPass(depth, chars);
    case Array(blank, items) => BracketsMeasureNesting(depth, 91, blank, items, 93, false);
    case Object(blank, items) => BracketsMeasureNesting(depth, 123, blank, items, 125, true);
  }

  lemma {:induction false} BracketsMeasureNesting(
      depth: nat, open: Byte, blank: seq<Byte>, items: Items, close: Byte, keyed: bool)
    requires depth <= MAX_DEPTH && open in {91, 123} && close in {93, 125} && Blank(blank) && WellFormedItems(items, keyed)
    ensures Scan(Unquoted(depth), [open] + (blank + ItemsText(items, true)) + [close])
            == Reached(depth, 1 + NestingOfItems(items))
    decreases items, 1
  {
    if depth < MAX_DEPTH {
      NeutralBytesPass(depth + 1, blank);
      ItemsMeasureNesting(depth + 1, items, keyed, true);
      ScanJoins(Unquoted(depth + 1), blank, ItemsText(items, true));
    }
    BracketsEnclose(depth, open, blank + ItemsText(items, true), close, NestingOfItems(items));
  }

  lemma BracketsEnclose(depth: nat, open: Byte, inner: seq<Byte>, close: Byte, nesting: nat)
    requires depth <= MAX_DEPTH && open in {91, 123} && close in {93, 125}
    requires depth < MAX_DEPTH ==> Scan(Unquoted(depth + 1), inner) == Reached(depth + 1, nesting)
    ensures Scan(Unquoted(depth), [open] + inner + [close]) == Reached(depth, 1 + nesting)
  {
    ScanJoins(Unquoted(depth), [open], inner);
    ScanJoins(Unquoted(depth), [open] + inner, [close]);
  }

  lemma {:induction false} ItemsMeasureNesting(depth: nat, items: Items, keyed: bool, first: bool)
    requires depth <= MAX_DEPTH && WellFormedItems(items, keyed)
    ensures Scan(Unquoted(depth), ItemsText(items, first)) == Reached(depth, NestingOfItems(items))
    decreases items, 0
  {
    match items
    case End =>
    case More(before, key, value, after, rest) =>
      var s := Unquoted(depth);
      var lead := (if first then [] else [COMMA]) + before;
      NeutralBytesPass(depth, lead);
      KeysPass(depth, key);
      ScannerMeasuresNesting(depth, value);
      NeutralBytesPass(depth, after);
      ItemsMeasureNesting(depth, rest, keyed, false);
      ScanJoins(s, lead, KeyText(key));
      ScanJoins(s, lead + KeyText(key), Text(value));
      ScanJoins(s, lead + KeyText(key) + Text(value), after);
      ScanJoins(s, lead + KeyText(key) + Text(value) + after, ItemsText(rest, false));
  }

  /** A whole response, with blanks around its value, is accepted iff the value nests at most 64 deep. */
  lemma ResponseAcceptedIffShallow(before: seq<Byte>, n: Node, after: seq<Byte>)
    requires Blank(before) && WellFormed(n) && Blank(after)
    ensures Scan(Unquoted(0), before + Text(n) + after).Some? <==> Nesting(n) <= 64
    ensures Nesting(n) <= 64 ==> Scan(Unquoted(0), before + Text(n) + after) == Some(Unquoted(0))
  {
    NeutralBytesPass(0, before);
    ScannerMeasuresNesting(0, n);
    NeutralBytesPass(0, after);
    ScanJoins(Unquoted(0), before, Text(n));
    ScanJoins(Unquoted(0), before + Text(n), after);
  }
}
