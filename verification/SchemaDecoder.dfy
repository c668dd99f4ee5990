/**
 * The table-driven decoder of the semantic snapshot view and the query generated from the same table.
 * A member of a JSON object that the query does not select cannot change the decoded value, and the
 * decoded value carries every member that it does select.
 */
module SchemaDecoder {
  import opened Prelude
  import opened SnapshotSchema
  import opened DecimalText

  /** A JSON value as the client receives it; fractions stand for every number that is not an integer. */
  datatype Raw =
    | Null
    | Bool(b: bool)
    | Int(i: int)
    | Fraction
    | Str(s: string)
    | List(items: seq<Raw>)
    | Obj(members: map<string, Raw>)

  /** A decoded value: a detached record holds exactly its declared fields. */
  datatype Value =
    | NoValue
    | BoolValue(b: bool)
    | IntValue(i: int)
    | TextValue(s: string)
    | DecimalValue(negative: bool, digits: string, exponent: int)
    | ListValue(items: seq<Value>)
    | RecordValue(record: Record, members: map<string, Value>)

  // ---- scalars ----

  const UINT64_LIMIT := 0x1_0000_0000_0000_0000
  const INT64_LIMIT := 0x8000_0000_0000_0000

  predicate IsUint64(s: string) { |s| <= 20 && IsNatural(s) && IntegerValue(s) < UINT64_LIMIT }

  predicate IsInt64(s: string) { |s| <= 20 && IsInteger(s) && -INT64_LIMIT <= IntegerValue(s) < INT64_LIMIT }

  predicate IsLowerHex(c: char) { IsDigit(c) || 'a' <= c <= 'f' }

  predicate IsDigest(s: string) {
    |s| == 71 && s[..7] == "sha256:" && forall i :: 7 <= i < |s| ==> IsLowerHex(s[i])
  }

  predicate IsVersion(s: string) {
    exists i, j :: 0 <= i < j < |s| && s[i] == '.' && s[j] == '.'
      && IsNatural(s[..i]) && IsNatural(s[i + 1..j]) && IsNatural(s[j + 1..])
  }

  predicate TextFits(kind: Scalar, s: string) {
    match kind
    case Text => true
    case Uint64 => IsUint64(s)
    case Int64 => IsInt64(s)
    case Digest => IsDigest(s)
    case SemanticVersion => IsVersion(s)
    case Enum(values) => s in Symbols(values)
    case _ => s != ""
  }

  function DecodeScalar(kind: Scalar, raw: Raw): Option<Value> {
    match kind
    case Boolean => if raw.Bool? then Some(BoolValue(raw.b)) else None
    case Int32 => if raw.Int? && -0x8000_0000 <= raw.i < 0x8000_0000 then Some(IntValue(raw.i)) else None
    case Uint16 => if raw.Int? && 0 <= raw.i < 0x1_0000 then Some(IntValue(raw.i)) else None
    case _ => if raw.Str? && TextFits(kind, raw.s) then Some(TextValue(raw.s)) else None
  }

  // ---- records ----

  function Member(members: map<string, Value>, name: string): Value {
    if name in members then members[name] else NoValue
  }

  const ARMS := {"quantity", "boolean", "text", "symbol", "symbols", "time"}

  predicate DimensionsDiffer(dimensions: seq<Value>) {
    forall i, j :: 0 <= i < j < |dimensions| && dimensions[i].RecordValue? && dimensions[j].RecordValue?
      ==> Member(dimensions[i].members, "id") != Member(dimensions[j].members, "id")
  }

  predicate OneArm(members: map<string, Value>) {
    && Member(members, "kind").TextValue?
    && (forall arm | arm in ARMS :: Member(members, arm) != NoValue <==> arm == Member(members, "kind").s)
    && (Member(members, "symbols").ListValue? ==> 1 <= |Member(members, "symbols").items| <= 64)
  }

  /** The checks on a whole record, and the detached value it becomes. */
  function Detach(r: Record, members: map<string, Value>): Option<Value> {
    match r
    case DecimalRecord =>
      var coefficient, exponent := Member(members, "coefficient"), Member(members, "exponent10");
      if coefficient.TextValue? && exponent.IntValue? && IsDecimal(coefficient.s, exponent.i)
      then Some(DecimalValue(Negative(coefficient.s), Magnitude(coefficient.s), exponent.i))
      else None
    case FactKeyRecord =>
      var dimensions := Member(members, "dimensions");
      if dimensions.ListValue? && DimensionsDiffer(dimensions.items) then Some(RecordValue(r, members)) else None
    case ValueRecord =>
      if OneArm(members) then Some(RecordValue(r, members)) else None
    case _ => Some(RecordValue(r, members))
  }

  function Decode(base: Base, raw: Raw): Option<Value>
    decreases raw, 2
  {
    match base
    case Of(kind) => DecodeScalar(kind, raw)
    case Rec(r) =>
      if raw.Obj? && MembersDecode(Fields(r), raw) then Detach(r, DecodedMembers(Fields(r), raw)) else None
  }

  /** Every declared field is present and its value decodes. */
  predicate MembersDecode(fields: map<string, Field>, raw: Raw)
    requires raw.Obj?
    decreases raw, 0
  {
    forall name | name in fields :: name in raw.members && DecodeField(fields[name], raw.members[name]).Some?
  }

  function DecodedMembers(fields: map<string, Field>, raw: Raw): map<string, Value>
    requires raw.Obj? && MembersDecode(fields, raw)
    decreases raw, 1
  {
    map name | name in fields :: DecodeField(fields[name], raw.members[name]).value
  }

  function DecodeField(field: Field, raw: Raw): Option<Value>
    decreases raw, 3
  {
    if raw.Null? then
      if field.nullable then Some(NoValue) else None
    else if !field.many then
      Decode(field.base, raw)
    else if raw.List? && ItemsDecode(field.base, raw.items) then
      Some(ListValue(DecodedItems(field.base, raw.items)))
    else
      None
  }

  predicate ItemsDecode(base: Base, items: seq<Raw>)
    decreases items, 3
  {
    forall i | 0 <= i < |items| :: Decode(base, items[i]).Some?
  }

  function DecodedItems(base: Base, items: seq<Raw>): seq<Value>
    requires ItemsDecode(base, items)
    decreases items, 4
  {
    seq(|items|, i requires 0 <= i < |items| => Decode(base, items[i]).value)
  }

  // ---- the query ----

  /** What a query asks of a value: the value itself, or some members of an object. */
  datatype Pick = Whole | Members(picks: map<string, Pick>)

  /** The generated selection of a record; it ends because no record contains itself. */
  function Selection(r: Record): Pick
    decreases Rank(r)
  {
    FieldsRankLower(r);
    var fields := Fields(r);
    Members(map name | name in fields ::
      if fields[name].base.Rec? then Selection(fields[name].base.record) else Whole)
  }

  function SelectionOf(base: Base): Pick { if base.Rec? then Selection(base.record) else Whole }

  lemma SelectionPicks(r: Record)
    ensures Selection(r).Members? && Selection(r).picks.Keys == Fields(r).Keys
    ensures forall name | name in Fields(r) :: Selection(r).picks[name] == SelectionOf(Fields(r)[name].base)
  {
  }

  /** The answer to a query by a server that holds `raw`. */
  function Answer(pick: Pick, raw: Raw): Raw
    decreases raw
  {
    if pick.Whole? then raw
    else match raw
      case List(items) => List(seq(|items|, i requires 0 <= i < |items| => Answer(pick, items[i])))
      case Obj(members) =>
        Obj(map name | name in members && name in pick.picks :: Answer(pick.picks[name], members[name]))
      case _ => raw
  }

  /** A decoded value as JSON. */
  function Encode(v: Value): Raw {
    match v
    case NoValue => Null
    case BoolValue(b) => Bool(b)
    case IntValue(i) => Int(i)
    case TextValue(s) => Str(s)
    case DecimalValue(negative, digits, exponent) =>
      Obj(map["coefficient" := Str(if negative then "-" + digits else digits), "exponent10" := Int(exponent)])
    case ListValue(items) => List(seq(|items|, i requires 0 <= i < |items| => Encode(items[i])))
    case RecordValue(_, members) => Obj(map name | name in members :: Encode(members[name]))
  }

  // ---- the decoder reads no more than the query selects ----

  lemma {:induction false} AnswerDecodes(base: Base, raw: Raw)
    ensures Decode(base, Answer(SelectionOf(base), raw)) == Decode(base, raw)
    decreases raw, 2
  {
    if base.Rec? && raw.Obj? {
      var fields, answer := Fields(base.record), Answer(SelectionOf(base), raw);
      SelectionPicks(base.record);
      forall name | name in fields && name in raw.members
        ensures DecodeField(fields[name], answer.members[name]) == DecodeField(fields[name], raw.members[name])
      {
        AnswerFieldDecodes(fields[name], raw.members[name]);
      }
      MembersAgree(fields, raw, answer);
    }
  }

  lemma MembersAgree(fields: map<string, Field>, raw: Raw, answer: Raw)
    requires raw.Obj? && answer.Obj?
    requires forall name | name in fields :: name in raw.members <==> name in answer.members
    requires forall name | name in fields && name in raw.members ::
      DecodeField(fields[name], answer.members[name]) == DecodeField(fields[name], raw.members[name])
    ensures MembersDecode(fields, raw) <==> MembersDecode(fields, answer)
    ensures MembersDecode(fields, raw) ==> DecodedMembers(fields, raw) == DecodedMembers(fields, answer)
  {
  }

  lemma {:induction false} AnswerFieldDecodes(field: Field, raw: Raw)
    ensures DecodeField(field, Answer(SelectionOf(field.base), raw)) == DecodeField(field, raw)
    decreases raw, 3
  {
    if !field.many {
      AnswerDecodes(field.base, raw);
    } else if raw.List? {
      forall i | 0 <= i < |raw.items|
        ensures Decode(field.base, Answer(SelectionOf(field.base), raw.items[i])) == Decode(field.base, raw.items[i])
      {
        AnswerDecodes(field.base, raw.items[i]);
      }
      ItemsAgree(field.base, raw.items, Answer(SelectionOf(field.base), raw).items);
    }
  }

  lemma ItemsAgree(base: Base, items: seq<Raw>, answers: seq<Raw>)
    requires |items| == |answers|
    requires forall i | 0 <= i < |items| :: Decode(base, answers[i]) == Decode(base, items[i])
    ensures ItemsDecode(base, items) <==> ItemsDecode(base, answers)
    ensures ItemsDecode(base, items) ==> DecodedItems(base, items) == DecodedItems(base, answers)
  {
  }

  // ---- and no less: what it selects is demanded, and is carried in the value ----

  /** Every member that the query selects is there, at every depth. */
  predicate Complete(pick: Pick, raw: Raw)
    decreases raw
  {
    pick.Whole? ||
    match raw
    case List(items) => forall i | 0 <= i < |items| :: Complete(pick, items[i])
    case Obj(members) => forall name | name in pick.picks :: name in members && Complete(pick.picks[name], members[name])
    case _ => true
  }

  lemma CoefficientText(s: string)
    ensures s == if Negative(s) then "-" + Magnitude(s) else Magnitude(s)
  {
  }

  lemma DecimalFields()
    ensures Fields(DecimalRecord).Keys == {"coefficient", "exponent10"}
  {
  }

  lemma DetachedDecimal(members: map<string, Value>)
    requires members.Keys == {"coefficient", "exponent10"} && Detach(DecimalRecord, members).Some?
    ensures Encode(Detach(DecimalRecord, members).value) == Obj(map name | name in members :: Encode(members[name]))
  {
    CoefficientText(members["coefficient"].s);
  }

  lemma DetachedRecord(r: Record, members: map<string, Value>)
    requires members.Keys == Fields(r).Keys && Detach(r, members).Some?
    ensures Encode(Detach(r, members).value) == Obj(map name | name in members :: Encode(members[name]))
  {
    if r.DecimalRecord? {
      DecimalFields();
      DetachedDecimal(members);
    } else {
      assert Detach(r, members).value == RecordValue(r, members);
    }
  }

  lemma ObjectCarriesAnswer(picks: map<string, Pick>, raw: Raw, values: map<string, Value>)
    requires raw.Obj? && picks.Keys == values.Keys && picks.Keys <= raw.members.Keys
    requires forall name | name in picks :: Encode(values[name]) == Answer(picks[name], raw.members[name])
    requires forall name | name in picks :: Complete(picks[name], raw.members[name])
    ensures Answer(Members(picks), raw) == Obj(map name | name in values :: Encode(values[name]))
    ensures Complete(Members(picks), raw)
  {
  }

  /** What the query selects is demanded by the decoder and carried, unchanged, by the decoded value. */
  lemma {:induction false} DecodedCarriesAnswer(base: Base, raw: Raw)
    requires Decode(base, raw).Some?
    ensures Encode(Decode(base, raw).value) == Answer(SelectionOf(base), raw)
    ensures Complete(SelectionOf(base), raw)
    decreases raw, 2
  {
    if base.Rec? {
      var fields := Fields(base.record);
      var values := DecodedMembers(fields, raw);
      var picks := Selection(base.record).picks;
      SelectionPicks(base.record);
      forall name | name in picks
        ensures Encode(values[name]) == Answer(picks[name], raw.members[name])
        ensures Complete(picks[name], raw.members[name])
      {
        FieldCarriesAnswer(fields[name], raw.members[name]);
      }
      ObjectCarriesAnswer(picks, raw, values);
      DetachedRecord(base.record, values);
    }
  }

  lemma {:induction false} FieldCarriesAnswer(field: Field, raw: Raw)
    requires DecodeField(field, raw).Some?
    ensures Encode(DecodeField(field, raw).value) == Answer(SelectionOf(field.base), raw)
    ensures Complete(SelectionOf(field.base), raw)
    decreases raw, 3
  {
    if raw.Null? {
    } else if !field.many {
      DecodedCarriesAnswer(field.base, raw);
    } else {
      forall i | 0 <= i < |raw.items|
        ensures Encode(Decode(field.base, raw.items[i]).value) == Answer(SelectionOf(field.base), raw.items[i])
        ensures Complete(SelectionOf(field.base), raw.items[i])
      {
        DecodedCarriesAnswer(field.base, raw.items[i]);
      }
      ListCarriesAnswer(field.base, raw.items);
    }
  }

  lemma ListCarriesAnswer(base: Base, items: seq<Raw>)
    requires ItemsDecode(base, items)
    requires forall i | 0 <= i < |items| :: Encode(Decode(base, items[i]).value) == Answer(SelectionOf(base), items[i])
    ensures Encode(ListValue(DecodedItems(base, items))) == Answer(SelectionOf(base), List(items))
  {
    var values, answer := DecodedItems(base, items), Answer(SelectionOf(base), List(items));
    assert Encode(ListValue(values)).items == answer.items;
  }

  /** Encoding undoes decoding on what the query selects, and decoding undoes encoding. */
  lemma DecodingRoundTrips(base: Base, raw: Raw)
    ensures Decode(base, raw).Some? ==>
      && Encode(Decode(base, raw).value) == Answer(SelectionOf(base), raw)
      && Decode(base, Encode(Decode(base, raw).value)) == Decode(base, raw)
  {
    if Decode(base, raw).Some? {
      DecodedCarriesAnswer(base, raw);
      AnswerDecodes(base, raw);
    }
  }

  /** Two responses decode to the same value iff they agree on everything that the query selects. */
  lemma EqualValuesIff(base: Base, one: Raw, other: Raw)
    requires Decode(base, one).Some? && Decode(base, other).Some?
    ensures Decode(base, one) == Decode(base, other)
      <==> Answer(SelectionOf(base), one) == Answer(SelectionOf(base), other)
  {
    DecodingRoundTrips(base, one);
    DecodingRoundTrips(base, other);
    AnswerDecodes(base, one);
    AnswerDecodes(base, other);
  }

  // ---- decimals ----

  function DecimalWorth(v: Value): int
    requires v.DecimalValue? && -18 <= v.exponent
  {
    Scaled(if v.negative then "-" + v.digits else v.digits, v.exponent)
  }

  /** Comparing two decoded decimals field by field is comparing the numbers. */
  lemma DecodedDecimalsCompare(one: Raw, other: Raw)
    requires Decode(Rec(DecimalRecord), one).Some? && Decode(Rec(DecimalRecord), other).Some?
    ensures
      var v, w := Decode(Rec(DecimalRecord), one).value, Decode(Rec(DecimalRecord), other).value;
      && v.DecimalValue? && w.DecimalValue? && -18 <= v.exponent <= 18 && -18 <= w.exponent <= 18
      && (v == w <==> DecimalWorth(v) == DecimalWorth(w))
  {
    var a := DecodedMembers(Fields(DecimalRecord), one);
    var b := DecodedMembers(Fields(DecimalRecord), other);
    var s, t := Member(a, "coefficient").s, Member(b, "coefficient").s;
    CoefficientText(s);
    CoefficientText(t);
    EqualDecimalsIff(s, Member(a, "exponent10").i, t, Member(b, "exponent10").i);
  }
}
