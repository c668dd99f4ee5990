/**
 * Which JSON the decoder accepts, said of the JSON and the table alone, and which values it yields: every
 * well-typed response decodes, and every well-formed value is what its own JSON decodes to.
 */
module SchemaTyping {
  import opened Prelude
  import opened SnapshotSchema
  import opened DecimalText
  import opened SchemaDecoder

  // ---- the texts of scalars ----

  predicate IsHexDigits(s: string) { |s| == 64 && forall i :: 0 <= i < |s| ==> IsLowerHex(s[i]) }

  /** How a scalar is written: the digits of a number in range, a digest, three numbers, a listed or a nonempty text. */
  ghost predicate WrittenAs(kind: Scalar, s: string) {
    match kind
    case Text => true
    case Uint64 => exists n: nat :: n < UINT64_LIMIT && s == NaturalText(n)
    case Int64 => exists n: int :: -INT64_LIMIT <= n < INT64_LIMIT && s == IntegerText(n)
    case Digest => exists d :: IsHexDigits(d) && s == "sha256:" + d
    case SemanticVersion => exists a: nat, b: nat, c: nat :: s == Version(a, b, c)
    case Enum(values) => s in Symbols(values)
    case _ => s != ""
  }

  function Version(a: nat, b: nat, c: nat): string {
    NaturalText(a) + "." + NaturalText(b) + "." + NaturalText(c)
  }

  lemma TwentyDigits()
    ensures UINT64_LIMIT <= Pow10(20) && INT64_LIMIT < Pow10(19)
  {
    PowersSplit(10, 10);
    PowersSplit(10, 9);
    PowersSplit(5, 5);
    PowersSplit(5, 4);
    assert Pow10(5) == 100000 && Pow10(4) == 10000;
  }

  lemma NaturalsHaveNoSign(s: string)
    requires IsNatural(s)
    ensures !Negative(s) && IntegerValue(s) == NaturalValue(s)
  {
    assert IsDigit(s[0]);
  }

  lemma Uint64Iff(s: string)
    ensures IsUint64(s) <==> WrittenAs(Uint64, s)
  {
    TwentyDigits();
    NaturalTextIff(s);
    if IsUint64(s) {
      NaturalsHaveNoSign(s);
      assert s == NaturalText(NaturalValue(s));
    }
    if n: nat :| n < UINT64_LIMIT && s == NaturalText(n) {
      NaturalTextIsNatural(n);
      NaturalsHaveNoSign(s);
      DigitsAreFew(n, 20);
    }
  }

  lemma Int64Iff(s: string)
    ensures IsInt64(s) <==> WrittenAs(Int64, s)
  {
    TwentyDigits();
    IntegerTextIff(s);
    if IsInt64(s) { assert s == IntegerText(IntegerValue(s)); }
    if n: int :| -INT64_LIMIT <= n < INT64_LIMIT && s == IntegerText(n) {
      IntegerTextIsInteger(n);
      DigitsAreFew(if n < 0 then 0 - n else n, 19);
    }
  }

  lemma DigestIff(s: string)
    ensures IsDigest(s) <==> WrittenAs(Digest, s)
  {
    if IsDigest(s) {
      var d := s[7..];
      assert s == "sha256:" + d && IsHexDigits(d);
    }
    if d :| IsHexDigits(d) && s == "sha256:" + d {
      assert s[..7] == "sha256:" && forall i :: 7 <= i < |s| ==> s[i] == d[i - 7];
    }
  }

  lemma VersionIff(s: string)
    ensures IsVersion(s) <==> WrittenAs(SemanticVersion, s)
  {
    if IsVersion(s) {
      var i, j :| 0 <= i < j < |s| && s[i] == '.' && s[j] == '.'
        && IsNatural(s[..i]) && IsNatural(s[i + 1..j]) && IsNatural(s[j + 1..]);
      VersionSplits(s, i, j);
    }
    if a: nat, b: nat, c: nat :| s == Version(a, b, c) { VersionParts(a, b, c); }
  }

  lemma VersionSplits(s: string, i: nat, j: nat)
    requires i < j < |s| && s[i] == '.' && s[j] == '.'
    requires IsNatural(s[..i]) && IsNatural(s[i + 1..j]) && IsNatural(s[j + 1..])
    ensures s == Version(NaturalValue(s[..i]), NaturalValue(s[i + 1..j]), NaturalValue(s[j + 1..]))
  {
    NaturalTextIff(s[..i]);
    NaturalTextIff(s[i + 1..j]);
    NaturalTextIff(s[j + 1..]);
    Rejoin(s, i, j);
  }

  lemma Rejoin(s: string, i: nat, j: nat)
    requires i < j < |s| && s[i] == '.' && s[j] == '.'
    ensures s == s[..i] + "." + s[i + 1..j] + "." + s[j + 1..]
  {
  }

  lemma VersionParts(a: nat, b: nat, c: nat)
    ensures IsVersion(Version(a, b, c))
  {
    var s, i := Version(a, b, c), |NaturalText(a)|;
    var j := i + 1 + |NaturalText(b)|;
    NaturalTextIsNatural(a);
    NaturalTextIsNatural(b);
    NaturalTextIsNatural(c);
    assert s[..i] == NaturalText(a) && s[i] == '.';
    assert s[i + 1..j] == NaturalText(b) && s[j] == '.' && s[j + 1..] == NaturalText(c);
  }

  /** The decoder's tests of a text are these. */
  lemma TextFitsIff(kind: Scalar, s: string)
    ensures TextFits(kind, s) <==> WrittenAs(kind, s)
  {
    match kind
    case Uint64 => Uint64Iff(s);
    case Int64 => Int64Iff(s);
    case Digest => DigestIff(s);
    case SemanticVersion => VersionIff(s);
    case _ =>
  }

  /** A decimal: its coefficient is written without trailing zeros, its exponent is small, and zero has exponent zero. */
  ghost predicate DecimalWritten(coefficient: string, exponent: int) {
    && -18 <= exponent <= 18
    && exists n: int :: coefficient == IntegerText(n) && (n == 0 ==> exponent == 0) && (n % 10 == 0 ==> n == 0)
  }

  lemma DecimalIff(coefficient: string, exponent: int)
    ensures IsDecimal(coefficient, exponent) <==> DecimalWritten(coefficient, exponent)
  {
    CoefficientIff(coefficient);
    if IsDecimal(coefficient, exponent) {
      var n: int :| coefficient == IntegerText(n) && (n == 0 || n % 10 != 0);
      assert n == 0 ==> coefficient == "0";
    }
    if DecimalWritten(coefficient, exponent) {
      var n: int :| coefficient == IntegerText(n) && (n == 0 ==> exponent == 0) && (n % 10 == 0 ==> n == 0);
      if coefficient == "0" { OnlyZeroIsWritten0(n); }
    }
  }

  lemma OnlyZeroIsWritten0(n: int)
    requires IntegerText(n) == "0"
    ensures n == 0
  {
    IntegerTextIsInteger(n);
    IntegerTextIsInteger(0);
  }

  // ---- well-typed JSON ----

  ghost predicate ScalarTyped(kind: Scalar, raw: Raw) {
    match kind
    case Boolean => raw.Bool?
    case Int32 => raw.Int? && -2147483648 <= raw.i <= 2147483647
    case Uint16 => raw.Int? && 0 <= raw.i <= 65535
    case _ => raw.Str? && WrittenAs(kind, raw.s)
  }

  ghost predicate WellTyped(base: Base, raw: Raw)
    decreases raw, 2
  {
    match base
    case Of(kind) => ScalarTyped(kind, raw)
    case Rec(r) => raw.Obj? && MembersTyped(Fields(r), raw) && RecordTyped(r, raw.members)
  }

  /** Every declared field is there and well-typed; others do not matter. */
  ghost predicate MembersTyped(fields: map<string, Field>, raw: Raw)
    requires raw.Obj?
    decreases raw, 0
  {
    forall name | name in fields :: name in raw.members && FieldTyped(fields[name], raw.members[name])
  }

  /** Null only where the table allows it; a list where it says so. */
  ghost predicate FieldTyped(field: Field, raw: Raw)
    decreases raw, 3
  {
    if raw.Null? then field.nullable
    else if field.many then raw.List? && forall i | 0 <= i < |raw.items| :: WellTyped(field.base, raw.items[i])
    else WellTyped(field.base, raw)
  }

  function At(members: map<string, Raw>, name: string): Raw { if name in members then members[name] else Null }

  function IdOf(raw: Raw): Raw { if raw.Obj? then At(raw.members, "id") else Null }

  /** What is demanded of a record beyond its fields. */
  ghost predicate RecordTyped(r: Record, members: map<string, Raw>) {
    match r
    case DecimalRecord =>
      var coefficient, exponent := At(members, "coefficient"), At(members, "exponent10");
      coefficient.Str? && exponent.Int? && DecimalWritten(coefficient.s, exponent.i)
    case FactKeyRecord =>
      var dimensions := At(members, "dimensions");
      && dimensions.List?
      && forall i, j :: 0 <= i < j < |dimensions.items| ==> IdOf(dimensions.items[i]) != IdOf(dimensions.items[j])
    case ValueRecord =>
      var kind := At(members, "kind");
      && kind.Str?
      && (forall arm | arm in {"quantity", "boolean", "text", "symbol", "symbols", "time"} ::
            At(members, arm) != Null <==> arm == kind.s)
      && (At(members, "symbols").List? ==> 1 <= |At(members, "symbols").items| <= 64)
    case _ => true
  }

  // ---- the decoder accepts just that ----

  lemma ScalarDecodesIff(kind: Scalar, raw: Raw)
    ensures DecodeScalar(kind, raw).Some? <==> ScalarTyped(kind, raw)
  {
    if raw.Str? { TextFitsIff(kind, raw.s); }
  }

  lemma DecodedIsSomething(base: Base, raw: Raw)
    ensures Decode(base, raw) != Some(NoValue)
  {
  }

  lemma OnlyNullIsNoValue(field: Field, raw: Raw)
    requires DecodeField(field, raw).Some?
    ensures DecodeField(field, raw).value == NoValue <==> raw == Null
  {
    if !raw.Null? && !field.many { DecodedIsSomething(field.base, raw); }
  }

  lemma {:induction false} DecodesIff(base: Base, raw: Raw)
    ensures Decode(base, raw).Some? <==> WellTyped(base, raw)
    decreases raw, 2
  {
    match base
    case Of(kind) => ScalarDecodesIff(kind, raw);
    case Rec(r) =>
      if raw.Obj? {
        MembersDecodeIff(Fields(r), raw);
        if MembersDecode(Fields(r), raw) { DetachesIff(r, raw); }
      }
  }

  lemma {:induction false} MembersDecodeIff(fields: map<string, Field>, raw: Raw)
    requires raw.Obj?
    ensures MembersDecode(fields, raw) <==> MembersTyped(fields, raw)
    decreases raw, 0
  {
    forall name | name in fields && name in raw.members
      ensures DecodeField(fields[name], raw.members[name]).Some? <==> FieldTyped(fields[name], raw.members[name])
    {
      FieldDecodesIff(fields[name], raw.members[name]);
    }
  }

  lemma {:induction false} FieldDecodesIff(field: Field, raw: Raw)
    ensures DecodeField(field, raw).Some? <==> FieldTyped(field, raw)
    decreases raw, 3
  {
    if !raw.Null? && !field.many {
      DecodesIff(field.base, raw);
    } else if raw.List? && field.many {
      forall i | 0 <= i < |raw.items|
        ensures Decode(field.base, raw.items[i]).Some? <==> WellTyped(field.base, raw.items[i])
      {
        DecodesIff(field.base, raw.items[i]);
      }
    }
  }

  lemma TextField(kind: Scalar, raw: Raw)
    requires kind !in {Boolean, Int32, Uint16} && DecodeField(One(Of(kind)), raw).Some?
    ensures raw.Str? && DecodeField(One(Of(kind)), raw).value == TextValue(raw.s)
  {
    assert DecodeField(One(Of(kind)), raw) == Decode(Of(kind), raw) == DecodeScalar(kind, raw);
  }

  lemma IntField(raw: Raw)
    requires DecodeField(One(Of(Int32)), raw).Some?
    ensures raw.Int? && DecodeField(One(Of(Int32)), raw).value == IntValue(raw.i)
  {
    assert DecodeField(One(Of(Int32)), raw) == Decode(Of(Int32), raw) == DecodeScalar(Int32, raw);
  }

  lemma ListField(field: Field, raw: Raw)
    requires field.many && DecodeField(field, raw).Some?
    ensures DecodeField(field, raw).value ==
              if raw.Null? then NoValue else assert raw.List?; ListValue(DecodedItems(field.base, raw.items))
  {
  }

  lemma OthersDetach(r: Record, members: map<string, Value>)
    requires !r.DecimalRecord? && !r.FactKeyRecord? && !r.ValueRecord?
    ensures Detach(r, members) == Some(RecordValue(r, members))
  {
  }

  lemma DetachesIff(r: Record, raw: Raw)
    requires raw.Obj? && MembersDecode(Fields(r), raw)
    ensures Detach(r, DecodedMembers(Fields(r), raw)).Some? <==> RecordTyped(r, raw.members)
  {
    if r.DecimalRecord? {
      DecimalDetachesIff(raw);
    } else if r.FactKeyRecord? {
      FactKeyDetachesIff(raw);
    } else if r.ValueRecord? {
      ValueDetachesIff(raw);
    } else {
      OthersDetach(r, DecodedMembers(Fields(r), raw));
    }
  }

  lemma DecimalDetachesIff(raw: Raw)
    requires raw.Obj? && MembersDecode(Fields(DecimalRecord), raw)
    ensures Detach(DecimalRecord, DecodedMembers(Fields(DecimalRecord), raw)).Some?
      <==> RecordTyped(DecimalRecord, raw.members)
  {
    var fields := Fields(DecimalRecord);
    assert fields["coefficient"] == One(Of(Text)) && fields["exponent10"] == One(Of(Int32));
    TextField(Text, raw.members["coefficient"]);
    IntField(raw.members["exponent10"]);
    DecimalIff(raw.members["coefficient"].s, raw.members["exponent10"].i);
  }

  lemma DimensionIds(raw: Raw)
    requires Decode(Rec(DimensionRecord), raw).Some?
    ensures
      var v := Decode(Rec(DimensionRecord), raw).value;
      v.RecordValue? && IdOf(raw).Str? && Member(v.members, "id") == TextValue(IdOf(raw).s)
  {
    var fields := Fields(DimensionRecord);
    assert fields["id"] == One(Of(Identifier));
    TextField(Identifier, raw.members["id"]);
  }

  lemma FactKeyDetachesIff(raw: Raw)
    requires raw.Obj? && MembersDecode(Fields(FactKeyRecord), raw)
    ensures Detach(FactKeyRecord, DecodedMembers(Fields(FactKeyRecord), raw)).Some?
      <==> RecordTyped(FactKeyRecord, raw.members)
  {
    var fields := Fields(FactKeyRecord);
    assert fields["dimensions"] == Many(Rec(DimensionRecord));
    var field := raw.members["dimensions"];
    ListField(fields["dimensions"], field);
    var decoded := DecodedItems(Rec(DimensionRecord), field.items);
    assert Member(DecodedMembers(fields, raw), "dimensions") == ListValue(decoded);
    forall i | 0 <= i < |decoded|
      ensures decoded[i].RecordValue? && IdOf(field.items[i]).Str?
      ensures Member(decoded[i].members, "id") == TextValue(IdOf(field.items[i]).s)
    {
      DimensionIds(field.items[i]);
    }
  }

  lemma NullsAgree(fields: map<string, Field>, raw: Raw, names: set<string>)
    requires raw.Obj? && MembersDecode(fields, raw) && names <= fields.Keys
    ensures forall name | name in names ::
      Member(DecodedMembers(fields, raw), name) != NoValue <==> At(raw.members, name) != Null
  {
    forall name | name in names
      ensures Member(DecodedMembers(fields, raw), name) != NoValue <==> At(raw.members, name) != Null
    {
      assert name in fields && DecodeField(fields[name], raw.members[name]).Some?;
      OnlyNullIsNoValue(fields[name], raw.members[name]);
    }
  }

  lemma ArmsAreFields()
    ensures ARMS <= Fields(ValueRecord).Keys
  {
  }

  lemma ValueDetachesIff(raw: Raw)
    requires raw.Obj? && MembersDecode(Fields(ValueRecord), raw)
    ensures Detach(ValueRecord, DecodedMembers(Fields(ValueRecord), raw)).Some? <==> RecordTyped(ValueRecord, raw.members)
  {
    ArmsAreFields();
    NullsAgree(Fields(ValueRecord), raw, ARMS);
    ValueKinds(Fields(ValueRecord), raw);
  }

  lemma ValueKinds(fields: map<string, Field>, raw: Raw)
    requires fields == Fields(ValueRecord) && raw.Obj? && MembersDecode(fields, raw)
    ensures
      var members := DecodedMembers(fields, raw);
      && At(raw.members, "kind").Str? && Member(members, "kind") == TextValue(At(raw.members, "kind").s)
      && (Member(members, "symbols").ListValue? <==> At(raw.members, "symbols").List?)
      && (At(raw.members, "symbols").List? ==>
            |Member(members, "symbols").items| == |At(raw.members, "symbols").items|)
  {
    assert fields["kind"] == One(Of(Enum(ValueKindEnum))) && fields["symbols"] == ManyOrNull(Rec(SymbolRecord));
    TextField(Enum(ValueKindEnum), raw.members["kind"]);
    ListField(fields["symbols"], raw.members["symbols"]);
  }

  // ---- the values it yields ----

  ghost predicate ScalarFormed(kind: Scalar, v: Value) {
    match kind
    case Boolean => v.BoolValue?
    case Int32 => v.IntValue? && -2147483648 <= v.i <= 2147483647
    case Uint16 => v.IntValue? && 0 <= v.i <= 65535
    case _ => v.TextValue? && WrittenAs(kind, v.s)
  }

  ghost predicate DecimalFormed(v: Value) {
    v.DecimalValue? && !Negative(v.digits) && DecimalWritten(Signed(v.negative, v.digits), v.exponent)
  }

  ghost predicate WellFormed(base: Base, v: Value)
    decreases v, 2
  {
    match base
    case Of(kind) => ScalarFormed(kind, v)
    case Rec(r) =>
      if r.DecimalRecord? then DecimalFormed(v)
      else v.RecordValue? && v.record == r && MembersFormed(Fields(r), v) && RecordFormed(r, v.members)
  }

  function Signed(negative: bool, digits: string): string { if negative then "-" + digits else digits }

  /** Exactly the declared fields. */
  ghost predicate MembersFormed(fields: map<string, Field>, v: Value)
    requires v.RecordValue?
    decreases v, 0
  {
    v.members.Keys == fields.Keys && forall name | name in v.members :: FieldFormed(fields[name], v.members[name])
  }

  ghost predicate FieldFormed(field: Field, v: Value)
    decreases v, 3
  {
    if v.NoValue? then field.nullable
    else if field.many then v.ListValue? && forall i | 0 <= i < |v.items| :: WellFormed(field.base, v.items[i])
    else WellFormed(field.base, v)
  }

  predicate RecordFormed(r: Record, members: map<string, Value>) {
    match r
    case FactKeyRecord => Member(members, "dimensions").ListValue? && DimensionsDiffer(Member(members, "dimensions").items)
    case ValueRecord =>
      var kind := Member(members, "kind");
      && kind.TextValue?
      && (forall arm | arm in {"quantity", "boolean", "text", "symbol", "symbols", "time"} ::
            Member(members, arm) != NoValue <==> arm == kind.s)
      && (Member(members, "symbols").ListValue? ==> 1 <= |Member(members, "symbols").items| <= 64)
    case _ => true
  }

  lemma FormedDetaches(r: Record, members: map<string, Value>)
    requires !r.DecimalRecord?
    ensures Detach(r, members) == if RecordFormed(r, members) then Some(RecordValue(r, members)) else None
  {
    if !r.FactKeyRecord? && !r.ValueRecord? { OthersDetach(r, members); }
  }

  lemma ScalarComesBack(kind: Scalar, v: Value)
    ensures ScalarFormed(kind, v) ==> DecodeScalar(kind, Encode(v)) == Some(v)
  {
    if v.TextValue? { TextFitsIff(kind, v.s); }
  }

  lemma DecimalComesBack(v: Value)
    requires DecimalFormed(v)
    ensures Decode(Rec(DecimalRecord), Encode(v)) == Some(v)
  {
    var text := Signed(v.negative, v.digits);
    var raw := Obj(map["coefficient" := Str(text), "exponent10" := Int(v.exponent)]);
    var fields := Fields(DecimalRecord);
    assert Encode(v) == raw;
    DecimalIff(text, v.exponent);
    DecimalFields();
    assert fields["coefficient"] == One(Of(Text)) && fields["exponent10"] == One(Of(Int32));
    assert Decode(Of(Text), Str(text)) == Some(TextValue(text));
    assert Decode(Of(Int32), Int(v.exponent)) == Some(IntValue(v.exponent));
    assert MembersDecode(fields, raw);
    assert DecodedMembers(fields, raw) == map["coefficient" := TextValue(text), "exponent10" := IntValue(v.exponent)];
    assert Negative(text) == v.negative && Magnitude(text) == v.digits;
  }

  /** Every well-formed value is what its own JSON decodes to. */
  lemma {:induction false} ValuesComeBack(base: Base, v: Value)
    requires WellFormed(base, v)
    ensures Decode(base, Encode(v)) == Some(v)
    decreases v, 2
  {
    if base.Of? {
      ScalarComesBack(base.scalar, v);
    } else if base.record.DecimalRecord? {
      DecimalComesBack(v);
    } else {
      MembersComeBack(Fields(base.record), v);
      FormedDetaches(base.record, v.members);
    }
  }

  lemma {:induction false} MembersComeBack(fields: map<string, Field>, v: Value)
    requires v.RecordValue? && MembersFormed(fields, v)
    ensures Encode(v).Obj? && MembersDecode(fields, Encode(v)) && DecodedMembers(fields, Encode(v)) == v.members
    decreases v, 0
  {
    forall name | name in v.members
      ensures DecodeField(fields[name], Encode(v.members[name])) == Some(v.members[name])
    {
      FieldComesBack(fields[name], v.members[name]);
    }
  }

  lemma {:induction false} FieldComesBack(field: Field, v: Value)
    requires FieldFormed(field, v)
    ensures DecodeField(field, Encode(v)) == Some(v)
    decreases v, 3
  {
    if v.NoValue? {
    } else if field.many {
      forall i | 0 <= i < |v.items|
        ensures Decode(field.base, Encode(v.items[i])) == Some(v.items[i])
      {
        ValuesComeBack(field.base, v.items[i]);
      }
      ItemsComeBack(field.base, v.items);
    } else {
      FormedIsSomething(field.base, v);
      ValuesComeBack(field.base, v);
    }
  }

  lemma ItemsComeBack(base: Base, items: seq<Value>)
    requires forall i | 0 <= i < |items| :: Decode(base, Encode(items[i])) == Some(items[i])
    ensures
      var raw := Encode(ListValue(items));
      raw.List? && ItemsDecode(base, raw.items) && DecodedItems(base, raw.items) == items
  {
  }

  lemma FormedIsSomething(base: Base, v: Value)
    requires WellFormed(base, v)
    ensures Encode(v) != Null
  {
  }

  lemma ScalarIsFormed(kind: Scalar, raw: Raw)
    requires DecodeScalar(kind, raw).Some?
    ensures ScalarFormed(kind, DecodeScalar(kind, raw).value)
  {
    if raw.Str? { TextFitsIff(kind, raw.s); }
  }

  lemma DecimalIsFormed(members: map<string, Value>)
    requires Detach(DecimalRecord, members).Some?
    ensures DecimalFormed(Detach(DecimalRecord, members).value)
  {
    var s := Member(members, "coefficient").s;
    CoefficientText(s);
    DecimalIff(s, Member(members, "exponent10").i);
    if Negative(s) { NaturalsHaveNoSign(s[1..]); }
  }

  /** Whatever decodes is well-formed. */
  lemma {:induction false} DecodedIsFormed(base: Base, raw: Raw)
    requires Decode(base, raw).Some?
    ensures WellFormed(base, Decode(base, raw).value)
    decreases raw, 2
  {
    if base.Of? {
      ScalarIsFormed(base.scalar, raw);
    } else {
      var fields := Fields(base.record);
      var members := DecodedMembers(fields, raw);
      if base.record.DecimalRecord? {
        DecimalIsFormed(members);
      } else {
        forall name | name in fields
          ensures FieldFormed(fields[name], members[name])
        {
          FieldIsFormed(fields[name], raw.members[name]);
        }
        FormedDetaches(base.record, members);
      }
    }
  }

  lemma {:induction false} FieldIsFormed(field: Field, raw: Raw)
    requires DecodeField(field, raw).Some?
    ensures FieldFormed(field, DecodeField(field, raw).value)
    decreases raw, 3
  {
    if raw.Null? {
    } else if field.many {
      forall i | 0 <= i < |raw.items|
        ensures WellFormed(field.base, DecodedItems(field.base, raw.items)[i])
      {
        DecodedIsFormed(field.base, raw.items[i]);
      }
    } else {
      DecodedIsSomething(field.base, raw);
      DecodedIsFormed(field.base, raw);
    }
  }

  /** A value is yielded by some response exactly if it is well-formed. */
  lemma YieldedIff(base: Base, v: Value)
    ensures WellFormed(base, v) <==> exists raw :: Decode(base, raw) == Some(v)
  {
    if WellFormed(base, v) { ValuesComeBack(base, v); }
    if raw :| Decode(base, raw) == Some(v) { DecodedIsFormed(base, raw); }
  }
}
