/** Unique ids of semantic sensors: canonical, injective and invertible.  Texts are their UTF-8 bytes. */
module SemanticIdentity {
  import opened Prelude
  import opened PercentEncoding
  import opened CanonicalJson

  /** An exact decimal: sign, digits, exponent. */
  datatype Decimal = Decimal(sign: nat, digits: seq<nat>, exponent: int)

  datatype Symbol = Symbol(namespace: Bytes, token: Bytes, known: bool)

  datatype Quantity = Quantity(number: Decimal, unit: Bytes)

  datatype TimePoint = TimePoint(unixNanoseconds: Bytes, clockId: Bytes, uncertaintyNs: Bytes)

  /** A decoded dimension value: a kind and its arms, of which the absent ones are null. */
  datatype Value = Value(
    kind: Bytes, quantity: Option<Quantity>, boolean: Option<bool>, text: Option<Bytes>,
    symbol: Option<Symbol>, symbols: Option<seq<Symbol>>, time: Option<TimePoint>)

  datatype Dimension = Dimension(id: Bytes, value: Value)

  datatype FactKey = FactKey(packId: Bytes, packVersion: Bytes, factId: Bytes, dimensions: seq<Dimension>)

  // ---------- the encoding of one typed value ----------

  function DigitsJson(digits: seq<nat>): Items {
    if digits == [] then NoItems else Item(Int(digits[0]), DigitsJson(digits[1..]))
  }

  /** ["decimal", sign, digits, exponent] */
  function DecimalJson(d: Decimal): Json {
    Arr(Item(Str([100, 101, 99, 105, 109, 97, 108]),
             Item(Int(d.sign), Item(Arr(DigitsJson(d.digits)), Item(Int(d.exponent), NoItems)))))
  }

  function SymbolJson(s: Symbol): Json {
    Obj(Member([107, 110, 111, 119, 110], Bool(s.known),                              // known
        Member([110, 97, 109, 101, 115, 112, 97, 99, 101], Str(s.namespace),          // namespace
        Member([116, 111, 107, 101, 110], Str(s.token), NoMembers))))                 // token
  }

  function SymbolsJson(symbols: seq<Symbol>): Items {
    if symbols == [] then NoItems else Item(SymbolJson(symbols[0]), SymbolsJson(symbols[1..]))
  }

  function QuantityJson(q: Quantity): Json {
    Obj(Member([110, 117, 109, 98, 101, 114], DecimalJson(q.number),                  // number
        Member([117, 110, 105, 116], Str(q.unit), NoMembers)))                        // unit
  }

  function TimeJson(t: TimePoint): Json {
    Obj(Member([99, 108, 111, 99, 107, 73, 100], Str(t.clockId),                      // clockId
        Member([117, 110, 99, 101, 114, 116, 97, 105, 110, 116, 121, 78, 115], Str(t.uncertaintyNs),
        Member([117, 110, 105, 120, 78, 97, 110, 111, 115, 101, 99, 111, 110, 100, 115], Str(t.unixNanoseconds),
        NoMembers))))
  }

  function OrNull<T>(value: Option<T>, encode: T -> Json): Json {
    match value
    case None => Null
    case Some(v) => encode(v)
  }

  /** Every arm is written, in key order, so that false, zero and null stay apart. */
  function ValueJson(v: Value): Json {
    Obj(Member([98, 111, 111, 108, 101, 97, 110], OrNull(v.boolean, b => Bool(b)),    // boolean
        Member([107, 105, 110, 100], Str(v.kind),                                     // kind
        Member([113, 117, 97, 110, 116, 105, 116, 121], OrNull(v.quantity, q => QuantityJson(q)),
        Member([115, 121, 109, 98, 111, 108], OrNull(v.symbol, s => SymbolJson(s)),   // symbol
        Member([115, 121, 109, 98, 111, 108, 115], OrNull(v.symbols, s => Arr(SymbolsJson(s))),
        Member([116, 101, 120, 116], OrNull(v.text, t => Str(t)),                     // text
        Member([116, 105, 109, 101], OrNull(v.time, t => TimeJson(t)), NoMembers)))))))) // time
  }

  lemma {:induction false} DigitsJsonInjective(a: seq<nat>, b: seq<nat>)
    requires DigitsJson(a) == DigitsJson(b)
    ensures a == b
  {
    if a != [] && b != [] {
      DigitsJsonInjective(a[1..], b[1..]);
      assert a == [a[0]] + a[1..] && b == [b[0]] + b[1..];
    }
  }

  lemma {:induction false} SymbolsJsonInjective(a: seq<Symbol>, b: seq<Symbol>)
    requires SymbolsJson(a) == SymbolsJson(b)
    ensures a == b
  {
    if a != [] && b != [] {
      SymbolsJsonInjective(a[1..], b[1..]);
      assert a == [a[0]] + a[1..] && b == [b[0]] + b[1..];
    }
  }

  lemma ValueJsonInjective(a: Value, b: Value)
    requires ValueJson(a) == ValueJson(b)
    ensures a == b
  {
    if a.quantity.Some? && b.quantity.Some? {
      DigitsJsonInjective(a.quantity.value.number.digits, b.quantity.value.number.digits);
    }
    if a.symbols.Some? && b.symbols.Some? { SymbolsJsonInjective(a.symbols.value, b.symbols.value); }
  }

  /** The canonical text of a typed value determines the value. */
  lemma ValueTextDetermines(a: Value, b: Value)
    ensures Text(ValueJson(a)) == Text(ValueJson(b)) <==> a == b
  {
    TextDetermines(ValueJson(a), ValueJson(b));
    if ValueJson(a) == ValueJson(b) { ValueJsonInjective(a, b); }
  }

  // ---------- dimensions in order ----------

  predicate Leq(a: Bytes, b: Bytes) {
    a == [] || (b != [] && (a[0] < b[0] || (a[0] == b[0] && Leq(a[1..], b[1..]))))
  }

  lemma {:induction false} LeqIsTotal(a: Bytes, b: Bytes)
    ensures Leq(a, b) || Leq(b, a)
    ensures Leq(a, b) && Leq(b, a) ==> a == b
  {
    if a != [] && b != [] && a[0] == b[0] {
      LeqIsTotal(a[1..], b[1..]);
      assert a == [a[0]] + a[1..] && b == [b[0]] + b[1..];
    }
  }

  lemma {:induction false} LeqIsTransitive(a: Bytes, b: Bytes, c: Bytes)
    requires Leq(a, b) && Leq(b, c)
    ensures Leq(a, c)
  {
    if a != [] && a[0] == b[0] == c[0] { LeqIsTransitive(a[1..], b[1..], c[1..]); }
  }

  predicate Sorted(ds: seq<Dimension>) {
    forall i, j :: 0 <= i < j < |ds| ==> Leq(ds[i].id, ds[j].id)
  }

  /** In front of every dimension that is not smaller. */
  function Insert(d: Dimension, ds: seq<Dimension>): seq<Dimension> {
    if ds == [] then [d]
    else if Leq(d.id, ds[0].id) then [d] + ds
    else [ds[0]] + Insert(d, ds[1..])
  }

  function SortById(ds: seq<Dimension>): seq<Dimension> {
    if ds == [] then [] else Insert(ds[0], SortById(ds[1..]))
  }

  lemma {:induction false} InsertCounts(d: Dimension, ds: seq<Dimension>)
    ensures multiset(Insert(d, ds)) == multiset(ds) + multiset{d}
  {
    if ds != [] && !Leq(d.id, ds[0].id) {
      InsertCounts(d, ds[1..]);
      assert ds == [ds[0]] + ds[1..];
    }
  }

  lemma {:induction false} InsertSorts(d: Dimension, ds: seq<Dimension>)
    requires Sorted(ds)
    ensures Sorted(Insert(d, ds))
    ensures forall other | other in Insert(d, ds) :: other == d || other in ds
  {
    if ds != [] {
      LeqIsTotal(d.id, ds[0].id);
      if Leq(d.id, ds[0].id) {
        forall i | 0 < i < |ds| ensures Leq(d.id, ds[i].id) {
          LeqIsTransitive(d.id, ds[0].id, ds[i].id);
        }
      } else {
        InsertSorts(d, ds[1..]);
        var rest := Insert(d, ds[1..]);
        forall i | 0 <= i < |rest| ensures Leq(ds[0].id, rest[i].id) {
          assert rest[i] in rest;
        }
      }
    }
  }

  lemma {:induction false} SortByIdSorts(ds: seq<Dimension>)
    ensures Sorted(SortById(ds)) && multiset(SortById(ds)) == multiset(ds)
  {
    if ds != [] {
      SortByIdSorts(ds[1..]);
      InsertSorts(ds[0], SortById(ds[1..]));
      InsertCounts(ds[0], SortById(ds[1..]));
      assert ds == [ds[0]] + ds[1..];
    }
  }

  /** The decoder rejects keys with two dimensions of one id. */
  predicate DistinctIds(ds: seq<Dimension>) {
    forall i, j :: 0 <= i < j < |ds| ==> ds[i].id != ds[j].id
  }

  predicate NoTwoOfOneId(m: multiset<Dimension>) {
    (forall d :: d in m ==> m[d] == 1) && forall d, e :: d in m && e in m && d.id == e.id ==> d == e
  }

  lemma {:induction false} DistinctAsMultiset(ds: seq<Dimension>)
    requires DistinctIds(ds)
    ensures NoTwoOfOneId(multiset(ds))
  {
    if ds != [] {
      DistinctAsMultiset(ds[1..]);
      assert ds == [ds[0]] + ds[1..];
      assert multiset(ds) == multiset{ds[0]} + multiset(ds[1..]);
      forall d | d in multiset(ds[1..]) ensures d.id != ds[0].id {
        var i :| 0 <= i < |ds[1..]| && ds[1..][i] == d;
        assert ds[i + 1] == d;
      }
    }
  }

  lemma HeadIsLeast(s: seq<Dimension>, d: Dimension)
    requires s != [] && Sorted(s) && d in s
    ensures Leq(s[0].id, d.id)
  {
    var i :| 0 <= i < |s| && s[i] == d;
    LeqIsTotal(s[0].id, s[0].id);
  }

  lemma HeadsAgree(s: seq<Dimension>, t: seq<Dimension>)
    requires s != [] && t != [] && Sorted(s) && Sorted(t) && multiset(s) == multiset(t) && NoTwoOfOneId(multiset(s))
    ensures s[0] == t[0]
  {
    assert s[0] in multiset(t) && t[0] in multiset(s);
    HeadIsLeast(s, t[0]);
    HeadIsLeast(t, s[0]);
    LeqIsTotal(s[0].id, t[0].id);
  }

  lemma TailKeepsNoTwo(m: multiset<Dimension>, n: multiset<Dimension>)
    requires NoTwoOfOneId(m) && n <= m
    ensures NoTwoOfOneId(n)
  {
  }

  lemma TailsAgree(s: seq<Dimension>, t: seq<Dimension>)
    requires s != [] && t != [] && s[0] == t[0] && multiset(s) == multiset(t)
    ensures multiset(s[1..]) == multiset(t[1..]) && multiset(s[1..]) <= multiset(s)
  {
    assert s == [s[0]] + s[1..] && t == [t[0]] + t[1..];
    assert multiset(s) == multiset{s[0]} + multiset(s[1..]);
    assert multiset(t) == multiset{s[0]} + multiset(t[1..]);
    assert multiset(s[1..]) == multiset(s) - multiset{s[0]};
  }

  lemma SortedTail(s: seq<Dimension>)
    requires s != [] && Sorted(s)
    ensures Sorted(s[1..]) && s == [s[0]] + s[1..]
  {
  }

  /** With distinct ids there is one sorted order only. */
  lemma {:induction false} SortedOrderIsUnique(s: seq<Dimension>, t: seq<Dimension>)
    requires Sorted(s) && Sorted(t) && multiset(s) == multiset(t) && NoTwoOfOneId(multiset(s))
    ensures s == t
  {
    assert |s| == |multiset(s)| == |multiset(t)| == |t|;
    if s != [] {
      HeadsAgree(s, t);
      TailsAgree(s, t);
      TailKeepsNoTwo(multiset(s), multiset(s[1..]));
      SortedTail(s);
      SortedTail(t);
      SortedOrderIsUnique(s[1..], t[1..]);
    }
  }

  // ---------- the unique id ----------

  function DimensionComponents(ds: seq<Dimension>): seq<Bytes> {
    if ds == [] then [] else [ds[0].id, Text(ValueJson(ds[0].value))] + DimensionComponents(ds[1..])
  }

  function Components(entryId: Bytes, assetId: Bytes, key: FactKey): seq<Bytes> {
    [entryId, assetId, key.packId, key.packVersion, key.factId] + DimensionComponents(SortById(key.dimensions))
  }

  function SemanticUniqueId(entryId: Bytes, assetId: Bytes, key: FactKey): Bytes {
    Join(QuoteAll(Components(entryId, assetId, key)))
  }

  lemma {:induction false} DimensionComponentsInjective(a: seq<Dimension>, b: seq<Dimension>)
    requires DimensionComponents(a) == DimensionComponents(b)
    ensures a == b
  {
    if a != [] && b != [] {
      var x, y := DimensionComponents(a), DimensionComponents(b);
      assert x[0] == a[0].id && y[0] == b[0].id;
      assert x[1] == Text(ValueJson(a[0].value)) && y[1] == Text(ValueJson(b[0].value));
      ValueTextDetermines(a[0].value, b[0].value);
      assert x[2..] == DimensionComponents(a[1..]) && y[2..] == DimensionComponents(b[1..]);
      DimensionComponentsInjective(a[1..], b[1..]);
      assert a == [a[0]] + a[1..] && b == [b[0]] + b[1..];
    }
  }

  predicate SameUpToOrder(a: FactKey, b: FactKey) {
    a.packId == b.packId && a.packVersion == b.packVersion && a.factId == b.factId
    && multiset(a.dimensions) == multiset(b.dimensions)
  }

  /** Two sensors share a unique id only if entry, asset and key are equal up to the order of dimensions. */
  lemma UniqueIdsAreInjective(entry1: Bytes, asset1: Bytes, key1: FactKey, entry2: Bytes, asset2: Bytes, key2: FactKey)
    requires SemanticUniqueId(entry1, asset1, key1) == SemanticUniqueId(entry2, asset2, key2)
    ensures entry1 == entry2 && asset1 == asset2 && SameUpToOrder(key1, key2)
  {
    var c1, c2 := Components(entry1, asset1, key1), Components(entry2, asset2, key2);
    JoinIsInjective(c1, c2);
    assert c1[0] == c2[0] && c1[1] == c2[1] && c1[2] == c2[2] && c1[3] == c2[3] && c1[4] == c2[4];
    assert c1[5..] == DimensionComponents(SortById(key1.dimensions));
    assert c2[5..] == DimensionComponents(SortById(key2.dimensions));
    DimensionComponentsInjective(SortById(key1.dimensions), SortById(key2.dimensions));
    SortByIdSorts(key1.dimensions);
    SortByIdSorts(key2.dimensions);
  }

  /** For keys as the decoder admits them, the converse holds too: dimension order does not matter. */
  lemma UniqueIdsAgreeIff(entry1: Bytes, asset1: Bytes, key1: FactKey, entry2: Bytes, asset2: Bytes, key2: FactKey)
    requires DistinctIds(key1.dimensions)
    ensures SemanticUniqueId(entry1, asset1, key1) == SemanticUniqueId(entry2, asset2, key2)
            <==> entry1 == entry2 && asset1 == asset2 && SameUpToOrder(key1, key2)
  {
    if SemanticUniqueId(entry1, asset1, key1) == SemanticUniqueId(entry2, asset2, key2) {
      UniqueIdsAreInjective(entry1, asset1, key1, entry2, asset2, key2);
    }
    if SameUpToOrder(key1, key2) {
      SortByIdSorts(key1.dimensions);
      SortByIdSorts(key2.dimensions);
      DistinctAsMultiset(key1.dimensions);
      SortedOrderIsUnique(SortById(key1.dimensions), SortById(key2.dimensions));
    }
  }

  /** The components can be read back from the id. */
  lemma UniqueIdsAreInvertible(entryId: Bytes, assetId: Bytes, key: FactKey)
    ensures var parts := Split(SemanticUniqueId(entryId, assetId, key));
            var components := Components(entryId, assetId, key);
            |parts| == |components| && forall i :: 0 <= i < |parts| ==> Unquote(parts[i]) == Some(components[i])
  {
    JoinedComponentsComeBack(Components(entryId, assetId, key));
  }

  /** The program's loop over the sorted dimensions. */
  method BuildSemanticUniqueId(entryId: Bytes, assetId: Bytes, key: FactKey) returns (id: Bytes)
    ensures id == SemanticUniqueId(entryId, assetId, key)
  {
    var dimensions := SortById(key.dimensions);
    var components := [entryId, assetId, key.packId, key.packVersion, key.factId];
    var i := 0;
    while i < |dimensions|
      invariant 0 <= i <= |dimensions|
      invariant components + DimensionComponents(dimensions[i..]) == Components(entryId, assetId, key)
    {
      var d := dimensions[i];
      assert dimensions[i..][1..] == dimensions[i + 1..];
      components := components + [d.id, Text(ValueJson(d.value))];
      i := i + 1;
    }
    assert dimensions[i..] == [];
    assert components + [] == components;
    return Join(QuoteAll(components));
  }
}
