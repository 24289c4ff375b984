/** JSON trees against google.protobuf.Value, and the leaf conversions: optional
    strings, enums and timestamps. */
module JsonValues {
  import opened Types
  import opened Protobuf

  // ---- Numbers ----

  function Pow2(k: nat): (p: nat)
    ensures p >= 1
  {
    if k == 0 then 1 else 2 * Pow2(k - 1)
  }

  /** How far a magnitude must be shifted to fit in 53 bits. */
  function Excess(n: nat): (k: nat)
    decreases n
  {
    if n < 0x20_0000_0000_0000 then 0 else 1 + Excess(n / 2)
  }

  /** Round a magnitude to the nearest multiple of 2^k, ties to even. */
  function RoundEven(n: nat, k: nat): int {
    var unit := Pow2(k);
    var q, r := n / unit, n % unit;
    (if 2 * r > unit || (2 * r == unit && q % 2 == 1) then q + 1 else q) * unit
  }

  /** The double nearest to an integer. */
  function NearestDouble(i: int): int {
    var n: nat := if i < 0 then -i else i;
    var rounded := RoundEven(n, Excess(n));
    if i < 0 then -rounded else rounded
  }

  function AsDouble(n: Number): real {
    match n
    case Int(i) => NearestDouble(i) as real
    case Float(f) => f
  }

  lemma RoundsToItself(n: nat, k: nat)
    ensures RoundEven(n, k) == n <==> n % Pow2(k) == 0
  {
    var unit := Pow2(k);
    var q := n / unit;
    assert n == q * unit + n % unit;
    assert (q + 1) * unit == q * unit + unit;
  }

  /** An integer travels unchanged exactly if its magnitude is a multiple of the unit in
      the last place of a 53-bit double. So all up to 2^53 do, and 2^53 + 1 does not. */
  lemma IntegersThatTravel(i: int)
    ensures var n: nat := if i < 0 then -i else i;
            && (AsDouble(Int(i)) == i as real <==> n % Pow2(Excess(n)) == 0)
            && (n < 0x20_0000_0000_0000 ==> AsDouble(Int(i)) == i as real)
    ensures AsDouble(Int(0x20_0000_0000_0001)) != 0x20_0000_0000_0001 as real
  {
    RoundsToItself(if i < 0 then -i else i, Excess(if i < 0 then -i else i));
    var big := 0x20_0000_0000_0001;
    assert Excess(big) == 1 + Excess(big / 2) == 1;
    assert Pow2(1) == 2 * Pow2(0) == 2;
    RoundsToItself(big, 1);
  }

  lemma ExcessMeaning(n: nat)
    ensures n < Pow2(Excess(n)) * 0x20_0000_0000_0000
    ensures Excess(n) > 0 ==> Pow2(Excess(n)) * 0x10_0000_0000_0000 <= n
    decreases n
  {
    if n >= 0x20_0000_0000_0000 {
      ExcessMeaning(n / 2);
    }
  }

  /** `m` is `q` units, no other multiple is nearer to `n`, and halfway the even one is
      taken. */
  ghost predicate IsNearest(n: int, unit: int, q: int, m: int) {
    && m == q * unit && -unit <= 2 * (m - n) <= unit
    && (2 * (m - n) == unit || 2 * (n - m) == unit ==> q % 2 == 0)
  }

  ghost predicate NearestUnits(n: int, unit: int, m: int) {
    exists q: nat :: IsNearest(n, unit, q, m)
  }

  lemma DivMod(n: nat, unit: nat)
    requires unit > 0
    ensures n == (n / unit) * unit + n % unit && 0 <= n % unit < unit
    ensures (n / unit + 1) * unit == (n / unit) * unit + unit
  {
  }

  lemma RoundsToNearest(n: nat, k: nat) returns (q: nat)
    ensures IsNearest(n, Pow2(k), q, RoundEven(n, k))
  {
    var unit := Pow2(k);
    DivMod(n, unit);
    var r := n % unit;
    q := if 2 * r > unit || (2 * r == unit && (n / unit) % 2 == 1) then n / unit + 1 else n / unit;
  }

  /** Any other integer arrives as the nearest double: the nearest multiple of the unit in
      the last place of its 53 bits, and halfway between two the even one. */
  lemma IntegersArriveRounded(i: int)
    ensures var n: nat := if i < 0 then -i else i;
            var k, d := Excess(n), NearestDouble(i);
            && n < Pow2(k) * 0x20_0000_0000_0000 && (k > 0 ==> Pow2(k) * 0x10_0000_0000_0000 <= n)
            && NearestUnits(n, Pow2(k), if i < 0 then -d else d)
            && DecodeValue(EncodeJson(JNumber(Int(i)))) == JNumber(Float(d as real))
  {
    var n: nat := if i < 0 then -i else i;
    ExcessMeaning(n);
    var q := RoundsToNearest(n, Excess(n));
  }

  // ---- Trees ----

  function EncodeJson(j: Json): PbValue {
    match j
    case JNull => PbValue(Some(NullValue(0)))
    case JBool(b) => PbValue(Some(BoolValue(b)))
    case JNumber(n) => PbValue(Some(NumberValue(Finite(AsDouble(n)))))
    case JString(s) => PbValue(Some(StringValue(s)))
    case JArray(items) => PbValue(Some(ListValue(seq(|items|, i requires 0 <= i < |items| => EncodeJson(items[i])))))
    case JObject(fields) => PbValue(Some(StructValue(PbStruct(map k | k in fields :: EncodeJson(fields[k])))))
  }

  function EncodeMap(m: JsonMap): PbStruct {
    PbStruct(map k | k in m :: EncodeJson(m[k]))
  }

  function DecodeValue(v: PbValue): Json {
    match v.kind
    case None => JNull
    case Some(NullValue(_)) => JNull
    case Some(NumberValue(d)) => (match d case Finite(x) => JNumber(Float(x)) case _ => JNull)
    case Some(StringValue(s)) => JString(s)
    case Some(BoolValue(b)) => JBool(b)
    case Some(StructValue(s)) => JObject(map k | k in s.fields :: DecodeValue(s.fields[k]))
    case Some(ListValue(values)) => JArray(seq(|values|, i requires 0 <= i < |values| => DecodeValue(values[i])))
  }

  function DecodeStruct(s: PbStruct): JsonMap {
    map k | k in s.fields :: DecodeValue(s.fields[k])
  }

  /** What a tree is after a trip: every number a double, at every depth; nothing else
      changes. */
  function NormalJson(j: Json): Json {
    match j
    case JNumber(n) => JNumber(Float(AsDouble(n)))
    case JArray(items) => JArray(seq(|items|, i requires 0 <= i < |items| => NormalJson(items[i])))
    case JObject(fields) => JObject(map k | k in fields :: NormalJson(fields[k]))
    case _ => j
  }

  function NormalMap(m: JsonMap): JsonMap {
    map k | k in m :: NormalJson(m[k])
  }

  /** A tree comes back in its normal form; the normal form travels the same way and is
      its own normal form. */
  ghost predicate Trips(j: Json) {
    && DecodeValue(EncodeJson(j)) == NormalJson(j)
    && EncodeJson(NormalJson(j)) == EncodeJson(j)
    && NormalJson(NormalJson(j)) == NormalJson(j)
  }

  lemma ArrayTrips(items: seq<Json>)
    requires forall i | 0 <= i < |items| :: Trips(items[i])
    ensures Trips(JArray(items))
  {
    var sent, normal := EncodeJson(JArray(items)).kind.value.values, NormalJson(JArray(items)).items;
    assert forall i | 0 <= i < |items| ::
        sent[i] == EncodeJson(items[i]) && normal[i] == NormalJson(items[i]) && Trips(items[i]);
    assert DecodeValue(EncodeJson(JArray(items))).items == normal;
    assert EncodeJson(JArray(normal)).kind.value.values == sent;
    assert NormalJson(JArray(normal)).items == normal;
  }

  lemma MapTrips(m: JsonMap)
    requires forall k | k in m :: Trips(m[k])
    ensures DecodeStruct(EncodeMap(m)) == NormalMap(m)
    ensures EncodeMap(NormalMap(m)) == EncodeMap(m)
    ensures NormalMap(NormalMap(m)) == NormalMap(m)
  {
    var sent, normal := EncodeMap(m).fields, NormalMap(m);
    assert forall k | k in m :: sent[k] == EncodeJson(m[k]) && normal[k] == NormalJson(m[k]) && Trips(m[k]);
    assert DecodeStruct(EncodeMap(m)) == normal;
    assert EncodeMap(normal).fields == sent;
    assert NormalMap(normal) == normal;
  }

  lemma ObjectTrips(m: JsonMap)
    requires forall k | k in m :: Trips(m[k])
    ensures Trips(JObject(m))
  {
    MapTrips(m);
    assert EncodeJson(JObject(m)) == PbValue(Some(StructValue(EncodeMap(m))));
    assert EncodeJson(JObject(NormalMap(m))) == PbValue(Some(StructValue(EncodeMap(NormalMap(m)))));
    assert NormalJson(JObject(m)) == JObject(NormalMap(m));
    assert NormalJson(JObject(NormalMap(m))) == JObject(NormalMap(NormalMap(m)));
    assert DecodeValue(EncodeJson(JObject(m))) == JObject(DecodeStruct(EncodeMap(m)));
  }

  lemma {:induction false} JsonTrip(j: Json)
    ensures Trips(j)
  {
    match j
    case JArray(items) =>
      forall i | 0 <= i < |items| ensures Trips(items[i]) {
        JsonTrip(items[i]);
      }
      ArrayTrips(items);
    case JObject(fields) =>
      forall k | k in fields ensures Trips(fields[k]) {
        JsonTrip(fields[k]);
      }
      ObjectTrips(fields);
    case _ =>
  }

  /** Every number in it, at whatever depth, is a double. */
  predicate AllDoubles(j: Json) {
    match j
    case JNumber(n) => n.Float?
    case JArray(items) => forall i | 0 <= i < |items| :: AllDoubles(items[i])
    case JObject(fields) => forall k | k in fields :: AllDoubles(fields[k])
    case _ => true
  }

  lemma {:induction false} NormalIfDoubles(j: Json)
    ensures NormalJson(j) == j <==> AllDoubles(j)
  {
    match j
    case JArray(items) =>
      forall i | 0 <= i < |items| ensures NormalJson(items[i]) == items[i] <==> AllDoubles(items[i]) {
        NormalIfDoubles(items[i]);
      }
      var normal := NormalJson(j).items;
      assert forall i | 0 <= i < |items| :: normal[i] == NormalJson(items[i]);
      assert normal == items <==> forall i | 0 <= i < |items| :: NormalJson(items[i]) == items[i];
    case JObject(fields) =>
      forall k | k in fields ensures NormalJson(fields[k]) == fields[k] <==> AllDoubles(fields[k]) {
        NormalIfDoubles(fields[k]);
      }
      var normal := NormalJson(j).fields;
      assert forall k | k in fields :: normal[k] == NormalJson(fields[k]);
      assert normal == fields <==> forall k | k in fields :: NormalJson(fields[k]) == fields[k];
    case _ =>
  }

  lemma MapIfDoubles(m: JsonMap)
    ensures NormalMap(m) == m <==> forall k | k in m :: AllDoubles(m[k])
  {
    NormalIfDoubles(JObject(m));
    assert NormalJson(JObject(m)) == JObject(NormalMap(m));
  }

  /** A tree arrives exactly as it was if and only if all its numbers are doubles; and what
      JSON has no value for, no kind at all or a number that is not finite, arrives as
      null. */
  lemma TreesThatTravel(j: Json, v: PbValue)
    ensures DecodeValue(EncodeJson(j)) == j <==> AllDoubles(j)
    ensures DecodeValue(v) == JNull <==>
              || v.kind.None?
              || v.kind.value.NullValue?
              || (v.kind.value.NumberValue? && !v.kind.value.number.Finite?)
  {
    JsonTrip(j);
    NormalIfDoubles(j);
  }

  /** Whatever comes off the wire is already normal. */
  lemma {:induction false} DecodedIsNormal(v: PbValue)
    ensures NormalJson(DecodeValue(v)) == DecodeValue(v)
  {
    match v.kind
    case Some(ListValue(values)) =>
      forall i | 0 <= i < |values| {
        DecodedIsNormal(values[i]);
      }
    case Some(StructValue(s)) =>
      forall k | k in s.fields {
        DecodedIsNormal(s.fields[k]);
      }
    case _ =>
  }

  lemma MapTrip(m: JsonMap)
    ensures DecodeStruct(EncodeMap(m)) == NormalMap(m)
    ensures EncodeMap(NormalMap(m)) == EncodeMap(m)
    ensures NormalMap(NormalMap(m)) == NormalMap(m)
  {
    forall k | k in m ensures Trips(m[k]) {
      JsonTrip(m[k]);
    }
    MapTrips(m);
  }

  lemma DecodedMapIsNormal(s: PbStruct)
    ensures NormalMap(DecodeStruct(s)) == DecodeStruct(s)
  {
    forall k | k in s.fields {
      DecodedIsNormal(s.fields[k]);
    }
  }
}
