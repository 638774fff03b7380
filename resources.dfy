/**
 * The hydration engine of the resources: how a decoded payload becomes a
 * typed resource. The payload is kept unchanged as the resource's attributes;
 * every entry is then handled in order: when the key's fill method name
 * matches, up to case, a custom fill method of the resource class, that
 * method receives the value; otherwise the value is assigned to the property
 * named by the key.
 *
 * Only Product has custom fill methods: two hydrate nested collections of
 * products and one looks ids up in the measurement-request table. Token
 * declares four properties and no fill method.
 *
 * This module holds the value-level specification; the class that fills
 * itself step by step, as the source does, is in module ResourceObjects.
 * Nested products are values of type Hydrated: the source builds fresh
 * objects for them that nothing else refers to.
 */
module Resources {
  import opened PhpValues
  import opened Errors
  import opened MeasurementRequests
  import opened FillMethodNames

  /** The resource classes. */
  datatype Shape = ProductShape | TokenShape | ResourceShape

  const ProductProperties: seq<string> := [
    "productID", "name", "description", "DetailedDescription", "productGroup",
    "isTemporarilyUnavailable", "priceMin", "priceMax", "TypeOfStructure", "IsRoofProduct",
    "SortOrder", "AllowsUserSubmittedPhotos", "deliveryProducts", "addOnProducts",
    "measurementInstructionTypes"]

  const TokenProperties: seq<string> := ["access_token", "token_type", "expires_in", "refresh_token"]

  /** The public properties a class declares, all initially null. */
  function DeclaredProperties(shape: Shape): seq<string> {
    match shape
    case ProductShape => ProductProperties
    case TokenShape => TokenProperties
    case ResourceShape => []
  }

  // ---------------------------------------------------------------------
  // The fill methods and how a key is routed to them.

  /** The custom fill methods of Product; each fills one property. */
  datatype Transform = FillDeliveryProducts | FillAddOnProducts | FillMeasurementInstructionTypes
  {
    /** The property the method writes. */
    const property: string :=
      match this
      case FillDeliveryProducts => "deliveryProducts"
      case FillAddOnProducts => "addOnProducts"
      case FillMeasurementInstructionTypes => "measurementInstructionTypes"

    /** The method's name between "fill" and "Attribute": the property, capitalised. */
    const word: string := [Upper(property[0])] + property[1..]
  }

  const MeasurementProperty: string := "measurementInstructionTypes"

  /**
   * The methods of each class whose names have the fill-method form, with what
   * they do: Product's `fillDeliveryProductsAttribute`,
   * `fillAddOnProductsAttribute` and `fillMeasurementInstructionTypesAttribute`.
   */
  function FillMethods(shape: Shape): seq<(string, Transform)> {
    if shape == ProductShape then
      [("fill" + FillDeliveryProducts.word + "Attribute", FillDeliveryProducts),
       ("fill" + FillAddOnProducts.word + "Attribute", FillAddOnProducts),
       ("fill" + FillMeasurementInstructionTypes.word + "Attribute", FillMeasurementInstructionTypes)]
    else []
  }

  /** `method_exists`: the first method whose name equals `name` up to case. */
  function FindMethod(methods: seq<(string, Transform)>, name: string): (r: Option<Transform>)
    ensures r.None? <==> forall i :: 0 <= i < |methods| ==> !SameMethodName(methods[i].0, name)
  {
    if methods == [] then None
    else if SameMethodName(methods[0].0, name) then Some(methods[0].1)
    else
      assert forall j :: 0 <= j < |methods| - 1 ==> methods[1..][j] == methods[j + 1];
      assert forall i :: 1 <= i < |methods| ==> methods[i] == methods[1..][i - 1];
      FindMethod(methods[1..], name)
  }

  /** `method_exists($this, $this->standardizedFillMethodName($key))`, with the method found. */
  function MethodFor(shape: Shape, key: Key): Option<Transform> {
    FindMethod(FillMethods(shape), FillMethodName(KeyName(key)))
  }

  /** A key reaches method `t` when its letters and digits, folded, are those of `t`'s name. */
  predicate Reaches(key: Key, t: Transform) {
    Letters(KeyName(key)) == AsciiLower(t.word)
  }

  /**
   * The same routing stated by the key's letters (`MethodForIsTransformFor`),
   * so `delivery_products`, `DeliveryProducts` and `deliveryproducts` all
   * reach the same method. Other classes have no fill methods.
   */
  function TransformFor(shape: Shape, key: Key): Option<Transform> {
    if shape != ProductShape then None
    else if Reaches(key, FillDeliveryProducts) then Some(FillDeliveryProducts)
    else if Reaches(key, FillAddOnProducts) then Some(FillAddOnProducts)
    else if Reaches(key, FillMeasurementInstructionTypes) then Some(FillMeasurementInstructionTypes)
    else None
  }

  /** The property an entry ends up writing: the method's property, or the key itself. */
  function Writes(shape: Shape, key: Key): string {
    match TransformFor(shape, key)
    case None => KeyName(key)
    case Some(t) => t.property
  }

  /** `fill`'s literal routing (`method_exists` on the canonical name) is `TransformFor`. */
  lemma MethodForIsTransformFor(shape: Shape, key: Key)
    ensures MethodFor(shape, key) == TransformFor(shape, key)
  {
    if shape == ProductShape {
      var n := KeyName(key);
      var name := FillMethodName(n);
      var methods := FillMethods(ProductShape);
      FillMethodMatches(n, FillDeliveryProducts.word);
      FillMethodMatches(n, FillAddOnProducts.word);
      FillMethodMatches(n, FillMeasurementInstructionTypes.word);
      var rest, last := methods[1..], methods[1..][1..];
      assert last[1..] == [];
      assert FindMethod(methods, name) ==
        if SameMethodName(methods[0].0, name) then Some(FillDeliveryProducts) else FindMethod(rest, name);
      assert FindMethod(rest, name) ==
        if SameMethodName(rest[0].0, name) then Some(FillAddOnProducts) else FindMethod(last, name);
      assert FindMethod(last, name) ==
        if SameMethodName(last[0].0, name) then Some(FillMeasurementInstructionTypes) else None;
    } else {
      assert FillMethods(shape) == [];
    }
  }

  /** Each property is a non-empty run of letters. */
  lemma PropertyIsAlnum(t: Transform, p: string)
    requires p == t.property
    ensures p != [] && AllAlnum(p)
  {
    match t
    case FillDeliveryProducts =>
    case FillAddOnProducts =>
    case FillMeasurementInstructionTypes =>
  }

  /** The key that names a method's property exactly reaches that method and no other. */
  lemma PropertyReaches(key: Key, t: Transform, u: Transform)
    requires KeyName(key) == t.property
    ensures Reaches(key, u) <==> u == t
  {
    PropertyIsAlnum(t, t.property);
    CapitalisedLetters(t.property);
    assert |AsciiLower(u.word)| == |u.word|;
  }

  /** Only Product routes keys anywhere; a Token assigns every key directly. */
  lemma OnlyProductRoutes(shape: Shape, key: Key)
    requires shape != ProductShape
    ensures TransformFor(shape, key).None? && Writes(shape, key) == KeyName(key)
  {
  }

  /**
   * No key is ever assigned directly to a property that a fill method owns:
   * a key naming the property exactly is routed to the method.
   */
  lemma WritesTransformProperty(key: Key, t: Transform)
    requires Writes(ProductShape, key) == t.property
    ensures TransformFor(ProductShape, key) == Some(t)
  {
    if TransformFor(ProductShape, key).None? {
      PropertyReaches(key, t, t);
    } else {
      // the three properties differ in length
      assert |TransformFor(ProductShape, key).value.property| == |t.property|;
    }
  }

  /**
   * Every key whose letters and digits, folded, are none of the three method
   * words finds no fill method and is assigned under its own name: among
   * Product's declared properties `isTemporarilyUnavailable`,
   * `AllowsUserSubmittedPhotos`, `DetailedDescription`, `TypeOfStructure`
   * and `IsRoofProduct`, whatever their length.
   */
  lemma UnroutedKeysAreAssigned(key: Key)
    requires forall t: Transform :: !Reaches(key, t)
    ensures MethodFor(ProductShape, key).None?
    ensures Writes(ProductShape, key) == KeyName(key)
  {
    MethodForIsTransformFor(ProductShape, key);
  }

  /**
   * A key of letters and digits that differs from each method's property in
   * length or in its folded first letter is assigned under its own name.
   * Among Product's declared properties this covers `isTemporarilyUnavailable`
   * and `IsRoofProduct` (first letter) and `AllowsUserSubmittedPhotos`,
   * `DetailedDescription` and `TypeOfStructure` (length).
   */
  lemma DistinctKeysAreAssigned(key: Key)
    requires KeyName(key) != [] && AllAlnum(KeyName(key))
    requires forall t: Transform ::
      |KeyName(key)| != |t.property| || Lower(KeyName(key)[0]) != Lower(t.property[0])
    ensures MethodFor(ProductShape, key).None?
    ensures Writes(ProductShape, key) == KeyName(key)
  {
    var n := KeyName(key);
    CapitalisedLetters(n);
    forall t: Transform
      ensures !Reaches(key, t)
    {
      PropertyIsAlnum(t, t.property);
      CapitalisedLetters(t.property);
    }
    UnroutedKeysAreAssigned(key);
  }

  /**
   * A key shorter than every method word reaches no method: `productID`,
   * `name`, `description`, `productGroup`, `priceMin`, `priceMax` and
   * `SortOrder` are assigned directly.
   */
  lemma ShortKeysAreAssigned(key: Key)
    requires |KeyName(key)| < 13
    ensures TransformFor(ProductShape, key).None? && Writes(ProductShape, key) == KeyName(key)
  {
    assert |FillDeliveryProducts.word| == 16 && |FillAddOnProducts.word| == 13;
    assert |FillMeasurementInstructionTypes.word| == 27;
  }

  // ---------------------------------------------------------------------
  // Loose comparison with the measurement-request values.

  /**
   * PHP's `$id == $n` for an integer `n`. A numeric string is taken to equal
   * `n` only when it is `n`'s plain decimal spelling.
   */
  predicate LooseEqualsInt(v: Value, n: int) {
    match v
    case Null => n == 0
    case Bool(b) => b == (n != 0)
    case Int(i) => i == n
    case Float(t) => t == IntToDecimal(n) || (n == 0 && t == "-0")
    case Str(s) => s == IntToDecimal(n)
    case Arr(_) => false
  }

  /** The inner loop: the request types in `ms` whose value equals `id`, in `ms`'s order. */
  function MatchesIn(id: Value, ms: seq<MeasurementRequest>): (r: seq<MeasurementRequest>)
    ensures |r| <= |ms|
    ensures forall m :: m in r ==> m in ms && LooseEqualsInt(id, m.value)
  {
    if ms == [] then []
    else MatchesIn(id, ms[..|ms| - 1]) + (if LooseEqualsInt(id, ms[|ms| - 1].value) then [ms[|ms| - 1]] else [])
  }

  /** The nested loops: for each id in order, the request types it equals. */
  function MatchingRequests(ids: Entries): seq<MeasurementRequest> {
    if ids == [] then []
    else MatchingRequests(ids[..|ids| - 1]) + MatchesIn(ids[|ids| - 1].1, All)
  }

  function Matching(id: Value, m: MeasurementRequest): seq<MeasurementRequest> {
    if LooseEqualsInt(id, m.value) then [m] else []
  }

  /** The inner loop over the whole table, written out type by type. */
  lemma MatchesInAll(id: Value)
    ensures MatchesIn(id, All) ==
      Matching(id, PrimaryPlusDetachedGarage) + Matching(id, PrimaryStructureOnly) +
      Matching(id, AllStructuresOnParcel) + Matching(id, CommercialComplex) + Matching(id, Other)
  {
    var s1, s2, s3, s4 := All[..1], All[..2], All[..3], All[..4];
    assert s1[..0] == [];
    assert s2[..1] == s1 && s3[..2] == s2 && s4[..3] == s3 && All[..4] == s4;
    assert MatchesIn(id, s1) == Matching(id, PrimaryPlusDetachedGarage);
    assert MatchesIn(id, s2) == MatchesIn(id, s1) + Matching(id, PrimaryStructureOnly);
    assert MatchesIn(id, s3) == MatchesIn(id, s2) + Matching(id, AllStructuresOnParcel);
    assert MatchesIn(id, s4) == MatchesIn(id, s3) + Matching(id, CommercialComplex);
    assert MatchesIn(id, All) == MatchesIn(id, s4) + Matching(id, Other);
  }

  /** The inner loop one request type further. */
  lemma MatchesInStep(id: Value, ms: seq<MeasurementRequest>, j: nat)
    requires j < |ms|
    ensures MatchesIn(id, ms[..j + 1]) == MatchesIn(id, ms[..j]) + Matching(id, ms[j])
  {
    assert ms[..j + 1][..j] == ms[..j];
  }

  /** The outer loop one id further. */
  lemma MatchingRequestsStep(ids: Entries, i: nat)
    requires i < |ids|
    ensures MatchingRequests(ids[..i + 1]) == MatchingRequests(ids[..i]) + MatchesIn(ids[i].1, All)
  {
    assert ids[..i + 1][..i] == ids[..i];
  }

  /** An integer id matches the one type with that value, or none outside 1..5. */
  lemma MatchesOfInt(n: int)
    ensures MatchesIn(Int(n), All) == if 1 <= n <= 5 then [FromValue(n).value] else []
  {
    MatchesInAll(Int(n));
  }

  /** `true == $n` holds for every non-zero `n`, so the id `true` matches all five types. */
  lemma MatchesOfTrue()
    ensures MatchesIn(Bool(true), All) == All
  {
    MatchesInAll(Bool(true));
  }

  /** Every id other than `true` matches at most one type, since the values are distinct. */
  lemma AtMostOneMatch(id: Value)
    requires id != Bool(true)
    ensures |MatchesIn(id, All)| <= 1
  {
    MatchesInAll(id);
    forall a, b | LooseEqualsInt(id, a) && LooseEqualsInt(id, b) && 1 <= a && 1 <= b ensures a == b {
      match id
      case Float(t) => IntToDecimalInjective(a, b);
      case Str(s) => IntToDecimalInjective(a, b);
      case _ =>
    }
  }

  /** The reference lookup for integer ids: the type with that value, ids outside 1..5 skipped. */
  function LookupIds(ids: seq<int>): (r: seq<MeasurementRequest>)
    ensures |r| <= |ids|
  {
    if ids == [] then [] else (if 1 <= ids[0] <= 5 then [FromValue(ids[0]).value] else []) + LookupIds(ids[1..])
  }

  function CountInRange(ids: seq<int>): nat {
    if ids == [] then 0 else (if 1 <= ids[0] <= 5 then 1 else 0) + CountInRange(ids[1..])
  }

  lemma {:induction false} LookupIdsAppend(a: seq<int>, b: seq<int>)
    ensures LookupIds(a + b) == LookupIds(a) + LookupIds(b)
  {
    if a != [] {
      assert (a + b)[1..] == a[1..] + b;
      LookupIdsAppend(a[1..], b);
    } else {
      assert a + b == b;
    }
  }

  lemma {:induction false} LookupIdsCount(ids: seq<int>)
    ensures |LookupIds(ids)| == CountInRange(ids)
    ensures forall m :: m in LookupIds(ids) ==> m.value in ids
  {
    if ids != [] {
      LookupIdsCount(ids[1..]);
    }
  }

  /** The integer ids of a list of entries. */
  function IntIds(ids: Entries): seq<int>
    requires forall i :: 0 <= i < |ids| ==> ids[i].1.Int?
  {
    if ids == [] then [] else IntIds(ids[..|ids| - 1]) + [ids[|ids| - 1].1.i]
  }

  /**
   * For integer ids, the nested loops produce, in input order, the type whose
   * value is each id in 1..5, skip the others and repeat repeated ids; so they
   * append exactly as many types as there are ids in 1..5.
   */
  lemma {:induction false} MatchingIntIds(ids: Entries)
    requires forall i :: 0 <= i < |ids| ==> ids[i].1.Int?
    ensures MatchingRequests(ids) == LookupIds(IntIds(ids))
    ensures |MatchingRequests(ids)| == CountInRange(IntIds(ids))
  {
    if ids != [] {
      var front := ids[..|ids| - 1];
      MatchingIntIds(front);
      var n := ids[|ids| - 1].1.i;
      MatchesOfInt(n);
      LookupIdsAppend(IntIds(front), [n]);
    }
    LookupIdsCount(IntIds(ids));
  }

  // ---------------------------------------------------------------------
  // Appending to the measurement-request property.

  /** What a property holds: a stored value, a list of products or a list of request types. */
  datatype Field =
    | Plain(value: Value)
    | Products(items: seq<(Key, Hydrated)>)
    | Requests(requests: seq<MeasurementRequest>)

  /** A hydrated resource: its class, its unchanged payload, its SDK reference and its properties. */
  datatype Hydrated = Hydrated(shape: Shape, attributes: Entries, sdk: object?, props: map<string, Field>)

  predicate NullOrRequests(f: Field) {
    f == Plain(Null) || f.Requests?
  }

  /** An undefined property reads as null. */
  function CurrentField(props: map<string, Field>, name: string): Field {
    if name in props then props[name] else Plain(Null)
  }

  /**
   * `$this->measurementInstructionTypes[] = $m` for each `m` of `ms`: null
   * becomes a list, a list grows; nothing is written when `ms` is empty.
   * Other contents are answered with TypeError; they never occur
   * (`MeasurementFromFill`), so what PHP would make of them is not modelled.
   */
  function AppendRequests(f: Field, ms: seq<MeasurementRequest>): (r: Outcome<Field>)
    ensures ms == [] ==> r == Ok(f)
    ensures ms != [] && f == Plain(Null) ==> r == Ok(Requests(ms))
    ensures ms != [] && f.Requests? ==> r == Ok(Requests(f.requests + ms))
    ensures NullOrRequests(f) ==> r.Ok? && NullOrRequests(r.value)
  {
    if ms == [] then Ok(f)
    else match f
      case Plain(Null) => Ok(Requests(ms))
      case Requests(earlier) => Ok(Requests(earlier + ms))
      case _ => Thrown(TypeError)
  }

  /** Appending in two rounds is appending once. */
  lemma AppendRequestsTwice(f: Field, a: seq<MeasurementRequest>, b: seq<MeasurementRequest>)
    requires NullOrRequests(f)
    ensures AppendRequests(f, a + b) == AppendRequests(AppendRequests(f, a).value, b)
  {
    if a == [] {
      assert a + b == b;
    } else if b == [] {
      assert a + b == a;
    } else if f.Requests? {
      assert f.requests + (a + b) == f.requests + a + b;
    }
  }

  /** The properties after `ms` is appended to the measurement property. */
  function WithRequests(props: map<string, Field>, ms: seq<MeasurementRequest>): (r: map<string, Field>)
    requires NullOrRequests(CurrentField(props, MeasurementProperty))
    ensures NullOrRequests(CurrentField(r, MeasurementProperty))
    ensures forall n :: n != MeasurementProperty ==> (n in r <==> n in props) && (n in r ==> r[n] == props[n])
    ensures ms == [] ==> r == props
    ensures ms != [] ==>
      MeasurementProperty in r && r[MeasurementProperty] == Requests(Requested(props) + ms)
  {
    if ms == [] then props
    else props[MeasurementProperty := AppendRequests(CurrentField(props, MeasurementProperty), ms).value]
  }

  /** The request types the measurement property lists so far. */
  function Requested(props: map<string, Field>): seq<MeasurementRequest> {
    var f := CurrentField(props, MeasurementProperty);
    if f.Requests? then f.requests else []
  }

  /** `$this->measurementInstructionTypes[] = $m`: null becomes `[m]`, a list grows by `m`. */
  lemma AppendOneRequest(props: map<string, Field>, m: MeasurementRequest)
    requires NullOrRequests(CurrentField(props, MeasurementProperty))
    ensures var current := CurrentField(props, MeasurementProperty);
      WithRequests(props, [m]) ==
        props[MeasurementProperty := if current.Requests? then Requests(current.requests + [m]) else Requests([m])]
  {
  }

  /** Appending in two rounds is appending once. */
  lemma WithRequestsTwice(props: map<string, Field>, a: seq<MeasurementRequest>, b: seq<MeasurementRequest>)
    requires NullOrRequests(CurrentField(props, MeasurementProperty))
    ensures WithRequests(WithRequests(props, a), b) == WithRequests(props, a + b)
  {
    if a == [] {
      assert a + b == b;
    } else if b == [] {
      assert a + b == a;
    } else {
      assert Requested(props) + a + b == Requested(props) + (a + b);
    }
  }

  // ---------------------------------------------------------------------
  // Hydration.

  predicate InvalidPropertyName(name: string) {
    name == "" || name[0] == '\0'
  }

  /** `$this->{$name} = $value`: PHP refuses an empty name and one starting with NUL. */
  function AssignProperty(props: map<string, Field>, name: string, value: Value): (r: Outcome<map<string, Field>>)
    ensures r.Ok? <==> !InvalidPropertyName(name)
    ensures r.Thrown? ==> r.error == PropertyError(name)
    ensures r.Ok? ==> name in r.value && r.value[name] == Plain(value)
    ensures r.Ok? ==> forall n :: n != name ==> (n in r.value <==> n in props) && (n in props ==> r.value[n] == props[n])
  {
    if InvalidPropertyName(name) then Thrown(PropertyError(name)) else Ok(props[name := Plain(value)])
  }

  /** Every declared property, null. */
  function InitialProps(shape: Shape): (r: map<string, Field>)
    ensures forall p :: p in r <==> p in DeclaredProperties(shape)
    ensures forall p :: p in r ==> r[p] == Plain(Null)
  {
    map p | p in DeclaredProperties(shape) :: Plain(Null)
  }

  /** `new $class($attributes, $eagleView)`: store the payload, then fill. */
  function Hydrate(shape: Shape, es: Entries, sdk: object?): (r: Outcome<Hydrated>)
    decreases Arr(es), 1, 0
    ensures r.Ok? ==> r.value.shape == shape && r.value.attributes == es && r.value.sdk == sdk
    ensures r.Ok? ==> forall p :: p in DeclaredProperties(shape) ==> p in r.value.props
  {
    match FillFrom(shape, es, sdk, 0, InitialProps(shape))
    case Ok(props) => Ok(Hydrated(shape, es, sdk, props))
    case Thrown(e) => Thrown(e)
  }

  /** The loop of `fill` from entry `i` on; the first exception ends it. */
  function FillFrom(shape: Shape, es: Entries, sdk: object?, i: nat, props: map<string, Field>): (r: Outcome<map<string, Field>>)
    requires i <= |es|
    decreases Arr(es), 0, |es| - i
    ensures r.Ok? ==> props.Keys <= r.value.Keys
  {
    if i == |es| then Ok(props)
    else
      assert es[i] in es;
      match FillOne(shape, es[i].0, es[i].1, sdk, props)
      case Ok(next) => FillFrom(shape, es, sdk, i + 1, next)
      case Thrown(e) => Thrown(e)
  }

  /** The loop of `fill` one entry further. */
  lemma FillFromStep(shape: Shape, es: Entries, sdk: object?, i: nat, props: map<string, Field>)
    requires i < |es|
    ensures FillFrom(shape, es, sdk, i, props) ==
      match FillOne(shape, es[i].0, es[i].1, sdk, props)
      case Ok(next) => FillFrom(shape, es, sdk, i + 1, next)
      case Thrown(e) => Thrown(e)
  {
  }

  /** One entry of `fill`: to its custom fill method, or assigned under its own name. */
  function FillOne(shape: Shape, key: Key, value: Value, sdk: object?, props: map<string, Field>): (r: Outcome<map<string, Field>>)
    decreases value, 1, 0
    ensures r.Ok? ==> props.Keys <= r.value.Keys
    ensures r.Ok? ==> forall n :: n in r.value && n != Writes(shape, key) ==> n in props && r.value[n] == props[n]
  {
    match TransformFor(shape, key)
    case None => AssignProperty(props, KeyName(key), value)
    case Some(t) =>
      match value
      case Arr(items) =>
        if t == FillMeasurementInstructionTypes then
          var ms := MatchingRequests(items);
          if ms == [] then Ok(props)
          else
            (match AppendRequests(CurrentField(props, t.property), ms)
             case Ok(f) => Ok(props[t.property := f])
             case Thrown(e) => Thrown(e))
        else
          (match HydrateItems(ProductShape, items, sdk, 0)
           case Ok(hs) => Ok(props[t.property := Products(hs)])
           case Thrown(e) => Thrown(e))
      case _ => Thrown(TypeError)
  }

  /** `transformCollection($items, Product::class)` from item `j` on, with no extra data. */
  function HydrateItems(shape: Shape, items: Entries, sdk: object?, j: nat): (r: Outcome<seq<(Key, Hydrated)>>)
    requires j <= |items|
    decreases Arr(items), 0, |items| - j
    ensures r.Ok? ==> |r.value| == |items| - j
  {
    if j == |items| then Ok([])
    else
      assert items[j] in items;
      match items[j].1
      case Arr(data) =>
        (match Hydrate(shape, data, sdk)
         case Ok(h) =>
           (match HydrateItems(shape, items, sdk, j + 1)
            case Ok(rest) => Ok([(items[j].0, h)] + rest)
            case Thrown(e) => Thrown(e))
         case Thrown(e) => Thrown(e))
      case _ => Thrown(TypeError)
  }

  /** `new $class($value, ...)` for a value the caller did not check is an array. */
  function HydrateValue(shape: Shape, v: Value, sdk: object?): (r: Outcome<Hydrated>)
    ensures !v.Arr? ==> r == Thrown(TypeError)
    ensures v.Arr? ==> r == Hydrate(shape, v.entries, sdk)
  {
    if v.Arr? then Hydrate(shape, v.entries, sdk) else Thrown(TypeError)
  }

  /** A `measurementInstructionTypes` entry appends the request types of its ids, or refuses a non-array. */
  lemma FillOneMeasurement(key: Key, value: Value, sdk: object?, props: map<string, Field>)
    requires TransformFor(ProductShape, key) == Some(FillMeasurementInstructionTypes)
    requires NullOrRequests(CurrentField(props, MeasurementProperty))
    ensures FillOne(ProductShape, key, value, sdk, props) ==
      if value.Arr? then Ok(WithRequests(props, MatchingRequests(value.entries))) else Thrown(TypeError)
  {
  }

  // ---------------------------------------------------------------------
  // transformCollection.

  /** The element `out` is what `new $class($data + $extraData, $sdk)` builds from `item`. */
  predicate Built(shape: Shape, extra: Entries, sdk: object?, item: (Key, Value), out: (Key, Hydrated)) {
    out.0 == item.0 && item.1.Arr? && Hydrate(shape, Union(item.1.entries, extra), sdk) == Ok(out.1)
  }

  /** Building from `item` succeeds. */
  predicate Buildable(shape: Shape, extra: Entries, sdk: object?, item: (Key, Value)) {
    item.1.Arr? && Hydrate(shape, Union(item.1.entries, extra), sdk).Ok?
  }

  /**
   * `array_map(fn ($data) => new $class($data + $extraData, $sdk), $collection)`
   * from element `j` on: keys kept, one resource per element, the first
   * exception ends it.
   */
  function TransformFrom(shape: Shape, collection: Entries, extra: Entries, sdk: object?, j: nat): (r: Outcome<seq<(Key, Hydrated)>>)
    requires j <= |collection|
    decreases |collection| - j
    ensures r.Ok? ==> |r.value| == |collection| - j
    ensures r.Ok? ==> forall t :: 0 <= t < |r.value| ==> Built(shape, extra, sdk, collection[j + t], r.value[t])
    ensures (forall t :: j <= t < |collection| ==> Buildable(shape, extra, sdk, collection[t])) ==> r.Ok?
  {
    if j == |collection| then Ok([])
    else
      match collection[j].1
      case Arr(data) =>
        (match Hydrate(shape, Union(data, extra), sdk)
         case Ok(h) =>
           (match TransformFrom(shape, collection, extra, sdk, j + 1)
            case Ok(rest) =>
              var r := [(collection[j].0, h)] + rest;
              assert forall t :: 1 <= t < |r| ==> r[t] == rest[t - 1] && collection[j + t] == collection[(j + 1) + (t - 1)];
              Ok(r)
            case Thrown(e) => Thrown(e))
         case Thrown(e) => Thrown(e))
      case _ => Thrown(TypeError)
  }

  function TransformCollection(shape: Shape, collection: Entries, extra: Entries, sdk: object?): Outcome<seq<(Key, Hydrated)>> {
    TransformFrom(shape, collection, extra, sdk, 0)
  }

  /**
   * Each element is built from `data + extraData`: its payload keeps the
   * element's own entries first, and a key present in both takes the element's
   * value. Every element refers to the same SDK instance.
   */
  lemma TransformCollectionElement(shape: Shape, collection: Entries, extra: Entries, sdk: object?, t: nat, k: Key)
    requires TransformCollection(shape, collection, extra, sdk).Ok?
    requires t < |collection|
    ensures var h := TransformCollection(shape, collection, extra, sdk).value[t].1;
      collection[t].1.Arr? && h.sdk == sdk && h.shape == shape &&
      Lookup(h.attributes, k) == if HasKey(collection[t].1.entries, k) then Lookup(collection[t].1.entries, k) else Lookup(extra, k)
  {
    var r := TransformCollection(shape, collection, extra, sdk).value;
    assert Built(shape, extra, sdk, collection[0 + t], r[t]);
    UnionLookup(collection[t].1.entries, extra, k);
  }

  /** The collections a Product hydrates are `transformCollection` with no extra data. */
  lemma {:induction false} HydrateItemsIsTransformCollection(shape: Shape, items: Entries, sdk: object?, j: nat)
    requires j <= |items|
    ensures HydrateItems(shape, items, sdk, j) == TransformFrom(shape, items, [], sdk, j)
    decreases |items| - j
  {
    if j < |items| {
      HydrateItemsIsTransformCollection(shape, items, sdk, j + 1);
      if items[j].1.Arr? {
        UnionEmptyRight(items[j].1.entries);
      }
    }
  }

  // ---------------------------------------------------------------------
  // What fill leaves in each property.

  /** What a non-appending entry stores in the property it writes, when it succeeds. */
  function StoredValue(shape: Shape, key: Key, value: Value, sdk: object?): Option<Field> {
    match TransformFor(shape, key)
    case None => Some(Plain(value))
    case Some(t) =>
      if t == FillMeasurementInstructionTypes then None
      else if value.Arr? && HydrateItems(ProductShape, value.entries, sdk, 0).Ok? then
        Some(Products(HydrateItems(ProductShape, value.entries, sdk, 0).value))
      else None
  }

  /** Properties that no remaining entry writes keep their content. */
  lemma {:induction false} FillFromFrame(shape: Shape, es: Entries, sdk: object?, i: nat, props: map<string, Field>, n: string)
    requires i <= |es| && FillFrom(shape, es, sdk, i, props).Ok?
    requires forall j :: i <= j < |es| ==> Writes(shape, es[j].0) != n
    ensures n in FillFrom(shape, es, sdk, i, props).value <==> n in props
    ensures n in props ==> FillFrom(shape, es, sdk, i, props).value[n] == props[n]
    decreases |es| - i
  {
    if i < |es| {
      var next := FillOne(shape, es[i].0, es[i].1, sdk, props).value;
      FillFromFrame(shape, es, sdk, i + 1, next, n);
    }
  }

  /** The last entry that writes a property by assignment or by a collection decides it. */
  lemma {:induction false} FillFromLastWrite(shape: Shape, es: Entries, sdk: object?, i: nat, props: map<string, Field>, j: nat)
    requires i <= j < |es| && FillFrom(shape, es, sdk, i, props).Ok?
    requires TransformFor(shape, es[j].0) != Some(FillMeasurementInstructionTypes)
    requires forall k :: j < k < |es| ==> Writes(shape, es[k].0) != Writes(shape, es[j].0)
    ensures StoredValue(shape, es[j].0, es[j].1, sdk).Some?
    ensures var r := FillFrom(shape, es, sdk, i, props).value;
      Writes(shape, es[j].0) in r && r[Writes(shape, es[j].0)] == StoredValue(shape, es[j].0, es[j].1, sdk).value
    decreases j - i
  {
    var next := FillOne(shape, es[i].0, es[i].1, sdk, props).value;
    if i == j {
      FillFromFrame(shape, es, sdk, i + 1, next, Writes(shape, es[j].0));
    } else {
      FillFromLastWrite(shape, es, sdk, i + 1, next, j);
    }
  }

  /**
   * A key with no custom fill method is assigned verbatim under its own name,
   * unless a later entry writes the same property.
   */
  lemma PlainKeyAssigned(shape: Shape, es: Entries, sdk: object?, j: nat)
    requires j < |es| && Hydrate(shape, es, sdk).Ok?
    requires TransformFor(shape, es[j].0).None?
    requires forall k :: j < k < |es| ==> Writes(shape, es[k].0) != KeyName(es[j].0)
    ensures KeyName(es[j].0) in Hydrate(shape, es, sdk).value.props
    ensures Hydrate(shape, es, sdk).value.props[KeyName(es[j].0)] == Plain(es[j].1)
  {
    FillFromLastWrite(shape, es, sdk, 0, InitialProps(shape), j);
  }

  /**
   * A `deliveryProducts` or `addOnProducts` entry becomes the list of
   * products `transformCollection` builds from its items: same keys, same
   * order, each item hydrated as a Product with the same SDK reference.
   */
  lemma CollectionKeyHydrated(es: Entries, sdk: object?, j: nat)
    requires j < |es| && Hydrate(ProductShape, es, sdk).Ok?
    requires TransformFor(ProductShape, es[j].0).Some?
    requires TransformFor(ProductShape, es[j].0) != Some(FillMeasurementInstructionTypes)
    requires forall k :: j < k < |es| ==> Writes(ProductShape, es[k].0) != Writes(ProductShape, es[j].0)
    ensures es[j].1.Arr?
    ensures TransformCollection(ProductShape, es[j].1.entries, [], sdk).Ok?
    ensures TransformFor(ProductShape, es[j].0).value.property in Hydrate(ProductShape, es, sdk).value.props
    ensures Hydrate(ProductShape, es, sdk).value.props[TransformFor(ProductShape, es[j].0).value.property] ==
      Products(TransformCollection(ProductShape, es[j].1.entries, [], sdk).value)
  {
    FillFromLastWrite(ProductShape, es, sdk, 0, InitialProps(ProductShape), j);
    HydrateItemsIsTransformCollection(ProductShape, es[j].1.entries, sdk, 0);
  }

  /** The request types every `measurementInstructionTypes` entry from `i` on appends. */
  function RoutedRequests(shape: Shape, es: Entries, i: nat): seq<MeasurementRequest>
    requires i <= |es|
    decreases |es| - i
  {
    if i == |es| then []
    else
      (if TransformFor(shape, es[i].0) == Some(FillMeasurementInstructionTypes) && es[i].1.Arr?
       then MatchingRequests(es[i].1.entries) else []) + RoutedRequests(shape, es, i + 1)
  }

  lemma {:induction false} MeasurementFromFill(es: Entries, sdk: object?, i: nat, props: map<string, Field>)
    requires i <= |es| && FillFrom(ProductShape, es, sdk, i, props).Ok?
    requires NullOrRequests(CurrentField(props, MeasurementProperty))
    ensures AppendRequests(CurrentField(props, MeasurementProperty), RoutedRequests(ProductShape, es, i)) ==
      Ok(CurrentField(FillFrom(ProductShape, es, sdk, i, props).value, MeasurementProperty))
    decreases |es| - i
  {
    if i < |es| {
      var key, value := es[i].0, es[i].1;
      var next := FillOne(ProductShape, key, value, sdk, props).value;
      var f := CurrentField(props, MeasurementProperty);
      var here := if TransformFor(ProductShape, key) == Some(FillMeasurementInstructionTypes) && value.Arr?
        then MatchingRequests(value.entries) else [];
      if Writes(ProductShape, key) == MeasurementProperty {
        WritesTransformProperty(key, FillMeasurementInstructionTypes);
      }
      assert AppendRequests(f, here) == Ok(CurrentField(next, MeasurementProperty));
      MeasurementFromFill(es, sdk, i + 1, next);
      AppendRequestsTwice(f, here, RoutedRequests(ProductShape, es, i + 1));
    }
  }

  /** One entry never leaves a Product's measurement property holding anything but null or a list. */
  lemma FillOnePreservesValid(shape: Shape, key: Key, value: Value, sdk: object?, props: map<string, Field>)
    requires shape == ProductShape ==> NullOrRequests(CurrentField(props, MeasurementProperty))
    ensures shape == ProductShape && FillOne(shape, key, value, sdk, props).Ok? ==>
      NullOrRequests(CurrentField(FillOne(shape, key, value, sdk, props).value, MeasurementProperty))
  {
    if shape == ProductShape && Writes(shape, key) == MeasurementProperty {
      WritesTransformProperty(key, FillMeasurementInstructionTypes);
      FillOneMeasurement(key, value, sdk, props);
    }
  }

  /**
   * `measurementInstructionTypes` ends as the request types of all its entries'
   * ids, in order, appended to the initial null: it stays null when no id
   * matched, and it never holds anything but null or a list of request types.
   */
  lemma MeasurementTypesOfProduct(es: Entries, sdk: object?)
    requires Hydrate(ProductShape, es, sdk).Ok?
    ensures var ms := RoutedRequests(ProductShape, es, 0);
      Hydrate(ProductShape, es, sdk).value.props[MeasurementProperty] == if ms == [] then Plain(Null) else Requests(ms)
  {
    MeasurementFromFill(es, sdk, 0, InitialProps(ProductShape));
  }

  /** A declared property that no entry writes stays null. */
  lemma UnwrittenStaysNull(shape: Shape, es: Entries, sdk: object?, p: string)
    requires Hydrate(shape, es, sdk).Ok? && p in DeclaredProperties(shape)
    requires forall j :: 0 <= j < |es| ==> Writes(shape, es[j].0) != p
    ensures p in Hydrate(shape, es, sdk).value.props
    ensures Hydrate(shape, es, sdk).value.props[p] == Plain(Null)
  {
    FillFromFrame(shape, es, sdk, 0, InitialProps(shape), p);
  }

  // ---------------------------------------------------------------------
  // Token.

  predicate UniqueNames(es: Entries) {
    forall i, j :: 0 <= i < j < |es| ==> KeyName(es[i].0) != KeyName(es[j].0)
  }

  lemma {:induction false} TokenFillFails(es: Entries, sdk: object?, i: nat, props: map<string, Field>)
    requires i <= |es|
    ensures FillFrom(TokenShape, es, sdk, i, props).Ok? <==>
      forall j :: i <= j < |es| ==> !InvalidPropertyName(KeyName(es[j].0))
    ensures FillFrom(TokenShape, es, sdk, i, props).Thrown? ==>
      FillFrom(TokenShape, es, sdk, i, props).error.PropertyError?
    decreases |es| - i
  {
    if i < |es| {
      OnlyProductRoutes(TokenShape, es[i].0);
      var r := FillOne(TokenShape, es[i].0, es[i].1, sdk, props);
      if r.Ok? {
        TokenFillFails(es, sdk, i + 1, r.value);
      }
    }
  }

  /**
   * A Token is the grant response stored as it came: hydration fails only on a
   * key PHP cannot use as a property name, and otherwise every key is a
   * property holding its value unchanged (`expires_in` included: no expiry
   * time is computed), and every declared property the response lacks is null.
   */
  lemma TokenHydration(es: Entries, sdk: object?)
    requires UniqueNames(es)
    ensures Hydrate(TokenShape, es, sdk).Ok? <==> forall j :: 0 <= j < |es| ==> !InvalidPropertyName(KeyName(es[j].0))
    ensures Hydrate(TokenShape, es, sdk).Thrown? ==> Hydrate(TokenShape, es, sdk).error.PropertyError?
    ensures Hydrate(TokenShape, es, sdk).Ok? ==>
      var h := Hydrate(TokenShape, es, sdk).value;
      h.attributes == es &&
      (forall j :: 0 <= j < |es| ==> KeyName(es[j].0) in h.props && h.props[KeyName(es[j].0)] == Plain(es[j].1)) &&
      (forall p :: p in TokenProperties && (forall j :: 0 <= j < |es| ==> KeyName(es[j].0) != p) ==> p in h.props && h.props[p] == Plain(Null))
  {
    TokenFillFails(es, sdk, 0, InitialProps(TokenShape));
    if Hydrate(TokenShape, es, sdk).Ok? {
      forall j | 0 <= j < |es|
        ensures KeyName(es[j].0) in Hydrate(TokenShape, es, sdk).value.props
        ensures Hydrate(TokenShape, es, sdk).value.props[KeyName(es[j].0)] == Plain(es[j].1)
      {
        OnlyProductRoutes(TokenShape, es[j].0);
        forall k | j < k < |es| ensures Writes(TokenShape, es[k].0) != KeyName(es[j].0) {
          OnlyProductRoutes(TokenShape, es[k].0);
        }
        PlainKeyAssigned(TokenShape, es, sdk, j);
      }
      forall p | p in TokenProperties && (forall j :: 0 <= j < |es| ==> KeyName(es[j].0) != p)
        ensures p in Hydrate(TokenShape, es, sdk).value.props
        ensures Hydrate(TokenShape, es, sdk).value.props[p] == Plain(Null)
      {
        forall j | 0 <= j < |es| ensures Writes(TokenShape, es[j].0) != p {
          OnlyProductRoutes(TokenShape, es[j].0);
        }
        UnwrittenStaysNull(TokenShape, es, sdk, p);
      }
    }
  }

  // ---------------------------------------------------------------------
  // The payload key "attributes", as the source handles it.

  /**
   * The source's own state: `$this->attributes` is a property like any other,
   * so `fill` starts from the declared properties plus `attributes`.
   */
  function AsWrittenStart(shape: Shape, es: Entries): map<string, Field> {
    InitialProps(shape)["attributes" := Plain(Arr(es))]
  }

  /** `fill` as written: entries are assigned into the same namespace as `attributes`. */
  function FillAsWritten(shape: Shape, es: Entries, sdk: object?): Outcome<map<string, Field>> {
    FillFrom(shape, es, sdk, 0, AsWrittenStart(shape, es))
  }

  /** `toArray` as written: whatever `attributes` holds after `fill`. */
  function ToArrayAsWritten(state: map<string, Field>): Option<Field> {
    if "attributes" in state then Some(state["attributes"]) else None
  }

  /**
   * A Token built from `{"attributes": "x"}` as written answers `toArray` with
   * the string "x", not with the payload.
   */
  lemma AttributesKeyReplacesPayload(es: Entries)
    requires es == [(StrKey("attributes"), Str("x"))]
    ensures FillAsWritten(TokenShape, es, null).Ok?
    ensures ToArrayAsWritten(FillAsWritten(TokenShape, es, null).value) == Some(Plain(Str("x")))
    ensures Plain(Str("x")) != Plain(Arr(es))
  {
    var start := AsWrittenStart(TokenShape, es);
    OnlyProductRoutes(TokenShape, es[0].0);
    assert KeyName(es[0].0) == "attributes";
    var next := start["attributes" := Plain(Str("x"))];
    assert FillOne(TokenShape, es[0].0, es[0].1, null, start) == Ok(next);
    assert FillFrom(TokenShape, es, null, 1, next) == Ok(next);
  }

  /** As written, `toArray` is the payload whenever no entry writes `attributes`. */
  lemma AsWrittenAgreesWithoutAttributesKey(shape: Shape, es: Entries, sdk: object?)
    requires FillAsWritten(shape, es, sdk).Ok?
    requires forall j :: 0 <= j < |es| ==> Writes(shape, es[j].0) != "attributes"
    ensures ToArrayAsWritten(FillAsWritten(shape, es, sdk).value) == Some(Plain(Arr(es)))
  {
    FillFromFrame(shape, es, sdk, 0, AsWrittenStart(shape, es), "attributes");
  }

  /** With the payload kept apart from the properties, `toArray` is always the payload. */
  lemma ToArrayIsPayload(shape: Shape, es: Entries, sdk: object?)
    requires Hydrate(shape, es, sdk).Ok?
    ensures Hydrate(shape, es, sdk).value.attributes == es
  {
  }

  // ---------------------------------------------------------------------
  // transformTags.

  /** `array_column($tags, 'name')`: the `name` of every array element that has one, in order. */
  function ColumnNames(tags: Entries): (r: seq<Value>)
    ensures |r| <= |tags|
  {
    if tags == [] then []
    else
      (if tags[0].1.Arr? && HasKey(tags[0].1.entries, StrKey("name"))
       then [Lookup(tags[0].1.entries, StrKey("name")).value] else []) + ColumnNames(tags[1..])
  }

  /** `implode($separator, $parts)` over strings. */
  function Join(parts: seq<string>, separator: string): string {
    if parts == [] then ""
    else if |parts| == 1 then parts[0]
    else parts[0] + separator + Join(parts[1..], separator)
  }

  function Stringified(vs: seq<Value>): (r: seq<string>)
    ensures |r| == |vs|
    ensures forall i :: 0 <= i < |vs| ==> r[i] == Stringify(vs[i])
  {
    if vs == [] then [] else [Stringify(vs[0])] + Stringified(vs[1..])
  }

  /**
   * `transformTags($tags, $separator)`: the tags' names joined by the
   * separator, where a falsy separator means ", ". An array separator is
   * refused by `implode`.
   */
  function TransformTags(tags: Value, separator: Value): (r: Outcome<string>)
    ensures !tags.Arr? ==> r == Thrown(TypeError)
    ensures tags.Arr? && Truthy(separator) && separator.Arr? ==> r == Thrown(TypeError)
  {
    if !tags.Arr? then Thrown(TypeError)
    else
      var sep := if Truthy(separator) then separator else Str(", ");
      if sep.Arr? then Thrown(TypeError)
      else Ok(Join(Stringified(ColumnNames(tags.entries)), Stringify(sep)))
  }

  lemma {:induction false} JoinAppend(parts: seq<string>, last: string, separator: string)
    ensures Join(parts + [last], separator) == if parts == [] then last else Join(parts, separator) + separator + last
  {
    if |parts| == 1 {
      assert parts + [last] == [parts[0], last];
    } else if |parts| > 1 {
      assert (parts + [last])[1..] == parts[1..] + [last];
      JoinAppend(parts[1..], last, separator);
    } else {
      assert parts + [last] == [last];
    }
  }

  lemma {:induction false} ColumnNamesAppend(a: Entries, b: Entries)
    ensures ColumnNames(a + b) == ColumnNames(a) + ColumnNames(b)
  {
    if a == [] {
      assert a + b == b;
    } else {
      assert (a + b)[0] == a[0] && (a + b)[1..] == a[1..] + b;
      ColumnNamesAppend(a[1..], b);
    }
  }

  /** The joined names with one more tag: its name, if it has one, after a separator. */
  lemma JoinedNamesOneMore(tags: Entries, tag: (Key, Value), sep: string)
    ensures var before := Join(Stringified(ColumnNames(tags)), sep);
      Join(Stringified(ColumnNames(tags + [tag])), sep) ==
        if tag.1.Arr? && HasKey(tag.1.entries, StrKey("name")) then
          var name := Stringify(Lookup(tag.1.entries, StrKey("name")).value);
          if ColumnNames(tags) == [] then name else before + sep + name
        else before
  {
    ColumnNamesAppend(tags, [tag]);
    assert [tag][1..] == [];
    var names := ColumnNames(tags);
    if tag.1.Arr? && HasKey(tag.1.entries, StrKey("name")) {
      var v := Lookup(tag.1.entries, StrKey("name")).value;
      assert ColumnNames([tag]) == [v];
      assert Stringified(names + [v]) == Stringified(names) + [Stringify(v)];
      JoinAppend(Stringified(names), Stringify(v), sep);
    } else {
      assert ColumnNames([tag]) == [];
      assert names + [] == names;
    }
  }

  /**
   * One more tag: a tag with a `name` adds the separator (unless it is the
   * first name) and its name; a tag without one changes nothing.
   */
  lemma TransformTagsOneMore(tags: Entries, tag: (Key, Value), separator: Value)
    requires !(Truthy(separator) && separator.Arr?)
    ensures var sep := if Truthy(separator) then Stringify(separator) else ", ";
      var before := TransformTags(Arr(tags), separator).value;
      TransformTags(Arr(tags + [tag]), separator) ==
        if tag.1.Arr? && HasKey(tag.1.entries, StrKey("name")) then
          var name := Stringify(Lookup(tag.1.entries, StrKey("name")).value);
          Ok(if ColumnNames(tags) == [] then name else before + sep + name)
        else Ok(before)
  {
    var sep := if Truthy(separator) then Stringify(separator) else ", ";
    assert TransformTags(Arr(tags), separator) == Ok(Join(Stringified(ColumnNames(tags)), sep));
    assert TransformTags(Arr(tags + [tag]), separator) == Ok(Join(Stringified(ColumnNames(tags + [tag])), sep));
    JoinedNamesOneMore(tags, tag, sep);
  }
}
