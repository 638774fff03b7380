/**
 * A resource object as the SDK builds one: the payload is stored, every
 * declared property starts null, and `fill` walks the payload entry by entry,
 * handing each value to its custom fill method or assigning it to the
 * property the key names. Each method is proved against the value-level
 * specification in module Resources: `Fill` computes `FillFrom`, one entry
 * computes `FillOne`, so everything proved there about hydration holds of
 * the object.
 */
module ResourceObjects {
  import opened PhpValues
  import opened Errors
  import opened MeasurementRequests
  import opened FillMethodNames
  import opened Resources

  class Resource {
    /** The resource class. */
    const shape: Shape
    /** `$this->attributes`: the payload, as it came. */
    const attributes: Entries
    /** `$this->eagleView`: the SDK instance, if any. */
    const sdk: object?
    /** Every other property, by name. */
    var props: map<string, Field>

    /** A Product's measurement property only ever holds null or a list of request types. */
    predicate Valid()
      reads this
    {
      shape == ProductShape ==> NullOrRequests(CurrentField(props, MeasurementProperty))
    }

    /** The constructor's assignments: payload and SDK stored, declared properties null. */
    constructor (shape: Shape, attributes: Entries, sdk: object?)
      ensures this.shape == shape && this.attributes == attributes && this.sdk == sdk
      ensures props == InitialProps(shape)
      ensures Valid()
    {
      this.shape := shape;
      this.attributes := attributes;
      this.sdk := sdk;
      props := InitialProps(shape);
    }

    /**
     * `new $class($attributes, $eagleView)`: construct, then fill. An
     * exception thrown while filling escapes and no object is returned.
     */
    static method New(shape: Shape, attributes: Entries, sdk: object?) returns (r: Outcome<Resource>)
      ensures r.Ok? <==> Hydrate(shape, attributes, sdk).Ok?
      ensures r.Thrown? ==> r.error == Hydrate(shape, attributes, sdk).error
      ensures r.Ok? ==> fresh(r.value) && r.value.Valid()
      ensures r.Ok? ==> r.value.shape == shape && r.value.sdk == sdk && r.value.ToArray() == attributes
      ensures r.Ok? ==> r.value.props == Hydrate(shape, attributes, sdk).value.props
    {
      var resource := new Resource(shape, attributes, sdk);
      var err := resource.Fill();
      if err.Some? {
        return Thrown(err.value);
      }
      return Ok(resource);
    }

    /** `toArray`: the payload the resource was built from. */
    function ToArray(): Entries
      reads this
    {
      attributes
    }

    /** `fill`: every entry in order; the first exception ends the loop. */
    method Fill() returns (err: Option<Error>)
      requires Valid()
      modifies this
      ensures Valid()
      ensures FillFrom(shape, attributes, sdk, 0, old(props)) == if err.None? then Ok(props) else Thrown(err.value)
    {
      var i := 0;
      while i < |attributes|
        invariant 0 <= i <= |attributes|
        invariant Valid()
        invariant FillFrom(shape, attributes, sdk, 0, old(props)) == FillFrom(shape, attributes, sdk, i, props)
      {
        FillFromStep(shape, attributes, sdk, i, props);
        var e := FillEntry(attributes[i].0, attributes[i].1);
        if e.Some? {
          return e;
        }
        i := i + 1;
      }
      assert FillFrom(shape, attributes, sdk, i, props) == Ok(props);
      return None;
    }

    /**
     * One iteration of `fill`: when a method named like the key's fill method
     * exists it receives the value, otherwise `$this->{$key} = $value`.
     */
    method FillEntry(key: Key, value: Value) returns (err: Option<Error>)
      requires Valid()
      modifies this
      ensures Valid()
      ensures FillOne(shape, key, value, sdk, old(props)) == if err.None? then Ok(props) else Thrown(err.value)
    {
      var before := props;
      FillOnePreservesValid(shape, key, value, sdk, before);
      MethodForIsTransformFor(shape, key);
      var customFill := MethodFor(shape, key);
      match customFill
      case None =>
        assert FillOne(shape, key, value, sdk, before) == AssignProperty(before, KeyName(key), value);
        err := SetProperty(KeyName(key), value);
      case Some(t) =>
        if t == FillMeasurementInstructionTypes {
          FillOneMeasurement(key, value, sdk, before);
          err := FillMeasurementInstructionTypesAttribute(value);
        } else {
          if value.Arr? {
            HydrateItemsIsTransformCollection(ProductShape, value.entries, sdk, 0);
            assert FillOne(shape, key, value, sdk, before) ==
              match TransformCollection(ProductShape, value.entries, [], sdk)
              case Ok(products) => Ok(before[t.property := Products(products)])
              case Thrown(e) => Thrown(e);
          }
          err := FillProductsAttribute(t, value);
        }
    }

    /** `$this->{$name} = $value`. */
    method SetProperty(name: string, value: Value) returns (err: Option<Error>)
      modifies this
      ensures AssignProperty(old(props), name, value) == if err.None? then Ok(props) else Thrown(err.value)
      ensures err.Some? ==> props == old(props)
    {
      if InvalidPropertyName(name) {
        return Some(PropertyError(name));
      }
      props := props[name := Plain(value)];
      return None;
    }

    /**
     * `fillDeliveryProductsAttribute(array $deliveryProducts = [])` and
     * `fillAddOnProductsAttribute(array $addOnProducts = [])`: the property
     * becomes `transformCollection($value, Product::class)`. A value that is
     * not an array is refused by the parameter's type.
     */
    method FillProductsAttribute(t: Transform, value: Value) returns (err: Option<Error>)
      requires t != FillMeasurementInstructionTypes
      modifies this
      ensures !value.Arr? ==> err == Some(TypeError) && props == old(props)
      ensures value.Arr? ==>
        match TransformCollection(ProductShape, value.entries, [], sdk)
        case Ok(products) => err.None? && props == old(props)[t.property := Products(products)]
        case Thrown(e) => err == Some(e) && props == old(props)
    {
      if !value.Arr? {
        return Some(TypeError);
      }
      match TransformCollection(ProductShape, value.entries, [], sdk)
      case Ok(products) =>
        props := props[t.property := Products(products)];
        return None;
      case Thrown(e) =>
        return Some(e);
    }

    /**
     * `fillMeasurementInstructionTypesAttribute(array $ids = [])`: for each id
     * in order, every request type whose value loosely equals it is appended
     * to the property.
     */
    method FillMeasurementInstructionTypesAttribute(value: Value) returns (err: Option<Error>)
      requires shape == ProductShape && Valid()
      modifies this
      ensures Valid()
      ensures !value.Arr? ==> err == Some(TypeError) && props == old(props)
      ensures value.Arr? ==> err.None? && props == WithRequests(old(props), MatchingRequests(value.entries))
    {
      if !value.Arr? {
        return Some(TypeError);
      }
      var ids := value.entries;
      ghost var appended := [];
      var i := 0;
      while i < |ids|
        invariant 0 <= i <= |ids|
        invariant appended == MatchingRequests(ids[..i])
        invariant props == WithRequests(old(props), appended)
      {
        MatchingRequestsStep(ids, i);
        WithRequestsTwice(old(props), appended, MatchesIn(ids[i].1, All));
        AppendMatches(ids[i].1);
        appended := appended + MatchesIn(ids[i].1, All);
        i := i + 1;
      }
      assert ids[..|ids|] == ids;
      err := None;
    }

    /** The inner loop: every request type whose value loosely equals `id` is appended, in table order. */
    method AppendMatches(id: Value)
      requires shape == ProductShape && Valid()
      modifies this
      ensures Valid()
      ensures props == WithRequests(old(props), MatchesIn(id, All))
    {
      var measurementRequests := All;
      ghost var found := [];
      var j := 0;
      assert All[..0] == [];
      while j < |measurementRequests|
        invariant 0 <= j <= |measurementRequests|
        invariant found == MatchesIn(id, All[..j])
        invariant props == WithRequests(old(props), found)
      {
        var m := measurementRequests[j];
        MatchesInStep(id, All, j);
        WithRequestsTwice(old(props), found, Matching(id, m));
        if LooseEqualsInt(id, m.value) {
          AppendOneRequest(props, m);
          var current := CurrentField(props, MeasurementProperty);
          props := props[MeasurementProperty := if current.Requests? then Requests(current.requests + [m]) else Requests([m])];
        } else {
          assert found + Matching(id, m) == found;
        }
        found := found + Matching(id, m);
        j := j + 1;
      }
      assert All[..|All|] == All;
    }
  }
}
