/**
 * The five measurement-request types of a product, a closed set of constants
 * `(value, name, description)`. Only the values are unique: the fifth type
 * carries the name of the fourth.
 */
module MeasurementRequests {
  import opened PhpValues

  datatype MeasurementRequest =
    | PrimaryPlusDetachedGarage
    | PrimaryStructureOnly
    | AllStructuresOnParcel
    | CommercialComplex
    | Other
  {
    /** The measurement instruction type id (an integer, whatever the field's doc comment says). */
    const value: int :=
      match this
      case PrimaryPlusDetachedGarage => 1
      case PrimaryStructureOnly => 2
      case AllStructuresOnParcel => 3
      case CommercialComplex => 4
      case Other => 5

    const name: string :=
      match this
      case PrimaryPlusDetachedGarage => "PrimaryPlusDetachedGarage"
      case PrimaryStructureOnly => "PrimaryStructureOnly"
      case AllStructuresOnParcel => "AllStructuresOnParcel"
      case CommercialComplex => "CommercialComplex"
      case Other => "CommercialComplex"

    const description: string :=
      match this
      case PrimaryPlusDetachedGarage => "Request that the primary structure and the detached garage be measured."
      case PrimaryStructureOnly => "Request that only the primary structure be measured."
      case AllStructuresOnParcel => "Request that all structures on the parcel be measured."
      case CommercialComplex => "Request that notes the structure to be measured is a commercial complex."
      case Other => "Request that does not fit any of the other measurement request types."

    /** `toArray`: exactly the keys value, name and description, each holding its field. */
    function ToArray(): (r: Entries)
      ensures |r| == 3
      ensures Lookup(r, StrKey("value")) == Some(Int(value))
      ensures Lookup(r, StrKey("name")) == Some(Str(name))
      ensures Lookup(r, StrKey("description")) == Some(Str(description))
      ensures forall k :: HasKey(r, k) <==> k in {StrKey("value"), StrKey("name"), StrKey("description")}
    {
      var r := [(StrKey("value"), Int(value)), (StrKey("name"), Str(name)), (StrKey("description"), Str(description))];
      assert r[0].0 == StrKey("value") && r[1].0 == StrKey("name") && r[2].0 == StrKey("description");
      assert Lookup(r[2..], StrKey("description")) == Some(Str(description));
      assert r[1..][1..] == r[2..];
      r
    }
  }

  /** The instances `fillMeasurementInstructionTypesAttribute` scans, in its order. */
  const All: seq<MeasurementRequest> :=
    [PrimaryPlusDetachedGarage, PrimaryStructureOnly, AllStructuresOnParcel, CommercialComplex, Other]

  /** The type whose value is `id`, if any. */
  function FromValue(id: int): (r: Option<MeasurementRequest>)
    ensures r.Some? <==> 1 <= id <= 5
    ensures r.Some? ==> r.value.value == id
  {
    if 1 <= id <= 5 then Some(All[id - 1]) else None
  }

  /** Every type is in the scanned list, once, at the position its value gives. */
  lemma AllIsComplete(m: MeasurementRequest)
    ensures m in All && All[m.value - 1] == m
    ensures forall i :: 0 <= i < |All| && All[i] == m ==> i == m.value - 1
  {
  }

  /** Values identify the type: `FromValue` inverts `value`. */
  lemma FromValueInverts(m: MeasurementRequest)
    ensures FromValue(m.value) == Some(m)
  {
  }

  /** Names do not identify the type. */
  lemma NamesAreNotUnique()
    ensures Other.name == CommercialComplex.name && Other != CommercialComplex
  {
  }

  lemma PrimaryPlusDetachedGarageConstants()
    ensures PrimaryPlusDetachedGarage.ToArray() ==
      [(StrKey("value"), Int(1)), (StrKey("name"), Str("PrimaryPlusDetachedGarage")),
       (StrKey("description"), Str("Request that the primary structure and the detached garage be measured."))]
    ensures FromValue(1) == Some(PrimaryPlusDetachedGarage)
  {
  }

  lemma PrimaryStructureOnlyConstants()
    ensures PrimaryStructureOnly.ToArray() ==
      [(StrKey("value"), Int(2)), (StrKey("name"), Str("PrimaryStructureOnly")),
       (StrKey("description"), Str("Request that only the primary structure be measured."))]
    ensures FromValue(2) == Some(PrimaryStructureOnly)
  {
  }

  lemma AllStructuresOnParcelConstants()
    ensures AllStructuresOnParcel.ToArray() ==
      [(StrKey("value"), Int(3)), (StrKey("name"), Str("AllStructuresOnParcel")),
       (StrKey("description"), Str("Request that all structures on the parcel be measured."))]
    ensures FromValue(3) == Some(AllStructuresOnParcel)
  {
  }

  lemma CommercialComplexConstants()
    ensures CommercialComplex.ToArray() ==
      [(StrKey("value"), Int(4)), (StrKey("name"), Str("CommercialComplex")),
       (StrKey("description"), Str("Request that notes the structure to be measured is a commercial complex."))]
    ensures FromValue(4) == Some(CommercialComplex)
  {
  }

  lemma OtherConstants()
    ensures Other.ToArray() ==
      [(StrKey("value"), Int(5)), (StrKey("name"), Str("CommercialComplex")),
       (StrKey("description"), Str("Request that does not fit any of the other measurement request types."))]
    ensures FromValue(5) == Some(Other)
  {
  }
}
