/** The waste-listing schema: the stored record with its enums and defaults,
    and the validation that turns an input document into a stored listing. */
module WasteModel {
  import opened Wrappers
  import opened Schema

  datatype WasteType = Straw | Husk | Leaves | Stalks | Other

  const WasteTypeNames: seq<string> := ["straw", "husk", "leaves", "stalks", "other"]

  function WasteTypeName(w: WasteType): string
  {
    match w
    case Straw => "straw"
    case Husk => "husk"
    case Leaves => "leaves"
    case Stalks => "stalks"
    case Other => "other"
  }

  /** The enum value a stored string stands for, if it is one. */
  function ParseWasteType(s: string): (r: Option<WasteType>)
    ensures r.Some? <==> s in WasteTypeNames
    ensures r.Some? ==> WasteTypeName(r.value) == s
  {
    match s
    case "straw" => Some(Straw)
    case "husk" => Some(Husk)
    case "leaves" => Some(Leaves)
    case "stalks" => Some(Stalks)
    case "other" => Some(Other)
    case _ => None
  }

  datatype Unit = Kg | Ton | Quintal

  const UnitNames: seq<string> := ["kg", "ton", "quintal"]

  function UnitName(u: Unit): string
  {
    match u
    case Kg => "kg"
    case Ton => "ton"
    case Quintal => "quintal"
  }

  function ParseUnit(s: string): (r: Option<Unit>)
    ensures r.Some? <==> s in UnitNames
    ensures r.Some? ==> UnitName(r.value) == s
  {
    match s
    case "kg" => Some(Kg)
    case "ton" => Some(Ton)
    case "quintal" => Some(Quintal)
    case _ => None
  }

  datatype Status = Available | Booked | Sold | Cancelled

  const StatusNames: seq<string> := ["available", "booked", "sold", "cancelled"]

  function StatusName(s: Status): string
  {
    match s
    case Available => "available"
    case Booked => "booked"
    case Sold => "sold"
    case Cancelled => "cancelled"
  }

  function ParseStatus(s: string): (r: Option<Status>)
    ensures r.Some? <==> s in StatusNames
    ensures r.Some? ==> StatusName(r.value) == s
  {
    match s
    case "available" => Some(Available)
    case "booked" => Some(Booked)
    case "sold" => Some(Sold)
    case "cancelled" => Some(Cancelled)
    case _ => None
  }

  const DefaultStatus: Status := Available
  const DefaultLocationType: string := "Point"

  /** The stored location: a GeoJSON-style point with a free-form address. */
  datatype Location = Location(
    kind: string,
    coordinates: seq<real>,
    address: Option<string>,
    district: Option<string>,
    state: Option<string>,
    pincode: Option<string>)

  /** A stored listing. Creation and update timestamps are not modelled. */
  datatype Listing = Listing(
    id: ObjectId,
    seller: ObjectId,
    cropType: string,
    wasteType: WasteType,
    quantity: real,
    unit: Unit,
    price: real,
    availableFrom: int,
    location: Location,
    images: seq<string>,
    status: Status,
    description: Option<string>)

  /** The location part of an input document; absent fields are `None`. */
  datatype LocationInput = LocationInput(
    kind: Option<string>,
    coordinates: Option<seq<real>>,
    address: Option<string>,
    district: Option<string>,
    state: Option<string>,
    pincode: Option<string>)

  /** A document handed to the store for creation. */
  datatype ListingInput = ListingInput(
    seller: Option<ObjectId>,
    cropType: Option<string>,
    wasteType: Option<string>,
    quantity: Option<real>,
    unit: Option<string>,
    price: Option<real>,
    availableFrom: Option<int>,
    location: LocationInput,
    images: Option<seq<string>>,
    status: Option<string>,
    description: Option<string>)

  /** What the schema demands of a stored listing beyond its field types: the
      required crop type is a non-empty string. Quantity and price have no bound. */
  predicate ValidListing(l: Listing)
  {
    l.cropType != ""
  }

  /** The status after the default is applied to an absent value. */
  function StatusOrDefault(status: Option<string>): (r: string)
    ensures status.Some? ==> r == status.value
    ensures status.None? ==> r == "available" && r in StatusNames
  {
    if status.Some? then status.value else StatusName(DefaultStatus)
  }

  /** The paths of the listing schema that carry validators. */
  const ListingPaths: set<string> :=
    {"seller", "cropType", "wasteType", "quantity", "unit", "price", "availableFrom", "location.coordinates", "status"}

  /** Every failing path of an input document, one error per path: there are
      none exactly when every required path is present, the crop type is a
      non-empty string, and waste type, unit and status (after its default)
      are in their enums. */
  function ListingErrors(d: ListingInput): (errs: seq<FieldError>)
    ensures forall e :: e in errs ==> e.path in ListingPaths
    ensures errs == [] <==>
      && d.seller.Some? && d.cropType.Some? && d.cropType.value != ""
      && d.wasteType.Some? && d.wasteType.value in WasteTypeNames
      && d.quantity.Some? && d.unit.Some? && d.unit.value in UnitNames
      && d.price.Some? && d.availableFrom.Some? && d.location.coordinates.Some?
      && StatusOrDefault(d.status) in StatusNames
  {
    var e1 := CheckPresent("seller", d.seller, RequiredMessage("seller"));
    var e2 := CheckString("cropType", d.cropType, Some("Please specify the crop type"), None);
    var e3 := CheckString("wasteType", d.wasteType, Some("Please specify the waste type"), Some(WasteTypeNames));
    var e4 := CheckPresent("quantity", d.quantity, "Please specify the quantity");
    var e5 := CheckString("unit", d.unit, Some("Please specify the unit"), Some(UnitNames));
    var e6 := CheckPresent("price", d.price, "Please specify the price per unit");
    var e7 := CheckPresent("availableFrom", d.availableFrom, "Please specify availability date");
    var e8 := CheckPresent("location.coordinates", d.location.coordinates, "Please specify location coordinates");
    var e9 := CheckString("status", Some(StatusOrDefault(d.status)), None, Some(StatusNames));
    EnumNamesNonEmpty();
    var errs := e1 + e2 + e3 + e4 + e5 + e6 + e7 + e8 + e9;
    assert |errs| == |e1| + |e2| + |e3| + |e4| + |e5| + |e6| + |e7| + |e8| + |e9|;
    assert forall e :: e in errs ==> e in e1 || e in e2 || e in e3 || e in e4 || e in e5 || e in e6 || e in e7 || e in e8 || e in e9;
    errs
  }

  /** No waste type or unit is named by the empty string, so a
      required-and-enum check of those paths fails with one message only. */
  lemma EnumNamesNonEmpty()
    ensures "" !in WasteTypeNames && "" !in UnitNames
  {
    assert forall i :: 0 <= i < |WasteTypeNames| ==> |WasteTypeNames[i]| > 0;
    assert forall i :: 0 <= i < |UnitNames| ==> |UnitNames[i]| > 0;
  }

  /** Creating a listing from a document: defaults are applied, and the
      document is stored only when no path fails validation. */
  function CreateListing(d: ListingInput, id: ObjectId): (r: Result<Listing, seq<FieldError>>)
    ensures r.Ok? <==> ListingErrors(d) == []
    ensures r.Err? ==> r.error == ListingErrors(d)
    ensures r.Ok? ==> ValidListing(r.value) && r.value.id == id
    ensures r.Ok? ==> d.status.None? ==> r.value.status == Available
    ensures r.Ok? ==> d.location.kind.None? ==> r.value.location.kind == "Point"
    ensures r.Ok? ==> d.images.None? ==> r.value.images == []
    ensures r.Ok? ==>
      && r.value.seller == d.seller.value && r.value.cropType == d.cropType.value
      && WasteTypeName(r.value.wasteType) == d.wasteType.value && r.value.quantity == d.quantity.value
      && UnitName(r.value.unit) == d.unit.value && r.value.price == d.price.value
      && r.value.availableFrom == d.availableFrom.value && r.value.description == d.description
    ensures r.Ok? ==>
      && r.value.location.coordinates == d.location.coordinates.value
      && r.value.location.address == d.location.address && r.value.location.district == d.location.district
      && r.value.location.state == d.location.state && r.value.location.pincode == d.location.pincode
      && (d.location.kind.Some? ==> r.value.location.kind == d.location.kind.value)
      && (d.images.Some? ==> r.value.images == d.images.value)
      && StatusName(r.value.status) == StatusOrDefault(d.status)
  {
    var errs := ListingErrors(d);
    if errs != [] then Err(errs)
    else
      var loc := d.location;
      Ok(Listing(
        id, d.seller.value, d.cropType.value,
        ParseWasteType(d.wasteType.value).value,
        d.quantity.value,
        ParseUnit(d.unit.value).value,
        d.price.value, d.availableFrom.value,
        Location(if loc.kind.Some? then loc.kind.value else DefaultLocationType,
                 loc.coordinates.value, loc.address, loc.district, loc.state, loc.pincode),
        if d.images.Some? then d.images.value else [],
        ParseStatus(StatusOrDefault(d.status)).value,
        d.description))
  }

  /** The document that describes a stored listing field for field. */
  function ToInput(l: Listing): ListingInput
  {
    ListingInput(
      Some(l.seller), Some(l.cropType), Some(WasteTypeName(l.wasteType)), Some(l.quantity),
      Some(UnitName(l.unit)), Some(l.price), Some(l.availableFrom),
      LocationInput(Some(l.location.kind), Some(l.location.coordinates), l.location.address,
                    l.location.district, l.location.state, l.location.pincode),
      Some(l.images), Some(StatusName(l.status)), l.description)
  }

  /** Every valid listing is what creating it from its own document stores:
      validation admits exactly the valid listings. */
  lemma ListingRoundTrip(l: Listing)
    requires ValidListing(l)
    ensures CreateListing(ToInput(l), l.id) == Ok(l)
  {
    var d := ToInput(l);
    assert ParseWasteType(WasteTypeName(l.wasteType)) == Some(l.wasteType) by { WasteTypeNamesParse(l.wasteType); }
    assert ParseUnit(UnitName(l.unit)) == Some(l.unit) by { UnitNamesParse(l.unit); }
    assert ParseStatus(StatusName(l.status)) == Some(l.status) by { StatusNamesParse(l.status); }
    assert ListingErrors(d) == [];
  }

  lemma WasteTypeNamesParse(w: WasteType)
    ensures WasteTypeName(w) in WasteTypeNames && ParseWasteType(WasteTypeName(w)) == Some(w)
  {
  }

  lemma UnitNamesParse(u: Unit)
    ensures UnitName(u) in UnitNames && ParseUnit(UnitName(u)) == Some(u)
  {
  }

  lemma StatusNamesParse(s: Status)
    ensures StatusName(s) in StatusNames && ParseStatus(StatusName(s)) == Some(s)
  {
  }

  /** Seller, crop type, waste type, quantity, unit, price, availability date
      and coordinates are required: a document missing any one is rejected,
      and the error names that path. */
  lemma RequiredFieldsEnforced(d: ListingInput, id: ObjectId)
    requires d.seller.None? || d.cropType.None? || d.wasteType.None? || d.quantity.None?
          || d.unit.None? || d.price.None? || d.availableFrom.None? || d.location.coordinates.None?
    ensures CreateListing(d, id).Err?
    ensures d.seller.None? ==> FieldError("seller", RequiredMessage("seller")) in CreateListing(d, id).error
    ensures d.cropType.None? ==> FieldError("cropType", "Please specify the crop type") in CreateListing(d, id).error
    ensures d.wasteType.None? ==> FieldError("wasteType", "Please specify the waste type") in CreateListing(d, id).error
    ensures d.quantity.None? ==> FieldError("quantity", "Please specify the quantity") in CreateListing(d, id).error
    ensures d.unit.None? ==> FieldError("unit", "Please specify the unit") in CreateListing(d, id).error
    ensures d.price.None? ==> FieldError("price", "Please specify the price per unit") in CreateListing(d, id).error
    ensures d.availableFrom.None? ==> FieldError("availableFrom", "Please specify availability date") in CreateListing(d, id).error
    ensures d.location.coordinates.None? ==>
      FieldError("location.coordinates", "Please specify location coordinates") in CreateListing(d, id).error
  {
    var e1 := CheckPresent("seller", d.seller, RequiredMessage("seller"));
    var e2 := CheckString("cropType", d.cropType, Some("Please specify the crop type"), None);
    var e3 := CheckString("wasteType", d.wasteType, Some("Please specify the waste type"), Some(WasteTypeNames));
    var e4 := CheckPresent("quantity", d.quantity, "Please specify the quantity");
    var e5 := CheckString("unit", d.unit, Some("Please specify the unit"), Some(UnitNames));
    var e6 := CheckPresent("price", d.price, "Please specify the price per unit");
    var e7 := CheckPresent("availableFrom", d.availableFrom, "Please specify availability date");
    var e8 := CheckPresent("location.coordinates", d.location.coordinates, "Please specify location coordinates");
    var e9 := CheckString("status", Some(StatusOrDefault(d.status)), None, Some(StatusNames));
    var errs := ListingErrors(d);
    assert errs == e1 + e2 + e3 + e4 + e5 + e6 + e7 + e8 + e9;
    assert forall e :: e in e1 || e in e2 || e in e3 || e in e4 || e in e5 || e in e6 || e in e7 || e in e8 ==> e in errs;
  }

  /** Waste type, unit and status are closed enums: a present value outside
      its list is rejected with the enum message for that path. */
  lemma EnumsEnforced(d: ListingInput, id: ObjectId)
    requires (d.wasteType.Some? && d.wasteType.value != "" && d.wasteType.value !in WasteTypeNames)
          || (d.unit.Some? && d.unit.value != "" && d.unit.value !in UnitNames)
          || (d.status.Some? && d.status.value !in StatusNames)
    ensures CreateListing(d, id).Err?
    ensures d.wasteType.Some? && d.wasteType.value != "" && d.wasteType.value !in WasteTypeNames ==>
      FieldError("wasteType", EnumMessage("wasteType", d.wasteType.value)) in CreateListing(d, id).error
    ensures d.unit.Some? && d.unit.value != "" && d.unit.value !in UnitNames ==>
      FieldError("unit", EnumMessage("unit", d.unit.value)) in CreateListing(d, id).error
    ensures d.status.Some? && d.status.value !in StatusNames ==>
      FieldError("status", EnumMessage("status", d.status.value)) in CreateListing(d, id).error
  {
  }

  /** A listing with a negative quantity and a negative price is accepted:
      the schema puts no lower bound on either. */
  lemma NegativeQuantityAndPriceAccepted()
    ensures var d := ListingInput(
              Some(1), Some("rice"), Some("straw"), Some(-5.0), Some("kg"), Some(-2.0), Some(0),
              LocationInput(None, Some([77.0, 28.0]), None, None, None, None), None, None, None);
            CreateListing(d, 0).Ok? && CreateListing(d, 0).value.quantity < 0.0
            && CreateListing(d, 0).value.price < 0.0
  {
  }
}
