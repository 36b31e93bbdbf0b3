/** The user schema: the stored record, its role enum, the details that are
    required only for one role, the `trim`/`lowercase` setters, the defaults,
    and the unique indexes on the identity-provider id and the email. */
module UserModel {
  import opened Wrappers
  import opened Schema
  import Strings

  datatype Role = Farmer | Buyer

  const RoleNames: seq<string> := ["farmer", "buyer"]

  function RoleName(r: Role): string
  {
    match r
    case Farmer => "farmer"
    case Buyer => "buyer"
  }

  function ParseRole(s: string): (r: Option<Role>)
    ensures r.Some? <==> s in RoleNames
    ensures r.Some? ==> RoleName(r.value) == s
  {
    match s
    case "farmer" => Some(Farmer)
    case "buyer" => Some(Buyer)
    case _ => None
  }

  datatype UserLocation = UserLocation(address: Option<string>, city: Option<string>, state: Option<string>, pincode: Option<string>)

  datatype FarmDetails = FarmDetails(farmSize: Option<real>, primaryCrops: seq<string>, farmAddress: Option<string>)

  datatype BusinessDetails = BusinessDetails(companyName: Option<string>, businessType: Option<string>, gstNumber: Option<string>)

  /** A document handed to the store for creation; absent fields are `None`. */
  datatype UserInput = UserInput(
    auth0Id: Option<string>,
    name: Option<string>,
    email: Option<string>,
    role: Option<string>,
    phone: Option<string>,
    location: Option<UserLocation>,
    farmDetails: Option<FarmDetails>,
    businessDetails: Option<BusinessDetails>,
    isVerified: Option<bool>,
    active: Option<bool>)

  /** A stored user. Creation and update timestamps are not modelled. */
  datatype User = User(
    id: ObjectId,
    auth0Id: string,
    name: string,
    email: string,
    role: Role,
    phone: string,
    location: Option<UserLocation>,
    farmDetails: Option<FarmDetails>,
    businessDetails: Option<BusinessDetails>,
    isVerified: bool,
    active: bool)

  const DefaultIsVerified: bool := false
  const DefaultActive: bool := true

  /** What the schema demands of a stored user: the required strings are
      non-empty, the name is trimmed, the email is lower case, a farmer has
      farm details and a buyer has business details. */
  predicate ValidUser(u: User)
  {
    && u.auth0Id != "" && u.name != "" && u.email != "" && u.phone != ""
    && Strings.Trim(u.name) == u.name
    && Strings.ToLower(u.email) == u.email
    && (u.role == Farmer ==> u.farmDetails.Some?)
    && (u.role == Buyer ==> u.businessDetails.Some?)
  }

  /** The `trim` setter, applied when the name is assigned. */
  function SetName(name: Option<string>): (r: Option<string>)
    ensures r.Some? <==> name.Some?
    ensures r.Some? ==> Strings.Trim(r.value) == r.value
  {
    if name.Some? then
      Strings.TrimIdempotent(name.value);
      Some(Strings.Trim(name.value))
    else None
  }

  /** The `lowercase` setter, applied when the email is assigned. */
  function SetEmail(email: Option<string>): (r: Option<string>)
    ensures r.Some? <==> email.Some?
    ensures r.Some? ==> |r.value| == |email.value| && Strings.ToLower(r.value) == r.value
  {
    if email.Some? then
      Strings.ToLowerIdempotent(email.value);
      Some(Strings.ToLower(email.value))
    else None
  }

  const FarmDetailsMessage: string := "Farm details are required for farmers"
  const BusinessDetailsMessage: string := "Business details are required for buyers"

  /** The farm-details path is required when the role is `farmer`. */
  function FarmDetailsErrors(d: UserInput): (errs: seq<FieldError>)
    ensures errs != [] <==> d.role == Some("farmer") && d.farmDetails.None?
    ensures errs != [] ==> errs == [FieldError("farmDetails", FarmDetailsMessage)]
  {
    if d.role == Some("farmer") then CheckPresent("farmDetails", d.farmDetails, FarmDetailsMessage) else []
  }

  /** The business-details path is required when the role is `buyer`. */
  function BusinessDetailsErrors(d: UserInput): (errs: seq<FieldError>)
    ensures errs != [] <==> d.role == Some("buyer") && d.businessDetails.None?
    ensures errs != [] ==> errs == [FieldError("businessDetails", BusinessDetailsMessage)]
  {
    if d.role == Some("buyer") then CheckPresent("businessDetails", d.businessDetails, BusinessDetailsMessage) else []
  }

  /** The paths of the user schema that carry validators. */
  const UserPaths: set<string> := {"auth0Id", "name", "email", "role", "phone", "farmDetails", "businessDetails"}

  /** A document the user schema accepts: the required strings are present
      and non-empty (the name after trimming), the role is in the enum, and
      the details its role needs are present. */
  predicate Acceptable(d: UserInput)
  {
    && d.auth0Id.Some? && d.auth0Id.value != ""
    && d.name.Some? && Strings.Trim(d.name.value) != ""
    && d.email.Some? && d.email.value != ""
    && d.role.Some? && d.role.value in RoleNames
    && d.phone.Some? && d.phone.value != ""
    && (d.role == Some("farmer") ==> d.farmDetails.Some?)
    && (d.role == Some("buyer") ==> d.businessDetails.Some?)
  }

  /** Every failing path of an input document after the setters ran, one
      error per path; there are none exactly for an acceptable document. */
  function UserErrors(d: UserInput): (errs: seq<FieldError>)
    ensures forall e :: e in errs ==> e.path in UserPaths
    ensures errs == [] <==> Acceptable(d)
  {
    assert d.email.Some? ==> |Strings.ToLower(d.email.value)| == |d.email.value|;
    CheckString("auth0Id", d.auth0Id, Some(RequiredMessage("auth0Id")), None)
    + CheckString("name", SetName(d.name), Some("Please provide your name"), None)
    + CheckString("email", SetEmail(d.email), Some("Please provide your email"), None)
    + CheckString("role", d.role, Some("Please specify user role"), Some(RoleNames))
    + CheckString("phone", d.phone, Some("Please provide your phone number"), None)
    + FarmDetailsErrors(d)
    + BusinessDetailsErrors(d)
  }

  /** Casting a document into a user: setters and defaults applied, and a
      user produced only when no path fails validation. */
  function CastUser(d: UserInput, id: ObjectId): (r: Result<User, seq<FieldError>>)
    ensures r.Ok? <==> UserErrors(d) == []
    ensures r.Err? ==> r.error == UserErrors(d)
    ensures r.Ok? ==> ValidUser(r.value) && r.value.id == id
    ensures r.Ok? ==> r.value.auth0Id == d.auth0Id.value && r.value.phone == d.phone.value
    ensures r.Ok? ==> r.value.name == Strings.Trim(d.name.value) && r.value.email == Strings.ToLower(d.email.value)
    ensures r.Ok? ==> Some(RoleName(r.value.role)) == d.role
    ensures r.Ok? ==> r.value.isVerified == (if d.isVerified.Some? then d.isVerified.value else false)
    ensures r.Ok? ==> r.value.active == (if d.active.Some? then d.active.value else true)
    ensures r.Ok? ==>
      r.value.location == d.location && r.value.farmDetails == d.farmDetails && r.value.businessDetails == d.businessDetails
  {
    var errs := UserErrors(d);
    if errs != [] then Err(errs)
    else
      Strings.TrimIdempotent(d.name.value);
      Strings.ToLowerIdempotent(d.email.value);
      Ok(User(
        id, d.auth0Id.value, SetName(d.name).value, SetEmail(d.email).value,
        ParseRole(d.role.value).value, d.phone.value, d.location, d.farmDetails, d.businessDetails,
        if d.isVerified.Some? then d.isVerified.value else DefaultIsVerified,
        if d.active.Some? then d.active.value else DefaultActive))
  }

  /** The document that describes a stored user field for field. */
  function ToInput(u: User): UserInput
  {
    UserInput(Some(u.auth0Id), Some(u.name), Some(u.email), Some(RoleName(u.role)), Some(u.phone),
              u.location, u.farmDetails, u.businessDetails, Some(u.isVerified), Some(u.active))
  }

  /** Every valid user is what casting its own document gives: validation
      admits exactly the valid users. */
  lemma UserRoundTrip(u: User)
    requires ValidUser(u)
    ensures CastUser(ToInput(u), u.id) == Ok(u)
  {
    var d := ToInput(u);
    assert u.role == Farmer || u.role == Buyer;
    assert ParseRole(RoleName(u.role)) == Some(u.role);
    assert Acceptable(d);
    var c := CastUser(d, u.id).value;
    assert c.role == u.role;
  }

  /** Farm details are required exactly when the role is `farmer`. */
  lemma FarmDetailsRequiredExactlyForFarmers(d: UserInput)
    ensures FieldError("farmDetails", FarmDetailsMessage) in UserErrors(d)
        <==> d.role == Some("farmer") && d.farmDetails.None?
  {
    var rest := CheckString("auth0Id", d.auth0Id, Some(RequiredMessage("auth0Id")), None)
      + CheckString("name", SetName(d.name), Some("Please provide your name"), None)
      + CheckString("email", SetEmail(d.email), Some("Please provide your email"), None)
      + CheckString("role", d.role, Some("Please specify user role"), Some(RoleNames))
      + CheckString("phone", d.phone, Some("Please provide your phone number"), None);
    assert UserErrors(d) == rest + FarmDetailsErrors(d) + BusinessDetailsErrors(d);
    assert forall e :: e in rest ==> e.path != "farmDetails";
    assert forall e :: e in BusinessDetailsErrors(d) ==> e.path != "farmDetails";
  }

  /** Business details are required exactly when the role is `buyer`. */
  lemma BusinessDetailsRequiredExactlyForBuyers(d: UserInput)
    ensures FieldError("businessDetails", BusinessDetailsMessage) in UserErrors(d)
        <==> d.role == Some("buyer") && d.businessDetails.None?
  {
    var rest := CheckString("auth0Id", d.auth0Id, Some(RequiredMessage("auth0Id")), None)
      + CheckString("name", SetName(d.name), Some("Please provide your name"), None)
      + CheckString("email", SetEmail(d.email), Some("Please provide your email"), None)
      + CheckString("role", d.role, Some("Please specify user role"), Some(RoleNames))
      + CheckString("phone", d.phone, Some("Please provide your phone number"), None);
    assert UserErrors(d) == rest + FarmDetailsErrors(d) + BusinessDetailsErrors(d);
    assert forall e :: e in rest ==> e.path != "businessDetails";
    assert forall e :: e in FarmDetailsErrors(d) ==> e.path != "businessDetails";
  }

  /** Only `farmer` and `buyer` are roles: any other non-empty role is rejected
      with the enum message. */
  lemma RoleIsClosedEnum(d: UserInput, id: ObjectId)
    requires d.role.Some? && d.role.value != "" && d.role.value !in RoleNames
    ensures CastUser(d, id).Err?
    ensures FieldError("role", EnumMessage("role", d.role.value)) in CastUser(d, id).error
  {
  }

  /** A name of nothing but whitespace is trimmed to the empty string and so
      fails the required check. */
  lemma BlankNameRejected(d: UserInput, id: ObjectId)
    requires d.name.Some? && forall i :: 0 <= i < |d.name.value| ==> Strings.IsJsWhitespace(d.name.value[i])
    ensures FieldError("name", "Please provide your name") in CastUser(d, id).error
  {
    assert Strings.TrimStart(d.name.value) == [];
  }

  /** No two stored users share an identity-provider id or an email. */
  predicate UniqueKeys(users: seq<User>)
  {
    forall i, j :: 0 <= i < j < |users| ==>
      users[i].auth0Id != users[j].auth0Id && users[i].email != users[j].email
  }

  /** Why the store refuses a document. */
  datatype StoreError = Invalid(errors: seq<FieldError>) | DuplicateKey(index: string)

  /** The message of a refused creation: Mongoose's validation error for the
      model `User`, or the store's duplicate-key error naming the index. */
  const DuplicateKeyPrefix: string := "E11000 duplicate key error collection: users index: "

  function StoreErrorMessage(e: StoreError): (msg: string)
    ensures e.Invalid? ==> Strings.StartsWith(msg, "User" + " validation failed: ")
    ensures e.DuplicateKey? ==>
      Strings.StartsWith(msg, DuplicateKeyPrefix) && |e.index| <= |msg| && msg[|msg| - |e.index|..] == e.index
  {
    match e
    case Invalid(errs) => ValidationMessage("User", errs)
    case DuplicateKey(index) =>
      var msg := DuplicateKeyPrefix + index;
      assert msg[..|DuplicateKeyPrefix|] == DuplicateKeyPrefix;
      assert msg[|msg| - |index|..] == index;
      msg
  }

  /** `User.create`: cast and validate the document, then insert it unless it
      repeats the identity-provider id or the email of a stored user. */
  function Insert(users: seq<User>, d: UserInput): (r: Result<(User, seq<User>), StoreError>)
    ensures r.Ok? ==> r.value.1 == users + [r.value.0] && CastUser(d, |users|) == Ok(r.value.0)
    ensures r.Ok? ==> forall v :: v in users ==> v.auth0Id != r.value.0.auth0Id && v.email != r.value.0.email
    ensures r.Err? ==> (r.error.Invalid? <==> UserErrors(d) != [])
    ensures r.Err? && r.error.Invalid? ==> r.error.errors == UserErrors(d)
  {
    match CastUser(d, |users|)
    case Err(errs) => Err(Invalid(errs))
    case Ok(u) =>
      if exists v :: v in users && v.auth0Id == u.auth0Id then Err(DuplicateKey("auth0Id_1"))
      else if exists v :: v in users && v.email == u.email then Err(DuplicateKey("email_1"))
      else Ok((u, users + [u]))
  }

  /** A duplicate-key refusal is only ever for a valid document that repeats
      a stored user's identity-provider id (index `auth0Id_1`) or email
      (index `email_1`). */
  lemma DuplicateKeyIsReal(users: seq<User>, d: UserInput)
    requires Insert(users, d).Err? && Insert(users, d).error.DuplicateKey?
    ensures CastUser(d, |users|).Ok?
    ensures Insert(users, d).error.index == "auth0Id_1" || Insert(users, d).error.index == "email_1"
    ensures Insert(users, d).error.index == "auth0Id_1" ==>
      exists v :: v in users && v.auth0Id == CastUser(d, |users|).value.auth0Id
    ensures Insert(users, d).error.index == "email_1" ==>
      exists v :: v in users && v.email == CastUser(d, |users|).value.email
  {
    var u := CastUser(d, |users|).value;
    if exists v :: v in users && v.auth0Id == u.auth0Id {
      assert Insert(users, d) == Err(DuplicateKey("auth0Id_1"));
    } else {
      assert Insert(users, d) == Err(DuplicateKey("email_1"));
      assert "email_1" != "auth0Id_1" by { assert "email_1"[0] != "auth0Id_1"[0]; }
    }
  }

  /** A valid document with the role `buyer` is cast to a buyer. */
  lemma CastBuyer(d: UserInput, id: ObjectId)
    requires UserErrors(d) == [] && d.role == Some("buyer")
    ensures CastUser(d, id).Ok? && CastUser(d, id).value.role == Buyer
  {
    assert ParseRole("buyer") == Some(Buyer);
  }

  /** A valid document whose identity-provider id and email are not stored
      yet is inserted. */
  lemma InsertFreshKeys(users: seq<User>, d: UserInput)
    requires CastUser(d, |users|).Ok?
    requires forall v :: v in users ==>
      v.auth0Id != CastUser(d, |users|).value.auth0Id && v.email != CastUser(d, |users|).value.email
    ensures Insert(users, d) == Ok((CastUser(d, |users|).value, users + [CastUser(d, |users|).value]))
  {
  }

  /** Inserting keeps the identity-provider ids and the emails of the store
      unique, and the new user is valid and carries the next identifier. */
  lemma InsertPreservesUniqueKeys(users: seq<User>, d: UserInput)
    requires UniqueKeys(users)
    requires Insert(users, d).Ok?
    ensures UniqueKeys(Insert(users, d).value.1)
    ensures ValidUser(Insert(users, d).value.0) && Insert(users, d).value.0.id == |users|
  {
    var (u, users') := Insert(users, d).value;
    forall i, j | 0 <= i < j < |users'|
      ensures users'[i].auth0Id != users'[j].auth0Id && users'[i].email != users'[j].email
    {
      if j == |users| {
        assert users'[i] == users[i] && users[i] in users;
      } else {
        assert users'[i] == users[i] && users'[j] == users[j];
      }
    }
  }
}
