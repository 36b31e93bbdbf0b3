/** User registration: the ordered validation of the registration data, the
    identity-provider id taken from the provider's `provider|id` form, and the
    three effectful steps (fetch the provider's user, create the stored user,
    write the stored id back into the provider's metadata). The provider is a
    parameter; the user store is threaded through as a value. */
module UserService {
  import opened Wrappers
  import Strings
  import opened UserModel
  import opened Schema

  /** The registration request body; absent fields are `None`. */
  datatype UserData = UserData(
    auth0Id: Option<string>,
    role: Option<string>,
    name: Option<string>,
    phone: Option<string>,
    location: Option<UserLocation>,
    farmDetails: Option<FarmDetails>,
    businessDetails: Option<BusinessDetails>)

  /** What the identity provider knows about a user. */
  datatype ProviderUser = ProviderUser(email: Option<string>, name: Option<string>)

  /** The identity provider's management API: fetch a user by id, and write the
      stored user's id into the provider's metadata for that user. Each call
      either succeeds or fails with a message. */
  datatype IdentityProvider = IdentityProvider(
    getUser: Option<string> -> Result<ProviderUser, string>,
    updateUserMetadata: (Option<string>, ObjectId) -> Option<string>)

  /** A call made to the identity provider, with its arguments. */
  datatype ProviderCall = GetUser(id: Option<string>) | UpdateUserMetadata(id: Option<string>, appUserId: ObjectId)

  /** What a registration returns, the store afterwards, and the provider
      calls it made, in order. */
  datatype Outcome = Outcome(result: Result<User, string>, users: seq<User>, calls: seq<ProviderCall>)

  const RequiredError: string := "Auth0 ID and role are required"
  const InvalidRoleError: string := "Invalid role specified"
  const FarmDetailsError: string := "Farm details are required for sellers"
  const BusinessDetailsError: string := "Business details are required for buyers"
  const CreateErrorPrefix: string := "Error creating user: "

  /** The roles the registration accepts. */
  const AcceptedRoles: seq<string> := ["buyer", "seller"]

  /** A truthy string field: present and non-empty. */
  predicate IsSet(v: Option<string>)
  {
    v.Some? && v.value != ""
  }

  /** The first failing check of the validation chain, if any: one of the
      four messages, and the missing-field message exactly when the identity
      or the role is missing, whatever else is wrong. */
  function RegistrationError(data: UserData): (r: Option<string>)
    ensures r.Some? ==> r.value in {RequiredError, InvalidRoleError, FarmDetailsError, BusinessDetailsError}
    ensures r == Some(RequiredError) <==> !IsSet(data.auth0Id) || !IsSet(data.role)
  {
    if !IsSet(data.auth0Id) || !IsSet(data.role) then Some(RequiredError)
    else if data.role.value !in AcceptedRoles then Some(InvalidRoleError)
    else if data.role.value == "seller" && data.farmDetails.None? then Some(FarmDetailsError)
    else if data.role.value == "buyer" && data.businessDetails.None? then Some(BusinessDetailsError)
    else None
  }

  /** `auth0Id.split("|")[1]`: the part after the first `|`, up to the next
      one; `undefined` when there is no `|`. */
  function ProviderId(auth0Id: string): (r: Option<string>)
    ensures r.Some? <==> '|' in auth0Id
    ensures r.Some? ==> '|' !in r.value
  {
    Strings.SegmentAt(auth0Id, '|', 1)
  }

  /** The stored name: the registration's name when it is truthy, else the
      provider's. */
  function StoredName(data: UserData, providerUser: ProviderUser): (r: Option<string>)
    ensures IsSet(data.name) ==> r == data.name
    ensures !IsSet(data.name) ==> r == providerUser.name
  {
    if IsSet(data.name) then data.name else providerUser.name
  }

  /** The document created for a registration: the provider id and email,
      the stored name, the registration's role, phone, location and details,
      unverified and active. */
  function NewUserDocument(data: UserData, id: Option<string>, providerUser: ProviderUser): (d: UserInput)
    ensures d.auth0Id == id && d.name == StoredName(data, providerUser) && d.email == providerUser.email
    ensures d.role == data.role && d.phone == data.phone && d.location == data.location
    ensures d.farmDetails == data.farmDetails && d.businessDetails == data.businessDetails
    ensures d.isVerified == Some(false) && d.active == Some(true)
  {
    UserInput(id, StoredName(data, providerUser), providerUser.email, data.role, data.phone,
              data.location, data.farmDetails, data.businessDetails, Some(false), Some(true))
  }

  /** The message thrown for a failure after validation: the prefix, then the
      underlying message, which can be read back after it. */
  function CreationError(message: string): (r: string)
    ensures Strings.StartsWith(r, CreateErrorPrefix)
    ensures r[|CreateErrorPrefix|..] == message
  {
    Strings.StartsWithConcat(CreateErrorPrefix, message);
    CreateErrorPrefix + message
  }

  /** `createUser`. Validation failures are returned as they are, before any
      call; every later failure carries the "Error creating user: " prefix. */
  function CreateUser(data: UserData, provider: IdentityProvider, users: seq<User>): (out: Outcome)
    ensures out.result.Ok? ==> out.users == users + [out.result.value]
    ensures out.result.Ok? ==> ValidUser(out.result.value) && !out.result.value.isVerified && out.result.value.active
    ensures out.users == users || (|out.users| == |users| + 1 && out.users[..|users|] == users)
    ensures RegistrationError(data).Some? <==> out.calls == []
    ensures RegistrationError(data).None? ==>
      && 1 <= |out.calls| <= 2
      && out.calls[0] == GetUser(ProviderId(data.auth0Id.value))
      && (|out.calls| == 2 ==> out.calls[1] == UpdateUserMetadata(ProviderId(data.auth0Id.value), |users|))
  {
    match RegistrationError(data)
    case Some(e) => Outcome(Err(e), users, [])
    case None =>
      var id := ProviderId(data.auth0Id.value);
      match provider.getUser(id)
      case Err(e) => Outcome(Err(CreationError(e)), users, [GetUser(id)])
      case Ok(providerUser) =>
        var doc := NewUserDocument(data, id, providerUser);
        match Insert(users, doc)
        case Err(e) => Outcome(Err(CreationError(StoreErrorMessage(e))), users, [GetUser(id)])
        case Ok((u, users')) =>
          var calls := [GetUser(id), UpdateUserMetadata(id, u.id)];
          match provider.updateUserMetadata(id, u.id)
          case Some(e) => Outcome(Err(CreationError(e)), users', calls)
          case None => Outcome(Ok(u), users', calls)
  }

  /** A missing or empty identity-provider id or role fails first, whatever
      else the data holds, and nothing is called or stored. */
  lemma MissingIdOrRoleFailsFirst(data: UserData, provider: IdentityProvider, users: seq<User>)
    requires !IsSet(data.auth0Id) || !IsSet(data.role)
    ensures CreateUser(data, provider, users) == Outcome(Err(RequiredError), users, [])
  {
  }

  /** A role other than `buyer` or `seller` is rejected next. */
  lemma InvalidRoleRejected(data: UserData, provider: IdentityProvider, users: seq<User>)
    requires IsSet(data.auth0Id) && IsSet(data.role) && data.role.value !in AcceptedRoles
    ensures CreateUser(data, provider, users) == Outcome(Err(InvalidRoleError), users, [])
  {
  }

  /** A seller must bring farm details, a buyer business details. */
  lemma RoleDetailsRequired(data: UserData, provider: IdentityProvider, users: seq<User>)
    requires IsSet(data.auth0Id)
    requires (data.role == Some("seller") && data.farmDetails.None?)
          || (data.role == Some("buyer") && data.businessDetails.None?)
    ensures CreateUser(data, provider, users)
         == Outcome(Err(if data.role == Some("seller") then FarmDetailsError else BusinessDetailsError), users, [])
  {
  }

  /** Passing validation means exactly: both ids set, an accepted role, and
      the details that role needs. */
  lemma ValidationPassesExactly(data: UserData)
    ensures RegistrationError(data).None? <==>
      && IsSet(data.auth0Id) && IsSet(data.role)
      && ((data.role.value == "seller" && data.farmDetails.Some?)
          || (data.role.value == "buyer" && data.businessDetails.Some?))
  {
  }

  /** A registration succeeds only when validation passes, the provider
      knows the user, the store accepts the document and the metadata write
      succeeds; the user returned is the one the store created. */
  lemma RegisteredOnlyIfAllStepsSucceed(data: UserData, provider: IdentityProvider, users: seq<User>)
    requires CreateUser(data, provider, users).result.Ok?
    ensures RegistrationError(data).None?
    ensures var id := ProviderId(data.auth0Id.value);
      && provider.getUser(id).Ok?
      && Insert(users, NewUserDocument(data, id, provider.getUser(id).value)).Ok?
      && provider.updateUserMetadata(id, |users|).None?
      && CreateUser(data, provider, users).result.value
         == Insert(users, NewUserDocument(data, id, provider.getUser(id).value)).value.0
  {
    var id := ProviderId(data.auth0Id.value);
    var doc := NewUserDocument(data, id, provider.getUser(id).value);
    assert Insert(users, doc).value.0.id == |users|;
  }

  /** The id stored for a registered user is that same second `|`-part. */
  lemma StoredIdIsProviderId(data: UserData, provider: IdentityProvider, users: seq<User>)
    requires CreateUser(data, provider, users).result.Ok?
    ensures Some(CreateUser(data, provider, users).result.value.auth0Id) == ProviderId(data.auth0Id.value)
  {
    RegisteredOnlyIfAllStepsSucceed(data, provider, users);
    var id := ProviderId(data.auth0Id.value);
    var doc := NewUserDocument(data, id, provider.getUser(id).value);
    var u := Insert(users, doc).value.0;
    assert CastUser(doc, |users|) == Ok(u);
  }

  /** The stored name is the registration's name when truthy, else the
      provider's, trimmed; the email is the provider's, lower-cased. */
  lemma StoredNameAndEmail(data: UserData, provider: IdentityProvider, users: seq<User>)
    requires CreateUser(data, provider, users).result.Ok?
    ensures var u := CreateUser(data, provider, users).result.value;
            var providerUser := provider.getUser(ProviderId(data.auth0Id.value)).value;
            && u.name == Strings.Trim(if IsSet(data.name) then data.name.value else providerUser.name.value)
            && u.email == Strings.ToLower(providerUser.email.value)
  {
    RegisteredOnlyIfAllStepsSucceed(data, provider, users);
    var id := ProviderId(data.auth0Id.value);
    var providerUser := provider.getUser(id).value;
    var doc := NewUserDocument(data, id, providerUser);
    var u := Insert(users, doc).value.0;
    assert CastUser(doc, |users|) == Ok(u);
    assert doc.name == (if IsSet(data.name) then data.name else providerUser.name);
  }

  /** A registered user keeps the registration's role, phone, location, farm
      details and business details. */
  lemma StoredDetailsAreRegistrations(data: UserData, provider: IdentityProvider, users: seq<User>)
    requires CreateUser(data, provider, users).result.Ok?
    ensures var u := CreateUser(data, provider, users).result.value;
      && Some(RoleName(u.role)) == data.role && Some(u.phone) == data.phone
      && u.location == data.location && u.farmDetails == data.farmDetails
      && u.businessDetails == data.businessDetails
  {
    RegisteredOnlyIfAllStepsSucceed(data, provider, users);
    var id := ProviderId(data.auth0Id.value);
    var doc := NewUserDocument(data, id, provider.getUser(id).value);
    assert CastUser(doc, |users|) == Ok(Insert(users, doc).value.0);
  }

  /** Every failure after validation is reported with the prefix. */
  lemma LaterFailuresArePrefixed(data: UserData, provider: IdentityProvider, users: seq<User>)
    requires RegistrationError(data).None?
    requires CreateUser(data, provider, users).result.Err?
    ensures Strings.StartsWith(CreateUser(data, provider, users).result.error, CreateErrorPrefix)
  {
  }

  /** The registration accepts the role `seller`, but the user schema admits
      only `farmer` and `buyer`, so a seller is never registered and the store
      is left as it was. */
  lemma SellerNeverRegisters(data: UserData, provider: IdentityProvider, users: seq<User>)
    requires data.role == Some("seller")
    ensures CreateUser(data, provider, users).result.Err?
    ensures CreateUser(data, provider, users).users == users
  {
    if RegistrationError(data).None? {
      var id := ProviderId(data.auth0Id.value);
      if provider.getUser(id).Ok? {
        var doc := NewUserDocument(data, id, provider.getUser(id).value);
        assert "seller" !in RoleNames by { assert "seller"[0] != "farmer"[0] && "seller"[0] != "buyer"[0]; }
        RoleIsClosedEnum(doc, |users|);
        assert Insert(users, doc).Err?;
      }
    }
  }

  /** When writing the metadata fails, the user has already been stored,
      although the registration reports an error. */
  lemma MetadataFailureKeepsUser(data: UserData, provider: IdentityProvider, users: seq<User>)
    requires RegistrationError(data).None?
    requires var id := ProviderId(data.auth0Id.value);
             provider.getUser(id).Ok?
             && Insert(users, NewUserDocument(data, id, provider.getUser(id).value)).Ok?
             && provider.updateUserMetadata(id, |users|).Some?
    ensures CreateUser(data, provider, users).result.Err?
    ensures |CreateUser(data, provider, users).users| == |users| + 1
  {
    var id := ProviderId(data.auth0Id.value);
    var doc := NewUserDocument(data, id, provider.getUser(id).value);
    assert CastUser(doc, |users|).Ok?;
  }

  /** Registration keeps the store's identity-provider ids and emails unique. */
  lemma RegistrationKeepsKeysUnique(data: UserData, provider: IdentityProvider, users: seq<User>)
    requires UniqueKeys(users)
    ensures UniqueKeys(CreateUser(data, provider, users).users)
  {
    var out := CreateUser(data, provider, users);
    if out.users != users {
      var id := ProviderId(data.auth0Id.value);
      var doc := NewUserDocument(data, id, provider.getUser(id).value);
      InsertPreservesUniqueKeys(users, doc);
    }
  }

  /** For `provider|rest` with no `|` in `provider`, the id is the first
      `|`-part of `rest`; for instance `auth0|abc123` gives `abc123`. */
  lemma ProviderIdAfterFirstBar(provider: string, rest: string)
    requires '|' !in provider
    ensures ProviderId(provider + "|" + rest) == Some(Strings.Split(rest, '|')[0])
  {
    Strings.SecondSegment(provider, '|', rest);
  }

  /** When the provider lookup, the creation and the metadata write all
      succeed after validation, the registration returns the created user,
      which is appended to the store, and makes exactly the two calls. */
  lemma SuccessfulStepsRegister(data: UserData, provider: IdentityProvider, users: seq<User>)
    requires RegistrationError(data).None?
    requires var id := ProviderId(data.auth0Id.value);
      && provider.getUser(id).Ok?
      && Insert(users, NewUserDocument(data, id, provider.getUser(id).value)).Ok?
      && provider.updateUserMetadata(id, |users|).None?
    ensures var id := ProviderId(data.auth0Id.value);
      var u := Insert(users, NewUserDocument(data, id, provider.getUser(id).value)).value.0;
      CreateUser(data, provider, users) == Outcome(Ok(u), users + [u], [GetUser(id), UpdateUserMetadata(id, u.id)])
  {
    var id := ProviderId(data.auth0Id.value);
    var inserted := Insert(users, NewUserDocument(data, id, provider.getUser(id).value));
    assert inserted.value.0.id == |users|;
    assert inserted.value.1 == users + [inserted.value.0];
  }

  /** The document of a complete buyer registration is acceptable. */
  lemma BuyerDocumentAcceptable(data: UserData, id: Option<string>, providerUser: ProviderUser)
    requires IsSet(id) && data.role == Some("buyer") && data.businessDetails.Some? && IsSet(data.phone)
    requires StoredName(data, providerUser).Some? && Strings.Trim(StoredName(data, providerUser).value) != ""
    requires IsSet(providerUser.email)
    ensures UserErrors(NewUserDocument(data, id, providerUser)) == []
  {
    assert "buyer" in RoleNames;
    assert Acceptable(NewUserDocument(data, id, providerUser));
  }

  /** The store accepts the document of a complete buyer registration whose
      identity and email are not yet stored, and creates a buyer with that
      identity. */
  lemma FreshBuyerStored(data: UserData, id: Option<string>, providerUser: ProviderUser, users: seq<User>)
    requires IsSet(id) && data.role == Some("buyer") && data.businessDetails.Some? && IsSet(data.phone)
    requires StoredName(data, providerUser).Some? && Strings.Trim(StoredName(data, providerUser).value) != ""
    requires IsSet(providerUser.email)
    requires forall v :: v in users ==> v.auth0Id != id.value && v.email != Strings.ToLower(providerUser.email.value)
    ensures var r := Insert(users, NewUserDocument(data, id, providerUser));
      r.Ok? && r.value.0.role == Buyer && Some(r.value.0.auth0Id) == id
  {
    var doc := NewUserDocument(data, id, providerUser);
    BuyerDocumentAcceptable(data, id, providerUser);
    CastBuyer(doc, |users|);
    InsertFreshKeys(users, doc);
  }

  /** A buyer registration succeeds when the provider knows the user, the
      resulting document has every required field, its identity and email are
      not yet stored, and the metadata write succeeds: the new buyer is
      appended to the store and returned. */
  lemma FreshBuyerRegisters(data: UserData, provider: IdentityProvider, users: seq<User>)
    requires IsSet(data.auth0Id) && data.role == Some("buyer") && data.businessDetails.Some?
    requires IsSet(data.phone)
    requires var id := ProviderId(data.auth0Id.value);
      && IsSet(id)
      && provider.getUser(id).Ok?
      && var providerUser := provider.getUser(id).value;
         && StoredName(data, providerUser).Some? && Strings.Trim(StoredName(data, providerUser).value) != ""
         && IsSet(providerUser.email)
         && (forall v :: v in users ==> v.auth0Id != id.value && v.email != Strings.ToLower(providerUser.email.value))
         && provider.updateUserMetadata(id, |users|).None?
    ensures var out := CreateUser(data, provider, users);
      && out.result.Ok?
      && out.users == users + [out.result.value]
      && out.result.value.role == Buyer
      && Some(out.result.value.auth0Id) == ProviderId(data.auth0Id.value)
  {
    assert "buyer" != "seller" by { assert "buyer"[0] != "seller"[0]; }
    assert "buyer" in AcceptedRoles;
    assert RegistrationError(data) == None;
    var id := ProviderId(data.auth0Id.value);
    FreshBuyerStored(data, id, provider.getUser(id).value, users);
    SuccessfulStepsRegister(data, provider, users);
  }
}
