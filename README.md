# Agricultural waste marketplace: verified model of the backend core

This project models the core of a marketplace where farmers list crop waste
(straw, husk, leaves, stalks) for buyers, and proves properties of that model.
It covers:

- the environmental-impact estimate for a quantity of waste;
- the query that the listing search builds from its filters, and which listings that query selects;
- the two document schemas, for waste listings and for users, with their required fields, enums, setters, defaults and unique indexes;
- user registration, which runs a validation chain and then three calls to the identity provider and the store;
- the JWT authentication middleware;
- the role-check middleware;
- input validation of the crop-yield predictor.

Modules follow the source files:

| module | file | models |
|---|---|---|
| `Wrappers` | wrappers.dfy | `Option` and `Result` |
| `Strings` | strings.dfy | JavaScript's one-character `split`, `trim`, ASCII `toLowerCase`, `startsWith` and `join` |
| `Js` | js.dfy | JavaScript values with truthiness, own-property lookup and the `or` operator |
| `Schema` | schema.dfy | the Mongoose `required`/`enum` validators the schemas use, and the message of a validation error |
| `EnvironmentalImpact` | environmental_impact.dfy | `src/utils/environmentalImpact.js` |
| `WasteModel` | waste_model.dfy | `src/db/models/Waste.js` |
| `UserModel` | user_model.dfy | `src/db/models/Users.js` and `User.create` over a store given as a sequence |
| `WasteService` | waste_service.dfy | `searchWaste` in `src/services/wasteService.js` |
| `UserService` | user_service.dfy | `createUser` in `src/services/userService.js` |
| `AuthMiddleware` | auth_middleware.dfy | `src/middleware/authMiddleware.js` |
| `CheckRole` | check_role.dfy | `src/middleware/checkRole.js` |
| `Prediction` | prediction.dfy | `predict_crop` in `src/ml/prediction.py` |

Each source file takes its own form in the model:

- **Imperative.** `searchWaste` fills an empty query object under successive `if`s. It is the method `WasteService.SearchWaste`, proved against the predicate `IsSearchQuery`.
- **Mutable request state.** Both middlewares write request and response fields and call `next`. Each has a class for that state (`AuthMiddleware.Request`, `CheckRole.Exchange`). Its method is proved to make the change decided by a pure decision function.
- **Pure.** Everything else is functions and lemmas.

Foreign code is passed in as a parameter:

- the identity provider's management API;
- JWT decoding, the JWKS key set and signature checking;
- the stored-user lookup;
- the store's `$near` proximity test;
- the trained regressors, and Python's `round`.

Places where the code does not do what its comments or the rest of the system suggest:

- **Sellers cannot register.** Registration accepts the roles `buyer` and `seller`, but the user schema's role enum is `farmer`/`buyer`. A seller therefore never registers, and `UserService.SellerNeverRegisters` proves it. The farm-details check that registration makes for sellers never leads to a stored user.
- **The role check always fails.** `checkRole` calls `userService.getUserByAuth0Id`, but that function is commented out in `src/services/userService.js:60-70`. With the service as written, every request through the role check is answered 500 (`CheckRole.MissingLookupAlwaysFails`). The model takes the lookup as a parameter, so the role check is also proved for a lookup that finds users. Even with the commented-out definition restored, a subject with no stored user would get 500, not 404: that definition throws "User not found" instead of returning nothing (`CheckRole.RestoredLookupMissingUserIsServerError`). The 404 branch is reached only by a lookup that returns nothing (`CheckRole.MissingUserIsNotFound`).
- **No role check can pass for `seller`.** Stored roles are only `farmer` and `buyer`, so `checkRole('seller')` can never let a request through (`CheckRole.UnknownRoleNeverProceeds`).
- **A placeholder token stalls the request.** An empty, `"null"` or `"undefined"` bearer token makes the authentication middleware return without calling `next` and without responding (`AuthMiddleware.PlaceholderTokenStops`).

## Model

| member | source | states |
|---|---|---|
| Strings.Split | src/services/userService.js:31 | `split` on one character: one more part than separators, no part contains the separator, and the first part is the prefix up to the first separator |
| Strings.SplitJoin | src/services/userService.js:31 | joining the parts of a split with the separator gives back the original string |
| Strings.SplitAfterPrefix | src/middleware/authMiddleware.js:37 | splitting `p + sep + r`, with `p` free of the separator, gives `p` followed by the parts of `r` |
| Strings.SegmentAt | src/services/userService.js:31 | `split(sep)[i]` is defined exactly when there are at least `i` separators, and never contains the separator |
| Strings.SecondSegment | src/middleware/authMiddleware.js:37 | the second part of `p + sep + r` is the first part of `r` |
| Strings.TrimStart | src/db/models/Users.js:12 | removes exactly the leading whitespace: the result is a suffix, does not start with whitespace, and only whitespace was dropped |
| Strings.TrimEnd | src/db/models/Users.js:12 | removes exactly the trailing whitespace: the result is a prefix, does not end with whitespace, and only whitespace was dropped |
| Strings.Trim | src/db/models/Users.js:12 | the trimmed string neither starts nor ends with whitespace |
| Strings.TrimIdempotent | src/db/models/Users.js:12 | trimming twice is trimming once |
| Strings.ToLower | src/db/models/Users.js:18 | lower-casing keeps the length, maps each ASCII upper-case letter to its lower-case letter and leaves every other character as it is |
| Strings.ToLowerIdempotent | src/db/models/Users.js:18 | lower-casing twice is lower-casing once |
| EnvironmentalImpact.CalculateEnvironmentalImpact | src/utils/environmentalImpact.js:2-38 | each of the five types gets its own row's factors times the quantity; any type outside straw/husk/leaves/stalks gets the `other` row 0.5/0.2/5; the outputs are non-negative for a non-negative quantity; the soil score is in 1..10 |
| EnvironmentalImpact.FactorTableWellFormed | src/utils/environmentalImpact.js:2-28 | the table has exactly the five tags, every per-kilogram factor is positive, and every soil score is in 1..10 |
| EnvironmentalImpact.UnknownTypeUsesOther | src/utils/environmentalImpact.js:31 | a tag outside the table has the same impact as `other`, namely 0.5×q, 0.2×q and 5 |
| EnvironmentalImpact.ImpactIsLinear | src/utils/environmentalImpact.js:34-36 | CO2 and water for q1+q2 are the sums for q1 and q2; the soil score does not depend on the quantity |
| EnvironmentalImpact.ZeroQuantityHasNoImpact | src/utils/environmentalImpact.js:34-35 | quantity 0 prevents no CO2 and saves no water |
| EnvironmentalImpact.ImpactIsMonotone | src/utils/environmentalImpact.js:34-35 | a larger quantity never gives less CO2 or water |
| EnvironmentalImpact.StrawExample | src/utils/environmentalImpact.js:3-7 | 100 of straw prevents 150 of CO2, saves 50 of water, and scores 8 |
| Schema.CheckString | src/db/models/Waste.js:13-17 | a String path reports at most one error, on that path, and none exactly when the required value is a non-empty string and a present value is in the enum |
| Schema.CheckPresent | src/db/models/Waste.js:4-8 | a required non-String path fails exactly when the value is absent, with that path's message |
| Schema.Describe | src/db/models/Users.js:3-75 | the validation error lists one `path: message` entry for each error of the list it is given, in the order of that list |
| Schema.ValidationMessage | src/db/models/Users.js:3-75 | the validation error message starts with the model name and "validation failed: ", and for a single failing path is exactly that prefix followed by `path: message` |
| WasteModel.ParseWasteType | src/db/models/Waste.js:16 | a waste-type tag is accepted exactly when it is one of straw, husk, leaves, stalks, other, and names the type it parses to |
| WasteModel.ParseUnit | src/db/models/Waste.js:25 | a unit is accepted exactly when it is kg, ton or quintal |
| WasteModel.ParseStatus | src/db/models/Waste.js:52 | a status is accepted exactly when it is available, booked, sold or cancelled |
| WasteModel.ListingErrors | src/db/models/Waste.js:4-54 | every reported error is on a path of the schema, and there is none exactly when the required paths are present, the crop type is non-empty, and waste type, unit and status after its default are in their enums |
| WasteModel.StatusOrDefault | src/db/models/Waste.js:50-54 | an absent status becomes `available`, which is in the enum; a given status is kept as it is for the enum check |
| WasteModel.CreateListing | src/db/models/Waste.js:3-55 | a listing is created exactly when no path fails, otherwise every failing path is reported; a created listing is valid, carries the given id and holds the document's seller, crop type, waste type, quantity, unit, price, availability date, coordinates, address parts, images and description; status defaults to available, location type to Point, images to none |
| WasteModel.ListingRoundTrip | src/db/models/Waste.js:3-55 | every valid listing is what creating it from its own document stores |
| WasteModel.WasteTypeNamesParse | src/db/models/Waste.js:16 | every waste type's tag is in the enum and parses back to that type |
| WasteModel.UnitNamesParse | src/db/models/Waste.js:25 | every unit's name is in the enum and parses back to that unit |
| WasteModel.StatusNamesParse | src/db/models/Waste.js:52 | every status's name is in the enum and parses back to that status |
| WasteModel.RequiredFieldsEnforced | src/db/models/Waste.js:4-43 | a document missing seller, crop type, waste type, quantity, unit, price, availability date or coordinates is rejected, with that field's message among the errors |
| WasteModel.EnumsEnforced | src/db/models/Waste.js:13-26 | a waste type, unit or status outside its list is rejected with the enum message for its path |
| WasteModel.NegativeQuantityAndPriceAccepted | src/db/models/Waste.js:18-30 | a listing with negative quantity and negative price is accepted, because neither field has a lower bound |
| WasteService.SearchWaste | src/services/wasteService.js:28-45 | the query built from a filter object satisfies `IsSearchQuery`: it has only the keys cropType, wasteType, status and location; each exact key is present exactly when its filter value is truthy and then carries that value; the location clause is present exactly when the location is truthy and holds only `$near`, which holds only a geometry (only type Point and coordinates [longitude, latitude]) and a maxDistance equal to the radius when it is truthy and 10000 otherwise |
| WasteService.Matches | src/services/wasteService.js:47 | the empty query matches every listing; a match agrees with the query on every exact key present and passes the proximity test when a location clause is present |
| WasteService.EmptyFiltersMatchEverything | src/services/wasteService.js:29-47 | an empty filter object gives the empty query, and every listing matches it |
| WasteService.MatchesIsConjunctive | src/services/wasteService.js:31-47 | a listing matches exactly when it equals every truthy exact filter and passes the proximity test when a location is given |
| WasteService.OtherFiltersIgnored | src/services/wasteService.js:28-45 | filter objects that agree on cropType, wasteType, status, location and radius give the same queries |
| WasteService.MaxDistanceDefault | src/services/wasteService.js:42 | a missing, null, zero or empty radius gives maxDistance 10000 |
| WasteService.ExactKeysIndependent | src/services/wasteService.js:31-33 | each exact key of the query depends only on its own filter value |
| WasteService.UnknownWasteTypeMatchesNothing | src/services/wasteService.js:32 | searching by a waste-type tag outside the enum matches no stored listing |
| UserModel.ParseRole | src/db/models/Users.js:20-24 | a role is accepted exactly when it is farmer or buyer |
| UserModel.SetName | src/db/models/Users.js:9-13 | the `trim` setter keeps absence, and a set name is already trimmed |
| UserModel.SetEmail | src/db/models/Users.js:14-19 | the `lowercase` setter keeps absence and length, and a set email is already lower-cased |
| UserModel.FarmDetailsErrors | src/db/models/Users.js:36-47 | the conditional `required` on farm details fails exactly for a farmer without them, with "Farm details are required for farmers" |
| UserModel.BusinessDetailsErrors | src/db/models/Users.js:51-62 | the conditional `required` on business details fails exactly for a buyer without them, with "Business details are required for buyers" |
| UserModel.UserErrors | src/db/models/Users.js:4-64 | every reported error is on a path of the schema, and there is none exactly when identity, name after trimming, email and phone are non-empty, the role is farmer or buyer, and the details the role needs are present |
| UserModel.CastUser | src/db/models/Users.js:3-72 | a user is produced exactly when no path fails, otherwise every failing path is reported; a produced user is valid, has the trimmed name and lower-cased email, the given id, role and phone, the given location, farm details and business details, isVerified defaulting to false and active to true |
| UserModel.UserRoundTrip | src/db/models/Users.js:3-72 | every valid user is what casting its own document gives |
| UserModel.FarmDetailsRequiredExactlyForFarmers | src/db/models/Users.js:36-47 | the farm-details error occurs exactly when the role is farmer and farm details are absent |
| UserModel.BusinessDetailsRequiredExactlyForBuyers | src/db/models/Users.js:51-62 | the business-details error occurs exactly when the role is buyer and business details are absent |
| UserModel.RoleIsClosedEnum | src/db/models/Users.js:20-24 | a non-empty role other than farmer or buyer is rejected with the enum message |
| UserModel.BlankNameRejected | src/db/models/Users.js:9-13 | a name made only of whitespace is trimmed to empty and fails the required check |
| UserModel.Insert | src/db/models/Users.js:4-19 | creation appends the cast user to the store, and then no previously stored user shares its identity or email; it fails with a validation error exactly when a path fails, reporting those errors |
| UserModel.DuplicateKeyIsReal | src/db/models/Users.js:7-17 | a duplicate-key refusal only happens for a valid document; it names `auth0Id_1` or `email_1`, and a stored user has that identity or that email |
| UserModel.CastBuyer | src/db/models/Users.js:20-24 | a valid document with the role buyer becomes a user with the role buyer |
| UserModel.InsertFreshKeys | src/db/models/Users.js:7-17 | a valid document whose identity and email are both not yet stored is appended to the store |
| UserModel.StoreErrorMessage | src/services/userService.js:55-57 | a refused creation is reported as the `User validation failed: ` message or as an E11000 duplicate-key message ending with the index name |
| UserModel.InsertPreservesUniqueKeys | src/db/models/Users.js:7-17 | creation keeps identity-provider ids and emails unique across the store |
| UserService.RegistrationError | src/services/userService.js:12-26 | the chain reports one of its four messages; the missing-field message comes exactly when the identity or the role is missing, whatever else is wrong |
| UserService.ProviderId | src/services/userService.js:31 | the provider id exists exactly when the identity contains a bar character, and contains no bar itself |
| UserService.StoredName | src/services/userService.js:38 | the registration's name when it is truthy, else the provider's, as JavaScript's logical or picks |
| UserService.NewUserDocument | src/services/userService.js:35-46 | the created document carries the provider id and email, that name, the registration's role, phone, location, farm details and business details, isVerified false and active true |
| UserService.CreationError | src/services/userService.js:56-57 | a later failure's message is "Error creating user: " followed by the underlying message, which can be read back after the prefix |
| UserService.CreateUser | src/services/userService.js:10-58 | a successful registration appends exactly the returned user, which is valid, unverified and active; otherwise the store is unchanged or extended by one; the provider is called exactly when validation passes, first to fetch the user by the second bar-separated part of the identity, then possibly to write the new user's id into that same user's metadata |
| UserService.MissingIdOrRoleFailsFirst | src/services/userService.js:12-14 | a missing or empty id or role fails with "Auth0 ID and role are required", before any call and with the store unchanged |
| UserService.InvalidRoleRejected | src/services/userService.js:16-18 | a role other than buyer or seller fails with "Invalid role specified" and nothing is called |
| UserService.RoleDetailsRequired | src/services/userService.js:21-26 | a seller without farm details, or a buyer without business details, fails with its own message and nothing is called |
| UserService.ValidationPassesExactly | src/services/userService.js:12-26 | the validation chain passes exactly when both fields are set and the role is seller with farm details or buyer with business details |
| UserService.RegisteredOnlyIfAllStepsSucceed | src/services/userService.js:28-57 | a registration succeeds only when validation passes, the provider knows the user, the store accepts the document and the metadata write succeeds; the user returned is the one the store created |
| UserService.SuccessfulStepsRegister | src/services/userService.js:28-54 | conversely, when all those steps succeed the registration returns the created user, appends it to the store and makes exactly the lookup and the metadata write |
| UserService.StoredIdIsProviderId | src/services/userService.js:36 | a registered user stores that same second bar-separated part as its identity |
| UserService.StoredNameAndEmail | src/services/userService.js:37-38 | the stored name is the registration's name when truthy, else the provider's, trimmed; the email is the provider's, lower-cased |
| UserService.StoredDetailsAreRegistrations | src/services/userService.js:39-43 | a registered user keeps the registration's role, phone, location, farm details and business details |
| UserService.LaterFailuresArePrefixed | src/services/userService.js:28-57 | every failure after validation starts with "Error creating user: " |
| UserService.SellerNeverRegisters | src/services/userService.js:16-46 | a registration with role seller always fails and leaves the store unchanged |
| UserService.MetadataFailureKeepsUser | src/services/userService.js:35-57 | when the metadata update fails, the call reports an error but the new user is already stored |
| UserService.RegistrationKeepsKeysUnique | src/services/userService.js:35-46 | registration keeps identity-provider ids and emails unique across the store |
| UserService.ProviderIdAfterFirstBar | src/services/userService.js:31 | for an identity of the form provider, bar, rest with no bar in the provider, the id is the first bar-separated part of rest |
| UserService.BuyerDocumentAcceptable | src/services/userService.js:35-46 | the document built from a buyer registration with a set identity, a non-blank name, an email, a phone and business details passes the user schema |
| UserService.FreshBuyerStored | src/services/userService.js:35-46 | the store accepts that document when its identity and email are not yet stored, creating a buyer with that identity |
| UserService.FreshBuyerRegisters | src/services/userService.js:10-54 | a buyer registration with business details, a known provider user, a complete document, an identity and email not yet stored and a successful metadata write returns the new buyer, appends it to the store, and stores the second bar-separated part as its identity |
| AuthMiddleware.GetKey | src/middleware/authMiddleware.js:8-26 | a header without a truthy key id fails with "No KID specified in JWT header"; a key-set error is passed on; a key object with a public key gives exactly that key, and a key is returned only in that case |
| AuthMiddleware.GetKeyRejectsUnusableKey | src/middleware/authMiddleware.js:19-22 | a missing key object, or one without `getPublicKey`, fails with "Invalid key object" |
| AuthMiddleware.Verify | src/middleware/authMiddleware.js:45-62 | a token verifies exactly when it decodes, its key is found and the signature check against that key succeeds, and then to that check's claims; a key-source error reaches the callback with the library's "error in secret or public key callback: " prefix |
| AuthMiddleware.UsableKeyVerifies | src/middleware/authMiddleware.js:23-24 | a decoded token whose key id yields a key object with a public key, and whose signature checks against that key, verifies to the checked claims |
| AuthMiddleware.NoKidNeverVerifies | src/middleware/authMiddleware.js:9-12 | a token whose header has no key id fails verification with the no-KID error behind the library's key-callback prefix |
| AuthMiddleware.BearerToken | src/middleware/authMiddleware.js:29-37 | a token exists exactly when the header starts with "Bearer "; it is the text after "Bearer " up to the next space or the end, and contains no space |
| AuthMiddleware.IsPlaceholder | src/middleware/authMiddleware.js:39 | a token is a placeholder exactly when it is falsy as a JavaScript string, "null" or "undefined" |
| AuthMiddleware.Authenticate | src/middleware/authMiddleware.js:28-68 | a request user is only ever set together with a call of `next`, and a request without an Authorization header continues with no user |
| AuthMiddleware.Run | src/middleware/authMiddleware.js:28-68 | the request user is the decided user on every path, and `next` is called once or not at all, as decided |
| AuthMiddleware.NoBearerHeaderContinuesAnonymously | src/middleware/authMiddleware.js:29-35 | a missing header, or one not starting with "Bearer ", sets no user and calls `next` |
| AuthMiddleware.BearerTokenOfSpaceFreeRest | src/middleware/authMiddleware.js:37 | "Bearer " followed by text without spaces carries that text as its token |
| AuthMiddleware.PlaceholderTokenStops | src/middleware/authMiddleware.js:39-42 | an empty, "null" or "undefined" token sets no user and does not call `next` |
| AuthMiddleware.StopsExactlyOnPlaceholder | src/middleware/authMiddleware.js:29-67 | `next` is not called exactly when the header carries a placeholder bearer token |
| AuthMiddleware.FailedVerificationContinuesAnonymously | src/middleware/authMiddleware.js:54-58 | a verification error or exception sets no user and calls `next` |
| AuthMiddleware.VerifiedTokenSetsUser | src/middleware/authMiddleware.js:59-60 | a bearer token that is not a placeholder and verifies sets the request user to its claims and calls `next` |
| AuthMiddleware.UserComesFromVerifiedToken | src/middleware/authMiddleware.js:59-60 | a request user is only ever the claims of the header's own token after successful verification, and then `next` is called |
| CheckRole.Decide | src/middleware/checkRole.js:5-31 | a request proceeds only with the looked-up user of the subject when that user has the required role; every response is 403, 404 or 500 |
| CheckRole.Handle | src/middleware/checkRole.js:4-32 | exactly one of two things happens: a response with the decided status and body is sent while the user and `next` are left alone, or the user is attached and `next` is called once with no response |
| CheckRole.MissingUserIsNotFound | src/middleware/checkRole.js:9-14 | no stored user gives 404 "User not found", never 403 |
| CheckRole.OtherRoleIsForbidden | src/middleware/checkRole.js:16-21 | a user of another role gives 403 "Access denied. Insufficient permissions." |
| CheckRole.LookupFailureIsServerError | src/middleware/checkRole.js:6-7 | missing authentication data or a failing lookup gives 500 "Error checking user role" |
| CheckRole.ProceedsExactlyWithRequiredRole | src/middleware/checkRole.js:9-25 | a request proceeds exactly when the subject's stored user exists and has the required role |
| CheckRole.UnknownRoleNeverProceeds | src/middleware/checkRole.js:16-21 | a required role other than farmer or buyer never lets a request through |
| CheckRole.MissingLookupAlwaysFails | src/middleware/checkRole.js:7 | with the lookup that the user service exports as written, every request gets 500 |
| CheckRole.FindByAuth0Id | src/services/userService.js:62 | the lookup finds a stored user with that identity, and finds none exactly when no stored user has it |
| CheckRole.CommentedOutLookup | src/services/userService.js:60-70 | the commented-out lookup never returns nothing: when a stored user has the subject's id it finds such a user, otherwise it throws "Error fetching user: User not found" |
| CheckRole.RestoredLookupMissingUserIsServerError | src/middleware/checkRole.js:6-31 | with that lookup restored, a subject with no stored user still gets 500, not 404 |
| CheckRole.RestoredLookupNeverNotFound | src/middleware/checkRole.js:9-14 | with that lookup restored, no request is answered 404 |
| Prediction.PredictCrop | src/ml/prediction.py:61-84 | an error entry is returned exactly when location, soil or crop is outside its list, and it is the only key; otherwise the keys are exactly predicted_yield, predicted_waste and estimated_profit, all numbers |
| Prediction.LocationCheckedFirst | src/ml/prediction.py:62-63 | an unknown location gives the location error, whatever the other inputs |
| Prediction.SoilCheckedSecond | src/ml/prediction.py:64-65 | with a known location, an unknown soil condition gives the soil error |
| Prediction.CropCheckedThird | src/ml/prediction.py:66-67 | with a known location and soil condition, an unknown crop gives the crop error |
| Prediction.LocationErrorText | src/ml/prediction.py:63 | the location error lists Durg, Mumbai, Delhi, Bangalore, Chennai, Nashik in that order, separated by ", " |
| Prediction.SoilErrorText | src/ml/prediction.py:65 | the soil error lists sandy, clay, loamy in that order, separated by ", " |
| Prediction.CropErrorText | src/ml/prediction.py:67 | the crop error lists rice, wheat, maize, cotton in that order, separated by ", " |
| Prediction.ValidRequestPredicts | src/ml/prediction.py:76-84 | a valid request returns the rounded yield and waste predictions, and the profit as the rounded unrounded yield times 20000 |
| Prediction.LandAreaNotValidated | src/ml/prediction.py:61-67 | the land area never affects whether an error is returned or which one |

## Left out

- Store mechanics are left out. This covers `Waste.find`, `populate`, `findById`, `findByIdAndUpdate` and the other single-call exports of the waste service. It also covers the 2dsphere index and the geometry of `$near`. Proximity is a parameter of `WasteService.Matches`.
- Schema.ValidationMessage: for two or more failing paths, the order of the entries is Mongoose's and is not modelled. Mongoose lists unset required paths by walking its required paths backwards and set paths in assignment order, so with two or more errors the message can list the same entries in a different order. The model lists them in schema declaration order. The prefix, the set of entries and the single-error message are as Mongoose gives them.
- A stored document's identifier is modelled as its position in the store, not a generated ObjectId. Creation and update timestamps are not modelled.
- Auth0's management client, the JWKS client, RS256 verification, and the audience and issuer checks are parameters. The `console.error` logging is left out.
- Asynchronous control flow is left out. Only each middleware's final effect is modelled: the request user, the response, and whether `next` is called.
- The controllers, the routes, the server start-up and configuration, and the Flask handler are not part of this model.
- Model training is not part of this model: random training data, label encoding, regressor fitting and prediction. The regressors and Python's `round` are parameters of `Prediction.Predictor`, and the interactive `__main__` block is left out.
- Numbers are exact reals. Floating-point rounding is not modelled, so `EnvironmentalImpact.ImpactIsLinear` holds of the model, not bit for bit of JavaScript doubles. NaN is not a `Js.Value`.
- EnvironmentalImpact.CalculateEnvironmentalImpact: looks up only the table's own keys. In JavaScript an inherited key such as `constructor` finds a truthy non-row object; that case is not modelled.
- Strings.ToLower: lower-cases only ASCII letters, where JavaScript's `toLowerCase` also maps non-ASCII letters.
- WasteModel.CreateListing: an absent `location.coordinates` is treated as missing. Mongoose initialises array paths to an empty array, and whether its `required` check accepts that depends on the Mongoose version.
- UserModel.Insert: checks `auth0Id_1` before `email_1` when both duplicate, and it is atomic. Concurrent inserts and the store's choice of which index to report are not modelled.
- WasteService.Matches: filter values are compared by equality only. Query strings such as `?cropType=a&cropType=b` give array values, which Mongoose would turn into an `$in`. Operator objects such as `?status[$ne]=sold` would run as MongoDB operators. Both are outside this model, which takes such a filter to match no listing.
- UserService.CreateUser: the registration fields are typed as optional strings and records. A truthy non-string identity from the JSON body, which passes the first check and then fails inside the `try` with a prefixed TypeError, is not modelled.
- UserModel.StoreErrorMessage: the duplicate-key text gives the index only. MongoDB's message also names the `<database>.users` namespace and the duplicate value (`dup key: { … }`), which depend on the deployment and are not modelled.
- Mongoose type casting is left out. Inputs arrive already typed, for example a Number path holds a number. Cast errors are not modelled, and neither are the user schema's text and secondary indexes.
