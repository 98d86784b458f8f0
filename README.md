# Legal-case backend: store semantics, account workflows and permissions

This project models the rule-bearing core of a Django back end for Italian
citizenship-by-descent cases. Customers are appellants; lawyers and admins file
a case for them. Everything is stated over an in-memory store: each table is a
map from primary key to row, and a row's identity is its key.

- **Users and tokens** (`UserModels`, `UserSerializers`, `UserPermissions`).
  `CustomUserManager` enforces that an email is required and that a superuser
  is always stored as a super admin. Admin provisioning always ends with a
  generated ten-character password. Login and change-password validation are
  modelled, and so is the reset-token life cycle: forgot-password issues one
  token, an expired token is deleted, and a successful reset removes every
  token of the user. Who may create users is a separate predicate.
- **Cases** (`CaseModels`, `CaseSerializers`). `CaseStore` is a class that holds
  the Address, Case, Generation and Appellant tables. Its methods are the ORM
  primitives the serializer calls. `CaseSerializers.Create` and
  `CaseSerializers.Update` follow `CaseSerializer.create` and `update` step by
  step:
  - a nested address is created, or updated in place through the `setattr`
    loop;
  - generations are deleted and recreated only when supplied;
  - the appellant set is replaced only when supplied;
  - the total payment is recomputed on every save.

  The postconditions of `Create`, `Update` and the store primitives give the
  whole new state of every table as a function of the old state. Lemmas beside
  the methods state what those functions mean: same record, other keys kept,
  other cases untouched, one row per item. `to_representation` is a function.
  Lemmas state what it shows key by key, and that collapsing each nested
  object back to its key gives the stored row.
- **Case permissions** (`CasePermissions`): the view, create and revise
  decision tables over the five roles.
- **Appellant provisioning** (`CaseServices`): `create_appellant_with_user`.
- **Document text** (`CaseUtils`). This covers the part of
  `generate_legal_document` that builds text:
  - the numbered appellant lines;
  - the `(text, bold)` paragraph list, with generations grouped by label in
    order of first occurrence;
  - the output file name;
  - `get_object_or_none`.

  The grouping loop is a method proved against the specification functions
  `FirstOccurrences`, `LabelsOf` and `DescsLabelled`.

Collaborators that cannot be seen become parameters:
- `calculate_total_payment` is the store's `fee` function of the appellant set;
- `normalize_email` is the user store's `normalize` function;
- `authenticate` is its optional result;
- random strings are caller-supplied values with the required length and alphabet;
- the clock is an integer `now` in seconds.

A null column inside an f-string renders as `None`, because that is what
`getattr` returns for a null column. Only a missing attribute, or an attribute
of a missing address, gives the empty string.

## Model

| member | source | states |
|---|---|---|
| UserModels.StoredRole | users/models.py:15-22 | an `is_superuser` request always stores super_admin; otherwise the requested role, defaulting to customer |
| UserModels.NewUserDefaults | users/models.py:24-55 | `NewUser` is the row `self.model(...)` builds with the model's field defaults; a user built without extra fields is active, not staff, not superuser, a customer, has empty names and keeps the email |
| UserModels.SuperuserExtras | users/models.py:29-31 | `is_staff` and `is_superuser` become true when not supplied; supplied values and every other field are kept |
| UserModels.IsExpired | users/models.py:70-71 | a token is expired exactly when more than 3600 seconds have passed since its creation |
| UserModels.ExpiryBoundary | users/models.py:70-71 | a token exactly one hour old is still valid, and one second later it is expired |
| UserModels.ExpiryIsPermanent | users/models.py:70-71 | an expired token stays expired at every later time |
| UserModels.UserStore.CreateUser | users/models.py:14-27 | an empty email fails with EmailRequired; a taken normalized email fails; both failures create nothing; otherwise exactly one fresh row is added with the normalized email, the password, the stored role and the defaults; tokens are unchanged; emails stay unique |
| UserModels.UserStore.CreateSuperuser | users/models.py:29-36 | like `create_user`, with the superuser keyword defaults; it succeeds iff the email is non-empty and its normalized form is not taken; a created superuser is always super_admin |
| UserModels.UserStore.SetPassword | users/serializers.py:134-135 | only the password of that one user changes |
| UserModels.UserStore.CreateToken | users/models.py:73-76 | adds exactly one token, the given 64-character string, owned by the user and stamped `now`; a colliding string fails and adds nothing; users are unchanged |
| UserModels.UserStore.DeleteTokensOf | users/serializers.py:138 | the token table becomes the tokens of other owners |
| UserModels.UserStore.DeleteToken | users/serializers.py:126 | exactly that token is removed |
| UserModels.TokensNotOwnedBy | users/serializers.py:138 | keeps exactly the tokens whose owner differs, with their rows unchanged |
| UserSerializers.AdminCreateUser | users/serializers.py:21-52 | succeeds iff the email is non-empty and its normalized form is not taken; on success the new user holds the generated password whatever password the payload carried; an empty email fails and creates nothing |
| UserSerializers.ValidateLogin | users/serializers.py:68-76 | no user gives "Invalid email or password."; an inactive user gives "User account is disabled."; in that order; otherwise the user itself |
| UserSerializers.ValidateOldPassword | users/serializers.py:82-86 | accepts exactly the user's current password and returns it; otherwise WrongOldPassword |
| UserSerializers.ForgotPassword | users/serializers.py:92-113 | an unknown email fails and adds no token; a known email with an unused token string succeeds; a token string already in use fails; success adds exactly one new token, owned by the user with that email, and returns the email |
| UserSerializers.ValidateReset | users/serializers.py:119-130 | an unknown token fails and changes nothing; an expired one is deleted and fails; a live one yields its owner and stays |
| UserSerializers.SaveReset | users/serializers.py:132-138 | the owner's password becomes the new one and every token of that owner is deleted; other tokens stay |
| UserSerializers.ResetPassword | users/serializers.py:119-138 | the three outcomes of a reset request with the exact new state of users and tokens in each |
| UserSerializers.ResetConsumesToken | users/serializers.py:132-138 | after a successful reset the used token and every other token of that user are gone |
| UserPermissions.IsSuperAdmin | users/permissions.py:7-11 | the create action is granted iff the user is signed in with role super_admin; every other action is granted |
| UserPermissions.OnlySuperAdminCreates | users/permissions.py:9-10 | the anonymous user and every role other than super_admin are refused create |
| CaseModels.CaseStore.CreateAddress | cases/serializers.py:75 | one fresh address row holding exactly the attributes |
| CaseModels.CaseStore.SaveAddress | cases/serializers.py:104-106 | only that address row changes |
| CaseModels.CaseStore.CreateCase | cases/serializers.py:83 | one fresh case row with the given content |
| CaseModels.CaseStore.SaveCase | cases/serializers.py:88 | only that case row changes |
| CaseModels.CaseStore.CreateGeneration | cases/serializers.py:92 | one fresh generation row referencing the case |
| CaseModels.CaseStore.DeleteGenerationsOf | cases/serializers.py:120 | removes exactly the generations of that case |
| CaseModels.CaseStore.CreateAppellant | cases/services.py:20 | one fresh appellant row with the attributes and the user link |
| CaseModels.GenerationsOfOtherCases | cases/serializers.py:120 | keeps exactly the generations of other cases, unchanged |
| CaseSerializers.AsSet | cases/serializers.py:86 | the appellant set holds exactly the listed ids |
| CaseSerializers.CreatorFields | cases/serializers.py:65-67 | an authenticated requester becomes `created_by`, overriding the payload; other columns are kept; anonymous requests store the payload as is |
| CaseSerializers.ApplyAttributes | cases/serializers.py:124-125 | the `setattr` loop writes every payload key and keeps every other key |
| CaseSerializers.AppliedIsUnion | cases/serializers.py:104-105 | the result of the `setattr` loop is the map union of row and payload |
| CaseSerializers.UpdateInPlace | cases/serializers.py:102-106 | a non-empty payload for a linked address keeps the link and the set of rows; it overwrites the supplied keys of that row, keeps its other keys and leaves other rows alone |
| CaseSerializers.CreateOnlyWhenUnlinked | cases/serializers.py:102-116 | a row is added iff the payload is non-empty and no address was linked; the new row holds exactly the payload; an empty or absent payload changes nothing |
| CaseSerializers.UpsertPlace | cases/serializers.py:102-108 | the address table and link after one nested payload, and that the link points at a row |
| CaseSerializers.NewGenerationsAt | cases/serializers.py:91-92 | the created rows sit exactly at the consecutive keys, the k-th holding the k-th payload item for the case |
| CaseSerializers.ReplaceGenerations | cases/serializers.py:119-122 | a supplied list, even an empty one, leaves the case with exactly one generation per item; other cases' generations are unchanged; the earlier ones of the case are gone |
| CaseSerializers.AddGenerations | cases/serializers.py:91-92 | the loop adds exactly the rows of `NewGenerations` at the next keys |
| CaseSerializers.CreatePlaces | cases/serializers.py:74-80 | an address is created for each non-empty nested payload, and for nothing else |
| CaseSerializers.InsertCase | cases/serializers.py:83-88 | the saved row carries the appellant set and the fee of that set |
| CaseSerializers.CreateCaseRow | cases/serializers.py:65-88 | the new case row with creator, addresses, appellant set and payment; generations and appellants are untouched |
| CaseSerializers.Create | cases/serializers.py:64-94 | the whole new state after a create: addresses, the fresh case row, one generation per item referencing it, appellants unchanged |
| CaseSerializers.UpdatePlaces | cases/serializers.py:102-116 | the two nested payloads update linked addresses in place or create missing ones |
| CaseSerializers.ReplaceGenerationsOf | cases/serializers.py:119-122 | without a generations key the table is unchanged; with one it becomes `GenerationsAfter` |
| CaseSerializers.SaveUpdatedCase | cases/serializers.py:124-131 | the fields are overwritten; the appellant set is replaced only if supplied; the payment is recomputed from the resulting set |
| CaseSerializers.Update | cases/serializers.py:96-133 | the whole new state after an update: addresses, the same case key with its new row, generations, appellants unchanged |
| CaseSerializers.ViewOfAppellant | cases/serializers.py:24-34 | an appellant is shown with exactly its readable columns and never its password |
| CaseSerializers.ShowPlace | cases/serializers.py:37-40 | a nested address is an object iff the case links one, and then it is that whole row with its key; an unlinked one is null |
| CaseSerializers.GenerationViews | cases/serializers.py:43-48 | one generation object per listed generation, in the listed order |
| CaseSerializers.AppellantViews | cases/serializers.py:140 | one appellant object per listed appellant, in the listed order |
| CaseSerializers.Represent | cases/serializers.py:51-62 | with `fields = "__all__"` the representation has exactly the case's columns plus the key, the payment, both addresses, the generations and the appellants; the lists are taken in the order the two querysets yield the case's own rows, each once (`QueriedFor`) |
| CaseSerializers.RepresentShape | cases/serializers.py:135-150 | the key and the payment are shown as stored; exactly the set user links become user objects; other columns are shown as stored; each linked address is its whole row, null when unlinked; the generation and appellant lists follow the query order |
| CaseSerializers.RepresentListsEachOnce | cases/serializers.py:135-150 | the appellant list holds every appellant of the case's set and no other, each once; the generation list holds every generation referencing the case and no other, each once |
| CaseSerializers.RepresentCollapses | cases/serializers.py:135-150 | collapsing each user or address object to its key gives back every stored column: plain columns, user keys, the key, the payment and both address keys |
| CaseSerializers.RepresentAddsOnlyLists | cases/serializers.py:135-150 | the representation adds exactly the generation and appellant lists to the stored row's columns |
| CasePermissions.LawyerOf | cases/permissions.py:20 | the case's lawyer is present iff the `lawyer` column is a set reference |
| CasePermissions.CanViewCaseObject | cases/permissions.py:10-20 | creator roles and customers are granted; an internal lawyer is granted iff the case's lawyer is that user |
| CasePermissions.CanViewCaseRequest | cases/permissions.py:22-24 | the request-level view check always grants, to anonymous requests too |
| CasePermissions.CanCreateCase | cases/permissions.py:33-37 | every method but POST passes, for anonymous requests too; a signed-in POST is granted iff the role is super_admin, admin or external_lawyer; only an anonymous POST raises, because it reads `role` |
| CasePermissions.CanReviseCaseObject | cases/permissions.py:41-47 | granted iff the role is super_admin or admin |
| CasePermissions.CanReviseCaseRequest | cases/permissions.py:49-54 | granted iff the role is super_admin or admin |
| CasePermissions.ViewDeniedOnlyToUnassignedInternalLawyer | cases/permissions.py:10-20 | object view is refused iff the user is an internal lawyer not assigned to the case |
| CasePermissions.CustomerViewsButCannotCreate | cases/permissions.py:13-37 | a customer may view any case object but may not POST a case |
| CasePermissions.CreatorsViewEverything | cases/permissions.py:13-36 | every role allowed to create a case may view every case object |
| CasePermissions.RevisionLevelsAgree | cases/permissions.py:41-54 | the request-level and object-level revision checks agree |
| CasePermissions.RevisersAreCreators | cases/permissions.py:33-54 | every reviser may create; an external lawyer may create but not revise |
| CaseServices.ChosenPassword | cases/services.py:9-11 | a supplied non-empty password is used verbatim; otherwise the generated one |
| CaseServices.AccountExtras | cases/services.py:17 | the account's only extra field is the first name, the appellant name or "" |
| CaseServices.ChosenPasswordUsable | cases/services.py:9-11 | the chosen password is never empty; if it is not the generated one, it is the supplied one |
| CaseServices.AccountIsCustomer | cases/services.py:13-18 | the account is a customer named after the appellant, whatever the data holds |
| CaseServices.CreateAppellantWithUser | cases/services.py:8-23 | a missing email fails with MissingKey and changes nothing; an empty email fails with EmailRequired; it succeeds iff the email is non-empty and its normalized form is not taken; the password is `ChosenPassword`; success creates one customer user and one appellant linked to exactly that user, without the password key; the returned password is the one the user was created with |
| CaseUtils.Field | cases/utils.py:51-53 | a missing attribute renders as "" and a present one as its `str` (`Render`: null as "None", flags as "True"/"False", numbers and keys in decimal) |
| CaseUtils.PlaceField | cases/utils.py:76-81 | an attribute of a missing address renders as "" |
| CaseUtils.RawField | cases/utils.py:124 | a null clause becomes an empty run |
| CaseUtils.AppellantLinesDiffer | cases/utils.py:49-55 | lines with different numbers differ, whatever the appellants hold |
| CaseUtils.AppellantLinesDistinct | cases/utils.py:48-55 | `AppellantLines` gives one line per appellant in query order, the k-th being `AppellantLine(k + 1, ...)`: the number, ") " and `AppellantDetails`, the six columns with the fixed wording between them; the lines of a case are pairwise distinct |
| CaseUtils.FactParagraphs | cases/utils.py:68-82 | five paragraphs: the bold "IN FATTO" heading, then four plain ones |
| CaseUtils.ClosingParagraphs | cases/utils.py:108-138 | five paragraphs, the second being the bold `clause_2` |
| CaseUtils.LabelHead | cases/utils.py:85-97 | `GenerationLabel` names generations 1 to 4 "Prima" to "Quarta Generazione" and any other n "n° Generazione"; the first character tells the four fixed labels from each other and from the numbered ones |
| CaseUtils.GenerationLabelInjective | cases/utils.py:85-97 | different generation numbers get different labels |
| CaseUtils.LabelsOf | cases/utils.py:95-97 | one label per generation |
| CaseUtils.FirstOccurrences | cases/utils.py:98-102 | the keys of `generations_dict` are exactly the labels that occur, each once |
| CaseUtils.FirstIndex | cases/utils.py:98-99 | the position of the first occurrence of a label |
| CaseUtils.FirstOccurrencesInOrder | cases/utils.py:91-102 | the groups come in the order in which their labels first occur |
| CaseUtils.DescsOfAbsentLabel | cases/utils.py:98-100 | a label no generation carries has no descriptions |
| CaseUtils.DescCountStep | cases/utils.py:100-105 | one more generation adds one description line, to its own group |
| CaseUtils.EveryGenerationCounted | cases/utils.py:100-105 | every generation contributes exactly one description line |
| CaseUtils.DescLines | cases/utils.py:104-105 | one plain "- desc" paragraph per description, in order |
| CaseUtils.Blocks | cases/utils.py:102-105 | the group block has one heading per group plus its description lines |
| CaseUtils.GroupBlockLength | cases/utils.py:102-105 | `GroupBlock`, the generation block, adds #groups + #generations paragraphs |
| CaseUtils.OrderStep | cases/utils.py:95-99 | a generation extends the key order by its label exactly when that label is new |
| CaseUtils.DescsStep | cases/utils.py:98-100 | filing a generation keeps every group equal to the descriptions of its label, in input order |
| CaseUtils.GroupGenerations | cases/utils.py:91-100 | the loop builds the key order `FirstOccurrences` and the groups `DescsLabelled` |
| CaseUtils.AppendDescLines | cases/utils.py:104-105 | appends exactly the description lines |
| CaseUtils.AppendGroups | cases/utils.py:102-105 | appends exactly the group block |
| CaseUtils.CaseText | cases/utils.py:68-138 | `case_text` is the fact paragraphs, the group block and the closing paragraphs, 10 + #groups + #generations entries |
| CaseUtils.FileNameInjective | cases/utils.py:190 | `FileName` is `legal_case_<id>_<court_no>.docx`; the file name determines the case id and the court number |
| CaseUtils.CaseFileNamesDiffer | cases/utils.py:190 | the documents of two different cases get different file names, whatever their court numbers |
| CaseUtils.GetObjectOrNone | cases/utils.py:199-203 | no match gives None; a unique match gives that row; several matches give MultipleObjectsReturned |

## Left out

- Document rendering is not modelled: fonts, alignment, headings, the date line, the paragraphs after `case_text`, and saving the file. Only the `(text, bold)` list and the file name are modelled.
- Google Drive folder creation and file upload, the signal handlers, PayPal, e-mail delivery, JWT issuance and password hashing are foreign calls. The stored password is the raw string it was set from, and `None` is the unusable password.
- `calculate_total_payment`: cases/models.py defines no Case class, and `calculate_total_payment` is only called (cases/serializers.py:87, :130). The payment is an arbitrary function `fee` of the appellant set.
- `normalize_email` and `authenticate` are library functions. They are a function parameter and an optional input respectively.
- `random.choices` and `get_random_string` become caller-supplied strings of the required length and alphabet.
- The clock is an integer in seconds. Time zones are not modelled.
- UserSerializers.AdminCreateUser: a failing welcome e-mail is caught and printed, so it cannot change the outcome. The message is not modelled.
- UserSerializers.ForgotPassword: the reset e-mail is not sent in the model. A failure to send it in the code would propagate after the token was saved.
- `UserSerializer.create` is a plain `create_user` call. `CreateUser` covers it.
- CasePermissions.CanViewCaseObject, CasePermissions.CanReviseCaseObject and CasePermissions.CanReviseCaseRequest take a signed-in principal. They read `user.role` first, so for an anonymous user the code raises instead of deciding, and the model leaves that case out. The two other request-level checks take the request user, anonymous or not.
- CaseSerializers.Represent: the appellants' nested `files` are not shown. The columns of a case are the ones its row holds, since cases/models.py defines no Case class.
- CaseUtils.Render: a foreign-key column renders as its id. The code renders the related object's `__str__`, which is not modelled: cases/models.py defines only Appellant and AppellantFile.
- CaseUtils.CaseText: the long fixed narrative paragraph is an uninterpreted constant, not its wording. The order of `case.generations.all()` is taken as the given sequence.
- CaseUtils.GetObjectOrNone: it is a ghost function over a table and a filter predicate. Django's query machinery is not modelled.
- DRF field validation, migrations, the admin site, URL routing and views are not modelled.
