/** `CaseSerializer` (cases/serializers.py): how creating and updating a case
    writes the Address, Case and Generation tables, and how a case is shown. */
module CaseSerializers {
  import opened Wrappers
  import opened UserModels
  import opened CaseModels

  /** The validated payload of a case request, after DRF validation. The
      nested keys are popped from `fields` by the serializer; `None` stands for
      a key that was not supplied. */
  datatype CasePayload = CasePayload(
    fields: Attrs,
    appellants: Option<seq<AppellantId>>,
    marriagePlace: Option<Attrs>,
    grandParentsDop: Option<Attrs>,
    generations: Option<seq<GenerationData>>)

  /** `if data:` on a nested address payload: present and not an empty dict. */
  predicate Supplied(data: Option<Attrs>) {
    data.Some? && |data.value| > 0
  }

  function AsSet(ids: seq<AppellantId>): (s: set<AppellantId>)
    ensures forall x :: x in s <==> x in ids
  {
    set x | x in ids
  }

  /** The columns a create stores: an authenticated request user becomes
      `created_by`, overriding whatever the payload said. */
  function CreatorFields(fields: Attrs, requester: RequestUser): (r: Attrs)
    ensures requester.SignedIn? ==> "created_by" in r && r["created_by"] == Ref(requester.principal.id)
    ensures requester.Anonymous? ==> r == fields
    ensures r.Keys == fields.Keys + (if requester.SignedIn? then {"created_by"} else {})
    ensures forall k :: k in fields && k != "created_by" ==> r[k] == fields[k]
  {
    match requester
    case Anonymous => fields
    case SignedIn(p) => fields["created_by" := Ref(p.id)]
  }

  /** The `setattr` loop: every key of `data` is written onto `target`;
      keys `data` does not mention keep their value. */
  method ApplyAttributes(target: Attrs, data: Attrs) returns (r: Attrs)
    ensures r.Keys == target.Keys + data.Keys
    ensures forall k :: k in data ==> r[k] == data[k]
    ensures forall k :: k in target && k !in data ==> r[k] == target[k]
  {
    r := target;
    var pending := data.Keys;
    while pending != {}
      invariant pending <= data.Keys
      invariant r.Keys == target.Keys + (data.Keys - pending)
      invariant forall k :: k in data && k !in pending ==> r[k] == data[k]
      invariant forall k :: k in r && k !in data ==> r[k] == target[k]
      decreases pending
    {
      var k :| k in pending;
      r := r[k := data[k]];
      pending := pending - {k};
    }
  }

  lemma AppliedIsUnion(target: Attrs, data: Attrs, r: Attrs)
    requires r.Keys == target.Keys + data.Keys
    requires forall k :: k in data ==> r[k] == data[k]
    requires forall k :: k in target && k !in data ==> r[k] == target[k]
    ensures r == target + data
  {
  }

  /** The address a case links to after one nested payload was handled. */
  function PlaceLinkAfter(link: Option<AddressId>, data: Option<Attrs>, newKey: AddressId): Option<AddressId> {
    if !Supplied(data) then link else if link.Some? then link else Some(newKey)
  }

  /** The address table after one nested payload was handled: a linked
      address is updated in place, an unlinked case gets a new address. */
  function AddressesAfter(addresses: map<AddressId, Attrs>, link: Option<AddressId>, data: Option<Attrs>, newKey: AddressId)
    : map<AddressId, Attrs>
    requires link.Some? ==> link.value in addresses
  {
    if !Supplied(data) then addresses
    else if link.Some? then addresses[link.value := addresses[link.value] + data.value]
    else addresses[newKey := data.value]
  }

  /** A non-empty payload for a linked address changes that very row: the
      link stays, supplied keys are overwritten, other keys kept, no other
      row changes and no row is added. */
  lemma UpdateInPlace(addresses: map<AddressId, Attrs>, a: AddressId, data: Attrs, newKey: AddressId)
    requires a in addresses && |data| > 0
    ensures PlaceLinkAfter(Some(a), Some(data), newKey) == Some(a)
    ensures var r := AddressesAfter(addresses, Some(a), Some(data), newKey);
      && r.Keys == addresses.Keys
      && r[a].Keys == addresses[a].Keys + data.Keys
      && (forall k :: k in data ==> r[a][k] == data[k])
      && (forall k :: k in addresses[a] && k !in data ==> r[a][k] == addresses[a][k])
      && (forall b :: b in addresses && b != a ==> r[b] == addresses[b])
  {
  }

  /** A new address is created only for a non-empty payload and only when no
      address was linked; then it holds exactly the payload. */
  lemma CreateOnlyWhenUnlinked(addresses: map<AddressId, Attrs>, link: Option<AddressId>, data: Option<Attrs>, newKey: AddressId)
    requires link.Some? ==> link.value in addresses
    requires newKey !in addresses
    ensures var r := AddressesAfter(addresses, link, data, newKey);
      && (r.Keys == addresses.Keys + {newKey} <==> Supplied(data) && link.None?)
      && (Supplied(data) && link.None? ==> r[newKey] == data.value && PlaceLinkAfter(link, data, newKey) == Some(newKey))
      && (!Supplied(data) ==> r == addresses && PlaceLinkAfter(link, data, newKey) == link)
  {
    var r := AddressesAfter(addresses, link, data, newKey);
    if !(Supplied(data) && link.None?) {
      assert newKey !in r;
    }
  }

  /** Lines 102-108 (and 110-116): update the linked address in place or
      create one, when the nested payload is non-empty. */
  method UpsertPlace(store: CaseStore, link: Option<AddressId>, data: Option<Attrs>) returns (newLink: Option<AddressId>)
    requires store.Valid()
    requires link.Some? ==> link.value in store.addresses
    modifies store`addresses, store`nextAddress
    ensures store.Valid()
    ensures newLink == PlaceLinkAfter(link, data, old(store.nextAddress))
    ensures newLink.Some? ==> newLink.value in store.addresses
    ensures store.addresses == AddressesAfter(old(store.addresses), link, data, old(store.nextAddress))
    ensures store.nextAddress == old(store.nextAddress) + (if Supplied(data) && link.None? then 1 else 0)
  {
    newLink := link;
    if Supplied(data) {
      if link.Some? {
        var attrs := ApplyAttributes(store.addresses[link.value], data.value);
        AppliedIsUnion(store.addresses[link.value], data.value, attrs);
        store.SaveAddress(link.value, attrs);
      } else {
        var id := store.CreateAddress(data.value);
        newLink := Some(id);
      }
    }
  }

  /** The rows `Generation.objects.create` adds for `data`, one per item, at
      consecutive fresh keys from `start`. */
  function NewGenerations(caseId: CaseId, start: GenerationId, data: seq<GenerationData>): map<GenerationId, Generation> {
    if |data| == 0 then map[]
    else NewGenerations(caseId, start, data[..|data| - 1])[start + |data| - 1 := Generation(caseId, data[|data| - 1].number, data[|data| - 1].desc)]
  }

  /** The new rows sit exactly at keys `start .. start + |data| - 1`, the
      `k`-th holding the `k`-th payload item. */
  lemma {:induction false} NewGenerationsAt(caseId: CaseId, start: GenerationId, data: seq<GenerationData>)
    ensures forall g :: g in NewGenerations(caseId, start, data) <==> start <= g < start + |data|
    ensures forall k :: 0 <= k < |data| ==> NewGenerations(caseId, start, data)[start + k] == Generation(caseId, data[k].number, data[k].desc)
  {
    if |data| > 0 {
      NewGenerationsAt(caseId, start, data[..|data| - 1]);
    }
  }

  /** The generation table after an update: untouched without a generations
      key, otherwise the case's rows are replaced by exactly the new list. */
  function GenerationsAfter(generations: map<GenerationId, Generation>, caseId: CaseId,
                            data: Option<seq<GenerationData>>, start: GenerationId): map<GenerationId, Generation> {
    if data.None? then generations
    else GenerationsOfOtherCases(generations, caseId) + NewGenerations(caseId, start, data.value)
  }

  /** Supplying generations (even an empty list) deletes every earlier
      generation of the case, creates exactly one row per item in order, and
      leaves other cases' generations alone. */
  lemma ReplaceGenerations(generations: map<GenerationId, Generation>, caseId: CaseId,
                           data: seq<GenerationData>, start: GenerationId)
    requires forall g :: g in generations ==> g < start
    ensures var r := GenerationsAfter(generations, caseId, Some(data), start);
      && (forall g :: g in r && r[g].caseId == caseId <==> start <= g < start + |data|)
      && (forall k :: 0 <= k < |data| ==> r[start + k] == Generation(caseId, data[k].number, data[k].desc))
      && (forall g :: g in generations && generations[g].caseId != caseId ==> g in r && r[g] == generations[g])
      && (forall g :: g in generations && generations[g].caseId == caseId ==> g !in r)
  {
    NewGenerationsAt(caseId, start, data);
    var others := GenerationsOfOtherCases(generations, caseId);
    var added := NewGenerations(caseId, start, data);
    var r := others + added;
    forall g | start <= g < start + |data|
      ensures g in r && r[g].caseId == caseId
    {
      assert added[start + (g - start)] == Generation(caseId, data[g - start].number, data[g - start].desc);
    }
  }

  lemma UnionUpdate<K, V>(a: map<K, V>, b: map<K, V>, k: K, v: V)
    ensures a + b[k := v] == (a + b)[k := v]
  {
  }

  /** Appending one payload item adds one row at the next key. */
  lemma NewGenerationsSnoc(caseId: CaseId, start: GenerationId, data: seq<GenerationData>, i: nat)
    requires i < |data|
    ensures NewGenerations(caseId, start, data[..i + 1])
         == NewGenerations(caseId, start, data[..i])[start + i := Generation(caseId, data[i].number, data[i].desc)]
  {
    assert data[..i + 1][..i] == data[..i];
  }

  /** The table after one more item, as one update of the table before it. */
  lemma AddedAtNextKey(base: map<GenerationId, Generation>, caseId: CaseId, start: GenerationId, data: seq<GenerationData>, i: nat)
    requires i < |data|
    ensures (base + NewGenerations(caseId, start, data[..i]))[start + i := Generation(caseId, data[i].number, data[i].desc)]
         == base + NewGenerations(caseId, start, data[..i + 1])
  {
    NewGenerationsSnoc(caseId, start, data, i);
    UnionUpdate(base, NewGenerations(caseId, start, data[..i]), start + i, Generation(caseId, data[i].number, data[i].desc));
  }

  /** One turn of the loop of lines 91-92: the `i`-th item is created at the
      next key. */
  method AddGeneration(store: CaseStore, caseId: CaseId, data: seq<GenerationData>, i: nat,
                       ghost base: map<GenerationId, Generation>, ghost start: GenerationId)
    requires store.Valid() && caseId in store.cases && i < |data|
    requires store.nextGeneration == start + i
    requires store.generations == base + NewGenerations(caseId, start, data[..i])
    modifies store`generations, store`nextGeneration
    ensures store.Valid() && caseId in store.cases
    ensures store.nextGeneration == start + i + 1
    ensures store.generations == base + NewGenerations(caseId, start, data[..i + 1])
  {
    AddedAtNextKey(base, caseId, start, data, i);
    var g := store.CreateGeneration(caseId, data[i]);
  }

  /** Lines 91-92 (and 121-122): one `Generation` per payload item. */
  method AddGenerations(store: CaseStore, caseId: CaseId, data: seq<GenerationData>)
    requires store.Valid() && caseId in store.cases
    modifies store`generations, store`nextGeneration
    ensures store.Valid()
    ensures store.generations == old(store.generations) + NewGenerations(caseId, old(store.nextGeneration), data)
    ensures store.nextGeneration == old(store.nextGeneration) + |data|
  {
    ghost var start, base := store.nextGeneration, store.generations;
    var i := 0;
    while i < |data|
      invariant 0 <= i <= |data|
      invariant store.Valid() && caseId in store.cases
      invariant store.nextGeneration == start + i
      invariant store.generations == base + NewGenerations(caseId, start, data[..i])
    {
      AddGeneration(store, caseId, data, i, base, start);
      i := i + 1;
    }
    assert data[..|data|] == data;
  }

  lemma OverwriteTwice<K, V>(m: map<K, V>, k: K, a: V, b: V)
    ensures m[k := a][k := b] == m[k := b]
  {
  }

  /** Lines 70-80 of `CaseSerializer.create`: a fresh case has no address
      yet, so each non-empty nested payload creates one. */
  method CreatePlaces(store: CaseStore, p: CasePayload) returns (marriagePlace: Option<AddressId>, grandParentsDop: Option<AddressId>)
    requires store.Valid()
    modifies store`addresses, store`nextAddress
    ensures store.Valid()
    ensures var next0 := old(store.nextAddress);
            var next1 := next0 + (if Supplied(p.marriagePlace) then 1 else 0);
            && marriagePlace == PlaceLinkAfter(None, p.marriagePlace, next0)
            && grandParentsDop == PlaceLinkAfter(None, p.grandParentsDop, next1)
            && store.addresses == AddressesAfter(AddressesAfter(old(store.addresses), None, p.marriagePlace, next0),
                                                 None, p.grandParentsDop, next1)
    ensures LinksIn(CaseRecord(map[], marriagePlace, grandParentsDop, {}, 0), store.addresses)
  {
    marriagePlace := UpsertPlace(store, None, p.marriagePlace);
    grandParentsDop := UpsertPlace(store, None, p.grandParentsDop);
  }

  /** Lines 83-88 of `CaseSerializer.create`: `Case.objects.create`, then the
      appellant set and the payment computed from it, saved again. */
  method InsertCase(store: CaseStore, c: CaseRecord, members: set<AppellantId>) returns (id: CaseId)
    requires store.Valid() && LinksIn(c, store.addresses) && members <= store.appellants.Keys
    modifies store`cases, store`nextCase
    ensures store.Valid()
    ensures id == old(store.nextCase) && id !in old(store.cases)
    ensures store.cases == old(store.cases)[id := c.(appellants := members, totalPayment := store.fee(members))]
  {
    var row := c.(appellants := {});
    id := store.CreateCase(row);
    row := row.(appellants := members);
    row := row.(totalPayment := store.fee(row.appellants));
    store.SaveCase(id, row);
    OverwriteTwice(old(store.cases), id, c.(appellants := {}), row);
  }

  /** Lines 65-88 of `CaseSerializer.create`: the nested addresses, the case
      row, its appellant set and its payment. */
  method CreateCaseRow(store: CaseStore, p: CasePayload, requester: RequestUser) returns (id: CaseId)
    requires store.Valid()
    requires p.appellants.Some? ==> (forall a :: a in p.appellants.value ==> a in store.appellants)
    modifies store
    ensures store.Valid()
    ensures id == old(store.nextCase) && id !in old(store.cases)
    ensures var next0 := old(store.nextAddress);
            var next1 := next0 + (if Supplied(p.marriagePlace) then 1 else 0);
            var members := AsSet(p.appellants.GetOr([]));
            && store.addresses == AddressesAfter(AddressesAfter(old(store.addresses), None, p.marriagePlace, next0),
                                                 None, p.grandParentsDop, next1)
            && store.cases == old(store.cases)[id := CaseRecord(
                 CreatorFields(p.fields, requester),
                 PlaceLinkAfter(None, p.marriagePlace, next0),
                 PlaceLinkAfter(None, p.grandParentsDop, next1),
                 members, store.fee(members))]
    ensures store.generations == old(store.generations) && store.nextGeneration == old(store.nextGeneration)
    ensures store.appellants == old(store.appellants)
  {
    var marriagePlace, grandParentsDop := CreatePlaces(store, p);
    var members := AsSet(p.appellants.GetOr([]));
    id := InsertCase(store, CaseRecord(CreatorFields(p.fields, requester), marriagePlace, grandParentsDop, {}, 0), members);
  }

  /** `CaseSerializer.create`. */
  method Create(store: CaseStore, p: CasePayload, requester: RequestUser) returns (id: CaseId)
    requires store.Valid()
    requires p.appellants.Some? ==> (forall a :: a in p.appellants.value ==> a in store.appellants)
    modifies store
    ensures store.Valid()
    ensures id == old(store.nextCase) && id !in old(store.cases)
    ensures var next0 := old(store.nextAddress);
            var next1 := next0 + (if Supplied(p.marriagePlace) then 1 else 0);
            var members := AsSet(p.appellants.GetOr([]));
            && store.addresses == AddressesAfter(AddressesAfter(old(store.addresses), None, p.marriagePlace, next0),
                                                 None, p.grandParentsDop, next1)
            && store.cases == old(store.cases)[id := CaseRecord(
                 CreatorFields(p.fields, requester),
                 PlaceLinkAfter(None, p.marriagePlace, next0),
                 PlaceLinkAfter(None, p.grandParentsDop, next1),
                 members, store.fee(members))]
    ensures store.generations == old(store.generations) + NewGenerations(id, old(store.nextGeneration), p.generations.GetOr([]))
    ensures store.appellants == old(store.appellants)
  {
    id := CreateCaseRow(store, p, requester);
    AddGenerations(store, id, p.generations.GetOr([]));
  }

  /** Lines 102-116 of `CaseSerializer.update`: each non-empty nested
      payload updates the linked address or creates one. */
  method UpdatePlaces(store: CaseStore, before: CaseRecord, p: CasePayload)
    returns (marriagePlace: Option<AddressId>, grandParentsDop: Option<AddressId>)
    requires store.Valid() && LinksIn(before, store.addresses)
    modifies store`addresses, store`nextAddress
    ensures store.Valid()
    ensures var next0 := old(store.nextAddress);
            var next1 := next0 + (if Supplied(p.marriagePlace) && before.marriagePlace.None? then 1 else 0);
            && marriagePlace == PlaceLinkAfter(before.marriagePlace, p.marriagePlace, next0)
            && grandParentsDop == PlaceLinkAfter(before.grandParentsDop, p.grandParentsDop, next1)
            && store.addresses == AddressesAfter(AddressesAfter(old(store.addresses), before.marriagePlace, p.marriagePlace, next0),
                                                 before.grandParentsDop, p.grandParentsDop, next1)
    ensures LinksIn(before.(marriagePlace := marriagePlace, grandParentsDop := grandParentsDop), store.addresses)
  {
    marriagePlace := UpsertPlace(store, before.marriagePlace, p.marriagePlace);
    grandParentsDop := UpsertPlace(store, before.grandParentsDop, p.grandParentsDop);
  }

  /** Lines 119-122 of `CaseSerializer.update`: a supplied generation list,
      even an empty one, replaces the case's generations. */
  method ReplaceGenerationsOf(store: CaseStore, id: CaseId, data: Option<seq<GenerationData>>)
    requires store.Valid() && id in store.cases
    modifies store`generations, store`nextGeneration
    ensures store.Valid()
    ensures store.generations == GenerationsAfter(old(store.generations), id, data, old(store.nextGeneration))
  {
    if data.Some? {
      store.DeleteGenerationsOf(id);
      AddGenerations(store, id, data.value);
    }
  }

  /** Lines 124-131 of `CaseSerializer.update`: the plain columns are
      written and saved, then the appellant set (when supplied) and the
      payment computed from it are saved. */
  method SaveUpdatedCase(store: CaseStore, id: CaseId, instance: CaseRecord, fields: Attrs, appellants: Option<seq<AppellantId>>)
    requires store.Valid() && id in store.cases && LinksIn(instance, store.addresses)
    requires instance.appellants <= store.appellants.Keys
    requires appellants.Some? ==> (forall a :: a in appellants.value ==> a in store.appellants)
    modifies store`cases
    ensures store.Valid()
    ensures var members := if appellants.Some? then AsSet(appellants.value) else instance.appellants;
            store.cases == old(store.cases)[id := instance.(fields := instance.fields + fields,
                                                            appellants := members, totalPayment := store.fee(members))]
  {
    var row := instance;
    var updated := ApplyAttributes(row.fields, fields);
    AppliedIsUnion(row.fields, fields, updated);
    row := row.(fields := updated);
    store.SaveCase(id, row);
    ghost var saved := row;
    if appellants.Some? {
      row := row.(appellants := AsSet(appellants.value));
    }
    row := row.(totalPayment := store.fee(row.appellants));
    store.SaveCase(id, row);
    OverwriteTwice(old(store.cases), id, saved, row);
  }

  /** `CaseSerializer.update`. */
  method Update(store: CaseStore, id: CaseId, p: CasePayload)
    requires store.Valid() && id in store.cases
    requires p.appellants.Some? ==> (forall a :: a in p.appellants.value ==> a in store.appellants)
    modifies store
    ensures store.Valid()
    ensures var before := old(store.cases[id]);
            var next0 := old(store.nextAddress);
            var next1 := next0 + (if Supplied(p.marriagePlace) && before.marriagePlace.None? then 1 else 0);
            var members := if p.appellants.Some? then AsSet(p.appellants.value) else before.appellants;
            && store.addresses == AddressesAfter(AddressesAfter(old(store.addresses), before.marriagePlace, p.marriagePlace, next0),
                                                 before.grandParentsDop, p.grandParentsDop, next1)
            && store.cases == old(store.cases)[id := CaseRecord(
                 before.fields + p.fields,
                 PlaceLinkAfter(before.marriagePlace, p.marriagePlace, next0),
                 PlaceLinkAfter(before.grandParentsDop, p.grandParentsDop, next1),
                 members, store.fee(members))]
    ensures store.generations == GenerationsAfter(old(store.generations), id, p.generations, old(store.nextGeneration))
    ensures store.appellants == old(store.appellants)
  {
    var instance := store.cases[id];
    var marriagePlace, grandParentsDop := UpdatePlaces(store, instance, p);
    ghost var addresses := store.addresses;
    instance := instance.(marriagePlace := marriagePlace, grandParentsDop := grandParentsDop);
    ReplaceGenerationsOf(store, id, p.generations);
    ghost var generations := store.generations;
    SaveUpdatedCase(store, id, instance, p.fields, p.appellants);
    assert store.addresses == addresses && store.generations == generations;
  }

  /** `UserSerializer(user).data`: the write-only password is never shown. */
  datatype UserView = UserView(id: UserId, email: string, firstName: string, lastName: string, role: Role)

  /** `AppellantSerializer(appellant).data`, without the nested files. */
  datatype AppellantView = AppellantView(id: AppellantId, attrs: Attrs, user: Option<UserId>)

  /** `AddressSerializer(address).data`: the key and every column. */
  datatype AddressView = AddressView(id: AddressId, attrs: Attrs)

  /** `GenerationSerializer(generation).data`. */
  datatype GenerationView = GenerationView(id: GenerationId, caseId: CaseId, number: int, desc: string)

  /** One entry of a represented case. */
  datatype Shown =
    | Plain(v: Value)
    | UserObject(user: UserView)
    | AddressObject(address: AddressView)
    | GenerationList(generations: seq<GenerationView>)
    | AppellantList(items: seq<AppellantView>)

  /** The keys a represented case always has besides its plain columns: the
      primary key, the payment, the two nested addresses, the nested
      generations and the appellant list. */
  const CaseKeys: set<string> := {"id", "total_payment", "marriage_place", "grand_parents_dop", "generations", "appellants"}

  /** The readable columns of `AppellantSerializer.Meta.fields` other than
      `id`, `user` and `files`; `password` is write-only. */
  const AppellantColumns: set<string> :=
    {"name", "email", "is_minor", "birth_place", "fical_code", "dob", "marital_status", "address", "drive_folder_id"}

  /** The foreign keys `to_representation` expands into user objects. */
  const UserLinks: set<string> := {"lawyer", "created_by"}

  function ViewOfUser(id: UserId, u: User): UserView {
    UserView(id, u.email, u.firstName, u.lastName, u.role)
  }

  function ViewOfAppellant(id: AppellantId, a: Appellant): (v: AppellantView)
    ensures v.attrs.Keys == a.attrs.Keys * AppellantColumns
    ensures forall k :: k in v.attrs ==> v.attrs[k] == a.attrs[k]
    ensures "password" !in v.attrs
  {
    AppellantView(id, map k | k in a.attrs && k in AppellantColumns :: a.attrs[k], a.user)
  }

  function ViewOfGeneration(id: GenerationId, g: Generation): GenerationView {
    GenerationView(id, g.caseId, g.number, g.desc)
  }

  /** A nested address as shown: the whole linked row, or null when the case
      links none. */
  function ShowPlace(link: Option<AddressId>, addresses: map<AddressId, Attrs>): (s: Shown)
    requires link.Some? ==> link.value in addresses
    ensures s.AddressObject? <==> link.Some?
    ensures link.Some? ==> s.address == AddressView(link.value, addresses[link.value])
    ensures link.None? ==> s == Plain(Null)
  {
    if link.Some? then AddressObject(AddressView(link.value, addresses[link.value])) else Plain(Null)
  }

  /** A user foreign key as shown: a set key becomes the user object, a null
      one stays null (`if instance.lawyer:`). */
  function ExpandUserLink(v: Value, users: map<UserId, User>): Shown
    requires v.Ref? ==> v.id in users
  {
    if v.Ref? then UserObject(ViewOfUser(v.id, users[v.id])) else Plain(v)
  }

  /** Every user key a case row holds refers to an existing user. */
  predicate UserLinksIn(fields: Attrs, users: map<UserId, User>) {
    forall k :: k in fields && k in UserLinks && fields[k].Ref? ==> fields[k].id in users
  }

  /** Ids with no repeats, as a queryset yields its rows. */
  predicate NoRepeats<T(==)>(ids: seq<T>) {
    forall i, j :: 0 <= i < j < |ids| ==> ids[i] != ids[j]
  }

  /** `appellantOrder` and `generationOrder` are what `instance.appellants.all()`
      and `instance.generations.all()` yield for case `id`: each appellant of
      its set and each generation referencing it, once. */
  predicate QueriedFor(id: CaseId, c: CaseRecord, appellantOrder: seq<AppellantId>,
                       generations: map<GenerationId, Generation>, generationOrder: seq<GenerationId>)
  {
    && NoRepeats(appellantOrder)
    && AsSet(appellantOrder) == c.appellants
    && NoRepeats(generationOrder)
    && (forall i :: 0 <= i < |generationOrder| ==>
          generationOrder[i] in generations && generations[generationOrder[i]].caseId == id)
    && (forall g :: g in generations && generations[g].caseId == id ==> g in generationOrder)
  }

  /** `CaseSerializer.to_representation` of case `id`. `appellantOrder` lists
      the case's appellants as `instance.appellants.all()` yields them, and
      `generationOrder` its generations as `instance.generations.all()` does. */
  function Represent(id: CaseId, c: CaseRecord, users: map<UserId, User>, addresses: map<AddressId, Attrs>,
                     appellants: map<AppellantId, Appellant>, appellantOrder: seq<AppellantId>,
                     generations: map<GenerationId, Generation>, generationOrder: seq<GenerationId>)
    : (r: map<string, Shown>)
    requires UserLinksIn(c.fields, users) && LinksIn(c, addresses)
    requires forall i :: 0 <= i < |appellantOrder| ==> appellantOrder[i] in appellants
    requires forall i :: 0 <= i < |generationOrder| ==> generationOrder[i] in generations
    requires QueriedFor(id, c, appellantOrder, generations, generationOrder)
    ensures r.Keys == c.fields.Keys + CaseKeys
  {
    var columns := map k | k in c.fields :: if k in UserLinks then ExpandUserLink(c.fields[k], users) else Plain(c.fields[k]);
    columns["id" := Plain(Number(id))]
           ["total_payment" := Plain(Number(c.totalPayment))]
           ["marriage_place" := ShowPlace(c.marriagePlace, addresses)]
           ["grand_parents_dop" := ShowPlace(c.grandParentsDop, addresses)]
           ["generations" := GenerationList(GenerationViews(generations, generationOrder))]
           ["appellants" := AppellantList(AppellantViews(appellants, appellantOrder))]
  }

  /** `GenerationSerializer(many=True)` over the listed generations. */
  function GenerationViews(generations: map<GenerationId, Generation>, order: seq<GenerationId>): (vs: seq<GenerationView>)
    requires forall i :: 0 <= i < |order| ==> order[i] in generations
    ensures |vs| == |order|
    ensures forall i :: 0 <= i < |order| ==> vs[i] == ViewOfGeneration(order[i], generations[order[i]])
  {
    seq(|order|, i requires 0 <= i < |order| => ViewOfGeneration(order[i], generations[order[i]]))
  }

  /** `AppellantSerializer(many=True)` over the listed appellants. */
  function AppellantViews(appellants: map<AppellantId, Appellant>, order: seq<AppellantId>): (vs: seq<AppellantView>)
    requires forall i :: 0 <= i < |order| ==> order[i] in appellants
    ensures |vs| == |order|
    ensures forall i :: 0 <= i < |order| ==> vs[i] == ViewOfAppellant(order[i], appellants[order[i]])
  {
    seq(|order|, i requires 0 <= i < |order| => ViewOfAppellant(order[i], appellants[order[i]]))
  }

  /** The stored value of a nullable foreign key. */
  function LinkValue(link: Option<nat>): (v: Value)
    ensures v.Ref? <==> link.Some?
    ensures link.Some? ==> v.id == link.value
  {
    if link.Some? then Ref(link.value) else Null
  }

  /** The case row as stored, flattened to one value per column: the plain
      columns and user keys, the primary key, the payment and the two
      address keys. */
  function StoredRow(id: CaseId, c: CaseRecord): Attrs {
    (map k | k in c.fields && k !in CaseKeys :: c.fields[k])
      ["id" := Number(id)]
      ["total_payment" := Number(c.totalPayment)]
      ["marriage_place" := LinkValue(c.marriagePlace)]
      ["grand_parents_dop" := LinkValue(c.grandParentsDop)]
  }

  /** The stored value a shown entry stands for. */
  function Collapse(s: Shown): Value {
    match s
    case Plain(v) => v
    case UserObject(u) => Ref(u.id)
    case AddressObject(a) => Ref(a.id)
    case GenerationList(_) => Null
    case AppellantList(_) => Null
  }

  /** The entries of a represented case, key by key. */
  lemma RepresentEntries(id: CaseId, c: CaseRecord, users: map<UserId, User>, addresses: map<AddressId, Attrs>,
                         appellants: map<AppellantId, Appellant>, appellantOrder: seq<AppellantId>,
                         generations: map<GenerationId, Generation>, generationOrder: seq<GenerationId>)
    requires UserLinksIn(c.fields, users) && LinksIn(c, addresses)
    requires forall i :: 0 <= i < |appellantOrder| ==> appellantOrder[i] in appellants
    requires forall i :: 0 <= i < |generationOrder| ==> generationOrder[i] in generations
    requires QueriedFor(id, c, appellantOrder, generations, generationOrder)
    ensures var r := Represent(id, c, users, addresses, appellants, appellantOrder, generations, generationOrder);
      && r["id"] == Plain(Number(id))
      && r["total_payment"] == Plain(Number(c.totalPayment))
      && r["marriage_place"] == ShowPlace(c.marriagePlace, addresses)
      && r["grand_parents_dop"] == ShowPlace(c.grandParentsDop, addresses)
      && (forall k :: k in c.fields && k !in CaseKeys ==>
            r[k] == if k in UserLinks then ExpandUserLink(c.fields[k], users) else Plain(c.fields[k]))
  {
  }

  /** What the representation shows: the key and the payment as stored, every
      other column as stored except the set user links, which become user
      objects, the linked addresses as objects (null when unlinked), and every
      generation and appellant once, in order. */
  lemma RepresentShape(id: CaseId, c: CaseRecord, users: map<UserId, User>, addresses: map<AddressId, Attrs>,
                       appellants: map<AppellantId, Appellant>, appellantOrder: seq<AppellantId>,
                       generations: map<GenerationId, Generation>, generationOrder: seq<GenerationId>)
    requires UserLinksIn(c.fields, users) && LinksIn(c, addresses)
    requires forall i :: 0 <= i < |appellantOrder| ==> appellantOrder[i] in appellants
    requires forall i :: 0 <= i < |generationOrder| ==> generationOrder[i] in generations
    requires QueriedFor(id, c, appellantOrder, generations, generationOrder)
    ensures var r := Represent(id, c, users, addresses, appellants, appellantOrder, generations, generationOrder);
      && r["id"] == Plain(Number(id))
      && r["total_payment"] == Plain(Number(c.totalPayment))
      && (forall k :: k in c.fields && k !in UserLinks && k !in CaseKeys ==> r[k] == Plain(c.fields[k]))
      && (forall k :: k in c.fields && k in UserLinks ==> (r[k].UserObject? <==> c.fields[k].Ref?))
      && (forall k :: k in c.fields && k in UserLinks && c.fields[k].Ref? ==>
            r[k] == UserObject(ViewOfUser(c.fields[k].id, users[c.fields[k].id])))
      && (r["marriage_place"].AddressObject? <==> c.marriagePlace.Some?)
      && (c.marriagePlace.Some? ==> r["marriage_place"].address == AddressView(c.marriagePlace.value, addresses[c.marriagePlace.value]))
      && (r["grand_parents_dop"].AddressObject? <==> c.grandParentsDop.Some?)
      && (c.grandParentsDop.Some? ==> r["grand_parents_dop"].address == AddressView(c.grandParentsDop.value, addresses[c.grandParentsDop.value]))
      && r["generations"].GenerationList? && |r["generations"].generations| == |generationOrder|
      && (forall i :: 0 <= i < |generationOrder| ==> r["generations"].generations[i].id == generationOrder[i])
      && r["appellants"].AppellantList? && |r["appellants"].items| == |appellantOrder|
      && (forall i :: 0 <= i < |appellantOrder| ==> r["appellants"].items[i].id == appellantOrder[i])
  {
    var r := Represent(id, c, users, addresses, appellants, appellantOrder, generations, generationOrder);
    forall k | k in c.fields && k in UserLinks
      ensures r[k].UserObject? <==> c.fields[k].Ref?
    {
      assert k !in CaseKeys;
    }
  }

  /** The nested lists show exactly the case's own rows, each once: every
      appellant of its set and every generation referencing it. */
  lemma RepresentListsEachOnce(id: CaseId, c: CaseRecord, users: map<UserId, User>, addresses: map<AddressId, Attrs>,
                               appellants: map<AppellantId, Appellant>, appellantOrder: seq<AppellantId>,
                               generations: map<GenerationId, Generation>, generationOrder: seq<GenerationId>)
    requires UserLinksIn(c.fields, users) && LinksIn(c, addresses)
    requires forall i :: 0 <= i < |appellantOrder| ==> appellantOrder[i] in appellants
    requires forall i :: 0 <= i < |generationOrder| ==> generationOrder[i] in generations
    requires QueriedFor(id, c, appellantOrder, generations, generationOrder)
    ensures var r := Represent(id, c, users, addresses, appellants, appellantOrder, generations, generationOrder);
      && r["appellants"].AppellantList? && r["generations"].GenerationList?
      && var items, gens := r["appellants"].items, r["generations"].generations;
      && (forall a :: a in c.appellants <==> exists i :: 0 <= i < |items| && items[i].id == a)
      && (forall i, j :: 0 <= i < j < |items| ==> items[i].id != items[j].id)
      && (forall g :: g in generations && generations[g].caseId == id <==>
            exists i :: 0 <= i < |gens| && gens[i].id == g)
      && (forall i, j :: 0 <= i < j < |gens| ==> gens[i].id != gens[j].id)
  {
    var r := Represent(id, c, users, addresses, appellants, appellantOrder, generations, generationOrder);
    RepresentShape(id, c, users, addresses, appellants, appellantOrder, generations, generationOrder);
    var items, gens := r["appellants"].items, r["generations"].generations;
    forall a | a in c.appellants
      ensures exists i :: 0 <= i < |items| && items[i].id == a
    {
      var i :| 0 <= i < |appellantOrder| && appellantOrder[i] == a;
      assert items[i].id == a;
    }
    forall g | g in generations && generations[g].caseId == id
      ensures exists i :: 0 <= i < |gens| && gens[i].id == g
    {
      var i :| 0 <= i < |generationOrder| && generationOrder[i] == g;
      assert gens[i].id == g;
    }
  }

  /** Collapsing the representation gives back the whole stored row: every
      plain column and user key, the primary key, the payment and both address
      keys. */
  lemma RepresentCollapses(id: CaseId, c: CaseRecord, users: map<UserId, User>, addresses: map<AddressId, Attrs>,
                           appellants: map<AppellantId, Appellant>, appellantOrder: seq<AppellantId>,
                           generations: map<GenerationId, Generation>, generationOrder: seq<GenerationId>)
    requires UserLinksIn(c.fields, users) && LinksIn(c, addresses)
    requires forall i :: 0 <= i < |appellantOrder| ==> appellantOrder[i] in appellants
    requires forall i :: 0 <= i < |generationOrder| ==> generationOrder[i] in generations
    requires QueriedFor(id, c, appellantOrder, generations, generationOrder)
    ensures var r := Represent(id, c, users, addresses, appellants, appellantOrder, generations, generationOrder);
      var row := StoredRow(id, c);
      forall k :: k in row ==> k in r && Collapse(r[k]) == row[k]
  {
    var r := Represent(id, c, users, addresses, appellants, appellantOrder, generations, generationOrder);
    var row := StoredRow(id, c);
    StoredRowKeys(id, c);
    RepresentEntries(id, c, users, addresses, appellants, appellantOrder, generations, generationOrder);
    forall k | k in row
      ensures k in r && Collapse(r[k]) == row[k]
    {
      if k == "id" || k == "total_payment" {
      } else if k == "marriage_place" || k == "grand_parents_dop" {
      } else {
        assert k in c.fields && k !in CaseKeys && row[k] == c.fields[k];
      }
    }
  }

  /** The representation adds exactly the generation and appellant lists to
      the columns of the stored row. */
  lemma RepresentAddsOnlyLists(id: CaseId, c: CaseRecord, users: map<UserId, User>, addresses: map<AddressId, Attrs>,
                               appellants: map<AppellantId, Appellant>, appellantOrder: seq<AppellantId>,
                               generations: map<GenerationId, Generation>, generationOrder: seq<GenerationId>)
    requires UserLinksIn(c.fields, users) && LinksIn(c, addresses)
    requires forall i :: 0 <= i < |appellantOrder| ==> appellantOrder[i] in appellants
    requires forall i :: 0 <= i < |generationOrder| ==> generationOrder[i] in generations
    requires QueriedFor(id, c, appellantOrder, generations, generationOrder)
    ensures Represent(id, c, users, addresses, appellants, appellantOrder, generations, generationOrder).Keys
         == StoredRow(id, c).Keys + {"generations", "appellants"}
  {
    StoredRowKeys(id, c);
  }

  lemma StoredRowKeys(id: CaseId, c: CaseRecord)
    ensures StoredRow(id, c).Keys == (c.fields.Keys - CaseKeys) + {"id", "total_payment", "marriage_place", "grand_parents_dop"}
    ensures forall k :: k in c.fields && k !in CaseKeys ==> StoredRow(id, c)[k] == c.fields[k]
  {
  }
}
