/** The records of the cases app (cases/models.py and the Case, Address and
    Generation tables its serializers write) held in an in-memory store:
    tables are maps from primary key to row, and a row's identity is its key. */
module CaseModels {
  import opened Wrappers
  import opened UserModels

  type AddressId = nat
  type CaseId = nat
  type GenerationId = nat
  type AppellantId = nat

  /** A column value as the serializers pass it around. */
  datatype Value = Null | Text(s: string) | Flag(b: bool) | Number(n: int) | Ref(id: nat)

  /** The columns of a row, or the keys of a validated payload dict. */
  type Attrs = map<string, Value>

  /** A validated nested generation payload (`GenerationSerializer` without its
      read-only `case`). */
  datatype GenerationData = GenerationData(number: int, desc: string)

  datatype Generation = Generation(caseId: CaseId, number: int, desc: string)

  /** A `Case` row. `fields` holds every plain column and the `lawyer` and
      `created_by` foreign keys; the two nested addresses, the many-to-many
      appellant set and the computed payment are kept apart. */
  datatype CaseRecord = CaseRecord(
    fields: Attrs,
    marriagePlace: Option<AddressId>,
    grandParentsDop: Option<AddressId>,
    appellants: set<AppellantId>,
    totalPayment: int)

  /** An `Appellant` row and its optional one-to-one user. */
  datatype Appellant = Appellant(attrs: Attrs, user: Option<UserId>)

  predicate LinksIn(c: CaseRecord, addresses: map<AddressId, Attrs>) {
    && (c.marriagePlace.Some? ==> c.marriagePlace.value in addresses)
    && (c.grandParentsDop.Some? ==> c.grandParentsDop.value in addresses)
  }

  /** The tables of the cases app. `fee` is `Case.calculate_total_payment`,
      whose definition is not part of this model: it is an arbitrary function
      of the case's appellant set. */
  class CaseStore {
    var addresses: map<AddressId, Attrs>
    var cases: map<CaseId, CaseRecord>
    var generations: map<GenerationId, Generation>
    var appellants: map<AppellantId, Appellant>
    var nextAddress: AddressId
    var nextCase: CaseId
    var nextGeneration: GenerationId
    var nextAppellant: AppellantId
    const fee: set<AppellantId> -> int

    ghost predicate Valid()
      reads this
    {
      && (forall a :: a in addresses ==> a < nextAddress)
      && (forall c :: c in cases ==> c < nextCase)
      && (forall g :: g in generations ==> g < nextGeneration)
      && (forall p :: p in appellants ==> p < nextAppellant)
      && (forall c :: c in cases ==> LinksIn(cases[c], addresses) && cases[c].appellants <= appellants.Keys)
      && (forall g :: g in generations ==> generations[g].caseId in cases)
    }

    constructor (fee: set<AppellantId> -> int)
      ensures Valid() && this.fee == fee
      ensures addresses == map[] && cases == map[] && generations == map[] && appellants == map[]
    {
      this.fee := fee;
      addresses, cases, generations, appellants := map[], map[], map[], map[];
      nextAddress, nextCase, nextGeneration, nextAppellant := 0, 0, 0, 0;
    }

    /** `Address.objects.create(**attrs)`. */
    method CreateAddress(attrs: Attrs) returns (id: AddressId)
      requires Valid()
      modifies this`addresses, this`nextAddress
      ensures Valid()
      ensures id == old(nextAddress) && id !in old(addresses) && nextAddress == id + 1
      ensures addresses == old(addresses)[id := attrs]
    {
      id := nextAddress;
      addresses := addresses[id := attrs];
      nextAddress := nextAddress + 1;
    }

    /** `address.save()` of a row already in the table. */
    method SaveAddress(id: AddressId, attrs: Attrs)
      requires Valid() && id in addresses
      modifies this`addresses
      ensures Valid()
      ensures addresses == old(addresses)[id := attrs]
    {
      addresses := addresses[id := attrs];
    }

    /** `Case.objects.create(...)`. */
    method CreateCase(c: CaseRecord) returns (id: CaseId)
      requires Valid() && LinksIn(c, addresses) && c.appellants <= appellants.Keys
      modifies this`cases, this`nextCase
      ensures Valid()
      ensures id == old(nextCase) && id !in old(cases) && nextCase == id + 1
      ensures cases == old(cases)[id := c]
    {
      id := nextCase;
      cases := cases[id := c];
      nextCase := nextCase + 1;
    }

    /** `case.save()` (and `case.appellants.set(...)`) of a row already in the table. */
    method SaveCase(id: CaseId, c: CaseRecord)
      requires Valid() && id in cases && LinksIn(c, addresses) && c.appellants <= appellants.Keys
      modifies this`cases
      ensures Valid()
      ensures cases == old(cases)[id := c]
    {
      cases := cases[id := c];
    }

    /** `Generation.objects.create(case=case, **data)`. */
    method CreateGeneration(caseId: CaseId, data: GenerationData) returns (id: GenerationId)
      requires Valid() && caseId in cases
      modifies this`generations, this`nextGeneration
      ensures Valid()
      ensures id == old(nextGeneration) && id !in old(generations) && nextGeneration == id + 1
      ensures generations == old(generations)[id := Generation(caseId, data.number, data.desc)]
    {
      id := nextGeneration;
      generations := generations[id := Generation(caseId, data.number, data.desc)];
      nextGeneration := nextGeneration + 1;
    }

    /** `case.generations.all().delete()`. */
    method DeleteGenerationsOf(caseId: CaseId)
      requires Valid()
      modifies this`generations
      ensures Valid()
      ensures generations == GenerationsOfOtherCases(old(generations), caseId)
    {
      generations := GenerationsOfOtherCases(generations, caseId);
    }

    /** `Appellant.objects.create(user=user, **attrs)`. */
    method CreateAppellant(attrs: Attrs, user: Option<UserId>) returns (id: AppellantId)
      requires Valid()
      modifies this`appellants, this`nextAppellant
      ensures Valid()
      ensures id == old(nextAppellant) && id !in old(appellants) && nextAppellant == id + 1
      ensures appellants == old(appellants)[id := Appellant(attrs, user)]
    {
      id := nextAppellant;
      appellants := appellants[id := Appellant(attrs, user)];
      nextAppellant := nextAppellant + 1;
    }
  }

  /** The generation table without the rows of case `caseId`. */
  function GenerationsOfOtherCases(generations: map<GenerationId, Generation>, caseId: CaseId): (r: map<GenerationId, Generation>)
    ensures forall g :: g in r <==> g in generations && generations[g].caseId != caseId
    ensures forall g :: g in r ==> r[g] == generations[g]
  {
    map g | g in generations && generations[g].caseId != caseId :: generations[g]
  }
}
