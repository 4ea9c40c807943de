/** The farmer service: the record store bound to the `petani_data` namespace, with seeding,
    equality filters, a count and two fractional totals. */
module PetaniService {
  import opened Sequences
  import opened Records
  import opened LocalStorage

  const STORAGE_KEY: string := PETANI_DATA

  /** The fields `searchPetani` looks in. */
  const SEARCH_FIELDS: seq<string> := ["nama", "alamat", "status", "email", "noTelepon"]

  /** The two farmers seeded into an empty namespace; their ids are assigned when seeding. */
  const DEFAULT_PETANI: seq<Record> := [
    PetaniRecord(Petani(0, "Budi Santoso", 45, "Desa Sukamaju RT 02/03", 2, 2.5, 20.5, "Aktif",
                        Some("081234567890"), Some("budi.santoso@email.com"), Some("Laki-laki"),
                        Some("SMA"), Some(20))),
    PetaniRecord(Petani(0, "Sari Wati", 38, "Desa Sukamaju RT 01/02", 1, 1.8, 11.7, "Aktif",
                        Some("081234567891"), Some("sari.wati@email.com"), Some("Perempuan"),
                        Some("SMP"), Some(15)))
  ]

  /** `initializeDefaultData`: seeds the two default farmers when the namespace reads as empty. */
  method InitializeDefaultData(store: LocalStorageService)
    modifies store
    ensures store.storage == SeededIfEmpty(old(store.storage), STORAGE_KEY, DEFAULT_PETANI)
  {
    var existing := GetAllPetani(store);
    if |existing| == 0 {
      var created := store.BulkCreate(STORAGE_KEY, DEFAULT_PETANI);
      assert existing + created == created;
    }
  }

  /** Seeding an empty namespace stores Budi Santoso under id 1 and Sari Wati under id 2; seeding
      again changes nothing. */
  lemma SeededPetani(storage: map<string, Entry>)
    requires ReadItems(storage, STORAGE_KEY) == []
    ensures ReadItems(SeededIfEmpty(storage, STORAGE_KEY, DEFAULT_PETANI), STORAGE_KEY)
            == [WithId(DEFAULT_PETANI[0], 1), WithId(DEFAULT_PETANI[1], 2)]
    ensures SeededIfEmpty(SeededIfEmpty(storage, STORAGE_KEY, DEFAULT_PETANI), STORAGE_KEY, DEFAULT_PETANI)
            == SeededIfEmpty(storage, STORAGE_KEY, DEFAULT_PETANI)
  {
    SeedIdempotent(storage, STORAGE_KEY, DEFAULT_PETANI);
  }

  /** `getAllPetani`: the stored farmers, or none when the namespace is absent or its text does
      not parse. */
  function GetAllPetani(store: LocalStorageService): (items: seq<Record>)
    reads store
    ensures STORAGE_KEY in store.storage && store.storage[STORAGE_KEY].Stored? ==> items == store.storage[STORAGE_KEY].items
    ensures STORAGE_KEY !in store.storage || store.storage[STORAGE_KEY].Corrupt? ==> items == []
  {
    store.GetAll(STORAGE_KEY)
  }

  /** `getPetaniById`: a stored record with the id, or none exactly when no stored record has it. */
  function GetPetaniById(store: LocalStorageService, id: int): (found: Option<Record>)
    reads store
    ensures found.None? <==> forall j | 0 <= j < |GetAllPetani(store)| :: Id(GetAllPetani(store)[j]) != id
    ensures found.Some? ==> Id(found.value) == id && found.value in GetAllPetani(store)
  {
    assert GetAllPetani(store) == store.GetAll(STORAGE_KEY);
    store.GetById(STORAGE_KEY, id)
  }

  /** `createPetani`: appends the farmer under the next id of `petani_data`; no other key changes. */
  method CreatePetani(store: LocalStorageService, petani: Petani) returns (created: Petani)
    modifies store
    ensures created == petani.(id := NextId(old(GetAllPetani(store))))
    ensures store.storage == old(store.storage)[STORAGE_KEY := Stored(old(GetAllPetani(store)) + [PetaniRecord(created)])]
  {
    var r := store.Create(STORAGE_KEY, PetaniRecord(petani));
    created := r.petani;
  }

  /** `updatePetani`: replaces the first farmer with the same id, or fails and writes nothing. */
  method UpdatePetani(store: LocalStorageService, petani: Petani) returns (result: Result<Petani>)
    modifies store
    ensures IndexOfId(old(GetAllPetani(store)), petani.id) == -1 ==> result == NotFound && store.storage == old(store.storage)
    ensures IndexOfId(old(GetAllPetani(store)), petani.id) != -1 ==>
              result == Ok(petani)
              && store.storage == old(store.storage)[STORAGE_KEY :=
                   Stored(old(GetAllPetani(store))[IndexOfId(old(GetAllPetani(store)), petani.id) := PetaniRecord(petani)])]
  {
    var r := store.Update(STORAGE_KEY, PetaniRecord(petani));
    result := if r.Ok? then Ok(petani) else NotFound;
  }

  /** `deletePetani`: removes the farmers with the id from `petani_data` only. */
  method DeletePetani(store: LocalStorageService, id: int) returns (removed: bool)
    modifies store
    ensures removed <==> exists i | 0 <= i < |old(GetAllPetani(store))| :: Id(old(GetAllPetani(store))[i]) == id
    ensures removed ==> store.storage == old(store.storage)[STORAGE_KEY := Stored(Without(old(GetAllPetani(store)), id))]
    ensures !removed ==> store.storage == old(store.storage)
  {
    ghost var items := GetAllPetani(store);
    removed := store.Delete(STORAGE_KEY, id);
    assert items == old(store.GetAll(STORAGE_KEY));
  }

  /** `searchPetani`: the generic search over name, address, status, e-mail and phone number. */
  function SearchPetani(store: LocalStorageService, term: string): (found: seq<Record>)
    reads store
    ensures Selects(found, GetAllPetani(store), SearchPredicate(term, SEARCH_FIELDS))
  {
    FilterSelects(GetAllPetani(store), SearchPredicate(term, SEARCH_FIELDS));
    store.Search(STORAGE_KEY, term, SEARCH_FIELDS)
  }

  /** `getPetaniByStatus`: the farmers whose `status` equals the argument, in stored order. */
  function GetPetaniByStatus(store: LocalStorageService, status: string): (found: seq<Record>)
    reads store
    ensures Selects(found, GetAllPetani(store), FieldIs("status", Str(status)))
  {
    FilterSelects(GetAllPetani(store), FieldIs("status", Str(status)));
    store.Filter(STORAGE_KEY, FieldIs("status", Str(status)))
  }

  /** `getPetaniByPendidikan`: the farmers whose `pendidikan` is set and equals the argument. */
  function GetPetaniByPendidikan(store: LocalStorageService, pendidikan: string): (found: seq<Record>)
    reads store
    ensures Selects(found, GetAllPetani(store), FieldIs("pendidikan", Str(pendidikan)))
    ensures forall i | 0 <= i < |found| :: found[i].PetaniRecord? ==> found[i].petani.pendidikan == Some(pendidikan)
  {
    var found := store.Filter(STORAGE_KEY, FieldIs("pendidikan", Str(pendidikan)));
    FilterSelects(GetAllPetani(store), FieldIs("pendidikan", Str(pendidikan)));
    PendidikanMatches(found, pendidikan);
    found
  }

  /** A farmer whose `pendidikan` property reads as the string has that education level set. */
  lemma PendidikanMatches(found: seq<Record>, pendidikan: string)
    requires forall i | 0 <= i < |found| :: FieldIs("pendidikan", Str(pendidikan))(found[i])
    ensures forall i | 0 <= i < |found| :: found[i].PetaniRecord? ==> found[i].petani.pendidikan == Some(pendidikan)
  {
    forall i | 0 <= i < |found| && found[i].PetaniRecord?
      ensures found[i].petani.pendidikan == Some(pendidikan)
    {
      assert Field(found[i], "pendidikan") == OptStr(found[i].petani.pendidikan);
    }
  }

  /** `getTotalPetani`: the number of stored farmers. */
  function GetTotalPetani(store: LocalStorageService): (total: nat)
    reads store
    ensures total == 0 <==> GetAllPetani(store) == []
  {
    |GetAllPetani(store)|
  }

  /** Every record of the list is a farmer, as the service's typing promises. */
  predicate AllPetani(items: seq<Record>) {
    forall i | 0 <= i < |items| :: items[i].PetaniRecord?
  }

  function TotalLuasOf(p: Petani): real { p.totalLuas }
  function TotalHasilOf(p: Petani): real { p.totalHasil }

  /** `items.reduce((total, p) => total + f(p), 0)` over a list of farmers, in exact arithmetic. */
  function SumPetani(items: seq<Record>, f: Petani -> real): (total: real)
    requires AllPetani(items)
    ensures items == [] ==> total == 0.0
  {
    if items == [] then 0.0
    else SumPetani(items[..|items| - 1], f) + f(items[|items| - 1].petani)
  }

  /** The total of two lists one after the other is the sum of their totals. */
  lemma {:induction false} SumPetaniAppend(a: seq<Record>, b: seq<Record>, f: Petani -> real)
    requires AllPetani(a) && AllPetani(b)
    ensures AllPetani(a + b)
    ensures SumPetani(a + b, f) == SumPetani(a, f) + SumPetani(b, f)
    decreases |b|
  {
    if b != [] {
      var b' := b[..|b| - 1];
      assert (a + b)[..|a + b| - 1] == a + b';
      assert (a + b)[|a + b| - 1] == b[|b| - 1];
      SumPetaniAppend(a, b', f);
      assert AllPetani(a + b);
      assert SumPetani(a + b, f) == SumPetani(a + b', f) + f(b[|b| - 1].petani);
    } else {
      assert a + b == a;
    }
  }

  /** A sum of non-negative terms is non-negative. */
  lemma {:induction false} SumPetaniNonNegative(items: seq<Record>, f: Petani -> real)
    requires AllPetani(items)
    requires forall i | 0 <= i < |items| :: f(items[i].petani) >= 0.0
    ensures SumPetani(items, f) >= 0.0
  {
    if items != [] {
      var init := items[..|items| - 1];
      assert forall i | 0 <= i < |init| :: init[i] == items[i];
      SumPetaniNonNegative(init, f);
    }
  }

  /** `getTotalLuasLahan`: the sum of the farmers' `totalLuas`. */
  function GetTotalLuasLahan(store: LocalStorageService): (total: real)
    reads store
    requires AllPetani(GetAllPetani(store))
    ensures GetAllPetani(store) == [] ==> total == 0.0
    ensures (forall i | 0 <= i < |GetAllPetani(store)| :: GetAllPetani(store)[i].petani.totalLuas >= 0.0) ==> total >= 0.0
  {
    var items := GetAllPetani(store);
    if forall i | 0 <= i < |items| :: items[i].petani.totalLuas >= 0.0 then
      SumPetaniNonNegative(items, TotalLuasOf);
      SumPetani(items, TotalLuasOf)
    else SumPetani(items, TotalLuasOf)
  }

  /** `getTotalHasilPanen`: the sum of the farmers' `totalHasil`. */
  function GetTotalHasilPanen(store: LocalStorageService): (total: real)
    reads store
    requires AllPetani(GetAllPetani(store))
    ensures GetAllPetani(store) == [] ==> total == 0.0
    ensures (forall i | 0 <= i < |GetAllPetani(store)| :: GetAllPetani(store)[i].petani.totalHasil >= 0.0) ==> total >= 0.0
  {
    var items := GetAllPetani(store);
    if forall i | 0 <= i < |items| :: items[i].petani.totalHasil >= 0.0 then
      SumPetaniNonNegative(items, TotalHasilOf);
      SumPetani(items, TotalHasilOf)
    else SumPetani(items, TotalHasilOf)
  }
}
