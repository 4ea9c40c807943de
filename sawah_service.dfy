/** The rice-field service: the record store bound to the `sawah_data` namespace, with seeding,
    equality filters, two fractional totals and the guarded yield-per-hectare average. */
module SawahService {
  import opened Sequences
  import opened Records
  import opened LocalStorage

  const STORAGE_KEY: string := SAWAH_DATA

  /** The fields `searchSawah` looks in. */
  const SEARCH_FIELDS: seq<string> := ["nama", "petani", "jenisVarietas", "statusTanam", "musimTanam"]

  /** The two plots seeded into an empty namespace; their ids are assigned when seeding. */
  const DEFAULT_SAWAH: seq<Record> := [
    SawahRecord(Sawah(0, "Sawah Pak Budi - Blok A", "Budi Santoso", 2.5, "-7.2575, 112.7521", "IR64",
                      "Gadu 2024", 8.2, "Panen", Some("2024-01-15"), Some("2024-05-20"), Some("Teknis"),
                      Some("Sawah Irigasi"), Some("Hasil panen memuaskan, kualitas gabah baik"))),
    SawahRecord(Sawah(0, "Sawah Bu Sari - Blok B", "Sari Wati", 1.8, "-7.2585, 112.7531", "Ciherang",
                      "Rendeng 2024", 6.5, "Tanam", Some("2024-11-01"), Some("2025-03-15"), Some("Semi Teknis"),
                      Some("Sawah Irigasi"), Some("Pertumbuhan normal, perlu pupuk tambahan")))
  ]

  /** `initializeDefaultData`: seeds the two default plots when the namespace reads as empty. */
  method InitializeDefaultData(store: LocalStorageService)
    modifies store
    ensures store.storage == SeededIfEmpty(old(store.storage), STORAGE_KEY, DEFAULT_SAWAH)
  {
    var existing := GetAllSawah(store);
    if |existing| == 0 {
      var created := store.BulkCreate(STORAGE_KEY, DEFAULT_SAWAH);
      assert existing + created == created;
    }
  }

  /** Seeding an empty namespace stores Blok A under id 1 and Blok B under id 2; seeding again
      changes nothing. */
  lemma SeededSawah(storage: map<string, Entry>)
    requires ReadItems(storage, STORAGE_KEY) == []
    ensures ReadItems(SeededIfEmpty(storage, STORAGE_KEY, DEFAULT_SAWAH), STORAGE_KEY)
            == [WithId(DEFAULT_SAWAH[0], 1), WithId(DEFAULT_SAWAH[1], 2)]
    ensures SeededIfEmpty(SeededIfEmpty(storage, STORAGE_KEY, DEFAULT_SAWAH), STORAGE_KEY, DEFAULT_SAWAH)
            == SeededIfEmpty(storage, STORAGE_KEY, DEFAULT_SAWAH)
  {
    SeedIdempotent(storage, STORAGE_KEY, DEFAULT_SAWAH);
  }

  /** `getAllSawah`: the stored plots, or none when the namespace is absent or its text does
      not parse. */
  function GetAllSawah(store: LocalStorageService): (items: seq<Record>)
    reads store
    ensures STORAGE_KEY in store.storage && store.storage[STORAGE_KEY].Stored? ==> items == store.storage[STORAGE_KEY].items
    ensures STORAGE_KEY !in store.storage || store.storage[STORAGE_KEY].Corrupt? ==> items == []
  {
    store.GetAll(STORAGE_KEY)
  }

  /** `getSawahById`: a stored record with the id, or none exactly when no stored record has it. */
  function GetSawahById(store: LocalStorageService, id: int): (found: Option<Record>)
    reads store
    ensures found.None? <==> forall j | 0 <= j < |GetAllSawah(store)| :: Id(GetAllSawah(store)[j]) != id
    ensures found.Some? ==> Id(found.value) == id && found.value in GetAllSawah(store)
  {
    assert GetAllSawah(store) == store.GetAll(STORAGE_KEY);
    store.GetById(STORAGE_KEY, id)
  }

  /** `createSawah`: appends the plot under the next id of `sawah_data`; no other key changes. */
  method CreateSawah(store: LocalStorageService, sawah: Sawah) returns (created: Sawah)
    modifies store
    ensures created == sawah.(id := NextId(old(GetAllSawah(store))))
    ensures store.storage == old(store.storage)[STORAGE_KEY := Stored(old(GetAllSawah(store)) + [SawahRecord(created)])]
  {
    var r := store.Create(STORAGE_KEY, SawahRecord(sawah));
    created := r.sawah;
  }

  /** `updateSawah`: replaces the first plot with the same id, or fails and writes nothing. */
  method UpdateSawah(store: LocalStorageService, sawah: Sawah) returns (result: Result<Sawah>)
    modifies store
    ensures IndexOfId(old(GetAllSawah(store)), sawah.id) == -1 ==> result == NotFound && store.storage == old(store.storage)
    ensures IndexOfId(old(GetAllSawah(store)), sawah.id) != -1 ==>
              result == Ok(sawah)
              && store.storage == old(store.storage)[STORAGE_KEY :=
                   Stored(old(GetAllSawah(store))[IndexOfId(old(GetAllSawah(store)), sawah.id) := SawahRecord(sawah)])]
  {
    var r := store.Update(STORAGE_KEY, SawahRecord(sawah));
    result := if r.Ok? then Ok(sawah) else NotFound;
  }

  /** `deleteSawah`: removes the plots with the id from `sawah_data` only. */
  method DeleteSawah(store: LocalStorageService, id: int) returns (removed: bool)
    modifies store
    ensures removed <==> exists i | 0 <= i < |old(GetAllSawah(store))| :: Id(old(GetAllSawah(store))[i]) == id
    ensures removed ==> store.storage == old(store.storage)[STORAGE_KEY := Stored(Without(old(GetAllSawah(store)), id))]
    ensures !removed ==> store.storage == old(store.storage)
  {
    ghost var items := GetAllSawah(store);
    removed := store.Delete(STORAGE_KEY, id);
    assert items == old(store.GetAll(STORAGE_KEY));
  }

  /** `searchSawah`: the generic search over name, owner, variety, planting status and season. */
  function SearchSawah(store: LocalStorageService, term: string): (found: seq<Record>)
    reads store
    ensures Selects(found, GetAllSawah(store), SearchPredicate(term, SEARCH_FIELDS))
  {
    FilterSelects(GetAllSawah(store), SearchPredicate(term, SEARCH_FIELDS));
    store.Search(STORAGE_KEY, term, SEARCH_FIELDS)
  }

  /** `getSawahByPetani`: the plots whose owner name equals the argument, in stored order. */
  function GetSawahByPetani(store: LocalStorageService, petani: string): (found: seq<Record>)
    reads store
    ensures Selects(found, GetAllSawah(store), FieldIs("petani", Str(petani)))
  {
    FilterSelects(GetAllSawah(store), FieldIs("petani", Str(petani)));
    store.Filter(STORAGE_KEY, FieldIs("petani", Str(petani)))
  }

  /** `getSawahByStatus`: the plots whose `statusTanam` equals the argument, in stored order. */
  function GetSawahByStatus(store: LocalStorageService, status: string): (found: seq<Record>)
    reads store
    ensures Selects(found, GetAllSawah(store), FieldIs("statusTanam", Str(status)))
  {
    FilterSelects(GetAllSawah(store), FieldIs("statusTanam", Str(status)));
    store.Filter(STORAGE_KEY, FieldIs("statusTanam", Str(status)))
  }

  /** `getSawahByVarietas`: the plots whose `jenisVarietas` equals the argument, in stored order. */
  function GetSawahByVarietas(store: LocalStorageService, varietas: string): (found: seq<Record>)
    reads store
    ensures Selects(found, GetAllSawah(store), FieldIs("jenisVarietas", Str(varietas)))
  {
    FilterSelects(GetAllSawah(store), FieldIs("jenisVarietas", Str(varietas)));
    store.Filter(STORAGE_KEY, FieldIs("jenisVarietas", Str(varietas)))
  }

  /** Every record of the list is a plot, as the service's typing promises. */
  predicate AllSawah(items: seq<Record>) {
    forall i | 0 <= i < |items| :: items[i].SawahRecord?
  }

  function LuasOf(s: Sawah): real { s.luas }
  function HasilPanenOf(s: Sawah): real { s.hasilPanen }

  /** `items.reduce((total, s) => total + f(s), 0)` over a list of plots, in exact arithmetic. */
  function SumSawah(items: seq<Record>, f: Sawah -> real): (total: real)
    requires AllSawah(items)
    ensures items == [] ==> total == 0.0
  {
    if items == [] then 0.0
    else SumSawah(items[..|items| - 1], f) + f(items[|items| - 1].sawah)
  }

  /** The total of two lists one after the other is the sum of their totals. */
  lemma {:induction false} SumSawahAppend(a: seq<Record>, b: seq<Record>, f: Sawah -> real)
    requires AllSawah(a) && AllSawah(b)
    ensures AllSawah(a + b)
    ensures SumSawah(a + b, f) == SumSawah(a, f) + SumSawah(b, f)
    decreases |b|
  {
    if b != [] {
      var b' := b[..|b| - 1];
      assert (a + b)[..|a + b| - 1] == a + b';
      assert (a + b)[|a + b| - 1] == b[|b| - 1];
      SumSawahAppend(a, b', f);
      assert AllSawah(a + b);
      assert SumSawah(a + b, f) == SumSawah(a + b', f) + f(b[|b| - 1].sawah);
    } else {
      assert a + b == a;
    }
  }

  /** A sum of non-negative terms is non-negative. */
  lemma {:induction false} SumSawahNonNegative(items: seq<Record>, f: Sawah -> real)
    requires AllSawah(items)
    requires forall i | 0 <= i < |items| :: f(items[i].sawah) >= 0.0
    ensures SumSawah(items, f) >= 0.0
  {
    if items != [] {
      var init := items[..|items| - 1];
      assert forall i | 0 <= i < |init| :: init[i] == items[i];
      SumSawahNonNegative(init, f);
    }
  }

  /** `getAverageHasilPerHektar` on a list: 0 when there are no plots or the total area is not
      positive; otherwise the average yield that, spread over the total area, gives the total harvest. */
  function AverageHasilPerHektar(items: seq<Record>): (avg: real)
    requires AllSawah(items)
    ensures items == [] || SumSawah(items, LuasOf) <= 0.0 ==> avg == 0.0
    ensures items != [] && SumSawah(items, LuasOf) > 0.0 ==> avg * SumSawah(items, LuasOf) == SumSawah(items, HasilPanenOf)
  {
    if |items| == 0 then 0.0
    else
      var totalHasil := SumSawah(items, HasilPanenOf);
      var totalLuas := SumSawah(items, LuasOf);
      if totalLuas > 0.0 then totalHasil / totalLuas else 0.0
  }

  /** With non-negative harvests the average is never negative. */
  lemma AverageNonNegative(items: seq<Record>)
    requires AllSawah(items)
    requires forall i | 0 <= i < |items| :: items[i].sawah.hasilPanen >= 0.0
    ensures AverageHasilPerHektar(items) >= 0.0
  {
    SumSawahNonNegative(items, HasilPanenOf);
  }

  /** `getTotalLuas`: the sum of the plot areas. */
  function GetTotalLuas(store: LocalStorageService): (total: real)
    reads store
    requires AllSawah(GetAllSawah(store))
    ensures GetAllSawah(store) == [] ==> total == 0.0
    ensures (forall i | 0 <= i < |GetAllSawah(store)| :: GetAllSawah(store)[i].sawah.luas >= 0.0) ==> total >= 0.0
  {
    var items := GetAllSawah(store);
    if forall i | 0 <= i < |items| :: items[i].sawah.luas >= 0.0 then
      SumSawahNonNegative(items, LuasOf);
      SumSawah(items, LuasOf)
    else SumSawah(items, LuasOf)
  }

  /** `getTotalHasilPanen`: the sum of the plot harvests. */
  function GetTotalHasilPanen(store: LocalStorageService): (total: real)
    reads store
    requires AllSawah(GetAllSawah(store))
    ensures GetAllSawah(store) == [] ==> total == 0.0
    ensures (forall i | 0 <= i < |GetAllSawah(store)| :: GetAllSawah(store)[i].sawah.hasilPanen >= 0.0) ==> total >= 0.0
  {
    var items := GetAllSawah(store);
    if forall i | 0 <= i < |items| :: items[i].sawah.hasilPanen >= 0.0 then
      SumSawahNonNegative(items, HasilPanenOf);
      SumSawah(items, HasilPanenOf)
    else SumSawah(items, HasilPanenOf)
  }

  /** `getAverageHasilPerHektar`: 0 for an empty namespace. */
  function GetAverageHasilPerHektar(store: LocalStorageService): (avg: real)
    reads store
    requires AllSawah(GetAllSawah(store))
    ensures GetAllSawah(store) == [] ==> avg == 0.0
    ensures (forall i | 0 <= i < |GetAllSawah(store)| :: GetAllSawah(store)[i].sawah.hasilPanen >= 0.0) ==> avg >= 0.0
  {
    var items := GetAllSawah(store);
    if forall i | 0 <= i < |items| :: items[i].sawah.hasilPanen >= 0.0 then
      AverageNonNegative(items);
      AverageHasilPerHektar(items)
    else AverageHasilPerHektar(items)
  }
}
