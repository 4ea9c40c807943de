/** The marketplace product service: the record store bound to the `produk_data` namespace,
    with seeding, equality and range filters, a stock updater and two integer totals. */
module ProdukService {
  import opened Sequences
  import opened Records
  import opened LocalStorage

  const STORAGE_KEY: string := PRODUK_DATA

  /** The fields `searchProduk` looks in. */
  const SEARCH_FIELDS: seq<string> := ["nama", "petani", "lokasi", "kualitas", "deskripsi"]

  /** The two products seeded into an empty namespace; their ids are assigned when seeding. */
  const DEFAULT_PRODUK: seq<Record> := [
    ProdukRecord(Produk(0, "Beras Premium", "Budi Santoso", "Desa Sukamaju RT 02/03", 12000, 500,
                        "kg", "A", "Beras berkualitas premium dari sawah organik", "081234567890")),
    ProdukRecord(Produk(0, "Beras Merah Organik", "Sari Wati", "Desa Sukamaju RT 01/02", 15000, 250,
                        "kg", "Premium", "Beras merah organik tanpa pestisida", "081234567891"))
  ]

  /** `initializeDefaultData`: seeds the two default products when the namespace reads as empty. */
  method InitializeDefaultData(store: LocalStorageService)
    modifies store
    ensures store.storage == SeededIfEmpty(old(store.storage), STORAGE_KEY, DEFAULT_PRODUK)
  {
    var existing := GetAllProduk(store);
    if |existing| == 0 {
      var created := store.BulkCreate(STORAGE_KEY, DEFAULT_PRODUK);
      assert existing + created == created;
    }
  }

  /** Seeding an empty namespace stores "Beras Premium" under id 1 and "Beras Merah Organik" under
      id 2, with every other field as listed; seeding again changes nothing. */
  lemma SeededProduk(storage: map<string, Entry>)
    requires ReadItems(storage, STORAGE_KEY) == []
    ensures ReadItems(SeededIfEmpty(storage, STORAGE_KEY, DEFAULT_PRODUK), STORAGE_KEY)
            == [WithId(DEFAULT_PRODUK[0], 1), WithId(DEFAULT_PRODUK[1], 2)]
    ensures SeededIfEmpty(SeededIfEmpty(storage, STORAGE_KEY, DEFAULT_PRODUK), STORAGE_KEY, DEFAULT_PRODUK)
            == SeededIfEmpty(storage, STORAGE_KEY, DEFAULT_PRODUK)
  {
    SeedIdempotent(storage, STORAGE_KEY, DEFAULT_PRODUK);
  }

  /** `getAllProduk`: the stored products, or none when the namespace is absent or its text does
      not parse. */
  function GetAllProduk(store: LocalStorageService): (items: seq<Record>)
    reads store
    ensures STORAGE_KEY in store.storage && store.storage[STORAGE_KEY].Stored? ==> items == store.storage[STORAGE_KEY].items
    ensures STORAGE_KEY !in store.storage || store.storage[STORAGE_KEY].Corrupt? ==> items == []
  {
    store.GetAll(STORAGE_KEY)
  }

  /** `getProdukById`: a stored record with the id, or none exactly when no stored record has it. */
  function GetProdukById(store: LocalStorageService, id: int): (found: Option<Record>)
    reads store
    ensures found.None? <==> forall j | 0 <= j < |GetAllProduk(store)| :: Id(GetAllProduk(store)[j]) != id
    ensures found.Some? ==> Id(found.value) == id && found.value in GetAllProduk(store)
  {
    assert GetAllProduk(store) == store.GetAll(STORAGE_KEY);
    store.GetById(STORAGE_KEY, id)
  }

  /** `createProduk`: appends the product under the next id of `produk_data`; no other key changes. */
  method CreateProduk(store: LocalStorageService, produk: Produk) returns (created: Produk)
    modifies store
    ensures created == produk.(id := NextId(old(GetAllProduk(store))))
    ensures store.storage == old(store.storage)[STORAGE_KEY := Stored(old(GetAllProduk(store)) + [ProdukRecord(created)])]
  {
    var r := store.Create(STORAGE_KEY, ProdukRecord(produk));
    created := r.produk;
  }

  /** `updateProduk`: replaces the first product with the same id, or fails and writes nothing. */
  method UpdateProduk(store: LocalStorageService, produk: Produk) returns (result: Result<Produk>)
    modifies store
    ensures IndexOfId(old(GetAllProduk(store)), produk.id) == -1 ==> result == NotFound && store.storage == old(store.storage)
    ensures IndexOfId(old(GetAllProduk(store)), produk.id) != -1 ==>
              result == Ok(produk)
              && store.storage == old(store.storage)[STORAGE_KEY :=
                   Stored(old(GetAllProduk(store))[IndexOfId(old(GetAllProduk(store)), produk.id) := ProdukRecord(produk)])]
  {
    var r := store.Update(STORAGE_KEY, ProdukRecord(produk));
    result := if r.Ok? then Ok(produk) else NotFound;
  }

  /** `deleteProduk`: removes the products with the id from `produk_data` only. */
  method DeleteProduk(store: LocalStorageService, id: int) returns (removed: bool)
    modifies store
    ensures removed <==> exists i | 0 <= i < |old(GetAllProduk(store))| :: Id(old(GetAllProduk(store))[i]) == id
    ensures removed ==> store.storage == old(store.storage)[STORAGE_KEY := Stored(Without(old(GetAllProduk(store)), id))]
    ensures !removed ==> store.storage == old(store.storage)
  {
    ghost var items := GetAllProduk(store);
    removed := store.Delete(STORAGE_KEY, id);
    assert items == old(store.GetAll(STORAGE_KEY));
  }

  /** `searchProduk`: the generic search over name, farmer, location, quality and description. */
  function SearchProduk(store: LocalStorageService, term: string): (found: seq<Record>)
    reads store
    ensures Selects(found, GetAllProduk(store), SearchPredicate(term, SEARCH_FIELDS))
  {
    FilterSelects(GetAllProduk(store), SearchPredicate(term, SEARCH_FIELDS));
    store.Search(STORAGE_KEY, term, SEARCH_FIELDS)
  }

  /** `getProdukByPetani`: the products whose `petani` equals the name, in stored order. */
  function GetProdukByPetani(store: LocalStorageService, petani: string): (found: seq<Record>)
    reads store
    ensures Selects(found, GetAllProduk(store), FieldIs("petani", Str(petani)))
  {
    FilterSelects(GetAllProduk(store), FieldIs("petani", Str(petani)));
    store.Filter(STORAGE_KEY, FieldIs("petani", Str(petani)))
  }

  /** `getProdukByKualitas`: the products whose `kualitas` equals the grade, in stored order. */
  function GetProdukByKualitas(store: LocalStorageService, kualitas: string): (found: seq<Record>)
    reads store
    ensures Selects(found, GetAllProduk(store), FieldIs("kualitas", Str(kualitas)))
  {
    FilterSelects(GetAllProduk(store), FieldIs("kualitas", Str(kualitas)));
    store.Filter(STORAGE_KEY, FieldIs("kualitas", Str(kualitas)))
  }

  /** `produk.stok > 0`; a record without a numeric `stok` is not in stock. */
  function InStock(): Record -> bool {
    (r: Record) => Field(r, "stok").Num? && Field(r, "stok").x > 0.0
  }

  /** `produk.harga >= minPrice && produk.harga <= maxPrice`. */
  function PriceWithin(minPrice: real, maxPrice: real): Record -> bool {
    (r: Record) => Field(r, "harga").Num? && minPrice <= Field(r, "harga").x <= maxPrice
  }

  /** `getProdukInStock`: the products with positive stock, in stored order. */
  function GetProdukInStock(store: LocalStorageService): (found: seq<Record>)
    reads store
    ensures Selects(found, GetAllProduk(store), InStock())
    ensures forall i | 0 <= i < |found| :: found[i].ProdukRecord? ==> found[i].produk.stok > 0
  {
    var found := store.Filter(STORAGE_KEY, InStock());
    FilterSelects(GetAllProduk(store), InStock());
    InStockMatches(found);
    found
  }

  /** A product whose `stok` property reads as a positive number has positive stock. */
  lemma InStockMatches(found: seq<Record>)
    requires forall i | 0 <= i < |found| :: InStock()(found[i])
    ensures forall i | 0 <= i < |found| :: found[i].ProdukRecord? ==> found[i].produk.stok > 0
  {
    forall i | 0 <= i < |found| && found[i].ProdukRecord?
      ensures found[i].produk.stok > 0
    {
      assert Field(found[i], "stok") == Num(found[i].produk.stok as real);
    }
  }

  /** `getProdukByPriceRange`: the products priced within the closed range, in stored order. */
  function GetProdukByPriceRange(store: LocalStorageService, minPrice: real, maxPrice: real): (found: seq<Record>)
    reads store
    ensures Selects(found, GetAllProduk(store), PriceWithin(minPrice, maxPrice))
    ensures forall i | 0 <= i < |found| :: found[i].ProdukRecord? ==> minPrice <= found[i].produk.harga as real <= maxPrice
  {
    var found := store.Filter(STORAGE_KEY, PriceWithin(minPrice, maxPrice));
    FilterSelects(GetAllProduk(store), PriceWithin(minPrice, maxPrice));
    PriceWithinMatches(found, minPrice, maxPrice);
    found
  }

  /** A product whose `harga` property reads as a number within the range is priced within it. */
  lemma PriceWithinMatches(found: seq<Record>, minPrice: real, maxPrice: real)
    requires forall i | 0 <= i < |found| :: PriceWithin(minPrice, maxPrice)(found[i])
    ensures forall i | 0 <= i < |found| :: found[i].ProdukRecord? ==> minPrice <= found[i].produk.harga as real <= maxPrice
  {
    forall i | 0 <= i < |found| && found[i].ProdukRecord?
      ensures minPrice <= found[i].produk.harga as real <= maxPrice
    {
      assert Field(found[i], "harga") == Num(found[i].produk.harga as real);
    }
  }

  /** An inverted price range selects nothing. */
  lemma PriceRangeInvertedIsEmpty(store: LocalStorageService, minPrice: real, maxPrice: real)
    requires minPrice > maxPrice
    ensures GetProdukByPriceRange(store, minPrice, maxPrice) == []
  {
  }

  /** Every record of the list is a product, as the service's typing promises. */
  predicate AllProduk(items: seq<Record>) {
    forall i | 0 <= i < |items| :: items[i].ProdukRecord?
  }

  function StokOf(p: Produk): int { p.stok }
  function NilaiOf(p: Produk): int { p.harga * p.stok }

  /** `items.reduce((total, p) => total + f(p), 0)` over a list of products. */
  function SumProduk(items: seq<Record>, f: Produk -> int): (total: int)
    requires AllProduk(items)
    ensures items == [] ==> total == 0
  {
    if items == [] then 0
    else SumProduk(items[..|items| - 1], f) + f(items[|items| - 1].produk)
  }

  /** The total of two lists one after the other is the sum of their totals. */
  lemma {:induction false} SumProdukAppend(a: seq<Record>, b: seq<Record>, f: Produk -> int)
    requires AllProduk(a) && AllProduk(b)
    ensures AllProduk(a + b)
    ensures SumProduk(a + b, f) == SumProduk(a, f) + SumProduk(b, f)
    decreases |b|
  {
    if b != [] {
      var b' := b[..|b| - 1];
      assert (a + b)[..|a + b| - 1] == a + b';
      assert (a + b)[|a + b| - 1] == b[|b| - 1];
      SumProdukAppend(a, b', f);
      assert AllProduk(a + b);
      assert SumProduk(a + b, f) == SumProduk(a + b', f) + f(b[|b| - 1].produk);
    } else {
      assert a + b == a;
    }
  }

  /** Replacing one product changes the total by the difference of the two terms. */
  lemma SumProdukReplace(items: seq<Record>, i: int, p: Produk, f: Produk -> int)
    requires AllProduk(items) && 0 <= i < |items|
    ensures AllProduk(items[i := ProdukRecord(p)])
    ensures SumProduk(items[i := ProdukRecord(p)], f) == SumProduk(items, f) - f(items[i].produk) + f(p)
  {
    var before := items[..i];
    var after := items[i + 1..];
    assert items == before + [items[i]] + after;
    assert items[i := ProdukRecord(p)] == before + [ProdukRecord(p)] + after;
    SumProdukAppend(before, [items[i]], f);
    SumProdukAppend(before + [items[i]], after, f);
    SumProdukAppend(before, [ProdukRecord(p)], f);
    SumProdukAppend(before + [ProdukRecord(p)], after, f);
    assert SumProduk([items[i]], f) == f(items[i].produk);
    assert SumProduk([ProdukRecord(p)], f) == f(p);
  }

  /** `getTotalStok`: the sum of `stok`; 0 for an empty namespace. */
  function GetTotalStok(store: LocalStorageService): (total: int)
    reads store
    requires AllProduk(GetAllProduk(store))
    ensures GetAllProduk(store) == [] ==> total == 0
  {
    SumProduk(GetAllProduk(store), StokOf)
  }

  /** `getTotalNilaiInventory`: the sum of `harga * stok`; 0 for an empty namespace. */
  function GetTotalNilaiInventory(store: LocalStorageService): (total: int)
    reads store
    requires AllProduk(GetAllProduk(store))
    ensures GetAllProduk(store) == [] ==> total == 0
  {
    SumProduk(GetAllProduk(store), NilaiOf)
  }

  /** The list `updateStok` writes back: the first product with the id gets the new stock. */
  function WithStok(items: seq<Record>, id: int, newStok: int): (after: seq<Record>)
    requires AllProduk(items)
    ensures AllProduk(after) && |after| == |items|
    ensures IndexOfId(items, id) == -1 ==> after == items
    ensures forall j | 0 <= j < |items| && j != IndexOfId(items, id) :: after[j] == items[j]
    ensures IndexOfId(items, id) != -1 ==> after[IndexOfId(items, id)] == ProdukRecord(items[IndexOfId(items, id)].produk.(stok := newStok))
  {
    var i := IndexOfId(items, id);
    if i == -1 then items else items[i := ProdukRecord(items[i].produk.(stok := newStok))]
  }

  /** After a stock update the product found under the id carries the new stock and its other
      fields unchanged, and the total stock moves by exactly the difference. */
  lemma UpdateStokEffect(items: seq<Record>, id: int, newStok: int)
    requires AllProduk(items) && IndexOfId(items, id) != -1
    ensures FindById(WithStok(items, id, newStok), id)
            == Some(ProdukRecord(items[IndexOfId(items, id)].produk.(stok := newStok)))
    ensures SumProduk(WithStok(items, id, newStok), StokOf)
            == SumProduk(items, StokOf) - items[IndexOfId(items, id)].produk.stok + newStok
  {
    var i := IndexOfId(items, id);
    var p := items[i].produk.(stok := newStok);
    UpdateThenFind(items, ProdukRecord(p));
    SumProdukReplace(items, i, p, StokOf);
  }

  /** `updateStok`: false and no write when no product has the id; otherwise only that product's
      `stok` changes, and the result is true. */
  method UpdateStok(store: LocalStorageService, id: int, newStok: int) returns (ok: bool)
    requires AllProduk(GetAllProduk(store))
    modifies store
    ensures IndexOfId(old(GetAllProduk(store)), id) == -1 ==> !ok && store.storage == old(store.storage)
    ensures IndexOfId(old(GetAllProduk(store)), id) != -1 ==>
              ok && store.storage == old(store.storage)[STORAGE_KEY := Stored(WithStok(old(GetAllProduk(store)), id, newStok))]
  {
    var found := GetProdukById(store, id);
    if found.None? {
      return false;
    }
    var produk := found.value.produk;
    var result := UpdateProduk(store, produk.(stok := newStok));
    ok := result.Ok?;
  }
}
