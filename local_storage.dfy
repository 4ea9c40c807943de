/** The generic record store: one list of records per namespace key, kept in the
    browser's key-value storage as JSON text. The storage medium is modelled as a map
    from key to entry; a key that is missing is an absent entry, and text that cannot be
    parsed as a list is a corrupt one. Every operation reads the whole list of one key,
    changes it, and writes it back in one piece. */
module LocalStorage {
  import opened Sequences
  import opened Text
  import opened Records

  const PETANI_DATA: string := "petani_data"
  const SAWAH_DATA: string := "sawah_data"
  const PRODUK_DATA: string := "produk_data"
  const KOORDINAT_DATA: string := "koordinat_data"
  const LAYER_DEMOGRAFI_DATA: string := "layer_demografi_data"
  const LEGENDA_DATA: string := "legenda_data"

  /** `Object.values(STORAGE_KEYS)`, in declaration order. */
  const STORAGE_KEYS: seq<string> :=
    [PETANI_DATA, SAWAH_DATA, PRODUK_DATA, KOORDINAT_DATA, LAYER_DEMOGRAFI_DATA, LEGENDA_DATA]

  /** What one key of the storage medium holds: a list of records, or text that does not parse. */
  datatype Entry = Stored(items: seq<Record>) | Corrupt

  /** The error `update` throws when no record has the id. */
  datatype Result<T> = Ok(value: T) | NotFound

  // ---------------------------------------------------------------------------------------
  // Specification functions on one snapshot of the storage medium.

  /** `getAll` on a snapshot: the stored list, or the empty list when the key is absent or corrupt. */
  function ReadItems(storage: map<string, Entry>, key: string): (items: seq<Record>)
    ensures key in storage && storage[key].Stored? ==> items == storage[key].items
    ensures key !in storage || storage[key].Corrupt? ==> items == []
  {
    if key in storage && storage[key].Stored? then storage[key].items else []
  }

  /** What `saveAll` leaves behind is exactly what `getAll` reads back, and no other key changes. */
  lemma SaveThenRead(storage: map<string, Entry>, key: string, items: seq<Record>, other: string)
    ensures ReadItems(storage[key := Stored(items)], key) == items
    ensures other != key ==> ReadItems(storage[key := Stored(items)], other) == ReadItems(storage, other)
  {
  }

  function HasId(id: int): Record -> bool {
    (r: Record) => Id(r) == id
  }

  function LacksId(id: int): Record -> bool {
    (r: Record) => Id(r) != id
  }

  /** `items.findIndex(item => item.id === id)`. */
  function IndexOfId(items: seq<Record>, id: int): (i: int)
    ensures -1 <= i < |items|
    ensures 0 <= i ==> Id(items[i]) == id && forall j | 0 <= j < i :: Id(items[j]) != id
    ensures i == -1 <==> forall j | 0 <= j < |items| :: Id(items[j]) != id
  {
    FindIndex(items, HasId(id))
  }

  /** `getById` on a list: the first record with the id, or none when no record has it. */
  function FindById(items: seq<Record>, id: int): (found: Option<Record>)
    ensures found.None? <==> forall j | 0 <= j < |items| :: Id(items[j]) != id
    ensures found.Some? ==>
              exists i | 0 <= i < |items| ::
                (items[i] == found.value && Id(found.value) == id && forall j | 0 <= j < i :: Id(items[j]) != id)
  {
    var i := IndexOfId(items, id);
    if i == -1 then None else Some(items[i])
  }

  /** The largest id of the list, or 0 when it is empty (`bulkCreate`'s `maxId`, the maximum of
      `items.map(item => item.id)`), folded from the front. */
  function MaxId(items: seq<Record>): int
  {
    if |items| == 0 then 0
    else if |items| == 1 then Id(items[0])
    else
      var m := MaxId(items[..|items| - 1]);
      if Id(items[|items| - 1]) > m then Id(items[|items| - 1]) else m
  }

  /** `MaxId` is the maximum: no id exceeds it, and a non-empty list has a record carrying it. */
  lemma {:induction false} MaxIdIsMax(items: seq<Record>)
    ensures forall i | 0 <= i < |items| :: Id(items[i]) <= MaxId(items)
    ensures |items| > 0 ==> exists i | 0 <= i < |items| :: Id(items[i]) == MaxId(items)
    ensures |items| == 0 ==> MaxId(items) == 0
    decreases |items|
  {
    if |items| == 1 {
      assert Id(items[0]) == MaxId(items);
    } else if |items| > 1 {
      var init := items[..|items| - 1];
      var last := |items| - 1;
      MaxIdIsMax(init);
      assert forall i | 0 <= i < |init| :: init[i] == items[i];
      if Id(items[last]) > MaxId(init) {
        assert Id(items[last]) == MaxId(items);
      } else {
        var j :| 0 <= j < |init| && Id(init[j]) == MaxId(init);
        assert Id(items[j]) == MaxId(items);
      }
    }
  }

  /** The fold agrees with `Math.max(...items.map(item => item.id))` on every non-empty list. */
  lemma MaxIdIsMaxOfIds(items: seq<Record>)
    requires |items| > 0
    ensures MaxId(items) == Max(Ids(items))
  {
    MaxIdIsMax(items);
    var j :| 0 <= j < |items| && Id(items[j]) == MaxId(items);
    assert Ids(items)[j] == MaxId(items);
    var k :| 0 <= k < |items| && Ids(items)[k] == Max(Ids(items));
  }

  /** The id `create` assigns: one more than the largest id, or 1 for an empty list. */
  function NextId(items: seq<Record>): (id: int)
    ensures items == [] ==> id == 1
    ensures items != [] ==> Id(items[0]) < id && Id(items[|items| - 1]) < id
  {
    MaxIdIsMax(items);
    if |items| > 0 then MaxId(items) + 1 else 1
  }

  /** The id `create` assigns is above every stored id, and just above the largest one. */
  lemma NextIdFresh(items: seq<Record>)
    ensures forall i | 0 <= i < |items| :: Id(items[i]) < NextId(items)
    ensures |items| == 0 ==> NextId(items) == 1
    ensures |items| > 0 ==> exists i | 0 <= i < |items| :: Id(items[i]) == NextId(items) - 1
  {
    MaxIdIsMax(items);
  }

  /** Creating keeps distinct ids distinct, and the created record is the one found by its id. */
  lemma {:induction false} CreateKeepsIdsDistinct(items: seq<Record>, item: Record)
    requires DistinctIds(items)
    ensures DistinctIds(items + [WithId(item, NextId(items))])
    ensures FindById(items + [WithId(item, NextId(items))], NextId(items)) == Some(WithId(item, NextId(items)))
  {
    var after := items + [WithId(item, NextId(items))];
    NextIdFresh(items);
    forall i, j | 0 <= i < j < |after|
      ensures Id(after[i]) != Id(after[j])
    {
      if j == |items| {
        assert after[i] == items[i];
      } else {
        assert after[i] == items[i] && after[j] == items[j];
      }
    }
    assert forall j | 0 <= j < |items| :: after[j] == items[j] && Id(after[j]) != NextId(items);
    assert after[|items|] == WithId(item, NextId(items));
  }

  /** `bulkCreate`'s numbering: the i-th new record gets id `maxId + i + 1`. */
  function Numbered(news: seq<Record>, maxId: int): (r: seq<Record>)
    ensures |r| == |news|
    ensures forall i | 0 <= i < |news| :: r[i] == WithId(news[i], maxId + i + 1)
  {
    if news == [] then []
    else Numbered(news[..|news| - 1], maxId) + [WithId(news[|news| - 1], maxId + |news|)]
  }

  /** Numbering one more item appends it under the next consecutive id. */
  lemma NumberedSnoc(news: seq<Record>, i: int, maxId: int)
    requires 0 <= i < |news|
    ensures Numbered(news[..i + 1], maxId) == Numbered(news[..i], maxId) + [WithId(news[i], maxId + i + 1)]
  {
    assert news[..i + 1][..i] == news[..i];
  }

  /** The numbered records carry the consecutive ids `maxId + 1 .. maxId + n`, all above the
      existing ones, so appending them to a list with distinct ids keeps the ids distinct. */
  lemma BulkIdsFresh(items: seq<Record>, news: seq<Record>)
    requires DistinctIds(items)
    ensures forall i | 0 <= i < |news| :: Id(Numbered(news, MaxId(items))[i]) == MaxId(items) + i + 1
    ensures DistinctIds(items + Numbered(news, MaxId(items)))
  {
    var m := MaxId(items);
    var numbered := Numbered(news, m);
    var all := items + numbered;
    MaxIdIsMax(items);
    forall i, j | 0 <= i < j < |all|
      ensures Id(all[i]) != Id(all[j])
    {
      if j < |items| {
        assert Id(all[i]) == Id(items[i]) && Id(all[j]) == Id(items[j]);
      } else {
        assert Id(all[j]) == Id(numbered[j - |items|]) == m + (j - |items|) + 1;
        if i < |items| {
          assert Id(all[i]) == Id(items[i]) <= m;
        } else {
          assert Id(all[i]) == Id(numbered[i - |items|]) == m + (i - |items|) + 1;
        }
      }
    }
  }

  /** After a numbered batch `create` continues the numbering: the next id is one above the
      batch's last id, whatever the ids of the batch's records were before numbering. */
  lemma {:induction false} NextIdAfterNumbered(items: seq<Record>, news: seq<Record>)
    ensures NextId(items + Numbered(news, MaxId(items))) == MaxId(items) + |news| + 1
  {
    var m := MaxId(items);
    var numbered := Numbered(news, m);
    var all := items + numbered;
    MaxIdIsMax(items);
    NextIdFresh(all);
    if |all| > 0 {
      var n := NextId(all);
      var k :| 0 <= k < |all| && Id(all[k]) == n - 1;
      if k < |items| {
        assert all[k] == items[k];
      } else {
        assert all[k] == numbered[k - |items|];
      }
      if |news| > 0 {
        assert all[|all| - 1] == numbered[|news| - 1];
      } else {
        var j :| 0 <= j < |items| && Id(items[j]) == m;
        assert all[j] == items[j];
      }
    }
  }

  /** `items.filter(item => item.id !== id)`: what `delete` writes back. */
  function Without(items: seq<Record>, id: int): (r: seq<Record>)
    ensures forall i | 0 <= i < |r| :: Id(r[i]) != id && r[i] in items
    ensures forall i | 0 <= i < |items| && Id(items[i]) != id :: items[i] in r
  {
    Filter(items, LacksId(id))
  }

  /** `delete` reports a removal exactly when some record had the id; after it none has, and
      the records kept are in their old order. */
  lemma DeleteRemovesExactly(items: seq<Record>, id: int)
    ensures |Without(items, id)| != |items| <==> exists i | 0 <= i < |items| :: Id(items[i]) == id
    ensures FindById(Without(items, id), id).None?
    ensures IsSubsequence(Without(items, id), items)
  {
    FilterKeepsAll(items, LacksId(id));
    FilterIsSubsequence(items, LacksId(id));
  }

  /** After `update` replaces the first record with the id, looking the id up yields the new record. */
  lemma UpdateThenFind(items: seq<Record>, updated: Record)
    requires IndexOfId(items, Id(updated)) != -1
    ensures FindById(items[IndexOfId(items, Id(updated)) := updated], Id(updated)) == Some(updated)
  {
    var i := IndexOfId(items, Id(updated));
    var after := items[i := updated];
    assert forall j | 0 <= j < i :: after[j] == items[j];
    var k := IndexOfId(after, Id(updated));
    assert Id(after[i]) == Id(updated);
    assert k != -1;
  }

  /** `r` is exactly the sub-sequence of `items` whose records satisfy `p`: each record that
      satisfies `p` is kept as often as it occurs, no other record is kept, and the order is kept. */
  ghost predicate Selects(r: seq<Record>, items: seq<Record>, p: Record -> bool) {
    && IsSubsequence(r, items)
    && forall x :: multiset(r)[x] == if p(x) then multiset(items)[x] else 0
  }

  /** `filter(p)` selects exactly the records satisfying `p`. */
  lemma FilterSelects(items: seq<Record>, p: Record -> bool)
    ensures Selects(Filter(items, p), items, p)
  {
    FilterIsSubsequence(items, p);
    forall x: Record
      ensures multiset(Filter(items, p))[x] == if p(x) then multiset(items)[x] else 0
    {
      FilterCount(items, p, x);
    }
  }

  /** `item => item[name] === v`. */
  function FieldIs(name: string, v: Value): Record -> bool {
    (r: Record) => Field(r, name) == v
  }

  /** What seed-if-empty initialisation leaves behind: when the key reads as empty, the default
      records numbered from 1 (one `bulkCreate` into an empty list); otherwise the storage as it was. */
  function SeededIfEmpty(storage: map<string, Entry>, key: string, defaults: seq<Record>): (after: map<string, Entry>)
    ensures ReadItems(storage, key) != [] ==> after == storage
    ensures ReadItems(storage, key) == [] ==> ReadItems(after, key) == Numbered(defaults, 0)
    ensures forall k | k != key :: (k in after <==> k in storage) && (k in storage ==> after[k] == storage[k])
  {
    if ReadItems(storage, key) == [] then storage[key := Stored(Numbered(defaults, 0))] else storage
  }

  /** Seeding twice is seeding once. */
  lemma SeedIdempotent(storage: map<string, Entry>, key: string, defaults: seq<Record>)
    ensures SeededIfEmpty(SeededIfEmpty(storage, key, defaults), key, defaults) == SeededIfEmpty(storage, key, defaults)
  {
  }

  /** Seeding an empty namespace numbers the defaults 1, 2, ..., n in their order, so the ids are distinct. */
  lemma SeededIds(defaults: seq<Record>)
    ensures forall i | 0 <= i < |defaults| :: Id(Numbered(defaults, 0)[i]) == i + 1
    ensures DistinctIds(Numbered(defaults, 0))
  {
  }

  /** A string field matches when its lower-cased text contains the term; a number field when its
      decimal text does; any other value never matches. */
  predicate FieldMatches(v: Value, lowerTerm: string) {
    match v
    case Str(s) => Contains(ToLower(s), lowerTerm)
    case Num(x) => Contains(NumberText(x), lowerTerm)
    case _ => false
  }

  /** Some listed field of `r` matches the (already lower-cased) term. */
  predicate MatchesSome(r: Record, lowerTerm: string, fields: seq<string>) {
    exists i | 0 <= i < |fields| :: FieldMatches(Field(r, fields[i]), lowerTerm)
  }

  function SearchPredicate(term: string, fields: seq<string>): Record -> bool {
    (r: Record) => MatchesSome(r, ToLower(term), fields)
  }

  /** `search` on a list: the records some listed field of which matches the term, case-insensitively. */
  function SearchItems(items: seq<Record>, term: string, fields: seq<string>): (found: seq<Record>)
    ensures forall i | 0 <= i < |found| :: found[i] in items && MatchesSome(found[i], ToLower(term), fields)
    ensures forall i | 0 <= i < |items| && MatchesSome(items[i], ToLower(term), fields) :: items[i] in found
  {
    Filter(items, SearchPredicate(term, fields))
  }

  /** The search keeps the stored order. */
  lemma SearchKeepsOrder(items: seq<Record>, term: string, fields: seq<string>)
    ensures IsSubsequence(SearchItems(items, term, fields), items)
  {
    FilterIsSubsequence(items, SearchPredicate(term, fields));
  }

  /** Some listed field holds a string or a number. */
  predicate HasTextOrNumber(r: Record, fields: seq<string>) {
    exists i | 0 <= i < |fields| :: Field(r, fields[i]).Str? || Field(r, fields[i]).Num?
  }

  /** An empty term keeps exactly the records that have a string or number in some listed field. */
  lemma SearchEmptyTerm(items: seq<Record>, fields: seq<string>)
    ensures SearchItems(items, "", fields) == Filter(items, (r: Record) => HasTextOrNumber(r, fields))
  {
    forall r: Record
      ensures MatchesSome(r, "", fields) == HasTextOrNumber(r, fields)
    {
      forall i | 0 <= i < |fields|
        ensures FieldMatches(Field(r, fields[i]), "") == (Field(r, fields[i]).Str? || Field(r, fields[i]).Num?)
      {
        match Field(r, fields[i])
        case Str(s) => ContainsEmpty(ToLower(s));
        case Num(x) => ContainsEmpty(NumberText(x));
        case _ =>
      }
    }
    assert ToLower("") == "";
    FilterExtensional(items, SearchPredicate("", fields), (r: Record) => HasTextOrNumber(r, fields));
  }

  /** What `validateAndMigrate` keeps of one stored item: the item itself when it is valid,
      otherwise its migration when a migrator is given, does not throw (`None`), and yields
      a valid record; nothing otherwise. */
  function MigrateOne(item: Record, valid: Record -> bool, migrate: Option<Record -> Option<Record>>): (r: seq<Record>)
    ensures |r| <= 1 && forall i | 0 <= i < |r| :: valid(r[i])
    ensures valid(item) ==> r == [item]
  {
    if valid(item) then [item]
    else match migrate
      case None => []
      case Some(m) => match m(item)
        case Some(y) => if valid(y) then [y] else []
        case None => []
  }

  /** The cleaned list `validateAndMigrate` writes back and returns. */
  function Migrated(items: seq<Record>, valid: Record -> bool, migrate: Option<Record -> Option<Record>>): (r: seq<Record>)
    ensures |r| <= |items|
    ensures forall i | 0 <= i < |r| :: valid(r[i])
  {
    if items == [] then []
    else Migrated(items[..|items| - 1], valid, migrate) + MigrateOne(items[|items| - 1], valid, migrate)
  }

  /** A list of valid records passes through unchanged, so cleaning twice is cleaning once. */
  lemma {:induction false} MigratedIdempotent(items: seq<Record>, valid: Record -> bool, migrate: Option<Record -> Option<Record>>)
    ensures (forall i | 0 <= i < |items| :: valid(items[i])) ==> Migrated(items, valid, migrate) == items
    ensures Migrated(Migrated(items, valid, migrate), valid, migrate) == Migrated(items, valid, migrate)
  {
    AllValidUnchanged(Migrated(items, valid, migrate), valid, migrate);
    if forall i | 0 <= i < |items| :: valid(items[i]) {
      AllValidUnchanged(items, valid, migrate);
    }
  }

  lemma {:induction false} AllValidUnchanged(items: seq<Record>, valid: Record -> bool, migrate: Option<Record -> Option<Record>>)
    requires forall i | 0 <= i < |items| :: valid(items[i])
    ensures Migrated(items, valid, migrate) == items
  {
    if items != [] {
      var init := items[..|items| - 1];
      assert forall i | 0 <= i < |init| :: init[i] == items[i];
      AllValidUnchanged(init, valid, migrate);
      assert init + [items[|items| - 1]] == items;
    }
  }

  /** Without a migrator the cleaning is a plain filter on the validator. */
  lemma {:induction false} MigratedWithoutMigrator(items: seq<Record>, valid: Record -> bool)
    ensures Migrated(items, valid, None) == Filter(items, valid)
  {
    if items != [] {
      var init := items[..|items| - 1];
      var last := items[|items| - 1];
      MigratedWithoutMigrator(init, valid);
      assert items == init + [last];
      FilterAppend(init, [last], valid);
      assert Filter([last], valid) == MigrateOne(last, valid, None) by {
        assert [last][1..] == [];
      }
    }
  }

  /** `keys || Object.values(STORAGE_KEYS)`: the keys `exportData` reads. */
  function ExportKeys(keys: Option<seq<string>>): seq<string> {
    match keys case None => STORAGE_KEYS case Some(ks) => ks
  }

  /** `exportData` on a snapshot: each requested key mapped to what `getAll` reads there. */
  function Exported(storage: map<string, Entry>, keys: seq<string>): (data: map<string, seq<Record>>)
    ensures forall k :: k in data <==> k in keys
    ensures forall k | k in data :: data[k] == ReadItems(storage, k)
  {
    map k | k in keys :: ReadItems(storage, k)
  }

  /** `importData` on a snapshot: every imported key holds the imported list (overwrite) or the
      old list followed by the imported one (append, ids kept as they are); other keys are untouched. */
  function Imported(storage: map<string, Entry>, data: map<string, seq<Record>>, overwrite: bool): (after: map<string, Entry>)
    ensures after.Keys == storage.Keys + data.Keys
    ensures forall k | k in data :: after[k] == Stored(if overwrite then data[k] else ReadItems(storage, k) + data[k])
    ensures forall k | k in storage && k !in data :: after[k] == storage[k]
  {
    map k | k in storage.Keys + data.Keys ::
      if k in data then Stored(if overwrite then data[k] else ReadItems(storage, k) + data[k]) else storage[k]
  }

  /** Exporting and importing the export with overwrite gives back, under every exported key, the
      list that was exported, and leaves every other key as it was. */
  lemma ExportImportRoundTrip(storage: map<string, Entry>, keys: seq<string>)
    ensures forall k | k in keys :: ReadItems(Imported(storage, Exported(storage, keys), true), k) == ReadItems(storage, k)
    ensures forall k | k !in keys :: (k in Imported(storage, Exported(storage, keys), true) <==> k in storage)
    ensures forall k | k !in keys && k in storage :: Imported(storage, Exported(storage, keys), true)[k] == storage[k]
  {
  }

  /** Appending an import does not renumber: importing a record whose id is already stored under
      that key leaves two records with the same id. */
  lemma ImportAppendCanDuplicateIds(storage: map<string, Entry>, key: string, r: Record)
    requires key in storage && storage[key] == Stored([r])
    ensures !DistinctIds(ReadItems(Imported(storage, map[key := [r]], false), key))
  {
    var after := ReadItems(Imported(storage, map[key := [r]], false), key);
    assert after == [r, r];
    assert Id(after[0]) == Id(after[1]);
  }

  // ---------------------------------------------------------------------------------------
  // The service object.

  /** `LocalStorageService`: the storage medium is its only state. */
  class LocalStorageService {
    var storage: map<string, Entry>

    constructor (initial: map<string, Entry>)
      ensures storage == initial
    {
      storage := initial;
    }

    /** `getAll(key)`: the list stored under the key, or the empty list when the key is absent or
        its text does not parse. */
    function GetAll(key: string): (items: seq<Record>)
      reads this
      ensures key in storage && storage[key].Stored? ==> items == storage[key].items
      ensures key !in storage || storage[key].Corrupt? ==> items == []
    {
      ReadItems(storage, key)
    }

    /** `getById(key, id)`: a record of the key with the id, or none exactly when no record has it. */
    function GetById(key: string, id: int): (found: Option<Record>)
      reads this
      ensures found.None? <==> forall j | 0 <= j < |GetAll(key)| :: Id(GetAll(key)[j]) != id
      ensures found.Some? ==> Id(found.value) == id && found.value in GetAll(key)
    {
      FindById(GetAll(key), id)
    }

    /** `saveAll(key, items)`: the key now holds exactly `items`. */
    method SaveAll(key: string, items: seq<Record>)
      modifies this
      ensures storage == old(storage)[key := Stored(items)]
    {
      storage := storage[key := Stored(items)];
    }

    /** `create(key, item)`: appends the item under the next id and returns it. */
    method Create(key: string, item: Record) returns (created: Record)
      modifies this
      ensures created == WithId(item, NextId(old(GetAll(key))))
      ensures storage == old(storage)[key := Stored(old(GetAll(key)) + [created])]
    {
      var items := GetAll(key);
      var newId := if |items| > 0 then Max(Ids(items)) + 1 else 1;
      if |items| > 0 {
        MaxIdIsMaxOfIds(items);
      }
      created := WithId(item, newId);
      SaveAll(key, items + [created]);
    }

    /** `update(key, item)`: replaces the first record with the item's id, or fails with
        nothing written when no record has it. */
    method Update(key: string, updated: Record) returns (result: Result<Record>)
      modifies this
      ensures IndexOfId(old(GetAll(key)), Id(updated)) == -1 ==> result == NotFound && storage == old(storage)
      ensures IndexOfId(old(GetAll(key)), Id(updated)) != -1 ==>
                result == Ok(updated)
                && storage == old(storage)[key := Stored(old(GetAll(key))[IndexOfId(old(GetAll(key)), Id(updated)) := updated])]
    {
      var items := GetAll(key);
      var index := IndexOfId(items, Id(updated));
      if index == -1 {
        return NotFound;
      }
      SaveAll(key, items[index := updated]);
      result := Ok(updated);
    }

    /** `delete(key, id)`: removes every record with the id and reports whether there was one;
        writes nothing when there was none. */
    method Delete(key: string, id: int) returns (removed: bool)
      modifies this
      ensures removed <==> exists i | 0 <= i < |old(GetAll(key))| :: Id(old(GetAll(key))[i]) == id
      ensures removed ==> storage == old(storage)[key := Stored(Without(old(GetAll(key)), id))]
      ensures !removed ==> storage == old(storage)
    {
      var items := GetAll(key);
      var filtered := Without(items, id);
      DeleteRemovesExactly(items, id);
      if |filtered| == |items| {
        return false;
      }
      SaveAll(key, filtered);
      removed := true;
    }

    /** `clear(key)`: the key becomes absent. */
    method Clear(key: string)
      modifies this
      ensures storage == old(storage) - {key}
    {
      storage := storage - {key};
    }

    /** `clearAll()`: the six application keys become absent; other keys stay. */
    method ClearAll()
      modifies this
      ensures storage == old(storage) - set k | k in STORAGE_KEYS
    {
      var i := 0;
      while i < |STORAGE_KEYS|
        invariant 0 <= i <= |STORAGE_KEYS|
        invariant storage == old(storage) - set k | k in STORAGE_KEYS[..i]
      {
        Clear(STORAGE_KEYS[i]);
        assert STORAGE_KEYS[..i + 1] == STORAGE_KEYS[..i] + [STORAGE_KEYS[i]];
        i := i + 1;
      }
      assert STORAGE_KEYS[..i] == STORAGE_KEYS;
    }

    /** `bulkCreate(key, items)`: numbers the items consecutively above the current maximum,
        appends them in one write and returns them. */
    method BulkCreate(key: string, items: seq<Record>) returns (newItems: seq<Record>)
      modifies this
      ensures newItems == Numbered(items, MaxId(old(GetAll(key))))
      ensures storage == old(storage)[key := Stored(old(GetAll(key)) + newItems)]
    {
      var existing := GetAll(key);
      var maxId := if |existing| > 0 then Max(Ids(existing)) else 0;
      newItems := [];
      var i := 0;
      while i < |items|
        invariant 0 <= i <= |items|
        invariant newItems == Numbered(items[..i], maxId)
        invariant storage == old(storage)
      {
        NumberedSnoc(items, i, maxId);
        newItems := newItems + [WithId(items[i], maxId + i + 1)];
        i := i + 1;
      }
      assert items[..i] == items;
      if |existing| > 0 {
        MaxIdIsMaxOfIds(existing);
      }
      SaveAll(key, existing + newItems);
    }

    /** `search(key, term, fields)`: the stored records some listed field of which matches the term,
        all of them, in stored order. */
    function Search(key: string, term: string, fields: seq<string>): (found: seq<Record>)
      reads this
      ensures forall i | 0 <= i < |found| :: MatchesSome(found[i], ToLower(term), fields)
      ensures forall i | 0 <= i < |GetAll(key)| && MatchesSome(GetAll(key)[i], ToLower(term), fields) :: GetAll(key)[i] in found
      ensures IsSubsequence(found, GetAll(key))
    {
      SearchKeepsOrder(GetAll(key), term, fields);
      SearchItems(GetAll(key), term, fields)
    }

    /** `filter(key, predicate)`: the stored records that satisfy the predicate, all of them, in
        stored order. */
    function Filter(key: string, p: Record -> bool): (found: seq<Record>)
      reads this
      ensures forall i | 0 <= i < |found| :: p(found[i])
      ensures forall i | 0 <= i < |GetAll(key)| && p(GetAll(key)[i]) :: GetAll(key)[i] in found
      ensures IsSubsequence(found, GetAll(key))
    {
      FilterIsSubsequence(GetAll(key), p);
      Sequences.Filter(GetAll(key), p)
    }

    /** `validateAndMigrate(key, validator, migrator)`: for a stored list, keeps each valid item or
        its valid migration, writes the cleaned list back and returns it; for an absent or corrupt
        key returns the empty list and writes nothing. */
    method ValidateAndMigrate(key: string, valid: Record -> bool, migrate: Option<Record -> Option<Record>>)
      returns (validItems: seq<Record>)
      modifies this
      ensures key in old(storage) && old(storage)[key].Stored? ==>
                validItems == Migrated(old(storage)[key].items, valid, migrate)
                && storage == old(storage)[key := Stored(validItems)]
      ensures !(key in old(storage) && old(storage)[key].Stored?) ==> validItems == [] && storage == old(storage)
    {
      if key !in storage || storage[key].Corrupt? {
        return [];
      }
      var items := storage[key].items;
      validItems := [];
      var i := 0;
      while i < |items|
        invariant 0 <= i <= |items|
        invariant validItems == Migrated(items[..i], valid, migrate)
      {
        assert items[..i + 1][..i] == items[..i];
        var item := items[i];
        if valid(item) {
          validItems := validItems + [item];
        } else if migrate.Some? {
          var migrated := migrate.value(item);
          if migrated.Some? && valid(migrated.value) {
            validItems := validItems + [migrated.value];
          }
        }
        i := i + 1;
      }
      assert items[..i] == items;
      SaveAll(key, validItems);
    }

    /** `exportData(keys)`: the requested keys, or all six application keys when none are given,
        each mapped to what `getAll` reads there. */
    function ExportData(keys: Option<seq<string>>): (data: map<string, seq<Record>>)
      reads this
      ensures keys.Some? ==> forall k :: k in data <==> k in keys.value
      ensures keys.None? ==> forall k :: k in data <==> k in STORAGE_KEYS
      ensures forall k | k in data :: data[k] == GetAll(k)
    {
      Exported(storage, ExportKeys(keys))
    }

    /** `importData(data, overwrite)`: each imported key is overwritten with, or has appended to
        it, the imported list; keys not in `data` are untouched. */
    method ImportData(data: map<string, seq<Record>>, overwrite: bool)
      modifies this
      ensures storage == Imported(old(storage), data, overwrite)
    {
      var pending := data.Keys;
      while pending != {}
        invariant pending <= data.Keys
        invariant storage.Keys == old(storage).Keys + (data.Keys - pending)
        invariant forall k | k in data && k !in pending ::
                    storage[k] == Stored(if overwrite then data[k] else ReadItems(old(storage), k) + data[k])
        invariant forall k | k in old(storage) && (k !in data || k in pending) :: storage[k] == old(storage)[k]
        decreases pending
      {
        var key :| key in pending;
        if overwrite {
          SaveAll(key, data[key]);
        } else {
          var existing := GetAll(key);
          SaveAll(key, existing + data[key]);
        }
        pending := pending - {key};
      }
    }
  }
}
