# Village agriculture dashboard: record store, services and settings screens

This project models the data core of a village agriculture dashboard in Dafny. The dashboard
keeps farmers (*petani*), rice-field plots (*sawah*), marketplace products (*produk*) and map
settings (points of interest, *koordinat*; demographic layers, *layer demografi*; legend
entries, *legenda*) in the browser's key-value storage. It also has screens that edit
in-memory lists of fertilizers (*pupuk*), layers, legend entries and points.

The model has three layers:

- **The generic record store** (`LocalStorage`). The storage medium is a `map<string, Entry>`:
  - an absent key is not in the map;
  - text that does not parse, or does not parse as an array, is `Corrupt` (see "## Left out"
    for where this differs from the source);
  - otherwise the key holds `Stored(items)`.

  `LocalStorageService` is a class whose only field is that map. Its methods (`Create`,
  `Update`, `Delete`, `BulkCreate`, `ValidateAndMigrate`, `ImportData`, ...) are each proved
  against a specification function on a snapshot of the map (`ReadItems`, `FindById`,
  `NextId`, `Numbered`, `Without`, `Migrated`, `Imported`, ...). The properties the store
  promises are proved about those functions as lemmas:
  - create hands out fresh ids;
  - bulk numbering is consecutive;
  - delete reports exactly whether something was removed;
  - validation is idempotent;
  - export followed by an overwriting import is the identity.
- **The four services** (`PetaniService`, `ProdukService`, `SawahService`, `PengaturanService`).
  Each binds the store to its namespace key and adds:
  - default seeding, which fills a namespace only when it reads as empty;
  - equality and range filters;
  - totals, computed as `reduce` sums;
  - a stock updater (products only);
  - export and import of all settings, where an appending import goes through `create` one item
    at a time and therefore renumbers every item.
- **The screens** (`PupukScreen`, `LayerScreen`, `LegendScreen`, `CoordinateScreen`). Each is
  a class whose fields are the screen's React state:
  - its handlers are methods;
  - the lists they produce are specified by pure functions;
  - the shared list edits live in `ListEditing`: next id, replace-by-id, delete-by-id, and the
    hex-colour check `^#([0-9A-F]{3}){1,2}$` with the `i` flag.

  The legend screen groups its entries by category (`Grouped`). The model shows that this
  grouping has these properties:
  - it is a partition of the list into non-empty groups;
  - every group keeps list order;
  - each category's group is exactly that category's entries;
  - no entry is lost or filed twice.

Facts about the source's data shown along the way:

- One of the four seeded fertilizers, TSP with 150 kg, is seeded as "Segera Habis" (running
  low), although its stock gives "Tersedia" (available). Its badge is therefore yellow while its
  stock figure is green (`PupukScreen.InitialPupukStatuses`).
- Importing with append through the generic store keeps the imported ids, so it can duplicate
  ids (`LocalStorage.ImportAppendCanDuplicateIds`). The settings import, by contrast, renumbers
  (`PengaturanService.AppendImportRenumbers`).

Integers of the source that are whole by type (ids, ages, product price and stock,
fertilizer stock and price) are `int`. Fractional measures (areas, harvests, coordinates) are
`real`, so the model uses exact arithmetic where the source uses floating point. Strings are
`seq<char>`.

## Model

| member | source | states |
|---|---|---|
| LocalStorage.ReadItems | src/services/localStorageService.ts:31-39 | reading a key gives the list stored there; an absent key or unparseable text reads as the empty list |
| LocalStorage.SaveThenRead | src/services/localStorageService.ts:103-110 | what `saveAll` writes is read back unchanged, and every other key reads as before |
| LocalStorage.IndexOfId | src/services/localStorageService.ts:70 | `findIndex` is -1 exactly when no record has the id; otherwise it is the first position holding the id |
| LocalStorage.FindById | src/services/localStorageService.ts:41-49 | `getById` finds nothing exactly when no record has the id; otherwise it gives the first record with that id |
| LocalStorage.MaxIdIsMax | src/services/localStorageService.ts:134 | the largest id bounds every id and is carried by some record of a non-empty list; it is 0 for an empty list |
| LocalStorage.MaxIdIsMaxOfIds | src/services/localStorageService.ts:54 | the largest id equals `Math.max(...items.map(i => i.id))` on a non-empty list |
| LocalStorage.MaxId | src/services/localStorageService.ts:134 | the largest stored id, 0 for an empty list; it has no contract of its own, and `MaxIdIsMax` and `MaxIdIsMaxOfIds` state what it is |
| LocalStorage.NextId | src/services/localStorageService.ts:54 | the id `create` assigns is 1 for an empty list, and otherwise above the ids of the first and the last record |
| LocalStorage.NextIdFresh | src/services/localStorageService.ts:54 | the id `create` assigns is above every stored id; it is 1 for an empty list and otherwise one above an existing id |
| LocalStorage.CreateKeepsIdsDistinct | src/services/localStorageService.ts:51-65 | appending under the next id keeps distinct ids distinct, and looking up the new id finds the new record |
| LocalStorage.Numbered | src/services/localStorageService.ts:136-139 | the i-th new record is the i-th item with id `maxId + i + 1`; nothing else changes and the length is kept |
| LocalStorage.NumberedSnoc | src/services/localStorageService.ts:136-139 | numbering one more item appends it under the next consecutive id |
| LocalStorage.BulkIdsFresh | src/services/localStorageService.ts:131-149 | the bulk ids are `maxId + 1, maxId + 2, ...`, and appending them to a list with distinct ids keeps the ids distinct |
| LocalStorage.NextIdAfterNumbered | src/services/localStorageService.ts:131-149 | after a numbered batch, the next `create` id is one above the batch's last id |
| LocalStorage.Without | src/services/localStorageService.ts:89 | the filtered list holds no record with the id and every record with another id |
| LocalStorage.DeleteRemovesExactly | src/services/localStorageService.ts:86-101 | the length changes exactly when some record had the id; afterwards no record has it; the kept records stay in order |
| LocalStorage.UpdateThenFind | src/services/localStorageService.ts:67-84 | after `update` replaces the first record with the id, looking the id up yields the new record |
| LocalStorage.FilterSelects | src/services/localStorageService.ts:175-183 | `filter` keeps exactly the records satisfying the predicate, as often as they occur and in stored order |
| LocalStorage.SeededIfEmpty | src/services/petaniStorageService.ts:17-53 | seeding writes the defaults numbered from 1 only when the namespace reads as empty; otherwise, and for every other key, nothing changes |
| LocalStorage.SeedIdempotent | src/services/petaniStorageService.ts:17-53 | seeding twice is seeding once |
| LocalStorage.SeededIds | src/services/localStorageService.ts:131-149 | bulk-creating into an empty list numbers the defaults 1..n in order, so their ids are distinct |
| LocalStorage.SearchItems | src/services/localStorageService.ts:152-173 | `search` keeps exactly the records with a listed field matching the lower-cased term: a string field whose lower-cased text contains it, or a number field whose decimal text contains it |
| LocalStorage.SearchKeepsOrder | src/services/localStorageService.ts:157-168 | the search result keeps the stored order |
| LocalStorage.SearchEmptyTerm | src/services/localStorageService.ts:152-173 | an empty term keeps exactly the records with a string or number in some listed field |
| LocalStorage.MigrateOne | src/services/localStorageService.ts:196-208 | of one item, at most one valid record is kept, and a valid item is kept as it is |
| LocalStorage.Migrated | src/services/localStorageService.ts:186-218 | the cleaned list is no longer than the stored one, and every record in it passes the validator |
| LocalStorage.MigratedIdempotent | src/services/localStorageService.ts:186-218 | a list of valid records passes through unchanged, so cleaning twice is cleaning once |
| LocalStorage.AllValidUnchanged | src/services/localStorageService.ts:196-198 | when every item is valid, cleaning returns the list unchanged |
| LocalStorage.MigratedWithoutMigrator | src/services/localStorageService.ts:196-199 | without a migrator, the cleaning is a plain filter on the validator |
| LocalStorage.Exported | src/services/localStorageService.ts:221-235 | the export has exactly the requested keys, each mapped to what `getAll` reads there |
| LocalStorage.Imported | src/services/localStorageService.ts:237-252 | each imported key holds the imported list (overwrite) or the old list followed by it (append); other keys are untouched |
| LocalStorage.ExportImportRoundTrip | src/services/localStorageService.ts:221-252 | exporting and then importing with overwrite gives back every exported list and leaves every other key as it was |
| LocalStorage.ImportAppendCanDuplicateIds | src/services/localStorageService.ts:243-245 | an appending import keeps the imported ids, so importing a stored record again leaves two records with one id |
| LocalStorage.LocalStorageService.constructor | src/services/localStorageService.ts:20-28 | the service wraps the storage medium as it finds it |
| LocalStorage.LocalStorageService.SaveAll | src/services/localStorageService.ts:103-110 | the key holds exactly the list and no other key changes |
| LocalStorage.LocalStorageService.Create | src/services/localStorageService.ts:51-65 | the item is returned and appended under `NextId` of the old list; only that key changes |
| LocalStorage.LocalStorageService.Update | src/services/localStorageService.ts:67-84 | a missing id fails with nothing written; otherwise the first record with the id is replaced and the item is returned |
| LocalStorage.LocalStorageService.Delete | src/services/localStorageService.ts:86-101 | returns true exactly when some record had the id; then the filtered list is written, otherwise nothing is |
| LocalStorage.LocalStorageService.Clear | src/services/localStorageService.ts:112-118 | the key becomes absent and nothing else changes |
| LocalStorage.LocalStorageService.ClearAll | src/services/localStorageService.ts:120-128 | the six application keys become absent; other keys stay |
| LocalStorage.LocalStorageService.BulkCreate | src/services/localStorageService.ts:131-149 | returns the items numbered above the old maximum and appends them in one write |
| LocalStorage.LocalStorageService.ValidateAndMigrate | src/services/localStorageService.ts:186-218 | for a stored list, writes back and returns `Migrated` of it; for an absent or corrupt key, returns the empty list and writes nothing |
| LocalStorage.LocalStorageService.ImportData | src/services/localStorageService.ts:237-252 | the storage becomes `Imported` of the old storage |
| LocalStorage.LocalStorageService.GetAll | src/services/localStorageService.ts:31-39 | a stored list is read back as it is; an absent key or corrupt text reads as the empty list |
| LocalStorage.LocalStorageService.GetById | src/services/localStorageService.ts:41-49 | nothing is found exactly when no stored record has the id; a found record has the id and is stored under the key |
| LocalStorage.LocalStorageService.Search | src/services/localStorageService.ts:152-173 | every result has a listed field matching the lower-cased term, every stored record that matches is in the result, and the result keeps the stored order |
| LocalStorage.LocalStorageService.Filter | src/services/localStorageService.ts:175-183 | every result satisfies the predicate, every stored record that satisfies it is in the result, and the result keeps the stored order |
| LocalStorage.LocalStorageService.ExportData | src/services/localStorageService.ts:221-235 | the export has exactly the requested keys, or the six application keys when none are given, each mapped to what `getAll` reads there |
| PetaniService.InitializeDefaultData | src/services/petaniStorageService.ts:17-53 | the storage becomes the seeded storage: the two farmers when the namespace is empty, unchanged otherwise |
| PetaniService.GetAllPetani | src/services/petaniStorageService.ts:55-57 | the records stored under `petani_data`, or none when the key is absent or its text is corrupt |
| PetaniService.GetPetaniById | src/services/petaniStorageService.ts:59-61 | nothing is found exactly when no record of `petani_data` has the id; a found record has the id and is one of them |
| PetaniService.SeededPetani | src/services/petaniStorageService.ts:20-51 | seeding an empty namespace stores Budi Santoso as id 1 and Sari Wati as id 2; seeding again changes nothing |
| PetaniService.CreatePetani | src/services/petaniStorageService.ts:63-65 | appends the farmer under the next id of `petani_data` only |
| PetaniService.UpdatePetani | src/services/petaniStorageService.ts:67-69 | replaces the first farmer with the id, or fails without writing |
| PetaniService.DeletePetani | src/services/petaniStorageService.ts:71-73 | removes the farmers with the id and reports whether there was one |
| PetaniService.SearchPetani | src/services/petaniStorageService.ts:75-81 | selects exactly the farmers matching the term in name, address, status, e-mail or phone |
| PetaniService.GetPetaniByStatus | src/services/petaniStorageService.ts:83-88 | selects exactly the farmers with that status, in order |
| PetaniService.GetPetaniByPendidikan | src/services/petaniStorageService.ts:90-95 | selects exactly the farmers whose education equals the argument, and each of them has it set |
| PetaniService.PendidikanMatches | src/services/petaniStorageService.ts:90-95 | a farmer whose `pendidikan` property reads as the string has that education level set |
| PetaniService.GetTotalPetani | src/services/petaniStorageService.ts:97-99 | the count is 0 exactly when the namespace is empty |
| PetaniService.SumPetani | src/services/petaniStorageService.ts:101-107 | the `reduce` sum starts from 0 |
| PetaniService.SumPetaniAppend | src/services/petaniStorageService.ts:101-107 | the total of two lists, one after the other, is the sum of their totals |
| PetaniService.SumPetaniNonNegative | src/services/petaniStorageService.ts:101-107 | a sum of non-negative terms is non-negative |
| PetaniService.GetTotalLuasLahan | src/services/petaniStorageService.ts:101-103 | the total area is 0 for an empty namespace and never negative when no farmer's area is |
| PetaniService.GetTotalHasilPanen | src/services/petaniStorageService.ts:105-107 | the total harvest is 0 for an empty namespace and never negative when no farmer's harvest is |
| ProdukService.InitializeDefaultData | src/services/produkStorageService.ts:16-46 | seeds the two products when the namespace is empty, leaves the storage unchanged otherwise |
| ProdukService.GetAllProduk | src/services/produkStorageService.ts:48-50 | the records stored under `produk_data`, or none when the key is absent or its text is corrupt |
| ProdukService.GetProdukById | src/services/produkStorageService.ts:52-54 | nothing is found exactly when no record of `produk_data` has the id; a found record has the id and is one of them |
| ProdukService.SeededProduk | src/services/produkStorageService.ts:19-44 | seeding an empty namespace stores the two products as ids 1 and 2 with their listed fields; seeding again changes nothing |
| ProdukService.CreateProduk | src/services/produkStorageService.ts:56-58 | appends the product under the next id of `produk_data` only |
| ProdukService.UpdateProduk | src/services/produkStorageService.ts:60-62 | replaces the first product with the id, or fails without writing |
| ProdukService.DeleteProduk | src/services/produkStorageService.ts:64-66 | removes the products with the id and reports whether there was one |
| ProdukService.SearchProduk | src/services/produkStorageService.ts:68-74 | selects exactly the products matching the term in name, farmer, location, quality or description |
| ProdukService.GetProdukByPetani | src/services/produkStorageService.ts:76-81 | selects exactly the products of that farmer, in order |
| ProdukService.GetProdukByKualitas | src/services/produkStorageService.ts:83-88 | selects exactly the products of that quality, in order |
| ProdukService.GetProdukInStock | src/services/produkStorageService.ts:90-95 | selects exactly the products with positive stock, and each has `stok > 0` |
| ProdukService.InStockMatches | src/services/produkStorageService.ts:90-95 | a product whose `stok` property reads as a positive number has positive stock |
| ProdukService.GetProdukByPriceRange | src/services/produkStorageService.ts:97-102 | selects exactly the products priced within the closed range, and each has its price in it |
| ProdukService.PriceWithinMatches | src/services/produkStorageService.ts:97-102 | a product whose `harga` property reads as a number within the range is priced within it |
| ProdukService.PriceRangeInvertedIsEmpty | src/services/produkStorageService.ts:97-102 | a range whose minimum exceeds its maximum selects nothing |
| ProdukService.SumProduk | src/services/produkStorageService.ts:118-124 | the `reduce` sum starts from 0 |
| ProdukService.SumProdukAppend | src/services/produkStorageService.ts:122-124 | the total of two lists, one after the other, is the sum of their totals |
| ProdukService.SumProdukReplace | src/services/produkStorageService.ts:118-124 | replacing one product changes the total by the difference of its two terms |
| ProdukService.GetTotalStok | src/services/produkStorageService.ts:122-124 | the total stock of an empty namespace is 0 |
| ProdukService.GetTotalNilaiInventory | src/services/produkStorageService.ts:118-120 | the inventory value of an empty namespace is 0 |
| ProdukService.WithStok | src/services/produkStorageService.ts:104-116 | only the first product with the id gets the new stock, with its other fields kept; a missing id changes nothing |
| ProdukService.UpdateStokEffect | src/services/produkStorageService.ts:104-116 | afterwards the id finds the product with the new stock, and the total stock moves by exactly the difference |
| ProdukService.UpdateStok | src/services/produkStorageService.ts:104-116 | false with no write when no product has the id; otherwise true, and only that product's stock changes |
| SawahService.InitializeDefaultData | src/services/sawahStorageService.ts:16-54 | seeds the default plots when the namespace is empty, leaves the storage unchanged otherwise |
| SawahService.GetAllSawah | src/services/sawahStorageService.ts:56-58 | the records stored under `sawah_data`, or none when the key is absent or its text is corrupt |
| SawahService.GetSawahById | src/services/sawahStorageService.ts:60-62 | nothing is found exactly when no record of `sawah_data` has the id; a found record has the id and is one of them |
| SawahService.SeededSawah | src/services/sawahStorageService.ts:19-50 | seeding an empty namespace stores the default plots as ids 1 and 2; seeding again changes nothing |
| SawahService.CreateSawah | src/services/sawahStorageService.ts:64-66 | appends the plot under the next id of `sawah_data` only |
| SawahService.UpdateSawah | src/services/sawahStorageService.ts:68-70 | replaces the first plot with the id, or fails without writing |
| SawahService.DeleteSawah | src/services/sawahStorageService.ts:72-74 | removes the plots with the id and reports whether there was one |
| SawahService.SearchSawah | src/services/sawahStorageService.ts:76-82 | selects exactly the plots matching the term in name, farmer, variety, planting status or season |
| SawahService.GetSawahByPetani | src/services/sawahStorageService.ts:84-89 | selects exactly the plots of that farmer, in order |
| SawahService.GetSawahByStatus | src/services/sawahStorageService.ts:91-96 | selects exactly the plots with that planting status, in order |
| SawahService.GetSawahByVarietas | src/services/sawahStorageService.ts:98-103 | selects exactly the plots of that variety, in order |
| SawahService.SumSawah | src/services/sawahStorageService.ts:105-111 | the `reduce` sum starts from 0 |
| SawahService.SumSawahAppend | src/services/sawahStorageService.ts:105-111 | the total of two lists, one after the other, is the sum of their totals |
| SawahService.SumSawahNonNegative | src/services/sawahStorageService.ts:105-111 | a sum of non-negative terms is non-negative |
| SawahService.AverageHasilPerHektar | src/services/sawahStorageService.ts:113-121 | 0 with no plots or no positive area; otherwise the average times the total area is the total harvest |
| SawahService.AverageNonNegative | src/services/sawahStorageService.ts:113-121 | with non-negative harvests the average is never negative |
| SawahService.GetTotalLuas | src/services/sawahStorageService.ts:105-107 | the total area is 0 for an empty namespace and never negative when no plot's area is |
| SawahService.GetTotalHasilPanen | src/services/sawahStorageService.ts:109-111 | the total harvest is 0 for an empty namespace and never negative when no plot's harvest is |
| SawahService.GetAverageHasilPerHektar | src/services/sawahStorageService.ts:113-121 | the average is 0 for an empty namespace and never negative when no plot's harvest is |
| PengaturanService.InitializeKoordinatData | src/services/pengaturanStorageService.ts:15-86 | seeds the nine points when the namespace is empty, leaves the storage unchanged otherwise |
| PengaturanService.InitializeLayerData | src/services/pengaturanStorageService.ts:109-145 | seeds the four layers when the namespace is empty, leaves the storage unchanged otherwise |
| PengaturanService.InitializeLegendaData | src/services/pengaturanStorageService.ts:168-224 | seeds the eight legend items when the namespace is empty, leaves the storage unchanged otherwise |
| PengaturanService.GetAllKoordinat | src/services/pengaturanStorageService.ts:88-90 | the records stored under `koordinat_data`, or none when the key is absent or its text is corrupt |
| PengaturanService.GetKoordinatById | src/services/pengaturanStorageService.ts:92-94 | nothing is found exactly when no record of `koordinat_data` has the id; a found record has the id and is one of them |
| PengaturanService.GetAllLayer | src/services/pengaturanStorageService.ts:147-149 | the records stored under `layer_demografi_data`, or none when the key is absent or its text is corrupt |
| PengaturanService.GetLayerById | src/services/pengaturanStorageService.ts:151-153 | nothing is found exactly when no record of `layer_demografi_data` has the id; a found record has the id and is one of them |
| PengaturanService.GetAllLegenda | src/services/pengaturanStorageService.ts:226-228 | the records stored under `legenda_data`, or none when the key is absent or its text is corrupt |
| PengaturanService.GetLegendaById | src/services/pengaturanStorageService.ts:230-232 | nothing is found exactly when no record of `legenda_data` has the id; a found record has the id and is one of them |
| PengaturanService.SeededKoordinatIds | src/services/pengaturanStorageService.ts:15-86 | after seeding an empty namespace the points carry ids 1..9 in the listed order |
| PengaturanService.SeededLayerIds | src/services/pengaturanStorageService.ts:109-145 | after seeding an empty namespace the layers carry ids 1..4 in the listed order |
| PengaturanService.SeededLegendaIds | src/services/pengaturanStorageService.ts:168-224 | after seeding an empty namespace the legend items carry ids 1..8 in the listed order |
| PengaturanService.CreateKoordinat | src/services/pengaturanStorageService.ts:96-98 | appends the point under the next id of `koordinat_data` only |
| PengaturanService.UpdateKoordinat | src/services/pengaturanStorageService.ts:100-102 | replaces the first point with the id, or fails without writing |
| PengaturanService.DeleteKoordinat | src/services/pengaturanStorageService.ts:104-106 | removes the points with the id and reports whether there was one |
| PengaturanService.CreateLayer | src/services/pengaturanStorageService.ts:155-157 | appends the layer under the next id of `layer_demografi_data` only |
| PengaturanService.UpdateLayer | src/services/pengaturanStorageService.ts:159-161 | replaces the first layer with the id, or fails without writing |
| PengaturanService.DeleteLayer | src/services/pengaturanStorageService.ts:163-165 | removes the layers with the id and reports whether there was one |
| PengaturanService.CreateLegenda | src/services/pengaturanStorageService.ts:234-236 | appends the item under the next id of `legenda_data` only |
| PengaturanService.UpdateLegenda | src/services/pengaturanStorageService.ts:238-240 | replaces the first item with the id, or fails without writing |
| PengaturanService.DeleteLegenda | src/services/pengaturanStorageService.ts:242-244 | removes the items with the id and reports whether there was one |
| PengaturanService.Exported | src/services/pengaturanStorageService.ts:247-253 | the export holds the three current lists under `koordinat`, `layers` and `legenda` |
| PengaturanService.ExportAllPengaturan | src/services/pengaturanStorageService.ts:247-253 | the export holds exactly what the three getters read, under `koordinat`, `layers` and `legenda` |
| PengaturanService.ImportedSettings | src/services/pengaturanStorageService.ts:255-279 | with overwrite, each present section is what its namespace reads afterwards; keys other than the three namespaces are untouched |
| PengaturanService.ImportedSection | src/services/pengaturanStorageService.ts:256-262 | a missing section changes nothing; with overwrite, the section replaces the namespace; no other key changes |
| PengaturanService.ExportImportRoundTrip | src/services/pengaturanStorageService.ts:247-279 | exporting and then importing with overwrite leaves all three namespaces reading as before and every other key as it was |
| PengaturanService.MissingSectionUntouched | src/services/pengaturanStorageService.ts:255-279 | a section missing from the import leaves its namespace exactly as it was |
| PengaturanService.AppendImportRenumbers | src/services/pengaturanStorageService.ts:256-262 | an appending import puts the section after the old list, with consecutive ids above its maximum, so distinct ids stay distinct |
| PengaturanService.CreateEach | src/services/pengaturanStorageService.ts:261 | calling `create` on each item in turn leaves the old list followed by the items, numbered above the old maximum |
| PengaturanService.CreateContinuesNumbering | src/services/pengaturanStorageService.ts:261 | each `create` in the loop extends that numbering by one record |
| PengaturanService.ImportSection | src/services/pengaturanStorageService.ts:256-262 | the storage becomes `ImportedSection` of the old storage |
| PengaturanService.ImportAllPengaturan | src/services/pengaturanStorageService.ts:255-279 | the sections are imported in order: points, then layers, then legend items |
| Records.WithId | src/services/localStorageService.ts:55 | `{ ...item, id }` has the new id and every other property of the item |
| Records.Field | src/services/localStorageService.ts:159 | the `id` property of every record reads as its id |
| Records.Ids | src/services/localStorageService.ts:54 | `items.map(i => i.id)`: one id per record, in order |
| Sequences.Filter | src/services/localStorageService.ts:178 | `Array.prototype.filter` keeps elements of the list that satisfy the predicate, and all of them |
| Sequences.FindIndex | src/services/localStorageService.ts:70 | `findIndex` is the first satisfying position, or -1 exactly when there is none |
| Sequences.Max | src/services/localStorageService.ts:54 | `Math.max` of a non-empty list is an element of it and bounds all of them |
| Sequences.MapWhere | src/components/pengaturan/LayerManagement.tsx:165-167 | the selected elements are transformed and the others kept, at the same positions |
| Sequences.MapWhereTwice | src/components/pengaturan/LayerManagement.tsx:165-167 | applying a self-inverse update twice restores the list |
| Text.Trim | src/components/pengaturan/LayerManagement.tsx:79 | `trim` gives the infix left after cutting whitespace from both ends; it neither starts nor ends with whitespace |
| Text.ToLower | src/services/localStorageService.ts:155 | `toLowerCase` maps each letter A-Z to its lower case and keeps every other character |
| Text.ToUpper | src/components/pengaturan/LayerManagement.tsx:80 | `toUpperCase` maps each letter a-z to its upper case and keeps every other character |
| Text.NumberText | src/services/localStorageService.ts:164 | `toString` of a whole number is the text of that integer: an optional minus sign and its decimal digits |
| Text.NatToString | src/services/localStorageService.ts:164 | the rendering of a natural number is a non-empty string of decimal digits with no leading zero |
| Text.NatToStringRoundTrip | src/services/localStorageService.ts:164 | the decimal rendering of a natural number reads back as that number |
| Text.TrimIdempotent | src/components/pengaturan/LayerManagement.tsx:79 | trimming twice is trimming once |
| Text.ToLowerIdempotent | src/services/localStorageService.ts:155-160 | lower-casing twice is lower-casing once, so the lowered term and field compare case-insensitively |
| Text.ContainsEmpty | src/services/localStorageService.ts:160 | the empty string occurs in every text, so an empty term matches every string field |
| ListEditing.NextListId | src/components/pengaturan/LayerManagement.tsx:78 | `Math.max(0, ...ids) + 1` is at least 1, above every id, and either 1 or one above an existing id |
| ListEditing.ReplaceById | src/components/pengaturan/LayerManagement.tsx:125 | the elements with the id become the new element; the others stay at their positions |
| ListEditing.RemoveById | src/components/pengaturan/LayerManagement.tsx:147 | the result holds no element with the id and every element with another id |
| ListEditing.RemoveByIdKeepsOthers | src/components/pengaturan/LayerManagement.tsx:147 | deleting keeps the other elements in order and as often as they occur |
| ListEditing.AppendNextKeepsDistinct | src/components/pengaturan/LayerManagement.tsx:77-86 | appending under the next id keeps the ids distinct |
| ListEditing.ReplaceByIdKeepsIds | src/components/pengaturan/LayerManagement.tsx:117-125 | replacing with an element of the same id keeps every id in place, and so keeps them distinct |
| ListEditing.RemoveByIdKeepsDistinct | src/components/pengaturan/LayerManagement.tsx:147 | deleting by id keeps distinct ids distinct |
| ListEditing.HexTriplesOneOrTwo | src/components/pengaturan/LayerManagement.tsx:60-62 | `([0-9A-F]{3}){1,2}` (ignoring case) matches exactly the strings of 3 or 6 hex digits |
| ListEditing.ValidateHexColor | src/components/pengaturan/LayerManagement.tsx:60-62 | the colour check accepts exactly `#` followed by 3 or 6 hex digits, in both directions |
| ListEditing.UpperKeepsValid | src/components/pengaturan/LayerManagement.tsx:65-86 | a colour passes the check exactly when its upper-cased form does, and the stored upper-cased colour has no lower-case letters |
| PupukScreen.UpdateStockStatus | src/components/ManajemenPupuk.tsx:203-207 | "Habis" exactly at 0, "Segera Habis" exactly for non-zero stock under 100, "Tersedia" exactly from 100 up |
| PupukScreen.GetStatusColor | src/components/ManajemenPupuk.tsx:256-263 | green exactly for "Tersedia", yellow exactly for "Segera Habis", red exactly for "Habis", and grey exactly for any other status |
| PupukScreen.GetStokWarning | src/components/ManajemenPupuk.tsx:265-269 | red exactly at 0, yellow exactly for non-zero stock under 100, green exactly from 100 up |
| PupukScreen.WarningAgreesWithStatus | src/components/ManajemenPupuk.tsx:256-269 | for a status computed from the stock, the badge and the stock figure show the same colour, and the badge is never grey |
| PupukScreen.InitialPupukStatuses | src/components/ManajemenPupuk.tsx:53-119 | the four seeds have ids 1..4; three carry the status their stock gives; TSP (150) is seeded as running low, so its badge is yellow while its stock figure is green |
| PupukScreen.FilterPupuk | src/components/ManajemenPupuk.tsx:164-167 | the shown fertilizers match the term (case-insensitively) in name or kind; all matching ones are shown, in list order |
| PupukScreen.EmptySearchShowsAll | src/components/ManajemenPupuk.tsx:164-167 | an empty search term shows the whole list |
| PupukScreen.CreatedPupuk | src/components/ManajemenPupuk.tsx:212-227 | the new fertilizer has the form's fields, an id above every existing one, the status its stock gives and no uses |
| PupukScreen.EditedPupuk | src/components/ManajemenPupuk.tsx:233-246 | the edited fertilizer has the form's fields and keeps its id and uses; its status is recomputed |
| PupukScreen.SubmittedList | src/components/ManajemenPupuk.tsx:209-254 | create mode appends `CreatedPupuk`; edit mode keeps every id in place, and with a selection each fertilizer with its id becomes `EditedPupuk` while the others stay; without a selection the list is unchanged |
| PupukScreen.SubmitKeepsIdsDistinct | src/components/ManajemenPupuk.tsx:209-254 | saving the form keeps the fertilizer ids distinct |
| PupukScreen.PupukNewIdAsWritten | src/components/ManajemenPupuk.tsx:213 | the formula as written gives no id exactly for an empty list; otherwise it gives an id above every id |
| PupukScreen.AsWrittenFailsAfterLastDelete | src/components/ManajemenPupuk.tsx:191-213 | deleting the only fertilizer empties the list; the formula as written then gives no id, while the corrected one gives 1 |
| PupukScreen.AsWrittenAgreesOnNonEmpty | src/components/ManajemenPupuk.tsx:213 | on a non-empty list of non-negative ids, the formula as written and the corrected one agree |
| PupukScreen.ManajemenPupuk.constructor | src/components/ManajemenPupuk.tsx:44-119 | the first render holds the four seeds, an empty search, create mode and closed dialogs |
| PupukScreen.ManajemenPupuk.FilteredPupuk | src/components/ManajemenPupuk.tsx:164-167 | the cards show the fertilizers matching the search box, all of them and in list order (`FilterPupuk` of the state); an empty search box shows the whole list |
| PupukScreen.ManajemenPupuk.SetSearchTerm | src/components/ManajemenPupuk.tsx:288 | only the search term changes |
| PupukScreen.ManajemenPupuk.HandleAdd | src/components/ManajemenPupuk.tsx:169-173 | create mode, no selection, form open; the list is unchanged |
| PupukScreen.ManajemenPupuk.HandleEdit | src/components/ManajemenPupuk.tsx:175-179 | edit mode on the chosen fertilizer, form open; the list is unchanged |
| PupukScreen.ManajemenPupuk.HandleDelete | src/components/ManajemenPupuk.tsx:181-184 | the fertilizer awaits confirmation and the dialog opens; the list is unchanged |
| PupukScreen.ManajemenPupuk.ConfirmDelete | src/components/ManajemenPupuk.tsx:191-201 | with a fertilizer awaiting confirmation, every fertilizer with its id is removed and the dialog closes; otherwise nothing changes |
| PupukScreen.ManajemenPupuk.SetDeleteDialogOpen | src/components/ManajemenPupuk.tsx:426 | only whether the dialog shows changes; the fertilizer awaiting confirmation stays |
| PupukScreen.ManajemenPupuk.HandleFormSubmit | src/components/ManajemenPupuk.tsx:209-254 | the list becomes `SubmittedList` (append in create mode, replace by id when editing a selection, unchanged otherwise) and the form closes |
| LayerScreen.GetPropertyLabel | src/components/pengaturan/LayerManagement.tsx:177-187 | each of the six properties the form offers is shown with the form's label, and any other property is shown as itself |
| LayerScreen.NewLayer | src/components/pengaturan/LayerManagement.tsx:77-86 | the new layer has an id above every existing one, is visible, and has the name and range trimmed and the colour upper-cased |
| LayerScreen.EditedLayer | src/components/pengaturan/LayerManagement.tsx:117-123 | the edited layer keeps its id and visibility and takes the trimmed and upper-cased form fields |
| LayerScreen.SubmittedLayers | src/components/pengaturan/LayerManagement.tsx:65-141 | an invalid colour leaves the list unchanged; adding appends `NewLayer`; editing keeps every id in place and turns each layer with the edited id into `EditedLayer` |
| LayerScreen.SubmitKeepsLayersValid | src/components/pengaturan/LayerManagement.tsx:65-141 | a submission keeps the layer ids distinct, and a valid colour is stored in a form that is still valid |
| LayerScreen.ToggledLayers | src/components/pengaturan/LayerManagement.tsx:164-167 | only `visible` of the layers with the id flips; every other layer and property stays |
| LayerScreen.ToggleTwiceRestores | src/components/pengaturan/LayerManagement.tsx:164-167 | toggling a layer twice restores the list |
| LayerScreen.LayerManagement.constructor | src/components/pengaturan/LayerManagement.tsx:33-35 | the screen opens over the parent's list with no form, editing or delete dialog |
| LayerScreen.LayerManagement.OpenAddForm | src/components/pengaturan/LayerManagement.tsx:202 | the form opens; nothing else changes |
| LayerScreen.LayerManagement.OpenEditForm | src/components/pengaturan/LayerManagement.tsx:262-264 | the form opens on the layer; the list is unchanged |
| LayerScreen.LayerManagement.CloseForm | src/components/pengaturan/LayerManagement.tsx:290-291 | the form closes and the edited layer is dropped |
| LayerScreen.LayerManagement.RequestDelete | src/components/pengaturan/LayerManagement.tsx:273 | the layer awaits confirmation; nothing else changes |
| LayerScreen.LayerManagement.CancelDelete | src/components/pengaturan/LayerManagement.tsx:303 | dismissing the dialog leaves no layer awaiting deletion; nothing else changes |
| LayerScreen.LayerManagement.HandleAddLayer | src/components/pengaturan/LayerManagement.tsx:65-101 | an invalid colour changes nothing; otherwise the new layer is appended and the form closes |
| LayerScreen.LayerManagement.HandleEditLayer | src/components/pengaturan/LayerManagement.tsx:103-141 | without an edited layer, or with an invalid colour, nothing changes; otherwise the edited layer replaces its id and the form closes |
| LayerScreen.LayerManagement.Submit | src/components/pengaturan/LayerManagement.tsx:287-293 | saved exactly for a valid colour; the list becomes `SubmittedLayers`; the form component then always calls `onClose` (src/components/ui/crud-form.tsx:100-115), so the form ends closed and no layer is being edited, whether or not the colour was accepted |
| LayerScreen.LayerManagement.HandleDeleteLayer | src/components/pengaturan/LayerManagement.tsx:143-162 | the confirmed layer's id is removed and the confirmation cleared; without one nothing changes |
| LayerScreen.LayerManagement.ToggleLayerVisibility | src/components/pengaturan/LayerManagement.tsx:164-175 | the list becomes `ToggledLayers`; nothing else changes |
| LegendScreen.NewLegenda | src/components/pengaturan/LegendManagement.tsx:89-95 | the new entry has an id above every existing one, the label trimmed and the colour upper-cased |
| LegendScreen.EditedLegenda | src/components/pengaturan/LegendManagement.tsx:128-134 | the edited entry keeps its id and takes the trimmed and upper-cased form fields |
| LegendScreen.SubmittedLegendas | src/components/pengaturan/LegendManagement.tsx:77-152 | an invalid colour leaves the list unchanged; adding appends `NewLegenda`; editing keeps every id in place and turns each entry with the edited id into `EditedLegenda` |
| LegendScreen.SubmitKeepsLegendasValid | src/components/pengaturan/LegendManagement.tsx:77-152 | a submission keeps the legend ids distinct, and a valid colour is stored in a form that is still valid |
| LegendScreen.GroupSizesUpdate | src/components/pengaturan/LegendManagement.tsx:203 | changing one group changes the total size by the difference |
| LegendScreen.FilterNoneOfKategori | src/components/pengaturan/LegendManagement.tsx:201-203 | a list without entries of a category has nothing to file under it |
| LegendScreen.FilterSnoc | src/components/pengaturan/LegendManagement.tsx:203 | one more entry at the end adds it to its own category's entries only |
| LegendScreen.StepNewKategori | src/components/pengaturan/LegendManagement.tsx:201-203 | an entry of a new category starts a new group at the end, and the groups remain a grouping of the longer list |
| LegendScreen.PushKeepsGroupItems | src/components/pengaturan/LegendManagement.tsx:203 | pushing onto an existing group keeps every group equal to its category's entries |
| LegendScreen.PushKeepsKategori | src/components/pengaturan/LegendManagement.tsx:203 | pushing onto an existing group keeps the categories distinct, and every entry still finds its group |
| LegendScreen.StepKnownKategori | src/components/pengaturan/LegendManagement.tsx:201-203 | an entry of a known category is pushed onto its group, and the groups remain a grouping of the longer list |
| LegendScreen.AddToGroupsSize | src/components/pengaturan/LegendManagement.tsx:199-206 | each `reduce` step adds exactly one entry to the total |
| LegendScreen.AddToGroupsStep | src/components/pengaturan/LegendManagement.tsx:199-206 | one `reduce` step turns a grouping of a list into a grouping of the list with the entry appended |
| LegendScreen.GroupedIsGrouping | src/components/pengaturan/LegendManagement.tsx:199-206 | the grouping has one group per category, each holding exactly that category's entries in list order and none empty, and every entry's category has a group |
| LegendScreen.GroupedSizes | src/components/pengaturan/LegendManagement.tsx:199-206 | the group sizes add up to the number of entries, so none is lost or filed twice |
| LegendScreen.GroupsKeepOrder | src/components/pengaturan/LegendManagement.tsx:199-206 | within a group the entries keep their list order |
| LegendScreen.GroupByCategory | src/components/pengaturan/LegendManagement.tsx:199-206 | the `reduce` loop computes `Grouped` |
| LegendScreen.Grouped | src/components/pengaturan/LegendManagement.tsx:199-206 | there are never more groups than entries, and there are no groups exactly when there are no entries |
| LegendScreen.LegendManagement.constructor | src/components/pengaturan/LegendManagement.tsx:33-35 | the screen opens over the parent's list with no form, editing or delete dialog |
| LegendScreen.LegendManagement.GroupedLegendasByCategory | src/components/pengaturan/LegendManagement.tsx:199-206 | the current list grouped: one non-empty group per category holding exactly its entries in list order, with sizes adding up to the list length |
| LegendScreen.LegendManagement.OpenAddForm | src/components/pengaturan/LegendManagement.tsx:221 | the form opens; nothing else changes |
| LegendScreen.LegendManagement.OpenEditForm | src/components/pengaturan/LegendManagement.tsx:278-280 | the form opens on the entry; the list is unchanged |
| LegendScreen.LegendManagement.CloseForm | src/components/pengaturan/LegendManagement.tsx:310-311 | the form closes and the edited entry is dropped |
| LegendScreen.LegendManagement.RequestDelete | src/components/pengaturan/LegendManagement.tsx:289 | the entry awaits confirmation; nothing else changes |
| LegendScreen.LegendManagement.CancelDelete | src/components/pengaturan/LegendManagement.tsx:323 | dismissing the dialog leaves no entry awaiting deletion; nothing else changes |
| LegendScreen.LegendManagement.HandleAddLegenda | src/components/pengaturan/LegendManagement.tsx:77-112 | an invalid colour changes nothing; otherwise the new entry is appended and the form closes |
| LegendScreen.LegendManagement.HandleEditLegenda | src/components/pengaturan/LegendManagement.tsx:114-152 | without an edited entry, or with an invalid colour, nothing changes; otherwise the edited entry replaces its id and the form closes |
| LegendScreen.LegendManagement.Submit | src/components/pengaturan/LegendManagement.tsx:307-313 | saved exactly for a valid colour; the list becomes `SubmittedLegendas`; the form component then always calls `onClose` (src/components/ui/crud-form.tsx:100-115), so the form ends closed and no entry is being edited, whether or not the colour was accepted |
| LegendScreen.LegendManagement.HandleDeleteLegenda | src/components/pengaturan/LegendManagement.tsx:154-173 | the confirmed entry's id is removed and the confirmation cleared; without one nothing changes |
| CoordinateScreen.DeskripsiText | src/components/pengaturan/CoordinateManagement.tsx:83 | a missing description becomes empty text; a given one is trimmed |
| CoordinateScreen.NewKoordinat | src/components/pengaturan/CoordinateManagement.tsx:77-84 | the new point has an id above every existing one, the trimmed name and description, and the picked position |
| CoordinateScreen.EditedKoordinat | src/components/pengaturan/CoordinateManagement.tsx:107-114 | the edited point keeps its id and takes the form and the picked position |
| CoordinateScreen.SubmittedKoordinats | src/components/pengaturan/CoordinateManagement.tsx:74-132 | adding appends `NewKoordinat` at the picked position; editing keeps every id in place and turns each point with the edited id into `EditedKoordinat` |
| CoordinateScreen.SubmitKeepsIdsDistinct | src/components/pengaturan/CoordinateManagement.tsx:74-132 | a submission keeps the point ids distinct |
| CoordinateScreen.Toggled | src/components/pengaturan/CoordinateManagement.tsx:174-184 | the id leaves the hidden set when in it and joins it otherwise; no other id changes |
| CoordinateScreen.ToggleTwiceRestores | src/components/pengaturan/CoordinateManagement.tsx:174-184 | toggling a point twice restores the hidden set |
| CoordinateScreen.CoordinateManagement.constructor | src/components/pengaturan/CoordinateManagement.tsx:39-49 | the screen opens over the parent's list, with the picker at the village centre and no point hidden |
| CoordinateScreen.CoordinateManagement.HandleOpenKoordinatForm | src/components/pengaturan/CoordinateManagement.tsx:160-172 | the form opens; editing a point moves the picker to it, adding moves it to the village centre |
| CoordinateScreen.CoordinateManagement.HandleCoordinateSelect | src/components/pengaturan/CoordinateManagement.tsx:155-158 | only the picked position changes |
| CoordinateScreen.CoordinateManagement.CloseForm | src/components/pengaturan/CoordinateManagement.tsx:308-310 | the form closes and the edited point is dropped |
| CoordinateScreen.CoordinateManagement.RequestDelete | src/components/pengaturan/CoordinateManagement.tsx:273 | the point awaits confirmation; nothing else changes |
| CoordinateScreen.CoordinateManagement.CancelDelete | src/components/pengaturan/CoordinateManagement.tsx:359 | dismissing the dialog leaves no point awaiting deletion; nothing else changes |
| CoordinateScreen.CoordinateManagement.HandleAddKoordinat | src/components/pengaturan/CoordinateManagement.tsx:74-101 | the new point is appended at the picked position and the form closes |
| CoordinateScreen.CoordinateManagement.HandleEditKoordinat | src/components/pengaturan/CoordinateManagement.tsx:103-132 | without an edited point nothing changes; otherwise the edited point replaces its id and the form closes |
| CoordinateScreen.CoordinateManagement.Submit | src/components/pengaturan/CoordinateManagement.tsx:343 | the list becomes `SubmittedKoordinats` and the form closes |
| CoordinateScreen.CoordinateManagement.HandleDeleteKoordinat | src/components/pengaturan/CoordinateManagement.tsx:134-153 | the confirmed point's id is removed and the confirmation cleared; without one nothing changes |
| CoordinateScreen.CoordinateManagement.ToggleKoordinatVisibility | src/components/pengaturan/CoordinateManagement.tsx:174-184 | the hidden set becomes `Toggled`; nothing else changes |

## Left out

- Browser storage I/O is modelled as a map from key to entry. JSON text, `JSON.stringify` and
  `JSON.parse` are not modelled. Text that does not parse, and text that parses to something
  other than an array, are folded into one `Corrupt` entry, which reads as the empty list.
  For text that does not parse this is exact: `getAll` catches the error and returns `[]`.
  For text that parses to a non-array (`{}`, `5`, `null`), `getAll` at
  src/services/localStorageService.ts:31-39 returns the parsed value unchecked, and the model
  then diverges in these operations:
  - `SeededIfEmpty` / the services' `InitializeDefaultData`: the source's `length === 0` test is
    false for `{}` or `5` and throws for `null`, so nothing is seeded; the model seeds.
  - `LocalStorage.LocalStorageService.Create`, `BulkCreate`, the settings service's `Create*`
    and `ImportedSettings` without overwrite: the source throws "Failed to create item"
    (`push`, `map` or the spread fails); the model creates under id 1 and up.
  - `LocalStorage.LocalStorageService.ImportData` without overwrite and `ExportData`: the source
    spreads or returns the raw value; the model uses the empty list.
  `getById`, `update`, `delete`, `search`, `filter`, the produce service's `updateStok` and
  `validateAndMigrate` agree with the model on such text: they fail inside their own `try`
  blocks and return `null`, `false` or `[]` (`update` throws the same error as for a missing
  id), or test `Array.isArray`.
- A storage quota error on write, which `saveAll` turns into a thrown error, is not modelled.
  Every write succeeds.
- The following are not modelled: the singletons (`getInstance`), `console` logging, toasts,
  the `isLoading` flags, and the `try`/`catch` around code that cannot throw in the model. The
  thrown errors of `update` are the `NotFound` result.
- `toLowerCase` and `toUpperCase` are modelled on ASCII letters only. Non-ASCII case mapping is
  not modelled.
- `Number.prototype.toString` is modelled for plain positional notation with at most 20
  fractional digits. Exponent notation (very large or very small numbers) is not modelled.
- Numbers are exact: `real` for fractional quantities and `int` for whole ones. Floating-point
  rounding in the sums and in the average is not modelled.
- `PetaniService.GetTotalLuasLahan`, `PetaniService.GetTotalHasilPanen`,
  `ProdukService.GetTotalStok`, `ProdukService.GetTotalNilaiInventory`,
  `SawahService.GetTotalLuas`, `SawahService.GetTotalHasilPanen`,
  `SawahService.GetAverageHasilPerHektar` and `ProdukService.UpdateStok` require every record
  under their key to be of their own kind. This is what the TypeScript types promise. The
  source reads a missing property as `undefined` and would produce `NaN`; that is not modelled.
- The marketplace `Produk` type file is not part of this model. Its fields are taken from the
  product seeds and the screens that use them. Price and stock are whole numbers.
- Property names that JavaScript objects inherit (`constructor`, `__proto__`, ...) are not
  modelled:
  - as layer properties in `getPropertyLabel`;
  - as legend categories in the grouping, where such a name would collide with
    `Object.prototype`.
  `Object.entries` lists integer-like keys first, in numeric order. The model keeps groups in
  the order their categories are first met, which is the order for all other category names.
- Presentation helpers that only choose icons or CSS classes are not modelled: `getTypeColor`,
  `getCategoryColor`, `getSymbolIcon`, and the fertilizer detail dialog (`handleViewDetail`).
  `getStatusColor`, `getStokWarning` and `getPropertyLabel` are modelled, each with its own contract.
- The fertilizer form's numbers (`stok`, `harga`) are whole numbers. The source's form
  submits whatever the number input gives.
- Deleting a point does not remove its id from the screen's hidden set. The model keeps that
  behaviour; it is not treated as a fault because the set is local to the screen.
- The map picker, the map itself and the parent settings page that owns the three settings
  lists are not modelled. Each settings screen holds its list as a field that its methods
  replace, standing in for the parent's setter.

## Findings

| source | as written | input that shows it | evidently intended | confidence | as-written member | corrected member |
|---|---|---|---|---|---|---|
| src/components/ManajemenPupuk.tsx:213 | `Math.max(...pupukData.map(p => p.id)) + 1` with no 0 seed; on an empty list this is `-Infinity`, so the new fertilizer gets the id `-Infinity`, not a finite integer, and since `-Infinity + 1` is `-Infinity` every later id stays `-Infinity` | delete every fertilizer (for example the only one left), then add a fertilizer | `Math.max(0, ...ids) + 1`, as the settings screens write it: id 1 for an empty list, and always above every existing id | not executed | PupukScreen.PupukNewIdAsWritten, PupukScreen.AsWrittenFailsAfterLastDelete | ListEditing.NextListId, used by PupukScreen.ManajemenPupuk.HandleFormSubmit and PupukScreen.CreatedPupuk |
