/** The settings service: coordinates, demographic layers and legend items, each in its own
    namespace of the record store, with seeding and a whole-settings export and import. */
module PengaturanService {
  import opened Sequences
  import opened Records
  import opened LocalStorage

  /** The nine points of interest seeded into an empty coordinate namespace. */
  const DEFAULT_KOORDINAT: seq<Record> := [
    KoordinatRecord(Koordinat(0, "Balai Desa Sumberagung", -7.0521, 110.7987, "Fasilitas Umum",
                              "Kantor balai desa dan pusat administrasi Desa Sumberagung")),
    KoordinatRecord(Koordinat(0, "Pasar Tradisional Sumberagung", -7.0525, 110.7995, "Ekonomi",
                              "Pasar tradisional untuk perdagangan hasil pertanian dan kebutuhan sehari-hari")),
    KoordinatRecord(Koordinat(0, "Masjid Al-Ikhlas Sumberagung", -7.0518, 110.7985, "Fasilitas Umum",
                              "Masjid utama desa untuk kegiatan keagamaan dan aktivitas kemasyarakatan")),
    KoordinatRecord(Koordinat(0, "SD Negeri Sumberagung 1", -7.0515, 110.7992, "Pendidikan",
                              "Sekolah dasar negeri di Desa Sumberagung")),
    KoordinatRecord(Koordinat(0, "Puskesmas Pembantu Sumberagung", -7.0528, 110.7980, "Kesehatan",
                              "Fasilitas kesehatan masyarakat desa")),
    KoordinatRecord(Koordinat(0, "Wilayah Persawahan Utara Sumberagung", -7.0510, 110.7975, "Pertanian",
                              "Area persawahan irigasi teknis di bagian utara Desa Sumberagung")),
    KoordinatRecord(Koordinat(0, "Wilayah Persawahan Selatan Sumberagung", -7.0535, 110.8000, "Pertanian",
                              "Area persawahan tadah hujan di bagian selatan Desa Sumberagung")),
    KoordinatRecord(Koordinat(0, "Wilayah Persawahan Timur Sumberagung", -7.0520, 110.8010, "Pertanian",
                              "Area persawahan irigasi semi teknis di bagian timur Desa Sumberagung")),
    KoordinatRecord(Koordinat(0, "Wilayah Persawahan Barat Sumberagung", -7.0525, 110.7965, "Pertanian",
                              "Area persawahan dengan sistem irigasi tradisional di bagian barat Desa Sumberagung"))
  ]

  /** The four layers seeded into an empty layer namespace, all visible. The first range is
      stored with the two characters U+00C2 U+00B2 that a mis-decoded superscript two became. */
  const DEFAULT_LAYERS: seq<Record> := [
    LayerRecord(LayerDemografi(0, "Kepadatan Penduduk Desa Sumberagung", "#3B82F6", "populasi",
                               "150-400 jiwa/km\U{C2}\U{B2}", true)),
    LayerRecord(LayerDemografi(0, "Sebaran Area Persawahan", "#22C55E", "pertanian",
                               "Sawah Irigasi - Tadah Hujan", true)),
    LayerRecord(LayerDemografi(0, "Tingkat Pendidikan", "#10B981", "pendidikan", "SD-Perguruan Tinggi", true)),
    LayerRecord(LayerDemografi(0, "Mata Pencaharian Utama", "#F59E0B", "pekerjaan", "Petani-Pedagang", true))
  ]

  /** The eight legend items seeded into an empty legend namespace. */
  const DEFAULT_LEGENDA: seq<Record> := [
    LegendaRecord(LegendaItem(0, "Sawah Irigasi Teknis", "#22C55E", "polygon", "Pertanian")),
    LegendaRecord(LegendaItem(0, "Sawah Tadah Hujan", "#84CC16", "polygon", "Pertanian")),
    LegendaRecord(LegendaItem(0, "Sawah Irigasi Semi Teknis", "#65A30D", "polygon", "Pertanian")),
    LegendaRecord(LegendaItem(0, "Pemukiman Penduduk", "#F59E0B", "polygon", "Demografi")),
    LegendaRecord(LegendaItem(0, "Fasilitas Umum", "#3B82F6", "marker", "Infrastruktur")),
    LegendaRecord(LegendaItem(0, "Area Perdagangan", "#8B5CF6", "marker", "Ekonomi")),
    LegendaRecord(LegendaItem(0, "Fasilitas Pendidikan", "#06B6D4", "marker", "Infrastruktur")),
    LegendaRecord(LegendaItem(0, "Fasilitas Kesehatan", "#EF4444", "marker", "Infrastruktur"))
  ]

  // ---------------------------------------------------------------------------------------
  // Seeding.

  /** `initializeKoordinatData`: seeds the nine default coordinates when the namespace reads as empty. */
  method InitializeKoordinatData(store: LocalStorageService)
    modifies store
    ensures store.storage == SeededIfEmpty(old(store.storage), KOORDINAT_DATA, DEFAULT_KOORDINAT)
  {
    var existing := GetAllKoordinat(store);
    if |existing| == 0 {
      var created := store.BulkCreate(KOORDINAT_DATA, DEFAULT_KOORDINAT);
      assert existing + created == created;
    }
  }

  /** `initializeLayerData`: seeds the four default layers when the namespace reads as empty. */
  method InitializeLayerData(store: LocalStorageService)
    modifies store
    ensures store.storage == SeededIfEmpty(old(store.storage), LAYER_DEMOGRAFI_DATA, DEFAULT_LAYERS)
  {
    var existing := GetAllLayer(store);
    if |existing| == 0 {
      var created := store.BulkCreate(LAYER_DEMOGRAFI_DATA, DEFAULT_LAYERS);
      assert existing + created == created;
    }
  }

  /** `initializeLegendaData`: seeds the eight default legend items when the namespace reads as empty. */
  method InitializeLegendaData(store: LocalStorageService)
    modifies store
    ensures store.storage == SeededIfEmpty(old(store.storage), LEGENDA_DATA, DEFAULT_LEGENDA)
  {
    var existing := GetAllLegenda(store);
    if |existing| == 0 {
      var created := store.BulkCreate(LEGENDA_DATA, DEFAULT_LEGENDA);
      assert existing + created == created;
    }
  }

  /** After seeding an empty coordinate namespace the nine points carry ids 1..9 in the listed order. */
  lemma SeededKoordinatIds(storage: map<string, Entry>)
    requires ReadItems(storage, KOORDINAT_DATA) == []
    ensures Ids(ReadItems(SeededIfEmpty(storage, KOORDINAT_DATA, DEFAULT_KOORDINAT), KOORDINAT_DATA))
            == [1, 2, 3, 4, 5, 6, 7, 8, 9]
  {
    var seeded := Numbered(DEFAULT_KOORDINAT, 0);
    SeededIds(DEFAULT_KOORDINAT);
    assert |seeded| == 9;
    assert Ids(seeded) == [1, 2, 3, 4, 5, 6, 7, 8, 9];
  }

  /** After seeding an empty layer namespace the four layers carry ids 1..4 in the listed order. */
  lemma SeededLayerIds(storage: map<string, Entry>)
    requires ReadItems(storage, LAYER_DEMOGRAFI_DATA) == []
    ensures Ids(ReadItems(SeededIfEmpty(storage, LAYER_DEMOGRAFI_DATA, DEFAULT_LAYERS), LAYER_DEMOGRAFI_DATA))
            == [1, 2, 3, 4]
  {
    var seeded := Numbered(DEFAULT_LAYERS, 0);
    SeededIds(DEFAULT_LAYERS);
    assert |seeded| == 4;
    assert Ids(seeded) == [1, 2, 3, 4];
  }

  /** After seeding an empty legend namespace the eight items carry ids 1..8 in the listed order. */
  lemma SeededLegendaIds(storage: map<string, Entry>)
    requires ReadItems(storage, LEGENDA_DATA) == []
    ensures Ids(ReadItems(SeededIfEmpty(storage, LEGENDA_DATA, DEFAULT_LEGENDA), LEGENDA_DATA))
            == [1, 2, 3, 4, 5, 6, 7, 8]
  {
    var seeded := Numbered(DEFAULT_LEGENDA, 0);
    SeededIds(DEFAULT_LEGENDA);
    assert |seeded| == 8;
    assert Ids(seeded) == [1, 2, 3, 4, 5, 6, 7, 8];
  }

  // ---------------------------------------------------------------------------------------
  // Reads and single-record changes, one namespace each.

  /** `getAllKoordinat`: the stored points, or none when the namespace is absent or its text does
      not parse. */
  function GetAllKoordinat(store: LocalStorageService): (items: seq<Record>)
    reads store
    ensures KOORDINAT_DATA in store.storage && store.storage[KOORDINAT_DATA].Stored? ==> items == store.storage[KOORDINAT_DATA].items
    ensures KOORDINAT_DATA !in store.storage || store.storage[KOORDINAT_DATA].Corrupt? ==> items == []
  {
    store.GetAll(KOORDINAT_DATA)
  }

  /** `getKoordinatById`: a stored record with the id, or none exactly when no stored record has it. */
  function GetKoordinatById(store: LocalStorageService, id: int): (found: Option<Record>)
    reads store
    ensures found.None? <==> forall j | 0 <= j < |GetAllKoordinat(store)| :: Id(GetAllKoordinat(store)[j]) != id
    ensures found.Some? ==> Id(found.value) == id && found.value in GetAllKoordinat(store)
  {
    assert GetAllKoordinat(store) == store.GetAll(KOORDINAT_DATA);
    store.GetById(KOORDINAT_DATA, id)
  }

  /** `getAllLayer`: the stored layers, or none when the namespace is absent or its text does
      not parse. */
  function GetAllLayer(store: LocalStorageService): (items: seq<Record>)
    reads store
    ensures LAYER_DEMOGRAFI_DATA in store.storage && store.storage[LAYER_DEMOGRAFI_DATA].Stored? ==> items == store.storage[LAYER_DEMOGRAFI_DATA].items
    ensures LAYER_DEMOGRAFI_DATA !in store.storage || store.storage[LAYER_DEMOGRAFI_DATA].Corrupt? ==> items == []
  {
    store.GetAll(LAYER_DEMOGRAFI_DATA)
  }

  /** `getLayerById`: a stored record with the id, or none exactly when no stored record has it. */
  function GetLayerById(store: LocalStorageService, id: int): (found: Option<Record>)
    reads store
    ensures found.None? <==> forall j | 0 <= j < |GetAllLayer(store)| :: Id(GetAllLayer(store)[j]) != id
    ensures found.Some? ==> Id(found.value) == id && found.value in GetAllLayer(store)
  {
    assert GetAllLayer(store) == store.GetAll(LAYER_DEMOGRAFI_DATA);
    store.GetById(LAYER_DEMOGRAFI_DATA, id)
  }

  /** `getAllLegenda`: the stored legend items, or none when the namespace is absent or its text does
      not parse. */
  function GetAllLegenda(store: LocalStorageService): (items: seq<Record>)
    reads store
    ensures LEGENDA_DATA in store.storage && store.storage[LEGENDA_DATA].Stored? ==> items == store.storage[LEGENDA_DATA].items
    ensures LEGENDA_DATA !in store.storage || store.storage[LEGENDA_DATA].Corrupt? ==> items == []
  {
    store.GetAll(LEGENDA_DATA)
  }

  /** `getLegendaById`: a stored record with the id, or none exactly when no stored record has it. */
  function GetLegendaById(store: LocalStorageService, id: int): (found: Option<Record>)
    reads store
    ensures found.None? <==> forall j | 0 <= j < |GetAllLegenda(store)| :: Id(GetAllLegenda(store)[j]) != id
    ensures found.Some? ==> Id(found.value) == id && found.value in GetAllLegenda(store)
  {
    assert GetAllLegenda(store) == store.GetAll(LEGENDA_DATA);
    store.GetById(LEGENDA_DATA, id)
  }

  /** `createKoordinat`: appends the point under the next id of `koordinat_data`. */
  method CreateKoordinat(store: LocalStorageService, koordinat: Koordinat) returns (created: Koordinat)
    modifies store
    ensures created == koordinat.(id := NextId(old(GetAllKoordinat(store))))
    ensures store.storage == old(store.storage)[KOORDINAT_DATA := Stored(old(GetAllKoordinat(store)) + [KoordinatRecord(created)])]
  {
    var r := store.Create(KOORDINAT_DATA, KoordinatRecord(koordinat));
    created := r.koordinat;
  }

  /** `updateKoordinat`: replaces the first point with the same id, or fails and writes nothing. */
  method UpdateKoordinat(store: LocalStorageService, koordinat: Koordinat) returns (result: Result<Koordinat>)
    modifies store
    ensures IndexOfId(old(GetAllKoordinat(store)), koordinat.id) == -1 ==> result == NotFound && store.storage == old(store.storage)
    ensures IndexOfId(old(GetAllKoordinat(store)), koordinat.id) != -1 ==>
              result == Ok(koordinat)
              && store.storage == old(store.storage)[KOORDINAT_DATA :=
                   Stored(old(GetAllKoordinat(store))[IndexOfId(old(GetAllKoordinat(store)), koordinat.id) := KoordinatRecord(koordinat)])]
  {
    var r := store.Update(KOORDINAT_DATA, KoordinatRecord(koordinat));
    result := if r.Ok? then Ok(koordinat) else NotFound;
  }

  /** `deleteKoordinat`: removes the points with the id from `koordinat_data` only. */
  method DeleteKoordinat(store: LocalStorageService, id: int) returns (removed: bool)
    modifies store
    ensures removed <==> exists i | 0 <= i < |old(GetAllKoordinat(store))| :: Id(old(GetAllKoordinat(store))[i]) == id
    ensures removed ==> store.storage == old(store.storage)[KOORDINAT_DATA := Stored(Without(old(GetAllKoordinat(store)), id))]
    ensures !removed ==> store.storage == old(store.storage)
  {
    ghost var items := GetAllKoordinat(store);
    removed := store.Delete(KOORDINAT_DATA, id);
    assert items == old(store.GetAll(KOORDINAT_DATA));
  }

  /** `createLayer`: appends the layer under the next id of `layer_demografi_data`. */
  method CreateLayer(store: LocalStorageService, layer: LayerDemografi) returns (created: LayerDemografi)
    modifies store
    ensures created == layer.(id := NextId(old(GetAllLayer(store))))
    ensures store.storage == old(store.storage)[LAYER_DEMOGRAFI_DATA := Stored(old(GetAllLayer(store)) + [LayerRecord(created)])]
  {
    var r := store.Create(LAYER_DEMOGRAFI_DATA, LayerRecord(layer));
    created := r.layer;
  }

  /** `updateLayer`: replaces the first layer with the same id, or fails and writes nothing. */
  method UpdateLayer(store: LocalStorageService, layer: LayerDemografi) returns (result: Result<LayerDemografi>)
    modifies store
    ensures IndexOfId(old(GetAllLayer(store)), layer.id) == -1 ==> result == NotFound && store.storage == old(store.storage)
    ensures IndexOfId(old(GetAllLayer(store)), layer.id) != -1 ==>
              result == Ok(layer)
              && store.storage == old(store.storage)[LAYER_DEMOGRAFI_DATA :=
                   Stored(old(GetAllLayer(store))[IndexOfId(old(GetAllLayer(store)), layer.id) := LayerRecord(layer)])]
  {
    var r := store.Update(LAYER_DEMOGRAFI_DATA, LayerRecord(layer));
    result := if r.Ok? then Ok(layer) else NotFound;
  }

  /** `deleteLayer`: removes the layers with the id from `layer_demografi_data` only. */
  method DeleteLayer(store: LocalStorageService, id: int) returns (removed: bool)
    modifies store
    ensures removed <==> exists i | 0 <= i < |old(GetAllLayer(store))| :: Id(old(GetAllLayer(store))[i]) == id
    ensures removed ==> store.storage == old(store.storage)[LAYER_DEMOGRAFI_DATA := Stored(Without(old(GetAllLayer(store)), id))]
    ensures !removed ==> store.storage == old(store.storage)
  {
    ghost var items := GetAllLayer(store);
    removed := store.Delete(LAYER_DEMOGRAFI_DATA, id);
    assert items == old(store.GetAll(LAYER_DEMOGRAFI_DATA));
  }

  /** `createLegenda`: appends the item under the next id of `legenda_data`. */
  method CreateLegenda(store: LocalStorageService, legenda: LegendaItem) returns (created: LegendaItem)
    modifies store
    ensures created == legenda.(id := NextId(old(GetAllLegenda(store))))
    ensures store.storage == old(store.storage)[LEGENDA_DATA := Stored(old(GetAllLegenda(store)) + [LegendaRecord(created)])]
  {
    var r := store.Create(LEGENDA_DATA, LegendaRecord(legenda));
    created := r.legenda;
  }

  /** `updateLegenda`: replaces the first item with the same id, or fails and writes nothing. */
  method UpdateLegenda(store: LocalStorageService, legenda: LegendaItem) returns (result: Result<LegendaItem>)
    modifies store
    ensures IndexOfId(old(GetAllLegenda(store)), legenda.id) == -1 ==> result == NotFound && store.storage == old(store.storage)
    ensures IndexOfId(old(GetAllLegenda(store)), legenda.id) != -1 ==>
              result == Ok(legenda)
              && store.storage == old(store.storage)[LEGENDA_DATA :=
                   Stored(old(GetAllLegenda(store))[IndexOfId(old(GetAllLegenda(store)), legenda.id) := LegendaRecord(legenda)])]
  {
    var r := store.Update(LEGENDA_DATA, LegendaRecord(legenda));
    result := if r.Ok? then Ok(legenda) else NotFound;
  }

  /** `deleteLegenda`: removes the items with the id from `legenda_data` only. */
  method DeleteLegenda(store: LocalStorageService, id: int) returns (removed: bool)
    modifies store
    ensures removed <==> exists i | 0 <= i < |old(GetAllLegenda(store))| :: Id(old(GetAllLegenda(store))[i]) == id
    ensures removed ==> store.storage == old(store.storage)[LEGENDA_DATA := Stored(Without(old(GetAllLegenda(store)), id))]
    ensures !removed ==> store.storage == old(store.storage)
  {
    ghost var items := GetAllLegenda(store);
    removed := store.Delete(LEGENDA_DATA, id);
    assert items == old(store.GetAll(LEGENDA_DATA));
  }

  // ---------------------------------------------------------------------------------------
  // Export and import of all settings.

  /** The settings object: one optional list per section (`koordinat`, `layers`, `legenda`);
      `None` is a section that is missing, `null` or `undefined`. */
  datatype Settings = Settings(koordinat: Option<seq<Record>>, layers: Option<seq<Record>>, legenda: Option<seq<Record>>)

  /** `exportAllPengaturan` on a snapshot: the three current lists. */
  function Exported(storage: map<string, Entry>): (data: Settings)
    ensures data.koordinat == Some(ReadItems(storage, KOORDINAT_DATA))
    ensures data.layers == Some(ReadItems(storage, LAYER_DEMOGRAFI_DATA))
    ensures data.legenda == Some(ReadItems(storage, LEGENDA_DATA))
  {
    Settings(Some(ReadItems(storage, KOORDINAT_DATA)), Some(ReadItems(storage, LAYER_DEMOGRAFI_DATA)),
             Some(ReadItems(storage, LEGENDA_DATA)))
  }

  /** `exportAllPengaturan`: the three lists as the getters read them. */
  function ExportAllPengaturan(store: LocalStorageService): (data: Settings)
    reads store
    ensures data == Settings(Some(GetAllKoordinat(store)), Some(GetAllLayer(store)), Some(GetAllLegenda(store)))
  {
    Exported(store.storage)
  }

  /** What creating each item of `items` in turn leaves behind: nothing is written for an empty
      list; otherwise the key holds the old list followed by the items, numbered from one above
      the old maximum id. */
  function AppendedByCreate(storage: map<string, Entry>, key: string, items: seq<Record>): map<string, Entry> {
    if items == [] then storage
    else storage[key := Stored(ReadItems(storage, key) + Numbered(items, MaxId(ReadItems(storage, key))))]
  }

  /** One section of `importAllPengaturan`: a missing section changes nothing; a present one
      overwrites the namespace or is appended to it through `create`. */
  function ImportedSection(storage: map<string, Entry>, key: string, section: Option<seq<Record>>, overwrite: bool)
    : (after: map<string, Entry>)
    ensures section.None? ==> after == storage
    ensures section.Some? && overwrite ==> after == storage[key := Stored(section.value)]
    ensures forall k | k != key :: (k in after <==> k in storage) && (k in storage ==> after[k] == storage[k])
  {
    match section
    case None => storage
    case Some(items) => if overwrite then storage[key := Stored(items)] else AppendedByCreate(storage, key, items)
  }

  /** `importAllPengaturan` on a snapshot: coordinates, then layers, then legend items. */
  function ImportedSettings(storage: map<string, Entry>, data: Settings, overwrite: bool): (after: map<string, Entry>)
    ensures overwrite && data.koordinat.Some? ==> ReadItems(after, KOORDINAT_DATA) == data.koordinat.value
    ensures overwrite && data.layers.Some? ==> ReadItems(after, LAYER_DEMOGRAFI_DATA) == data.layers.value
    ensures overwrite && data.legenda.Some? ==> ReadItems(after, LEGENDA_DATA) == data.legenda.value
    ensures forall k | k != KOORDINAT_DATA && k != LAYER_DEMOGRAFI_DATA && k != LEGENDA_DATA ::
              (k in after <==> k in storage) && (k in storage ==> after[k] == storage[k])
  {
    var s1 := ImportedSection(storage, KOORDINAT_DATA, data.koordinat, overwrite);
    var s2 := ImportedSection(s1, LAYER_DEMOGRAFI_DATA, data.layers, overwrite);
    ImportedSection(s2, LEGENDA_DATA, data.legenda, overwrite)
  }

  /** Exporting all settings and importing them with overwrite leaves all three namespaces
      reading as before and every other key as it was. */
  lemma ExportImportRoundTrip(storage: map<string, Entry>)
    ensures ReadItems(ImportedSettings(storage, Exported(storage), true), KOORDINAT_DATA) == ReadItems(storage, KOORDINAT_DATA)
    ensures ReadItems(ImportedSettings(storage, Exported(storage), true), LAYER_DEMOGRAFI_DATA) == ReadItems(storage, LAYER_DEMOGRAFI_DATA)
    ensures ReadItems(ImportedSettings(storage, Exported(storage), true), LEGENDA_DATA) == ReadItems(storage, LEGENDA_DATA)
    ensures forall k | k != KOORDINAT_DATA && k != LAYER_DEMOGRAFI_DATA && k != LEGENDA_DATA ::
              (k in ImportedSettings(storage, Exported(storage), true) <==> k in storage)
              && (k in storage ==> ImportedSettings(storage, Exported(storage), true)[k] == storage[k])
  {
  }

  /** A missing section leaves its namespace exactly as it was. */
  lemma MissingSectionUntouched(storage: map<string, Entry>, data: Settings, overwrite: bool)
    ensures data.koordinat.None? ==>
              (KOORDINAT_DATA in ImportedSettings(storage, data, overwrite) <==> KOORDINAT_DATA in storage)
              && (KOORDINAT_DATA in storage ==> ImportedSettings(storage, data, overwrite)[KOORDINAT_DATA] == storage[KOORDINAT_DATA])
    ensures data.layers.None? ==>
              (LAYER_DEMOGRAFI_DATA in ImportedSettings(storage, data, overwrite) <==> LAYER_DEMOGRAFI_DATA in storage)
              && (LAYER_DEMOGRAFI_DATA in storage ==> ImportedSettings(storage, data, overwrite)[LAYER_DEMOGRAFI_DATA] == storage[LAYER_DEMOGRAFI_DATA])
    ensures data.legenda.None? ==>
              (LEGENDA_DATA in ImportedSettings(storage, data, overwrite) <==> LEGENDA_DATA in storage)
              && (LEGENDA_DATA in storage ==> ImportedSettings(storage, data, overwrite)[LEGENDA_DATA] == storage[LEGENDA_DATA])
  {
  }

  /** Appending a section through `create` ignores the imported ids: the section's items follow the
      old list with the consecutive ids above its maximum, so distinct ids stay distinct. */
  lemma AppendImportRenumbers(storage: map<string, Entry>, key: string, items: seq<Record>)
    requires items != []
    requires DistinctIds(ReadItems(storage, key))
    ensures ReadItems(ImportedSection(storage, key, Some(items), false), key)
            == ReadItems(storage, key) + Numbered(items, MaxId(ReadItems(storage, key)))
    ensures DistinctIds(ReadItems(ImportedSection(storage, key, Some(items), false), key))
  {
    BulkIdsFresh(ReadItems(storage, key), items);
  }

  /** `data.section.forEach(item => create(key, item))`: each `create` numbers its item one above
      the ids written by the previous ones. */
  method CreateEach(store: LocalStorageService, key: string, items: seq<Record>)
    modifies store
    ensures store.storage == AppendedByCreate(old(store.storage), key, items)
  {
    ghost var start := store.GetAll(key);
    ghost var m := MaxId(start);
    var i := 0;
    while i < |items|
      invariant 0 <= i <= |items|
      invariant store.GetAll(key) == start + Numbered(items[..i], m)
      invariant i == 0 ==> store.storage == old(store.storage)
      invariant i > 0 ==> store.storage == old(store.storage)[key := Stored(start + Numbered(items[..i], m))]
    {
      ghost var prev := store.GetAll(key);
      NextIdAfterNumbered(start, items[..i]);
      var created := store.Create(key, items[i]);
      CreateContinuesNumbering(start, items, i, m, prev, created);
      i := i + 1;
    }
    assert items[..i] == items;
  }

  /** When the list holds the first `i` items numbered above `k`, the record `create` appends for
      the `i`-th item carries the id `k + i + 1`, which extends that numbering by one. */
  lemma CreateContinuesNumbering(start: seq<Record>, items: seq<Record>, i: int, k: int,
                                  prev: seq<Record>, created: Record)
    requires 0 <= i < |items|
    requires prev == start + Numbered(items[..i], k)
    requires NextId(prev) == k + i + 1
    requires created == WithId(items[i], NextId(prev))
    ensures prev + [created] == start + Numbered(items[..i + 1], k)
  {
    NumberedSnoc(items, i, k);
    assert (start + Numbered(items[..i], k)) + [WithId(items[i], k + i + 1)]
           == start + (Numbered(items[..i], k) + [WithId(items[i], k + i + 1)]);
  }

  /** One section of `importAllPengaturan`. */
  method ImportSection(store: LocalStorageService, key: string, section: Option<seq<Record>>, overwrite: bool)
    modifies store
    ensures store.storage == ImportedSection(old(store.storage), key, section, overwrite)
  {
    if section.Some? {
      if overwrite {
        store.SaveAll(key, section.value);
      } else {
        CreateEach(store, key, section.value);
      }
    }
  }

  /** `importAllPengaturan(data, overwrite)`. */
  method ImportAllPengaturan(store: LocalStorageService, data: Settings, overwrite: bool)
    modifies store
    ensures store.storage == ImportedSettings(old(store.storage), data, overwrite)
  {
    ImportSection(store, KOORDINAT_DATA, data.koordinat, overwrite);
    ImportSection(store, LAYER_DEMOGRAFI_DATA, data.layers, overwrite);
    ImportSection(store, LEGENDA_DATA, data.legenda, overwrite);
  }
}
