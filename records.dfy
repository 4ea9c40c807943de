/** The records the application keeps, one datatype per entity interface, and the
    dynamically typed view of a record that the generic store's search uses. */
module Records {
  import opened Sequences

  /** A JavaScript value as `typeof` sees it: a string, a number, a boolean, or `undefined`
      (an optional property that is not set, or a property the record does not have). */
  datatype Value = Str(s: string) | Num(x: real) | Bool(b: bool) | Undefined

  /** A farmer. Optional properties are `Option`s; `totalLuas` and `totalHasil` are fractional. */
  datatype Petani = Petani(
    id: int, nama: string, umur: int, alamat: string, jumlahSawah: int,
    totalLuas: real, totalHasil: real, status: string,
    noTelepon: Option<string>, email: Option<string>, jenisKelamin: Option<string>,
    pendidikan: Option<string>, pengalaman: Option<int>)

  /** A rice-field plot; `petani` is the owner's name, not a reference. */
  datatype Sawah = Sawah(
    id: int, nama: string, petani: string, luas: real, koordinat: string,
    jenisVarietas: string, musimTanam: string, hasilPanen: real, statusTanam: string,
    tanggalTanam: Option<string>, tanggalPanen: Option<string>, irigasi: Option<string>,
    jenisLahan: Option<string>, catatan: Option<string>)

  /** A marketplace product; price and stock are whole numbers. */
  datatype Produk = Produk(
    id: int, nama: string, petani: string, lokasi: string, harga: int, stok: int,
    satuan: string, kualitas: string, deskripsi: string, kontak: string)

  /** A named point of interest on the village map. */
  datatype Koordinat = Koordinat(
    id: int, nama: string, latitude: real, longitude: real, tipe: string, deskripsi: string)

  /** A demographic overlay layer of the thematic map. */
  datatype LayerDemografi = LayerDemografi(
    id: int, nama: string, warna: string, properti: string, rentangNilai: string, visible: bool)

  /** One entry of the map legend; `labelText` is the source's `label`, a keyword in Dafny. */
  datatype LegendaItem = LegendaItem(
    id: int, labelText: string, warna: string, simbol: string, kategori: string)

  /** Whatever one namespace of the store holds: the store itself is untyped, so any kind
      of record may sit under any key. */
  datatype Record =
    | PetaniRecord(petani: Petani)
    | SawahRecord(sawah: Sawah)
    | ProdukRecord(produk: Produk)
    | KoordinatRecord(koordinat: Koordinat)
    | LayerRecord(layer: LayerDemografi)
    | LegendaRecord(legenda: LegendaItem)

  /** `item.id`. */
  function Id(r: Record): int {
    match r
    case PetaniRecord(p) => p.id
    case SawahRecord(s) => s.id
    case ProdukRecord(p) => p.id
    case KoordinatRecord(k) => k.id
    case LayerRecord(l) => l.id
    case LegendaRecord(l) => l.id
  }

  /** `{ ...item, id }`: the same record with its id overwritten. */
  function WithId(r: Record, id: int): (r': Record)
    ensures Id(r') == id
    ensures forall name | name != "id" :: Field(r', name) == Field(r, name)
  {
    match r
    case PetaniRecord(p) => PetaniRecord(p.(id := id))
    case SawahRecord(s) => SawahRecord(s.(id := id))
    case ProdukRecord(p) => ProdukRecord(p.(id := id))
    case KoordinatRecord(k) => KoordinatRecord(k.(id := id))
    case LayerRecord(l) => LayerRecord(l.(id := id))
    case LegendaRecord(l) => LegendaRecord(l.(id := id))
  }

  function OptStr(o: Option<string>): Value {
    match o case Some(s) => Str(s) case None => Undefined
  }

  function OptNum(o: Option<int>): Value {
    match o case Some(n) => Num(n as real) case None => Undefined
  }

  /** `item[name]`: the value of the named property, `Undefined` when the record has none. */
  function Field(r: Record, name: string): (v: Value)
    ensures name == "id" ==> v == Num(Id(r) as real)
  {
    match r
    case PetaniRecord(p) =>
      if name == "id" then Num(p.id as real)
      else if name == "nama" then Str(p.nama)
      else if name == "umur" then Num(p.umur as real)
      else if name == "alamat" then Str(p.alamat)
      else if name == "jumlahSawah" then Num(p.jumlahSawah as real)
      else if name == "totalLuas" then Num(p.totalLuas)
      else if name == "totalHasil" then Num(p.totalHasil)
      else if name == "status" then Str(p.status)
      else if name == "noTelepon" then OptStr(p.noTelepon)
      else if name == "email" then OptStr(p.email)
      else if name == "jenisKelamin" then OptStr(p.jenisKelamin)
      else if name == "pendidikan" then OptStr(p.pendidikan)
      else if name == "pengalaman" then OptNum(p.pengalaman)
      else Undefined
    case SawahRecord(s) =>
      if name == "id" then Num(s.id as real)
      else if name == "nama" then Str(s.nama)
      else if name == "petani" then Str(s.petani)
      else if name == "luas" then Num(s.luas)
      else if name == "koordinat" then Str(s.koordinat)
      else if name == "jenisVarietas" then Str(s.jenisVarietas)
      else if name == "musimTanam" then Str(s.musimTanam)
      else if name == "hasilPanen" then Num(s.hasilPanen)
      else if name == "statusTanam" then Str(s.statusTanam)
      else if name == "tanggalTanam" then OptStr(s.tanggalTanam)
      else if name == "tanggalPanen" then OptStr(s.tanggalPanen)
      else if name == "irigasi" then OptStr(s.irigasi)
      else if name == "jenisLahan" then OptStr(s.jenisLahan)
      else if name == "catatan" then OptStr(s.catatan)
      else Undefined
    case ProdukRecord(p) =>
      if name == "id" then Num(p.id as real)
      else if name == "nama" then Str(p.nama)
      else if name == "petani" then Str(p.petani)
      else if name == "lokasi" then Str(p.lokasi)
      else if name == "harga" then Num(p.harga as real)
      else if name == "stok" then Num(p.stok as real)
      else if name == "satuan" then Str(p.satuan)
      else if name == "kualitas" then Str(p.kualitas)
      else if name == "deskripsi" then Str(p.deskripsi)
      else if name == "kontak" then Str(p.kontak)
      else Undefined
    case KoordinatRecord(k) =>
      if name == "id" then Num(k.id as real)
      else if name == "nama" then Str(k.nama)
      else if name == "latitude" then Num(k.latitude)
      else if name == "longitude" then Num(k.longitude)
      else if name == "tipe" then Str(k.tipe)
      else if name == "deskripsi" then Str(k.deskripsi)
      else Undefined
    case LayerRecord(l) =>
      if name == "id" then Num(l.id as real)
      else if name == "nama" then Str(l.nama)
      else if name == "warna" then Str(l.warna)
      else if name == "properti" then Str(l.properti)
      else if name == "rentangNilai" then Str(l.rentangNilai)
      else if name == "visible" then Bool(l.visible)
      else Undefined
    case LegendaRecord(l) =>
      if name == "id" then Num(l.id as real)
      else if name == "label" then Str(l.labelText)
      else if name == "warna" then Str(l.warna)
      else if name == "simbol" then Str(l.simbol)
      else if name == "kategori" then Str(l.kategori)
      else Undefined
  }

  /** The ids of a list of records, `items.map(i => i.id)`. */
  function Ids(items: seq<Record>): (ids: seq<int>)
    ensures |ids| == |items|
    ensures forall i | 0 <= i < |items| :: ids[i] == Id(items[i])
  {
    Map(items, Id)
  }

  /** No two records share an id. */
  predicate DistinctIds(items: seq<Record>) {
    forall i, j | 0 <= i < j < |items| :: Id(items[i]) != Id(items[j])
  }
}
