/** The fertilizer screen: an in-memory stock list with a stock-status rule, a search filter,
    and create, edit and delete through a form and a confirmation dialog. Nothing here is
    persisted; the list lives in the screen's state and starts from four seeded fertilizers. */
module PupukScreen {
  import opened Sequences
  import opened Text
  import opened ListEditing

  /** One recorded use of a fertilizer. */
  datatype Penggunaan = Penggunaan(tanggal: string, jumlah: int, petani: string, lahan: string)

  /** A fertilizer in stock. `status` is a stored text, recomputed from `stok` on every save. */
  datatype Pupuk = Pupuk(
    id: int, nama: string, jenis: string, stok: int, satuan: string, harga: int,
    supplier: string, tanggalBeli: string, tanggalKadaluarsa: string, lokasi: string,
    status: string, penggunaan: seq<Penggunaan>)

  /** What the fertilizer form submits. */
  datatype PupukForm = PupukForm(
    nama: string, jenis: string, stok: int, satuan: string, harga: int,
    supplier: string, tanggalBeli: string, tanggalKadaluarsa: string, lokasi: string)

  /** Whether the form creates a new fertilizer or edits the selected one. */
  datatype FormMode = Create | Edit

  function PupukId(p: Pupuk): int { p.id }

  /** The form fields a stored fertilizer shows when it is edited. */
  function FormOf(p: Pupuk): PupukForm {
    PupukForm(p.nama, p.jenis, p.stok, p.satuan, p.harga, p.supplier, p.tanggalBeli,
              p.tanggalKadaluarsa, p.lokasi)
  }

  /** The four fertilizers the screen starts with. */
  const INITIAL_PUPUK: seq<Pupuk> := [
    Pupuk(1, "Urea", "Nitrogen", 500, "kg", 2500, "PT Pupuk Indonesia", "2024-01-15", "2024-12-31",
          "Gudang A", "Tersedia",
          [Penggunaan("2024-01-20", 50, "Budi Santoso", "Sawah A"),
           Penggunaan("2024-01-25", 30, "Sari Wati", "Sawah B")]),
    Pupuk(2, "NPK 16-16-16", "Majemuk", 300, "kg", 3500, "PT Pupuk Majemuk", "2024-02-01", "2025-01-31",
          "Gudang A", "Tersedia",
          [Penggunaan("2024-02-05", 25, "Joko Widodo", "Sawah C")]),
    Pupuk(3, "TSP (Triple Super Phosphate)", "Fosfor", 150, "kg", 4000, "PT Agro Kimia", "2024-01-10",
          "2024-06-30", "Gudang B", "Segera Habis",
          [Penggunaan("2024-01-15", 40, "Rina Sari", "Sawah D")]),
    Pupuk(4, "KCl (Kalium Klorida)", "Kalium", 0, "kg", 3200, "PT Pupuk Kalium", "2023-12-01", "2024-11-30",
          "Gudang B", "Habis",
          [Penggunaan("2024-01-10", 35, "Budi Santoso", "Sawah A")])
  ]

  /** `updateStockStatus`: out of stock at exactly zero, running low below 100, available from 100 up. */
  function UpdateStockStatus(stok: int): (status: string)
    ensures status == "Habis" <==> stok == 0
    ensures status == "Segera Habis" <==> stok != 0 && stok < 100
    ensures status == "Tersedia" <==> stok >= 100
  {
    if stok == 0 then "Habis"
    else if stok < 100 then "Segera Habis"
    else "Tersedia"
  }

  /** `getStokWarning`: the text colour of the stock figure, on the same thresholds. */
  function GetStokWarning(stok: int): (cls: string)
    ensures cls == "text-red-600" <==> stok == 0
    ensures cls == "text-yellow-600" <==> stok != 0 && stok < 100
    ensures cls == "text-green-600" <==> stok >= 100
  {
    if stok == 0 then "text-red-600"
    else if stok < 100 then "text-yellow-600"
    else "text-green-600"
  }

  /** `getStatusColor`: each of the three statuses has its own badge colour, and any other text
      is grey. */
  function GetStatusColor(status: string): (c: string)
    ensures c == "bg-green-100 text-green-800" <==> status == "Tersedia"
    ensures c == "bg-yellow-100 text-yellow-800" <==> status == "Segera Habis"
    ensures c == "bg-red-100 text-red-800" <==> status == "Habis"
    ensures c == "bg-gray-100 text-gray-800" <==> status != "Tersedia" && status != "Segera Habis" && status != "Habis"
  {
    match status
    case "Tersedia" => "bg-green-100 text-green-800"
    case "Segera Habis" => "bg-yellow-100 text-yellow-800"
    case "Habis" => "bg-red-100 text-red-800"
    case _ => "bg-gray-100 text-gray-800"
  }

  /** For a status computed from the stock, the badge and the stock figure show the same colour,
      and the badge is never grey. */
  lemma WarningAgreesWithStatus(stok: int)
    ensures GetStokWarning(stok) == "text-red-600" <==> GetStatusColor(UpdateStockStatus(stok)) == "bg-red-100 text-red-800"
    ensures GetStokWarning(stok) == "text-yellow-600" <==> GetStatusColor(UpdateStockStatus(stok)) == "bg-yellow-100 text-yellow-800"
    ensures GetStokWarning(stok) == "text-green-600" <==> GetStatusColor(UpdateStockStatus(stok)) == "bg-green-100 text-green-800"
    ensures GetStatusColor(UpdateStockStatus(stok)) != "bg-gray-100 text-gray-800"
  {
  }

  /** The seeded fertilizers have ids 1 to 4. Three carry the status their stock gives; the
      third (TSP, 150 kg) is seeded as running low although 150 kg reads as available, so its
      badge is yellow while its stock figure is green. */
  lemma InitialPupukStatuses()
    ensures forall i | 0 <= i < |INITIAL_PUPUK| :: INITIAL_PUPUK[i].id == i + 1
    ensures DistinctKeys(INITIAL_PUPUK, PupukId)
    ensures forall i | 0 <= i < |INITIAL_PUPUK| && i != 2 ::
              INITIAL_PUPUK[i].status == UpdateStockStatus(INITIAL_PUPUK[i].stok)
    ensures INITIAL_PUPUK[2].status != UpdateStockStatus(INITIAL_PUPUK[2].stok)
    ensures GetStatusColor(INITIAL_PUPUK[2].status) == "bg-yellow-100 text-yellow-800"
    ensures GetStokWarning(INITIAL_PUPUK[2].stok) == "text-green-600"
  {
  }

  /** The search keeps a fertilizer when its lower-cased name or kind contains the lower-cased term. */
  predicate MatchesSearch(term: string, p: Pupuk) {
    Contains(ToLower(p.nama), ToLower(term)) || Contains(ToLower(p.jenis), ToLower(term))
  }

  function SearchMatcher(term: string): Pupuk -> bool {
    p => MatchesSearch(term, p)
  }

  /** `filteredPupuk`: the fertilizers that match the term, in list order, and all of them. */
  function FilterPupuk(list: seq<Pupuk>, term: string): (found: seq<Pupuk>)
    ensures forall i | 0 <= i < |found| :: MatchesSearch(term, found[i])
    ensures forall i | 0 <= i < |list| && MatchesSearch(term, list[i]) :: list[i] in found
    ensures IsSubsequence(found, list)
  {
    FilterIsSubsequence(list, SearchMatcher(term));
    Filter(list, SearchMatcher(term))
  }

  /** An empty search term shows the whole list. */
  lemma EmptySearchShowsAll(list: seq<Pupuk>)
    ensures FilterPupuk(list, "") == list
  {
    forall i | 0 <= i < |list|
      ensures SearchMatcher("")(list[i])
    {
      ContainsEmpty(ToLower(list[i].nama));
    }
    FilterKeepsAll(list, SearchMatcher(""));
  }

  /** The fertilizer the create branch of `handleFormSubmit` appends: the form's fields under an id
      above every existing one, with the status its stock gives and no recorded use yet. */
  function CreatedPupuk(list: seq<Pupuk>, data: PupukForm): (p: Pupuk)
    ensures FormOf(p) == data
    ensures forall i | 0 <= i < |list| :: list[i].id < p.id
    ensures p.status == UpdateStockStatus(data.stok) && p.penggunaan == []
  {
    var ids := Map(list, PupukId);
    assert forall i | 0 <= i < |list| :: ids[i] == list[i].id;
    Pupuk(NextListId(ids), data.nama, data.jenis, data.stok, data.satuan, data.harga,
          data.supplier, data.tanggalBeli, data.tanggalKadaluarsa, data.lokasi,
          UpdateStockStatus(data.stok), [])
  }

  /** The edit branch's `{ ...selectedPupuk, ...form, status }`: the form's fields over the selected
      fertilizer, keeping its id and its recorded uses, with the status recomputed. */
  function EditedPupuk(selected: Pupuk, data: PupukForm): (p: Pupuk)
    ensures FormOf(p) == data
    ensures p.id == selected.id && p.penggunaan == selected.penggunaan
    ensures p.status == UpdateStockStatus(data.stok)
  {
    selected.(nama := data.nama, jenis := data.jenis, stok := data.stok, satuan := data.satuan,
              harga := data.harga, supplier := data.supplier, tanggalBeli := data.tanggalBeli,
              tanggalKadaluarsa := data.tanggalKadaluarsa, lokasi := data.lokasi,
              status := UpdateStockStatus(data.stok))
  }

  /** The list after `handleFormSubmit`: create appends, edit with a selection replaces every
      fertilizer with the selected id, edit without a selection changes nothing. */
  function SubmittedList(list: seq<Pupuk>, mode: FormMode, selected: Option<Pupuk>, data: PupukForm): (r: seq<Pupuk>)
    ensures mode == Create ==> |r| == |list| + 1 && r[..|list|] == list && r[|list|] == CreatedPupuk(list, data)
    ensures mode != Create ==> Map(r, PupukId) == Map(list, PupukId)
    ensures mode != Create && selected.Some? ==>
              forall i | 0 <= i < |list| :: r[i] == if list[i].id == selected.value.id then EditedPupuk(selected.value, data) else list[i]
    ensures mode != Create && selected.None? ==> r == list
  {
    if mode == Create then list + [CreatedPupuk(list, data)]
    else if selected.Some? then
      var edited := EditedPupuk(selected.value, data);
      ReplaceByIdKeepsIds(list, PupukId, selected.value.id, edited);
      ReplaceById(list, PupukId, selected.value.id, edited)
    else list
  }

  /** Saving the form keeps the fertilizer ids distinct. */
  lemma SubmitKeepsIdsDistinct(list: seq<Pupuk>, mode: FormMode, selected: Option<Pupuk>, data: PupukForm)
    requires DistinctKeys(list, PupukId)
    ensures DistinctKeys(SubmittedList(list, mode, selected, data), PupukId)
  {
    if mode == Create {
      AppendNextKeepsDistinct(list, PupukId, CreatedPupuk(list, data));
    } else if selected.Some? {
      ReplaceByIdKeepsIds(list, PupukId, selected.value.id, EditedPupuk(selected.value, data));
    }
  }

  /** `Math.max(...pupukData.map(p => p.id)) + 1` as written: without a 0 seed the maximum of an empty
      list is `-Infinity`, not a finite integer (`None` here). The new fertilizer gets the id
      `-Infinity`, and since `-Infinity + 1` is `-Infinity`, every later id stays `-Infinity`. */
  function PupukNewIdAsWritten(ids: seq<int>): (id: Option<int>)
    ensures id.None? <==> ids == []
    ensures id.Some? ==> forall i | 0 <= i < |ids| :: ids[i] < id.value
  {
    if ids == [] then None else Some(Max(ids) + 1)
  }

  /** Deleting the last remaining fertilizer empties the list; the create branch as written then
      yields no id, while `Math.max(0, ...ids) + 1` yields 1. */
  lemma AsWrittenFailsAfterLastDelete(p: Pupuk)
    ensures RemoveById([p], PupukId, p.id) == []
    ensures PupukNewIdAsWritten(Map(RemoveById([p], PupukId, p.id), PupukId)) == None
    ensures NextListId(Map(RemoveById([p], PupukId, p.id), PupukId)) == 1
  {
    var emptied := RemoveById([p], PupukId, p.id);
    assert Filter([p][1..], KeyIsNot(PupukId, p.id)) == [];
  }

  /** On a non-empty list of non-negative ids both formulas give the same id. */
  lemma AsWrittenAgreesOnNonEmpty(ids: seq<int>)
    requires ids != []
    requires forall i | 0 <= i < |ids| :: ids[i] >= 0
    ensures PupukNewIdAsWritten(ids) == Some(NextListId(ids))
  {
    var m := Max(ids);
    var i :| 0 <= i < |ids| && ids[i] == m;
    assert MaxFrom(0, ids) >= ids[i];
  }

  /** The screen's state: the fertilizer list, the search box and the dialogs. */
  class ManajemenPupuk {
    var pupukData: seq<Pupuk>
    var searchTerm: string
    var isFormOpen: bool
    var formMode: FormMode
    var selectedPupuk: Option<Pupuk>
    var deleteDialogOpen: bool
    var pupukToDelete: Option<Pupuk>

    /** The state on first render. */
    constructor ()
      ensures pupukData == INITIAL_PUPUK && searchTerm == ""
      ensures !isFormOpen && formMode == Create && selectedPupuk == None
      ensures !deleteDialogOpen && pupukToDelete == None
    {
      pupukData := INITIAL_PUPUK;
      searchTerm := "";
      isFormOpen := false;
      formMode := Create;
      selectedPupuk := None;
      deleteDialogOpen := false;
      pupukToDelete := None;
    }

    /** The fertilizers the cards show: those matching the search box, all of them and in list
        order; with an empty search box, the whole list. */
    function FilteredPupuk(): (shown: seq<Pupuk>)
      reads this
      ensures forall i | 0 <= i < |shown| :: MatchesSearch(searchTerm, shown[i])
      ensures forall i | 0 <= i < |pupukData| && MatchesSearch(searchTerm, pupukData[i]) :: pupukData[i] in shown
      ensures IsSubsequence(shown, pupukData)
      ensures searchTerm == "" ==> shown == pupukData
    {
      EmptySearchShowsAll(pupukData);
      FilterPupuk(pupukData, searchTerm)
    }

    /** Typing in the search box. */
    method SetSearchTerm(term: string)
      modifies this
      ensures searchTerm == term
      ensures pupukData == old(pupukData) && isFormOpen == old(isFormOpen) && formMode == old(formMode)
      ensures selectedPupuk == old(selectedPupuk)
      ensures deleteDialogOpen == old(deleteDialogOpen) && pupukToDelete == old(pupukToDelete)
    {
      searchTerm := term;
    }

    /** `handleAdd`: opens an empty form in create mode. */
    method HandleAdd()
      modifies this
      ensures formMode == Create && selectedPupuk == None && isFormOpen
      ensures pupukData == old(pupukData) && searchTerm == old(searchTerm)
      ensures deleteDialogOpen == old(deleteDialogOpen) && pupukToDelete == old(pupukToDelete)
    {
      formMode := Create;
      selectedPupuk := None;
      isFormOpen := true;
    }

    /** `handleEdit`: opens the form in edit mode on the chosen fertilizer. */
    method HandleEdit(p: Pupuk)
      modifies this
      ensures formMode == Edit && selectedPupuk == Some(p) && isFormOpen
      ensures pupukData == old(pupukData) && searchTerm == old(searchTerm)
      ensures deleteDialogOpen == old(deleteDialogOpen) && pupukToDelete == old(pupukToDelete)
    {
      formMode := Edit;
      selectedPupuk := Some(p);
      isFormOpen := true;
    }

    /** `handleDelete`: asks for confirmation before deleting the chosen fertilizer. */
    method HandleDelete(p: Pupuk)
      modifies this
      ensures pupukToDelete == Some(p) && deleteDialogOpen
      ensures pupukData == old(pupukData) && searchTerm == old(searchTerm)
      ensures isFormOpen == old(isFormOpen) && formMode == old(formMode) && selectedPupuk == old(selectedPupuk)
    {
      pupukToDelete := Some(p);
      deleteDialogOpen := true;
    }

    /** `confirmDelete`: with a fertilizer awaiting confirmation, removes every fertilizer with its id
        and closes the dialog; otherwise does nothing. */
    method ConfirmDelete()
      modifies this
      ensures old(pupukToDelete).Some? ==>
                pupukData == RemoveById(old(pupukData), PupukId, old(pupukToDelete).value.id)
                && pupukToDelete == None && !deleteDialogOpen
      ensures old(pupukToDelete).None? ==>
                pupukData == old(pupukData) && pupukToDelete == None && deleteDialogOpen == old(deleteDialogOpen)
      ensures searchTerm == old(searchTerm) && isFormOpen == old(isFormOpen)
      ensures formMode == old(formMode) && selectedPupuk == old(selectedPupuk)
    {
      if pupukToDelete.Some? {
        pupukData := RemoveById(pupukData, PupukId, pupukToDelete.value.id);
        pupukToDelete := None;
        deleteDialogOpen := false;
      }
    }

    /** The dialog's own open/close callback: sets whether the dialog shows and keeps the fertilizer
        awaiting confirmation, so a later confirmation still deletes it. */
    method SetDeleteDialogOpen(open: bool)
      modifies this
      ensures deleteDialogOpen == open
      ensures pupukToDelete == old(pupukToDelete) && pupukData == old(pupukData) && searchTerm == old(searchTerm)
      ensures isFormOpen == old(isFormOpen) && formMode == old(formMode) && selectedPupuk == old(selectedPupuk)
    {
      deleteDialogOpen := open;
    }

    /** `handleFormSubmit`: creates or edits as the form's mode says, then closes the form. The new id
        is `Math.max(0, ...ids) + 1`, the corrected form of the screen's formula. */
    method HandleFormSubmit(data: PupukForm)
      modifies this
      ensures pupukData == SubmittedList(old(pupukData), old(formMode), old(selectedPupuk), data)
      ensures !isFormOpen
      ensures searchTerm == old(searchTerm) && formMode == old(formMode) && selectedPupuk == old(selectedPupuk)
      ensures deleteDialogOpen == old(deleteDialogOpen) && pupukToDelete == old(pupukToDelete)
    {
      var status := UpdateStockStatus(data.stok);
      if formMode == Create {
        var newId := NextListId(Map(pupukData, PupukId));
        var newPupuk := Pupuk(newId, data.nama, data.jenis, data.stok, data.satuan, data.harga,
                              data.supplier, data.tanggalBeli, data.tanggalKadaluarsa, data.lokasi,
                              status, []);
        pupukData := pupukData + [newPupuk];
      } else if selectedPupuk.Some? {
        var updated := selectedPupuk.value.(nama := data.nama, jenis := data.jenis, stok := data.stok,
                                            satuan := data.satuan, harga := data.harga,
                                            supplier := data.supplier, tanggalBeli := data.tanggalBeli,
                                            tanggalKadaluarsa := data.tanggalKadaluarsa,
                                            lokasi := data.lokasi, status := status);
        pupukData := ReplaceById(pupukData, PupukId, selectedPupuk.value.id, updated);
      }
      isFormOpen := false;
    }
  }
}
