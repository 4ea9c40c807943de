/** The map-settings screen for points of interest: add and edit through a form whose position
    comes from a map picker, delete after confirmation, and a per-point switch that hides a point
    on this screen. The point list belongs to the parent settings page; this screen replaces it
    through its setter. The hidden points are a set of ids local to the screen. */
module CoordinateScreen {
  import opened Sequences
  import opened Text
  import opened Records
  import opened ListEditing

  /** The village centre the map picker starts from. */
  const DESA_SUMBERAGUNG_LAT: real := -7.0521
  const DESA_SUMBERAGUNG_LNG: real := 110.7987

  /** What the point form submits; the description may be left out. */
  datatype KoordinatForm = KoordinatForm(nama: string, tipe: string, deskripsi: Option<string>)

  function KoordinatId(k: Koordinat): int { k.id }

  /** `data.deskripsi?.trim() || ''`: the trimmed description, or the empty text when none was given. */
  function DeskripsiText(deskripsi: Option<string>): (d: string)
    ensures deskripsi.None? ==> d == ""
    ensures deskripsi.Some? ==> d == Trim(deskripsi.value)
  {
    match deskripsi
    case None => ""
    case Some(text) => Trim(text)
  }

  /** The point `handleAddKoordinat` appends: an id above every existing one, the trimmed name and
      description, and the position currently picked on the map. */
  function NewKoordinat(points: seq<Koordinat>, data: KoordinatForm, lat: real, lng: real): (k: Koordinat)
    ensures forall i | 0 <= i < |points| :: points[i].id < k.id
    ensures k.id >= 1
    ensures k.nama == Trim(data.nama) && k.tipe == data.tipe && k.deskripsi == DeskripsiText(data.deskripsi)
    ensures k.latitude == lat && k.longitude == lng
  {
    var ids := Map(points, KoordinatId);
    assert forall i | 0 <= i < |points| :: ids[i] == points[i].id;
    Koordinat(NextListId(ids), Trim(data.nama), lat, lng, data.tipe, DeskripsiText(data.deskripsi))
  }

  /** The point `handleEditKoordinat` stores: the form and the picked position over the edited point,
      keeping its id. */
  function EditedKoordinat(editing: Koordinat, data: KoordinatForm, lat: real, lng: real): (k: Koordinat)
    ensures k.id == editing.id
    ensures k.nama == Trim(data.nama) && k.tipe == data.tipe && k.deskripsi == DeskripsiText(data.deskripsi)
    ensures k.latitude == lat && k.longitude == lng
  {
    editing.(nama := Trim(data.nama), latitude := lat, longitude := lng, tipe := data.tipe,
             deskripsi := DeskripsiText(data.deskripsi))
  }

  /** The list after submitting the form: the edited point replaces its id when one is being edited,
      else a new point is appended. */
  function SubmittedKoordinats(points: seq<Koordinat>, editing: Option<Koordinat>, data: KoordinatForm,
                               lat: real, lng: real): (r: seq<Koordinat>)
    ensures editing.None? ==>
              |r| == |points| + 1 && r[..|points|] == points && r[|points|] == NewKoordinat(points, data, lat, lng)
    ensures editing.Some? ==> Map(r, KoordinatId) == Map(points, KoordinatId)
    ensures editing.Some? ==>
              forall i | 0 <= i < |points| ::
                r[i] == if points[i].id == editing.value.id then EditedKoordinat(editing.value, data, lat, lng) else points[i]
  {
    if editing.Some? then
      var edited := EditedKoordinat(editing.value, data, lat, lng);
      ReplaceByIdKeepsIds(points, KoordinatId, editing.value.id, edited);
      ReplaceById(points, KoordinatId, editing.value.id, edited)
    else points + [NewKoordinat(points, data, lat, lng)]
  }

  /** A submission keeps the point ids distinct. */
  lemma SubmitKeepsIdsDistinct(points: seq<Koordinat>, editing: Option<Koordinat>, data: KoordinatForm, lat: real, lng: real)
    requires DistinctKeys(points, KoordinatId)
    ensures DistinctKeys(SubmittedKoordinats(points, editing, data, lat, lng), KoordinatId)
  {
    if editing.Some? {
      ReplaceByIdKeepsIds(points, KoordinatId, editing.value.id, EditedKoordinat(editing.value, data, lat, lng));
    } else {
      AppendNextKeepsDistinct(points, KoordinatId, NewKoordinat(points, data, lat, lng));
    }
  }

  /** `toggleKoordinatVisibility` on the set: the id leaves the set when it is in it and joins it
      otherwise; no other id changes. */
  function Toggled(hidden: set<int>, id: int): (r: set<int>)
    ensures id in r <==> id !in hidden
    ensures forall other | other != id :: other in r <==> other in hidden
  {
    if id in hidden then hidden - {id} else hidden + {id}
  }

  /** Toggling the same point twice restores the set. */
  lemma ToggleTwiceRestores(hidden: set<int>, id: int)
    ensures Toggled(Toggled(hidden, id), id) == hidden
  {
    var twice := Toggled(Toggled(hidden, id), id);
    assert forall other :: other in twice <==> other in hidden;
  }

  /** The screen's state: the point list, the form, the delete dialog, the picked position and the
      hidden points. */
  class CoordinateManagement {
    var koordinatList: seq<Koordinat>
    var isKoordinatFormOpen: bool
    var editingKoordinat: Option<Koordinat>
    var deleteKoordinat: Option<Koordinat>
    var selectedLatitude: real
    var selectedLongitude: real
    var hiddenKoordinat: set<int>

    /** The screen as first shown over the parent's list: nothing hidden, the picker on the village. */
    constructor (points: seq<Koordinat>)
      ensures koordinatList == points && !isKoordinatFormOpen && editingKoordinat == None && deleteKoordinat == None
      ensures selectedLatitude == DESA_SUMBERAGUNG_LAT && selectedLongitude == DESA_SUMBERAGUNG_LNG
      ensures hiddenKoordinat == {}
    {
      koordinatList := points;
      isKoordinatFormOpen := false;
      editingKoordinat := None;
      deleteKoordinat := None;
      selectedLatitude := DESA_SUMBERAGUNG_LAT;
      selectedLongitude := DESA_SUMBERAGUNG_LNG;
      hiddenKoordinat := {};
    }

    /** Whether a point is shown dimmed as hidden. */
    predicate IsHidden(id: int)
      reads this
    {
      id in hiddenKoordinat
    }

    /** `handleOpenKoordinatForm`: on a point, edits it from its own position; without one, adds a
        point from the village centre. */
    method HandleOpenKoordinatForm(koordinat: Option<Koordinat>)
      modifies this
      ensures isKoordinatFormOpen && editingKoordinat == koordinat
      ensures koordinat.Some? ==> selectedLatitude == koordinat.value.latitude && selectedLongitude == koordinat.value.longitude
      ensures koordinat.None? ==> selectedLatitude == DESA_SUMBERAGUNG_LAT && selectedLongitude == DESA_SUMBERAGUNG_LNG
      ensures koordinatList == old(koordinatList) && deleteKoordinat == old(deleteKoordinat)
      ensures hiddenKoordinat == old(hiddenKoordinat)
    {
      if koordinat.Some? {
        editingKoordinat := koordinat;
        selectedLatitude := koordinat.value.latitude;
        selectedLongitude := koordinat.value.longitude;
      } else {
        editingKoordinat := None;
        selectedLatitude := DESA_SUMBERAGUNG_LAT;
        selectedLongitude := DESA_SUMBERAGUNG_LNG;
      }
      isKoordinatFormOpen := true;
    }

    /** `handleCoordinateSelect`: a click on the picker moves the picked position. */
    method HandleCoordinateSelect(lat: real, lng: real)
      modifies this
      ensures selectedLatitude == lat && selectedLongitude == lng
      ensures koordinatList == old(koordinatList) && isKoordinatFormOpen == old(isKoordinatFormOpen)
      ensures editingKoordinat == old(editingKoordinat) && deleteKoordinat == old(deleteKoordinat)
      ensures hiddenKoordinat == old(hiddenKoordinat)
    {
      selectedLatitude := lat;
      selectedLongitude := lng;
    }

    /** Closing the form drops the point being edited. */
    method CloseForm()
      modifies this
      ensures !isKoordinatFormOpen && editingKoordinat == None
      ensures koordinatList == old(koordinatList) && deleteKoordinat == old(deleteKoordinat)
      ensures selectedLatitude == old(selectedLatitude) && selectedLongitude == old(selectedLongitude)
      ensures hiddenKoordinat == old(hiddenKoordinat)
    {
      isKoordinatFormOpen := false;
      editingKoordinat := None;
    }

    /** A point's delete button: asks for confirmation. */
    method RequestDelete(koordinat: Koordinat)
      modifies this
      ensures deleteKoordinat == Some(koordinat)
      ensures koordinatList == old(koordinatList) && isKoordinatFormOpen == old(isKoordinatFormOpen)
      ensures editingKoordinat == old(editingKoordinat)
      ensures selectedLatitude == old(selectedLatitude) && selectedLongitude == old(selectedLongitude)
      ensures hiddenKoordinat == old(hiddenKoordinat)
    {
      deleteKoordinat := Some(koordinat);
    }

    /** Dismissing the confirmation dialog: no point awaits deletion and nothing else changes. */
    method CancelDelete()
      modifies this
      ensures deleteKoordinat == None
      ensures koordinatList == old(koordinatList) && isKoordinatFormOpen == old(isKoordinatFormOpen)
      ensures editingKoordinat == old(editingKoordinat)
      ensures selectedLatitude == old(selectedLatitude) && selectedLongitude == old(selectedLongitude)
      ensures hiddenKoordinat == old(hiddenKoordinat)
    {
      deleteKoordinat := None;
    }

    /** `handleAddKoordinat`: appends the new point at the picked position and closes the form. */
    method HandleAddKoordinat(data: KoordinatForm)
      modifies this
      ensures koordinatList == old(koordinatList) + [NewKoordinat(old(koordinatList), data, selectedLatitude, selectedLongitude)]
      ensures !isKoordinatFormOpen
      ensures editingKoordinat == old(editingKoordinat) && deleteKoordinat == old(deleteKoordinat)
      ensures selectedLatitude == old(selectedLatitude) && selectedLongitude == old(selectedLongitude)
      ensures hiddenKoordinat == old(hiddenKoordinat)
    {
      var newKoordinat := Koordinat(NextListId(Map(koordinatList, KoordinatId)), Trim(data.nama),
                                    selectedLatitude, selectedLongitude, data.tipe, DeskripsiText(data.deskripsi));
      koordinatList := koordinatList + [newKoordinat];
      isKoordinatFormOpen := false;
    }

    /** `handleEditKoordinat`: without a point being edited nothing changes; otherwise the edited point
        replaces its id, the editing slot clears and the form closes. */
    method HandleEditKoordinat(data: KoordinatForm)
      modifies this
      ensures old(editingKoordinat).None? ==>
                koordinatList == old(koordinatList) && isKoordinatFormOpen == old(isKoordinatFormOpen)
                && editingKoordinat == None
      ensures old(editingKoordinat).Some? ==>
                koordinatList == ReplaceById(old(koordinatList), KoordinatId, old(editingKoordinat).value.id,
                                             EditedKoordinat(old(editingKoordinat).value, data, selectedLatitude, selectedLongitude))
                && !isKoordinatFormOpen && editingKoordinat == None
      ensures deleteKoordinat == old(deleteKoordinat)
      ensures selectedLatitude == old(selectedLatitude) && selectedLongitude == old(selectedLongitude)
      ensures hiddenKoordinat == old(hiddenKoordinat)
    {
      if editingKoordinat.None? {
        return;
      }
      var editing := editingKoordinat.value;
      var updated := editing.(nama := Trim(data.nama), latitude := selectedLatitude, longitude := selectedLongitude,
                              tipe := data.tipe, deskripsi := DeskripsiText(data.deskripsi));
      koordinatList := ReplaceById(koordinatList, KoordinatId, editing.id, updated);
      editingKoordinat := None;
      isKoordinatFormOpen := false;
    }

    /** The form's submit: edits when a point is being edited, adds otherwise; either way the form
        closes. */
    method Submit(data: KoordinatForm)
      modifies this
      ensures koordinatList == SubmittedKoordinats(old(koordinatList), old(editingKoordinat), data,
                                                   selectedLatitude, selectedLongitude)
      ensures !isKoordinatFormOpen && editingKoordinat == None
      ensures deleteKoordinat == old(deleteKoordinat)
      ensures selectedLatitude == old(selectedLatitude) && selectedLongitude == old(selectedLongitude)
      ensures hiddenKoordinat == old(hiddenKoordinat)
    {
      if editingKoordinat.Some? {
        HandleEditKoordinat(data);
      } else {
        HandleAddKoordinat(data);
      }
    }

    /** `handleDeleteKoordinat`: removes every point with the confirmed point's id, keeping the others
        in order, and clears the confirmation; without one, nothing changes. */
    method HandleDeleteKoordinat()
      modifies this
      ensures old(deleteKoordinat).Some? ==>
                koordinatList == RemoveById(old(koordinatList), KoordinatId, old(deleteKoordinat).value.id)
      ensures old(deleteKoordinat).None? ==> koordinatList == old(koordinatList)
      ensures deleteKoordinat == None
      ensures isKoordinatFormOpen == old(isKoordinatFormOpen) && editingKoordinat == old(editingKoordinat)
      ensures selectedLatitude == old(selectedLatitude) && selectedLongitude == old(selectedLongitude)
      ensures hiddenKoordinat == old(hiddenKoordinat)
    {
      if deleteKoordinat.Some? {
        koordinatList := RemoveById(koordinatList, KoordinatId, deleteKoordinat.value.id);
        deleteKoordinat := None;
      }
    }

    /** `toggleKoordinatVisibility`: hides a shown point or shows a hidden one; the list is untouched. */
    method ToggleKoordinatVisibility(id: int)
      modifies this
      ensures hiddenKoordinat == Toggled(old(hiddenKoordinat), id)
      ensures koordinatList == old(koordinatList) && isKoordinatFormOpen == old(isKoordinatFormOpen)
      ensures editingKoordinat == old(editingKoordinat) && deleteKoordinat == old(deleteKoordinat)
      ensures selectedLatitude == old(selectedLatitude) && selectedLongitude == old(selectedLongitude)
    {
      var newSet := hiddenKoordinat;
      if id in newSet {
        newSet := newSet - {id};
      } else {
        newSet := newSet + {id};
      }
      hiddenKoordinat := newSet;
    }
  }
}
