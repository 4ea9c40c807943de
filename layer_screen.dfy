/** The map-settings screen for demographic layers: add, edit and delete through a form that
    checks the colour first, a per-layer visibility switch, and the property labels. The layer
    list belongs to the parent settings page; this screen replaces it through its setter. */
module LayerScreen {
  import opened Sequences
  import opened Text
  import opened Records
  import opened ListEditing

  /** What the layer form submits. */
  datatype LayerForm = LayerForm(nama: string, warna: string, properti: string, rentangNilai: string)

  function LayerId(l: LayerDemografi): int { l.id }

  /** The `properti` choices of the form, each a value and the label the form shows for it. */
  const PROPERTY_OPTIONS: seq<(string, string)> := [
    ("populasi", "Kepadatan Populasi"),
    ("pendidikan", "Tingkat Pendidikan"),
    ("ekonomi", "Status Ekonomi"),
    ("kesehatan", "Fasilitas Kesehatan"),
    ("infrastruktur", "Infrastruktur"),
    ("pertanian", "Area Pertanian")
  ]

  /** `getPropertyLabel`: every property the form offers is shown under the label the form gives
      it, and any other property under its own name. */
  function GetPropertyLabel(properti: string): (shown: string)
    ensures forall i | 0 <= i < |PROPERTY_OPTIONS| :: properti == PROPERTY_OPTIONS[i].0 ==> shown == PROPERTY_OPTIONS[i].1
    ensures (forall i | 0 <= i < |PROPERTY_OPTIONS| :: PROPERTY_OPTIONS[i].0 != properti) ==> shown == properti
  {
    assert (forall i | 0 <= i < |PROPERTY_OPTIONS| :: PROPERTY_OPTIONS[i].0 != properti) ==>
             && PROPERTY_OPTIONS[0].0 != properti && PROPERTY_OPTIONS[1].0 != properti
             && PROPERTY_OPTIONS[2].0 != properti && PROPERTY_OPTIONS[3].0 != properti
             && PROPERTY_OPTIONS[4].0 != properti && PROPERTY_OPTIONS[5].0 != properti;
    match properti
    case "populasi" => "Kepadatan Populasi"
    case "pendidikan" => "Tingkat Pendidikan"
    case "ekonomi" => "Status Ekonomi"
    case "kesehatan" => "Fasilitas Kesehatan"
    case "infrastruktur" => "Infrastruktur"
    case "pertanian" => "Area Pertanian"
    case _ => properti
  }

  /** The layer `handleAddLayer` appends: an id above every existing one, the name and range
      trimmed, the colour upper-cased, and shown on the map. */
  function NewLayer(layers: seq<LayerDemografi>, data: LayerForm): (l: LayerDemografi)
    ensures forall i | 0 <= i < |layers| :: layers[i].id < l.id
    ensures l.id >= 1 && l.visible
    ensures l.nama == Trim(data.nama) && l.rentangNilai == Trim(data.rentangNilai)
    ensures l.warna == ToUpper(data.warna) && l.properti == data.properti
  {
    var ids := Map(layers, LayerId);
    assert forall i | 0 <= i < |layers| :: ids[i] == layers[i].id;
    LayerDemografi(NextListId(ids), Trim(data.nama), ToUpper(data.warna), data.properti,
                   Trim(data.rentangNilai), true)
  }

  /** The layer `handleEditLayer` stores: the form over the edited layer, keeping its id and its
      visibility. */
  function EditedLayer(editing: LayerDemografi, data: LayerForm): (l: LayerDemografi)
    ensures l.id == editing.id && l.visible == editing.visible
    ensures l.nama == Trim(data.nama) && l.rentangNilai == Trim(data.rentangNilai)
    ensures l.warna == ToUpper(data.warna) && l.properti == data.properti
  {
    editing.(nama := Trim(data.nama), warna := ToUpper(data.warna), properti := data.properti,
             rentangNilai := Trim(data.rentangNilai))
  }

  /** The list after submitting the form: unchanged for an invalid colour; otherwise the edited
      layer replaces its id when one is being edited, else a new layer is appended. */
  function SubmittedLayers(layers: seq<LayerDemografi>, editing: Option<LayerDemografi>, data: LayerForm): (r: seq<LayerDemografi>)
    ensures !ValidateHexColor(data.warna) ==> r == layers
    ensures ValidateHexColor(data.warna) && editing.None? ==>
              |r| == |layers| + 1 && r[..|layers|] == layers && r[|layers|] == NewLayer(layers, data)
    ensures editing.Some? ==> Map(r, LayerId) == Map(layers, LayerId)
    ensures ValidateHexColor(data.warna) && editing.Some? ==>
              forall i | 0 <= i < |layers| ::
                r[i] == if layers[i].id == editing.value.id then EditedLayer(editing.value, data) else layers[i]
  {
    if !ValidateHexColor(data.warna) then layers
    else if editing.Some? then
      var edited := EditedLayer(editing.value, data);
      ReplaceByIdKeepsIds(layers, LayerId, editing.value.id, edited);
      ReplaceById(layers, LayerId, editing.value.id, edited)
    else layers + [NewLayer(layers, data)]
  }

  /** A valid colour is stored in a form that is still valid, and a submission keeps the layer
      ids distinct. */
  lemma SubmitKeepsLayersValid(layers: seq<LayerDemografi>, editing: Option<LayerDemografi>, data: LayerForm)
    requires DistinctKeys(layers, LayerId)
    ensures DistinctKeys(SubmittedLayers(layers, editing, data), LayerId)
    ensures ValidateHexColor(data.warna) ==> ValidateHexColor(ToUpper(data.warna))
  {
    UpperKeepsValid(data.warna);
    if ValidateHexColor(data.warna) {
      if editing.Some? {
        ReplaceByIdKeepsIds(layers, LayerId, editing.value.id, EditedLayer(editing.value, data));
      } else {
        AppendNextKeepsDistinct(layers, LayerId, NewLayer(layers, data));
      }
    }
  }

  /** The update `toggleLayerVisibility` applies to the layer with the id. */
  function FlipVisible(l: LayerDemografi): LayerDemografi {
    l.(visible := !l.visible)
  }

  /** `toggleLayerVisibility`: flips `visible` on the layers with the id and leaves every other
      layer, and every other property, as it was. */
  function ToggledLayers(layers: seq<LayerDemografi>, id: int): (r: seq<LayerDemografi>)
    ensures |r| == |layers|
    ensures forall i | 0 <= i < |layers| && layers[i].id == id :: r[i] == layers[i].(visible := !layers[i].visible)
    ensures forall i | 0 <= i < |layers| && layers[i].id != id :: r[i] == layers[i]
  {
    MapWhere(layers, KeyIs(LayerId, id), FlipVisible)
  }

  /** Toggling the same layer twice restores the list. */
  lemma ToggleTwiceRestores(layers: seq<LayerDemografi>, id: int)
    ensures ToggledLayers(ToggledLayers(layers, id), id) == layers
  {
    MapWhereTwice(layers, KeyIs(LayerId, id), FlipVisible);
  }

  /** The screen's state: the layer list and the form and delete dialogs. */
  class LayerManagement {
    var layerList: seq<LayerDemografi>
    var isLayerFormOpen: bool
    var editingLayer: Option<LayerDemografi>
    var deleteLayer: Option<LayerDemografi>

    /** The screen as first shown over the parent's list. */
    constructor (layers: seq<LayerDemografi>)
      ensures layerList == layers && !isLayerFormOpen && editingLayer == None && deleteLayer == None
    {
      layerList := layers;
      isLayerFormOpen := false;
      editingLayer := None;
      deleteLayer := None;
    }

    /** The add button: opens the form. */
    method OpenAddForm()
      modifies this
      ensures isLayerFormOpen
      ensures layerList == old(layerList) && editingLayer == old(editingLayer) && deleteLayer == old(deleteLayer)
    {
      isLayerFormOpen := true;
    }

    /** A layer's edit button: opens the form on that layer. */
    method OpenEditForm(layer: LayerDemografi)
      modifies this
      ensures isLayerFormOpen && editingLayer == Some(layer)
      ensures layerList == old(layerList) && deleteLayer == old(deleteLayer)
    {
      editingLayer := Some(layer);
      isLayerFormOpen := true;
    }

    /** Closing the form drops the layer being edited. */
    method CloseForm()
      modifies this
      ensures !isLayerFormOpen && editingLayer == None
      ensures layerList == old(layerList) && deleteLayer == old(deleteLayer)
    {
      isLayerFormOpen := false;
      editingLayer := None;
    }

    /** A layer's delete button: asks for confirmation. */
    method RequestDelete(layer: LayerDemografi)
      modifies this
      ensures deleteLayer == Some(layer)
      ensures layerList == old(layerList) && isLayerFormOpen == old(isLayerFormOpen) && editingLayer == old(editingLayer)
    {
      deleteLayer := Some(layer);
    }

    /** Dismissing the confirmation dialog: no layer awaits deletion and nothing else changes. */
    method CancelDelete()
      modifies this
      ensures deleteLayer == None
      ensures layerList == old(layerList) && isLayerFormOpen == old(isLayerFormOpen) && editingLayer == old(editingLayer)
    {
      deleteLayer := None;
    }

    /** `handleAddLayer`: with an invalid colour nothing changes and `false` is returned; otherwise the
        new layer is appended and the form closes. */
    method HandleAddLayer(data: LayerForm) returns (saved: bool)
      modifies this
      ensures saved == ValidateHexColor(data.warna)
      ensures !saved ==> layerList == old(layerList) && isLayerFormOpen == old(isLayerFormOpen)
      ensures saved ==> layerList == old(layerList) + [NewLayer(old(layerList), data)] && !isLayerFormOpen
      ensures editingLayer == old(editingLayer) && deleteLayer == old(deleteLayer)
    {
      if !ValidateHexColor(data.warna) {
        return false;
      }
      var newLayer := LayerDemografi(NextListId(Map(layerList, LayerId)), Trim(data.nama), ToUpper(data.warna),
                                     data.properti, Trim(data.rentangNilai), true);
      layerList := layerList + [newLayer];
      isLayerFormOpen := false;
      saved := true;
    }

    /** `handleEditLayer`: without a layer being edited, or with an invalid colour, nothing changes;
        otherwise the edited layer replaces its id, the form closes and the editing slot clears. */
    method HandleEditLayer(data: LayerForm) returns (saved: bool)
      modifies this
      ensures saved == (old(editingLayer).Some? && ValidateHexColor(data.warna))
      ensures !saved ==> layerList == old(layerList) && isLayerFormOpen == old(isLayerFormOpen) && editingLayer == old(editingLayer)
      ensures saved ==> layerList == ReplaceById(old(layerList), LayerId, old(editingLayer).value.id,
                                                 EditedLayer(old(editingLayer).value, data))
                        && !isLayerFormOpen && editingLayer == None
      ensures deleteLayer == old(deleteLayer)
    {
      if editingLayer.None? {
        return false;
      }
      if !ValidateHexColor(data.warna) {
        return false;
      }
      var editing := editingLayer.value;
      var updated := editing.(nama := Trim(data.nama), warna := ToUpper(data.warna), properti := data.properti,
                              rentangNilai := Trim(data.rentangNilai));
      layerList := ReplaceById(layerList, LayerId, editing.id, updated);
      editingLayer := None;
      isLayerFormOpen := false;
      saved := true;
    }

    /** The form's submit: edits when a layer is being edited, adds otherwise. The form component
        then always calls its `onClose`, so the form closes and the edited layer is dropped even
        when the colour was rejected. */
    method Submit(data: LayerForm) returns (saved: bool)
      modifies this
      ensures saved == ValidateHexColor(data.warna)
      ensures layerList == SubmittedLayers(old(layerList), old(editingLayer), data)
      ensures !isLayerFormOpen && editingLayer == None
      ensures deleteLayer == old(deleteLayer)
    {
      if editingLayer.Some? {
        saved := HandleEditLayer(data);
      } else {
        saved := HandleAddLayer(data);
      }
      CloseForm();
    }

    /** `handleDeleteLayer`: removes every layer with the confirmed layer's id and clears the
        confirmation; without one, nothing changes. */
    method HandleDeleteLayer()
      modifies this
      ensures old(deleteLayer).Some? ==> layerList == RemoveById(old(layerList), LayerId, old(deleteLayer).value.id)
      ensures old(deleteLayer).None? ==> layerList == old(layerList)
      ensures deleteLayer == None
      ensures isLayerFormOpen == old(isLayerFormOpen) && editingLayer == old(editingLayer)
    {
      if deleteLayer.Some? {
        layerList := RemoveById(layerList, LayerId, deleteLayer.value.id);
        deleteLayer := None;
      }
    }

    /** `toggleLayerVisibility`. */
    method ToggleLayerVisibility(id: int)
      modifies this
      ensures layerList == ToggledLayers(old(layerList), id)
      ensures isLayerFormOpen == old(isLayerFormOpen) && editingLayer == old(editingLayer) && deleteLayer == old(deleteLayer)
    {
      layerList := MapWhere(layerList, KeyIs(LayerId, id), FlipVisible);
    }
  }
}
