/** The map-settings screen for legend entries: add, edit and delete through a form that checks
    the colour first, and the grouping of the entries by category that the screen renders. The
    legend list belongs to the parent settings page; this screen replaces it through its setter. */
module LegendScreen {
  import opened Sequences
  import opened Text
  import opened Records
  import opened ListEditing

  /** What the legend form submits; `labelText` is the form's `label` field. */
  datatype LegendForm = LegendForm(labelText: string, warna: string, simbol: string, kategori: string)

  function LegendaId(l: LegendaItem): int { l.id }

  /** The entry `handleAddLegenda` appends: an id above every existing one, the label trimmed and
      the colour upper-cased. */
  function NewLegenda(legendas: seq<LegendaItem>, data: LegendForm): (l: LegendaItem)
    ensures forall i | 0 <= i < |legendas| :: legendas[i].id < l.id
    ensures l.id >= 1
    ensures l.labelText == Trim(data.labelText) && l.warna == ToUpper(data.warna)
    ensures l.simbol == data.simbol && l.kategori == data.kategori
  {
    var ids := Map(legendas, LegendaId);
    assert forall i | 0 <= i < |legendas| :: ids[i] == legendas[i].id;
    LegendaItem(NextListId(ids), Trim(data.labelText), ToUpper(data.warna), data.simbol, data.kategori)
  }

  /** The entry `handleEditLegenda` stores: the form over the edited entry, keeping its id. */
  function EditedLegenda(editing: LegendaItem, data: LegendForm): (l: LegendaItem)
    ensures l.id == editing.id
    ensures l.labelText == Trim(data.labelText) && l.warna == ToUpper(data.warna)
    ensures l.simbol == data.simbol && l.kategori == data.kategori
  {
    editing.(labelText := Trim(data.labelText), warna := ToUpper(data.warna), simbol := data.simbol,
             kategori := data.kategori)
  }

  /** The list after submitting the form: unchanged for an invalid colour; otherwise the edited
      entry replaces its id when one is being edited, else a new entry is appended. */
  function SubmittedLegendas(legendas: seq<LegendaItem>, editing: Option<LegendaItem>, data: LegendForm): (r: seq<LegendaItem>)
    ensures !ValidateHexColor(data.warna) ==> r == legendas
    ensures ValidateHexColor(data.warna) && editing.None? ==>
              |r| == |legendas| + 1 && r[..|legendas|] == legendas && r[|legendas|] == NewLegenda(legendas, data)
    ensures editing.Some? ==> Map(r, LegendaId) == Map(legendas, LegendaId)
    ensures ValidateHexColor(data.warna) && editing.Some? ==>
              forall i | 0 <= i < |legendas| ::
                r[i] == if legendas[i].id == editing.value.id then EditedLegenda(editing.value, data) else legendas[i]
  {
    if !ValidateHexColor(data.warna) then legendas
    else if editing.Some? then
      var edited := EditedLegenda(editing.value, data);
      ReplaceByIdKeepsIds(legendas, LegendaId, editing.value.id, edited);
      ReplaceById(legendas, LegendaId, editing.value.id, edited)
    else legendas + [NewLegenda(legendas, data)]
  }

  /** A submission keeps the legend ids distinct, and a stored colour passes the check again. */
  lemma SubmitKeepsLegendasValid(legendas: seq<LegendaItem>, editing: Option<LegendaItem>, data: LegendForm)
    requires DistinctKeys(legendas, LegendaId)
    ensures DistinctKeys(SubmittedLegendas(legendas, editing, data), LegendaId)
    ensures ValidateHexColor(data.warna) ==> ValidateHexColor(ToUpper(data.warna))
  {
    UpperKeepsValid(data.warna);
    if ValidateHexColor(data.warna) {
      if editing.Some? {
        ReplaceByIdKeepsIds(legendas, LegendaId, editing.value.id, EditedLegenda(editing.value, data));
      } else {
        AppendNextKeepsDistinct(legendas, LegendaId, NewLegenda(legendas, data));
      }
    }
  }

  /** One entry of `groupedLegendasByCategory`: a category and the entries filed under it. The
      groups are kept in a sequence because the screen renders them with `Object.entries`, in the
      order their categories were first met. */
  datatype Group = Group(kategori: string, items: seq<LegendaItem>)

  function InKategori(kategori: string): LegendaItem -> bool {
    (l: LegendaItem) => l.kategori == kategori
  }

  function HasKategori(kategori: string): Group -> bool {
    (g: Group) => g.kategori == kategori
  }

  /** `groups[kategori]`: the position of the category's group, or -1 when it has none yet. */
  function GroupIndex(groups: seq<Group>, kategori: string): int {
    FindIndex(groups, HasKategori(kategori))
  }

  /** One step of the `reduce`: the entry is pushed onto its category's group, which is created
      at the end when the category is new. */
  function AddToGroups(groups: seq<Group>, legenda: LegendaItem): seq<Group> {
    var j := GroupIndex(groups, legenda.kategori);
    if j == -1 then groups + [Group(legenda.kategori, [legenda])]
    else groups[j := Group(legenda.kategori, groups[j].items + [legenda])]
  }

  /** The grouping of a whole list, one entry at a time from the front: at most one group per
      entry, and no group exactly for an empty list. */
  function Grouped(legendas: seq<LegendaItem>): (groups: seq<Group>)
    ensures |groups| <= |legendas|
    ensures groups == [] <==> legendas == []
    decreases |legendas|
  {
    if legendas == [] then []
    else AddToGroups(Grouped(legendas[..|legendas| - 1]), legendas[|legendas| - 1])
  }

  /** The total number of entries over all groups. */
  function GroupSizes(groups: seq<Group>): nat
    decreases |groups|
  {
    if groups == [] then 0
    else GroupSizes(groups[..|groups| - 1]) + |groups[|groups| - 1].items|
  }

  /** `groups` is a grouping of `legendas` by category: one group per category, each holding
      exactly the entries of that category in list order and none of them empty, and a group for
      every entry's category. */
  predicate GroupsOf(groups: seq<Group>, legendas: seq<LegendaItem>) {
    && DistinctKategori(groups)
    && (forall j | 0 <= j < |groups| :: groups[j].items == Filter(legendas, InKategori(groups[j].kategori)))
    && (forall j | 0 <= j < |groups| :: groups[j].items != [])
    && (forall i | 0 <= i < |legendas| :: GroupIndex(groups, legendas[i].kategori) != -1)
  }

  /** Changing one group's size changes the total by the difference. */
  lemma {:induction false} GroupSizesUpdate(groups: seq<Group>, j: int, g: Group)
    requires 0 <= j < |groups|
    ensures GroupSizes(groups[j := g]) == GroupSizes(groups) - |groups[j].items| + |g.items|
    decreases |groups|
  {
    var n := |groups| - 1;
    var updated := groups[j := g];
    if j < n {
      assert updated[..n] == groups[..n][j := g];
      GroupSizesUpdate(groups[..n], j, g);
    } else {
      assert updated[..n] == groups[..n];
    }
  }

  /** Filtering a list none of whose entries has the category gives nothing. */
  lemma {:induction false} FilterNoneOfKategori(legendas: seq<LegendaItem>, kategori: string)
    requires forall i | 0 <= i < |legendas| :: legendas[i].kategori != kategori
    ensures Filter(legendas, InKategori(kategori)) == []
  {
    if legendas != [] {
      assert forall i | 0 <= i < |legendas[1..]| :: legendas[1..][i] == legendas[i + 1];
      FilterNoneOfKategori(legendas[1..], kategori);
    }
  }

  /** Filtering a list with one more entry at the end. */
  lemma FilterSnoc(legendas: seq<LegendaItem>, x: LegendaItem, kategori: string)
    ensures Filter(legendas + [x], InKategori(kategori))
            == Filter(legendas, InKategori(kategori)) + (if x.kategori == kategori then [x] else [])
  {
    FilterAppend(legendas, [x], InKategori(kategori));
    assert Filter([x], InKategori(kategori)) == (if x.kategori == kategori then [x] else []) + Filter([], InKategori(kategori));
  }

  /** The groups' categories are pairwise different. */
  predicate DistinctKategori(groups: seq<Group>) {
    forall i, j | 0 <= i < j < |groups| :: groups[i].kategori != groups[j].kategori
  }

  /** A `reduce` step on an entry of a category not met before: its group is created at the end
      holding just that entry, and the total size grows by one. */
  lemma StepNewKategori(groups: seq<Group>, legendas: seq<LegendaItem>, x: LegendaItem)
    requires GroupsOf(groups, legendas)
    requires GroupIndex(groups, x.kategori) == -1
    ensures GroupsOf(groups + [Group(x.kategori, [x])], legendas + [x])
  {
    var after := groups + [Group(x.kategori, [x])];
    var all := legendas + [x];
    assert DistinctKategori(after) by {
      assert forall i | 0 <= i < |groups| :: groups[i].kategori != x.kategori;
    }
    forall i | 0 <= i < |legendas|
      ensures legendas[i].kategori != x.kategori
    {
      var t := GroupIndex(groups, legendas[i].kategori);
      assert groups[t].kategori == legendas[i].kategori;
    }
    forall k | 0 <= k < |after|
      ensures after[k].items == Filter(all, InKategori(after[k].kategori))
    {
      FilterSnoc(legendas, x, after[k].kategori);
      if k == |groups| {
        FilterNoneOfKategori(legendas, x.kategori);
      }
    }
    forall i | 0 <= i < |all|
      ensures GroupIndex(after, all[i].kategori) != -1
    {
      var t := if i < |legendas| then GroupIndex(groups, legendas[i].kategori) else |groups|;
      assert after[t].kategori == all[i].kategori;
    }
  }

  /** Pushing an entry onto the group of its category keeps each group equal to its category's
      entries. */
  lemma PushKeepsGroupItems(groups: seq<Group>, legendas: seq<LegendaItem>, x: LegendaItem, j: int)
    requires DistinctKategori(groups)
    requires forall k | 0 <= k < |groups| :: groups[k].items == Filter(legendas, InKategori(groups[k].kategori))
    requires 0 <= j < |groups| && groups[j].kategori == x.kategori
    ensures var after := groups[j := Group(x.kategori, groups[j].items + [x])];
            forall k | 0 <= k < |after| :: after[k].items == Filter(legendas + [x], InKategori(after[k].kategori))
  {
    var after := groups[j := Group(x.kategori, groups[j].items + [x])];
    forall k | 0 <= k < |after|
      ensures after[k].items == Filter(legendas + [x], InKategori(after[k].kategori))
    {
      FilterSnoc(legendas, x, after[k].kategori);
      if k != j {
        assert after[k] == groups[k] && groups[k].kategori != x.kategori;
        assert groups[k].items + [] == groups[k].items;
      }
    }
  }

  /** Pushing an entry onto the group of its category keeps the categories as they were, so every
      entry of the longer list still finds its group. */
  lemma PushKeepsKategori(groups: seq<Group>, legendas: seq<LegendaItem>, x: LegendaItem, j: int)
    requires DistinctKategori(groups)
    requires forall i | 0 <= i < |legendas| :: GroupIndex(groups, legendas[i].kategori) != -1
    requires 0 <= j < |groups| && groups[j].kategori == x.kategori
    ensures var after := groups[j := Group(x.kategori, groups[j].items + [x])];
            DistinctKategori(after)
            && forall i | 0 <= i < |legendas + [x]| :: GroupIndex(after, (legendas + [x])[i].kategori) != -1
  {
    var after := groups[j := Group(x.kategori, groups[j].items + [x])];
    var all := legendas + [x];
    assert forall k | 0 <= k < |groups| :: after[k].kategori == groups[k].kategori;
    forall i | 0 <= i < |all|
      ensures GroupIndex(after, all[i].kategori) != -1
    {
      var t := if i < |legendas| then GroupIndex(groups, legendas[i].kategori) else j;
      assert after[t].kategori == all[i].kategori;
    }
  }

  /** A `reduce` step on an entry of a category that has a group: the entry is pushed onto that
      group, the others stay as they are, and the total size grows by one. */
  lemma StepKnownKategori(groups: seq<Group>, legendas: seq<LegendaItem>, x: LegendaItem, j: int)
    requires GroupsOf(groups, legendas)
    requires j == GroupIndex(groups, x.kategori) && j != -1
    ensures GroupsOf(groups[j := Group(x.kategori, groups[j].items + [x])], legendas + [x])
  {
    PushKeepsGroupItems(groups, legendas, x, j);
    PushKeepsKategori(groups, legendas, x, j);
  }

  /** One `reduce` step adds one entry to the total size, whatever the groups. */
  lemma AddToGroupsSize(groups: seq<Group>, x: LegendaItem)
    ensures GroupSizes(AddToGroups(groups, x)) == GroupSizes(groups) + 1
  {
    var j := GroupIndex(groups, x.kategori);
    if j == -1 {
      var after := groups + [Group(x.kategori, [x])];
      assert after[..|groups|] == groups;
    } else {
      GroupSizesUpdate(groups, j, Group(x.kategori, groups[j].items + [x]));
    }
  }

  /** One `reduce` step turns a grouping of a list into a grouping of the list with the entry
      appended. */
  lemma AddToGroupsStep(groups: seq<Group>, legendas: seq<LegendaItem>, x: LegendaItem, all: seq<LegendaItem>)
    requires GroupsOf(groups, legendas)
    requires all == legendas + [x]
    ensures GroupsOf(AddToGroups(groups, x), all)
  {
    var j := GroupIndex(groups, x.kategori);
    if j == -1 {
      StepNewKategori(groups, legendas, x);
    } else {
      StepKnownKategori(groups, legendas, x, j);
    }
  }

  /** `groupedLegendasByCategory` files every entry under its own category: one group per
      category, each group holds exactly that category's entries in list order, and every entry's
      category has a group. */
  lemma {:induction false} GroupedIsGrouping(legendas: seq<LegendaItem>)
    ensures GroupsOf(Grouped(legendas), legendas)
    decreases |legendas|
  {
    if legendas != [] {
      var n := |legendas| - 1;
      var prefix := legendas[..n];
      GroupedIsGrouping(prefix);
      assert prefix + [legendas[n]] == legendas;
      AddToGroupsStep(Grouped(prefix), prefix, legendas[n], legendas);
    }
  }

  /** No entry is lost or filed twice: the group sizes add up to the number of entries. */
  lemma {:induction false} GroupedSizes(legendas: seq<LegendaItem>)
    ensures GroupSizes(Grouped(legendas)) == |legendas|
    decreases |legendas|
  {
    if legendas != [] {
      var n := |legendas| - 1;
      GroupedSizes(legendas[..n]);
      AddToGroupsSize(Grouped(legendas[..n]), legendas[n]);
    }
  }

  /** Within a group the entries keep the order they have in the list. */
  lemma GroupsKeepOrder(legendas: seq<LegendaItem>)
    ensures forall j | 0 <= j < |Grouped(legendas)| :: IsSubsequence(Grouped(legendas)[j].items, legendas)
  {
    var groups := Grouped(legendas);
    GroupedIsGrouping(legendas);
    forall j | 0 <= j < |groups|
      ensures IsSubsequence(groups[j].items, legendas)
    {
      FilterIsSubsequence(legendas, InKategori(groups[j].kategori));
    }
  }

  /** The `reduce` over the list, pushing each entry onto its category's group. */
  method GroupByCategory(legendas: seq<LegendaItem>) returns (groups: seq<Group>)
    ensures groups == Grouped(legendas)
  {
    groups := [];
    var i := 0;
    while i < |legendas|
      invariant 0 <= i <= |legendas|
      invariant groups == Grouped(legendas[..i])
    {
      var legenda := legendas[i];
      ghost var expected := AddToGroups(groups, legenda);
      var j := GroupIndex(groups, legenda.kategori);
      if j == -1 {
        groups := groups + [Group(legenda.kategori, [])];
        j := |groups| - 1;
        assert [] + [legenda] == [legenda];
      }
      groups := groups[j := Group(legenda.kategori, groups[j].items + [legenda])];
      assert groups == expected;
      assert legendas[..i + 1][..i] == legendas[..i];
      i := i + 1;
    }
    assert legendas[..i] == legendas;
  }

  /** The screen's state: the legend list and the form and delete dialogs. */
  class LegendManagement {
    var legendaList: seq<LegendaItem>
    var isLegendaFormOpen: bool
    var editingLegenda: Option<LegendaItem>
    var deleteLegenda: Option<LegendaItem>

    /** The screen as first shown over the parent's list. */
    constructor (legendas: seq<LegendaItem>)
      ensures legendaList == legendas && !isLegendaFormOpen && editingLegenda == None && deleteLegenda == None
    {
      legendaList := legendas;
      isLegendaFormOpen := false;
      editingLegenda := None;
      deleteLegenda := None;
    }

    /** `groupedLegendasByCategory`, the groups the screen renders: a grouping of the list by
        category that files every entry exactly once. */
    function GroupedLegendasByCategory(): (groups: seq<Group>)
      reads this
      ensures GroupsOf(groups, legendaList)
      ensures GroupSizes(groups) == |legendaList|
    {
      GroupedIsGrouping(legendaList);
      GroupedSizes(legendaList);
      Grouped(legendaList)
    }

    /** The add button: opens the form. */
    method OpenAddForm()
      modifies this
      ensures isLegendaFormOpen
      ensures legendaList == old(legendaList) && editingLegenda == old(editingLegenda) && deleteLegenda == old(deleteLegenda)
    {
      isLegendaFormOpen := true;
    }

    /** An entry's edit button: opens the form on that entry. */
    method OpenEditForm(legenda: LegendaItem)
      modifies this
      ensures isLegendaFormOpen && editingLegenda == Some(legenda)
      ensures legendaList == old(legendaList) && deleteLegenda == old(deleteLegenda)
    {
      editingLegenda := Some(legenda);
      isLegendaFormOpen := true;
    }

    /** Closing the form drops the entry being edited. */
    method CloseForm()
      modifies this
      ensures !isLegendaFormOpen && editingLegenda == None
      ensures legendaList == old(legendaList) && deleteLegenda == old(deleteLegenda)
    {
      isLegendaFormOpen := false;
      editingLegenda := None;
    }

    /** An entry's delete button: asks for confirmation. */
    method RequestDelete(legenda: LegendaItem)
      modifies this
      ensures deleteLegenda == Some(legenda)
      ensures legendaList == old(legendaList) && isLegendaFormOpen == old(isLegendaFormOpen)
      ensures editingLegenda == old(editingLegenda)
    {
      deleteLegenda := Some(legenda);
    }

    /** Dismissing the confirmation dialog: no entry awaits deletion and nothing else changes. */
    method CancelDelete()
      modifies this
      ensures deleteLegenda == None
      ensures legendaList == old(legendaList) && isLegendaFormOpen == old(isLegendaFormOpen)
      ensures editingLegenda == old(editingLegenda)
    {
      deleteLegenda := None;
    }

    /** `handleAddLegenda`: with an invalid colour nothing changes and `false` is returned; otherwise
        the new entry is appended and the form closes. */
    method HandleAddLegenda(data: LegendForm) returns (saved: bool)
      modifies this
      ensures saved == ValidateHexColor(data.warna)
      ensures !saved ==> legendaList == old(legendaList) && isLegendaFormOpen == old(isLegendaFormOpen)
      ensures saved ==> legendaList == old(legendaList) + [NewLegenda(old(legendaList), data)] && !isLegendaFormOpen
      ensures editingLegenda == old(editingLegenda) && deleteLegenda == old(deleteLegenda)
    {
      if !ValidateHexColor(data.warna) {
        return false;
      }
      var newLegenda := LegendaItem(NextListId(Map(legendaList, LegendaId)), Trim(data.labelText),
                                    ToUpper(data.warna), data.simbol, data.kategori);
      legendaList := legendaList + [newLegenda];
      isLegendaFormOpen := false;
      saved := true;
    }

    /** `handleEditLegenda`: without an entry being edited, or with an invalid colour, nothing
        changes; otherwise the edited entry replaces its id, the form closes and the editing slot
        clears. */
    method HandleEditLegenda(data: LegendForm) returns (saved: bool)
      modifies this
      ensures saved == (old(editingLegenda).Some? && ValidateHexColor(data.warna))
      ensures !saved ==> legendaList == old(legendaList) && isLegendaFormOpen == old(isLegendaFormOpen)
                         && editingLegenda == old(editingLegenda)
      ensures saved ==> legendaList == ReplaceById(old(legendaList), LegendaId, old(editingLegenda).value.id,
                                                   EditedLegenda(old(editingLegenda).value, data))
                        && !isLegendaFormOpen && editingLegenda == None
      ensures deleteLegenda == old(deleteLegenda)
    {
      if editingLegenda.None? {
        return false;
      }
      if !ValidateHexColor(data.warna) {
        return false;
      }
      var editing := editingLegenda.value;
      var updated := editing.(labelText := Trim(data.labelText), warna := ToUpper(data.warna),
                              simbol := data.simbol, kategori := data.kategori);
      legendaList := ReplaceById(legendaList, LegendaId, editing.id, updated);
      editingLegenda := None;
      isLegendaFormOpen := false;
      saved := true;
    }

    /** The form's submit: edits when an entry is being edited, adds otherwise. The form component
        then always calls its `onClose`, so the form closes and the edited entry is dropped even
        when the colour was rejected. */
    method Submit(data: LegendForm) returns (saved: bool)
      modifies this
      ensures saved == ValidateHexColor(data.warna)
      ensures legendaList == SubmittedLegendas(old(legendaList), old(editingLegenda), data)
      ensures !isLegendaFormOpen && editingLegenda == None
      ensures deleteLegenda == old(deleteLegenda)
    {
      if editingLegenda.Some? {
        saved := HandleEditLegenda(data);
      } else {
        saved := HandleAddLegenda(data);
      }
      CloseForm();
    }

    /** `handleDeleteLegenda`: removes every entry with the confirmed entry's id and clears the
        confirmation; without one, nothing changes. */
    method HandleDeleteLegenda()
      modifies this
      ensures old(deleteLegenda).Some? ==> legendaList == RemoveById(old(legendaList), LegendaId, old(deleteLegenda).value.id)
      ensures old(deleteLegenda).None? ==> legendaList == old(legendaList)
      ensures deleteLegenda == None
      ensures isLegendaFormOpen == old(isLegendaFormOpen) && editingLegenda == old(editingLegenda)
    {
      if deleteLegenda.Some? {
        legendaList := RemoveById(legendaList, LegendaId, deleteLegenda.value.id);
        deleteLegenda := None;
      }
    }
  }
}
