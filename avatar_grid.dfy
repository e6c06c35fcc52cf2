/** The selection logic of the avatar grid (src/features/avatars/AvatarGrid.tsx):
    what a click on a card does to the selection, or to the detail view. */
module AvatarGrid {

  /** The default of the `maxSelection` property. */
  const DefaultMaxSelection: int := 8

  /** `ids.filter(x => x !== id)`. */
  function Without(ids: seq<string>, id: string): (r: seq<string>)
    ensures |r| <= |ids|
  {
    if ids == [] then []
    else Without(ids[..|ids| - 1], id) + (if ids[|ids| - 1] == id then [] else [ids[|ids| - 1]])
  }

  /** Exactly the other ids remain. */
  lemma {:induction false} WithoutMembers(ids: seq<string>, id: string)
    ensures forall x :: x in Without(ids, id) <==> x in ids && x != id
  {
    if ids != [] {
      WithoutMembers(ids[..|ids| - 1], id);
      assert ids == ids[..|ids| - 1] + [ids[|ids| - 1]];
    }
  }

  /** The remaining ids keep their order: filtering a concatenation filters
      each part. */
  lemma {:induction false} WithoutAppend(a: seq<string>, b: seq<string>, id: string)
    ensures Without(a + b, id) == Without(a, id) + Without(b, id)
    decreases |b|
  {
    if b == [] {
      assert a + b == a;
    } else {
      var init := b[..|b| - 1];
      assert (a + b)[..|a + b| - 1] == a + init;
      WithoutAppend(a, init, id);
    }
  }

  /** Filtering out an id that is not there changes nothing. */
  lemma {:induction false} WithoutAbsent(ids: seq<string>, id: string)
    requires id !in ids
    ensures Without(ids, id) == ids
  {
    if ids != [] {
      WithoutAbsent(ids[..|ids| - 1], id);
      assert ids == ids[..|ids| - 1] + [ids[|ids| - 1]];
    }
  }

  /** The selection after a click on `id`: a selected id is removed, another
      is appended while the selection is below `max`. */
  function Toggle(selected: seq<string>, id: string, max: int): (r: seq<string>)
    ensures id in selected ==> id !in r
    ensures id !in selected && |selected| < max ==> r == selected + [id]
    ensures id !in selected && |selected| >= max ==> r == selected
  {
    if id in selected then (WithoutMembers(selected, id); Without(selected, id))
    else if |selected| < max then selected + [id]
    else selected
  }

  /** A selection within the limit stays within it. */
  lemma ToggleWithinLimit(selected: seq<string>, id: string, max: int)
    requires |selected| <= max
    ensures |Toggle(selected, id, max)| <= max
  {
  }

  /** Clicking an unselected card twice gives the selection back, when there
      was room for it. */
  lemma ToggleTwice(selected: seq<string>, id: string, max: int)
    requires id !in selected && |selected| < max
    ensures Toggle(Toggle(selected, id, max), id, max) == selected
  {
    WithoutAppend(selected, [id], id);
    WithoutAbsent(selected, id);
    assert Without([id], id) == [];
  }

  /** What a click does. */
  datatype Click =
    | SelectionChange(ids: seq<string>)   // onSelectionChange is called with ids
    | NoChange                            // the selection is full
    | ShowDetail(avatarId: string)        // the detail drawer opens on the avatar

  /** handleCardClick, given the properties and the clicked avatar's id. */
  function HandleCardClick(selectionMode: bool, hasCallback: bool, selectedIds: seq<string>,
                           maxSelection: int, avatarId: string): (r: Click)
    ensures !(selectionMode && hasCallback) <==> r == ShowDetail(avatarId)
    ensures r.SelectionChange? ==> r.ids == Toggle(selectedIds, avatarId, maxSelection)
    ensures r == NoChange <==> selectionMode && hasCallback && avatarId !in selectedIds && |selectedIds| >= maxSelection
  {
    if selectionMode && hasCallback then
      if avatarId in selectedIds then SelectionChange(Without(selectedIds, avatarId))
      else if |selectedIds| < maxSelection then SelectionChange(selectedIds + [avatarId])
      else NoChange
    else ShowDetail(avatarId)
  }

  /** Removing the one occurrence of an id leaves the ids around it. */
  lemma WithoutSplit(before: seq<string>, id: string, after: seq<string>)
    requires id !in before && id !in after
    ensures Without(before + [id] + after, id) == before + after
  {
    var one := [id];
    assert Without(one, id) == [] by {
      assert one[..0] == [];
    }
    WithoutAppend(before, one, id);
    WithoutAbsent(before, id);
    assert Without(before + one, id) == before;
    WithoutAppend(before + one, after, id);
    WithoutAbsent(after, id);
    assert Without(before + one + after, id) == before + after;
  }

  /** Deselecting removes exactly the clicked id and keeps the others in
      order. */
  lemma DeselectKeepsOthers(before: seq<string>, after: seq<string>, maxSelection: int, avatarId: string)
    requires avatarId !in before && avatarId !in after
    ensures HandleCardClick(true, true, before + [avatarId] + after, maxSelection, avatarId)
            == SelectionChange(before + after)
  {
    var selected := before + [avatarId] + after;
    assert selected[|before|] == avatarId;
    WithoutSplit(before, avatarId, after);
  }
}
