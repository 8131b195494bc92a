/** `src/context/EarthquakeContext.tsx`: the selection shared by the chart and the table. */
module EarthquakeContext {
  import opened Wrappers
  import opened Types

  /** The provider's `selection` state; its two setters overwrite one field each and
      accept any id, or `null`, without checking it against the data. */
  class SelectionContext {
    var selectedId: Option<string>
    var hoveredId: Option<string>

    /** The provider starts with nothing selected and nothing hovered. */
    constructor ()
      ensures selectedId == None && hoveredId == None
    {
      selectedId := None;
      hoveredId := None;
    }

    /** What a consumer reads as `selection`. */
    function Selection(): SelectionState
      reads this
    {
      SelectionState(selectedId, hoveredId)
    }

    method SetSelectedId(id: Option<string>)
      modifies this
      ensures selectedId == id && hoveredId == old(hoveredId)
    {
      selectedId := id;
    }

    method SetHoveredId(id: Option<string>)
      modifies this
      ensures hoveredId == id && selectedId == old(selectedId)
    {
      hoveredId := id;
    }
  }

  /** One call of a setter, as a value. */
  datatype SelectionWrite = WriteSelected(selected: Option<string>) | WriteHovered(hovered: Option<string>)

  function ApplyWrite(state: SelectionState, w: SelectionWrite): SelectionState
  {
    match w
    case WriteSelected(id) => state.(selectedId := id)
    case WriteHovered(id) => state.(hoveredId := id)
  }

  /** The selection after the writes, applied first to last. */
  function Apply(state: SelectionState, writes: seq<SelectionWrite>): SelectionState
  {
    if writes == [] then state
    else ApplyWrite(Apply(state, writes[..|writes| - 1]), writes[|writes| - 1])
  }

  /** Calls the setters in order, as the provider's consumers do. */
  method ApplyWrites(ctx: SelectionContext, writes: seq<SelectionWrite>)
    modifies ctx
    ensures ctx.Selection() == Apply(old(ctx.Selection()), writes)
  {
    ghost var initial := ctx.Selection();
    for i := 0 to |writes|
      invariant ctx.Selection() == Apply(initial, writes[..i])
    {
      assert writes[..i + 1][..i] == writes[..i];
      match writes[i]
      case WriteSelected(id) => ctx.SetSelectedId(id);
      case WriteHovered(id) => ctx.SetHoveredId(id);
    }
    assert writes[..|writes|] == writes;
  }

  /** The selection is the id of the last selection write, or the old selection if there
      was none; hover writes never change it. */
  lemma {:induction false} LastSelectionWins(state: SelectionState, writes: seq<SelectionWrite>)
    ensures (forall k :: 0 <= k < |writes| ==> writes[k].WriteHovered?) ==>
      Apply(state, writes).selectedId == state.selectedId
    ensures forall k :: 0 <= k < |writes| && writes[k].WriteSelected?
                        && (forall j :: k < j < |writes| ==> writes[j].WriteHovered?) ==>
      Apply(state, writes).selectedId == writes[k].selected
  {
    if writes != [] {
      var n := |writes|;
      var init, w := writes[..n - 1], writes[n - 1];
      LastSelectionWins(state, init);
      assert Apply(state, writes) == ApplyWrite(Apply(state, init), w);
      forall k | 0 <= k < n && writes[k].WriteSelected? && (forall j :: k < j < n ==> writes[j].WriteHovered?)
        ensures Apply(state, writes).selectedId == writes[k].selected
      {
        if k < n - 1 {
          assert w.WriteHovered?;
          assert init[k] == writes[k];
          assert forall j :: k < j < n - 1 ==> init[j] == writes[j];
        }
      }
      if forall k :: 0 <= k < n ==> writes[k].WriteHovered? {
        assert w.WriteHovered?;
        assert forall k :: 0 <= k < n - 1 ==> init[k] == writes[k];
      }
    }
  }


  /** The hover is the id of the last hover write, or the old hover if there was none;
      selection writes never change it. */
  lemma {:induction false} LastHoverWins(state: SelectionState, writes: seq<SelectionWrite>)
    ensures (forall k :: 0 <= k < |writes| ==> writes[k].WriteSelected?) ==>
      Apply(state, writes).hoveredId == state.hoveredId
    ensures forall k :: 0 <= k < |writes| && writes[k].WriteHovered?
                        && (forall j :: k < j < |writes| ==> writes[j].WriteSelected?) ==>
      Apply(state, writes).hoveredId == writes[k].hovered
  {
    if writes != [] {
      var n := |writes|;
      var init, w := writes[..n - 1], writes[n - 1];
      LastHoverWins(state, init);
      assert Apply(state, writes) == ApplyWrite(Apply(state, init), w);
      forall k | 0 <= k < n && writes[k].WriteHovered? && (forall j :: k < j < n ==> writes[j].WriteSelected?)
        ensures Apply(state, writes).hoveredId == writes[k].hovered
      {
        if k < n - 1 {
          assert w.WriteSelected?;
          assert init[k] == writes[k];
          assert forall j :: k < j < n - 1 ==> init[j] == writes[j];
        }
      }
      if forall k :: 0 <= k < n ==> writes[k].WriteSelected? {
        assert w.WriteSelected?;
        assert forall k :: 0 <= k < n - 1 ==> init[k] == writes[k];
      }
    }
  }


  /** Selecting and hovering commute: swapping an adjacent selection write and hover write
      anywhere in a sequence of writes leaves the final selection unchanged. */
  lemma SettersCommute(state: SelectionState, before: seq<SelectionWrite>, after: seq<SelectionWrite>,
                       selected: Option<string>, hovered: Option<string>)
    ensures Apply(state, before + [WriteSelected(selected), WriteHovered(hovered)] + after)
         == Apply(state, before + [WriteHovered(hovered), WriteSelected(selected)] + after)
  {
    var sh := [WriteSelected(selected), WriteHovered(hovered)];
    var hs := [WriteHovered(hovered), WriteSelected(selected)];
    var mid := Apply(state, before);
    assert sh[..1] == [sh[0]] && hs[..1] == [hs[0]];
    assert [sh[0]][..0] == [] && [hs[0]][..0] == [];
    assert Apply(mid, sh) == Apply(mid, hs);
    ApplyAppend(state, before, sh);
    ApplyAppend(state, before, hs);
    ApplyAppend(state, before + sh, after);
    ApplyAppend(state, before + hs, after);
  }

  /** Applying `u + v` is applying `u`, then `v`. */
  lemma {:induction false} ApplyAppend(state: SelectionState, u: seq<SelectionWrite>, v: seq<SelectionWrite>)
    ensures Apply(state, u + v) == Apply(Apply(state, u), v)
  {
    if v == [] {
      assert u + v == u;
    } else {
      var v0 := v[..|v| - 1];
      ApplyAppend(state, u, v0);
      assert (u + v)[..|u + v| - 1] == u + v0;
    }
  }

  /** `useEarthquakeContext`: outside a provider the hook throws, inside it returns the context. */
  function UseEarthquakeContext(provided: Option<SelectionContext>): (r: Result<SelectionContext, string>)
    ensures r.Success? <==> provided.Some?
    ensures r.Success? ==> r.value == provided.value
    ensures r.Failure? ==> r.error == "useEarthquakeContext must be used within an EarthquakeProvider"
  {
    match provided
    case None => Failure("useEarthquakeContext must be used within an EarthquakeProvider")
    case Some(ctx) => Success(ctx)
  }

  /** How a view emphasises a record: selection takes precedence over hover. */
  datatype Emphasis = Selected | Hovered | Plain

  /** `isSelected` / `isHovered` as both views compute them. */
  function EmphasisOf(selection: SelectionState, id: string): (e: Emphasis)
    ensures e == Selected <==> selection.selectedId == Some(id)
    ensures e == Hovered <==> selection.selectedId != Some(id) && selection.hoveredId == Some(id)
    ensures e == Plain <==> selection.selectedId != Some(id) && selection.hoveredId != Some(id)
  {
    if selection.selectedId == Some(id) then Selected
    else if selection.hoveredId == Some(id) then Hovered
    else Plain
  }

  /** An id naming no record has no visual effect: no record is emphasised because of it. */
  lemma UnknownIdsEmphasiseNothing(selection: SelectionState, data: seq<Quake>)
    requires selection.selectedId.Some? ==> forall q :: q in data ==> q.id != selection.selectedId.value
    requires selection.hoveredId.Some? ==> forall q :: q in data ==> q.id != selection.hoveredId.value
    ensures forall q :: q in data ==> EmphasisOf(selection, q.id) == Plain
  {
  }
}
