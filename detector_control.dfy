/**
 * The detector panel (DetectorControl): acquisition settings, and four
 * image-filter slots with a snapshot undo stack.
 */
module DetectorControl {

  /** The acquisition settings record. */
  datatype Acquisition = Acquisition(
    isLive: bool, isIntegrating: bool, fps: int, integrationFrames: int,
    gain: real, histogram: bool, exposure: int, delay: int)

  const InitialAcquisition := Acquisition(false, false, 30, 1, 1.0, false, 100, 0)

  const NoFilters: seq<string> := ["none", "none", "none", "none"]

  /** The filter slots and the stack of earlier slot arrays, most recent last. */
  datatype Filters = Filters(selected: seq<string>, history: seq<seq<string>>)

  /** `handleFilterChange(index, value)`: set one slot and push the previous array. */
  function FilterChange(f: Filters, index: nat, value: string): (r: Filters)
    requires index < |f.selected|
    ensures |r.selected| == |f.selected| && r.selected[index] == value
    ensures forall j :: 0 <= j < |f.selected| && j != index ==> r.selected[j] == f.selected[j]
    ensures |r.history| == |f.history| + 1 && r.history[..|f.history|] == f.history
    ensures r.history[|f.history|] == f.selected
  {
    Filters(f.selected[index := value], f.history + [f.selected])
  }

  /** `handleUndo`: pop the last snapshot, or with nothing to undo reset every slot to "none". */
  function Undo(f: Filters): (r: Filters)
    ensures f.history != [] ==> r.selected == f.history[|f.history| - 1] && r.history == f.history[..|f.history| - 1]
    ensures f.history == [] ==> r == Filters(NoFilters, [])
  {
    if |f.history| > 0 then Filters(f.history[|f.history| - 1], f.history[..|f.history| - 1])
    else Filters(NoFilters, f.history)
  }

  /** A change followed by an undo restores both the slots and the history. */
  lemma ChangeThenUndo(f: Filters, index: nat, value: string)
    requires index < |f.selected|
    ensures Undo(FilterChange(f, index, value)) == f
  {
  }

  /** Undo on an empty history is idempotent. */
  lemma UndoEmptyIdempotent(f: Filters)
    requires f.history == []
    ensures Undo(Undo(f)) == Undo(f)
  {
  }

  datatype FilterEvent = Change(index: nat, value: string) | UndoEvent

  predicate FourSlots(f: Filters) {
    |f.selected| == 4 && forall k :: 0 <= k < |f.history| ==> |f.history[k]| == 4
  }

  function Apply(f: Filters, e: FilterEvent): Filters {
    match e
    case Change(i, v) => if i < |f.selected| then FilterChange(f, i, v) else f
    case UndoEvent => Undo(f)
  }

  function ApplyAll(f: Filters, es: seq<FilterEvent>): Filters
    decreases |es|
  {
    if es == [] then f else ApplyAll(Apply(f, es[0]), es[1..])
  }

  /** Every slot array, current or remembered, keeps four slots. */
  lemma {:induction false} FourSlotsKept(f: Filters, es: seq<FilterEvent>)
    requires FourSlots(f)
    ensures FourSlots(ApplyAll(f, es))
    decreases |es|
  {
    if es != [] {
      var g := Apply(f, es[0]);
      assert FourSlots(g) by {
        if es[0].UndoEvent? && f.history != [] {
          assert g.history == f.history[..|f.history| - 1];
        } else if es[0].Change? && es[0].index < |f.selected| {
          forall k | 0 <= k < |g.history| ensures |g.history[k]| == 4 {
            if k < |f.history| { assert g.history[k] == f.history[k]; }
          }
        }
      }
      FourSlotsKept(g, es[1..]);
    }
  }

  function Undos(n: nat): (es: seq<FilterEvent>)
    ensures |es| == n && forall k :: 0 <= k < n ==> es[k] == UndoEvent
  {
    if n == 0 then [] else [UndoEvent] + Undos(n - 1)
  }

  predicate InRangeChanges(es: seq<FilterEvent>, slots: nat) {
    forall k :: 0 <= k < |es| ==> es[k].Change? && es[k].index < slots
  }

  lemma {:induction false} ApplyAllAppend(f: Filters, a: seq<FilterEvent>, b: seq<FilterEvent>)
    ensures ApplyAll(f, a + b) == ApplyAll(ApplyAll(f, a), b)
    decreases |a|
  {
    if a == [] {
      assert a + b == b;
    } else {
      assert (a + b)[0] == a[0] && (a + b)[1..] == a[1..] + b;
      ApplyAllAppend(Apply(f, a[0]), a[1..], b);
    }
  }

  /** Any run of n in-range filter changes is undone, slots and history alike, by n undos. */
  lemma {:induction false} UndoStackRestores(f: Filters, cs: seq<FilterEvent>)
    requires InRangeChanges(cs, |f.selected|)
    ensures ApplyAll(f, cs + Undos(|cs|)) == f
    decreases |cs|
  {
    if cs != [] {
      var c := cs[0];
      var g := Apply(f, c);
      assert g == FilterChange(f, c.index, c.value);
      var rest := cs[1..];
      assert InRangeChanges(rest, |g.selected|) by {
        forall k | 0 <= k < |rest| ensures rest[k].Change? && rest[k].index < |g.selected| {
          assert rest[k] == cs[k + 1];
        }
      }
      UndoStackRestores(g, rest);
      assert Undos(|cs|) == Undos(|rest|) + [UndoEvent];
      assert cs + Undos(|cs|) == [c] + ((rest + Undos(|rest|)) + [UndoEvent]);
      ApplyAllAppend(g, rest + Undos(|rest|), [UndoEvent]);
      assert ApplyAll(g, [UndoEvent]) == Undo(g);
    }
  }

  class Panel {
    var acquisition: Acquisition
    var selectedFilters: seq<string>
    var filterHistory: seq<seq<string>>

    /** Four slots now and in every remembered array. */
    ghost predicate Valid()
      reads this
    {
      FourSlots(FilterState())
    }

    constructor ()
      ensures Valid()
      ensures acquisition == InitialAcquisition
      ensures selectedFilters == NoFilters && filterHistory == []
    {
      acquisition := InitialAcquisition;
      selectedFilters := NoFilters;
      filterHistory := [];
    }

    function FilterState(): Filters
      reads this
    {
      Filters(selectedFilters, filterHistory)
    }

    method ToggleLive()
      requires Valid()
      modifies this`acquisition
      ensures Valid()
      ensures acquisition == old(acquisition).(isLive := !old(acquisition).isLive)
    {
      acquisition := acquisition.(isLive := !acquisition.isLive);
    }

    method HandleIntegrationChange(frames: int)
      requires Valid()
      modifies this`acquisition
      ensures Valid()
      ensures acquisition == old(acquisition).(integrationFrames := frames)
    {
      acquisition := acquisition.(integrationFrames := frames);
    }

    method HandleFpsChange(value: int)
      requires Valid()
      modifies this`acquisition
      ensures Valid()
      ensures acquisition == old(acquisition).(fps := value)
    {
      acquisition := acquisition.(fps := value);
    }

    method HandleGainChange(value: real)
      requires Valid()
      modifies this`acquisition
      ensures Valid()
      ensures acquisition == old(acquisition).(gain := value)
    {
      acquisition := acquisition.(gain := value);
    }

    method ToggleHistogram()
      requires Valid()
      modifies this`acquisition
      ensures Valid()
      ensures acquisition == old(acquisition).(histogram := !old(acquisition).histogram)
    {
      acquisition := acquisition.(histogram := !acquisition.histogram);
    }

    method HandleFilterChange(index: nat, value: string)
      requires Valid() && index < 4
      modifies this`selectedFilters, this`filterHistory
      ensures Valid()
      ensures FilterState() == FilterChange(old(FilterState()), index, value)
    {
      var newFilters := selectedFilters[index := value];
      filterHistory := filterHistory + [selectedFilters];
      selectedFilters := newFilters;
    }

    method HandleUndo()
      requires Valid()
      modifies this`selectedFilters, this`filterHistory
      ensures Valid()
      ensures FilterState() == Undo(old(FilterState()))
    {
      if |filterHistory| > 0 {
        selectedFilters := filterHistory[|filterHistory| - 1];
        filterHistory := filterHistory[..|filterHistory| - 1];
      } else {
        selectedFilters := NoFilters;
      }
    }
  }
}
