/** The application shell: a three-screen wizard. On the structure screen
    the user sets the number of tubes and how many of them stay empty; on
    the colour screen they pick one colour per fillable tube; the fill
    screen runs the engine and shows its result. Each handler is a state
    transition on the shell's fields; which handlers exist on which screen
    is expressed by the handlers' preconditions. */
module App {
  import opened Colors
  import Filler
  import StepColors

  /** The wizard's screens (`AppStep` 0, 1 and 2). */
  datatype AppStep = Structure | Coloring | Filling

  /** Whether the engine's run is pending (`"generating"`) or not (`"idle"`). */
  datatype FillState = Idle | Generating

  function Min(a: int, b: int): (r: int)
    ensures r <= a && r <= b && (r == a || r == b)
  {
    if a <= b then a else b
  }

  function Max(a: int, b: int): (r: int)
    ensures r >= a && r >= b && (r == a || r == b)
  {
    if a >= b then a else b
  }

  /** The new tube total after the +/- button:
      `Math.max(2, Math.min(paletteSize, prev + delta))`. */
  function NextTotal(prev: int, delta: int, paletteSize: int): (r: int)
    ensures r >= 2
    ensures paletteSize >= 2 ==> r <= paletteSize
    ensures 2 <= prev + delta <= paletteSize ==> r == prev + delta
    ensures prev + delta < 2 ==> r == 2
    ensures 2 <= paletteSize < prev + delta ==> r == paletteSize
  {
    Max(2, Min(paletteSize, prev + delta))
  }

  /** The empty-tube count after the total changed to `total`: it shrinks
      just enough to leave one fillable tube (`Math.min(prevEmpty, next - 1)`). */
  function FitEmpty(prevEmpty: int, total: int): (r: int)
    ensures r <= total - 1 && r <= prevEmpty
    ensures prevEmpty <= total - 1 ==> r == prevEmpty
    ensures prevEmpty > total - 1 ==> r == total - 1
  {
    Min(prevEmpty, total - 1)
  }

  /** The new empty-tube count after the +/- button:
      `Math.max(0, Math.min(total - 1, prev + delta))`. */
  function NextEmpty(prev: int, delta: int, total: int): (r: int)
    ensures r >= 0
    ensures total >= 1 ==> r <= total - 1
    ensures 0 <= prev + delta <= total - 1 ==> r == prev + delta
    ensures prev + delta < 0 ==> r == 0
    ensures total >= 1 && prev + delta > total - 1 ==> r == total - 1
  {
    Max(0, Min(total - 1, prev + delta))
  }

  /** `list.slice(0, end)`: a negative end counts from the back. */
  function SlicePrefix(s: seq<Color>, end: int): (r: seq<Color>)
    ensures end >= 0 ==> |r| == Min(|s|, end)
    ensures end < 0 ==> |r| == Max(0, |s| + end)
    ensures |r| <= |s| && r == s[..|r|]
  {
    var stop := if end < 0 then Max(0, |s| + end) else Min(|s|, end);
    s[..stop]
  }

  /** A prefix of a duplicate-free list is duplicate-free and draws from it. */
  lemma PrefixKeepsSelection(s: seq<Color>, n: nat)
    requires Distinct(s) && n <= |s|
    ensures Distinct(s[..n]) && forall c :: c in s[..n] ==> c in s
  {
  }

  /** The structure rules: starting from clamped counts, any sequence of
      button presses keeps 2 <= total <= paletteSize and
      0 <= empty <= total - 1, so at least one tube is fillable. */
  lemma StructureStaysClamped(total: int, empty: int, paletteSize: int, totalDelta: int, emptyDelta: int)
    requires 2 <= total <= paletteSize && 0 <= empty <= total - 1
    ensures var t := NextTotal(total, totalDelta, paletteSize);
      var e := FitEmpty(empty, t);
      2 <= t <= paletteSize && 0 <= e <= t - 1 && t - e >= 1
    ensures var e := NextEmpty(empty, emptyDelta, total);
      0 <= e <= total - 1 && total - e >= 1
  {
  }

  /** What a finished run hands to the fill screen: a recorded history for
      exactly the current selection that ends with every tube full. */
  ghost predicate Completed(r: Filler.FillResult, colors: seq<Color>) {
    r.selectedColors == colors &&
    Filler.History(colors, r.states, r.events) &&
    |r.events| == |colors| * MAX_LEVELS &&
    r.states[|r.states| - 1] == Filler.FullTubes(colors)
  }

  class AppState {
    /** The colour palette (`WATER_COLORS`): distinct, non-empty tokens. */
    const palette: seq<Color>
    var currentStep: AppStep
    var fillState: FillState
    var fillResult: Option<Filler.FillResult>
    var totalTubes: int
    var emptyTubes: int
    var selectedColors: seq<Color>

    /** Tubes that receive a colour. */
    function Fillable(): (r: int)
      reads this
      ensures 0 <= emptyTubes <= totalTubes - 1 ==> 1 <= r <= totalTubes
    {
      totalTubes - emptyTubes
    }

    /** The shell's invariant: the structure counts are clamped, the
        selection is a duplicate-free choice from the palette that fits the
        fillable tubes on the colour screen and matches them exactly on the
        fill screen, and a result, when present, is a completed run of the
        current selection. */
    ghost predicate Valid()
      reads this
    {
      Distinct(palette) && (forall i :: 0 <= i < |palette| ==> palette[i] != "") &&
      2 <= totalTubes <= |palette| && 0 <= emptyTubes <= totalTubes - 1 &&
      Distinct(selectedColors) && (forall c :: c in selectedColors ==> c in palette) &&
      (currentStep == Coloring ==> |selectedColors| <= Fillable()) &&
      (currentStep == Filling ==> |selectedColors| == Fillable()) &&
      (fillState == Generating ==> currentStep == Filling && fillResult == None) &&
      (fillResult.Some? ==> currentStep == Filling && Completed(fillResult.value, selectedColors))
    }

    /** The initial state: three tubes, one of them empty, nothing chosen. */
    constructor (palette: seq<Color>)
      requires Distinct(palette) && |palette| >= 3
      requires forall i :: 0 <= i < |palette| ==> palette[i] != ""
      ensures Valid() && this.palette == palette
      ensures currentStep == Structure && fillState == Idle && fillResult == None
      ensures totalTubes == 3 && emptyTubes == 1 && selectedColors == []
    {
      this.palette := palette;
      currentStep := Structure;
      fillState := Idle;
      fillResult := None;
      totalTubes := 3;
      emptyTubes := 1;
      selectedColors := [];
    }

    /** The tube-total buttons on the structure screen. */
    method HandleTotalChange(delta: int)
      requires Valid() && currentStep == Structure
      modifies this
      ensures Valid()
      ensures totalTubes == NextTotal(old(totalTubes), delta, |palette|)
      ensures emptyTubes == FitEmpty(old(emptyTubes), totalTubes)
      ensures Fillable() >= 1
      ensures currentStep == old(currentStep) && fillState == old(fillState) && fillResult == old(fillResult)
      ensures selectedColors == old(selectedColors)
    {
      var next := NextTotal(totalTubes, delta, |palette|);
      emptyTubes := FitEmpty(emptyTubes, next);
      totalTubes := next;
    }

    /** The empty-tube buttons on the structure screen. */
    method HandleEmptyChange(delta: int)
      requires Valid() && currentStep == Structure
      modifies this
      ensures Valid()
      ensures emptyTubes == NextEmpty(old(emptyTubes), delta, totalTubes)
      ensures Fillable() >= 1
      ensures totalTubes == old(totalTubes) && currentStep == old(currentStep) && fillState == old(fillState)
      ensures fillResult == old(fillResult) && selectedColors == old(selectedColors)
    {
      emptyTubes := NextEmpty(emptyTubes, delta, totalTubes);
    }

    /** Drop the colours beyond the fillable tubes, keeping the order. */
    method NormalizeSelectedColors()
      requires Valid() && currentStep == Structure
      modifies this
      ensures Valid()
      ensures selectedColors == SlicePrefix(old(selectedColors), Fillable())
      ensures |selectedColors| == Min(|old(selectedColors)|, Fillable())
      ensures totalTubes == old(totalTubes) && emptyTubes == old(emptyTubes)
      ensures currentStep == old(currentStep) && fillState == old(fillState) && fillResult == old(fillResult)
    {
      selectedColors := SlicePrefix(selectedColors, Fillable());
      PrefixKeepsSelection(old(selectedColors), |selectedColors|);
    }

    /** "Next" on the structure screen: fit the selection, then show the
        colour screen. */
    method HandleContinueToColors()
      requires Valid() && currentStep == Structure
      modifies this
      ensures Valid() && currentStep == Coloring
      ensures selectedColors == SlicePrefix(old(selectedColors), Fillable())
      ensures totalTubes == old(totalTubes) && emptyTubes == old(emptyTubes)
      ensures fillState == old(fillState) && fillResult == old(fillResult)
    {
      NormalizeSelectedColors();
      currentStep := Coloring;
    }

    /** "Back" on the colour screen. */
    method HandleBackToStructure()
      requires Valid() && currentStep == Coloring
      modifies this
      ensures Valid() && currentStep == Structure
      ensures totalTubes == old(totalTubes) && emptyTubes == old(emptyTubes)
      ensures selectedColors == old(selectedColors) && fillState == old(fillState) && fillResult == old(fillResult)
    {
      currentStep := Structure;
    }

    /** A click on a palette colour on the colour screen. */
    method ToggleColor(color: Color)
      requires Valid() && currentStep == Coloring && color in palette
      modifies this
      ensures Valid()
      ensures selectedColors == StepColors.ToggleColor(old(selectedColors), Fillable(), color)
      ensures totalTubes == old(totalTubes) && emptyTubes == old(emptyTubes)
      ensures currentStep == old(currentStep) && fillState == old(fillState) && fillResult == old(fillResult)
    {
      StepColors.ToggleKeepsSelectionValid(selectedColors, Fillable(), color);
      selectedColors := StepColors.ToggleColor(selectedColors, Fillable(), color);
    }

    /** The reset button on the colour screen. */
    method ResetColors()
      requires Valid() && currentStep == Coloring
      modifies this
      ensures Valid() && selectedColors == StepColors.Reset()
      ensures totalTubes == old(totalTubes) && emptyTubes == old(emptyTubes)
      ensures currentStep == old(currentStep) && fillState == old(fillState) && fillResult == old(fillResult)
    {
      selectedColors := StepColors.Reset();
    }

    /** "Generate" on the colour screen: only a complete selection moves to
        the fill screen, which waits for the run. */
    method HandleGenerateFill()
      requires Valid() && currentStep == Coloring
      modifies this
      ensures Valid()
      ensures !StepColors.IsComplete(old(selectedColors), Fillable()) ==>
        currentStep == old(currentStep) && fillState == old(fillState)
      ensures StepColors.IsComplete(old(selectedColors), Fillable()) ==>
        currentStep == Filling && fillState == Generating
      ensures fillResult == old(fillResult) && selectedColors == old(selectedColors)
      ensures totalTubes == old(totalTubes) && emptyTubes == old(emptyTubes)
    {
      if |selectedColors| != Fillable() {
        return;
      }
      fillState := Generating;
      currentStep := Filling;
    }

    /** The deferred part of "Generate": run the engine on the selection and
        show its result. */
    method FinishGenerateFill()
      requires Valid() && fillState == Generating
      modifies this
      ensures Valid() && fillState == Idle && currentStep == Filling
      ensures fillResult.Some? && fillResult.value.selectedColors == selectedColors
      ensures selectedColors == old(selectedColors)
      ensures totalTubes == old(totalTubes) && emptyTubes == old(emptyTubes)
    {
      SelectionMeetsEngine(palette, selectedColors);
      var result := Filler.GenerateFillResult(selectedColors);
      fillResult := Some(result);
      fillState := Idle;
    }

    /** "Back to setup" on the fill screen: return to the colour screen and
        drop the result. */
    method HandleBackToSetup()
      requires Valid() && currentStep == Filling && fillState == Idle
      modifies this
      ensures Valid()
      ensures currentStep == Coloring && fillResult == None && fillState == Idle
      ensures selectedColors == old(selectedColors)
      ensures totalTubes == old(totalTubes) && emptyTubes == old(emptyTubes)
    {
      currentStep := Coloring;
      fillResult := None;
      fillState := Idle;
    }
  }

  /** A selection the shell can hold meets the engine's precondition: it is
      duplicate-free and made of non-empty palette tokens. */
  lemma SelectionMeetsEngine(palette: seq<Color>, selected: seq<Color>)
    requires forall i :: 0 <= i < |palette| ==> palette[i] != ""
    requires Distinct(selected) && forall c :: c in selected ==> c in palette
    ensures Filler.ValidSelection(selected)
  {
    forall i | 0 <= i < |selected| ensures selected[i] != "" {
      assert selected[i] in palette;
    }
  }
}
