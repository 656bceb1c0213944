/** The colour-selection step: the user picks one colour per fillable tube
    from the palette. Clicking a selected colour deselects it; clicking an
    unselected one appends it while there is room. The component only builds
    the new list and hands it to its parent, so every operation here is a
    function from the old selection to the new one. */
module StepColors {
  import opened Colors

  /** The selection with every occurrence of `color` removed, in order
      (`selectedColors.filter(item => item !== color)`). */
  function Without(s: seq<Color>, color: Color): (r: seq<Color>)
    ensures forall x :: x in r <==> x in s && x != color
    ensures forall x :: multiset(r)[x] == if x == color then 0 else multiset(s)[x]
    ensures |r| <= |s| && (color in s ==> |r| < |s|)
  {
    if |s| == 0 then []
    else
      assert s == [s[0]] + s[1..];
      (if s[0] == color then [] else [s[0]]) + Without(s[1..], color)
  }

  /** The selection is complete when it has one colour per fillable tube. */
  predicate IsComplete(selected: seq<Color>, requiredCount: int)
    ensures IsComplete(selected, requiredCount) ==>
      forall c :: c !in selected ==> ButtonDisabled(selected, requiredCount, c)
  {
    |selected| == requiredCount
  }

  /** A palette button is disabled when its colour is not selected and the
      selection is already full. */
  predicate ButtonDisabled(selected: seq<Color>, requiredCount: int, color: Color)
    ensures ButtonDisabled(selected, requiredCount, color) ==> ToggleColor(selected, requiredCount, color) == selected
  {
    color !in selected && |selected| >= requiredCount
  }

  /** The selection after a click on `color`. */
  function ToggleColor(selected: seq<Color>, requiredCount: int, color: Color): (r: seq<Color>)
    ensures color in selected ==>
      color !in r && forall x :: x != color ==> multiset(r)[x] == multiset(selected)[x]
    ensures color !in selected && |selected| < requiredCount ==>
      |r| == |selected| + 1 && r[..|selected|] == selected && r[|selected|] == color
    ensures color !in selected && |selected| >= requiredCount ==> r == selected
  {
    if color in selected then Without(selected, color)
    else if |selected| >= requiredCount then selected
    else selected + [color]
  }

  /** The selection after the reset button: empty, hence valid for any
      requiredCount that is not negative. */
  function Reset(): (r: seq<Color>)
    ensures |r| == 0 && Distinct(r)
  {
    []
  }

  /** A duplicate-free list keeps being duplicate-free when filtered. */
  lemma {:induction false} WithoutDistinct(s: seq<Color>, color: Color)
    requires Distinct(s)
    ensures Distinct(Without(s, color)) && |Without(s, color)| <= |s|
  {
    var r := Without(s, color);
    forall x ensures multiset(r)[x] <= 1 {
      DistinctOccursOnce(s, x);
    }
    MultisetAtMostOnce(r);
    assert |r| == |multiset(r)| <= |multiset(s)| == |s| by {
      assert multiset(r) <= multiset(s);
    }
  }

  /** A list in which nothing occurs twice is duplicate-free. */
  lemma MultisetAtMostOnce(s: seq<Color>)
    requires forall x :: multiset(s)[x] <= 1
    ensures Distinct(s)
  {
    forall i, j | 0 <= i < j < |s| ensures s[i] != s[j] {
      assert s == s[..j] + [s[j]] + s[j + 1..];
      assert s[..j][i] == s[i];
      assert multiset(s)[s[j]] == multiset(s[..j])[s[j]] + 1 + multiset(s[j + 1..])[s[j]];
    }
  }

  /** The selection rule: from a duplicate-free selection of at most
      requiredCount colours, any click leads to another one. */
  lemma ToggleKeepsSelectionValid(selected: seq<Color>, requiredCount: int, color: Color)
    requires Distinct(selected) && |selected| <= requiredCount
    ensures Distinct(ToggleColor(selected, requiredCount, color))
    ensures |ToggleColor(selected, requiredCount, color)| <= requiredCount
  {
    if color in selected {
      WithoutDistinct(selected, color);
    } else if |selected| < requiredCount {
      var r := selected + [color];
      forall i, j | 0 <= i < j < |r| ensures r[i] != r[j] {
        if j == |selected| {
          assert r[i] == selected[i];
        }
      }
    }
  }

  /** A click changes nothing exactly when its button is disabled. */
  lemma ToggleNoOpIffDisabled(selected: seq<Color>, requiredCount: int, color: Color)
    ensures ToggleColor(selected, requiredCount, color) == selected <==> ButtonDisabled(selected, requiredCount, color)
  {
  }

  /** Clicking an unselected colour and then clicking it again restores the
      selection; clicking a selected colour twice moves it to the end. */
  lemma {:induction false} ToggleTwice(selected: seq<Color>, requiredCount: int, color: Color)
    requires Distinct(selected) && |selected| <= requiredCount
    ensures !ButtonDisabled(selected, requiredCount, color) && color !in selected ==>
      ToggleColor(ToggleColor(selected, requiredCount, color), requiredCount, color) == selected
    ensures color in selected ==>
      ToggleColor(ToggleColor(selected, requiredCount, color), requiredCount, color) == Without(selected, color) + [color]
  {
    if color in selected {
      WithoutDistinct(selected, color);
    } else if |selected| < requiredCount {
      WithoutAbsent(selected, color);
      WithoutAppend(selected, color);
    }
  }

  /** Filtering out an absent colour changes nothing. */
  lemma {:induction false} WithoutAbsent(s: seq<Color>, color: Color)
    requires color !in s
    ensures Without(s, color) == s
  {
    if |s| > 0 {
      assert color !in s[1..] by {
        forall k | 0 <= k < |s[1..]| ensures s[1..][k] != color {
          assert s[1..][k] == s[k + 1];
        }
      }
      WithoutAbsent(s[1..], color);
      assert s == [s[0]] + s[1..];
    }
  }

  /** Filtering distributes over appending the filtered colour. */
  lemma {:induction false} WithoutAppend(s: seq<Color>, color: Color)
    ensures Without(s + [color], color) == Without(s, color)
  {
    if |s| == 0 {
      assert Without([color], color) == [] + Without([], color);
    } else {
      assert (s + [color])[1..] == s[1..] + [color];
      WithoutAppend(s[1..], color);
    }
  }

  /** Filtering distributes over concatenation. */
  lemma {:induction false} WithoutConcat(a: seq<Color>, b: seq<Color>, color: Color)
    ensures Without(a + b, color) == Without(a, color) + Without(b, color)
    decreases |a|
  {
    if |a| > 0 {
      assert (a + b)[0] == a[0];
      assert (a + b)[1..] == a[1..] + b;
      WithoutConcat(a[1..], b, color);
    } else {
      assert a + b == b;
    }
  }

  /** In a duplicate-free selection, filtering out the colour at position k
      removes exactly that position: the other colours keep their order. */
  lemma WithoutAt(s: seq<Color>, color: Color, k: nat)
    requires Distinct(s) && k < |s| && s[k] == color
    ensures Without(s, color) == s[..k] + s[k + 1..]
  {
    assert s == s[..k] + [color] + s[k + 1..];
    assert color !in s[..k] by {
      forall i | 0 <= i < k ensures s[..k][i] != color {
        assert s[..k][i] == s[i];
      }
    }
    ghost var tail := s[k + 1..];
    assert color !in tail by {
      forall i | 0 <= i < |tail| ensures tail[i] != color {
        assert tail[i] == s[k + 1 + i];
      }
    }
    WithoutConcat(s[..k] + [color], s[k + 1..], color);
    WithoutConcat(s[..k], [color], color);
    WithoutAbsent(s[..k], color);
    WithoutAbsent(s[k + 1..], color);
    assert Without([color], color) == [] + Without([], color);
  }

  /** Deselecting the colour at position k of a valid selection removes that
      position and keeps the others in order, so each remaining colour keeps
      its relative place among the tubes it will fill. */
  lemma ToggleDeselectKeepsOrder(selected: seq<Color>, requiredCount: int, color: Color, k: nat)
    requires Distinct(selected) && k < |selected| && selected[k] == color
    ensures ToggleColor(selected, requiredCount, color) == selected[..k] + selected[k + 1..]
  {
    WithoutAt(selected, color, k);
  }

  /** A complete selection accepts no new colour, and an incomplete valid one
      accepts any unselected colour: completion is exactly the point at which
      the unselected buttons are disabled. */
  lemma CompleteDisablesNewColors(selected: seq<Color>, requiredCount: int, color: Color)
    requires |selected| <= requiredCount && color !in selected
    ensures IsComplete(selected, requiredCount) <==> ButtonDisabled(selected, requiredCount, color)
  {
  }
}
