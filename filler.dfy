/** The fill engine: given one colour per tube, it deposits single units of
    colour, in rounds of randomly shuffled colours, into the lowest empty
    slot of each colour's tube until every tube is full, recording each
    deposit as an event and the whole grid after it as a snapshot. */
module Filler {
  import opened Colors

  /** A tube grid: one sequence of MAX_LEVELS slots per tube. */
  type Grid = seq<seq<Slot>>

  /** One unit of `color` deposited into tube `tubeIndex`. */
  datatype FillEvent = FillEvent(tubeIndex: nat, color: Color)

  /** The output of a run: snapshots, events and a copy of the input. */
  datatype FillResult = FillResult(states: seq<Grid>, events: seq<FillEvent>, selectedColors: seq<Color>)

  // ---------------------------------------------------------------------
  // Grids
  // ---------------------------------------------------------------------

  /** `tubeCount` tubes whose slots are all empty. */
  function GetEmptyTubes(tubeCount: nat): (g: Grid)
    ensures |g| == tubeCount
    ensures forall i :: 0 <= i < tubeCount ==> |g[i]| == MAX_LEVELS
    ensures forall i, j :: 0 <= i < tubeCount && 0 <= j < MAX_LEVELS ==> g[i][j] == None
  {
    seq(tubeCount, _ => seq(MAX_LEVELS, _ => None))
  }

  /** A copy of the working grid as a value: later writes to the array do not
      reach it. */
  function CloneTubes(tubes: array2<Slot>): (g: Grid)
    reads tubes
    ensures |g| == tubes.Length0
    ensures forall i :: 0 <= i < tubes.Length0 ==> |g[i]| == tubes.Length1
    ensures forall i, j :: 0 <= i < tubes.Length0 && 0 <= j < tubes.Length1 ==> g[i][j] == tubes[i, j]
  {
    seq(tubes.Length0, i requires 0 <= i < tubes.Length0 reads tubes =>
      seq(tubes.Length1, j requires 0 <= j < tubes.Length1 reads tubes => tubes[i, j]))
  }

  /** The grid in which tube i is full of colors[i]. */
  function FullTubes(colors: seq<Color>): (g: Grid)
    ensures |g| == |colors|
    ensures forall i :: 0 <= i < |colors| ==> |g[i]| == MAX_LEVELS
    ensures forall i, j :: 0 <= i < |colors| && 0 <= j < MAX_LEVELS ==> g[i][j] == Some(colors[i])
  {
    seq(|colors|, i requires 0 <= i < |colors| => seq(MAX_LEVELS, _ => Some(colors[i])))
  }

  /** The index of the lowest empty slot, or -1 when the tube is full
      (`findIndex(slot => slot === null)`). */
  function FirstEmpty(tube: seq<Slot>): (r: int)
    ensures -1 <= r < |tube|
    ensures r == -1 <==> None !in tube
    ensures r >= 0 ==> tube[r] == None && forall k :: 0 <= k < r ==> tube[k] != None
  {
    if |tube| == 0 then -1
    else if tube[0] == None then 0
    else
      var r := FirstEmpty(tube[1..]);
      assert forall k :: 0 < k < |tube| ==> tube[k] == tube[1..][k - 1];
      if r == -1 then -1 else r + 1
  }

  /** Tube t has room and an event into it may be applied. */
  predicate HasRoom(g: Grid, t: nat) {
    t < |g| && FirstEmpty(g[t]) >= 0
  }

  /** The grid after one unit of `c` is put in the lowest empty slot of tube t. */
  function Deposit(g: Grid, t: nat, c: Color): (r: Grid)
    requires HasRoom(g, t)
    ensures |r| == |g|
    ensures forall i :: 0 <= i < |g| ==> |r[i]| == |g[i]|
    ensures forall i, j :: 0 <= i < |g| && 0 <= j < |g[i]| ==>
      r[i][j] == if i == t && j == FirstEmpty(g[t]) then Some(c) else g[i][j]
  {
    g[t := g[t][FirstEmpty(g[t]) := Some(c)]]
  }

  /** The snapshot history is the initial grid followed by the effect of each
      event in turn. */
  ghost predicate Replays(states: seq<Grid>, events: seq<FillEvent>) {
    |states| == |events| + 1 &&
    forall k :: 0 <= k < |events| ==>
      HasRoom(states[k], events[k].tubeIndex) &&
      states[k + 1] == Deposit(states[k], events[k].tubeIndex, events[k].color)
  }

  // ---------------------------------------------------------------------
  // Inventory
  // ---------------------------------------------------------------------

  /** Units of a colour still to place (`inventory.get(color) ?? 0`). */
  function Units(inventory: map<Color, int>, c: Color): (r: int)
    ensures c in inventory ==> r == inventory[c]
    ensures c !in inventory ==> r == 0
  {
    if c in inventory then inventory[c] else 0
  }

  /** Units still to place, summed over the selected colours. */
  function Outstanding(colors: seq<Color>, inventory: map<Color, int>): int {
    if |colors| == 0 then 0 else Units(inventory, colors[0]) + Outstanding(colors[1..], inventory)
  }

  /** The colours whose inventory is still positive, in input order
      (`selectedColors.filter(...)`). */
  function Available(colors: seq<Color>, inventory: map<Color, int>): (r: seq<Color>)
    ensures forall c :: c in r <==> c in colors && Units(inventory, c) > 0
    ensures forall c :: multiset(r)[c] <= multiset(colors)[c]
  {
    if |colors| == 0 then []
    else
      assert colors == [colors[0]] + colors[1..];
      (if Units(inventory, colors[0]) > 0 then [colors[0]] else []) + Available(colors[1..], inventory)
  }

  lemma {:induction false} OutstandingIgnores(colors: seq<Color>, inventory: map<Color, int>, c: Color, v: int)
    requires c !in colors
    ensures Outstanding(colors, inventory[c := v]) == Outstanding(colors, inventory)
  {
    if |colors| > 0 {
      assert colors[0] != c;
      OutstandingIgnores(colors[1..], inventory, c, v);
    }
  }

  /** Taking one unit of the colour of tube t lowers the total by exactly one. */
  lemma {:induction false} OutstandingTakeOne(colors: seq<Color>, inventory: map<Color, int>, t: nat)
    requires Distinct(colors) && t < |colors|
    ensures Outstanding(colors, inventory[colors[t] := Units(inventory, colors[t]) - 1]) == Outstanding(colors, inventory) - 1
  {
    var c := colors[t];
    var after := inventory[c := Units(inventory, c) - 1];
    assert Distinct(colors[1..]) by {
      forall i, j | 0 <= i < j < |colors[1..]| ensures colors[1..][i] != colors[1..][j] {
        assert colors[1..][i] == colors[i + 1] && colors[1..][j] == colors[j + 1];
      }
    }
    if t == 0 {
      assert c !in colors[1..] by {
        forall k | 0 <= k < |colors[1..]| ensures colors[1..][k] != c {
          assert colors[1..][k] == colors[k + 1];
        }
      }
      OutstandingIgnores(colors[1..], inventory, c, Units(inventory, c) - 1);
    } else {
      assert colors[1..][t - 1] == c;
      OutstandingTakeOne(colors[1..], inventory, t - 1);
      assert colors[0] != c;
    }
  }

  /** A positive total has a colour that still has units. */
  lemma {:induction false} PendingColor(colors: seq<Color>, inventory: map<Color, int>) returns (i: nat)
    requires Outstanding(colors, inventory) > 0
    ensures i < |colors| && Units(inventory, colors[i]) > 0
  {
    if Units(inventory, colors[0]) > 0 {
      i := 0;
    } else {
      var k := PendingColor(colors[1..], inventory);
      i := k + 1;
    }
  }

  /** With no negative counts, each colour's count is bounded by the total. */
  lemma {:induction false} OutstandingBounds(colors: seq<Color>, inventory: map<Color, int>, i: nat)
    requires forall k :: 0 <= k < |colors| ==> Units(inventory, colors[k]) >= 0
    requires i < |colors|
    ensures 0 <= Units(inventory, colors[i]) <= Outstanding(colors, inventory)
  {
    if i == 0 {
      OutstandingNonNegative(colors[1..], inventory);
    } else {
      OutstandingBounds(colors[1..], inventory, i - 1);
    }
  }

  lemma {:induction false} OutstandingNonNegative(colors: seq<Color>, inventory: map<Color, int>)
    requires forall k :: 0 <= k < |colors| ==> Units(inventory, colors[k]) >= 0
    ensures Outstanding(colors, inventory) >= 0
  {
    if |colors| > 0 {
      OutstandingNonNegative(colors[1..], inventory);
    }
  }

  /** Every colour at full supply gives |colors| * MAX_LEVELS units in all. */
  lemma {:induction false} OutstandingInitial(colors: seq<Color>, inventory: map<Color, int>)
    requires forall k :: 0 <= k < |colors| ==> Units(inventory, colors[k]) == MAX_LEVELS
    ensures Outstanding(colors, inventory) == |colors| * MAX_LEVELS
  {
    if |colors| > 0 {
      OutstandingInitial(colors[1..], inventory);
    }
  }

  // ---------------------------------------------------------------------
  // The engine
  // ---------------------------------------------------------------------

  /** A Fisher-Yates shuffle of a copy of `colors`; the random index is any
      r with 0 <= r <= index. */
  method ShuffleColors(colors: seq<Color>) returns (shuffled: seq<Color>)
    ensures |shuffled| == |colors|
    ensures multiset(shuffled) == multiset(colors)
  {
    var copy := new Color[|colors|](i requires 0 <= i < |colors| => colors[i]);
    assert copy[..] == colors;
    var index := copy.Length - 1;
    while index > 0
      invariant index < copy.Length
      invariant multiset(copy[..]) == multiset(colors)
      decreases index
    {
      var randomIndex :| 0 <= randomIndex <= index;
      copy[index], copy[randomIndex] := copy[randomIndex], copy[index];
      index := index - 1;
    }
    shuffled := copy[..];
  }

  /** What the engine demands of its input: one colour per tube, no colour
      twice (a repeated colour makes the source loop forever), and no empty
      token (the source skips a falsy colour without placing it). */
  predicate ValidSelection(colors: seq<Color>) {
    Distinct(colors) && forall i :: 0 <= i < |colors| ==> colors[i] != ""
  }

  /** A tube holding `filled` units of `c` at the bottom and empty above. */
  function TubeOf(c: Color, filled: int): (tube: seq<Slot>)
    ensures |tube| == MAX_LEVELS
  {
    seq(MAX_LEVELS, j => if j < filled then Some(c) else None)
  }

  /** The grid an inventory stands for: tube i holds as many units of
      colors[i] as that colour has already placed. */
  function Layout(colors: seq<Color>, inventory: map<Color, int>): (g: Grid)
    ensures |g| == |colors|
  {
    seq(|colors|, i requires 0 <= i < |colors| => TubeOf(colors[i], MAX_LEVELS - Units(inventory, colors[i])))
  }

  /** Counts within 0..MAX_LEVELS for every selected colour. */
  ghost predicate InRange(colors: seq<Color>, inventory: map<Color, int>) {
    forall i :: 0 <= i < |colors| ==> 0 <= Units(inventory, colors[i]) <= MAX_LEVELS
  }

  /** For a colour that still has units, its tube has room just above the
      units already there, and depositing one unit there gives the layout of
      the inventory with that unit taken. */
  lemma DepositLayout(colors: seq<Color>, inventory: map<Color, int>, t: nat)
    requires Distinct(colors) && InRange(colors, inventory)
    requires t < |colors| && Units(inventory, colors[t]) > 0
    ensures HasRoom(Layout(colors, inventory), t)
    ensures FirstEmpty(Layout(colors, inventory)[t]) == MAX_LEVELS - Units(inventory, colors[t])
    ensures Deposit(Layout(colors, inventory), t, colors[t]) ==
            Layout(colors, inventory[colors[t] := Units(inventory, colors[t]) - 1])
  {
    var g := Layout(colors, inventory);
    var c := colors[t];
    var filled := MAX_LEVELS - Units(inventory, c);
    assert g[t][filled] == None;
    var r := FirstEmpty(g[t]);
    assert r == filled;
    var h := Deposit(g, t, c);
    var l := Layout(colors, inventory[c := Units(inventory, c) - 1]);
    forall i | 0 <= i < |colors| ensures h[i] == l[i] {
      if i != t {
        assert colors[i] != c;
      }
      assert forall j :: 0 <= j < MAX_LEVELS ==> h[i][j] == l[i][j];
    }
  }

  /** The inventory at full supply stands for the empty grid. */
  lemma FullSupplyLayout(colors: seq<Color>, inventory: map<Color, int>)
    requires forall k :: 0 <= k < |colors| ==> Units(inventory, colors[k]) == MAX_LEVELS
    ensures Layout(colors, inventory) == GetEmptyTubes(|colors|)
  {
    var g := Layout(colors, inventory);
    forall i | 0 <= i < |colors| ensures g[i] == GetEmptyTubes(|colors|)[i] {
      assert forall j :: 0 <= j < MAX_LEVELS ==> g[i][j] == None;
    }
  }

  /** An exhausted inventory stands for the grid of full tubes. */
  lemma ExhaustedLayout(colors: seq<Color>, inventory: map<Color, int>)
    requires forall k :: 0 <= k < |colors| ==> Units(inventory, colors[k]) == 0
    ensures Layout(colors, inventory) == FullTubes(colors)
  {
    var g := Layout(colors, inventory);
    forall i | 0 <= i < |colors| ensures g[i] == FullTubes(colors)[i] {
      assert forall j :: 0 <= j < MAX_LEVELS ==> g[i][j] == Some(colors[i]);
    }
  }

  /** A round's queue, a permutation of the available colours, is non-empty
      while units remain, holds only colours with units, and no colour twice. */
  lemma RoundQueue(colors: seq<Color>, inventory: map<Color, int>, queue: seq<Color>)
    requires Distinct(colors) && Outstanding(colors, inventory) > 0
    requires multiset(queue) == multiset(Available(colors, inventory))
    ensures |queue| > 0
    ensures forall c :: c in queue ==> c in colors && Units(inventory, c) > 0
    ensures forall c :: multiset(queue)[c] <= 1
  {
    var available := Available(colors, inventory);
    var pending := PendingColor(colors, inventory);
    assert colors[pending] in available;
    assert multiset(queue)[colors[pending]] > 0;
    forall c | c in queue ensures c in colors && Units(inventory, c) > 0 {
      assert multiset(queue)[c] > 0;
      assert c in available;
    }
    forall c ensures multiset(queue)[c] <= 1 {
      DistinctOccursOnce(colors, c);
      assert multiset(queue)[c] == multiset(available)[c];
    }
  }

  /** Popping the head of a queue without repeats leaves it out of the rest. */
  lemma PopHead(queue: seq<Color>)
    requires |queue| > 0 && forall c :: multiset(queue)[c] <= 1
    ensures queue[0] !in queue[1..]
    ensures forall c :: multiset(queue[1..])[c] <= 1
  {
    var rest := queue[1..];
    assert queue == [queue[0]] + rest;
    assert multiset(queue) == multiset{queue[0]} + multiset(rest);
    forall c ensures multiset(rest)[c] <= 1 {
      assert multiset(queue)[c] <= 1;
    }
    assert multiset(queue)[queue[0]] <= 1;
    assert multiset(rest)[queue[0]] == 0;
  }

  /** The history recorded so far: snapshot 0 is the empty grid, each later
      snapshot applies one event, and every event pours a tube's own colour. */
  ghost predicate History(colors: seq<Color>, states: seq<Grid>, events: seq<FillEvent>) {
    Replays(states, events) &&
    states[0] == GetEmptyTubes(|colors|) &&
    forall k :: 0 <= k < |events| ==>
      events[k].tubeIndex < |colors| && events[k].color == colors[events[k].tubeIndex]
  }

  /** Applying one more event, of a tube's own colour, extends a history. */
  lemma HistoryExtend(colors: seq<Color>, states: seq<Grid>, events: seq<FillEvent>, t: nat)
    requires History(colors, states, events)
    requires t < |colors| && HasRoom(states[|states| - 1], t)
    ensures History(colors, states + [Deposit(states[|states| - 1], t, colors[t])], events + [FillEvent(t, colors[t])])
  {
  }

  /** The working grid holds exactly the slots of `g`. */
  ghost predicate Mirrors(tubes: array2<Slot>, g: Grid)
    reads tubes
  {
    tubes.Length0 == |g| &&
    (forall i :: 0 <= i < |g| ==> |g[i]| == tubes.Length1) &&
    forall i, j :: 0 <= i < |g| && 0 <= j < tubes.Length1 ==> tubes[i, j] == g[i][j]
  }

  /** A copy of the working grid is the grid it mirrors. */
  lemma CloneOfMirror(tubes: array2<Slot>, g: Grid)
    requires Mirrors(tubes, g)
    ensures CloneTubes(tubes) == g
  {
    var copy := CloneTubes(tubes);
    forall i | 0 <= i < |g| ensures copy[i] == g[i] {
      assert forall j :: 0 <= j < tubes.Length1 ==> copy[i][j] == g[i][j];
    }
  }

  /** `targetTube[slotIndex] = nextColor`: one slot of the working grid is
      written and the grid it mirrors changes in that slot only. */
  method WriteSlot(tubes: array2<Slot>, ghost g: Grid, t: nat, s: nat, x: Slot)
    requires Mirrors(tubes, g) && t < |g| && s < tubes.Length1
    modifies tubes
    ensures Mirrors(tubes, g[t := g[t][s := x]])
  {
    tubes[t, s] := x;
  }

  /** The inventory and the colour-to-tube index built from the input
      (`selectedColors.forEach`). */
  method IndexColors(selectedColors: seq<Color>) returns (inventory: map<Color, int>, tubeByColor: map<Color, nat>)
    ensures forall i :: 0 <= i < |selectedColors| ==> Units(inventory, selectedColors[i]) == MAX_LEVELS
    ensures forall i :: 0 <= i < |selectedColors| ==> selectedColors[i] in tubeByColor
    ensures forall c :: c in tubeByColor ==> tubeByColor[c] < |selectedColors| && selectedColors[tubeByColor[c]] == c
  {
    inventory, tubeByColor := map[], map[];
    for index := 0 to |selectedColors|
      invariant forall i :: 0 <= i < index ==> Units(inventory, selectedColors[i]) == MAX_LEVELS
      invariant forall i :: 0 <= i < index ==> selectedColors[i] in tubeByColor
      invariant forall c :: c in tubeByColor ==> tubeByColor[c] < index && selectedColors[tubeByColor[c]] == c
    {
      var color := selectedColors[index];
      inventory := inventory[color := MAX_LEVELS];
      tubeByColor := tubeByColor[color := index];
    }
  }

  /** Once nothing is outstanding, the inventory stands for full tubes. */
  lemma AllPlaced(colors: seq<Color>, inventory: map<Color, int>)
    requires InRange(colors, inventory) && Outstanding(colors, inventory) == 0
    ensures Layout(colors, inventory) == FullTubes(colors)
  {
    forall i | 0 <= i < |colors| ensures Units(inventory, colors[i]) == 0 {
      OutstandingBounds(colors, inventory, i);
    }
    ExhaustedLayout(colors, inventory);
  }

  /** The engine's loop invariant, apart from the working array and the
      queue: the colour-to-tube index points every selected colour at its own
      tube, the counts stay within 0..MAX_LEVELS and sum to `remaining`,
      every event so far is counted, and the last snapshot is the layout
      the inventory stands for. */
  ghost predicate EngineState(colors: seq<Color>, tubeByColor: map<Color, nat>, inventory: map<Color, int>,
                              remaining: int, states: seq<Grid>, events: seq<FillEvent>)
  {
    (forall i :: 0 <= i < |colors| ==> colors[i] in tubeByColor) &&
    (forall c :: c in tubeByColor ==> tubeByColor[c] < |colors| && colors[tubeByColor[c]] == c) &&
    InRange(colors, inventory) &&
    remaining == Outstanding(colors, inventory) &&
    0 <= remaining && |events| + remaining == |colors| * MAX_LEVELS &&
    History(colors, states, events) &&
    states[|states| - 1] == Layout(colors, inventory)
  }

  /** The round's queue holds each colour at most once, each with units left. */
  ghost predicate QueueState(queue: seq<Color>, tubeByColor: map<Color, nat>, inventory: map<Color, int>) {
    (forall c :: c in queue ==> c in tubeByColor && Units(inventory, c) > 0) &&
    forall c :: multiset(queue)[c] <= 1
  }

  /** One deposit of the colour of tube t keeps the invariant. */
  lemma DepositStep(colors: seq<Color>, tubeByColor: map<Color, nat>, inventory: map<Color, int>,
                    remaining: int, states: seq<Grid>, events: seq<FillEvent>, t: nat)
    requires ValidSelection(colors) && EngineState(colors, tubeByColor, inventory, remaining, states, events)
    requires t < |colors| && Units(inventory, colors[t]) > 0
    ensures HasRoom(states[|states| - 1], t)
    ensures FirstEmpty(states[|states| - 1][t]) == MAX_LEVELS - Units(inventory, colors[t])
    ensures EngineState(colors, tubeByColor, inventory[colors[t] := Units(inventory, colors[t]) - 1], remaining - 1,
                        states + [Deposit(states[|states| - 1], t, colors[t])], events + [FillEvent(t, colors[t])])
  {
    var c := colors[t];
    var after := inventory[c := Units(inventory, c) - 1];
    DepositLayout(colors, inventory, t);
    OutstandingTakeOne(colors, inventory, t);
    OutstandingBounds(colors, inventory, t);
    HistoryExtend(colors, states, events, t);
    assert InRange(colors, after) by {
      forall i | 0 <= i < |colors| ensures 0 <= Units(after, colors[i]) <= MAX_LEVELS {
        if i != t {
          assert colors[i] != c;
        }
      }
    }
  }

  /** A fresh round's queue (a shuffle of the colours with units left) is a
      valid queue and is not empty while units are outstanding. */
  lemma Refill(colors: seq<Color>, tubeByColor: map<Color, nat>, inventory: map<Color, int>, queue: seq<Color>)
    requires Distinct(colors) && Outstanding(colors, inventory) > 0
    requires forall i :: 0 <= i < |colors| ==> colors[i] in tubeByColor
    requires multiset(queue) == multiset(Available(colors, inventory))
    ensures |queue| > 0 && QueueState(queue, tubeByColor, inventory)
  {
    RoundQueue(colors, inventory, queue);
  }

  /** Taking the popped colour's unit keeps the rest of the queue valid, and
      the popped colour is a non-empty token whose tube is its own. */
  lemma QueueStep(colors: seq<Color>, queue: seq<Color>, tubeByColor: map<Color, nat>, inventory: map<Color, int>)
    requires ValidSelection(colors)
    requires forall c :: c in tubeByColor ==> tubeByColor[c] < |colors| && colors[tubeByColor[c]] == c
    requires |queue| > 0 && QueueState(queue, tubeByColor, inventory)
    ensures queue[0] in tubeByColor && Units(inventory, queue[0]) > 0 && queue[0] != ""
    ensures tubeByColor[queue[0]] < |colors| && colors[tubeByColor[queue[0]]] == queue[0]
    ensures QueueState(queue[1..], tubeByColor, inventory[queue[0] := Units(inventory, queue[0]) - 1])
  {
    PopHead(queue);
    assert queue[0] in queue;
    var after := inventory[queue[0] := Units(inventory, queue[0]) - 1];
    forall c | c in queue[1..] ensures c in tubeByColor && Units(after, c) > 0 {
      assert c in queue && c != queue[0];
    }
  }

  /** One pass of the engine's loop after the colour is chosen: the target
      tube is read from a fresh clone, the colour goes into its first empty
      slot in the working array, the colour's count and the total drop by
      one, and the event and a snapshot of the array are recorded. */
  method PlaceUnit(colors: seq<Color>, tubeByColor: map<Color, nat>, tubes: array2<Slot>,
                   inventory: map<Color, int>, remaining: int, states: seq<Grid>, events: seq<FillEvent>,
                   targetTubeIndex: nat, color: Color)
    returns (inventory': map<Color, int>, remaining': int, states': seq<Grid>, events': seq<FillEvent>)
    requires ValidSelection(colors) && EngineState(colors, tubeByColor, inventory, remaining, states, events)
    requires Mirrors(tubes, states[|states| - 1])
    requires targetTubeIndex < |colors| && colors[targetTubeIndex] == color && Units(inventory, color) > 0
    modifies tubes
    ensures inventory' == inventory[color := Units(inventory, color) - 1] && remaining' == remaining - 1
    ensures events' == events + [FillEvent(targetTubeIndex, color)]
    ensures HasRoom(states[|states| - 1], targetTubeIndex) &&
      states' == states + [Deposit(states[|states| - 1], targetTubeIndex, color)]
    ensures EngineState(colors, tubeByColor, inventory', remaining', states', events')
    ensures Mirrors(tubes, states'[|states'| - 1])
  {
    ghost var grid := states[|states| - 1];
    CloneOfMirror(tubes, grid);
    var targetTube := CloneTubes(tubes)[targetTubeIndex];
    DepositStep(colors, tubeByColor, inventory, remaining, states, events, targetTubeIndex);
    var slotIndex := FirstEmpty(targetTube);
    if slotIndex == -1 {
      // the source's full-tube branch (inventory set to 0): never taken
      assert false;
    }
    ghost var next := Deposit(grid, targetTubeIndex, color);
    WriteSlot(tubes, grid, targetTubeIndex, slotIndex, Some(color));
    inventory' := inventory[color := Units(inventory, color) - 1];
    remaining' := remaining - 1;
    CloneOfMirror(tubes, next);
    var after := CloneTubes(tubes);
    events' := events + [FillEvent(targetTubeIndex, color)];
    states' := states + [after];
  }

  /** `queue.shift()`: the head and the rest, or nothing on an empty queue. */
  method Shift(queue: seq<Color>) returns (head: Option<Color>, rest: seq<Color>)
    ensures |queue| == 0 ==> head == None && rest == queue
    ensures |queue| > 0 ==> head == Some(queue[0]) && rest == queue[1..] && [queue[0]] + rest == queue
  {
    if |queue| == 0 {
      head, rest := None, queue;
    } else {
      head, rest := Some(queue[0]), queue[1..];
    }
  }

  /** The state before the first pass: the empty grid recorded, no events,
      every unit outstanding. */
  lemma EngineStart(colors: seq<Color>, tubeByColor: map<Color, nat>, inventory: map<Color, int>)
    requires forall i :: 0 <= i < |colors| ==> Units(inventory, colors[i]) == MAX_LEVELS
    requires forall i :: 0 <= i < |colors| ==> colors[i] in tubeByColor
    requires forall c :: c in tubeByColor ==> tubeByColor[c] < |colors| && colors[tubeByColor[c]] == c
    ensures EngineState(colors, tubeByColor, inventory, |colors| * MAX_LEVELS, [GetEmptyTubes(|colors|)], [])
  {
    OutstandingInitial(colors, inventory);
    FullSupplyLayout(colors, inventory);
  }

  /** With nothing outstanding the history is complete: one event per unit
      and every tube full of its own colour. */
  lemma EngineDone(colors: seq<Color>, tubeByColor: map<Color, nat>, inventory: map<Color, int>,
                   remaining: int, states: seq<Grid>, events: seq<FillEvent>)
    requires EngineState(colors, tubeByColor, inventory, remaining, states, events) && remaining <= 0
    ensures History(colors, states, events)
    ensures |events| == |colors| * MAX_LEVELS
    ensures states[|states| - 1] == FullTubes(colors)
    ensures |colors| == 0 ==> states == [[]] && events == []
  {
    AllPlaced(colors, inventory);
    if |colors| == 0 {
      assert states[0] == [];
    }
  }

  /** A fresh working array mirrors the empty grid. */
  lemma FreshMirror(tubes: array2<Slot>)
    requires tubes.Length1 == MAX_LEVELS
    requires forall i, j :: 0 <= i < tubes.Length0 && 0 <= j < tubes.Length1 ==> tubes[i, j] == None
    ensures Mirrors(tubes, GetEmptyTubes(tubes.Length0))
  {
  }

  /** The whole loop invariant of the engine: the bookkeeping, the working
      array showing the last snapshot, and the round's queue. */
  ghost predicate Running(colors: seq<Color>, tubeByColor: map<Color, nat>, tubes: array2<Slot>,
                  inventory: map<Color, int>, remaining: int, states: seq<Grid>, events: seq<FillEvent>,
                  queue: seq<Color>)
    reads tubes
  {
    EngineState(colors, tubeByColor, inventory, remaining, states, events) &&
    Mirrors(tubes, states[|states| - 1]) && QueueState(queue, tubeByColor, inventory)
  }

  /** One pass of the engine's loop: refill the queue with a shuffle of the
      colours that still have units when it is empty, take its head, and
      place one unit of that colour in its tube. Every pass places a unit. */
  method FillPass(colors: seq<Color>, tubeByColor: map<Color, nat>, tubes: array2<Slot>,
                  inventory: map<Color, int>, remaining: int, states: seq<Grid>, events: seq<FillEvent>,
                  queue: seq<Color>)
    returns (inventory': map<Color, int>, remaining': int, states': seq<Grid>, events': seq<FillEvent>,
             queue': seq<Color>)
    requires ValidSelection(colors) && Running(colors, tubeByColor, tubes, inventory, remaining, states, events, queue)
    requires remaining > 0
    modifies tubes
    ensures remaining' == remaining - 1
    ensures |states'| == |states| + 1 && states'[..|states|] == states
    ensures |queue| > 0 ==>
      (queue[0] in tubeByColor && queue' == queue[1..] &&
       events' == events + [FillEvent(tubeByColor[queue[0]], queue[0])] &&
       inventory' == inventory[queue[0] := Units(inventory, queue[0]) - 1])
    ensures |queue| == 0 ==>
      (|events'| == |events| + 1 && events'[..|events|] == events &&
       var poured := events'[|events|];
       poured.tubeIndex < |colors| && poured.color == colors[poured.tubeIndex] &&
       inventory' == inventory[poured.color := Units(inventory, poured.color) - 1] &&
       multiset([poured.color] + queue') == multiset(Available(colors, inventory)))
    ensures Running(colors, tubeByColor, tubes, inventory', remaining', states', events', queue')
  {
    queue' := queue;
    if |queue'| == 0 {
      var availableColors := Available(colors, inventory);
      queue' := ShuffleColors(availableColors);
      Refill(colors, tubeByColor, inventory, queue');
    }
    QueueStep(colors, queue', tubeByColor, inventory);
    ghost var round := queue';

    var nextColor;
    nextColor, queue' := Shift(queue');
    if nextColor.None? || nextColor.value == "" {
      // the source's `continue` on an empty shift: never taken
      assert false;
    }
    var color := nextColor.value;
    if color !in tubeByColor {
      // the source's `continue` on an unknown colour: never taken
      assert false;
    }
    var targetTubeIndex := tubeByColor[color];
    inventory', remaining', states', events' :=
      PlaceUnit(colors, tubeByColor, tubes, inventory, remaining, states, events, targetTubeIndex, color);
    assert states'[..|states|] == states;
    assert colors[targetTubeIndex] == color;
    assert [colors[targetTubeIndex]] + queue' == round;
    assert events'[..|events|] == events;
  }

  method GenerateFillResult(selectedColors: seq<Color>) returns (result: FillResult)
    requires ValidSelection(selectedColors)
    ensures result.selectedColors == selectedColors
    ensures History(selectedColors, result.states, result.events)
    ensures |result.events| == |selectedColors| * MAX_LEVELS
    ensures result.states[|result.states| - 1] == FullTubes(selectedColors)
    ensures |selectedColors| == 0 ==> result.states == [[]] && result.events == []
  {
    var tubes := new Slot[|selectedColors|, MAX_LEVELS]((_, _) => None);
    var inventory, tubeByColor := IndexColors(selectedColors);

    var events: seq<FillEvent> := [];
    FreshMirror(tubes);
    CloneOfMirror(tubes, GetEmptyTubes(|selectedColors|));
    var states: seq<Grid> := [CloneTubes(tubes)];
    var remaining := |selectedColors| * MAX_LEVELS;
    var queue: seq<Color> := [];
    EngineStart(selectedColors, tubeByColor, inventory);

    while remaining > 0
      invariant Running(selectedColors, tubeByColor, tubes, inventory, remaining, states, events, queue)
      decreases remaining
    {
      inventory, remaining, states, events, queue :=
        FillPass(selectedColors, tubeByColor, tubes, inventory, remaining, states, events, queue);
    }

    EngineDone(selectedColors, tubeByColor, inventory, remaining, states, events);
    result := FillResult(states, events, selectedColors);
  }

  // ---------------------------------------------------------------------
  // Properties of a recorded run
  // ---------------------------------------------------------------------

  /** The number of filled slots of a tube. */
  function Filled(tube: seq<Slot>): (n: nat)
    ensures n <= |tube|
    ensures n == 0 <==> forall j :: 0 <= j < |tube| ==> tube[j] == None
  {
    if |tube| == 0 then 0
    else
      assert forall j :: 0 < j < |tube| ==> tube[j] == tube[1..][j - 1];
      (if tube[0] == None then 0 else 1) + Filled(tube[1..])
  }

  /** A tube with `filled` units at the bottom has `filled` filled slots. */
  lemma {:induction false} FilledTubeOf(c: Color, filled: nat)
    requires filled <= MAX_LEVELS
    ensures Filled(TubeOf(c, filled)) == filled
  {
    FilledPrefix(TubeOf(c, filled), filled);
  }

  lemma {:induction false} FilledPrefix(tube: seq<Slot>, h: nat)
    requires h <= |tube|
    requires forall j :: 0 <= j < |tube| ==> (tube[j] != None <==> j < h)
    ensures Filled(tube) == h
  {
    if |tube| > 0 {
      assert forall j :: 0 <= j < |tube[1..]| ==> tube[1..][j] == tube[j + 1];
      if h == 0 {
        FilledPrefix(tube[1..], 0);
      } else {
        FilledPrefix(tube[1..], h - 1);
      }
    }
  }

  /** The lowest empty slot of a partly filled tube is just above its units,
      and filling it adds one unit. */
  lemma DepositTubeOf(c: Color, filled: nat)
    requires filled < MAX_LEVELS
    ensures FirstEmpty(TubeOf(c, filled)) == filled
    ensures TubeOf(c, filled)[filled := Some(c)] == TubeOf(c, filled + 1)
  {
    var tube := TubeOf(c, filled);
    assert tube[filled] == None;
  }

  /** The loop invariant "units left plus units in the tube is the capacity":
      in the layout of an inventory, tube i holds MAX_LEVELS minus the
      units of colors[i] still to place. */
  lemma LayoutAccounts(colors: seq<Color>, inventory: map<Color, int>, i: nat)
    requires InRange(colors, inventory) && i < |colors|
    ensures Filled(Layout(colors, inventory)[i]) + Units(inventory, colors[i]) == MAX_LEVELS
  {
    FilledTubeOf(colors[i], MAX_LEVELS - Units(inventory, colors[i]));
  }

  /** Every tube of a grid is a stack of its own colour: filled slots form a
      prefix and hold only that colour. */
  ghost predicate Stacked(g: Grid, colors: seq<Color>) {
    |g| == |colors| &&
    forall i :: 0 <= i < |g| ==> Filled(g[i]) <= MAX_LEVELS && g[i] == TubeOf(colors[i], Filled(g[i]))
  }

  /** Depositing a tube's own colour into a stacked grid keeps it stacked
      and adds exactly one unit to that tube and none to the others. */
  lemma DepositStacked(colors: seq<Color>, g: Grid, t: nat)
    requires Stacked(g, colors) && HasRoom(g, t)
    ensures Stacked(Deposit(g, t, colors[t]), colors)
    ensures forall i :: 0 <= i < |g| ==>
      Filled(Deposit(g, t, colors[t])[i]) == Filled(g[i]) + (if i == t then 1 else 0)
  {
    var f := Filled(g[t]);
    assert f < MAX_LEVELS;
    DepositTubeOf(colors[t], f);
    FilledTubeOf(colors[t], f + 1);
    assert Deposit(g, t, colors[t]) == g[t := TubeOf(colors[t], f + 1)];
  }

  /** Every snapshot of a run is stacked: units only ever land on top of the
      units already in a tube, and only in their own colour's tube. */
  lemma {:induction false} HistoryStacked(colors: seq<Color>, states: seq<Grid>, events: seq<FillEvent>, k: nat)
    requires History(colors, states, events) && k < |states|
    ensures Stacked(states[k], colors)
  {
    if k == 0 {
      var g := states[0];
      forall i | 0 <= i < |g| ensures Filled(g[i]) <= MAX_LEVELS && g[i] == TubeOf(colors[i], Filled(g[i])) {
        assert Filled(g[i]) == 0;
      }
    } else {
      HistoryStacked(colors, states, events, k - 1);
      DepositStacked(colors, states[k - 1], events[k - 1].tubeIndex);
    }
  }

  /** A filled slot is never overwritten or cleared by a later event. */
  lemma {:induction false} FilledSlotsPersist(states: seq<Grid>, events: seq<FillEvent>,
                                              k1: nat, k2: nat, i: nat, j: nat)
    requires Replays(states, events) && k1 <= k2 < |states|
    requires i < |states[k1]| && j < |states[k1][i]| && states[k1][i][j] != None
    ensures i < |states[k2]| && j < |states[k2][i]| && states[k2][i][j] == states[k1][i][j]
  {
    if k1 < k2 {
      FilledSlotsPersist(states, events, k1, k2 - 1, i, j);
      var g, t := states[k2 - 1], events[k2 - 1].tubeIndex;
      assert g[t][FirstEmpty(g[t])] == None;
    }
  }

  /** Snapshot k+1 is snapshot k with the one slot event k wrote: that slot
      was the lowest empty one of the event's tube and now holds the event's
      colour; every other slot is unchanged. */
  lemma SnapshotStep(states: seq<Grid>, events: seq<FillEvent>, k: nat)
    requires Replays(states, events) && k < |events|
    ensures var t := events[k].tubeIndex;
      t < |states[k]| && 0 <= FirstEmpty(states[k][t]) && states[k][t][FirstEmpty(states[k][t])] == None &&
      states[k + 1][t][FirstEmpty(states[k][t])] == Some(events[k].color)
    ensures forall i, j ::
      (0 <= i < |states[k]| && 0 <= j < |states[k][i]| && (i != events[k].tubeIndex || j != FirstEmpty(states[k][i])))
      ==> states[k + 1][i][j] == states[k][i][j]
  {
  }

  /** The number of events that poured into tube i. */
  function Deliveries(events: seq<FillEvent>, i: nat): (n: nat)
    ensures n <= |events|
  {
    if |events| == 0 then 0
    else Deliveries(events[..|events| - 1], i) + (if events[|events| - 1].tubeIndex == i then 1 else 0)
  }

  /** Tube i of snapshot k holds exactly as many units as events before k
      poured into it. */
  lemma {:induction false} FilledCountsDeliveries(colors: seq<Color>, states: seq<Grid>, events: seq<FillEvent>,
                                                  k: nat, i: nat)
    requires History(colors, states, events) && k < |states| && i < |colors|
    ensures i < |states[k]| && Filled(states[k][i]) == Deliveries(events[..k], i)
  {
    if k == 0 {
      assert Filled(states[0][i]) == 0;
    } else {
      FilledCountsDeliveries(colors, states, events, k - 1, i);
      HistoryStacked(colors, states, events, k - 1);
      assert events[..k][..k - 1] == events[..k - 1];
      DeliveriesStep(colors, states[k - 1], events[..k], i);
    }
  }

  /** The counting step: the event that deposits into a stacked grid adds
      one to its tube's count of both units and deliveries. */
  lemma DeliveriesStep(colors: seq<Color>, g: Grid, events: seq<FillEvent>, i: nat)
    requires |events| > 0 && Stacked(g, colors) && HasRoom(g, events[|events| - 1].tubeIndex) && i < |colors|
    requires Filled(g[i]) == Deliveries(events[..|events| - 1], i)
    ensures Filled(Deposit(g, events[|events| - 1].tubeIndex, colors[events[|events| - 1].tubeIndex])[i]) == Deliveries(events, i)
  {
  }

  /** A completed run pours exactly MAX_LEVELS units into every tube. */
  lemma CompleteRunDeliveries(colors: seq<Color>, states: seq<Grid>, events: seq<FillEvent>, i: nat)
    requires History(colors, states, events) && states[|states| - 1] == FullTubes(colors) && i < |colors|
    ensures Deliveries(events, i) == MAX_LEVELS
  {
    FilledCountsDeliveries(colors, states, events, |states| - 1, i);
    assert events[..|states| - 1] == events;
    FilledTubeOf(colors[i], MAX_LEVELS);
    assert FullTubes(colors)[i] == TubeOf(colors[i], MAX_LEVELS);
  }
}
