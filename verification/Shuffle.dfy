/** The wall shuffle: each tile of the table goes to the k-th slot that is still empty. */
module Shuffle {

  /** How many of the first `j` slots are not used. */
  function CountFree(used: seq<nat>, j: nat): nat {
    if j == 0 then 0 else CountFree(used, j - 1) + if j - 1 in used then 0 else 1
  }

  /** Slots below `n`, all different. */
  ghost predicate Distinct(slots: seq<nat>, n: nat) {
    && (forall i :: 0 <= i < |slots| ==> slots[i] < n)
    && forall i, j :: 0 <= i < j < |slots| ==> slots[i] != slots[j]
  }

  /** A random number for each tile, below the number of slots still empty. */
  ghost predicate InRange(choices: seq<nat>, n: nat) {
    |choices| <= n && forall i :: 0 <= i < |choices| ==> choices[i] < n - i
  }

  /** The scan of the inner loop: the empty slot found after passing over `k` empty ones. */
  function Scan(used: seq<nat>, n: nat, j: nat, k: nat): nat
    decreases n - j
  {
    if j >= n then n
    else if j in used then Scan(used, n, j + 1, k)
    else if k == 0 then j
    else Scan(used, n, j + 1, k - 1)
  }

  /** The slots the tiles go to. */
  function Slots(choices: seq<nat>, n: nat): (s: seq<nat>)
    ensures |s| == |choices|
  {
    if choices == [] then []
    else
      var i := |choices| - 1;
      var before := Slots(choices[..i], n);
      before + [Scan(before, n, 0, choices[i])]
  }

  /** The choices read back from the slots: how many empty slots each one passed over. */
  function Choices(slots: seq<nat>): (r: seq<nat>)
    ensures |r| == |slots|
  {
    if slots == [] then []
    else
      var i := |slots| - 1;
      Choices(slots[..i]) + [CountFree(slots[..i], slots[i])]
  }

  // ----- Counting empty slots -----

  lemma {:induction false} CountAfterUse(used: seq<nat>, x: nat, j: nat)
    requires x !in used
    ensures CountFree(used + [x], j) == CountFree(used, j) - if x < j then 1 else 0
    ensures x < j ==> CountFree(used, j) > 0
  {
    if j != 0 {
      CountAfterUse(used, x, j - 1);
    }
  }

  lemma {:induction false} CountNone(j: nat)
    ensures CountFree([], j) == j
  {
    if j != 0 { CountNone(j - 1); }
  }

  lemma {:induction false} CountAll(slots: seq<nat>, n: nat)
    requires Distinct(slots, n)
    ensures CountFree(slots, n) == n - |slots|
  {
    if slots == [] {
      CountNone(n);
    } else {
      var i := |slots| - 1;
      CountAll(slots[..i], n);
      CountAfterUse(slots[..i], slots[i], n);
      assert slots == slots[..i] + [slots[i]];
    }
  }

  lemma {:induction false} CountGrows(used: seq<nat>, a: nat, b: nat)
    requires a <= b
    ensures CountFree(used, a) <= CountFree(used, b)
    ensures a < b && a !in used ==> CountFree(used, a) < CountFree(used, b)
    decreases b - a
  {
    if a < b {
      CountGrows(used, a, b - 1);
    }
  }

  /** The scan stops at the one empty slot with the given number of empty slots before it. */
  lemma {:induction false} ScanFinds(used: seq<nat>, n: nat, j: nat, k: nat)
    requires j <= n && CountFree(used, j) + k < CountFree(used, n)
    ensures var s := Scan(used, n, j, k);
            j <= s < n && s !in used && CountFree(used, s) == CountFree(used, j) + k
    decreases n - j
  {
    if j < n {
      if j in used {
        ScanFinds(used, n, j + 1, k);
      } else if k > 0 {
        ScanFinds(used, n, j + 1, k - 1);
      }
    }
  }

  lemma OneSlotPerCount(used: seq<nat>, a: nat, b: nat)
    requires a !in used && b !in used && CountFree(used, a) == CountFree(used, b)
    ensures a == b
  {
    if a < b { CountGrows(used, a, b); } else if b < a { CountGrows(used, b, a); }
  }

  // ----- The placement is a bijection -----

  /** With `before` already placed, the scan and the count undo each other. */
  lemma OnePlacement(before: seq<nat>, n: nat, k: nat)
    requires Distinct(before, n) && k < n - |before|
    ensures var s := Scan(before, n, 0, k); s < n && s !in before && CountFree(before, s) == k
  {
    CountAll(before, n);
    ScanFinds(before, n, 0, k);
  }

  lemma OneChoice(before: seq<nat>, n: nat, s: nat)
    requires Distinct(before, n) && s < n && s !in before
    ensures CountFree(before, s) < n - |before| && Scan(before, n, 0, CountFree(before, s)) == s
  {
    CountAll(before, n);
    CountGrows(before, s, n);
    OnePlacement(before, n, CountFree(before, s));
    OneSlotPerCount(before, s, Scan(before, n, 0, CountFree(before, s)));
  }

  /** The scan always finds a slot, and the slots are all different. */
  lemma {:induction false} SlotsDistinct(choices: seq<nat>, n: nat)
    requires InRange(choices, n)
    ensures Distinct(Slots(choices, n), n)
  {
    if choices != [] {
      var i := |choices| - 1;
      SlotsDistinct(choices[..i], n);
      OnePlacement(Slots(choices[..i], n), n, choices[i]);
    }
  }

  lemma SlotsGrow(choices: seq<nat>, n: nat, k: nat)
    ensures Slots(choices + [k], n) == Slots(choices, n) + [Scan(Slots(choices, n), n, 0, k)]
  {
  }

  lemma ChoicesGrow(slots: seq<nat>, s: nat)
    ensures Choices(slots + [s]) == Choices(slots) + [CountFree(slots, s)]
  {
  }

  /** The choices can be read back from the placement, so different choices place differently. */
  lemma {:induction false} ChoicesOfSlots(choices: seq<nat>, n: nat)
    requires InRange(choices, n)
    ensures Choices(Slots(choices, n)) == choices
  {
    if choices != [] {
      var i := |choices| - 1;
      var r, k := choices[..i], choices[i];
      ChoicesOfSlots(r, n);
      SlotsDistinct(r, n);
      OnePlacement(Slots(r, n), n, k);
      assert choices == r + [k];
      ChoicesGrow(Slots(r, n), Scan(Slots(r, n), n, 0, k));
    }
  }

  /** Every placement comes from some choices. */
  lemma {:induction false} SlotsOfChoices(slots: seq<nat>, n: nat)
    requires Distinct(slots, n) && |slots| <= n
    ensures InRange(Choices(slots), n) && Slots(Choices(slots), n) == slots
  {
    if slots != [] {
      var i := |slots| - 1;
      var before, s := slots[..i], slots[i];
      SlotsOfChoices(before, n);
      OneChoice(before, n, s);
      assert slots == before + [s];
      SlotsGrow(Choices(before), n, CountFree(before, s));
    }
  }

  lemma {:induction false} FreeSlots(used: seq<nat>, j: nat)
    ensures CountFree(used, j) == |set k: nat | k < j && k !in used|
  {
    if j == 0 {
      assert (set k: nat | k < j && k !in used) == {};
    } else {
      FreeSlots(used, j - 1);
      var before := set k: nat | k < j - 1 && k !in used;
      assert (set k: nat | k < j && k !in used) == before + if j - 1 in used then {} else {j - 1};
    }
  }

  lemma {:induction false} SlotsBefore(choices: seq<nat>, n: nat, i: nat)
    requires i <= |choices|
    ensures Slots(choices, n)[..i] == Slots(choices[..i], n)
  {
    var last := |choices| - 1;
    if i == |choices| {
      assert choices[..i] == choices;
    } else {
      SlotsBefore(choices[..last], n, i);
      assert choices[..last][..i] == choices[..i];
    }
  }

  /** Each tile goes to the empty slot that has as many empty ones before it as its random number says. */
  lemma SlotPassesOver(choices: seq<nat>, n: nat, i: nat)
    requires InRange(choices, n) && i < |choices|
    ensures var slot, used := Slots(choices, n)[i], Slots(choices, n)[..i];
            slot < n && slot !in used && |set k: nat | k < slot && k !in used| == choices[i]
  {
    var used := Slots(choices[..i], n);
    SlotsBefore(choices, n, i);
    SlotsBefore(choices, n, i + 1);
    assert choices[..i + 1] == choices[..i] + [choices[i]];
    SlotsGrow(choices[..i], n, choices[i]);
    SlotsDistinct(choices[..i], n);
    OnePlacement(used, n, choices[i]);
    FreeSlots(used, Scan(used, n, 0, choices[i]));
  }

  // ----- Filling the wall -----

  ghost function Blanks(k: nat): seq<int> {
    seq(k, _ => 0)
  }

  lemma PlaceTile(was: seq<int>, j: nat, tile: int, placed: multiset<int>, k: nat)
    requires j < |was| && was[j] == 0 && multiset(was) == placed + multiset(Blanks(k + 1))
    ensures multiset(was[j := tile]) == placed + multiset{tile} + multiset(Blanks(k))
  {
    assert Blanks(k + 1) == Blanks(k) + [0];
    assert multiset(was[j := tile]) == multiset(was) - multiset{0} + multiset{tile};
  }

  /** The wall under construction: tile `k` stands in slot `slots[k]`, and the other slots are empty. */
  ghost predicate Wall(mj: seq<int>, all: seq<int>, slots: seq<nat>) {
    && |slots| <= |all| <= |mj| && Distinct(slots, |all|)
    && (forall j :: 0 <= j < |all| ==> (mj[j] == 0 <==> j !in slots))
    && (forall k :: 0 <= k < |slots| ==> mj[slots[k]] == all[k])
    && multiset(mj[..|all|]) == multiset(all[..|slots|]) + multiset(Blanks(|all| - |slots|))
  }

  lemma AddToWall(mj: seq<int>, all: seq<int>, slots: seq<nat>, j: nat)
    requires Wall(mj, all, slots) && |slots| < |all| && j < |all| && j !in slots
    requires all[|slots|] != 0
    ensures Wall(mj[j := all[|slots|]], all, slots + [j])
  {
    WallTiles(mj, all, slots, j);
  }

  lemma WallTiles(mj: seq<int>, all: seq<int>, slots: seq<nat>, j: nat)
    requires |slots| < |all| <= |mj| && j < |all| && mj[j] == 0
    requires multiset(mj[..|all|]) == multiset(all[..|slots|]) + multiset(Blanks(|all| - |slots|))
    ensures multiset(mj[j := all[|slots|]][..|all|])
            == multiset(all[..|slots| + 1]) + multiset(Blanks(|all| - |slots| - 1))
  {
    var n, i := |all|, |slots|;
    PlaceTile(mj[..n], j, all[i], multiset(all[..i]), n - i - 1);
    assert mj[j := all[i]][..n] == mj[..n][j := all[i]];
    assert all[..i + 1] == all[..i] + [all[i]];
  }

  method ClearWall(mj: array<int>)
    modifies mj
    ensures forall j :: 0 <= j < mj.Length ==> mj[j] == 0
  {
    var q := 0;
    while q < mj.Length
      invariant q <= mj.Length && forall j :: 0 <= j < q ==> mj[j] == 0
    {
      mj[q] := 0;
      q := q + 1;
    }
  }

  lemma EmptyWall(mj: seq<int>, all: seq<int>)
    requires |all| <= |mj| && forall j :: 0 <= j < |mj| ==> mj[j] == 0
    ensures Wall(mj, all, [])
  {
    assert mj[..|all|] == Blanks(|all|);
  }

  /** Shuffles the tile table into the wall buffer: the wall is a permutation of the table, and
      the choices decide which. */
  method GenerateCard(mj: array<int>, all: seq<int>, choices: seq<nat>)
    requires |all| <= mj.Length && |choices| == |all| && InRange(choices, |all|)
    requires forall k :: 0 <= k < |all| ==> all[k] != 0
    modifies mj
    ensures multiset(mj[..|all|]) == multiset(all)
    ensures forall k :: 0 <= k < |all| ==> Slots(choices, |all|)[k] < |all|
    ensures forall k :: 0 <= k < |all| ==> mj[Slots(choices, |all|)[k]] == all[k]
    ensures forall j :: |all| <= j < mj.Length ==> mj[j] == 0
  {
    var n := |all|;
    ClearWall(mj);
    EmptyWall(mj[..], all);
    var i := 0;
    ghost var slots: seq<nat> := [];
    while i < n
      invariant i <= n && slots == Slots(choices[..i], n) && Wall(mj[..], all, slots)
      invariant forall j :: n <= j < mj.Length ==> mj[j] == 0
    {
      slots := PlaceNext(mj, all, choices, i, slots);
      i := i + 1;
    }
    WholeWall(mj[..], all, choices, slots);
  }

  lemma WholeWall(mj: seq<int>, all: seq<int>, choices: seq<nat>, slots: seq<nat>)
    requires |slots| == |all| == |choices| && slots == Slots(choices[..|all|], |all|) && Wall(mj, all, slots)
    ensures slots == Slots(choices, |all|) && multiset(mj[..|all|]) == multiset(all)
  {
    assert choices[..|all|] == choices && all[..|all|] == all;
    assert Blanks(0) == [];
  }

  lemma NextSlot(all: seq<int>, choices: seq<nat>, i: nat, slots: seq<nat>)
    requires i < |all| == |choices| && InRange(choices, |all|)
    requires slots == Slots(choices[..i], |all|) && |slots| == i && Distinct(slots, |all|)
    ensures var j := Scan(slots, |all|, 0, choices[i]);
            j < |all| && j !in slots && slots + [j] == Slots(choices[..i + 1], |all|)
  {
    OnePlacement(slots, |all|, choices[i]);
    assert choices[..i + 1] == choices[..i] + [choices[i]];
    SlotsGrow(choices[..i], |all|, choices[i]);
  }

  /** One turn of the outer loop. */
  method PlaceNext(mj: array<int>, all: seq<int>, choices: seq<nat>, i: nat, ghost slots: seq<nat>)
    returns (ghost more: seq<nat>)
    requires i < |all| == |choices| && all[i] != 0 && InRange(choices, |all|)
    requires slots == Slots(choices[..i], |all|) && Wall(mj[..], all, slots)
    modifies mj
    ensures more == Slots(choices[..i + 1], |all|) && Wall(mj[..], all, more)
    ensures forall j :: |all| <= j < mj.Length ==> mj[j] == old(mj[j])
  {
    NextSlot(all, choices, i, slots);
    var j := FindSlot(mj, slots, |all|, choices[i]);
    ghost var was := mj[..];
    AddToWall(was, all, slots, j);
    mj[j] := all[i];
    assert mj[..] == was[j := all[i]];
    more := slots + [j];
  }

  method FindSlot(mj: array<int>, ghost slots: seq<nat>, n: nat, choice: nat) returns (j: nat)
    requires n <= mj.Length && forall q :: 0 <= q < n ==> (mj[q] == 0 <==> q !in slots)
    requires Scan(slots, n, 0, choice) < n
    ensures j == Scan(slots, n, 0, choice)
  {
    var index := 0;
    j := 0;
    while j < n
      invariant j <= n && 0 <= index <= choice
      invariant Scan(slots, n, j, choice - index) == Scan(slots, n, 0, choice)
    {
      if mj[j] == 0 {
        if index == choice { break; }
        index := index + 1;
      }
      j := j + 1;
    }
  }
}
