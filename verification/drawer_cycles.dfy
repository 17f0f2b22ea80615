/**
 What repeated clicks on one drawer row do: every rotating toggle walks its
 cycle with a fixed period, every flip is an involution, and the rows that do
 not edit the record leave it alone however often they are clicked.
 */
module DrawerCycles {
  import opened CropOptions
  import opened Platform
  import opened Drawer
  import Labels

  /** For a position `a` on a cycle of length `m`, one step then `n` more lands where `n + 1` steps do. */
  lemma ShiftMod(a: nat, n: nat, m: nat)
    requires a < m
    requires m == 3 || m == 4
    ensures ((a + 1) % m + n) % m == (a + 1 + n) % m
  {
  }

  /** `n` clicks on toggle-scale move the scale type `n` places along its cycle and touch nothing else. */
  lemma {:induction false} ScaleTypeOrbit(o: Options, env: Environment, n: nat)
    ensures Repeat(o, ToggleScale, env, n)
         == o.(scaleType := ScaleCycle[(ScaleIndex(o.scaleType) + n) % |ScaleCycle|])
    decreases n
  {
    if n > 0 {
      var next := Dispatch(o, ToggleScale, env).options;
      NextScaleTypeFollowsCycle(ScaleIndex(o.scaleType));
      assert ScaleIndex(next.scaleType) == (ScaleIndex(o.scaleType) + 1) % |ScaleCycle|;
      ScaleTypeOrbit(next, env, n - 1);
      ShiftMod(ScaleIndex(o.scaleType), n - 1, |ScaleCycle|);
    }
  }

  /** Toggle-scale returns the record to itself after exactly the multiples of four clicks. */
  lemma ScaleTypePeriod(o: Options, env: Environment, n: nat)
    ensures Repeat(o, ToggleScale, env, n) == o <==> n % 4 == 0
  {
    ScaleTypeOrbit(o, env, n);
    var i := ScaleIndex(o.scaleType);
    var j := (i + n) % 4;
    assert ScaleCycle[j] == o.scaleType <==> j == i;
  }

  /** Within one period toggle-scale visits every scale type once: four consecutive clicks show four different values. */
  lemma ScaleTypeVisitsEach(o: Options, env: Environment, i: nat, j: nat)
    requires i < j < 4
    ensures Repeat(o, ToggleScale, env, i).scaleType != Repeat(o, ToggleScale, env, j).scaleType
  {
    ScaleTypeOrbit(o, env, i);
    ScaleTypeOrbit(o, env, j);
    var k := ScaleIndex(o.scaleType);
    assert (k + i) % 4 != (k + j) % 4;
  }

  /** `n` clicks on toggle-guidelines move the guidelines `n` places along their cycle and touch nothing else. */
  lemma {:induction false} GuidelinesOrbit(o: Options, env: Environment, n: nat)
    ensures Repeat(o, ToggleGuidelines, env, n)
         == o.(guidelines := GuidelinesCycle[(GuidelinesIndex(o.guidelines) + n) % |GuidelinesCycle|])
    decreases n
  {
    if n > 0 {
      var next := Dispatch(o, ToggleGuidelines, env).options;
      NextGuidelinesFollowsCycle(GuidelinesIndex(o.guidelines));
      assert GuidelinesIndex(next.guidelines) == (GuidelinesIndex(o.guidelines) + 1) % |GuidelinesCycle|;
      GuidelinesOrbit(next, env, n - 1);
      ShiftMod(GuidelinesIndex(o.guidelines), n - 1, |GuidelinesCycle|);
    }
  }

  /** Toggle-guidelines returns the record to itself after exactly the multiples of three clicks. */
  lemma GuidelinesPeriod(o: Options, env: Environment, n: nat)
    ensures Repeat(o, ToggleGuidelines, env, n) == o <==> n % 3 == 0
  {
    GuidelinesOrbit(o, env, n);
    var i := GuidelinesIndex(o.guidelines);
    var j := (i + n) % 3;
    assert GuidelinesCycle[j] == o.guidelines <==> j == i;
  }

  /** Three consecutive toggle-guidelines clicks show three different values. */
  lemma GuidelinesVisitsEach(o: Options, env: Environment, i: nat, j: nat)
    requires i < j < 3
    ensures Repeat(o, ToggleGuidelines, env, i).guidelines != Repeat(o, ToggleGuidelines, env, j).guidelines
  {
    GuidelinesOrbit(o, env, i);
    GuidelinesOrbit(o, env, j);
    var k := GuidelinesIndex(o.guidelines);
    assert (k + i) % 3 != (k + j) % 3;
  }

  /** On the cycle 4 -> 8 -> 2, `n` clicks on toggle-max-zoom move the level `n` places and touch nothing else. */
  lemma {:induction false} MaxZoomOrbit(o: Options, env: Environment, n: nat)
    requires o.maxZoomLevel in ZoomCycle
    ensures Repeat(o, ToggleMaxZoom, env, n)
         == o.(maxZoomLevel := ZoomCycle[(ZoomIndex(o.maxZoomLevel) + n) % |ZoomCycle|])
    decreases n
  {
    if n > 0 {
      var next := Dispatch(o, ToggleMaxZoom, env).options;
      NextMaxZoomLevelFollowsCycle(o.maxZoomLevel);
      assert ZoomIndex(next.maxZoomLevel) == (ZoomIndex(o.maxZoomLevel) + 1) % |ZoomCycle|;
      MaxZoomOrbit(next, env, n - 1);
      ShiftMod(ZoomIndex(o.maxZoomLevel), n - 1, |ZoomCycle|);
    }
  }

  /**
   Toggle-max-zoom returns the record to itself after `n` clicks exactly when
   `n` is zero, or the level starts on the cycle {4, 8, 2} and `n` is a multiple
   of three. A level off the cycle is never seen again once clicked.
   */
  lemma MaxZoomPeriod(o: Options, env: Environment, n: nat)
    ensures Repeat(o, ToggleMaxZoom, env, n) == o
        <==> n == 0 || (o.maxZoomLevel in {2, 4, 8} && n % 3 == 0)
  {
    if o.maxZoomLevel in ZoomCycle {
      MaxZoomOrbit(o, env, n);
      var i := ZoomIndex(o.maxZoomLevel);
      var j := (i + n) % 3;
      assert ZoomCycle[j] == o.maxZoomLevel <==> j == i;
    } else if n > 0 {
      var next := Dispatch(o, ToggleMaxZoom, env).options;
      NextMaxZoomLevelFollowsCycle(o.maxZoomLevel);
      MaxZoomOrbit(next, env, n - 1);
      assert Repeat(o, ToggleMaxZoom, env, n).maxZoomLevel in ZoomCycle;
    }
  }

  /** A level off the cycle 4, 8, 2 is replaced by 4 on the first click, and nothing else changes. */
  lemma MaxZoomEntersAtFour(o: Options, env: Environment)
    requires o.maxZoomLevel !in ZoomCycle
    ensures Dispatch(o, ToggleMaxZoom, env).options == o.(maxZoomLevel := 4)
  {
  }

  /** From level 4, three clicks on toggle-max-zoom show 8, then 2, then 4 again. */
  lemma MaxZoomFromFour(o: Options, env: Environment)
    requires o.maxZoomLevel == 4
    ensures Repeat(o, ToggleMaxZoom, env, 1).maxZoomLevel == 8
    ensures Repeat(o, ToggleMaxZoom, env, 2).maxZoomLevel == 2
    ensures Repeat(o, ToggleMaxZoom, env, 3) == o
  {
  }

  /** Every flip row undoes itself and never leaves the record as it was. */
  lemma FlipIsInvolution(o: Options, id: DrawerOption, env: Environment)
    requires IsFlip(id)
    ensures Dispatch(Dispatch(o, id, env).options, id, env).options == o
    ensures Dispatch(o, id, env).options != o
  {
  }

  /** A flip row returns the record to itself after exactly the even numbers of clicks. */
  lemma {:induction false} FlipPeriod(o: Options, id: DrawerOption, env: Environment, n: nat)
    requires IsFlip(id)
    ensures Repeat(o, id, env, n) == (if n % 2 == 0 then o else Dispatch(o, id, env).options)
    ensures Repeat(o, id, env, n) == o <==> n % 2 == 0
    decreases n
  {
    FlipIsInvolution(o, id, env);
    if n > 0 {
      var next := Dispatch(o, id, env).options;
      FlipPeriod(next, id, env, n - 1);
      FlipIsInvolution(next, id, env);
    }
  }

  /** Rows that do not edit the record leave it unchanged however many times they are clicked. */
  lemma {:induction false} NonToggleRepeatKeepsOptions(o: Options, id: DrawerOption, env: Environment, n: nat)
    requires !IsToggle(id)
    ensures Repeat(o, id, env, n) == o
    decreases n
  {
    if n > 0 {
      NonToggleRepeatKeepsOptions(Dispatch(o, id, env).options, id, env, n - 1);
    }
  }

  /**
   No drawer row touches `fixAspectRatio` or `aspectRatio`, so no sequence of
   clicks changes the aspect-ratio label.
   */
  lemma {:induction false} DrawerKeepsAspectRatio(o: Options, ids: seq<DrawerOption>, env: Environment)
    ensures DispatchAll(o, ids, env).fixAspectRatio == o.fixAspectRatio
    ensures DispatchAll(o, ids, env).aspectRatio == o.aspectRatio
    ensures Labels.AspectRatioLabel(DispatchAll(o, ids, env)) == Labels.AspectRatioLabel(o)
    decreases |ids|
  {
    if |ids| > 0 {
      var r := Dispatch(o, ids[0], env);
      if IsToggle(ids[0]) {
        assert FixAspectRatioField !in ChangedFields(o, r.options);
        assert AspectRatioField !in ChangedFields(o, r.options);
      }
      DrawerKeepsAspectRatio(r.options, ids[1..], env);
    }
  }
}
