/**
 The navigation drawer of the sample activity: each drawer row applies one
 deterministic transition to the options record and names the calls it makes.
 */
module Drawer {
  import opened Optional
  import opened CropOptions
  import opened Platform

  /** The drawer rows, decoded from the clicked view's id; any other id is `Unknown`. */
  datatype DrawerOption =
    | Load
    | PresetOval
    | PresetRect
    | PresetCustomizedOverlay
    | PresetMinMaxOverride
    | PresetScaleCenter
    | ToggleScale
    | ToggleShape
    | ToggleGuidelines
    | ToggleAutoZoom
    | ToggleMaxZoom
    | SetInitialCropRect
    | ResetCropRect
    | ToggleMultitouch
    | ToggleShowOverlay
    | ToggleShowProgressBar
    | Unknown(viewId: int)

  /** The new record and the calls made, in order. */
  datatype Reaction = Reaction(options: Options, effects: seq<Effect>)

  /** The rows that edit the record. */
  predicate IsToggle(id: DrawerOption) {
    id.ToggleScale? || id.ToggleShape? || id.ToggleGuidelines? || id.ToggleAutoZoom?
    || id.ToggleMaxZoom? || id.ToggleMultitouch? || id.ToggleShowOverlay? || id.ToggleShowProgressBar?
  }

  /** The rows that flip a two-valued field. */
  predicate IsFlip(id: DrawerOption) {
    id.ToggleShape? || id.ToggleAutoZoom? || id.ToggleMultitouch?
    || id.ToggleShowOverlay? || id.ToggleShowProgressBar?
  }

  /** The one field a toggle row is about. */
  function ToggledField(id: DrawerOption): Field
    requires IsToggle(id)
  {
    match id
    case ToggleScale => ScaleTypeField
    case ToggleShape => CropShapeField
    case ToggleGuidelines => GuidelinesField
    case ToggleAutoZoom => AutoZoomEnabledField
    case ToggleMaxZoom => MaxZoomLevelField
    case ToggleMultitouch => MultitouchField
    case ToggleShowOverlay => ShowCropOverlayField
    case ToggleShowProgressBar => ShowProgressBarField
  }

  /** The demo preset each preset row installs. */
  function PresetOf(id: DrawerOption): Option<Preset> {
    match id
    case PresetOval => Some(Circular)
    case PresetRect => Some(Rect)
    case PresetCustomizedOverlay => Some(CustomizedOverlay)
    case PresetMinMaxOverride => Some(MinMaxOverride)
    case PresetScaleCenter => Some(ScaleCenterInside)
    case _ => None
  }

  /** FIT_CENTER -> CENTER_INSIDE -> CENTER -> CENTER_CROP; anything else -> FIT_CENTER. */
  function NextScaleType(s: ScaleType): ScaleType {
    if s == FitCenter then CenterInside
    else if s == CenterInside then Center
    else if s == Center then CenterCrop
    else FitCenter
  }

  function NextCropShape(s: CropShape): CropShape {
    if s == Rectangle then Oval else Rectangle
  }

  /** OFF -> ON -> ON_TOUCH; anything else -> OFF. */
  function NextGuidelines(g: Guidelines): Guidelines {
    if g == Off then On
    else if g == On then OnTouch
    else Off
  }

  /** 4 -> 8, 8 -> 2, and every other level -> 4. */
  function NextMaxZoomLevel(z: int32): int32 {
    if z == 4 then 8 else if z == 8 then 2 else 4
  }

  /** A toggle's result: the edited record, pushed to the fragment and then to the labels. */
  function Edited(o: Options): Reaction {
    Reaction(o, [PushOptions(o), RefreshLabels(o)])
  }

  /** `onDrawerOptionClicked`. */
  function Dispatch(o: Options, id: DrawerOption, env: Environment): (r: Reaction)
    ensures IsToggle(id) ==> r.effects == [PushOptions(r.options), RefreshLabels(r.options)]
    ensures IsToggle(id) ==> ChangedFields(o, r.options) == {ToggledField(id)}
    ensures !IsToggle(id) ==> r.options == o && |r.effects| == 1 && !PublishesOptions(r.effects[0])
    ensures id.Unknown? <==> r.effects == [Toast(UnknownOptionMessage)]
    ensures PresetOf(id).Some? ==> r.effects == [ShowPreset(PresetOf(id).value)]
    ensures id == SetInitialCropRect || id == ResetCropRect
            ==> r.effects == [if id == SetInitialCropRect then ApplyInitialCropRect else ApplyResetCropRect]
  {
    match id
    case Load =>
      if env.cameraPermissionRequired
      then Reaction(o, [RequestPermission(Camera, env.codes.cameraCapturePermissions)])
      else Reaction(o, [StartPickImage])
    case PresetOval => Reaction(o, [ShowPreset(Circular)])
    case PresetRect => Reaction(o, [ShowPreset(Rect)])
    case PresetCustomizedOverlay => Reaction(o, [ShowPreset(CustomizedOverlay)])
    case PresetMinMaxOverride => Reaction(o, [ShowPreset(MinMaxOverride)])
    case PresetScaleCenter => Reaction(o, [ShowPreset(ScaleCenterInside)])
    case ToggleScale => Edited(o.(scaleType := NextScaleType(o.scaleType)))
    case ToggleShape => Edited(o.(cropShape := NextCropShape(o.cropShape)))
    case ToggleGuidelines => Edited(o.(guidelines := NextGuidelines(o.guidelines)))
    case ToggleAutoZoom => Edited(o.(autoZoomEnabled := !o.autoZoomEnabled))
    case ToggleMaxZoom => Edited(o.(maxZoomLevel := NextMaxZoomLevel(o.maxZoomLevel)))
    case SetInitialCropRect => Reaction(o, [ApplyInitialCropRect])
    case ResetCropRect => Reaction(o, [ApplyResetCropRect])
    case ToggleMultitouch => Edited(o.(multitouch := !o.multitouch))
    case ToggleShowOverlay => Edited(o.(showCropOverlay := !o.showCropOverlay))
    case ToggleShowProgressBar => Edited(o.(showProgressBar := !o.showProgressBar))
    case Unknown(_) => Reaction(o, [Toast(UnknownOptionMessage)])
  }

  /** The record after clicking the same row `n` times. */
  function Repeat(o: Options, id: DrawerOption, env: Environment, n: nat): Options
    decreases n
  {
    if n == 0 then o else Repeat(Dispatch(o, id, env).options, id, env, n - 1)
  }

  /** The record after clicking the rows of `ids` in order. */
  function DispatchAll(o: Options, ids: seq<DrawerOption>, env: Environment): Options
    decreases |ids|
  {
    if |ids| == 0 then o else DispatchAll(Dispatch(o, ids[0], env).options, ids[1..], env)
  }

  // ---------------------------------------------------------------------------
  // Reference cycles: the declared order each rotating toggle walks through.

  const ScaleCycle: seq<ScaleType> := [FitCenter, CenterInside, Center, CenterCrop]
  const GuidelinesCycle: seq<Guidelines> := [Off, On, OnTouch]
  const ZoomCycle: seq<int32> := [4, 8, 2]

  function ScaleIndex(s: ScaleType): (i: nat)
    ensures i < |ScaleCycle| && ScaleCycle[i] == s
  {
    match s
    case FitCenter => 0
    case CenterInside => 1
    case Center => 2
    case CenterCrop => 3
  }

  function GuidelinesIndex(g: Guidelines): (i: nat)
    ensures i < |GuidelinesCycle| && GuidelinesCycle[i] == g
  {
    match g
    case Off => 0
    case On => 1
    case OnTouch => 2
  }

  function ZoomIndex(z: int32): (i: nat)
    requires z in ZoomCycle
    ensures i < |ZoomCycle| && ZoomCycle[i] == z
  {
    if z == 4 then 0 else if z == 8 then 1 else 2
  }

  /** Toggle-scale steps one place forward along `ScaleCycle`, wrapping around. */
  lemma NextScaleTypeFollowsCycle(i: nat)
    requires i < |ScaleCycle|
    ensures NextScaleType(ScaleCycle[i]) == ScaleCycle[(i + 1) % |ScaleCycle|]
  {
  }

  /** Toggle-guidelines steps one place forward along `GuidelinesCycle`, wrapping around. */
  lemma NextGuidelinesFollowsCycle(i: nat)
    requires i < |GuidelinesCycle|
    ensures NextGuidelines(GuidelinesCycle[i]) == GuidelinesCycle[(i + 1) % |GuidelinesCycle|]
  {
  }

  /** Toggle-max-zoom steps one place forward along `ZoomCycle`, and enters it from anywhere else at 4. */
  lemma NextMaxZoomLevelFollowsCycle(z: int32)
    ensures z in ZoomCycle ==> NextMaxZoomLevel(z) == ZoomCycle[(ZoomIndex(z) + 1) % |ZoomCycle|]
    ensures z !in ZoomCycle ==> NextMaxZoomLevel(z) == ZoomCycle[0]
    ensures NextMaxZoomLevel(z) in {2, 4, 8}
  {
  }
}
