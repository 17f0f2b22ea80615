/**
 The crop-presentation options record (`CropImageViewOptions`) that the sample
 activity owns and that its drawer toggles edit one field at a time.
 */
module CropOptions {

  /** Java's 32-bit `int`. No operation of the activity does arithmetic on it. */
  newtype int32 = x: int | -0x8000_0000 <= x < 0x8000_0000

  /** `CropImageView.ScaleType`, in the order toggle-scale walks them. */
  datatype ScaleType = FitCenter | CenterInside | Center | CenterCrop

  /** `CropImageView.CropShape`. */
  datatype CropShape = Rectangle | Oval

  /** `CropImageView.Guidelines`. */
  datatype Guidelines = Off | On | OnTouch

  /** The `Pair<Integer, Integer>` held in `aspectRatio`. */
  datatype Ratio = Ratio(first: int32, second: int32)

  /** Every field of the record the activity reads or writes. */
  datatype Options = Options(
    scaleType: ScaleType,
    cropShape: CropShape,
    guidelines: Guidelines,
    fixAspectRatio: bool,
    aspectRatio: Ratio,
    autoZoomEnabled: bool,
    maxZoomLevel: int32,
    multitouch: bool,
    showCropOverlay: bool,
    showProgressBar: bool)

  /** Names of the fields of `Options`, for stating which of them an edit touches. */
  datatype Field =
    | ScaleTypeField
    | CropShapeField
    | GuidelinesField
    | FixAspectRatioField
    | AspectRatioField
    | AutoZoomEnabledField
    | MaxZoomLevelField
    | MultitouchField
    | ShowCropOverlayField
    | ShowProgressBarField

  /** The fields on which two records disagree; empty exactly when the records are equal. */
  function ChangedFields(a: Options, b: Options): (fs: set<Field>)
    ensures fs == {} <==> a == b
  {
    (if a.scaleType != b.scaleType then {ScaleTypeField} else {})
    + (if a.cropShape != b.cropShape then {CropShapeField} else {})
    + (if a.guidelines != b.guidelines then {GuidelinesField} else {})
    + (if a.fixAspectRatio != b.fixAspectRatio then {FixAspectRatioField} else {})
    + (if a.aspectRatio != b.aspectRatio then {AspectRatioField} else {})
    + (if a.autoZoomEnabled != b.autoZoomEnabled then {AutoZoomEnabledField} else {})
    + (if a.maxZoomLevel != b.maxZoomLevel then {MaxZoomLevelField} else {})
    + (if a.multitouch != b.multitouch then {MultitouchField} else {})
    + (if a.showCropOverlay != b.showCropOverlay then {ShowCropOverlayField} else {})
    + (if a.showProgressBar != b.showProgressBar then {ShowProgressBarField} else {})
  }
}
