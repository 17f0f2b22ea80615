/**
 What the activity asks of the world around it. Calls on the crop fragment, the
 fragment manager, the toast service, the permission system and the image picker
 are not executed here; each becomes an `Effect` value, and the answers of the
 image library's permission predicates come in as an `Environment`.
 */
module Platform {
  import opened Optional
  import opened CropOptions

  /** An Android content `Uri`, treated as an opaque name. */
  datatype Uri = Uri(text: string)

  /** The demo presets (`CropDemoPreset`) a fresh crop fragment can be built from. */
  datatype Preset = Circular | Rect | CustomizedOverlay | MinMaxOverride | ScaleCenterInside

  /** The runtime permissions the activity requests. */
  datatype Permission = Camera | ReadExternalStorage

  /**
   The image library's request codes. Their values live in that library, so the
   model carries them as data instead of fixing them.
   */
  datatype RequestCodes = RequestCodes(
    pickImageChooser: int,
    pickImagePermissions: int,
    cameraCapturePermissions: int)

  /** The three request codes are pairwise different. */
  predicate DistinctCodes(c: RequestCodes) {
    && c.pickImageChooser != c.pickImagePermissions
    && c.pickImageChooser != c.cameraCapturePermissions
    && c.pickImagePermissions != c.cameraCapturePermissions
  }

  /**
   The answers the image library's predicates give at the moment of an event:
   `isExplicitCameraPermissionRequired` and `isReadExternalStoragePermissionsRequired`.
   */
  datatype Environment = Environment(
    codes: RequestCodes,
    cameraPermissionRequired: bool,
    readStoragePermissionRequired: bool)

  /** One call the activity makes on a collaborator. */
  datatype Effect =
    | PushOptions(options: Options)          // fragment.setCropImageViewOptions
    | RefreshLabels(options: Options)        // updateDrawerTogglesByOptions
    | ShowPreset(preset: Preset)             // setMainFragmentByPreset
    | ApplyInitialCropRect                   // fragment.setInitialCropRect
    | ApplyResetCropRect                     // fragment.resetCropRect
    | RequestPermission(permission: Permission, requestCode: int)
    | StartPickImage                         // CropImage.startPickImageActivity
    | SetImageUri(uri: Option<Uri>)          // fragment.setImageUri, possibly with null
    | RotateImage(degrees: int)              // fragment.rotateImage
    | SetAspectRatio(width: int, height: int)
    | SetAspectRatioFree
    | Toast(message: string)

  const UnknownOptionMessage := "Unknown drawer option clicked"
  const PermissionCancelledMessage := "Cancelling, required permissions are not granted"

  /** An effect that hands an options record to the fragment or to the labels. */
  predicate PublishesOptions(e: Effect) {
    e.PushOptions? || e.RefreshLabels?
  }
}
