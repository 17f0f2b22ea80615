/**
 The asynchronous permission boundary: the activity result that may defer
 loading a picked image behind a storage-permission request, and the
 permission result that resumes or cancels the deferred action.
 */
module Permissions {
  import opened Optional
  import opened Platform

  /** Android's `PackageManager.PERMISSION_GRANTED`. */
  const PermissionGranted := 0

  /** Android's `Activity.RESULT_OK`. */
  const ResultOk := -1

  /** The first entry of the grant results exists and is a grant. */
  predicate FirstGranted(grantResults: seq<int>) {
    |grantResults| > 0 && grantResults[0] == PermissionGranted
  }

  /** The answer to the camera-capture permission request. */
  function CameraAnswer(grantResults: seq<int>): seq<Effect> {
    if FirstGranted(grantResults) then [StartPickImage] else [Toast(PermissionCancelledMessage)]
  }

  /** The answer to the storage permission request guarding a picked image. */
  function PickAnswer(storedUri: Option<Uri>, grantResults: seq<int>): seq<Effect> {
    if storedUri.Some? && FirstGranted(grantResults)
    then [SetImageUri(storedUri)]
    else [Toast(PermissionCancelledMessage)]
  }

  /**
   `onRequestPermissionsResult`. The two request codes are compared one after the
   other, not as alternatives, so equal codes would answer twice.
   */
  function OnPermissionsResult(codes: RequestCodes, requestCode: int, grantResults: seq<int>, storedUri: Option<Uri>)
    : (r: seq<Effect>)
    ensures requestCode != codes.cameraCapturePermissions && requestCode != codes.pickImagePermissions <==> r == []
    ensures |r| <= 2
  {
    (if requestCode == codes.cameraCapturePermissions then CameraAnswer(grantResults) else [])
    + (if requestCode == codes.pickImagePermissions then PickAnswer(storedUri, grantResults) else [])
  }

  /** The activity's state across the permission boundary: the URI kept while the request is pending. */
  datatype ActivityResultReply = ActivityResultReply(storedUri: Option<Uri>, effects: seq<Effect>)

  /**
   The image-picker branch of `onActivityResult`. `resultUri` is what the image
   library extracts from the result intent; whether storage permission is still
   needed for it is the environment's answer.
   */
  function OnActivityResult(env: Environment, requestCode: int, resultCode: int, resultUri: Option<Uri>,
                            storedUri: Option<Uri>): (r: ActivityResultReply)
    ensures r.storedUri != storedUri ==> r.storedUri == resultUri
    ensures (requestCode != env.codes.pickImageChooser || resultCode != ResultOk) ==> r == ActivityResultReply(storedUri, [])
    ensures requestCode == env.codes.pickImageChooser && resultCode == ResultOk ==> |r.effects| == 1
    ensures requestCode == env.codes.pickImageChooser && resultCode == ResultOk && env.readStoragePermissionRequired
            ==> r == ActivityResultReply(resultUri, [RequestPermission(ReadExternalStorage, env.codes.pickImagePermissions)])
    ensures requestCode == env.codes.pickImageChooser && resultCode == ResultOk && !env.readStoragePermissionRequired
            ==> r == ActivityResultReply(storedUri, [SetImageUri(resultUri)])
  {
    if requestCode == env.codes.pickImageChooser && resultCode == ResultOk then
      if env.readStoragePermissionRequired
      then ActivityResultReply(resultUri, [RequestPermission(ReadExternalStorage, env.codes.pickImagePermissions)])
      else ActivityResultReply(storedUri, [SetImageUri(resultUri)])
    else ActivityResultReply(storedUri, [])
  }

  /**
   With distinct request codes, each answer is decided by its own code alone:
   the picker starts exactly on a granted camera request, the image is set
   exactly on a granted storage request with a URI kept, and every other
   matched answer is the cancellation notice.
   */
  lemma PermissionsResultDecision(codes: RequestCodes, requestCode: int, grantResults: seq<int>, storedUri: Option<Uri>)
    requires DistinctCodes(codes)
    ensures var r := OnPermissionsResult(codes, requestCode, grantResults, storedUri);
      && (StartPickImage in r <==> requestCode == codes.cameraCapturePermissions && FirstGranted(grantResults))
      && (SetImageUri(storedUri) in r
          <==> requestCode == codes.pickImagePermissions && storedUri.Some? && FirstGranted(grantResults))
      && (Toast(PermissionCancelledMessage) in r
          <==> ((requestCode == codes.cameraCapturePermissions && !FirstGranted(grantResults))
                || (requestCode == codes.pickImagePermissions && (storedUri.None? || !FirstGranted(grantResults)))))
      && |r| <= 1
  {
  }

  /**
   The deferred load completes the round trip: when the picked image needs the
   storage permission, its URI is kept even when it is null. A later grant for
   that request sets exactly the picked URI when there is one; a refusal or a
   null URI only shows the cancellation notice.
   */
  lemma DeferredLoadRoundTrip(env: Environment, u: Option<Uri>, storedUri: Option<Uri>, grantResults: seq<int>)
    requires DistinctCodes(env.codes)
    requires env.readStoragePermissionRequired
    ensures var first := OnActivityResult(env, env.codes.pickImageChooser, ResultOk, u, storedUri);
      && first.effects == [RequestPermission(ReadExternalStorage, env.codes.pickImagePermissions)]
      && OnPermissionsResult(env.codes, first.effects[0].requestCode, grantResults, first.storedUri)
         == if u.Some? && FirstGranted(grantResults) then [SetImageUri(u)] else [Toast(PermissionCancelledMessage)]
  {
  }
}
