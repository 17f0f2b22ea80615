/**
 The sample activity as one event handler: its state is the options record
 and the image URI kept across a pending permission request, and every
 inbound event (drawer click, popup pick, permission result, activity result,
 options adopted from a new fragment) is one step on that state.
 */
module Activity {
  import opened Optional
  import opened CropOptions
  import opened Platform
  import Drawer
  import Popups
  import Permissions

  datatype Session = Session(options: Options, pendingUri: Option<Uri>)

  datatype Event =
    | DrawerClicked(option: Drawer.DrawerOption)
    | RotatePicked(rotateItem: Popups.RotateItem)
    | CropPicked(cropItem: Popups.CropItem)
    | PermissionsResult(permissionCode: int, grantResults: seq<int>)
    | ActivityResult(activityCode: int, resultCode: int, resultUri: Option<Uri>)
    | OptionsAdopted(adopted: Options)

  datatype Outcome = Outcome(session: Session, effects: seq<Effect>)

  /** `setCurrentOptions`: a new fragment's record replaces the activity's and the labels follow it. */
  function AdoptOptions(s: Session, o: Options): (r: Outcome)
    ensures r.session.pendingUri == s.pendingUri
    ensures r.effects == [RefreshLabels(r.session.options)] && r.session.options == o
  {
    Outcome(s.(options := o), [RefreshLabels(o)])
  }

  /** One inbound event. */
  function Step(s: Session, e: Event, env: Environment): (r: Outcome)
    ensures !e.ActivityResult? ==> r.session.pendingUri == s.pendingUri
    ensures !e.DrawerClicked? && !e.OptionsAdopted? ==> r.session.options == s.options
    ensures e.DrawerClicked? ==> r.effects == Drawer.Dispatch(s.options, e.option, env).effects
    ensures e.RotatePicked? ==> r.effects == Popups.OnRotateItem(e.rotateItem).effects
    ensures e.CropPicked? ==> r.effects == Popups.OnCropItem(e.cropItem).effects
    ensures e.PermissionsResult? ==>
      r.effects == Permissions.OnPermissionsResult(env.codes, e.permissionCode, e.grantResults, s.pendingUri)
    ensures e.OptionsAdopted? ==> r == AdoptOptions(s, e.adopted)
    ensures e.ActivityResult? ==>
      var a := Permissions.OnActivityResult(env, e.activityCode, e.resultCode, e.resultUri, s.pendingUri);
      r.effects == a.effects && r.session.pendingUri == a.storedUri
  {
    match e
    case DrawerClicked(id) =>
      var d := Drawer.Dispatch(s.options, id, env);
      Outcome(s.(options := d.options), d.effects)
    case RotatePicked(item) => Outcome(s, Popups.OnRotateItem(item).effects)
    case CropPicked(item) => Outcome(s, Popups.OnCropItem(item).effects)
    case PermissionsResult(code, grants) =>
      Outcome(s, Permissions.OnPermissionsResult(env.codes, code, grants, s.pendingUri))
    case ActivityResult(code, resultCode, uri) =>
      var a := Permissions.OnActivityResult(env, code, resultCode, uri, s.pendingUri);
      Outcome(s.(pendingUri := a.storedUri), a.effects)
    case OptionsAdopted(o) => AdoptOptions(s, o)
  }

  /** The state after a series of events, all seen under the same environment. */
  function Run(s: Session, events: seq<Event>, env: Environment): Session
    decreases |events|
  {
    if |events| == 0 then s else Run(Step(s, events[0], env).session, events[1..], env)
  }

  /**
   The deferred load completes through the activity's own state: the URI of a
   picked image that needs the storage permission is kept while the request is
   pending, null included, and the answer to that request sets exactly that
   image on a first-entry grant when it is non-null and shows the cancellation
   notice otherwise.
   */
  lemma StoragePermissionRoundTrip(s: Session, u: Option<Uri>, grants: seq<int>, env: Environment)
    requires DistinctCodes(env.codes)
    requires env.readStoragePermissionRequired
    ensures var a := Step(s, ActivityResult(env.codes.pickImageChooser, Permissions.ResultOk, u), env);
      && a.effects == [RequestPermission(ReadExternalStorage, env.codes.pickImagePermissions)]
      && Step(a.session, PermissionsResult(a.effects[0].requestCode, grants), env).effects
         == if u.Some? && Permissions.FirstGranted(grants) then [SetImageUri(u)] else [Toast(PermissionCancelledMessage)]
  {
  }

  /**
   The load row completes the camera round trip: without a required camera
   permission it starts the picker at once; otherwise it requests the camera
   permission, and the answer to that very request starts the picker on a
   first-entry grant and shows the cancellation notice otherwise.
   */
  lemma CameraLoadRoundTrip(o: Options, env: Environment, grants: seq<int>, storedUri: Option<Uri>)
    requires DistinctCodes(env.codes)
    ensures !env.cameraPermissionRequired ==> Drawer.Dispatch(o, Drawer.Load, env).effects == [StartPickImage]
    ensures env.cameraPermissionRequired ==>
      var first := Drawer.Dispatch(o, Drawer.Load, env).effects;
      && |first| == 1 && first[0].RequestPermission? && first[0].permission == Camera
      && Permissions.OnPermissionsResult(env.codes, first[0].requestCode, grants, storedUri)
         == if Permissions.FirstGranted(grants) then [StartPickImage] else [Toast(PermissionCancelledMessage)]
  {
  }

  /** A permission result whose code the activity did not issue changes nothing and calls nothing. */
  lemma UnmatchedPermissionResultIsIgnored(s: Session, code: int, grants: seq<int>, env: Environment)
    requires code != env.codes.cameraCapturePermissions && code != env.codes.pickImagePermissions
    ensures Step(s, PermissionsResult(code, grants), env) == Outcome(s, [])
  {
  }

  /** An unknown drawer id changes nothing and only shows a notice. */
  lemma UnknownDrawerIdIsIgnored(s: Session, viewId: int, env: Environment)
    ensures Step(s, DrawerClicked(Drawer.Unknown(viewId)), env) == Outcome(s, [Toast(UnknownOptionMessage)])
  {
  }

  /** Drawer clicks alone evolve the record exactly as the drawer dispatch does, and keep the pending URI. */
  lemma {:induction false} DrawerRunMatchesDispatch(s: Session, ids: seq<Drawer.DrawerOption>, env: Environment)
    ensures Run(s, seq(|ids|, i requires 0 <= i < |ids| => DrawerClicked(ids[i])), env)
         == Session(Drawer.DispatchAll(s.options, ids, env), s.pendingUri)
    decreases |ids|
  {
    var events := seq(|ids|, i requires 0 <= i < |ids| => DrawerClicked(ids[i]));
    if |ids| > 0 {
      var next := Step(s, events[0], env).session;
      assert events[1..] == seq(|ids[1..]|, i requires 0 <= i < |ids[1..]| => DrawerClicked(ids[1..][i]));
      DrawerRunMatchesDispatch(next, ids[1..], env);
    }
  }

  /** Popup picks, permission results and activity results never change the record, however many arrive. */
  lemma {:induction false} OnlyDrawerAndAdoptionEditOptions(s: Session, events: seq<Event>, env: Environment)
    requires forall i :: 0 <= i < |events| ==> !events[i].DrawerClicked? && !events[i].OptionsAdopted?
    ensures Run(s, events, env).options == s.options
    decreases |events|
  {
    if |events| > 0 {
      OnlyDrawerAndAdoptionEditOptions(Step(s, events[0], env).session, events[1..], env);
    }
  }
}
