# Crop demo activity: drawer options state machine

This project models the event logic of the sample activity of an Android
image-cropping library (`MainActivity`). The activity keeps one
crop-presentation options record (`CropImageViewOptions`). Its navigation
drawer applies one deterministic transition to that record per row:
- a four-way rotation of the scale type;
- a three-way rotation of the guidelines;
- the rotation 4 → 8 → 2 → 4 of the maximum zoom level;
- flips of the crop shape and of four booleans;
- rows that do not edit the record at all (load, the five presets, the two
  crop-rectangle commands, and unknown ids).

Around the drawer sit four small decisions, all modelled here:
- the rotate popup (item → degrees);
- the crop popup (item → fixed ratio or free);
- the aspect-ratio label of the drawer;
- the answer to a permission result, with the activity-result branch that defers
  loading a picked image behind a storage-permission request.

Everything is a pure function from state and event to a new state and a list of
effects. An effect names a call on a collaborator: the crop fragment, the
fragment manager, the toast service, the permission system or the image picker.

Modules:
- `CropOptions` (crop_options.dfy): the record, its enums, and `ChangedFields`,
  which says which fields two records disagree on.
- `Platform` (platform.dfy): URIs, presets, request codes, the answers of the
  image library's permission predicates (`Environment`), and the `Effect` type.
- `Labels` (labels.dfy): Java's decimal `Integer.toString`, the aspect-ratio
  label, and a parser that reads the label back.
- `Drawer` (drawer.dfy): drawer ids, `Dispatch`, repeated clicks, and the
  reference cycles each rotating toggle walks.
- `DrawerCycles` (drawer_cycles.dfy): periods, involutions and frame properties
  of repeated clicks.
- `Popups` (popups.dfy): the rotate and crop listeners.
- `Permissions` (permissions.dfy): `onActivityResult` and `onRequestPermissionsResult`.
- `Activity` (activity.dfy): the whole activity as one step function over all inbound events.

Modelling choices taken from the code:
- The record always holds an aspect-ratio pair. The label reads it whenever
  `fixAspectRatio` is set; it is not an optional value.
- `maxZoomLevel` is any Java `int`. Toggle-max-zoom sends every level other than
  4 and 8 to 4, so a level off the cycle is left on the first click and never
  comes back.
- The two request-code tests of the permission result are sequential `if`s, not
  alternatives. `OnPermissionsResult` keeps that shape; the lemmas that speak of
  a single answer assume the three request codes differ.

## Model

| member | source | states |
|---|---|---|
| `Drawer.Dispatch` | sample/src/main/java/org/horaapps/editorsample/MainActivity.java:192-292 | A toggle row changes exactly its own field and emits push-to-fragment then refresh-labels with the new record. Every other row keeps the record and emits one effect that publishes no record. Each preset row installs its own preset (oval → CIRCULAR, rect → RECT, and so on) and the two crop-rect rows call their own fragment command. A row emits only the "Unknown drawer option clicked" toast exactly when its id is unknown |
| `Drawer.NextScaleTypeFollowsCycle` | sample/src/main/java/org/horaapps/editorsample/MainActivity.java:217-220 | Toggle-scale moves one place along FIT_CENTER, CENTER_INSIDE, CENTER, CENTER_CROP and wraps around |
| `Drawer.NextGuidelinesFollowsCycle` | sample/src/main/java/org/horaapps/editorsample/MainActivity.java:231-233 | Toggle-guidelines moves one place along OFF, ON, ON_TOUCH and wraps around |
| `Drawer.NextMaxZoomLevelFollowsCycle` | sample/src/main/java/org/horaapps/editorsample/MainActivity.java:263-264 | Toggle-max-zoom moves one place along 4, 8, 2. Any level off that cycle goes to 4. The result is always in {2, 4, 8} |
| `DrawerCycles.ScaleTypeOrbit` | sample/src/main/java/org/horaapps/editorsample/MainActivity.java:216-223 | n toggle-scale clicks move the scale type n places along its cycle and leave every other field as it was |
| `DrawerCycles.ScaleTypePeriod` | sample/src/main/java/org/horaapps/editorsample/MainActivity.java:217-220 | n toggle-scale clicks give back the record exactly when n is a multiple of 4, from every starting scale type |
| `DrawerCycles.ScaleTypeVisitsEach` | sample/src/main/java/org/horaapps/editorsample/MainActivity.java:217-220 | Clicks 0 to 3 of toggle-scale show four pairwise different scale types |
| `DrawerCycles.GuidelinesOrbit` | sample/src/main/java/org/horaapps/editorsample/MainActivity.java:230-236 | n toggle-guidelines clicks move the guidelines n places along their cycle and leave every other field as it was |
| `DrawerCycles.GuidelinesPeriod` | sample/src/main/java/org/horaapps/editorsample/MainActivity.java:231-233 | n toggle-guidelines clicks give back the record exactly when n is a multiple of 3 |
| `DrawerCycles.GuidelinesVisitsEach` | sample/src/main/java/org/horaapps/editorsample/MainActivity.java:231-233 | Clicks 0 to 2 of toggle-guidelines show three pairwise different values |
| `DrawerCycles.MaxZoomOrbit` | sample/src/main/java/org/horaapps/editorsample/MainActivity.java:262-267 | From a level on the cycle 4, 8, 2, n clicks move it n places along the cycle and leave every other field as it was |
| `DrawerCycles.MaxZoomPeriod` | sample/src/main/java/org/horaapps/editorsample/MainActivity.java:263-264 | n toggle-max-zoom clicks give back the record exactly when n is 0, or when the level starts in {2, 4, 8} and n is a multiple of 3 |
| `DrawerCycles.MaxZoomEntersAtFour` | sample/src/main/java/org/horaapps/editorsample/MainActivity.java:263-264 | A toggle-max-zoom click on a level other than 4, 8 or 2 sets the level to 4 and changes nothing else |
| `DrawerCycles.MaxZoomFromFour` | sample/src/main/java/org/horaapps/editorsample/MainActivity.java:263-264 | From level 4, one, two and three clicks show 8, 2 and 4 again |
| `DrawerCycles.FlipIsInvolution` | sample/src/main/java/org/horaapps/editorsample/MainActivity.java:224-288 | Toggle-shape and the four boolean toggles each undo themselves, and one click always changes the record |
| `DrawerCycles.FlipPeriod` | sample/src/main/java/org/horaapps/editorsample/MainActivity.java:224-288 | n clicks on a flip row give the record after 0 or 1 clicks by the parity of n, and give back the record exactly when n is even |
| `DrawerCycles.NonToggleRepeatKeepsOptions` | sample/src/main/java/org/horaapps/editorsample/MainActivity.java:193-291 | Any number of clicks on load, a preset, the crop-rect commands or an unknown id leave the record unchanged |
| `DrawerCycles.DrawerKeepsAspectRatio` | sample/src/main/java/org/horaapps/editorsample/MainActivity.java:192-292 | No sequence of drawer clicks changes `fixAspectRatio`, `aspectRatio` or the aspect-ratio label, because the aspect-ratio toggle is commented out |
| `Labels.IntToString` | sample/src/main/java/org/horaapps/editorsample/MainActivity.java:311 | The decimal text of an int is non-empty and holds no ':'. It starts with '-' exactly for negative ints. Zero is exactly "0", and no other int has a '0' first digit, after the '-' of a negative one included, so there are no leading zeros |
| `Labels.IntToStringRoundTrip` | sample/src/main/java/org/horaapps/editorsample/MainActivity.java:311 | Parsing the decimal text of any int gives back that int. The parser accepts only canonical text (no leading zeros, no "-0") |
| `Labels.AspectRatioLabel` | sample/src/main/java/org/horaapps/editorsample/MainActivity.java:309-312 | The label is "FREE" exactly when the ratio is not fixed; a fixed label contains ':' |
| `Labels.AspectRatioLabelRoundTrip` | sample/src/main/java/org/horaapps/editorsample/MainActivity.java:309-312 | Parsing the label with the canonical parser gives back "free", or the pair `first`, `second` of a fixed ratio, so each side is written exactly as `Integer.toString` writes it |
| `Labels.AspectRatioLabelInjective` | sample/src/main/java/org/horaapps/editorsample/MainActivity.java:309-312 | Two records get the same label exactly when both are free or both fix the same pair |
| `Popups.OnRotateItem` | sample/src/main/java/org/horaapps/editorsample/MainActivity.java:74-88 | The rotate listener returns false. Left rotates by -90 degrees, right by 90 and rotate-180 by 180, one call each; an unknown item makes no call |
| `Popups.RotationsCompose` | sample/src/main/java/org/horaapps/editorsample/MainActivity.java:76-86 | Left then right is no net turn. Rotate-180 equals two rights and two lefts. Two rotate-180 picks are no net turn |
| `Popups.OnCropItem` | sample/src/main/java/org/horaapps/editorsample/MainActivity.java:102-122 | The crop listener returns false and makes exactly one call. That call is "free" exactly for `crop_custom` and unknown items; otherwise it sets a ratio with positive sides |
| `Popups.RatioItemsDistinct` | sample/src/main/java/org/horaapps/editorsample/MainActivity.java:104-120 | The four ratio items pick four different ratios, and 9:16 is 16:9 transposed |
| `Popups.CropItemLabel` | sample/src/main/java/org/horaapps/editorsample/MainActivity.java:104-120 | A record carrying the ratio the crop listener sets for an item (or a free ratio) gets an aspect-ratio label equal to the item's name ("1:1", "4:3", "9:16", "16:9" or "FREE"), so each item sets its own ratio in width:height order |
| `Permissions.OnPermissionsResult` | sample/src/main/java/org/horaapps/editorsample/MainActivity.java:174-189 | A request code matching neither issued code gives no effect; any other code gives at least one and at most two |
| `Permissions.PermissionsResultDecision` | sample/src/main/java/org/horaapps/editorsample/MainActivity.java:174-189 | With distinct codes the picker starts exactly on a first-entry grant for the camera code. The image is set exactly on the pick code with a kept URI and a first-entry grant. Otherwise a matched code gives the cancellation toast. There is at most one effect |
| `Permissions.OnActivityResult` | sample/src/main/java/org/horaapps/editorsample/MainActivity.java:151-171 | Only a picker result with RESULT_OK acts, with exactly one effect. When storage permission is needed it stores the picked URI, null included, and requests the permission under the pick code. Otherwise it sets the picked URI and keeps the stored one |
| `Permissions.DeferredLoadRoundTrip` | sample/src/main/java/org/horaapps/editorsample/MainActivity.java:151-189 | When the picked image needs storage permission, the activity requests it under the pick code. A later grant of that request sets exactly the picked URI if it is non-null; a refusal or a null URI only shows the cancellation toast |
| `Activity.AdoptOptions` | sample/src/main/java/org/horaapps/editorsample/MainActivity.java:44-47 | A new fragment's record replaces the activity's and refreshes the labels, and the kept URI stays |
| `Activity.Step` | sample/src/main/java/org/horaapps/editorsample/MainActivity.java:74-292 | Only an activity result can change the kept URI, and it stores the URI its handler keeps. Only a drawer click or an adopted record can change the options record. Each event makes exactly the calls of its own handler: drawer dispatch, rotate or crop listener, permission result against the kept URI, activity result, or `setCurrentOptions` for an adopted record |
| `Activity.StoragePermissionRoundTrip` | sample/src/main/java/org/horaapps/editorsample/MainActivity.java:151-189 | Through the activity's step, the URI of a picked image needing storage permission is kept (null included) while the request is pending under the pick code. The answer to that request sets exactly that image on a first-entry grant when it is non-null, and shows the cancellation toast otherwise |
| `Activity.CameraLoadRoundTrip` | sample/src/main/java/org/horaapps/editorsample/MainActivity.java:174-200 | Load starts the picker at once when no camera permission is needed. Otherwise it requests the camera permission, and the answer to that request starts the picker on a first-entry grant and shows the cancellation toast otherwise |
| `Activity.UnmatchedPermissionResultIsIgnored` | sample/src/main/java/org/horaapps/editorsample/MainActivity.java:174-189 | A permission result with a code the activity did not issue changes no state and makes no call |
| `Activity.UnknownDrawerIdIsIgnored` | sample/src/main/java/org/horaapps/editorsample/MainActivity.java:289-290 | An unknown drawer id changes no state and only shows the unknown-option toast |
| `Activity.DrawerRunMatchesDispatch` | sample/src/main/java/org/horaapps/editorsample/MainActivity.java:192-292 | A run of drawer clicks leaves the activity with the record the drawer dispatch computes, and with the kept URI unchanged |
| `Activity.OnlyDrawerAndAdoptionEditOptions` | sample/src/main/java/org/horaapps/editorsample/MainActivity.java:74-189 | Any run of popup picks, permission results and activity results leaves the options record unchanged |

## Left out

- `MyPopupMenu` (the anchored popup wrapper): show, dismiss, placement and drag-to-open are all done by platform menu classes; only the item listeners are modelled.
- Fragment transactions (`setMainFragmentByPreset`), toasts, permission requests and the crop fragment's own calls: each is an `Effect` value, never carried out.
- Label rendering apart from the aspect-ratio label: `findViewById`, `TextView.setText` and the string resources are platform calls. `RefreshLabels` stands for the whole refresh.
- The image library's predicates (`isExplicitCameraPermissionRequired`, `isReadExternalStoragePermissionsRequired`) and `getPickImageResultUri`: they are inputs (`Environment`, `resultUri`).
- The image library's request-code constants are not part of this model. They are parameters (`RequestCodes`); `DistinctCodes` states what the single-answer lemmas assume of them.
- Activity lifecycle (`onCreate`, `onPostCreate`, `onCreateOptionsMenu`, `onOptionsItemSelected`) and `setCurrentFragment`: no logic of the activity's own beyond platform calls.
- The commented-out aspect-ratio toggle (MainActivity.java:238-255) is dead code and is not modelled; `DrawerCycles.DrawerKeepsAspectRatio` proves the drawer never touches those fields.
- Null: the enum fields of the record, the aspect-ratio pair and its components are taken to be non-null (the record's class is not part of this model). In the source a null enum field would fall into the `else` branch of its toggle. A null pair with `fixAspectRatio` set would throw in the label code. The stored and picked URIs may be null (`Option`).
- The record's default values are not part of this model, so no lemma assumes a starting record.
- `Popups.NetRotation` reads each rotate call as a turn by that many degrees, composed modulo 360; the fragment's `rotateImage` that carries the turn out is not part of this model.
- The options record is a value here. In the source it is one mutable object shared with the fragment: `setCurrentOptions` adopts the fragment's own object, and each toggle edits it in place before pushing it. Nothing in the activity can observe the difference, because every edit is pushed at once.
