/**
 The two toolbar popups: the rotate menu and the crop (aspect-ratio) menu.
 Each listener turns the picked item into at most one call on the crop
 fragment and reports the click as not consumed.
 */
module Popups {
  import opened Optional
  import opened CropOptions
  import opened Platform
  import Labels

  /** Items of the rotate menu; any other id is `OtherRotateItem`. */
  datatype RotateItem = RotateLeft | RotateRight | Rotate180 | OtherRotateItem(itemId: int)

  /** Items of the crop menu; any other id is `OtherCropItem`. */
  datatype CropItem = CropCustom | Crop1x1 | Crop4x3 | Crop9x16 | Crop16x9 | OtherCropItem(itemId: int)

  /** A listener's answer: whether it consumed the click, and the calls it made. */
  datatype MenuReply = MenuReply(consumed: bool, effects: seq<Effect>)

  /** The rotation an item asks for, in degrees, if any. */
  function RotationOf(item: RotateItem): Option<int> {
    match item
    case RotateLeft => Some(-90)
    case RotateRight => Some(90)
    case Rotate180 => Some(180)
    case OtherRotateItem(_) => None
  }

  /** The fixed ratio an item asks for as (width, height), or `None` for a free ratio. */
  function RatioOf(item: CropItem): Option<(int, int)> {
    match item
    case CropCustom => None
    case Crop1x1 => Some((1, 1))
    case Crop4x3 => Some((4, 3))
    case Crop9x16 => Some((9, 16))
    case Crop16x9 => Some((16, 9))
    case OtherCropItem(_) => None
  }

  /** The rotate listener: left -90, right 90, 180 half a turn, anything else nothing. */
  function OnRotateItem(item: RotateItem): (r: MenuReply)
    ensures !r.consumed
    ensures |r.effects| <= 1
    ensures r.effects == [] <==> item.OtherRotateItem?
    ensures item == RotateLeft ==> r.effects == [RotateImage(-90)]
    ensures item == RotateRight ==> r.effects == [RotateImage(90)]
    ensures item == Rotate180 ==> r.effects == [RotateImage(180)]
    ensures forall e :: e in r.effects ==> e.RotateImage? && e.degrees in {-90, 90, 180}
  {
    match RotationOf(item)
    case Some(d) => MenuReply(false, [RotateImage(d)])
    case None => MenuReply(false, [])
  }

  /** The crop listener: a fixed ratio for the four ratio items, a free ratio for custom and anything else. */
  function OnCropItem(item: CropItem): (r: MenuReply)
    ensures !r.consumed
    ensures |r.effects| == 1
    ensures r.effects[0] == SetAspectRatioFree <==> item.CropCustom? || item.OtherCropItem?
    ensures r.effects[0].SetAspectRatio? ==> r.effects[0].width > 0 && r.effects[0].height > 0
  {
    match RatioOf(item)
    case Some((w, h)) => MenuReply(false, [SetAspectRatio(w, h)])
    case None => MenuReply(false, [SetAspectRatioFree])
  }

  /** The net turn, in degrees modulo 360, of a series of rotate-menu picks. */
  function NetRotation(items: seq<RotateItem>): (d: int)
    ensures 0 <= d < 360
  {
    if |items| == 0 then 0
    else
      var step := match RotationOf(items[0]) case Some(x) => x case None => 0;
      (step + NetRotation(items[1..])) % 360
  }

  /** Left and right undo each other, and half a turn is two right turns or two left turns. */
  lemma RotationsCompose()
    ensures NetRotation([RotateLeft, RotateRight]) == 0
    ensures NetRotation([Rotate180]) == NetRotation([RotateRight, RotateRight])
    ensures NetRotation([Rotate180]) == NetRotation([RotateLeft, RotateLeft])
    ensures NetRotation([Rotate180, Rotate180]) == 0
  {
  }

  /** Different ratio items ask for different ratios, and 9:16 is 16:9 turned on its side. */
  lemma RatioItemsDistinct(a: CropItem, b: CropItem)
    requires RatioOf(a).Some? && RatioOf(b).Some?
    ensures RatioOf(a) == RatioOf(b) <==> a == b
    ensures a == Crop9x16 && b == Crop16x9 ==> RatioOf(a).value == (RatioOf(b).value.1, RatioOf(b).value.0)
  {
  }

  /** The menu item's own name: the ratio in its resource id, or "FREE" when it picks none. */
  function ItemCaption(item: CropItem): string {
    match item
    case Crop1x1 => "1:1"
    case Crop4x3 => "4:3"
    case Crop9x16 => "9:16"
    case Crop16x9 => "16:9"
    case CropCustom => Labels.FreeLabel
    case OtherCropItem(_) => Labels.FreeLabel
  }

  /**
   Once a record carries the ratio the crop listener sets for an item, the
   drawer's aspect-ratio label reads as that item's name.
   */
  lemma CropItemLabel(o: Options, item: CropItem)
    requires OnCropItem(item).effects[0].SetAspectRatioFree? ==> !o.fixAspectRatio
    requires OnCropItem(item).effects[0].SetAspectRatio? ==>
      && o.fixAspectRatio
      && o.aspectRatio.first as int == OnCropItem(item).effects[0].width
      && o.aspectRatio.second as int == OnCropItem(item).effects[0].height
    ensures Labels.AspectRatioLabel(o) == ItemCaption(item)
  {
  }
}
