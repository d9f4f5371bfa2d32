/**
 * How many card pairs a device can show comfortably, and how many pairs a
 * level's deck therefore gets. The static test override and the UIKit
 * reads (interface idiom, screen bounds) are passed in as a `Device` value;
 * the compile-time platform switch becomes the `Platform` constructor.
 */
module CardDensityAdvisor {
  import opened Options
  import opened ThemeLibrary
  import opened LevelSystem

  /** The interface idiom; only the iPad idiom is told apart. */
  datatype Idiom = Pad | Phone | OtherIdiom

  /** The platform the app was compiled for, with what it reads of the host on iOS. */
  datatype Platform =
    | IOS(idiom: Idiom, screenWidth: real, screenHeight: real)
    | OtherOS

  /** The environment the advisor reads: the test override and the platform. */
  datatype Device = Device(overridePairLimit: Option<int>, platform: Platform)

  /** The longest side of an iOS screen, in points. */
  function LongestSide(width: real, height: real): (side: real)
    ensures side >= width && side >= height
    ensures side == width || side == height
  {
    if width >= height then width else height
  }

  /** The pair limit for a phone-sized screen, by the length of its longest side. */
  function PhonePairLimit(longestSide: real): (limit: int)
    ensures longestSide < 650.0 ==> limit == 5
    ensures 650.0 <= longestSide < 780.0 ==> limit == 6
    ensures 780.0 <= longestSide < 900.0 ==> limit == 7
    ensures 900.0 <= longestSide ==> limit == 8
  {
    if longestSide < 650.0 then 5
    else if longestSide < 780.0 then 6
    else if longestSide < 900.0 then 7
    else 8
  }

  /** A longer screen never gets fewer pairs. */
  lemma PhonePairLimitMonotone(a: real, b: real)
    requires a <= b
    ensures PhonePairLimit(a) <= PhonePairLimit(b)
  {
  }

  /** The number of pairs the device can show: the override when one is pinned, else by device class. */
  function DevicePairLimit(device: Device): (limit: int)
    ensures device.overridePairLimit.Some? ==> limit == Max(1, device.overridePairLimit.value)
    ensures limit >= 1
    ensures device.overridePairLimit.None? ==> limit in {5, 6, 7, 8, 10}
    ensures device.overridePairLimit.None? && device.platform.IOS? && device.platform.idiom == Pad ==> limit == 10
    ensures device.overridePairLimit.None? && device.platform.IOS? && device.platform.idiom != Pad ==>
      limit == PhonePairLimit(LongestSide(device.platform.screenWidth, device.platform.screenHeight))
    ensures device.overridePairLimit.None? && device.platform.OtherOS? ==> limit == 8
  {
    match device.overridePairLimit
    case Some(o) => Max(1, o)
    case None =>
      match device.platform
      case IOS(idiom, width, height) =>
        if idiom == Pad then 10
        else PhonePairLimit(LongestSide(width, height))
      case OtherOS => 8
  }

  /** Swift's `max`: the larger of the two. */
  function Max(a: int, b: int): (m: int)
    ensures m >= a && m >= b && (m == a || m == b)
  {
    if a >= b then a else b
  }

  /** Swift's `min`: the smaller of the two. */
  function Min(a: int, b: int): (m: int)
    ensures m <= a && m <= b && (m == a || m == b)
  {
    if a <= b then a else b
  }

  /**
   * The limit `pairCount(for:deviceLimit:)` works with: the supplied device
   * limit, or the device's own limit when none is supplied.
   */
  function ResolvedLimit(deviceLimit: Option<int>, device: Device): (limit: int)
    ensures deviceLimit.Some? ==> limit == deviceLimit.value
    ensures deviceLimit.None? ==> limit == DevicePairLimit(device)
  {
    deviceLimit.GetOr(DevicePairLimit(device))
  }

  /**
   * The number of pairs dealt for `level` under the resolved device limit
   * `limit`: the limit capped by the size of the level's theme, and never
   * below one. The level's own `pairCount` is not consulted.
   */
  function PairCount(level: LevelConfig, limit: int): (pairs: int)
    ensures pairs >= 1
    ensures pairs <= Max(1, |ThemeFor(level.themeID).content|)
    ensures limit >= 1 ==> pairs <= limit
    ensures var size := |ThemeFor(level.themeID).content|;
      && (1 <= limit <= size ==> pairs == limit)
      && (1 <= size <= limit ==> pairs == size)
      && (limit < 1 || size < 1 ==> pairs == 1)
  {
    var theme := ThemeFor(level.themeID);
    Max(1, Min(limit, |theme.content|))
  }

  /** Every theme is non-empty, so the pair count never exceeds the theme's size. */
  lemma PairCountFitsTheme(level: LevelConfig, limit: int)
    ensures 1 <= PairCount(level, limit) <= |ThemeFor(level.themeID).content|
  {
    ThemeContentSizes();
  }

  /** The pair count stored in the level configuration is never read. */
  lemma PairCountIgnoresLevelPairCount(level: LevelConfig, otherPairCount: int, limit: int)
    ensures PairCount(level.(pairCount := otherPairCount), limit) == PairCount(level, limit)
  {
  }
}
