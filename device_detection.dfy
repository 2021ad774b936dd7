/**
 * The device checks of my-app/lib/device-detection.ts: case-insensitive
 * substring tests on the browser's user agent, combined in a fixed priority
 * order. The global `window` becomes a parameter: either there is none (the
 * code runs on the server) or there is a browser with a user-agent string.
 */
module DeviceDetection {

  datatype Environment = NoWindow | Browser(userAgent: string)

  datatype DeviceType = Ios | Android | Desktop

  /** `toLowerCase` on one character, for the ASCII letters. */
  function LowerChar(c: char): (r: char)
    ensures 'A' <= c <= 'Z' ==> r as int == c as int + 32
    ensures !('A' <= c <= 'Z') ==> r == c
    ensures !('A' <= r <= 'Z')
  {
    if 'A' <= c <= 'Z' then (c as int + 32) as char else c
  }

  /** `String.prototype.toLowerCase`, for the ASCII letters. */
  function ToLower(s: string): (r: string)
    ensures |r| == |s|
    ensures forall i :: 0 <= i < |s| ==> r[i] == LowerChar(s[i])
  {
    if s == [] then [] else [LowerChar(s[0])] + ToLower(s[1..])
  }

  /** Lower-casing twice is lower-casing once. */
  lemma {:induction false} ToLowerIdempotent(s: string)
    ensures ToLower(ToLower(s)) == ToLower(s)
  {
    if s != [] {
      ToLowerIdempotent(s[1..]);
      assert ToLower(s)[1..] == ToLower(s[1..]);
    }
  }

  /** `pat` occurs in `s` starting at index `i`. */
  predicate StartsAt(s: string, pat: string, i: nat)
  {
    i + |pat| <= |s| && s[i..i + |pat|] == pat
  }

  /** `pat` occurs somewhere in `s`. */
  ghost predicate Occurs(s: string, pat: string)
  {
    exists i: nat :: StartsAt(s, pat, i)
  }

  /** `/pat/.test(s)` for a pattern of plain letters: try each start position in turn. */
  function Test(s: string, pat: string): (r: bool)
    ensures r <==> Occurs(s, pat)
  {
    if |s| < |pat| then false
    else if s[..|pat|] == pat then assert StartsAt(s, pat, 0); true
    else
      var r := Test(s[1..], pat);
      assert r ==> Occurs(s, pat) by {
        if r {
          var i: nat :| StartsAt(s[1..], pat, i);
          assert s[1..][i..i + |pat|] == s[i + 1..i + 1 + |pat|];
          assert StartsAt(s, pat, i + 1);
        }
      }
      assert Occurs(s, pat) ==> r by {
        if Occurs(s, pat) {
          var i: nat :| StartsAt(s, pat, i);
          assert i != 0;
          assert s[1..][i - 1..i - 1 + |pat|] == s[i..i + |pat|];
          assert StartsAt(s[1..], pat, i - 1);
        }
      }
      r
  }

  /** `isIOS`: no window means false; otherwise the lower-cased user agent names an iPhone, iPad or iPod. */
  function IsIOS(env: Environment): (r: bool)
    ensures env.NoWindow? ==> !r
    ensures env.Browser? ==> (r <==>
      var ua := ToLower(env.userAgent);
      Occurs(ua, "iphone") || Occurs(ua, "ipad") || Occurs(ua, "ipod"))
  {
    match env
    case NoWindow => false
    case Browser(userAgent) =>
      var ua := ToLower(userAgent);
      Test(ua, "iphone") || Test(ua, "ipad") || Test(ua, "ipod")
  }

  /** `isAndroid`: no window means false; otherwise the lower-cased user agent names Android. */
  function IsAndroid(env: Environment): (r: bool)
    ensures env.NoWindow? ==> !r
    ensures env.Browser? ==> (r <==> Occurs(ToLower(env.userAgent), "android"))
  {
    match env
    case NoWindow => false
    case Browser(userAgent) => Test(ToLower(userAgent), "android")
  }

  /** The markers any of which makes a user agent mobile. */
  const MobileMarkers: seq<string> := ["iphone", "ipad", "ipod", "android"]

  /** `isMobile`: a browser whose lower-cased user agent names one of the mobile markers. */
  function IsMobile(env: Environment): (r: bool)
    ensures r <==> env.Browser? && exists pat :: pat in MobileMarkers && Occurs(ToLower(env.userAgent), pat)
  {
    IsIOS(env) || IsAndroid(env)
  }

  /** `getDeviceType`: iOS is checked before Android, and anything else is a desktop. */
  function GetDeviceType(env: Environment): (d: DeviceType)
    ensures d == Ios <==> IsIOS(env)
    ensures d == Android <==> !IsIOS(env) && IsAndroid(env)
    ensures d == Desktop <==> !IsMobile(env)
  {
    if IsIOS(env) then Ios
    else if IsAndroid(env) then Android
    else Desktop
  }

  /** A user agent and its lower-cased form are classified alike. */
  lemma CaseInsensitive(ua: string)
    ensures IsIOS(Browser(ua)) == IsIOS(Browser(ToLower(ua)))
    ensures IsAndroid(Browser(ua)) == IsAndroid(Browser(ToLower(ua)))
    ensures GetDeviceType(Browser(ua)) == GetDeviceType(Browser(ToLower(ua)))
  {
    ToLowerIdempotent(ua);
  }

  /** A lower-case pattern found in `s` is still found once `s` is lower-cased. */
  lemma {:induction false} OccursSurvivesLowering(s: string, pat: string)
    requires (forall k :: 0 <= k < |pat| ==> !('A' <= pat[k] <= 'Z')) && Occurs(s, pat)
    ensures Occurs(ToLower(s), pat)
  {
    var i: nat :| StartsAt(s, pat, i);
    forall k | 0 <= k < |pat|
      ensures ToLower(s)[i..i + |pat|][k] == pat[k]
    {
      assert s[i + k] == pat[k];
      assert LowerChar(pat[k]) == pat[k];
    }
    assert ToLower(s)[i..i + |pat|] == pat;
    assert StartsAt(ToLower(s), pat, i);
  }

  /** A user agent that names both an iPad and Android is an iOS device. */
  lemma IosTakesPriority(ua: string)
    requires Occurs(ua, "ipad") && Occurs(ua, "android")
    ensures IsAndroid(Browser(ua))
    ensures GetDeviceType(Browser(ua)) == Ios
  {
    OccursSurvivesLowering(ua, "ipad");
    OccursSurvivesLowering(ua, "android");
  }

  /** An upper-case iPhone marker is recognised. */
  lemma UpperCaseIPhone()
    ensures GetDeviceType(Browser("(IPHONE)")) == Ios
  {
    var ua := ToLower("(IPHONE)");
    assert ua[1..7] == "iphone";
    assert StartsAt(ua, "iphone", 1);
  }
}
