/** The string helpers of ui.js: `capitalize`, `getStatusClass` and
    `getRideTypeIcon`. Case mapping is the ASCII part of Unicode's. */
module Ui {

  function UpperChar(c: char): char {
    if 'a' <= c <= 'z' then ((c as int) - 32) as char else c
  }

  function LowerChar(c: char): char {
    if 'A' <= c <= 'Z' then ((c as int) + 32) as char else c
  }

  /** `String.prototype.toUpperCase` on ASCII letters. */
  function ToUpperCase(s: string): string {
    seq(|s|, i requires 0 <= i < |s| => UpperChar(s[i]))
  }

  /** `String.prototype.toLowerCase` on ASCII letters. */
  function ToLowerCase(s: string): string {
    seq(|s|, i requires 0 <= i < |s| => LowerChar(s[i]))
  }

  /** `str.charAt(0).toUpperCase() + str.slice(1)`: the first character
      upper-cased, the rest untouched; `charAt(0)` of "" is "". */
  function Capitalize(str: string): (r: string)
    ensures |r| == |str|
    ensures forall k :: 1 <= k < |str| ==> r[k] == str[k]
    ensures str != [] ==> r[0] == UpperChar(str[0])
  {
    if str == [] then [] else ToUpperCase(str[..1]) + str[1..]
  }

  lemma CapitalizeEmpty()
    ensures Capitalize("") == ""
  {
  }

  /** Capitalizing twice is capitalizing once. */
  lemma CapitalizeIdempotent(str: string)
    ensures Capitalize(Capitalize(str)) == Capitalize(str)
  {
    if str != [] {
      var once := Capitalize(str);
      assert UpperChar(UpperChar(str[0])) == UpperChar(str[0]);
      assert Capitalize(once)[0] == once[0];
    }
  }

  /** `s.indexOf(c)`: the first position of `c`, or -1. */
  function IndexOf(s: string, c: char): (i: int)
    ensures -1 <= i < |s|
    ensures i >= 0 ==> s[i] == c && forall k :: 0 <= k < i ==> s[k] != c
    ensures i == -1 <==> c !in s
  {
    if s == [] then -1
    else if s[0] == c then 0
    else
      var k := IndexOf(s[1..], c);
      if k == -1 then -1 else k + 1
  }

  /** `s.replace(from, to)` with a one-character string pattern: only the
      first occurrence is replaced. */
  function ReplaceFirst(s: string, from: char, to: char): string {
    if s == [] then []
    else if s[0] == from then [to] + s[1..]
    else [s[0]] + ReplaceFirst(s[1..], from, to)
  }

  /** Replacing the first occurrence changes the character at IndexOf and
      no other. */
  lemma {:induction false} ReplaceFirstAtIndexOf(s: string, from: char, to: char)
    ensures var i := IndexOf(s, from);
            ReplaceFirst(s, from, to) == if i == -1 then s else s[i := to]
  {
    if s != [] && s[0] != from {
      ReplaceFirstAtIndexOf(s[1..], from, to);
      var i := IndexOf(s[1..], from);
      if i != -1 {
        assert [s[0]] + s[1..][i := to] == s[i + 1 := to];
      }
    }
  }

  /** `status-${status.toLowerCase().replace(' ', '-')}` */
  function GetStatusClass(status: string): (r: string)
    ensures |r| == 7 + |status| && r[..7] == "status-"
    ensures var i := IndexOf(ToLowerCase(status), ' ');
            forall k :: 0 <= k < |status| ==> r[7 + k] == if k == i then '-' else LowerChar(status[k])
  {
    ReplaceFirstAtIndexOf(ToLowerCase(status), ' ', '-');
    "status-" + ReplaceFirst(ToLowerCase(status), ' ', '-')
  }

  /** Lower-casing moves no space. */
  lemma {:induction false} LowerKeepsSpaces(s: string)
    ensures IndexOf(ToLowerCase(s), ' ') == IndexOf(s, ' ')
  {
    if s != [] {
      LowerKeepsSpaces(s[1..]);
      assert ToLowerCase(s)[1..] == ToLowerCase(s[1..]);
    }
  }

  /** Only the first space becomes a hyphen: every later space stays. */
  lemma StatusClassKeepsLaterSpaces(status: string, k: int)
    requires 0 <= k < |status| && status[k] == ' ' && k != IndexOf(status, ' ')
    ensures GetStatusClass(status)[7 + k] == ' '
  {
    LowerKeepsSpaces(status);
  }

  const EconomyIcon := "\U{1F697}"
  const ComfortIcon := "\U{1F699}"
  const PremiumIcon := "\U{1F695}"
  const XlIcon := "\U{1F690}"

  /** `icons[type] || '🚗'`: the icon of a known ride type, the economy
      icon for anything else. */
  function GetRideTypeIcon(rideType: string): (icon: string)
    ensures rideType == "economy" ==> icon == EconomyIcon
    ensures rideType == "comfort" ==> icon == ComfortIcon
    ensures rideType == "premium" ==> icon == PremiumIcon
    ensures rideType == "xl" ==> icon == XlIcon
    ensures rideType !in {"economy", "comfort", "premium", "xl"} ==> icon == EconomyIcon
  {
    match rideType
    case "comfort" => ComfortIcon
    case "premium" => PremiumIcon
    case "xl" => XlIcon
    case _ => EconomyIcon
  }

  /** Each known type has an icon of its own; only economy shares its icon
      with the fallback. */
  lemma RideTypeIconsDistinct(rideType: string)
    ensures GetRideTypeIcon(rideType) == EconomyIcon <==> rideType !in {"comfort", "premium", "xl"}
  {
  }
}
