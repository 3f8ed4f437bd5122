/** `mapJioSaavnToAppFormat`: normalising a JioSaavn song record into the
    app's song shape, with `||` fallbacks, a thumbnail-size rewrite of the
    image link and `parseInt` on the duration. */
module SongMapper {
  import opened Maybe
  import opened Text

  /** A song as the JioSaavn API returns it; optional fields are `Option`s. */
  datatype JioSaavnSong = JioSaavnSong(
    id: string,
    song: Option<string>,
    title: Option<string>,
    singers: Option<string>,
    primaryArtists: Option<string>,
    image: string,
    mediaUrl: Option<string>,
    duration: string)

  datatype QualityLink = QualityLink(quality: string, link: string)

  /** The app's song record; a duration of `None` stands for `NaN`. */
  datatype AppSong = AppSong(
    id: string,
    name: string,
    primaryArtists: string,
    image: seq<QualityLink>,
    downloadUrl: seq<QualityLink>,
    duration: Option<int>)

  // ---- parseInt(string) with no radix ----

  predicate IsHexDigit(c: char)
  {
    IsDigit(c) || ('a' <= c <= 'f') || ('A' <= c <= 'F')
  }

  function HexDigitValue(c: char): (v: nat)
    requires IsHexDigit(c)
    ensures v < 16
  {
    if IsDigit(c) then DigitValue(c)
    else if 'a' <= c <= 'f' then (c as int) - ('a' as int) + 10
    else (c as int) - ('A' as int) + 10
  }

  /** The length of the run of hexadecimal digits at the start of `s`. */
  function LeadingHexDigits(s: string): (k: nat)
    ensures k <= |s|
    ensures forall i :: 0 <= i < k ==> IsHexDigit(s[i])
    ensures k < |s| ==> !IsHexDigit(s[k])
  {
    if s == [] || !IsHexDigit(s[0]) then 0 else 1 + LeadingHexDigits(s[1..])
  }

  /** The value of a numeral in base sixteen. */
  function HexValue(s: string): nat
    requires forall i :: 0 <= i < |s| ==> IsHexDigit(s[i])
  {
    if s == [] then 0 else 16 * HexValue(s[..|s| - 1]) + HexDigitValue(s[|s| - 1])
  }

  /** Whether an unsigned text starts with the `0x` or `0X` prefix that switches to base 16. */
  predicate HexPrefixed(u: string)
  {
    |u| >= 2 && u[0] == '0' && (u[1] == 'x' || u[1] == 'X')
  }

  /** The value of the digits `parseInt` reads from an unsigned text, `None` when there are none. */
  function Magnitude(u: string): (r: Option<nat>)
  {
    if HexPrefixed(u) then
      var k := LeadingHexDigits(u[2..]);
      if k == 0 then None else Some(HexValue(u[2..][..k]))
    else
      var k := LeadingDigits(u);
      if k == 0 then None else Some(DecimalValue(u[..k]))
  }

  /** `parseInt(s)`: leading whitespace skipped, an optional sign, then the
      longest run of digits (base 16 after `0x`); `None` when no digit is read. */
  function ParseInt(s: string): (r: Option<int>)
    ensures (forall i :: 0 <= i < |s| ==> IsJsSpace(s[i])) ==> r.None?
    ensures r.Some? ==> exists i :: 0 <= i < |s| && IsHexDigit(s[i])
    ensures r.Some? && r.value < 0 ==> TrimStart(s) != [] && TrimStart(s)[0] == '-'
  {
    var t := TrimStart(s);
    var negative := t != [] && t[0] == '-';
    var unsigned := if t != [] && (t[0] == '-' || t[0] == '+') then t[1..] else t;
    match Magnitude(unsigned)
    case None => None
    case Some(m) =>
      MagnitudeReadsADigit(unsigned);
      var j :| 0 <= j < |unsigned| && IsHexDigit(unsigned[j]);
      var i := |s| - |unsigned| + j;
      assert s[i] == unsigned[j];
      Some(if negative then -(m as int) else m as int)
  }

  /** A magnitude is read only from text holding a digit. */
  lemma MagnitudeReadsADigit(u: string)
    requires Magnitude(u).Some?
    ensures exists j :: 0 <= j < |u| && IsHexDigit(u[j])
  {
    if HexPrefixed(u) {
      assert IsHexDigit(u[2..][0]);
      assert IsHexDigit(u[2]);
    } else {
      assert IsHexDigit(u[0]);
    }
  }

  /** Text that cannot continue the decimal numeral of `n`: no digit, and no
      `x` or `X` after a lone `0` (which `parseInt` reads as the `0x` prefix). */
  predicate EndsNumeral(n: nat, t: string)
  {
    t == [] || (!IsDigit(t[0]) && (n != 0 || (t[0] != 'x' && t[0] != 'X')))
  }

  /** A decimal numeral followed by text that cannot continue it reads as its value. */
  lemma MagnitudeOfNumeral(n: nat, t: string)
    requires EndsNumeral(n, t)
    ensures Magnitude(Decimal(n) + t) == Some(n)
  {
    var d := Decimal(n);
    var u := d + t;
    LeadingDigitsOfNumeral(d, t);
    assert u[..|d|] == d;
    DecimalRoundTrip(n);
    assert !HexPrefixed(u) by {
      if |u| >= 2 && u[0] == '0' {
        assert d[0] == '0' && n == 0 && |d| == 1;
        assert u[1] == t[0];
      }
    }
  }

  /** Text that starts with a digit is read without a sign. */
  lemma ParseIntOfDigitLed(u: string)
    requires u != [] && IsDigit(u[0]) && Magnitude(u).Some?
    ensures ParseInt(u) == Some(Magnitude(u).value as int)
  {
    assert !IsJsSpace(u[0]);
    assert TrimStart(u) == u;
  }

  /** Text that starts with `-` and a digit is read as a negative number. */
  lemma ParseIntOfMinus(u: string, m: nat)
    requires u != [] && IsDigit(u[0]) && Magnitude(u) == Some(m)
    ensures ParseInt("-" + u) == Some(-(m as int))
  {
    var s := "-" + u;
    assert !IsJsSpace(s[0]);
    assert TrimStart(s) == s;
    assert s[1..] == u;
  }

  /** `parseInt` reads back a non-negative integer rendered in decimal. */
  lemma ParseIntOfNatural(n: nat, t: string)
    requires EndsNumeral(n, t)
    ensures ParseInt(Decimal(n) + t) == Some(n)
  {
    MagnitudeOfNumeral(n, t);
    ParseIntOfDigitLed(Decimal(n) + t);
  }

  /** `parseInt` reads back a negative integer rendered in decimal. */
  lemma ParseIntOfNegative(n: nat, t: string)
    requires EndsNumeral(n, t)
    ensures ParseInt("-" + (Decimal(n) + t)) == Some(-(n as int))
  {
    var d := Decimal(n);
    var u := d + t;
    MagnitudeOfNumeral(n, t);
    assert u[0] == d[0] && IsDigit(d[0]);
    ParseIntOfMinus(u, n);
  }

  /** `parseInt` reads back any integer rendered in decimal, whatever non-digit
      text follows it (other than an `x` or `X` right after a lone `0`). */
  lemma ParseIntOfNumeral(i: int, t: string)
    requires t == [] || (!IsDigit(t[0]) && (i != 0 || (t[0] != 'x' && t[0] != 'X')))
    ensures ParseInt(IntDecimal(i) + t) == Some(i)
  {
    if i < 0 {
      var n: nat := -i;
      assert IntDecimal(i) == "-" + Decimal(n);
      assert IntDecimal(i) + t == "-" + (Decimal(n) + t);
      ParseIntOfNegative(n, t);
    } else {
      assert IntDecimal(i) + t == Decimal(i) + t;
      ParseIntOfNatural(i, t);
    }
  }

  /** Text with no digit after its whitespace and sign reads as `NaN`. */
  lemma ParseIntWithoutDigits(s: string)
    requires forall i :: 0 <= i < |s| ==> !IsDigit(s[i])
    ensures ParseInt(s) == None
  {
    var t := TrimStart(s);
    var u := if t != [] && (t[0] == '-' || t[0] == '+') then t[1..] else t;
    assert forall i :: 0 <= i < |u| ==> u[i] in s;
    assert !HexPrefixed(u) by {
      if |u| >= 2 { assert u[0] in s; }
    }
    assert u == [] || !IsDigit(u[0]) by {
      if u != [] { assert u[0] in s; }
    }
  }

  // ---- the mapping ----

  /** `parseInt(duration || '0')`: an empty duration counts as `0`. */
  function Duration(duration: string): (r: Option<int>)
    ensures duration == "" ==> r == Some(0)
    ensures duration != "" ==> r == ParseInt(duration)
  {
    if duration == "" then
      ParseIntOfNumeral(0, "");
      assert IntDecimal(0) + "" == "0";
      ParseInt("0")
    else
      ParseInt(duration)
  }

  /** `mapJioSaavnToAppFormat(data)`. */
  function MapJioSaavnToAppFormat(data: JioSaavnSong): (r: AppSong)
    ensures r.id == data.id
    ensures r.name == OrElse(data.song, OrElse(data.title, ""))
    ensures r.primaryArtists == OrElse(data.singers, OrElse(data.primaryArtists, ""))
    ensures |r.image| == 1 && r.image[0].quality == "500x500"
    ensures r.image[0].link == ReplaceFirst(data.image, "150x150", "500x500")
    ensures r.downloadUrl == [] <==> !Truthy(data.mediaUrl)
    ensures r.downloadUrl != [] ==> r.downloadUrl == [QualityLink("320kbps", data.mediaUrl.value)]
    ensures r.duration == Duration(data.duration)
  {
    AppSong(
      data.id,
      OrElse(data.song, OrElse(data.title, "")),
      OrElse(data.singers, OrElse(data.primaryArtists, "")),
      [QualityLink("500x500", ReplaceFirst(data.image, "150x150", "500x500"))],
      if Truthy(data.mediaUrl) then [QualityLink("320kbps", data.mediaUrl.value)] else [],
      Duration(data.duration))
  }

  /** The name is empty only when neither `song` nor `title` is truthy, and is
      otherwise the first truthy one of them; likewise for the artists. */
  lemma NameFallback(data: JioSaavnSong)
    ensures var r := MapJioSaavnToAppFormat(data);
            && (r.name == "" <==> !Truthy(data.song) && !Truthy(data.title))
            && (Truthy(data.song) ==> r.name == data.song.value)
            && (!Truthy(data.song) && Truthy(data.title) ==> r.name == data.title.value)
            && (r.primaryArtists == "" <==> !Truthy(data.singers) && !Truthy(data.primaryArtists))
  {
  }

  /** A duration written as a decimal integer, possibly followed by a unit
      or other non-digit text, maps to that integer. */
  lemma DurationOfNumeral(data: JioSaavnSong, i: int, t: string)
    requires data.duration == IntDecimal(i) + t
    requires t == [] || (!IsDigit(t[0]) && (i != 0 || (t[0] != 'x' && t[0] != 'X')))
    ensures MapJioSaavnToAppFormat(data).duration == Some(i)
  {
    ParseIntOfNumeral(i, t);
  }

  /** The image link's first `150x150` becomes `500x500`; a link without it is kept. */
  lemma ImageUpsized(data: JioSaavnSong, before: string, after: string)
    requires data.image == before + "150x150" + after
    requires forall j :: !OccursAt(before + "150x15", "150x150", j)
    ensures MapJioSaavnToAppFormat(data).image[0].link == before + "500x500" + after
  {
    var s := data.image;
    var i := |before|;
    assert s[i..i + 7] == "150x150";
    assert OccursAt(s, "150x150", i);
    forall j | 0 <= j < i
      ensures !OccursAt(s, "150x150", j)
    {
      var p := before + "150x15";
      assert s[..|p|] == p;
      assert !OccursAt(p, "150x150", j);
      assert s[j..j + 7] == p[j..j + 7];
    }
    assert s[..i] == before;
    assert s[i + 7..] == after;
  }
}
