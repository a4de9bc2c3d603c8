/** Helpers of src/utils.c: the case-insensitive suffix test, the random range
    helper and the formatting of the application's version string. */
module Utils {

  datatype Option<T> = None | Some(value: T)

  /** C's `unsigned int` is 32 bits wide on the PSP; arithmetic on it wraps. */
  const UINT_MODULUS: int := 0x1_0000_0000
  type Uint = x: int | 0 <= x < UINT_MODULUS

  // ---------------------------------------------------------------------------
  // str_endswith
  // ---------------------------------------------------------------------------

  /** The ASCII case folding strcasecmp applies in the C locale. */
  function ToLowerAscii(c: char): char {
    if 'A' <= c <= 'Z' then (c as int + 32) as char else c
  }

  /** Two strings compare equal under strcasecmp. */
  predicate EqualIgnoringCase(a: string, b: string) {
    |a| == |b| && forall i :: 0 <= i < |a| ==> ToLowerAscii(a[i]) == ToLowerAscii(b[i])
  }

  /** str_endswith as written: strcasecmp of the pointer
      `str + strlen(str) - strlen(suffix)` against `suffix`. That pointer lies
      inside `str` only when `str` is at least as long as `suffix`; for a
      shorter `str` the C code reads before the start of the string, so the
      as-written function is only defined on that domain. */
  function StrEndsWith(str: string, suffix: string): (r: bool)
    requires |suffix| <= |str|
    ensures r <==> forall i :: 0 <= i < |suffix| ==>
                      ToLowerAscii(str[|str| - |suffix| + i]) == ToLowerAscii(suffix[i])
  {
    EqualIgnoringCase(str[|str| - |suffix|..], suffix)
  }

  /** Offset of the pointer str_endswith hands to strcasecmp, relative to the
      start of `str` (negative means before the string). */
  function SuffixOffset(str: string, suffix: string): int {
    |str| - |suffix|
  }

  const MP3_SUFFIX: string := ".mp3"

  /** music_init calls str_endswith on every directory entry; the entries "."
      and ".." are shorter than ".mp3", so the as-written pointer lands before
      the start of the name. */
  lemma DotEntriesReadBeforeName()
    ensures SuffixOffset(".", MP3_SUFFIX) == -3 && SuffixOffset("..", MP3_SUFFIX) == -2
    ensures !(|MP3_SUFFIX| <= |"."|) && !(|MP3_SUFFIX| <= |".."|)
  {
  }

  /** The suffix test as intended: a string shorter than the suffix does not
      end with it. This is the version the rest of the model uses. */
  function EndsWith(str: string, suffix: string): (r: bool)
    ensures r ==> |suffix| <= |str|
    ensures |suffix| <= |str| ==> (r <==> StrEndsWith(str, suffix))
  {
    |suffix| <= |str| && StrEndsWith(str, suffix)
  }

  /** EndsWith holds exactly when `str` splits into some prefix followed by a
      case-insensitive copy of `suffix`. */
  lemma {:induction false} EndsWithIffSplit(str: string, suffix: string)
    ensures EndsWith(str, suffix) <==>
            exists p, u :: str == p + u && EqualIgnoringCase(u, suffix)
  {
    if EndsWith(str, suffix) {
      var k := |str| - |suffix|;
      assert str == str[..k] + str[k..];
      assert EqualIgnoringCase(str[k..], suffix);
    }
    if exists p, u :: str == p + u && EqualIgnoringCase(u, suffix) {
      var p, u :| str == p + u && EqualIgnoringCase(u, suffix);
      assert str[|str| - |suffix|..] == u;
    }
  }

  /** Case is ignored on both sides: the upper-case file name of a track
      matches the lower-case suffix music_init looks for. */
  lemma UpperCaseNameMatches()
    ensures EndsWith("SONG.MP3", MP3_SUFFIX)
    ensures !EndsWith("SONG.WAV", MP3_SUFFIX)
  {
    assert "SONG.MP3"[4..] == ".MP3";
    assert "SONG.WAV"[5] == 'W' && MP3_SUFFIX[1] == 'm';
  }

  // ---------------------------------------------------------------------------
  // get_rand_range_uint
  // ---------------------------------------------------------------------------

  /** get_rand_range_uint(min, max) given the value `roll` that rand()
      returned: `rand() % (max - min + 1) + min` in unsigned 32-bit
      arithmetic. The divisor must not wrap to 0 (that is a division by zero
      in C). */
  function RandRangeUint(roll: Uint, min: Uint, max: Uint): (v: Uint)
    requires (max - min + 1) % UINT_MODULUS != 0
    ensures min <= max ==> min <= v <= max
  {
    var span := (max - min + 1) % UINT_MODULUS;
    (roll % span + min) % UINT_MODULUS
  }

  /** A one-element range always yields its only element, whatever rand()
      returned. */
  lemma RandRangeSingleton(roll: Uint, m: Uint)
    ensures RandRangeUint(roll, m, m) == m
  {
  }

  // ---------------------------------------------------------------------------
  // get_app_v_string
  // ---------------------------------------------------------------------------

  type Byte = x: int | 0 <= x < 256

  /** app_version_type: the enumerators are the characters printed by %c. */
  datatype VersionType = VerAlpha | VerBeta | VerPreview | VerDebug | VerRelease

  function TypeChar(t: VersionType): char {
    match t
    case VerAlpha => 'a'
    case VerBeta => 'b'
    case VerPreview => 'p'
    case VerDebug => 'd'
    case VerRelease => 'r'
  }

  function CharType(c: char): Option<VersionType> {
    if c == 'a' then Some(VerAlpha)
    else if c == 'b' then Some(VerBeta)
    else if c == 'p' then Some(VerPreview)
    else if c == 'd' then Some(VerDebug)
    else if c == 'r' then Some(VerRelease)
    else None
  }

  /** The version fields of app_info. */
  datatype AppVersion = AppVersion(major: Byte, minor: Byte, patch: Byte, kind: VersionType)

  /** sizeof(app_info.v_string). */
  const V_STRING_SIZE: nat := 32

  predicate IsDigit(c: char) {
    '0' <= c <= '9'
  }

  predicate AllDigits(s: string) {
    forall i :: 0 <= i < |s| ==> IsDigit(s[i])
  }

  function DigitChar(d: nat): (c: char)
    requires d < 10
    ensures IsDigit(c)
  {
    ('0' as int + d) as char
  }

  function DigitValue(c: char): nat
    requires IsDigit(c)
  {
    c as int - '0' as int
  }

  /** The decimal text %i prints for a non-negative value. */
  function NatToString(n: nat): (s: string)
    ensures 1 <= |s| && AllDigits(s)
    decreases n
  {
    if n < 10 then [DigitChar(n)] else NatToString(n / 10) + [DigitChar(n % 10)]
  }

  /** The value of a string of decimal digits. */
  function DecimalValue(s: string): nat
    requires AllDigits(s)
    decreases |s|
  {
    if s == [] then 0 else DecimalValue(s[..|s| - 1]) * 10 + DigitValue(s[|s| - 1])
  }

  lemma {:induction false} DecimalRoundTrip(n: nat)
    ensures DecimalValue(NatToString(n)) == n
    decreases n
  {
    if n >= 10 {
      var s := NatToString(n);
      DecimalRoundTrip(n / 10);
      assert s[..|s| - 1] == NatToString(n / 10);
    }
  }

  /** A byte prints as at most three digits. */
  lemma ByteDigits(b: Byte)
    ensures |NatToString(b)| <= 3
  {
    if b >= 100 {
      assert |NatToString(b / 10 / 10)| == 1;
      assert |NatToString(b / 10)| == 2;
    } else if b >= 10 {
      assert |NatToString(b / 10)| == 1;
    }
  }

  /** What `"%i.%i.%i%c"` prints for a version. */
  function FormatVersion(v: AppVersion): string {
    NatToString(v.major) + "." + NatToString(v.minor) + "." + NatToString(v.patch) + [TypeChar(v.kind)]
  }

  function Truncate(s: string, n: nat): (r: string)
    ensures |r| <= n && |r| <= |s| && r == s[..|r|]
    ensures |s| <= n ==> r == s
  {
    if |s| <= n then s else s[..n]
  }

  /** get_app_v_string: nothing is written for a null app_info; otherwise
      v_string receives the formatted version, cut by snprintf to the 31
      characters that fit before the terminating NUL. */
  function GetAppVString(info: Option<AppVersion>): (r: Option<string>)
    ensures r.None? <==> info.None?
    ensures r.Some? ==> |r.value| < V_STRING_SIZE
  {
    match info
    case None => None
    case Some(v) => Some(Truncate(FormatVersion(v), V_STRING_SIZE - 1))
  }

  /** Every version fits in v_string: snprintf never truncates it. */
  lemma VersionNeverTruncated(v: AppVersion)
    ensures |FormatVersion(v)| <= 12
    ensures GetAppVString(Some(v)) == Some(FormatVersion(v))
  {
    ByteDigits(v.major);
    ByteDigits(v.minor);
    ByteDigits(v.patch);
  }

  /** The version of src/main.c:43 prints as "2.2.0r". */
  lemma ReleaseVersionString()
    ensures GetAppVString(Some(AppVersion(2, 2, 0, VerRelease))) == Some("2.2.0r")
  {
    VersionNeverTruncated(AppVersion(2, 2, 0, VerRelease));
    assert NatToString(2) == ['2'];
    assert NatToString(0) == ['0'];
    assert FormatVersion(AppVersion(2, 2, 0, VerRelease)) == ['2'] + "." + ['2'] + "." + ['0'] + ['r'];
    assert ['2'] + "." + ['2'] + "." + ['0'] + ['r'] == "2.2.0r";
  }

  /** Index of the first `c` in `s`, or |s| when there is none. */
  function IndexOf(s: string, c: char): (k: nat)
    ensures k <= |s|
    ensures forall i :: 0 <= i < k ==> s[i] != c
    ensures k < |s| ==> s[k] == c
  {
    if s == [] then 0 else if s[0] == c then 0 else 1 + IndexOf(s[1..], c)
  }

  lemma {:induction false} IndexOfAfterDigits(d: string, rest: string)
    requires AllDigits(d)
    ensures IndexOf(d + "." + rest, '.') == |d|
  {
    var s := d + "." + rest;
    var k := IndexOf(s, '.');
    assert s[|d|] == '.';
    assert forall i :: 0 <= i < |d| ==> s[i] == d[i] && IsDigit(s[i]);
  }

  /** Reads a version string back: three dot-separated decimal numbers and
      the type character. */
  function ParseVersion(s: string): Option<AppVersion> {
    if |s| == 0 then None
    else
      var body, kind := s[..|s| - 1], CharType(s[|s| - 1]);
      var i := IndexOf(body, '.');
      if i == |body| then None
      else
        var rest := body[i + 1..];
        var j := IndexOf(rest, '.');
        if j == |rest| then None
        else
          var a, b, c := body[..i], rest[..j], rest[j + 1..];
          if !(AllDigits(a) && AllDigits(b) && AllDigits(c)) || kind.None? then None
          else
            var ma, mi, pa := DecimalValue(a), DecimalValue(b), DecimalValue(c);
            if ma < 256 && mi < 256 && pa < 256 then Some(AppVersion(ma, mi, pa, kind.value)) else None
  }

  /** Parsing three digit strings joined by dots and followed by a type
      character gives back their values and the type. */
  lemma {:induction false} ParseJoined(sa: string, sb: string, sc: string, k: VersionType)
    requires AllDigits(sa) && AllDigits(sb) && AllDigits(sc)
    requires DecimalValue(sa) < 256 && DecimalValue(sb) < 256 && DecimalValue(sc) < 256
    ensures ParseVersion(sa + "." + sb + "." + sc + [TypeChar(k)])
            == Some(AppVersion(DecimalValue(sa), DecimalValue(sb), DecimalValue(sc), k))
  {
    var s := sa + "." + sb + "." + sc + [TypeChar(k)];
    var body := s[..|s| - 1];
    assert body == sa + "." + (sb + "." + sc);
    IndexOfAfterDigits(sa, sb + "." + sc);
    var rest := body[|sa| + 1..];
    assert rest == sb + "." + sc;
    IndexOfAfterDigits(sb, sc);
    assert body[..|sa|] == sa;
    assert rest[..|sb|] == sb;
    assert rest[|sb| + 1..] == sc;
    assert s[|s| - 1] == TypeChar(k);
  }

  /** The written version string determines the version: parsing v_string
      gives back major, minor, patch and type. */
  lemma {:induction false} VersionRoundTrip(v: AppVersion)
    ensures ParseVersion(GetAppVString(Some(v)).value) == Some(v)
  {
    VersionNeverTruncated(v);
    DecimalRoundTrip(v.major);
    DecimalRoundTrip(v.minor);
    DecimalRoundTrip(v.patch);
    ParseJoined(NatToString(v.major), NatToString(v.minor), NatToString(v.patch), v.kind);
  }
}
