/** Textures of src/tex.c: the texture table main_clock_tex, the composition of
    texture paths, loading and freeing the table, and the choice of digit
    tiles for the current time and date. */
module Tex {
  import opened Utils
  import opened ErrorCodes

  // Indices of the textures (the T_* enumeration of src/tex.h). The union
  // clock_tex makes a[k] the k-th named texture, so the table is one sequence
  // indexed by these constants.
  const T_ZERO: nat := 0
  const T_NINE: nat := 9
  const T_COLON: nat := 10
  const T_DASH: nat := 11
  const T_DOT_BOTTOM: nat := 12
  const T_ICON_MUSIC: nat := 13
  const T_ALARM_DOT: nat := 14
  const T_BAT_FULL: nat := 15
  const T_BAT_3BAR: nat := 16
  const T_BAT_2BAR: nat := 17
  const T_BAT_1BAR: nat := 18
  const T_BAT_EMPTY: nat := 19
  const T_COUNT: nat := 20

  /** The file names main_clock_tex is initialised with, in T_* order. */
  const CLOCK_TEX_FILENAMES: seq<string> := [
    "timedate/0", "timedate/1", "timedate/2", "timedate/3", "timedate/4",
    "timedate/5", "timedate/6", "timedate/7", "timedate/8", "timedate/9",
    "timedate/colon", "timedate/dash", "timedate/dot_bottom", "icon_music", "alarm_dot",
    "battery/icon_battery_4bars", "battery/icon_battery_3bars", "battery/icon_battery_2bars",
    "battery/icon_battery_1bars", "battery/icon_battery_empty"
  ]

  const TEX_FILEPATH: string := "assets/textures/"
  const PNG_EXTENSION: string := ".png"

  /** Size of the path buffer app_tex_alloc passes to get_tex_full_path. */
  const PATH_MAX: nat := 1024

  /** A loaded texture: an opaque g2dTexture pointer. */
  type TexHandle = int

  // ---------------------------------------------------------------------------
  // get_tex_full_path
  // ---------------------------------------------------------------------------

  datatype PathResult = PathOk(out: string) | PathErr(code: int)

  /** The path get_tex_full_path would print with an unbounded buffer. */
  function FullPath(filename: string): string {
    TEX_FILEPATH + filename + PNG_EXTENSION
  }

  /** get_tex_full_path: `tex` is the texture's file name (None for a null
      app_tex), `hasOut` says whether `out` is non-null, `size` is the size of
      `out`. On success `out` holds what snprintf writes: the path cut to the
      size - 1 characters that fit before the terminating NUL. */
  function GetTexFullPath(tex: Option<string>, hasOut: bool, size: nat): (r: PathResult)
    ensures r.PathErr? <==> tex.None? || tex.value == [] || !hasOut || size == 0
    ensures r.PathErr? ==> r.code == ERROR_UNKNOWN
    ensures r.PathOk? ==> |r.out| < size && |r.out| <= |FullPath(tex.value)|
    ensures r.PathOk? ==> r.out == FullPath(tex.value)[..|r.out|]
    ensures r.PathOk? && |FullPath(tex.value)| < size ==> r.out == FullPath(tex.value)
  {
    if tex.None? || tex.value == [] || !hasOut || size == 0 then PathErr(ERROR_UNKNOWN)
    else PathOk(Truncate(FullPath(tex.value), size - 1))
  }

  /** Recovers the file name from a full texture path. */
  function TexNameOf(path: string): Option<string> {
    var n, m := |TEX_FILEPATH|, |PNG_EXTENSION|;
    if |path| >= n + m && path[..n] == TEX_FILEPATH && path[|path| - m..] == PNG_EXTENSION
    then Some(path[n..|path| - m])
    else None
  }

  /** When the buffer is large enough, the written path names the texture it
      was built from. */
  lemma {:induction false} FullPathRoundTrip(name: string, size: nat)
    requires name != [] && |FullPath(name)| < size
    ensures GetTexFullPath(Some(name), true, size) == PathOk(FullPath(name))
    ensures TexNameOf(FullPath(name)) == Some(name)
  {
    var p := FullPath(name);
    var n, m := |TEX_FILEPATH|, |PNG_EXTENSION|;
    assert p[..n] == TEX_FILEPATH;
    assert p[|p| - m..] == PNG_EXTENSION;
    assert p[n..|p| - m] == name;
  }

  // ---------------------------------------------------------------------------
  // app_tex_alloc / clock_tex_alloc / clock_tex_free
  // ---------------------------------------------------------------------------

  /** The path app_tex_alloc checks and loads: get_tex_full_path into a
      PATH_MAX buffer. */
  function AllocPath(name: string): string {
    Truncate(FullPath(name), PATH_MAX - 1)
  }

  /** Whether app_tex_alloc gets as far as calling g2dTexLoad (and so assigns
      the entry's texture pointer). `files` holds the paths for which
      file_exists answers true. */
  predicate AppTexAllocLoads(tex: Option<string>, files: set<string>) {
    tex.Some? && tex.value != [] && AllocPath(tex.value) in files
  }

  /** app_tex_alloc's return value; `load` is what g2dTexLoad returns
      (None for NULL). */
  function AppTexAllocCode(tex: Option<string>, files: set<string>, load: Option<TexHandle>): (code: int)
    ensures code == 0 || code == ERROR_UNKNOWN || code == ERROR_TEXTURES_NOT_FOUND || code == ERROR_ALLOCATING_TEXTURES
    ensures code == 0 ==> tex.Some? && AllocPath(tex.value) in files && load.Some?
  {
    if tex.None? || tex.value == [] then ERROR_UNKNOWN
    else
      match GetTexFullPath(tex, true, PATH_MAX)
      case PathErr(_) => ERROR_UNKNOWN
      case PathOk(path) =>
        if path !in files then ERROR_TEXTURES_NOT_FOUND
        else if load.None? then ERROR_ALLOCATING_TEXTURES
        else 0
  }

  /** The checks of app_tex_alloc come in a fixed order and the first one
      that applies decides the result: invalid input, then a missing file,
      then a failed load; only a loaded texture returns 0. */
  lemma AppTexAllocPriority(tex: Option<string>, files: set<string>, load: Option<TexHandle>)
    ensures var code := AppTexAllocCode(tex, files, load);
      && (code == ERROR_UNKNOWN <==> tex.None? || tex.value == [])
      && (code == ERROR_TEXTURES_NOT_FOUND <==> tex.Some? && tex.value != [] && AllocPath(tex.value) !in files)
      && (code == ERROR_ALLOCATING_TEXTURES <==> AppTexAllocLoads(tex, files) && load.None?)
      && (code == 0 <==> AppTexAllocLoads(tex, files) && load.Some?)
  {
  }

  /** The first index whose code is negative, or |codes| when there is none. */
  function FirstFailure(codes: seq<int>): (k: nat)
    ensures k <= |codes|
    ensures forall i :: 0 <= i < k ==> codes[i] >= 0
    ensures k < |codes| ==> codes[k] < 0
  {
    if codes == [] then 0
    else if codes[0] < 0 then 0
    else 1 + FirstFailure(codes[1..])
  }

  /** What app_tex_alloc returns for each entry of the table. */
  function AllocCodes(filenames: seq<string>, files: set<string>, loads: seq<Option<TexHandle>>): (codes: seq<int>)
    requires |loads| == |filenames|
    ensures |codes| == |filenames|
    ensures forall k :: 0 <= k < |codes| ==> codes[k] == AppTexAllocCode(Some(filenames[k]), files, loads[k])
  {
    seq(|filenames|, k requires 0 <= k < |filenames| => AppTexAllocCode(Some(filenames[k]), files, loads[k]))
  }

  /** The texture table main_clock_tex: each entry's file name and its loaded
      texture (None while it is NULL). */
  class ClockTextures {
    const filenames: seq<string>
    const tex: array<Option<TexHandle>>

    ghost predicate Valid()
      reads this
    {
      |filenames| == T_COUNT && tex.Length == T_COUNT
    }

    constructor ()
      ensures Valid() && fresh(tex)
      ensures filenames == CLOCK_TEX_FILENAMES
      ensures forall k :: 0 <= k < T_COUNT ==> tex[k] == None
    {
      filenames := CLOCK_TEX_FILENAMES;
      tex := new Option<TexHandle>[T_COUNT](_ => None);
    }

    /** clock_tex_alloc: loads the entries in order and stops at the first
        one app_tex_alloc fails on; later entries are not attempted. `shown`
        is the code handed to app_error_display on failure. `loads[k]` is what
        g2dTexLoad returns for entry k. */
    method Alloc(files: set<string>, loads: seq<Option<TexHandle>>) returns (ret: int, shown: Option<int>)
      requires Valid() && |loads| == T_COUNT
      modifies tex
      ensures Valid()
      ensures var codes := AllocCodes(filenames, files, loads);
        var k := FirstFailure(codes);
        && (ret == 0 <==> k == T_COUNT)
        && (ret == -1 <==> k < T_COUNT)
        && (shown == if k < T_COUNT then Some(codes[k]) else None)
        && (forall i :: 0 <= i < T_COUNT ==>
              tex[i] == if i < k || (i == k && AppTexAllocLoads(Some(filenames[i]), files))
                        then loads[i] else old(tex[i]))
    {
      ghost var codes := AllocCodes(filenames, files, loads);
      var i := 0;
      while i < T_COUNT
        invariant 0 <= i <= T_COUNT
        invariant forall j :: 0 <= j < i ==> codes[j] >= 0
        invariant forall j :: 0 <= j < i ==> tex[j] == loads[j]
        invariant forall j :: i <= j < T_COUNT ==> tex[j] == old(tex[j])
      {
        var name := Some(filenames[i]);
        var code := AppTexAllocCode(name, files, loads[i]);
        if AppTexAllocLoads(name, files) {
          tex[i] := loads[i];
        }
        if code < 0 {
          ret, shown := -1, Some(code);
          FirstFailureIs(codes, i);
          return;
        }
        i := i + 1;
      }
      FirstFailureIs(codes, T_COUNT);
      ret, shown := 0, None;
    }

    /** clock_tex_free: frees every loaded entry; afterwards no entry holds a
        texture. */
    method Free()
      requires Valid()
      modifies tex
      ensures Valid()
      ensures forall k :: 0 <= k < T_COUNT ==> tex[k] == None
    {
      for i := 0 to T_COUNT
        invariant forall j :: 0 <= j < i ==> tex[j] == None
      {
        // app_tex_free returns ERROR_UNKNOWN for an entry that holds nothing
        if tex[i].Some? {
          tex[i] := None;
        }
      }
    }
  }

  /** FirstFailure is the index the loop stops at. */
  lemma {:induction false} FirstFailureIs(codes: seq<int>, k: nat)
    requires k <= |codes|
    requires forall i :: 0 <= i < k ==> codes[i] >= 0
    requires k < |codes| ==> codes[k] < 0
    ensures FirstFailure(codes) == k
  {
    if codes != [] && codes[0] >= 0 {
      FirstFailureIs(codes[1..], k - 1);
    }
  }

  // ---------------------------------------------------------------------------
  // clock_build_curr_tex_draw
  // ---------------------------------------------------------------------------

  /** ScePspDateTime (microseconds left out). Its fields are unsigned. */
  datatype DateTime = DateTime(year: nat, month: nat, day: nat, hour: nat, minute: nat, second: nat)

  /** The tens tile of a value, NULL (None) when the tens digit is 0. */
  function TensTile(v: nat): Option<nat> {
    if v / 10 != 0 then Some(v / 10) else None
  }

  /** The four time tiles: hour tens (suppressed when 0), hour ones, minute
      tens (always drawn), minute ones. A tile is a texture index. */
  function TimeTiles(hour: nat, minute: nat): (r: seq<Option<nat>>)
    ensures |r| == 4
    ensures r[0].None? <==> hour < 10
    ensures r[1].Some? && r[2].Some? && r[3].Some?
  {
    [TensTile(hour), Some(hour % 10), Some(minute / 10), Some(minute % 10)]
  }

  /** The four date tiles: day tens, day ones, month tens, month ones; both
      tens tiles are suppressed when 0. */
  function DateTiles(day: nat, month: nat): (r: seq<Option<nat>>)
    ensures |r| == 4
    ensures r[0].None? <==> day < 10
    ensures r[2].None? <==> month < 10
    ensures r[1].Some? && r[3].Some?
  {
    [TensTile(day), Some(day % 10), TensTile(month), Some(month % 10)]
  }

  /** The digit a tile shows, reading an undrawn tile as 0. */
  function TileDigit(t: Option<nat>): nat {
    match t
    case None => 0
    case Some(k) => k
  }

  /** The number a tens tile and a ones tile show together. */
  function PairValue(tens: Option<nat>, ones: Option<nat>): nat {
    TileDigit(tens) * 10 + TileDigit(ones)
  }

  predicate IsDigitTexture(t: Option<nat>) {
    t.Some? ==> T_ZERO <= t.value <= T_NINE
  }

  /** A value below 100 decomposes into a suppressed-or-digit tens tile and a
      digit ones tile that read back as the value. */
  lemma {:induction false} PairRoundTrip(v: nat)
    requires v <= 99
    ensures IsDigitTexture(TensTile(v)) && IsDigitTexture(Some(v % 10))
    ensures TensTile(v).None? <==> v < 10
    ensures PairValue(TensTile(v), Some(v % 10)) == v
  {
    assert v == v / 10 * 10 + v % 10;
    assert v / 10 <= 9;
  }

  /** Time tiles for hour and minute in [0, 99]: every tile is a digit
      texture, the hour's tens tile is NULL exactly for single-digit hours,
      and the tiles read back as the hour and the minute. */
  lemma {:induction false} TimeTilesRoundTrip(hour: nat, minute: nat)
    requires hour <= 99 && minute <= 99
    ensures var r := TimeTiles(hour, minute);
      && (forall k :: 0 <= k < 4 ==> IsDigitTexture(r[k]))
      && (r[0].None? <==> hour < 10)
      && r[1].Some? && r[2].Some? && r[3].Some?
      && PairValue(r[0], r[1]) == hour && PairValue(r[2], r[3]) == minute
  {
    PairRoundTrip(hour);
    PairRoundTrip(minute);
    assert minute == minute / 10 * 10 + minute % 10;
  }

  /** Date tiles for day and month in [0, 99]: every tile is a digit texture,
      each tens tile is NULL exactly for single-digit values, and the tiles read
      back as the day and the month. */
  lemma {:induction false} DateTilesRoundTrip(day: nat, month: nat)
    requires day <= 99 && month <= 99
    ensures var r := DateTiles(day, month);
      && (forall k :: 0 <= k < 4 ==> IsDigitTexture(r[k]))
      && (r[0].None? <==> day < 10) && (r[2].None? <==> month < 10)
      && r[1].Some? && r[3].Some?
      && PairValue(r[0], r[1]) == day && PairValue(r[2], r[3]) == month
  {
    PairRoundTrip(day);
    PairRoundTrip(month);
  }

  /** The tiles to draw (curr_tex_draw): a texture index per tile, None for
      NULL. */
  class TexDraw {
    var time: seq<Option<nat>>
    var date: seq<Option<nat>>

    /** curr_tex_draw starts zero-initialised: every tile NULL. */
    constructor ()
      ensures time == [None, None, None, None] && date == [None, None, None, None]
    {
      time := [None, None, None, None];
      date := [None, None, None, None];
    }

    /** clock_build_curr_tex_draw: a NULL time leaves the tiles alone and
        returns -1; otherwise the tiles are set from hour, minute, day and
        month. */
    method Build(t: Option<DateTime>) returns (ret: int)
      modifies this
      ensures t.None? ==> ret == -1 && time == old(time) && date == old(date)
      ensures t.Some? ==> && ret == 0
                          && time == TimeTiles(t.value.hour, t.value.minute)
                          && date == DateTiles(t.value.day, t.value.month)
    {
      if t.None? {
        return -1;
      }
      var dt := t.value;
      var h1, h2 := dt.hour / 10, dt.hour % 10;
      var mi1, mi2 := dt.minute / 10, dt.minute % 10;
      var d1, d2 := dt.day / 10, dt.day % 10;
      var mo1, mo2 := dt.month / 10, dt.month % 10;
      time := [if h1 != 0 then Some(h1) else None, Some(h2), Some(mi1), Some(mi2)];
      date := [if d1 != 0 then Some(d1) else None, Some(d2), if mo1 != 0 then Some(mo1) else None, Some(mo2)];
      ret := 0;
    }
  }
}
