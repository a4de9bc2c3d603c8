/** The battery indicator of src/battery.c: the battery charge in percent is
    bucketed into a status, and the status selects one of the battery
    textures. */
module Battery {
  import opened Tex

  /** bat_status is an unsigned char. */
  type BatStatus = x: int | 0 <= x < 256

  // The bat_status enumeration of src/battery.h.
  const BAT_STATUS_FULL: BatStatus := 0
  const BAT_STATUS_3BARS: BatStatus := 1
  const BAT_STATUS_2BARS: BatStatus := 2
  const BAT_STATUS_1BARS: BatStatus := 3
  const BAT_STATUS_EMPTY: BatStatus := 4

  /** bat_get_status, given what scePowerGetBatteryLifePercent returned
      (a negative value is an error code). */
  function BatGetStatus(perc: int): (s: BatStatus)
    ensures s <= BAT_STATUS_EMPTY
  {
    if perc >= 80 then BAT_STATUS_FULL
    else if perc >= 60 then BAT_STATUS_3BARS
    else if perc >= 30 then BAT_STATUS_2BARS
    else if perc >= 10 then BAT_STATUS_1BARS
    else BAT_STATUS_EMPTY
  }

  /** The lower bounds of the FULL, 3BARS, 2BARS and 1BARS bands. */
  const THRESHOLDS: seq<int> := [80, 60, 30, 10]

  /** How many thresholds lie above `perc`. */
  function CountAbove(ts: seq<int>, perc: int): (n: nat)
    ensures n <= |ts|
  {
    if ts == [] then 0
    else (if perc < ts[0] then 1 else 0) + CountAbove(ts[1..], perc)
  }

  /** Reference definition: the status is the number of thresholds the
      percentage falls short of, so each band [80, inf), [60, 80), [30, 60),
      [10, 30) and (-inf, 10) selects one status. */
  lemma BatGetStatusBands(perc: int)
    ensures BatGetStatus(perc) == CountAbove(THRESHOLDS, perc)
    ensures (perc >= 80 <==> BatGetStatus(perc) == BAT_STATUS_FULL)
    ensures (60 <= perc < 80 <==> BatGetStatus(perc) == BAT_STATUS_3BARS)
    ensures (30 <= perc < 60 <==> BatGetStatus(perc) == BAT_STATUS_2BARS)
    ensures (10 <= perc < 30 <==> BatGetStatus(perc) == BAT_STATUS_1BARS)
    ensures (perc < 10 <==> BatGetStatus(perc) == BAT_STATUS_EMPTY)
  {
    var t1, t2, t3 := THRESHOLDS[1..], THRESHOLDS[1..][1..], THRESHOLDS[1..][1..][1..];
    assert t1 == [60, 30, 10] && t2 == [30, 10] && t3 == [10] && t3[1..] == [];
    assert CountAbove(t3, perc) == (if perc < 10 then 1 else 0);
    assert CountAbove(t2, perc) == (if perc < 30 then 1 else 0) + CountAbove(t3, perc);
    assert CountAbove(t1, perc) == (if perc < 60 then 1 else 0) + CountAbove(t2, perc);
  }

  /** Bars shown by each status: FULL shows four, EMPTY none. */
  function Bars(s: BatStatus): nat {
    if s <= BAT_STATUS_EMPTY then 4 - s else 0
  }

  /** For descending thresholds, a higher percentage never lies below more
      of them. */
  lemma {:induction false} CountAboveMonotone(ts: seq<int>, p: int, q: int)
    requires p <= q
    ensures CountAbove(ts, q) <= CountAbove(ts, p)
  {
    if ts != [] {
      CountAboveMonotone(ts[1..], p, q);
    }
  }

  /** A higher charge never shows fewer bars. */
  lemma BarsMonotone(p: int, q: int)
    requires p <= q
    ensures Bars(BatGetStatus(p)) <= Bars(BatGetStatus(q))
  {
    BatGetStatusBands(p);
    BatGetStatusBands(q);
    CountAboveMonotone(THRESHOLDS, p, q);
  }

  /** get_tex_by_curr_bat_status: the texture (T_* index) drawn for a status;
      a value outside the enumeration falls to the default branch and shows
      the empty battery. */
  function TexForStatus(s: BatStatus): (t: nat)
    ensures T_BAT_FULL <= t <= T_BAT_EMPTY
  {
    if s == BAT_STATUS_FULL then T_BAT_FULL
    else if s == BAT_STATUS_3BARS then T_BAT_3BAR
    else if s == BAT_STATUS_2BARS then T_BAT_2BAR
    else if s == BAT_STATUS_1BARS then T_BAT_1BAR
    else T_BAT_EMPTY
  }

  /** The status a battery texture stands for. */
  function StatusOfTex(t: nat): BatStatus
    requires T_BAT_FULL <= t <= T_BAT_EMPTY
  {
    t - T_BAT_FULL
  }

  /** The five statuses get five different textures: the texture determines
      the status it was chosen for; every other value shows the empty
      battery. */
  lemma TexForStatusInjective(s: BatStatus)
    ensures s <= BAT_STATUS_EMPTY ==> StatusOfTex(TexForStatus(s)) == s
    ensures s > BAT_STATUS_EMPTY ==> TexForStatus(s) == T_BAT_EMPTY
  {
  }

  /** The texture the main loop draws for a battery reading. */
  function BatteryTex(perc: int): (t: nat)
    ensures T_BAT_FULL <= t <= T_BAT_EMPTY
    ensures StatusOfTex(t) == BatGetStatus(perc)
  {
    TexForStatus(BatGetStatus(perc))
  }
}
