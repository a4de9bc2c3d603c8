/** The clock application of src/main.c: start-up, and one pass of the main
    loop (read the real-time clock, rebuild the digit tiles when the minute
    changed, draw the frame, then react to the buttons). */
module Main {
  import opened Utils
  import opened ErrorCodes
  import opened Tex
  import opened Battery
  import opened Music
  import opened Errors

  /** The fourteen entries of clock_colors (RED .. GRAY). */
  const CLOCK_COLORS_SIZE: nat := 14

  /** brightness_modes: the luminance each brightness mode modulates the
      colour with (the alpha is always 255). */
  const BRIGHTNESS_MODES: seq<Byte> := [255, 128, 64]

  /** The version in app_inf. */
  const APP_VERSION := AppVersion(2, 2, 0, VerRelease)

  // ---------------------------------------------------------------------------
  // Controls
  // ---------------------------------------------------------------------------

  /** The buttons whose press sceCtrlReadLatch reports in uiMake. */
  datatype Buttons = Buttons(start: bool, select: bool, cross: bool, left: bool, right: bool)

  /** A call the controls make into the music player; a music_play_random
      carries what the thread calls of its music_play return. */
  datatype MusicCall = PlayRandomCall(back: bool, launch: Launch) | StopCall

  /** What the thread calls return for the music_play_random of CROSS and
      for the one of LEFT or RIGHT, on this pass. */
  datatype Launches = Launches(toggle: Launch, skip: Launch)

  /** What the controls leave behind: the colour and brightness indices,
      app_play_music, player_skipped_song and the music calls, in order. */
  datatype ControlsResult = ControlsResult(color: nat, brightness: nat, playMusic: bool,
                                           skipped: bool, calls: seq<MusicCall>)

  /** The controls section of the main loop as a function of the state
      before it. The music setting flips exactly when CROSS is pressed with
      music available; music_stop is called exactly when that turns a
      playing setting off with a worker running; LEFT with music on is the
      only way to go back a track; a skip is recorded exactly when LEFT or
      RIGHT acts. */
  function ControlEffect(b: Buttons, color: nat, brightness: nat, initialized: bool,
                         playMusic: bool, threadPlaying: bool, skipped: bool, ln: Launches): (e: ControlsResult)
    ensures e.playMusic != playMusic <==> b.cross && initialized
    ensures StopCall in e.calls <==> b.cross && initialized && playMusic && threadPlaying
    ensures PlayRandomCall(true, ln.skip) in e.calls <==> e.playMusic && b.left
    ensures e.skipped <==> skipped || (e.playMusic && (b.left || b.right))
    ensures e.color != color ==> b.start
    ensures e.brightness != brightness ==> b.select
  {
    var c := if b.start then (color + 1) % CLOCK_COLORS_SIZE else color;
    var br := if b.select then (brightness + 1) % |BRIGHTNESS_MODES| else brightness;
    var toggled := b.cross && initialized;
    var on := if toggled then !playMusic else playMusic;
    var toggleCalls :=
      if !toggled then []
      else if on then [PlayRandomCall(false, ln.toggle)]
      else if threadPlaying then [StopCall]
      else [];
    var skipCalls :=
      if !on then []
      else if b.left then [PlayRandomCall(true, ln.skip)]
      else if b.right then [PlayRandomCall(false, ln.skip)]
      else [];
    ControlsResult(c, br, on, skipped || (on && (b.left || b.right)), toggleCalls + skipCalls)
  }

  /** current_song_index after the player carries out `calls` in order on a
      playlist of `size` tracks: music_play_random moves it as CursorStep
      says (and not at all on an empty playlist), music_stop leaves it. */
  function CursorAfter(cursor: nat, size: nat, calls: seq<MusicCall>): nat
    decreases |calls|
  {
    if calls == [] then cursor
    else
      var next := if calls[0].PlayRandomCall? && size > 0 then CursorStep(cursor, size, calls[0].back).next else cursor;
      CursorAfter(next, size, calls[1..])
  }

  /** Carrying out two logs one after the other is carrying out the joined
      log. */
  lemma {:induction false} CursorAfterAppend(cursor: nat, size: nat, a: seq<MusicCall>, b: seq<MusicCall>)
    ensures CursorAfter(cursor, size, a + b) == CursorAfter(CursorAfter(cursor, size, a), size, b)
    decreases |a|
  {
    if a != [] {
      assert (a + b)[0] == a[0] && (a + b)[1..] == a[1..] + b;
      var next := if a[0].PlayRandomCall? && size > 0 then CursorStep(cursor, size, a[0].back).next else cursor;
      CursorAfterAppend(next, size, a[1..], b);
    } else {
      assert a + b == b;
    }
  }

  /** Whether carrying out `calls` from `cursor` reaches a
      music_play_random that finds the cursor at or past the end of the
      playlist, and so reshuffles current_playlist_order. */
  function Reshuffles(cursor: nat, size: nat, calls: seq<MusicCall>): bool
    decreases |calls|
  {
    if calls == [] then false
    else
      var play := calls[0].PlayRandomCall? && size > 0;
      var next := if play then CursorStep(cursor, size, calls[0].back).next else cursor;
      (play && CursorStep(cursor, size, calls[0].back).reshuffle) || Reshuffles(next, size, calls[1..])
  }

  /** A log of one call reshuffles exactly when that call is a
      music_play_random that finds the cursor at the end. */
  lemma ReshufflesOne(cursor: nat, size: nat, call: MusicCall)
    ensures Reshuffles(cursor, size, [call])
            == (call.PlayRandomCall? && size > 0 && CursorStep(cursor, size, call.back).reshuffle)
  {
    assert [call][1..] == [];
  }

  /** A joined log reshuffles exactly when its first part does or its
      second part does from where the first left the cursor. */
  lemma {:induction false} ReshufflesAppend(cursor: nat, size: nat, a: seq<MusicCall>, b: seq<MusicCall>)
    ensures Reshuffles(cursor, size, a + b)
            == (Reshuffles(cursor, size, a) || Reshuffles(CursorAfter(cursor, size, a), size, b))
    decreases |a|
  {
    if a != [] {
      assert (a + b)[0] == a[0] && (a + b)[1..] == a[1..] + b;
      var next := if a[0].PlayRandomCall? && size > 0 then CursorStep(cursor, size, a[0].back).next else cursor;
      ReshufflesAppend(next, size, a[1..], b);
    } else {
      assert a + b == b;
    }
  }

  /** Within a round, forward plays neither reshuffle nor skip a slot: from
      `cursor`, `calls` forward music_play_random calls that stay inside the
      playlist leave the order alone and move the cursor by one each. */
  lemma {:induction false} ForwardRoundKeepsOrder(cursor: nat, size: nat, calls: seq<MusicCall>)
    requires forall k :: 0 <= k < |calls| ==> calls[k].PlayRandomCall? && !calls[k].back
    requires cursor + |calls| <= size
    ensures !Reshuffles(cursor, size, calls)
    ensures CursorAfter(cursor, size, calls) == cursor + |calls|
    decreases |calls|
  {
    if calls != [] {
      ForwardRoundKeepsOrder(cursor + 1, size, calls[1..]);
    }
  }

  /** Once the cursor has reached the end, the next play reshuffles. */
  lemma EndOfRoundReshuffles(cursor: nat, size: nat, calls: seq<MusicCall>)
    requires 0 < size <= cursor && calls != [] && calls[0].PlayRandomCall?
    ensures Reshuffles(cursor, size, calls)
  {
  }

  /** The player went from `before` to `after` by carrying out `calls` on
      a playlist of `size` tracks and nothing else: the cursor moved as the
      log says; the order was kept unless the log reached the end of a
      round, and then it is a permutation again; a music_stop left no worker
      running; an empty log changed nothing; and when the log ends with a
      music_play_random that found a path, no worker is left playing, the
      thread id is the one created and the worker plays that path exactly
      when creating and starting the thread succeeded. */
  predicate Follows(before: PlayerView, after: PlayerView, size: nat, calls: seq<MusicCall>)
  {
    && before.songIndex >= 0
    && after.songIndex == CursorAfter(before.songIndex, size, calls)
    && (!Reshuffles(before.songIndex, size, calls) ==> after.order == before.order)
    && (Reshuffles(before.songIndex, size, calls) ==> IsPermutationPrefix(after.order, size))
    && (StopCall in calls ==> !after.threadPlaying)
    && (calls == [] ==> after == before)
    && (calls != [] && calls[|calls| - 1].PlayRandomCall? && after.lastPicked.Some? ==>
          var launch := calls[|calls| - 1].launch;
          && !after.threadPlaying && after.threadId == launch.created
          && (Launched(launch) ==> after.workerTrack == after.lastPicked))
  }

  /** Carrying out one log and then another is carrying out the joined
      log, as long as the second log is empty whenever the first one stopped
      the worker (the music is off then, so no button plays). */
  lemma {:induction false} FollowsAppend(v0: PlayerView, v1: PlayerView, v2: PlayerView, size: nat,
                                         a: seq<MusicCall>, b: seq<MusicCall>)
    requires Follows(v0, v1, size, a) && Follows(v1, v2, size, b)
    requires StopCall in a ==> b == []
    ensures Follows(v0, v2, size, a + b)
  {
    if b == [] {
      assert a + b == a;
    } else if a == [] {
      assert a + b == b;
    } else {
      CursorAfterAppend(v0.songIndex, size, a, b);
      ReshufflesAppend(v0.songIndex, size, a, b);
      assert (a + b)[|a + b| - 1] == b[|b| - 1];
      assert StopCall !in a;
      assert StopCall in a + b ==> StopCall in b;
    }
  }

  /** RIGHT, RIGHT, then LEFT while music is on (each on its own frame)
      comes back to the track the first RIGHT started: the cursor after the
      LEFT is the one after the first RIGHT. */
  lemma {:induction false} LeftAfterTwoRightsReplays(cursor: nat, size: nat, l1: Launches, l2: Launches, l3: Launches)
    requires cursor + 2 < size
    ensures var right := Buttons(false, false, false, false, true);
      var left := Buttons(false, false, false, true, false);
      var r1 := ControlEffect(right, 0, 0, true, true, true, false, l1).calls;
      var r2 := ControlEffect(right, 0, 0, true, true, true, true, l2).calls;
      var l := ControlEffect(left, 0, 0, true, true, true, true, l3).calls;
      CursorAfter(cursor, size, r1 + r2 + l) == CursorAfter(cursor, size, r1)
  {
    var right := Buttons(false, false, false, false, true);
    var left := Buttons(false, false, false, true, false);
    var a, b, c := PlayRandomCall(false, l1.skip), PlayRandomCall(false, l2.skip), PlayRandomCall(true, l3.skip);
    assert ControlEffect(right, 0, 0, true, true, true, false, l1).calls == [a];
    assert ControlEffect(right, 0, 0, true, true, true, true, l2).calls == [b];
    assert ControlEffect(left, 0, 0, true, true, true, true, l3).calls == [c];
    var c1 := CursorAfter(cursor, size, [a]);
    CursorAfterAppend(cursor, size, [a] + [b], [c]);
    CursorAfterAppend(cursor, size, [a], [b]);
    BackReplaysPrevious(cursor, size);
    assert c1 == CursorStep(cursor, size, false).next;
  }

  const START_ONLY := Buttons(true, false, false, false, false)

  /** Thread results for passes that make no music call. */
  const NO_LAUNCHES := Launches(Launch(-1, -1), Launch(-1, -1))

  /** The colour index after `k` presses of START. */
  function ColorAfter(color: nat, k: nat): nat {
    if k == 0 then color
    else ControlEffect(START_ONLY, ColorAfter(color, k - 1), 0, false, false, false, false, NO_LAUNCHES).color
  }

  /** Adding one after reducing modulo the number of colours is the same as
      reducing after adding one. */
  lemma ColorSucc(a: nat)
    ensures (a % CLOCK_COLORS_SIZE + 1) % CLOCK_COLORS_SIZE == (a + 1) % CLOCK_COLORS_SIZE
  {
  }

  /** START steps through the colours cyclically: `k` presses advance the
      index by `k` modulo the number of colours. */
  lemma {:induction false} ColorCycles(color: nat, k: nat)
    requires color < CLOCK_COLORS_SIZE
    ensures ColorAfter(color, k) == (color + k) % CLOCK_COLORS_SIZE
  {
    if k > 0 {
      ColorCycles(color, k - 1);
      ColorSucc(color + k - 1);
    }
  }

  /** Fourteen presses of START come back to the same colour. */
  lemma ColorsComeBack(color: nat)
    requires color < CLOCK_COLORS_SIZE
    ensures ColorAfter(color, CLOCK_COLORS_SIZE) == color
  {
    ColorCycles(color, CLOCK_COLORS_SIZE);
  }

  const SELECT_ONLY := Buttons(false, true, false, false, false)

  /** The brightness index after `k` presses of SELECT. */
  function BrightnessAfter(brightness: nat, k: nat): nat {
    if k == 0 then brightness
    else ControlEffect(SELECT_ONLY, 0, BrightnessAfter(brightness, k - 1), false, false, false, false, NO_LAUNCHES).brightness
  }

  lemma BrightnessSucc(a: nat)
    ensures (a % |BRIGHTNESS_MODES| + 1) % |BRIGHTNESS_MODES| == (a + 1) % |BRIGHTNESS_MODES|
  {
  }

  /** SELECT steps through the three brightness modes cyclically: `k`
      presses advance the index by `k` modulo 3. */
  lemma {:induction false} BrightnessCycles(brightness: nat, k: nat)
    requires brightness < |BRIGHTNESS_MODES|
    ensures BrightnessAfter(brightness, k) == (brightness + k) % |BRIGHTNESS_MODES|
  {
    if k > 0 {
      BrightnessCycles(brightness, k - 1);
      BrightnessSucc(brightness + k - 1);
    }
  }

  /** Three presses of SELECT come back to the same brightness. */
  lemma BrightnessComesBack(brightness: nat)
    requires brightness < |BRIGHTNESS_MODES|
    ensures BrightnessAfter(brightness, |BRIGHTNESS_MODES|) == brightness
  {
    BrightnessCycles(brightness, |BRIGHTNESS_MODES|);
  }

  /** The indices stay inside clock_colors and brightness_modes. */
  lemma IndicesStayInRange(b: Buttons, color: nat, brightness: nat, initialized: bool,
                           playMusic: bool, threadPlaying: bool, skipped: bool, ln: Launches)
    requires color < CLOCK_COLORS_SIZE && brightness < |BRIGHTNESS_MODES|
    ensures var e := ControlEffect(b, color, brightness, initialized, playMusic, threadPlaying, skipped, ln);
      e.color < CLOCK_COLORS_SIZE && e.brightness < |BRIGHTNESS_MODES|
  {
  }

  /** CROSS only toggles the music when music_init succeeded; without it no
      music call is ever made and the skip flag is untouched, since music
      stays off. */
  lemma WithoutMusicNothingPlays(b: Buttons, color: nat, brightness: nat,
                                 threadPlaying: bool, skipped: bool, ln: Launches)
    ensures var e := ControlEffect(b, color, brightness, false, false, threadPlaying, skipped, ln);
      !e.playMusic && e.calls == [] && e.skipped == skipped
  {
  }

  /** CROSS toggles app_play_music: turning it on starts a random track,
      turning it off stops a playing worker; pressing it on two frames
      restores the setting. */
  lemma CrossToggles(b: Buttons, color: nat, brightness: nat, playMusic: bool,
                     threadPlaying: bool, skipped: bool, ln: Launches)
    requires b.cross
    ensures var e := ControlEffect(b, color, brightness, true, playMusic, threadPlaying, skipped, ln);
      && e.playMusic == !playMusic
      && (e.playMusic ==> |e.calls| >= 1 && e.calls[0] == PlayRandomCall(false, ln.toggle))
      && (!e.playMusic ==> e.calls == (if threadPlaying then [StopCall] else []))
      && ControlEffect(b, color, brightness, true, e.playMusic, threadPlaying, skipped, ln).playMusic == playMusic
  {
  }

  /** LEFT and RIGHT only act while music is on; LEFT wins over RIGHT and
      plays the previous track, RIGHT the next one; either marks the song
      as skipped before the player moves on. */
  lemma SkipButtons(b: Buttons, color: nat, brightness: nat, initialized: bool,
                    playMusic: bool, threadPlaying: bool, skipped: bool, ln: Launches)
    ensures var e := ControlEffect(b, color, brightness, initialized, playMusic, threadPlaying, skipped, ln);
      && (e.skipped != skipped ==> e.playMusic && (b.left || b.right))
      && (e.playMusic && b.left ==> e.calls[|e.calls| - 1] == PlayRandomCall(true, ln.skip) && e.skipped)
      && (e.playMusic && !b.left && b.right ==> e.calls[|e.calls| - 1] == PlayRandomCall(false, ln.skip) && e.skipped)
      && (StopCall in e.calls ==> !e.playMusic && playMusic && threadPlaying)
      && |e.calls| <= 2
  {
  }

  // ---------------------------------------------------------------------------
  // Rebuilding the tiles
  // ---------------------------------------------------------------------------

  /** What the main loop keeps between passes about the digit tiles: old_min,
      curr_time and curr_tex_draw. */
  datatype TileState = TileState(oldMin: int, curr: DateTime, time: seq<Option<nat>>, date: seq<Option<nat>>)

  /** Before the first pass: old_min is -1, curr_time is zeroed and every
      tile is NULL. */
  const INITIAL_TILES := TileState(-1, DateTime(0, 0, 0, 0, 0, 0), [None, None, None, None], [None, None, None, None])

  /** old_min for this pass: the minute of the previous reading once a
      reading with a non-zero year was taken, the older value otherwise. */
  function RebuildKey(oldMin: int, prev: DateTime): int {
    if prev.year != 0 then prev.minute else oldMin
  }

  /** One pass's tile update for the reading `now`: the tiles are rebuilt
      exactly when old_min differs from the new minute. */
  function NextTiles(s: TileState, now: DateTime): (r: TileState)
    ensures r.curr == now
    ensures r.oldMin == (if s.curr.year != 0 then s.curr.minute else s.oldMin)
    ensures r.oldMin != now.minute ==>
              r.time == TimeTiles(now.hour, now.minute) && r.date == DateTiles(now.day, now.month)
    ensures r.oldMin == now.minute ==> r.time == s.time && r.date == s.date
  {
    var key := RebuildKey(s.oldMin, s.curr);
    if key != now.minute then TileState(key, now, TimeTiles(now.hour, now.minute), DateTiles(now.day, now.month))
    else TileState(key, now, s.time, s.date)
  }

  /** The minute tiles of a minute. */
  function MinuteTiles(minute: nat): seq<Option<nat>> {
    [Some(minute / 10), Some(minute % 10)]
  }

  /** The state a pass leaves after a reading with a non-zero year: the
      minute tiles show the minute of curr_time; before any such reading
      old_min is still -1. */
  predicate MinuteShown(s: TileState) {
    && (s.curr.year != 0 ==> |s.time| == 4 && s.time[2..] == MinuteTiles(s.curr.minute))
    && (s.curr.year == 0 ==> s.oldMin == -1)
  }

  /** As long as the clock reports a non-zero year, every pass leaves the
      minute tiles showing the current minute, and the first pass always
      builds the tiles. */
  lemma MinuteTilesStayCurrent(s: TileState, now: DateTime)
    requires MinuteShown(s) && now.year != 0
    ensures MinuteShown(NextTiles(s, now))
    ensures s == INITIAL_TILES ==> NextTiles(s, now).time == TimeTiles(now.hour, now.minute)
  {
    var key := RebuildKey(s.oldMin, s.curr);
    if key == now.minute {
      assert s.curr.year != 0;
    }
  }

  lemma InitialTilesMinuteShown()
    ensures MinuteShown(INITIAL_TILES)
  {
  }

  /** Only the minute is compared: a reading whose hour changed while the
      minute did not (the two readings an hour apart) keeps the previous
      hour's tiles until the minute changes. */
  lemma HourChangeAloneKeepsTiles()
    ensures var s := NextTiles(INITIAL_TILES, DateTime(2025, 1, 1, 10, 5, 0));
      && s.time == TimeTiles(10, 5)
      && NextTiles(s, DateTime(2025, 1, 1, 11, 5, 0)).time == TimeTiles(10, 5)
      && TimeTiles(10, 5) != TimeTiles(11, 5)
  {
    assert TimeTiles(10, 5)[1] == Some(0) && TimeTiles(11, 5)[1] == Some(1);
  }

  // ---------------------------------------------------------------------------
  // Drawing
  // ---------------------------------------------------------------------------

  /** A tex_draw of a tile: its horizontal position and its texture. */
  datatype Sprite = Sprite(x: int, tex: nat)

  /** The position of slot `k` in a row starting at `x0`, `dx` apart. */
  function SlotX(x0: int, dx: int, k: nat): int {
    x0 + dx * k
  }

  lemma SlotXStep(x0: int, dx: int, k: nat)
    ensures SlotX(x0, dx, k + 1) == SlotX(x0, dx, k) + dx
  {
    assert dx * (k + 1) == dx * k + dx;
  }

  /** The sprites drawn for a row of tiles starting at `x0`, `dx` apart; a
      NULL tile is skipped but still takes up its place. */
  function TileSprites(tiles: seq<Option<nat>>, x0: int, dx: int): seq<Sprite>
    decreases |tiles|
  {
    if tiles == [] then []
    else
      var last := |tiles| - 1;
      TileSprites(tiles[..last], x0, dx) + (if tiles[last].Some? then [Sprite(SlotX(x0, dx, last), tiles[last].value)] else [])
  }

  /** A sprite is drawn at slot k's position exactly when tile k is not
      NULL, and with that tile's texture. */
  lemma {:induction false} TileSpritesDrawn(tiles: seq<Option<nat>>, x0: int, dx: int)
    ensures forall k :: 0 <= k < |tiles| && tiles[k].Some? ==>
              Sprite(SlotX(x0, dx, k), tiles[k].value) in TileSprites(tiles, x0, dx)
    ensures forall s :: s in TileSprites(tiles, x0, dx) ==>
              exists k :: 0 <= k < |tiles| && s.x == SlotX(x0, dx, k) && tiles[k] == Some(s.tex)
    decreases |tiles|
  {
    if tiles != [] {
      var last := |tiles| - 1;
      var init := tiles[..last];
      TileSpritesDrawn(init, x0, dx);
      var prefix := TileSprites(init, x0, dx);
      var r := TileSprites(tiles, x0, dx);
      assert r == prefix + (if tiles[last].Some? then [Sprite(SlotX(x0, dx, last), tiles[last].value)] else []);
      forall k | 0 <= k < |tiles| && tiles[k].Some?
        ensures Sprite(SlotX(x0, dx, k), tiles[k].value) in r
      {
        if k < last {
          assert init[k] == tiles[k];
        }
      }
      forall s | s in r
        ensures exists k :: 0 <= k < |tiles| && s.x == SlotX(x0, dx, k) && tiles[k] == Some(s.tex)
      {
        if s in prefix {
          var k :| 0 <= k < |init| && s.x == SlotX(x0, dx, k) && init[k] == Some(s.tex);
          assert tiles[k] == init[k];
        } else {
          assert s.x == SlotX(x0, dx, last) && tiles[last] == Some(s.tex);
        }
      }
    }
  }

  /** For a positive step the sprites go strictly left to right, all before
      the end of the row. */
  lemma {:induction false} TileSpritesOrdered(tiles: seq<Option<nat>>, x0: int, dx: int)
    requires dx > 0
    ensures forall s :: s in TileSprites(tiles, x0, dx) ==> s.x < SlotX(x0, dx, |tiles|)
    ensures forall i, j :: 0 <= i < j < |TileSprites(tiles, x0, dx)| ==>
              TileSprites(tiles, x0, dx)[i].x < TileSprites(tiles, x0, dx)[j].x
    decreases |tiles|
  {
    if tiles != [] {
      var last := |tiles| - 1;
      var init := tiles[..last];
      TileSpritesOrdered(init, x0, dx);
      var prefix := TileSprites(init, x0, dx);
      var r := TileSprites(tiles, x0, dx);
      assert r == prefix + (if tiles[last].Some? then [Sprite(SlotX(x0, dx, last), tiles[last].value)] else []);
      SlotXStep(x0, dx, last);
      forall s | s in r
        ensures s.x < SlotX(x0, dx, |tiles|)
      {
      }
      forall i, j | 0 <= i < j < |r|
        ensures r[i].x < r[j].x
      {
        assert r[i] == prefix[i] && r[i] in prefix;
        if j < |prefix| {
          assert r[j] == prefix[j];
        }
      }
    }
  }

  /** One of the two tile-drawing loops of the main loop: walks the four
      tiles, draws the non-NULL ones and moves the position by `dx` after
      every tile. */
  method DrawTiles(tiles: seq<Option<nat>>, x0: int, dx: int) returns (sprites: seq<Sprite>)
    ensures sprites == TileSprites(tiles, x0, dx)
  {
    sprites := [];
    var x := x0;
    var tile := 0;
    while tile < |tiles|
      invariant 0 <= tile <= |tiles|
      invariant x == SlotX(x0, dx, tile)
      invariant sprites == TileSprites(tiles[..tile], x0, dx)
    {
      assert tiles[..tile + 1][..tile] == tiles[..tile];
      SlotXStep(x0, dx, tile);
      if tiles[tile].Some? {
        sprites := sprites + [Sprite(x, tiles[tile].value)];
      }
      x := x + dx;
      tile := tile + 1;
    }
    assert tiles[..|tiles|] == tiles;
  }

  // The x positions of the sprites (whole numbers in the source's floats).
  const TIME_X: int := 60
  const TIME_DX: int := 120
  const DATE_X: int := 360
  const DATE_DX: int := 30

  /** What one pass draws: the time and date sprites, whether the blinking
      colon and the music icon are drawn, the battery texture, and the
      colour index and luminance everything is modulated with. The date dot is
      always drawn. */
  datatype FrameDraw = FrameDraw(time: seq<Sprite>, colon: bool, date: seq<Sprite>, battery: nat,
                                 musicIcon: bool, color: nat, luminance: Byte)

  /** The end of a pass: the frame drawn and the music calls made by the
      controls, or the error screen shown when the real-time clock failed. */
  datatype PassOutcome = Drawn(frame: FrameDraw, calls: seq<MusicCall>) | Failed(shown: AppError)

  /** The frame a pass draws, from the tiles, the second of the second
      clock reading, the battery reading and the settings before the
      controls run. */
  function FrameOf(time: seq<Option<nat>>, date: seq<Option<nat>>, second: nat, batteryPercent: int,
                   playMusic: bool, color: nat, brightness: nat): (f: FrameDraw)
    requires brightness < |BRIGHTNESS_MODES|
    ensures f.colon <==> second % 2 == 0
    ensures f.musicIcon == playMusic && f.color == color
    ensures f.luminance == 255 || f.luminance == 128 || f.luminance == 64
    ensures T_BAT_FULL <= f.battery <= T_BAT_EMPTY
  {
    FrameDraw(TileSprites(time, TIME_X, TIME_DX), second % 2 == 0, TileSprites(date, DATE_X, DATE_DX),
              BatteryTex(batteryPercent), playMusic, color, BRIGHTNESS_MODES[brightness])
  }

  /** The colon blinks: it is drawn on even seconds only, so of two
      consecutive seconds exactly one draws it. */
  lemma ColonBlinks(time: seq<Option<nat>>, date: seq<Option<nat>>, second: nat, batteryPercent: int,
                    playMusic: bool, color: nat, brightness: nat)
    requires brightness < |BRIGHTNESS_MODES|
    ensures FrameOf(time, date, second, batteryPercent, playMusic, color, brightness).colon
            != FrameOf(time, date, second + 1, batteryPercent, playMusic, color, brightness).colon
  {
  }

  /** The battery sprite and the music icon reflect the readings: a fuller
      battery never shows fewer bars, and the icon is shown exactly while
      music is on. */
  lemma FrameIndicators(time: seq<Option<nat>>, date: seq<Option<nat>>, second: nat, p: int, q: int,
                        playMusic: bool, color: nat, brightness: nat)
    requires brightness < |BRIGHTNESS_MODES| && p <= q
    ensures var f := FrameOf(time, date, second, p, playMusic, color, brightness);
      var g := FrameOf(time, date, second, q, playMusic, color, brightness);
      && f.musicIcon == playMusic
      && T_BAT_FULL <= f.battery <= T_BAT_EMPTY
      && Bars(StatusOfTex(f.battery)) <= Bars(StatusOfTex(g.battery))
  {
    BarsMonotone(p, q);
  }

  // ---------------------------------------------------------------------------
  // The application
  // ---------------------------------------------------------------------------

  /** The main loop's variables, with the texture table, the music player
      and curr_tex_draw it works on. */
  class Clock {
    var colorIndex: nat
    var brightnessIndex: nat
    var oldMin: int
    var currTime: DateTime
    var running: bool
    const musicInitialized: bool
    const music: MusicPlayer
    const textures: ClockTextures
    const draw: TexDraw

    ghost predicate Valid()
      reads this, music, music.playlist, music.playlist.filePath, music.order, textures
    {
      && colorIndex < CLOCK_COLORS_SIZE
      && brightnessIndex < |BRIGHTNESS_MODES|
      && music.Valid()
      && textures.Valid()
    }

    /** Once music_init succeeded, current_playlist_order's slots in use
        are a permutation of the playlist: music_init shuffles it, and every
        music_play_random either keeps it or reshuffles. */
    ghost predicate OrderShuffled()
      reads this, music, music.playlist, music.playlist.filePath, music.order, textures
      requires Valid()
    {
      musicInitialized ==> music.Shuffled()
    }

    /** The loop variables' initial values: first colour, full brightness,
        old_min -1, a zeroed curr_time and NULL tiles. */
    constructor (music: MusicPlayer, textures: ClockTextures, musicInitialized: bool)
      requires music.Valid() && textures.Valid()
      requires musicInitialized ==> music.Shuffled()
      ensures Valid() && OrderShuffled() && fresh(draw)
      ensures this.music == music && this.textures == textures && this.musicInitialized == musicInitialized
      ensures colorIndex == 0 && brightnessIndex == 0 && running
      ensures TileState(oldMin, currTime, draw.time, draw.date) == INITIAL_TILES
    {
      colorIndex := 0;
      brightnessIndex := 0;
      oldMin := -1;
      currTime := DateTime(0, 0, 0, 0, 0, 0);
      running := true;
      this.musicInitialized := musicInitialized;
      this.music := music;
      this.textures := textures;
      draw := new TexDraw();
    }

    /** CROSS: toggles app_play_music when music_init succeeded; turning it
        on plays a random track, turning it off stops a playing worker. */
    method ToggleMusic(cross: bool, launch: Launch) returns (calls: seq<MusicCall>)
      requires Valid()
      modifies music, music.order
      ensures Valid()
      ensures var toggled := cross && musicInitialized;
        && music.playMusic == (if toggled then !old(music.playMusic) else old(music.playMusic))
        && calls == (if !toggled then []
                     else if music.playMusic then [PlayRandomCall(false, launch)]
                     else if old(music.threadPlaying) then [StopCall]
                     else [])
      ensures music.skippedSong == old(music.skippedSong)
      ensures Follows(old(music.View()), music.View(), music.playlist.size, calls)
    {
      calls := [];
      if cross && musicInitialized {
        music.playMusic := !music.playMusic;
        if music.playMusic {
          var _ := music.PlayRandom(false, launch);
          calls := [PlayRandomCall(false, launch)];
          ReshufflesOne(old(music.songIndex), music.playlist.size, calls[0]);
        } else if music.threadPlaying {
          var _ := music.Stop();
          calls := [StopCall];
        }
      }
    }

    /** LEFT or RIGHT while music is on: marks the song as skipped and plays
        the previous (LEFT) or the next (RIGHT) track. */
    method SkipTrack(left: bool, right: bool, launch: Launch) returns (calls: seq<MusicCall>)
      requires Valid()
      modifies music, music.order
      ensures Valid()
      ensures music.playMusic == old(music.playMusic)
      ensures music.skippedSong == (old(music.skippedSong) || (music.playMusic && (left || right)))
      ensures calls == (if !music.playMusic then []
                        else if left then [PlayRandomCall(true, launch)]
                        else if right then [PlayRandomCall(false, launch)]
                        else [])
      ensures Follows(old(music.View()), music.View(), music.playlist.size, calls)
    {
      calls := [];
      if music.playMusic {
        if left {
          music.skippedSong := true;
          var _ := music.PlayRandom(true, launch);
          calls := [PlayRandomCall(true, launch)];
          ReshufflesOne(old(music.songIndex), music.playlist.size, calls[0]);
        } else if right {
          music.skippedSong := true;
          var _ := music.PlayRandom(false, launch);
          calls := [PlayRandomCall(false, launch)];
          ReshufflesOne(old(music.songIndex), music.playlist.size, calls[0]);
        }
      }
    }

    /** The controls section of the main loop. */
    method Controls(b: Buttons, ln: Launches) returns (calls: seq<MusicCall>)
      requires Valid()
      modifies this, music, music.order
      ensures Valid()
      ensures var e := ControlEffect(b, old(colorIndex), old(brightnessIndex), musicInitialized,
                                     old(music.playMusic), old(music.threadPlaying), old(music.skippedSong), ln);
        && colorIndex == e.color && brightnessIndex == e.brightness
        && music.playMusic == e.playMusic && music.skippedSong == e.skipped && calls == e.calls
      ensures Follows(old(music.View()), music.View(), music.playlist.size, calls)
      ensures oldMin == old(oldMin) && currTime == old(currTime) && running == old(running)
    {
      if b.start {
        colorIndex := (colorIndex + 1) % CLOCK_COLORS_SIZE;
      }
      if b.select {
        brightnessIndex := (brightnessIndex + 1) % |BRIGHTNESS_MODES|;
      }
      calls := MusicControls(b, ln);
    }

    /** CROSS, then LEFT or RIGHT: the music part of the controls. */
    method MusicControls(b: Buttons, ln: Launches) returns (calls: seq<MusicCall>)
      requires Valid()
      modifies music, music.order
      ensures Valid()
      ensures var e := ControlEffect(b, colorIndex, brightnessIndex, musicInitialized,
                                     old(music.playMusic), old(music.threadPlaying), old(music.skippedSong), ln);
        music.playMusic == e.playMusic && music.skippedSong == e.skipped && calls == e.calls
      ensures Follows(old(music.View()), music.View(), music.playlist.size, calls)
    {
      var toggleCalls := ToggleMusic(b.cross, ln.toggle);
      ghost var mid := music.View();
      var skipCalls := SkipTrack(b.left, b.right, ln.skip);
      calls := toggleCalls + skipCalls;
      FollowsAppend(old(music.View()), mid, music.View(), music.playlist.size, toggleCalls, skipCalls);
    }

    /** One pass of the main loop. `rtc` is what the first
        sceRtcGetCurrentClockLocalTime reports (None when it fails),
        `second` the second of the second reading, `batteryPercent` what
        scePowerGetBatteryLifePercent returns and `b` the latched buttons.
        A failed clock reading stops the loop and shows
        ERROR_GETTING_TIME_RTC's entry. */
    method Step(rtc: Option<DateTime>, second: nat, batteryPercent: int, b: Buttons, ln: Launches)
      returns (out: PassOutcome)
      requires Valid() && running && OrderShuffled()
      modifies this, draw, music, music.order, music.playlist, music.playlist.filePath, textures.tex
      ensures Valid() && OrderShuffled()
      ensures rtc.None? ==>
                && !running && out == Failed(APP_ERRORS[-ERROR_GETTING_TIME_RTC])
                && (forall k :: 0 <= k < T_COUNT ==> textures.tex[k] == None)
                && !music.playMusic && music.playlist.Tracks() == []
      ensures rtc.Some? ==>
                && running
                && TileState(oldMin, currTime, draw.time, draw.date)
                   == NextTiles(TileState(old(oldMin), old(currTime), old(draw.time), old(draw.date)), rtc.value)
                && out.Drawn?
                && out.frame == FrameOf(draw.time, draw.date, second, batteryPercent, old(music.playMusic),
                                        old(colorIndex), old(brightnessIndex))
                && (var e := ControlEffect(b, old(colorIndex), old(brightnessIndex), musicInitialized,
                                           old(music.playMusic), old(music.threadPlaying), old(music.skippedSong), ln);
                    colorIndex == e.color && brightnessIndex == e.brightness
                    && music.playMusic == e.playMusic && music.skippedSong == e.skipped && out.calls == e.calls)
                && music.playlist.Tracks() == old(music.playlist.Tracks())
                && textures.tex[..] == old(textures.tex[..])
                && Follows(old(music.View()), music.View(), music.playlist.size, out.calls)
    {
      if rtc.None? {
        if currTime.year != 0 {
          oldMin := currTime.minute;
        }
        running := false;
        var shown := AppErrorDisplay(ERROR_GETTING_TIME_RTC, textures, music);
        return Failed(shown);
      }
      var frame, calls := Frame(rtc.value, second, batteryPercent, b, ln);
      out := Drawn(frame, calls);
    }

    /** A pass whose clock reading `now` succeeded: old_min takes the
        previous reading's minute (once a reading has been taken), the
        tiles follow the reading, the frame is drawn and the controls
        apply. */
    method Frame(now: DateTime, second: nat, batteryPercent: int, b: Buttons, ln: Launches)
      returns (frame: FrameDraw, calls: seq<MusicCall>)
      requires Valid()
      modifies this, draw, music, music.order
      ensures Valid() && running == old(running)
      ensures TileState(oldMin, currTime, draw.time, draw.date)
              == NextTiles(TileState(old(oldMin), old(currTime), old(draw.time), old(draw.date)), now)
      ensures frame == FrameOf(draw.time, draw.date, second, batteryPercent, old(music.playMusic),
                               old(colorIndex), old(brightnessIndex))
      ensures var e := ControlEffect(b, old(colorIndex), old(brightnessIndex), musicInitialized,
                                     old(music.playMusic), old(music.threadPlaying), old(music.skippedSong), ln);
        && colorIndex == e.color && brightnessIndex == e.brightness
        && music.playMusic == e.playMusic && music.skippedSong == e.skipped && calls == e.calls
      ensures Follows(old(music.View()), music.View(), music.playlist.size, calls)
    {
      if currTime.year != 0 {
        oldMin := currTime.minute;
      }
      UpdateTiles(now);
      frame := Render(second, batteryPercent);
      calls := Controls(b, ln);
    }

    /** The reading is taken into curr_time, and when old_min (already
        updated for this pass) differs from its minute curr_tex_draw is
        rebuilt, twice as in the source. */
    method UpdateTiles(now: DateTime)
      modifies this, draw
      ensures currTime == now && oldMin == old(oldMin)
      ensures oldMin != now.minute ==>
                draw.time == TimeTiles(now.hour, now.minute) && draw.date == DateTiles(now.day, now.month)
      ensures oldMin == now.minute ==> draw.time == old(draw.time) && draw.date == old(draw.date)
      ensures colorIndex == old(colorIndex) && brightnessIndex == old(brightnessIndex) && running == old(running)
    {
      currTime := now;
      if oldMin != currTime.minute {
        var _ := draw.Build(Some(currTime));
        var _ := draw.Build(Some(currTime));
      }
    }

    /** The graphics section: the non-NULL time and date tiles, the colon on
        even seconds, the battery and, while music is on, the music icon, all
        in the current colour and brightness. */
    method Render(second: nat, batteryPercent: int) returns (frame: FrameDraw)
      requires Valid()
      ensures frame == FrameOf(draw.time, draw.date, second, batteryPercent, music.playMusic,
                               colorIndex, brightnessIndex)
    {
      var timeSprites := DrawTiles(draw.time, TIME_X, TIME_DX);
      var colon := second % 2 == 0;
      var dateSprites := DrawTiles(draw.date, DATE_X, DATE_DX);
      var battery := BatteryTex(batteryPercent);
      frame := FrameDraw(timeSprites, colon, dateSprites, battery, music.playMusic,
                         colorIndex, BRIGHTNESS_MODES[brightnessIndex]);
    }

    /** The end of main once the loop stops: frees the textures and ends the
        music. */
    method Shutdown()
      requires Valid()
      modifies textures.tex, music, music.playlist, music.playlist.filePath
      ensures Valid()
      ensures forall k :: 0 <= k < T_COUNT ==> textures.tex[k] == None
      ensures !music.playMusic && music.playlist.Tracks() == []
    {
      textures.Free();
      var _ := music.End();
    }
  }

  /** main's start-up: a failing setup_callbacks shows
      ERROR_SETUP_CALLBACKS; a failing clock_tex_alloc shows the code of the
      texture that failed; otherwise music_init runs and the loop starts
      with music available exactly when music_init returned 0. The error
      screen never returns, so no clock is made on those paths. */
  method StartUp(callbacks: int, textures: ClockTextures, files: set<string>, loads: seq<Option<TexHandle>>,
                 music: MusicPlayer, dirExists: bool, dirFd: int, entries: seq<string>, mallocOk: seq<bool>,
                 avcodecLoad: int, mp3Load: int) returns (clock: Clock?, shown: Option<AppError>)
    requires textures.Valid() && music.Valid() && |loads| == T_COUNT && |mallocOk| == |entries|
    modifies textures.tex, music, music.playlist, music.playlist.filePath, music.order
    ensures callbacks < 0 ==> clock == null && shown == Some(APP_ERRORS[-ERROR_SETUP_CALLBACKS])
    ensures callbacks >= 0 ==>
              var codes := AllocCodes(textures.filenames, files, loads);
              var k := FirstFailure(codes);
              && (k < T_COUNT ==> clock == null && shown == Some(APP_ERRORS[ErrorIndex(codes[k])]))
              && (k == T_COUNT ==> clock != null && shown.None?)
    ensures clock != null ==>
              && fresh(clock) && clock.Valid() && clock.OrderShuffled() && clock.running
              && clock.music == music && clock.textures == textures
              && clock.colorIndex == 0 && clock.brightnessIndex == 0
              && TileState(clock.oldMin, clock.currTime, clock.draw.time, clock.draw.date) == INITIAL_TILES
              && (clock.musicInitialized <==>
                    dirExists && dirFd >= 0 && music.playlist.size > 0 && InitModules(avcodecLoad, mp3Load) == 0)
    ensures music.Valid()
    ensures shown.Some? ==> !music.playMusic && music.playlist.Tracks() == []
  {
    if callbacks < 0 {
      var e := AppErrorDisplay(ERROR_SETUP_CALLBACKS, textures, music);
      return null, Some(e);
    }
    var ret, code := textures.Alloc(files, loads);
    if ret < 0 {
      var e := AppErrorDisplay(code.value, textures, music);
      return null, Some(e);
    }
    var r := music.Init(dirExists, dirFd, entries, mallocOk, avcodecLoad, mp3Load);
    clock := new Clock(music, textures, r == 0);
    shown := None;
  }
}
