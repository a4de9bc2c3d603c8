# Digital Clock for the PSP, modelled in Dafny

Digital Clock is a homebrew PlayStation Portable application. Each frame, it
reads the real-time clock and draws:

- the time, as four large digit tiles;
- a colon that blinks every second;
- the date, as four small tiles;
- a battery indicator;
- a music note while background music is on.

The buttons do the following:

- START cycles through 14 clock colours;
- SELECT cycles through three brightness levels;
- CROSS toggles background music;
- LEFT and RIGHT skip to the previous or next track.

The music comes from the `.mp3` files in `ms0:/MUSIC/`. The playlist is
shuffled with a Fisher-Yates pass, and each track is decoded by a worker thread
that streams the file through the MP3 decoder into an audio channel. When any
set-up step fails, the application shows an error screen with a code and a
name from a fixed table.

The project models the application's own code, one Dafny module per C file:

- `Utils` (utils.c): the version string, the suffix test and the bounded random
  draw;
- `Tex` (tex.c): the texture table, the texture paths and the digit tiles
  chosen for a time;
- `Battery` (battery.c): the charge bands and the battery icons;
- `Music` (music.c): the playlist, the shuffle, the play order, the stream
  refill, the decode loop and the worker's acquire and release discipline;
- `ErrorCodes` and `Errors` (error.c): the error table and the error screen's
  clean-up;
- `Main` (main.c): the start-up sequence, the per-frame tile update, the
  drawing and the controls.

Code that changes state is modelled imperatively:

- The texture table, the playlist, the play order and the main loop's
  variables are classes. Their methods modify fields and arrays.
- The loops of the source (texture allocation, the playlist clear, the order
  fill and the shuffle, the decode loop, the tile drawing) are `while` loops
  with invariants.
- Methods state their result and their new state outright, or through a
  specification function. The worker's resource trace is built from the
  arguments it passes to music_mp3_thread_end. The music calls the controls
  make are logged. The player's cursor, its play order and its worker state
  are stated as the effect of that log: the order is kept within a round
  and is a permutation again after a reshuffle.
- Lemmas give the functions their meaning: round trips, preserved
  invariants, reference definitions and concrete scenarios.

Calls into the PSP system libraries are parameters: "oracles" that say what
each call returned. These libraries are the real-time clock, the power,
graphics, MP3, audio and file-system services, and `rand()`.

## Model

| member | source | states |
|---|---|---|
| Utils.StrEndsWith | src/utils.c:70-73 | As written, str_endswith is a case-insensitive comparison of the last strlen(suffix) characters of str with the suffix. It is defined only when str is at least as long as the suffix. |
| Utils.DotEntriesReadBeforeName | src/music.c:88-95 | The directory entries "." and ".." are shorter than ".mp3", so the pointer that str_endswith compares lies 3 or 2 characters before the name. |
| Utils.EndsWith | src/utils.c:70-73 | The corrected suffix test. It holds only when str is at least as long as the suffix, and there it agrees with the as-written test. |
| Utils.EndsWithIffSplit | src/utils.c:70-73 | The test holds if and only if str splits into a prefix and a part equal to the suffix ignoring ASCII case. |
| Utils.UpperCaseNameMatches | src/music.c:91 | "SONG.MP3" passes the ".mp3" test (the comparison ignores case) and "SONG.WAV" does not. |
| Utils.RandRangeUint | src/utils.c:75-77 | For any value rand() returns, the unsigned result lies in [min, max] whenever min <= max. |
| Utils.RandRangeSingleton | src/utils.c:75-77 | A one-value range always yields that value. |
| Utils.DecimalRoundTrip | src/utils.c:67 | The %i rendering of a natural number reads back as that number. |
| Utils.GetAppVString | src/utils.c:63-68 | A null app_info leaves nothing written. Otherwise the string is shorter than the 32-byte v_string buffer. |
| Utils.VersionNeverTruncated | src/utils.c:63-68 | Three byte-sized numbers and a type letter take at most 12 characters, so snprintf never truncates the version string. |
| Utils.ReleaseVersionString | src/main.c:40-44 | The application's version 2.2.0 release is rendered as "2.2.0r". |
| Utils.VersionRoundTrip | src/utils.c:63-68 | Parsing the version string gives back major, minor, patch and release type. |
| Tex.GetTexFullPath | src/tex.c:61-71 | The call fails with ERROR_UNKNOWN exactly for a null texture, an empty name, a null buffer or a zero size. Otherwise the buffer holds the longest prefix of "assets/textures/NAME.png" that fits before the terminator. |
| Tex.FullPathRoundTrip | src/tex.c:61-71 | With a large enough buffer the full path is written, and stripping the directory and the extension gives back the texture name. |
| Tex.AppTexAllocPriority | src/tex.c:73-100 | The checks decide in a fixed order: an invalid texture gives ERROR_UNKNOWN, then a missing file gives ERROR_TEXTURES_NOT_FOUND, then a failed load gives ERROR_ALLOCATING_TEXTURES. Only a loaded texture gives 0. Each is stated as an if-and-only-if. |
| Tex.AppTexAllocCode | src/tex.c:73-100 | app_tex_alloc returns 0 or one of ERROR_UNKNOWN, ERROR_TEXTURES_NOT_FOUND and ERROR_ALLOCATING_TEXTURES, and 0 only when the file exists and the load gave a texture. |
| Tex.FirstFailureIs | src/tex.c:116-124 | The first failing index is the unique k with all earlier codes non-negative and code k negative. |
| Tex.ClockTextures.constructor | src/tex.c:30-55 | The table holds the 20 texture names in T_* order, and no texture is loaded yet. |
| Tex.ClockTextures.Alloc | src/tex.c:114-128 | Textures are allocated in order up to the first failure. The result is 0 if all 20 load, and otherwise -1 with the failing code passed to the error screen. Exactly the entries that reached g2dTexLoad change. |
| Tex.ClockTextures.Free | src/tex.c:102-139 | Afterwards no texture of the table is held. |
| Tex.PairRoundTrip | src/tex.c:149-153 | A value below 100 splits into a tens tile, suppressed exactly when the value is below 10, and a ones tile. Both are digit textures and together they read back as the value. |
| Tex.TimeTiles | src/tex.c:149-165 | Four tiles, of which only the hour-tens tile can be NULL, exactly for hours below 10. |
| Tex.DateTiles | src/tex.c:155-170 | Four tiles, of which the day-tens tile is NULL exactly for days below 10 and the month-tens tile exactly for months below 10. |
| Tex.TimeTilesRoundTrip | src/tex.c:149-165 | The four time tiles are digit textures. The hour-tens tile is suppressed exactly for hours below 10, and the tiles read back as hour and minute. |
| Tex.DateTilesRoundTrip | src/tex.c:155-170 | The four date tiles are digit textures. Day tens and month tens are suppressed exactly below 10, and the tiles read back as day and month. |
| Tex.TexDraw.constructor | src/tex.c:57 | curr_tex_draw starts with every tile NULL. |
| Tex.TexDraw.Build | src/tex.c:141-173 | A null time returns -1 and changes nothing. Otherwise the result is 0, and the time and date tiles are those of the reading. |
| Battery.BatGetStatus | src/battery.c:25-42 | The status is always one of the five enumerated values. |
| Battery.BatGetStatusBands | src/battery.c:25-42 | The status equals the number of thresholds 80, 60, 30 and 10 that the charge falls short of. Each band selects its status, stated as an if-and-only-if. |
| Battery.BarsMonotone | src/battery.c:25-42 | A higher charge never shows fewer bars. |
| Battery.TexForStatus | src/battery.c:44-68 | The selected texture is always one of the five battery icons. |
| Battery.TexForStatusInjective | src/battery.c:44-68 | The five statuses get five different icons. Any other value falls to the empty-battery icon. |
| Battery.BatteryTex | src/battery.c:44-68 | The icon drawn for a charge reading stands for that reading's status. |
| Music.Playlist.constructor | src/music.c:64 | The global playlist starts empty, with every slot NULL. |
| Music.Playlist.Append | src/music.c:36-49 | A path is appended exactly when fewer than MUSIC_PLAYLIST_SIZE - 1 tracks are stored, the path is non-empty and malloc succeeds. Otherwise nothing changes. |
| Music.AppendTrack | src/music.c:36-49 | The track list grows by exactly the appended path when fewer than MUSIC_PLAYLIST_SIZE - 1 tracks are stored, the path is non-empty and malloc succeeds. Otherwise it is unchanged. Earlier tracks are never touched. |
| Music.ScanEntries | src/music.c:87-95 | The directory loop keeps the earlier tracks as a prefix and adds at most one track per entry. |
| Music.Playlist.Clear | src/music.c:51-62 | Every slot is NULL and the size is 0. |
| Music.ScanAddsOnlyMp3 | src/music.c:81-96 | The directory scan keeps the earlier tracks in front. Every track it adds is a directory entry ending in ".mp3", and the playlist never exceeds its capacity. |
| Music.ScanAddsEveryMp3 | src/music.c:81-96 | When every malloc succeeds and the capacity suffices, the scan adds exactly the ".mp3" entries, in directory order. |
| Music.InitModules | src/music.c:66-71 | The result is 0 exactly when both the AVCODEC and the MP3 modules load, and -1 otherwise. |
| Music.MusicPlayer.Init | src/music.c:81-104 | A missing or unopenable folder gives -1 and keeps the playlist. Otherwise the playlist is the scan of the folder. The result is 0 exactly when tracks were found and the modules loaded, and then the order is a fresh shuffle. |
| Music.PermutationFacts | src/music.c:292-310 | An order that is a permutation of 0..size-1 has size entries, all in range and pairwise distinct, and it names every track. |
| Music.MusicPlayer.FillOrder | src/music.c:294-298 | The first size order slots hold 0, 1, …, size-1, and the rest are unchanged. |
| Music.MusicPlayer.SwapOrder | src/music.c:305-308 | Slots i and j are exchanged, which keeps the multiset of the used slots. |
| Music.MusicPlayer.Shuffle | src/music.c:292-310 | For any values rand() returns, the used part of the order is a permutation of 0..size-1. Slots past size are untouched. |
| Music.CursorStep | src/music.c:312-335 | A cursor past the end reshuffles and restarts at slot 0. Forward plays the cursor's slot. "Back" plays the slot two before the cursor, or slot 0 when the cursor is below 2. The slot played is in range, and the cursor then moves just past it. |
| Music.ForwardVisitsAll | src/music.c:312-335 | Without "back", consecutive plays visit slots 0, 1, …, size-1 in order and then reshuffle. |
| Music.BackReplaysPrevious | src/music.c:324-329 | After two forward plays, "back" replays the first one. "Back" at the end of a round restarts the new round at slot 0. |
| Music.MusicPlayer.MoveCursor | src/music.c:317-329 | The cursor step of play_random. It reshuffles exactly when the cursor ran past the end, and otherwise leaves the order unchanged. |
| Music.MusicPlayer.ShuffledSlotInRange | src/music.c:331 | After a shuffle every slot in use names an existing track, so the file_path lookup is in bounds. |
| Music.MusicPlayer.PlayRandom | src/music.c:312-335 | With an empty playlist nothing happens. Otherwise the cursor step chooses the order slot, the cursor moves past it, and the path there is handed to music_play: when it is not NULL no worker is left playing and the thread id is the created one, and the worker plays that path exactly when creating and starting the thread succeeded. A NULL path changes no worker state. |
| Music.MusicPlayer.Play | src/music.c:269-287 | The result is 0 exactly when the path is not NULL, the playlist is not empty, and both the thread creation and its start succeed; it is -1 otherwise. Past the guard, a playing worker is stopped and the thread id is the created one. The worker plays the path exactly when the result is 0. |
| Music.MusicPlayer.Stop | src/music.c:337-343 | The worker is told to stop (music_thread_playing is false), and nothing else changes. |
| Music.FillStreamBuf | src/music.c:113-136 | The result is -1 exactly when an info, seek, read or notify call fails, and 1 exactly when data was added at a position past 0. The result is 0 at end of file or at position 0. The decoder is notified exactly when bytes were read. |
| Music.FillZeroIsAmbiguous | src/music.c:130-135 | A successful refill at position 0 and end of file both return 0, so callers cannot tell them apart. |
| Music.EndMarkerIsNegative | src/music.c:249-252 | The unsigned constant 0x80671402 matches exactly one negative int. A decode result stops the loop (an error, zero or the marker) exactly when it is not positive. |
| Music.DecodeLoop | src/music.c:225-263 | The loop runs while music is on and the worker is not told to stop. It leaves at the first non-positive decode result, reporting end of stream for 0 and the marker and a decode error otherwise. Its channel and audio calls are the ones the specification function yields. |
| Music.CDiv | src/music.c:257 | C's division truncating toward zero: the quotient's magnitude is the largest whose multiple of the divisor's magnitude does not exceed the dividend's, and a non-zero quotient is positive exactly when the operands have the same sign. |
| Music.SteadyStreamReservesOnce | src/music.c:254-258 | While every pass decodes the same byte count and the first reservation succeeds, the channel is reserved exactly once. |
| Music.FailedReserveRetries | src/music.c:254-258 | While reservations fail, every pass tries again, and no channel is held. |
| Music.PassBalance | src/music.c:254-258 | One pass never reserves a held channel nor releases a free one. Afterwards the channel is held exactly when its variable is non-negative. |
| Music.ChannelBalance | src/music.c:239-261 | Over the whole loop the reserve and release calls are balanced. The channel is held at the end exactly when the channel variable is non-negative. |
| Music.EndReleasesExact | src/music.c:138-143 | music_mp3_thread_end releases each resource at most once. It releases the channel exactly when asked and a channel is held, and the handle, the MP3 resource and the file exactly when their flags ask. |
| Music.NestedBalance | src/music.c:138-143 | Releasing in reverse order of acquisition around a balanced middle part returns to the starting holdings, without a double acquire or a stray release. |
| Music.UnwindBalanced | src/music.c:179-223 | Acquiring some resources and releasing them in reverse order is balanced. |
| Music.LoopBalanced | src/music.c:239-263 | The decode loop followed by the final channel release holds nothing extra. |
| Music.SuccessBalanced | src/music.c:179-263 | The successful run (open the file, init the resource, reserve the handle, decode, then clean up) ends holding nothing. |
| Music.SetupAcquired | src/music.c:164-223 | Where set-up stops, the worker holds a prefix of: file, MP3 resource, MP3 handle. |
| Music.FailedSetupBalanced | src/music.c:164-223 | When the end call releases what set-up acquired, in reverse order, the trace is balanced, starts with the acquisitions and ends with those releases. |
| Music.WorkerRun | src/music.c:162-265 | The result is 0 exactly when set-up succeeds, and -1 otherwise. Every trace is balanced, starts with what set-up acquired and ends with what the music_mp3_thread_end arguments release. On each of the four failures those arguments release exactly what was acquired, last first, and never the channel. On success the trace is StreamTrace: the acquisitions, the decode loop's audio calls, then the channel the loop left, the handle, the MP3 resource and the file released. |
| Music.StreamTraceBalanced | src/music.c:225-263 | The trace of a worker whose set-up succeeded, built from the passes its decode loop plays, ends holding nothing. |
| Music.PlayStream | src/music.c:225-263 | After a successful set-up the trace is exactly StreamTrace: the stream acquisitions, the audio calls of the passes the decode loop plays, and the end call's releases, with the channel the loop left. The end call gets every flag, and the trace is balanced. |
| Music.MusicPlayer.ThreadEnd | src/music.c:138-160 | Releases exactly what its flags select. It clears the playing and skipped flags. When music is on and the track was not skipped, it starts the next track as music_play_random(FALSE) does, with the thread results given. The cursor takes the forward cursor step, and the order is reshuffled into a permutation at the end of a round and kept otherwise. Otherwise the cursor, the order and the worker are unchanged. A permutation order stays one. |
| Music.MusicPlayer.PlayerThread | src/music.c:162-265 | The worker returns 0 exactly when set-up succeeds. Its trace is balanced and ends with exactly what the end call released. After a failed set-up that is what was acquired, last first, and nothing else happened. After a played stream the trace is StreamTrace, and the releases are the channel the loop left, then the handle, the MP3 resource and the file. The playing and skipped flags are cleared. The next track starts exactly when music is on and the track was not skipped, with the cursor and the order as ThreadEnd states. A permutation order stays one. |
| Music.MusicPlayer.constructor | src/music.c:106-290 | At start-up no worker plays and no song is skipped (the two flags at lines 106-107). The thread id is -1 (mp3_play_thid, line 267). The cursor is 0 (current_song_index, line 290), and the order is a permutation of the empty playlist. Music is off, as app_play_music starts FALSE at src/main.c:47. |
| Music.MusicPlayer.End | src/music.c:346-351 | Music is switched off and the playlist is cleared. The cursor, the worker's flags, the thread id and its track are unchanged. |
| Errors.ErrorIndex | src/error.c:52-59 | A code whose negation lies in 0..5 selects that entry. Any other code selects the last entry. |
| Errors.ErrorEntryRoundTrip | src/error.c:31-39 | Each defined code selects its own named entry, whose id is 0x80000000 with the code's negation OR-ed in. That id gives the code back. |
| Errors.ErrorIdsDistinct | src/error.c:31-39 | The six entries have six different ids. |
| Errors.OutOfTableIsUnknown | src/error.c:52-59 | A positive code, or one below ERROR_UNKNOWN, shows the ERROR_UNKNOWN entry. Code 0 shows the empty entry. |
| Errors.AppErrorDisplay | src/error.c:42-59 | The error screen first frees every texture and ends the music, then shows the table entry that the code selects. The cursor, the order and the worker's flags are unchanged. |
| Main.ControlEffect | src/main.c:209-247 | The music flag flips exactly when CROSS is pressed with music available. music_stop is called exactly when that switches a playing worker off. A "back" play happens exactly when LEFT is pressed with music on. A skip is recorded exactly when LEFT or RIGHT acts. Colour and brightness change only on START and SELECT. |
| Main.CursorAfterAppend | src/main.c:223-247 | Carrying out two call logs in turn moves the cursor as carrying out the joined log does. |
| Main.ReshufflesAppend | src/music.c:317-322 | A joined call log reshuffles exactly when its first part does, or its second part does from where the first left the cursor. |
| Main.ForwardRoundKeepsOrder | src/music.c:317-335 | Forward plays that stay inside the playlist never reshuffle, and each moves the cursor by one. |
| Main.EndOfRoundReshuffles | src/music.c:317-322 | Once the cursor has reached the end of the playlist, the next play reshuffles. |
| Main.FollowsAppend | src/main.c:223-247 | Following the CROSS log and then the LEFT/RIGHT log is following the joined log, provided nothing plays after a stop. Cursor, order, stop and worker compose. |
| Main.LeftAfterTwoRightsReplays | src/main.c:234-247 | With music on, RIGHT, RIGHT and then LEFT on three frames leave the cursor where the first RIGHT left it, so LEFT replays that track. |
| Main.ColorCycles | src/main.c:211-215 | k presses of START advance the colour index by k, modulo 14. |
| Main.ColorsComeBack | src/main.c:211-215 | Fourteen presses of START return to the starting colour. |
| Main.BrightnessCycles | src/main.c:217-221 | k presses of SELECT advance the brightness index by k, modulo 3. |
| Main.BrightnessComesBack | src/main.c:217-221 | Three presses of SELECT return to the starting brightness. |
| Main.IndicesStayInRange | src/main.c:209-221 | Colour and brightness indices stay inside their tables whatever the buttons. |
| Main.WithoutMusicNothingPlays | src/main.c:223-247 | When music_init failed, no button starts or skips music. |
| Main.CrossToggles | src/main.c:223-232 | CROSS flips the music flag, and pressing it twice restores it. Switching on plays a random track. Switching off stops the worker only if it is playing. |
| Main.SkipButtons | src/main.c:234-247 | LEFT or RIGHT while music is on marks the track skipped and plays the previous or the next track, LEFT winning when both are pressed. A stop happens only when CROSS switched music off while the worker played. At most two music calls happen per frame. |
| Main.NextTiles | src/main.c:141-159 | curr_time becomes the reading. old_min is the previous reading's minute once a non-zero year was read. The tiles are those of the reading exactly when old_min differs from its minute, and are kept otherwise. |
| Main.MinuteTilesStayCurrent | src/main.c:141-159 | While the clock reports a non-zero year, every frame leaves the minute tiles showing the current minute, and the first frame always builds the tiles. |
| Main.InitialTilesMinuteShown | src/main.c:122-123 | The initial state (curr_time zeroed, old_min -1) satisfies that invariant. |
| Main.HourChangeAloneKeepsTiles | src/main.c:154-159 | Rebuilding is keyed on the minute only, so readings 10:05 and then 11:05 keep showing the 10:05 tiles. |
| Main.TileSpritesDrawn | src/main.c:161-190 | Exactly the non-NULL tiles are drawn, each at its own slot position. |
| Main.TileSpritesOrdered | src/main.c:161-190 | The drawn tiles lie left to right, before the position after the last slot. |
| Main.DrawTiles | src/main.c:162-171 | The tile loop draws the sprites the specification function lists. |
| Main.FrameOf | src/main.c:161-201 | The colon is drawn exactly on even seconds. The music icon is drawn exactly while music is on. The battery icon is one of the five icons. Everything is modulated with the current colour and one of the three luminances 255, 128 and 64. |
| Main.ColonBlinks | src/main.c:173-179 | The colon is drawn in one of any two consecutive seconds and not in the other. |
| Main.FrameIndicators | src/main.c:194-201 | The music icon is drawn exactly when music is on. The battery icon is one of the five icons, and a higher charge never shows fewer bars. |
| Main.Clock.constructor | src/main.c:95-123 | Colour and brightness start at index 0 and the loop runs. curr_time is zero, old_min is -1 and no tile is set. |
| Main.Clock.ToggleMusic | src/main.c:223-232 | CROSS with music available flips the music flag, which plays a random track or stops a running worker. The player follows that call. The cursor moves as the call says. The order is kept unless the play reached the end of a round, and then it is a permutation. A stop leaves no worker running. After a play that found a path, the thread id is the created one, and the worker plays that path when the thread started. Without a call the player is unchanged. |
| Main.Clock.SkipTrack | src/main.c:234-247 | While music is on, LEFT calls music_play_random(TRUE) and RIGHT music_play_random(FALSE), and either marks the track skipped. The cursor moves by the backward or forward cursor step. The order is kept unless the call reached the end of a round, and then it is a permutation. The worker plays the path at the slot before the new cursor when the thread started. Without a press the player is unchanged. |
| Main.Clock.Controls | src/main.c:209-247 | The new colour, brightness, music and skip state and the music calls are those ControlEffect gives. The player follows those calls. The cursor is their effect in order. The order is kept unless one of them reached the end of a round, and then it is a permutation. A stop leaves no worker running, and the worker plays what the last play picked when its thread started. Time and tiles are untouched. |
| Main.Clock.MusicControls | src/main.c:223-247 | The music flag, the skip flag and the calls are those ControlEffect gives. The player follows the joined log of the CROSS call and the LEFT/RIGHT call: cursor, order, stop and worker, as in Controls. |
| Main.Clock.UpdateTiles | src/main.c:148-159 | curr_time becomes the reading, and the tiles are rebuilt exactly when old_min differs from the new minute. |
| Main.Clock.Render | src/main.c:161-201 | The drawn frame is FrameOf the current tiles, second, charge, music flag, colour and brightness. |
| Main.Clock.Step | src/main.c:132-250 | One pass of the loop. An RTC failure stops the loop, shows ERROR_GETTING_TIME_RTC and cleans up. Otherwise the tile state advances by NextTiles, the frame is drawn and the controls apply. The playlist and every texture are unchanged. The player (cursor, play order, thread id and worker track) follows the logged music calls. Once music_init has succeeded, the order's slots in use stay a permutation of the playlist. |
| Main.Clock.Frame | src/main.c:140-247 | A pass whose clock reading succeeded: old_min and the tiles advance by NextTiles, the frame is FrameOf the state before the controls, and the controls have the effect ControlEffect gives, with the player following the calls. |
| Main.Clock.Shutdown | src/main.c:252-254 | Leaving the loop frees every texture and ends the music. |
| Main.StartUp | src/main.c:57-77 | A failed callback set-up shows ERROR_SETUP_CALLBACKS. A failed texture load shows the first failing texture's error. Otherwise the clock starts in its initial state, with music available exactly when music_init succeeds. |

## Left out

- Threads: the worker is modelled as one sequential run. Its concurrency with
  the main loop is not modelled. That covers the flags music_thread_playing,
  player_skipped_song and app_play_music being read across threads, the
  waiting in music_stop, and the worker calling music_play_random from inside
  music_mp3_thread_end. The stop request is a per-pass oracle bit of the
  decode loop.
- Music.DecodeLoop: only runs that end are modelled. The frame sequence must
  contain a pass that stops the loop, because a song that plays forever has no
  finite trace.
- Music.DecodeLoop: the refill call inside the loop (src/music.c:242) is left
  out. Its result is ignored by the source, and it has no effect the model
  observes.
- Music.WorkerRun: the snprintf of the full music path, sceKernelPrintf, the
  stream-end seek and sceMp3SetLoopNum are not modelled. Nothing the source
  checks depends on them.
- Music.MusicPlayer.ThreadEnd: sceKernelExitDeleteThread is not modelled. The
  method returns instead.
- Music.MusicPlayer.End: unloading the AVCODEC and MP3 modules
  (music_end_modules, src/music.c:73-79) always returns 0 and has no
  modelled effect.
- Music.CDiv: the `2 * numChannels` product it divides by is not bounded to
  32 bits.
- Music.WorkerRun: a channel count of 0 is excluded by a precondition. In the
  source it is a division by zero, and the decoder never reports zero
  channels.
- Music.Playlist.Append: the path length is the length of the string, as
  strlen gives. The strncpy copy and free() are not modelled beyond which slot
  holds which path.
- The SDK calls are oracles: the RTC, power, display, controller, file system,
  MP3 and audio services, g2dTexLoad/g2dTexFree, and rand(). Their results are
  parameters, and their internals are out of scope.
- Not modelled: srand(time(NULL)), scePowerSetClockFrequency,
  sceKernelSetCompiledSdkVersion, g2dInit, g2dTerm, g2dClear and g2dFlip.
  They have no effect on any state the application reads back.
- Rendering: float positions and sizes, G2D_MODULATE colours and the glib2d
  draw calls are not modelled. Positions are integers (60 + 120k for time
  tiles, 360 + 30k for date tiles). The frame records which textures are
  drawn, where, and with which colour and brightness index.
- tex_draw (src/tex.c:176-193): its null checks and its check that alpha is
  non-zero never fire on the main loop's calls (every texture pointer is set
  and the alpha is 255), so the model draws unconditionally.
- Null pointers passed to app_tex_free, music_playlist_append and
  music_playlist_clear are not modelled. Every call site passes a global.
- Tex.ClockTextures.Alloc: app_error_display never returns, so clock_tex_alloc
  never reaches its `return -1`. The model returns the code it would show
  instead, and Main.StartUp shows it.
- Errors.AppErrorDisplay: the loop that keeps the error screen up until
  SELECT is pressed, and sceKernelExitGame, are not modelled. The method
  returns the entry shown. The message texts and app names are not modelled.
  The entries keep their id and name only.
- Errors.ErrorId: `-err` for INT_MIN overflows in C. The model requires a
  code above -2^31.
- The values of the ERROR_* codes come from error.h, which is not part of
  this model. They are taken as -1 to -5 in the order of the app_errors table
  in src/error.c, so that each code indexes its own entry.
- PATH_MAX is taken as 1024, newlib's value on the PSP toolchain.
- Utils.GetAppVString: the major, minor and patch fields are modelled as
  unsigned bytes.
- dir_exists and file_exists (src/utils.c) are oracles: a boolean and a set
  of existing paths.

## Findings

| source | as written | input that shows it | evidently intended | confidence | as-written member | corrected member |
|---|---|---|---|---|---|---|
| src/utils.c:70-73, called from src/music.c:88-95 | str_endswith computes `str + strlen(str) - strlen(endswith)` without checking that str is at least as long as the suffix | the directory entries "." and "..", which sceIoDread returns for ms0:/MUSIC/, are compared against ".mp3" from 3 and 2 characters before the start of d_name | a name shorter than the suffix does not end with it | not executed | Utils.DotEntriesReadBeforeName | Utils.EndsWith |
