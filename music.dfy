/** The music player of src/music.c: the playlist of MP3 files found in
    ms0:/MUSIC/, its shuffled play order and cursor, and the worker that
    decodes one file and feeds the audio channel. The SDK calls the worker
    makes (sceIo*, sceMp3*, sceAudioSRC*) are replaced by oracle values that
    may be any int. */
module Music {
  import opened Utils

  /** Slots of music_playlist.file_path (MUSIC_PLAYLIST_SIZE). */
  const MUSIC_PLAYLIST_SIZE: nat := 1024

  /** music_playlist_append refuses once `size >= MUSIC_PLAYLIST_SIZE - 1`,
      so a playlist never holds more tracks than this. */
  const MAX_TRACKS: nat := MUSIC_PLAYLIST_SIZE - 1

  // ---------------------------------------------------------------------------
  // music_playlist_append / music_playlist_clear
  // ---------------------------------------------------------------------------

  /** Whether music_playlist_append stores `path` into a playlist holding
      `count` tracks; `mallocOk` is whether malloc returned memory. */
  predicate AppendAccepts(count: nat, path: Option<string>, mallocOk: bool) {
    count < MAX_TRACKS && path.Some? && |path.value| >= 1 && mallocOk
  }

  /** The track list after music_playlist_append. */
  function AppendTrack(tracks: seq<string>, path: Option<string>, mallocOk: bool): (r: seq<string>)
    ensures tracks <= r && |r| <= |tracks| + 1
    ensures |r| == |tracks| + 1 <==> AppendAccepts(|tracks|, path, mallocOk)
    ensures |r| == |tracks| + 1 ==> r[|tracks|] == path.value
  {
    if AppendAccepts(|tracks|, path, mallocOk) then tracks + [path.value] else tracks
  }

  /** music_playlist: the path table and the number of used slots. */
  class Playlist {
    const filePath: array<Option<string>>
    var size: nat

    /** Slots below `size` hold a path, the others are NULL. */
    ghost predicate Valid()
      reads this, filePath
    {
      && filePath.Length == MUSIC_PLAYLIST_SIZE
      && size <= MAX_TRACKS
      && (forall k :: 0 <= k < size ==> filePath[k].Some?)
      && (forall k :: size <= k < filePath.Length ==> filePath[k].None?)
    }

    /** The paths of the playlist, in slot order. */
    ghost function Tracks(): (ts: seq<string>)
      reads this, filePath
      requires Valid()
      ensures |ts| == size
      ensures forall k :: 0 <= k < size ==> filePath[k] == Some(ts[k])
    {
      var n, used := size, filePath[..size];
      seq(n, k requires 0 <= k < n => used[k].value)
    }

    /** The zero-initialised global current_playlist. */
    constructor ()
      ensures Valid() && fresh(filePath) && Tracks() == []
    {
      filePath := new Option<string>[MUSIC_PLAYLIST_SIZE](_ => None);
      size := 0;
    }

    /** music_playlist_append for the one playlist there is; the path's
        length is taken to be the size the caller passes (music_init passes
        strlen). A refused append changes nothing; a failed malloc stores NULL
        into the slot, which already was NULL. */
    method Append(path: Option<string>, mallocOk: bool)
      requires Valid()
      modifies this, filePath
      ensures Valid()
      ensures Tracks() == AppendTrack(old(Tracks()), path, mallocOk)
      ensures AppendAccepts(old(size), path, mallocOk) ==>
                size == old(size) + 1 && filePath[..] == old(filePath[..])[old(size) := path]
      ensures !AppendAccepts(old(size), path, mallocOk) ==>
                size == old(size) && filePath[..] == old(filePath[..])
    {
      if size >= MAX_TRACKS || path.None? || |path.value| < 1 {
        return;
      }
      if !mallocOk {
        filePath[size] := None;
        return;
      }
      filePath[size] := path;
      size := size + 1;
      assert Tracks() == old(Tracks()) + [path.value];
    }

    /** music_playlist_clear: frees every used slot and empties the
        playlist. On an empty playlist nothing changes, so clearing twice is
        the same as clearing once. */
    method Clear()
      requires Valid()
      modifies this, filePath
      ensures Valid() && size == 0 && Tracks() == []
      ensures forall k :: 0 <= k < filePath.Length ==> filePath[k].None?
      ensures old(size) == 0 ==> filePath[..] == old(filePath[..])
    {
      var idx := 0;
      while idx < size
        invariant 0 <= idx <= size <= MAX_TRACKS
        invariant size == old(size)
        invariant forall k :: 0 <= k < idx ==> filePath[k].None?
        invariant forall k :: idx <= k < filePath.Length ==> filePath[k] == old(filePath[k])
      {
        filePath[idx] := None;
        idx := idx + 1;
      }
      size := 0;
    }
  }

  // ---------------------------------------------------------------------------
  // music_init: scanning the music folder
  // ---------------------------------------------------------------------------

  const MUSIC_FOLDER: string := "ms0:/MUSIC/"

  /** The tracks after music_init's directory loop has offered every entry
      ending in ".mp3" to music_playlist_append, in directory order.
      `mallocOk[k]` is whether malloc succeeds for entry k. */
  function ScanEntries(tracks: seq<string>, entries: seq<string>, mallocOk: seq<bool>): (r: seq<string>)
    requires |mallocOk| == |entries|
    ensures tracks <= r && |r| <= |tracks| + |entries|
    decreases |entries|
  {
    if entries == [] then tracks
    else
      var next := if EndsWith(entries[0], MP3_SUFFIX) then AppendTrack(tracks, Some(entries[0]), mallocOk[0]) else tracks;
      ScanEntries(next, entries[1..], mallocOk[1..])
  }

  /** The entries whose names end in ".mp3", in directory order. */
  function Mp3Entries(entries: seq<string>): seq<string> {
    if entries == [] then []
    else (if EndsWith(entries[0], MP3_SUFFIX) then [entries[0]] else []) + Mp3Entries(entries[1..])
  }

  /** The scan only ever adds: the old tracks stay in front, every added track
      is a directory entry ending in ".mp3", and the playlist never exceeds
      MAX_TRACKS. */
  lemma {:induction false} ScanAddsOnlyMp3(tracks: seq<string>, entries: seq<string>, mallocOk: seq<bool>)
    requires |mallocOk| == |entries|
    ensures var r := ScanEntries(tracks, entries, mallocOk);
      && tracks <= r
      && (forall k :: |tracks| <= k < |r| ==> EndsWith(r[k], MP3_SUFFIX) && r[k] in entries)
      && (|tracks| <= MAX_TRACKS ==> |r| <= MAX_TRACKS)
    decreases |entries|
  {
    if entries != [] {
      var next := if EndsWith(entries[0], MP3_SUFFIX) then AppendTrack(tracks, Some(entries[0]), mallocOk[0]) else tracks;
      ScanAddsOnlyMp3(next, entries[1..], mallocOk[1..]);
      var r := ScanEntries(tracks, entries, mallocOk);
      assert r == ScanEntries(next, entries[1..], mallocOk[1..]);
      forall k | |tracks| <= k < |r|
        ensures EndsWith(r[k], MP3_SUFFIX) && r[k] in entries
      {
        if k < |next| {
          assert next == tracks + [entries[0]];
          assert r[k] == next[k];
        } else {
          assert r[k] in entries[1..];
        }
      }
    }
  }

  /** When every malloc succeeds and all the MP3 files fit, the scan adds
      exactly the MP3 entries, in directory order. */
  lemma {:induction false} ScanAddsEveryMp3(tracks: seq<string>, entries: seq<string>, mallocOk: seq<bool>)
    requires |mallocOk| == |entries|
    requires forall k :: 0 <= k < |mallocOk| ==> mallocOk[k]
    requires |tracks| + |Mp3Entries(entries)| <= MAX_TRACKS
    ensures ScanEntries(tracks, entries, mallocOk) == tracks + Mp3Entries(entries)
    decreases |entries|
  {
    if entries != [] {
      var e := entries[0];
      if EndsWith(e, MP3_SUFFIX) {
        assert AppendTrack(tracks, Some(e), mallocOk[0]) == tracks + [e];
        ScanAddsEveryMp3(tracks + [e], entries[1..], mallocOk[1..]);
        assert tracks + [e] + Mp3Entries(entries[1..]) == tracks + Mp3Entries(entries);
      } else {
        ScanAddsEveryMp3(tracks, entries[1..], mallocOk[1..]);
      }
    }
  }

  /** music_init_modules: the AVCODEC and MP3 module loads, given what
      sceUtilityLoadModule returns for each; the second is not attempted when
      the first fails. */
  function InitModules(avcodecLoad: int, mp3Load: int): (r: int)
    ensures r == 0 || r == -1
    ensures r == 0 <==> avcodecLoad >= 0 && mp3Load >= 0
  {
    if avcodecLoad < 0 then -1
    else if mp3Load < 0 then -1
    else 0
  }

  // ---------------------------------------------------------------------------
  // The play order and its cursor (music_shuffle_playlist, music_play_random)
  // ---------------------------------------------------------------------------

  /** 0, 1, ..., n - 1. */
  function Iota(n: nat): (s: seq<int>)
    ensures |s| == n && forall k :: 0 <= k < n ==> s[k] == k
  {
    seq(n, k => k)
  }

  /** The first `size` entries of `order` are a permutation of [0, size). */
  predicate IsPermutationPrefix(order: seq<int>, size: nat)
  {
    size <= |order| && multiset(order[..size]) == multiset(Iota(size))
  }

  /** Swapping two entries keeps the same elements. */
  lemma SwapKeepsElements(s: seq<int>, i: nat, j: nat)
    requires i < |s| && j < |s|
    ensures multiset(s[i := s[j]][j := s[i]]) == multiset(s)
  {
  }

  /** No value occurs twice in Iota(n). */
  lemma {:induction false} IotaOnce(n: nat, v: int)
    ensures multiset(Iota(n))[v] == if 0 <= v < n then 1 else 0
  {
    if n > 0 {
      IotaOnce(n - 1, v);
      assert Iota(n) == Iota(n - 1) + [n - 1];
      assert n - 1 !in multiset(Iota(n - 1)) by {
        IotaOnce(n - 1, n - 1);
      }
    }
  }

  /** A sequence with the same elements as Iota(n) is a permutation of
      [0, n): it has n entries, all in range, pairwise different, and every
      value of the range occurs. */
  lemma {:induction false} PermutationFacts(s: seq<int>, n: nat)
    requires multiset(s) == multiset(Iota(n))
    ensures |s| == n
    ensures forall i :: 0 <= i < |s| ==> 0 <= s[i] < n
    ensures forall i, j :: 0 <= i < j < |s| ==> s[i] != s[j]
    ensures forall t :: 0 <= t < n ==> t in s
  {
    assert |s| == |multiset(s)| == |multiset(Iota(n))| == n;
    forall i | 0 <= i < |s|
      ensures 0 <= s[i] < n
    {
      assert s[i] in multiset(s);
      IotaOnce(n, s[i]);
    }
    forall i, j | 0 <= i < j < |s|
      ensures s[i] != s[j]
    {
      if s[i] == s[j] {
        var v := s[i];
        assert s == s[..j] + [v] + s[j + 1..];
        assert v in s[..j];
        assert multiset(s)[v] == multiset(s[..j])[v] + 1 + multiset(s[j + 1..])[v];
        IotaOnce(n, v);
        assert false;
      }
    }
    forall t | 0 <= t < n
      ensures t in s
    {
      IotaOnce(n, t);
      assert t in multiset(s);
    }
  }

  /** What one music_play_random call does with the cursor
      current_song_index: `pos` is the order slot it plays, `next` the new
      cursor and `reshuffle` whether it starts a new round. */
  datatype Step = Step(pos: nat, next: nat, reshuffle: bool)

  function CursorStep(cursor: int, size: nat, back: bool): (s: Step)
    requires size > 0 && cursor >= 0
    ensures s.reshuffle <==> cursor >= size
    ensures s.pos < size && s.next == s.pos + 1 && 1 <= s.next <= size
    ensures !back ==> s.pos == if cursor >= size then 0 else cursor
    ensures back ==> s.pos == (if cursor >= size then 0 else if cursor >= 2 then cursor - 2 else 0)
  {
    var start := if cursor >= size then 0 else cursor;
    var pos := if back then (if start - 2 < 0 then 0 else start - 2) else start;
    Step(pos, pos + 1, cursor >= size)
  }

  /** The cursor after `k` forward calls starting from cursor 0. */
  function ForwardCursor(size: nat, k: nat): int
    requires size > 0
  {
    if k == 0 then 0 else CursorStep(ForwardCursor(size, k - 1), size, false).next
  }

  /** From cursor 0, forward call k (for k < size) plays order slot k, so the
      first `size` calls play slots 0, ..., size - 1 in turn and call size + 1
      starts a new round with a reshuffle. */
  lemma {:induction false} ForwardVisitsAll(size: nat, k: nat)
    requires 0 < size && k <= size
    ensures ForwardCursor(size, k) == k
    ensures k < size ==> CursorStep(k, size, false) == Step(k, k + 1, false)
    ensures k == size ==> CursorStep(k, size, false).reshuffle
  {
    if k > 0 {
      ForwardVisitsAll(size, k - 1);
    }
  }

  /** Going back after two forward calls replays the first of them, as long
      as the round has not ended; at the end of a round the reshuffle comes
      first and going back plays the first slot of the new round. */
  lemma BackReplaysPrevious(cursor: nat, size: nat)
    requires cursor + 2 < size
    ensures var first := CursorStep(cursor, size, false);
      var second := CursorStep(first.next, size, false);
      CursorStep(second.next, size, true).pos == first.pos
    ensures CursorStep(size, size, true) == Step(0, 1, true)
  {
  }

  // ---------------------------------------------------------------------------
  // music_mp3_fill_stream_buf
  // ---------------------------------------------------------------------------

  /** What the SDK calls of music_mp3_fill_stream_buf return: getInfo
      (sceMp3GetInfoToAddStreamData) and the stream offset `pos` it reports,
      seek (sceIoLseek32), read (sceIoRead, the byte count) and notify
      (sceMp3NotifyAddStreamData). */
  datatype FillOracle = FillOracle(getInfo: int, pos: int, seek: int, read: int, notify: int)

  /** The return value and whether the decoder was told about new data. */
  datatype FillResult = FillResult(code: int, notified: bool)

  function FillStreamBuf(o: FillOracle): (r: FillResult)
    ensures r.code == -1 <==> o.getInfo < 0 || o.seek < 0 || o.read < 0 || (o.read > 0 && o.notify < 0)
    ensures r.code == 1 <==> o.getInfo >= 0 && o.seek >= 0 && o.read > 0 && o.notify >= 0 && o.pos > 0
    ensures r.code == 0 <==> o.getInfo >= 0 && o.seek >= 0 && (o.read == 0 || (o.read > 0 && o.notify >= 0 && o.pos <= 0))
    ensures r.notified <==> o.getInfo >= 0 && o.seek >= 0 && o.read > 0
  {
    if o.getInfo < 0 then FillResult(-1, false)
    else if o.seek < 0 then FillResult(-1, false)
    else if o.read < 0 then FillResult(-1, false)
    else if o.read == 0 then FillResult(0, false)
    else if o.notify < 0 then FillResult(-1, true)
    else FillResult(if o.pos > 0 then 1 else 0, true)
  }

  /** A return value of 0 does not mean end of file: a successful read of
      data at stream offset 0 also returns 0, after notifying the decoder. */
  lemma FillZeroIsAmbiguous(o: FillOracle)
    requires o.getInfo >= 0 && o.seek >= 0 && o.read > 0 && o.notify >= 0 && o.pos <= 0
    ensures FillStreamBuf(o) == FillResult(0, true)
    ensures FillStreamBuf(o.(read := 0)) == FillResult(0, false)
  {
  }

  // ---------------------------------------------------------------------------
  // The decode loop of music_mp3_player_thread
  // ---------------------------------------------------------------------------

  /** sceMp3Decode returns a 32-bit int. */
  type Int32 = x: int | -0x8000_0000 <= x < 0x8000_0000

  /** The unsigned literal the loop compares the decode result with. The
      comparison converts the int to unsigned, so it matches the int whose
      bit pattern is 0x80671402. */
  const MP3_STREAM_END: int := 0x80671402

  predicate IsEndMarker(d: Int32) {
    d % UINT_MODULUS == MP3_STREAM_END
  }

  /** The end marker is exactly one negative int, and a decode result ends the
      loop (error, zero or marker) exactly when it is not positive. */
  lemma EndMarkerIsNegative(d: Int32)
    ensures IsEndMarker(d) <==> d == MP3_STREAM_END - UINT_MODULUS
    ensures IsEndMarker(d) ==> d < 0
    ensures ((d < 0 && !IsEndMarker(d)) || d == 0 || IsEndMarker(d)) <==> d <= 0
  {
    if d < 0 {
      assert d % UINT_MODULUS == d + UINT_MODULUS;
    }
  }

  /** One pass of the loop as the SDK answers it: what sceMp3Decode returns,
      what sceAudioSRCChReserve returns if it is called, and whether another
      thread clears music_thread_playing or app_play_music during the pass. */
  datatype Frame = Frame(decoded: Int32, reserve: int, stopAfter: bool)

  /** Why the loop ended: the flags were cleared, the stream ended (0 or the
      end marker), or decoding failed. */
  datatype ExitReason = Halted | StreamEnd | DecodeError

  /** The audio calls of the loop: a reservation (sample count, rate,
      channel count, and the value returned), a release, an output. */
  datatype AudioCall = ChReserve(samples: int, rate: int, channels: int, result: int) | ChRelease | Output

  /** The loop's audio variables: `channel`, `lastDecoded` and the calls made so
      far. */
  datatype AudioState = AudioState(channel: int, lastDecoded: int, calls: seq<AudioCall>)

  function Abs(x: int): nat {
    if x < 0 then -x else x
  }

  /** C's `/`, which truncates toward zero: the magnitude of the quotient is
      the largest q with q * |b| <= |a|, and a non-zero quotient is positive
      exactly when the operands have the same sign. */
  function CDiv(a: int, b: int): (q: int)
    requires b != 0
    ensures Abs(q) * Abs(b) <= Abs(a) < (Abs(q) + 1) * Abs(b)
    ensures q != 0 ==> (q > 0 <==> (a < 0) == (b < 0))
  {
    var m := Abs(a) / Abs(b);
    DivBounds(Abs(a), Abs(b));
    if (a < 0) == (b < 0) then m else -m
  }

  lemma DivBounds(x: nat, y: nat)
    requires y > 0
    ensures (x / y) * y <= x < (x / y + 1) * y
  {
    var m, r := x / y, x % y;
    assert x == m * y + r && 0 <= r < y;
    assert (m + 1) * y == m * y + y;
  }

  /** Whether a pass that decoded `d` bytes (re)reserves the channel. */
  predicate NeedsReserve(a: AudioState, d: int) {
    a.channel < 0 || a.lastDecoded != d
  }

  /** The audio calls of one pass that decoded `d` bytes. */
  function PassCalls(a: AudioState, d: int, reserve: int, rate: int, nch: int): seq<AudioCall>
    requires nch != 0
  {
    (if NeedsReserve(a, d) && a.channel >= 0 then [ChRelease] else [])
    + (if NeedsReserve(a, d) then [ChReserve(CDiv(d, 2 * nch), rate, nch, reserve)] else [])
    + [Output]
  }

  function Pass(a: AudioState, f: Frame, rate: int, nch: int): AudioState
    requires nch != 0
  {
    AudioState(if NeedsReserve(a, f.decoded) then f.reserve else a.channel, f.decoded,
               a.calls + PassCalls(a, f.decoded, f.reserve, rate, nch))
  }

  /** The audio variables after the first `n` passes. */
  function AudioAfter(frames: seq<Frame>, n: nat, rate: int, nch: int): AudioState
    requires n <= |frames| && nch != 0
  {
    if n == 0 then AudioState(-1, 0, [])
    else Pass(AudioAfter(frames, n - 1, rate, nch), frames[n - 1], rate, nch)
  }

  predicate EndsLoop(f: Frame) {
    f.decoded <= 0 || f.stopAfter
  }

  /** The first pass that ends the loop, or |frames| if none does. */
  function FirstStop(frames: seq<Frame>): (k: nat)
    ensures k <= |frames|
    ensures forall i :: 0 <= i < k ==> !EndsLoop(frames[i])
    ensures k < |frames| ==> EndsLoop(frames[k])
  {
    if frames == [] then 0
    else if EndsLoop(frames[0]) then 0
    else 1 + FirstStop(frames[1..])
  }

  /** The decode loop of music_mp3_player_thread, from `music_thread_playing
      = TRUE` to the loop's end: `n` passes play audio, and the loop stops at
      the first pass that decodes nothing positive or after the first pass
      during which the flags were cleared. Only runs in which such a pass
      comes are modelled. The stream refill inside the loop is left out (its
      result is ignored). */
  method DecodeLoop(frames: seq<Frame>, playMusic: bool, rate: int, nch: int)
    returns (n: nat, exit: ExitReason, channel: int, calls: seq<AudioCall>)
    requires nch != 0
    requires playMusic ==> FirstStop(frames) < |frames|
    ensures n <= |frames|
    ensures forall i :: 0 <= i < n ==> frames[i].decoded > 0
    ensures !playMusic ==> n == 0 && exit == Halted
    ensures playMusic ==>
              var k := FirstStop(frames);
              if frames[k].decoded <= 0 then
                && n == k
                && exit == (if frames[k].decoded == 0 || IsEndMarker(frames[k].decoded) then StreamEnd else DecodeError)
              else n == k + 1 && exit == Halted
    ensures channel == AudioAfter(frames, n, rate, nch).channel
    ensures calls == AudioAfter(frames, n, rate, nch).calls
  {
    var playing := true;
    var i := 0;
    channel := -1;
    var lastDecoded := 0;
    calls := [];
    exit := Halted;
    while playing && playMusic
      invariant 0 <= i <= |frames|
      invariant !playMusic ==> i == 0
      invariant playing && playMusic ==> i <= FirstStop(frames)
      invariant !playing ==> playMusic && i == FirstStop(frames) + 1 && frames[i - 1].decoded > 0
      invariant forall j :: 0 <= j < i ==> frames[j].decoded > 0
      invariant AudioState(channel, lastDecoded, calls) == AudioAfter(frames, i, rate, nch)
      invariant exit == Halted
      decreases |frames| - i
    {
      var f := frames[i];
      var bytesDecoded := f.decoded;
      if bytesDecoded < 0 && !IsEndMarker(bytesDecoded) {
        exit := DecodeError;
        break;
      }
      if bytesDecoded == 0 || IsEndMarker(bytesDecoded) {
        exit := StreamEnd;
        break;
      }
      ghost var before := AudioState(channel, lastDecoded, calls);
      if channel < 0 || lastDecoded != bytesDecoded {
        if channel >= 0 {
          calls := calls + [ChRelease];
        }
        calls := calls + [ChReserve(CDiv(bytesDecoded, 2 * nch), rate, nch, f.reserve)];
        channel := f.reserve;
      }
      calls := calls + [Output];
      lastDecoded := bytesDecoded;
      assert calls == before.calls + PassCalls(before, bytesDecoded, f.reserve, rate, nch);
      if f.stopAfter {
        playing := false;
      }
      i := i + 1;
    }
    if exit != Halted {
      EndMarkerIsNegative(frames[i].decoded);
    }
    n := i;
  }

  /** Number of reservations among the calls. */
  function Reserves(calls: seq<AudioCall>): nat {
    if calls == [] then 0 else (if calls[0].ChReserve? then 1 else 0) + Reserves(calls[1..])
  }

  lemma {:induction false} ReservesAppend(a: seq<AudioCall>, b: seq<AudioCall>)
    ensures Reserves(a + b) == Reserves(a) + Reserves(b)
  {
    if a != [] {
      assert (a + b)[0] == a[0] && (a + b)[1..] == a[1..] + b;
      ReservesAppend(a[1..], b);
    } else {
      assert a + b == b;
    }
  }

  /** A stream whose passes all decode the same byte count keeps the channel
      it reserved on the first pass: one reservation in all. */
  lemma {:induction false} SteadyStreamReservesOnce(frames: seq<Frame>, n: nat, rate: int, nch: int)
    requires 1 <= n <= |frames| && nch != 0
    requires forall i :: 0 <= i < n ==> frames[i].decoded == frames[0].decoded
    requires frames[0].reserve >= 0
    ensures AudioAfter(frames, n, rate, nch).channel == frames[0].reserve
    ensures AudioAfter(frames, n, rate, nch).lastDecoded == frames[0].decoded
    ensures Reserves(AudioAfter(frames, n, rate, nch).calls) == 1
  {
    var a := AudioAfter(frames, n - 1, rate, nch);
    if n == 1 {
      assert a == AudioState(-1, 0, []);
      var r := ChReserve(CDiv(frames[0].decoded, 2 * nch), rate, nch, frames[0].reserve);
      assert PassCalls(a, frames[0].decoded, frames[0].reserve, rate, nch) == [r, Output];
      assert AudioAfter(frames, 1, rate, nch).calls == [r, Output];
      assert [r, Output][1..] == [Output] && [Output][1..] == [];
      assert Reserves([r, Output]) == 1 + Reserves([Output]);
    } else {
      SteadyStreamReservesOnce(frames, n - 1, rate, nch);
      assert PassCalls(a, frames[n - 1].decoded, frames[n - 1].reserve, rate, nch) == [Output];
      ReservesAppend(a.calls, [Output]);
    }
  }

  /** While reservations fail, every pass tries again: no channel is held,
      and each of the n passes reserves once. */
  lemma {:induction false} FailedReserveRetries(frames: seq<Frame>, n: nat, rate: int, nch: int)
    requires n <= |frames| && nch != 0
    requires forall i :: 0 <= i < n ==> frames[i].reserve < 0
    ensures AudioAfter(frames, n, rate, nch).channel < 0
    ensures Reserves(AudioAfter(frames, n, rate, nch).calls) == n
  {
    if n > 0 {
      FailedReserveRetries(frames, n - 1, rate, nch);
      var a := AudioAfter(frames, n - 1, rate, nch);
      var f := frames[n - 1];
      assert PassCalls(a, f.decoded, f.reserve, rate, nch)
          == [ChReserve(CDiv(f.decoded, 2 * nch), rate, nch, f.reserve), Output];
      assert Reserves([Output]) == 0;
      ReservesAppend(a.calls, PassCalls(a, f.decoded, f.reserve, rate, nch));
    }
  }

  // ---------------------------------------------------------------------------
  // Resources of the worker
  // ---------------------------------------------------------------------------

  /** What the worker holds: the open file, the MP3 resource
      (sceMp3InitResource), the MP3 handle and the SRC audio channel. */
  datatype Resource = File | Mp3Resource | Mp3Handle | AudioChannel

  datatype Event = Acquire(res: Resource) | Release(res: Resource)

  /** Plays a trace from the resources `held`: None if it acquires something
      already held or releases something not held, else what is held at the
      end. */
  function Replay(trace: seq<Event>, held: set<Resource>): Option<set<Resource>> {
    if trace == [] then Some(held)
    else match trace[0]
      case Acquire(x) => if x in held then None else Replay(trace[1..], held + {x})
      case Release(x) => if x !in held then None else Replay(trace[1..], held - {x})
  }

  lemma {:induction false} ReplayAppend(a: seq<Event>, b: seq<Event>, held: set<Resource>)
    ensures Replay(a + b, held) == match Replay(a, held)
                                   case None => None
                                   case Some(h) => Replay(b, h)
  {
    if a != [] {
      assert (a + b)[0] == a[0] && (a + b)[1..] == a[1..] + b;
      match a[0]
      case Acquire(x) =>
        if x !in held {
          ReplayAppend(a[1..], b, held + {x});
        }
      case Release(x) =>
        if x in held {
          ReplayAppend(a[1..], b, held - {x});
        }
    } else {
      assert a + b == b;
    }
  }

  /** The resource events of the loop's audio calls: a successful
      reservation acquires the channel, a release gives it back. */
  function CallEvents(calls: seq<AudioCall>): seq<Event> {
    if calls == [] then []
    else
      (match calls[0]
       case ChReserve(_, _, _, result) => if result >= 0 then [Acquire(AudioChannel)] else []
       case ChRelease => [Release(AudioChannel)]
       case Output => [])
      + CallEvents(calls[1..])
  }

  lemma {:induction false} CallEventsAppend(a: seq<AudioCall>, b: seq<AudioCall>)
    ensures CallEvents(a + b) == CallEvents(a) + CallEvents(b)
  {
    if a != [] {
      assert (a + b)[0] == a[0] && (a + b)[1..] == a[1..] + b;
      CallEventsAppend(a[1..], b);
    } else {
      assert a + b == b;
    }
  }

  /** The resources held with or without the channel. */
  function WithChannel(held: set<Resource>, channel: int): set<Resource> {
    if channel >= 0 then held + {AudioChannel} else held
  }

  /** One pass never reserves a held channel nor releases a free one, and
      afterwards the channel is held exactly when the pass's channel
      variable is non-negative. */
  lemma PassBalance(a: AudioState, f: Frame, rate: int, nch: int, held: set<Resource>)
    requires nch != 0 && AudioChannel !in held
    ensures Replay(CallEvents(PassCalls(a, f.decoded, f.reserve, rate, nch)), WithChannel(held, a.channel))
            == Some(WithChannel(held, Pass(a, f, rate, nch).channel))
  {
    var step := PassCalls(a, f.decoded, f.reserve, rate, nch);
    var acquired := if f.reserve >= 0 then [Acquire(AudioChannel)] else [];
    assert CallEvents([Output]) == [];
    if NeedsReserve(a, f.decoded) {
      var r := ChReserve(CDiv(f.decoded, 2 * nch), rate, nch, f.reserve);
      assert CallEvents([r, Output]) == acquired;
      assert Replay(acquired, held) == Some(WithChannel(held, f.reserve));
      if a.channel >= 0 {
        assert step == [ChRelease, r, Output];
        assert CallEvents(step) == [Release(AudioChannel)] + acquired;
        assert ([Release(AudioChannel)] + acquired)[1..] == acquired;
        assert WithChannel(held, a.channel) - {AudioChannel} == held;
      } else {
        assert step == [r, Output];
      }
    } else {
      assert step == [Output];
    }
  }

  /** Over the first `n` passes the loop's calls never reserve a held
      channel nor release a free one, and end holding the channel exactly
      when `channel >= 0`. */
  lemma {:induction false} ChannelBalance(frames: seq<Frame>, n: nat, rate: int, nch: int, held: set<Resource>)
    requires n <= |frames| && nch != 0 && AudioChannel !in held
    ensures var a := AudioAfter(frames, n, rate, nch);
      Replay(CallEvents(a.calls), held) == Some(WithChannel(held, a.channel))
  {
    if n > 0 {
      var a := AudioAfter(frames, n - 1, rate, nch);
      var f := frames[n - 1];
      ChannelBalance(frames, n - 1, rate, nch, held);
      var step := PassCalls(a, f.decoded, f.reserve, rate, nch);
      CallEventsAppend(a.calls, step);
      ReplayAppend(CallEvents(a.calls), CallEvents(step), held);
      PassBalance(a, f, rate, nch, held);
    }
  }


  /** The arguments of music_mp3_thread_end that say what to release. */
  datatype EndArgs = EndArgs(releaseAudio: bool, channel: int, releaseHandle: bool, handle: int,
                             termResource: bool, closeFile: bool, fd: int)

  /** What music_mp3_thread_end releases, in its order: the channel (only if
      one is held), the handle, the MP3 resource, the file. */
  function EndReleases(a: EndArgs): seq<Resource> {
    (if a.releaseAudio then ChannelReleases(a.channel) else [])
    + (if a.releaseHandle then [Mp3Handle] else [])
    + (if a.termResource then [Mp3Resource] else [])
    + (if a.closeFile then [File] else [])
  }

  /** music_mp3_thread_end releases each resource at most once, and a
      resource exactly when its flag asks for it (the channel only when one
      was reserved). */
  lemma EndReleasesExact(a: EndArgs)
    ensures var r := EndReleases(a);
      && Distinct(r)
      && (AudioChannel in r <==> a.releaseAudio && a.channel >= 0)
      && (Mp3Handle in r <==> a.releaseHandle)
      && (Mp3Resource in r <==> a.termResource)
      && (File in r <==> a.closeFile)
  {
    var tail := (if a.releaseHandle then [Mp3Handle] else [])
      + (if a.termResource then [Mp3Resource] else [])
      + (if a.closeFile then [File] else []);
    TailReleasesExact(a.releaseHandle, a.termResource, a.closeFile);
    if a.releaseAudio && a.channel >= 0 {
      assert EndReleases(a) == [AudioChannel] + tail;
      DistinctCons(AudioChannel, tail);
    } else {
      assert EndReleases(a) == tail;
    }
  }

  lemma DistinctCons(x: Resource, rs: seq<Resource>)
    requires Distinct(rs) && x !in rs
    ensures Distinct([x] + rs)
  {
    var t := [x] + rs;
    forall i, j | 0 <= i < j < |t| ensures t[i] != t[j] {
      assert t[j] == rs[j - 1];
      if i > 0 { assert t[i] == rs[i - 1]; }
    }
  }

  /** The handle, resource and file part of music_mp3_thread_end's releases. */
  lemma TailReleasesExact(handle: bool, resource: bool, file: bool)
    ensures var r := (if handle then [Mp3Handle] else [])
      + (if resource then [Mp3Resource] else [])
      + (if file then [File] else []);
      && Distinct(r) && AudioChannel !in r
      && (Mp3Handle in r <==> handle)
      && (Mp3Resource in r <==> resource)
      && (File in r <==> file)
  {
  }

  /** The channel music_mp3_thread_end releases for a given channel result. */
  function ChannelReleases(channel: int): seq<Resource> {
    if channel >= 0 then [AudioChannel] else []
  }

  function Acquires(rs: seq<Resource>): (es: seq<Event>)
    ensures |es| == |rs| && forall i :: 0 <= i < |rs| ==> es[i] == Acquire(rs[i])
  {
    seq(|rs|, i requires 0 <= i < |rs| => Acquire(rs[i]))
  }

  function ReleaseEvents(rs: seq<Resource>): (es: seq<Event>)
    ensures |es| == |rs| && forall i :: 0 <= i < |rs| ==> es[i] == Release(rs[i])
  {
    seq(|rs|, i requires 0 <= i < |rs| => Release(rs[i]))
  }

  function Reverse(rs: seq<Resource>): (r: seq<Resource>)
    ensures |r| == |rs| && forall i :: 0 <= i < |rs| ==> r[i] == rs[|rs| - 1 - i]
  {
    if rs == [] then [] else Reverse(rs[1..]) + [rs[0]]
  }

  predicate Distinct(rs: seq<Resource>) {
    forall i, j :: 0 <= i < j < |rs| ==> rs[i] != rs[j]
  }

  function Elems(rs: seq<Resource>): set<Resource> {
    set x | x in rs
  }

  /** Releasing in the reverse order of acquisition around a balanced middle
      part gives back exactly what was acquired: the trace never acquires a
      held resource nor releases one not held, and ends holding what it
      started with. */
  lemma {:induction false} NestedBalance(acq: seq<Resource>, mid: seq<Event>, held: set<Resource>)
    requires Distinct(acq) && held !! Elems(acq)
    requires Replay(mid, held + Elems(acq)) == Some(held + Elems(acq))
    ensures Replay(Acquires(acq) + mid + ReleaseEvents(Reverse(acq)), held) == Some(held)
  {
    if acq == [] {
      assert Elems(acq) == {};
      assert Acquires(acq) + mid + ReleaseEvents(Reverse(acq)) == mid;
      assert held + Elems(acq) == held;
    } else {
      var x, rest := acq[0], acq[1..];
      var h := held + {x};
      assert Elems(acq) == {x} + Elems(rest);
      assert x !in Elems(rest);
      assert h + Elems(rest) == held + Elems(acq);
      NestedBalance(rest, mid, h);
      var inner := Acquires(rest) + mid + ReleaseEvents(Reverse(rest));
      assert Acquires(acq) + mid + ReleaseEvents(Reverse(acq)) == [Acquire(x)] + (inner + [Release(x)]);
      ReplayAppend(inner, [Release(x)], h);
      assert ([Acquire(x)] + (inner + [Release(x)]))[1..] == inner + [Release(x)];
      assert h - {x} == held;
    }
  }

  /** A failed set-up releases what it acquired, in reverse order. */
  lemma UnwindBalanced(acq: seq<Resource>)
    requires Distinct(acq)
    ensures Replay(Acquires(acq) + ReleaseEvents(Reverse(acq)), {}) == Some({})
  {
    assert {} + Elems(acq) == Elems(acq);
    NestedBalance(acq, [], {});
    assert Acquires(acq) + [] + ReleaseEvents(Reverse(acq)) == Acquires(acq) + ReleaseEvents(Reverse(acq));
  }

  /** The decode loop's calls followed by music_mp3_thread_end's channel
      release leave the held resources as they were. */
  lemma LoopBalanced(frames: seq<Frame>, n: nat, rate: int, nch: int, held: set<Resource>)
    requires n <= |frames| && nch != 0 && AudioChannel !in held
    ensures var a := AudioAfter(frames, n, rate, nch);
      Replay(CallEvents(a.calls) + ReleaseEvents(ChannelReleases(a.channel)), held) == Some(held)
  {
    var a := AudioAfter(frames, n, rate, nch);
    ChannelBalance(frames, n, rate, nch, held);
    ReplayAppend(CallEvents(a.calls), ReleaseEvents(ChannelReleases(a.channel)), held);
    if a.channel >= 0 {
      assert ReleaseEvents(ChannelReleases(a.channel)) == [Release(AudioChannel)];
      assert held + {AudioChannel} - {AudioChannel} == held;
    }
  }

  /** A worker that reached the decode loop: its file, MP3 resource and
      handle, the loop's channel calls and the releases of
      music_mp3_thread_end balance out. */
  lemma SuccessBalanced(acq: seq<Resource>, frames: seq<Frame>, n: nat, rate: int, nch: int)
    requires acq == [File, Mp3Resource, Mp3Handle] && n <= |frames| && nch != 0
    ensures var a := AudioAfter(frames, n, rate, nch);
      Replay(Acquires(acq) + CallEvents(a.calls)
             + (ReleaseEvents(ChannelReleases(a.channel)) + ReleaseEvents(Reverse(acq))), {}) == Some({})
  {
    var a := AudioAfter(frames, n, rate, nch);
    var held := Elems(acq);
    assert held == {File, Mp3Resource, Mp3Handle};
    var mid := CallEvents(a.calls) + ReleaseEvents(ChannelReleases(a.channel));
    LoopBalanced(frames, n, rate, nch, held);
    assert {} + held == held;
    NestedBalance(acq, mid, {});
    assert Acquires(acq) + CallEvents(a.calls) + (ReleaseEvents(ChannelReleases(a.channel)) + ReleaseEvents(Reverse(acq)))
        == Acquires(acq) + mid + ReleaseEvents(Reverse(acq));
  }

  /** What the SDK answers to the worker: whether it got its argument, then
      sceIoOpen, sceMp3InitResource, sceMp3ReserveMp3Handle, the first stream
      fill, sceMp3Init, the sampling rate and channel count, and the passes of
      the decode loop. */
  datatype ThreadOracle = ThreadOracle(hasArg: bool, openFd: int, initResource: int, handle: int,
                                       fill: FillOracle, init: int, samplingRate: int, numChannels: int,
                                       frames: seq<Frame>)

  /** What sceKernelCreateThread (the thread id) and sceKernelStartThread
      return for one music_play. */
  datatype Launch = Launch(created: int, started: int)

  predicate Launched(l: Launch) {
    l.created >= 0 && l.started >= 0
  }

  /** The worker gets past its set-up to the decode loop. */
  predicate SetupSucceeds(o: ThreadOracle) {
    && o.hasArg && o.openFd >= 0 && o.initResource >= 0 && o.handle >= 0
    && FillStreamBuf(o.fill).code >= 0 && o.init >= 0
  }

  /** The file, the MP3 resource and the MP3 handle, in the order the
      worker acquires them. */
  const STREAM_RESOURCES: seq<Resource> := [File, Mp3Resource, Mp3Handle]

  /** What the worker holds when its set-up stops: nothing without an
      argument or an open file, then one more resource per step that
      succeeded. */
  function SetupAcquired(o: ThreadOracle): (acq: seq<Resource>)
    ensures |acq| <= 3 && acq == STREAM_RESOURCES[..|acq|]
  {
    if !o.hasArg || o.openFd < 0 then []
    else if o.initResource < 0 then [File]
    else if o.handle < 0 then [File, Mp3Resource]
    else STREAM_RESOURCES
  }

  /** The set-up's acquisitions, reversed. */
  lemma ReverseStream()
    ensures Reverse([File, Mp3Resource]) == [Mp3Resource, File]
    ensures Reverse(STREAM_RESOURCES) == [Mp3Handle, Mp3Resource, File]
  {
    assert Reverse([File]) == [File];
    assert [File, Mp3Resource][1..] == [Mp3Resource];
    assert STREAM_RESOURCES[1..] == [Mp3Resource, Mp3Handle];
    assert [Mp3Resource, Mp3Handle][1..] == [Mp3Handle];
  }

  /** What a run that played releases, with or without a reserved channel. */
  lemma ChannelThenStream(channel: int)
    ensures var r := ChannelReleases(channel) + Reverse(STREAM_RESOURCES);
      r == [Mp3Handle, Mp3Resource, File] || r == [AudioChannel, Mp3Handle, Mp3Resource, File]
  {
    ReverseStream();
  }

  lemma StreamResourcesDistinct(n: nat)
    requires n <= 3
    ensures Distinct(STREAM_RESOURCES[..n])
  {
  }

  /** A trace made of some acquisitions, a middle part and some releases
      begins with the acquisitions and ends with the releases. */
  lemma TraceEnds(acq: seq<Event>, mid: seq<Event>, rel: seq<Event>)
    ensures var t := acq + mid + rel;
      && |t| >= |acq| + |rel|
      && t[..|acq|] == acq
      && t[|t| - |rel|..] == rel
  {
    var t := acq + mid + rel;
    assert t[..|acq|] == acq;
    assert t[|t| - |rel|..] == rel;
  }

  /** A failed set-up whose music_mp3_thread_end releases what the set-up
      acquired, in reverse order: the trace is balanced, starts with the
      acquisitions and ends with the releases. */
  lemma FailedSetupBalanced(o: ThreadOracle, end: EndArgs)
    requires EndReleases(end) == Reverse(SetupAcquired(o))
    ensures var acq, rel := SetupAcquired(o), EndReleases(end);
      var t := Acquires(acq) + ReleaseEvents(rel);
      && Replay(t, {}) == Some({})
      && |t| >= |acq| + |rel|
      && t[..|acq|] == Acquires(acq)
      && t[|t| - |rel|..] == ReleaseEvents(rel)
  {
    var acq := SetupAcquired(o);
    StreamResourcesDistinct(|acq|);
    UnwindBalanced(acq);
    TraceEnds(Acquires(acq), [], ReleaseEvents(EndReleases(end)));
    assert Acquires(acq) + [] + ReleaseEvents(EndReleases(end)) == Acquires(acq) + ReleaseEvents(EndReleases(end));
  }

  /** music_mp3_player_thread up to its call of music_mp3_thread_end:
      `trace` is what it acquires and releases, ending with what
      music_mp3_thread_end releases for it, and `end` the arguments it passes
      to music_mp3_thread_end. On every failed set-up those arguments release
      exactly what the earlier steps acquired, last acquired first, and never
      the audio channel; a run that reached the decode loop releases the
      channel it holds and then the handle, the MP3 resource and the file. A
      channel count of 0 is a division by zero in the source and is
      excluded. */
  method WorkerRun(o: ThreadOracle, playMusic: bool) returns (r: int, trace: seq<Event>, end: EndArgs)
    requires SetupSucceeds(o) ==> o.numChannels != 0
    requires SetupSucceeds(o) && playMusic ==> FirstStop(o.frames) < |o.frames|
    ensures r == 0 <==> SetupSucceeds(o)
    ensures r == -1 <==> !SetupSucceeds(o)
    ensures Replay(trace, {}) == Some({})
    ensures var acq, rel := SetupAcquired(o), EndReleases(end);
      && |trace| >= |acq| + |rel|
      && trace[..|acq|] == Acquires(acq)
      && trace[|trace| - |rel|..] == ReleaseEvents(rel)
    ensures !SetupSucceeds(o) ==>
              && !end.releaseAudio
              && EndReleases(end) == Reverse(SetupAcquired(o))
              && trace == Acquires(SetupAcquired(o)) + ReleaseEvents(EndReleases(end))
    ensures SetupSucceeds(o) ==>
              && trace == StreamTrace(o, playMusic) && end.channel == StreamAudio(o, playMusic).channel
              && SetupAcquired(o) == STREAM_RESOURCES
              && end == EndArgs(true, end.channel, true, o.handle, true, true, o.openFd)
              && EndReleases(end) == ChannelReleases(end.channel) + Reverse(STREAM_RESOURCES)
  {
    if !o.hasArg || o.openFd < 0 {
      end := EndArgs(false, 0, false, 0, false, false, 0);
      assert EndReleases(end) == [] == Reverse(SetupAcquired(o));
      trace := Acquires(SetupAcquired(o)) + ReleaseEvents(EndReleases(end));
      FailedSetupBalanced(o, end);
      return -1, trace, end;
    }
    var fd := o.openFd;
    if o.initResource < 0 {
      end := EndArgs(false, 0, false, 0, false, true, fd);
      assert EndReleases(end) == [File] == Reverse(SetupAcquired(o));
      trace := Acquires(SetupAcquired(o)) + ReleaseEvents(EndReleases(end));
      FailedSetupBalanced(o, end);
      return -1, trace, end;
    }
    var handle := o.handle;
    if handle < 0 {
      end := EndArgs(false, 0, false, 0, true, true, fd);
      ReverseStream();
      assert EndReleases(end) == [Mp3Resource, File] == Reverse(SetupAcquired(o));
      trace := Acquires(SetupAcquired(o)) + ReleaseEvents(EndReleases(end));
      FailedSetupBalanced(o, end);
      return -1, trace, end;
    }
    if FillStreamBuf(o.fill).code < 0 || o.init < 0 {
      end := EndArgs(false, 0, true, handle, true, true, fd);
      ReverseStream();
      assert EndReleases(end) == [Mp3Handle, Mp3Resource, File] == Reverse(SetupAcquired(o));
      trace := Acquires(SetupAcquired(o)) + ReleaseEvents(EndReleases(end));
      FailedSetupBalanced(o, end);
      return -1, trace, end;
    }
    trace, end := PlayStream(o, playMusic, handle, fd);
    r := 0;
  }

  /** The number of passes that play audio in the decode loop for `frames`:
      none when music is off, otherwise up to the first pass that ends the
      loop, that pass included when it decoded something. */
  function StreamPasses(frames: seq<Frame>, playMusic: bool): (n: nat)
    requires playMusic ==> FirstStop(frames) < |frames|
    ensures n <= |frames|
  {
    if !playMusic then 0
    else
      var k := FirstStop(frames);
      if frames[k].decoded <= 0 then k else k + 1
  }

  /** The audio variables the decode loop leaves for a worker whose set-up
      succeeded. */
  function StreamAudio(o: ThreadOracle, playMusic: bool): AudioState
    requires o.numChannels != 0 && (playMusic ==> FirstStop(o.frames) < |o.frames|)
  {
    AudioAfter(o.frames, StreamPasses(o.frames, playMusic), o.samplingRate, o.numChannels)
  }

  /** The trace of a worker whose set-up succeeded: the file, the MP3
      resource and the handle are acquired, the decode loop makes its audio
      calls, and music_mp3_thread_end releases the channel (when one is
      held), the handle, the MP3 resource and the file. */
  function StreamTrace(o: ThreadOracle, playMusic: bool): seq<Event>
    requires o.numChannels != 0 && (playMusic ==> FirstStop(o.frames) < |o.frames|)
  {
    var a := StreamAudio(o, playMusic);
    Acquires(STREAM_RESOURCES) + CallEvents(a.calls)
    + ReleaseEvents(ChannelReleases(a.channel) + Reverse(STREAM_RESOURCES))
  }

  /** A worker whose set-up succeeded ends holding nothing. */
  lemma StreamTraceBalanced(o: ThreadOracle, playMusic: bool)
    requires o.numChannels != 0 && (playMusic ==> FirstStop(o.frames) < |o.frames|)
    ensures Replay(StreamTrace(o, playMusic), {}) == Some({})
  {
    var n := StreamPasses(o.frames, playMusic);
    var a := StreamAudio(o, playMusic);
    assert ReleaseEvents(ChannelReleases(a.channel) + Reverse(STREAM_RESOURCES))
           == ReleaseEvents(ChannelReleases(a.channel)) + ReleaseEvents(Reverse(STREAM_RESOURCES));
    SuccessBalanced(STREAM_RESOURCES, o.frames, n, o.samplingRate, o.numChannels);
  }

  /** The rest of music_mp3_player_thread once its set-up has succeeded:
      the decode loop, then music_mp3_thread_end with every flag set. The
      trace is the stream acquisitions, the loop's audio calls and then the
      releases that call makes, and it is balanced. */
  method PlayStream(o: ThreadOracle, playMusic: bool, handle: int, fd: int)
    returns (trace: seq<Event>, end: EndArgs)
    requires SetupSucceeds(o) && handle == o.handle && fd == o.openFd
    requires o.numChannels != 0
    requires playMusic ==> FirstStop(o.frames) < |o.frames|
    ensures trace == StreamTrace(o, playMusic) && end.channel == StreamAudio(o, playMusic).channel
    ensures Replay(trace, {}) == Some({})
    ensures end == EndArgs(true, end.channel, true, handle, true, true, fd)
    ensures EndReleases(end) == ChannelReleases(end.channel) + Reverse(STREAM_RESOURCES)
    ensures var rel := EndReleases(end);
      && |trace| >= |STREAM_RESOURCES| + |rel|
      && trace[..|STREAM_RESOURCES|] == Acquires(STREAM_RESOURCES)
      && trace[|trace| - |rel|..] == ReleaseEvents(rel)
  {
    var n, exit, channel, calls := DecodeLoop(o.frames, playMusic, o.samplingRate, o.numChannels);
    assert n == StreamPasses(o.frames, playMusic);
    end := EndArgs(true, channel, true, handle, true, true, fd);
    trace := Acquires(STREAM_RESOURCES) + CallEvents(calls) + ReleaseEvents(EndReleases(end));
    ReverseStream();
    assert EndReleases(end) == ChannelReleases(channel) + Reverse(STREAM_RESOURCES);
    StreamTraceBalanced(o, playMusic);
    TraceEnds(Acquires(STREAM_RESOURCES), CallEvents(calls), ReleaseEvents(EndReleases(end)));
  }

  // ---------------------------------------------------------------------------
  // The player state
  // ---------------------------------------------------------------------------

  /** A snapshot of the player's state, as the controls see it. */
  datatype PlayerView = PlayerView(songIndex: int, threadPlaying: bool, order: seq<int>, threadId: int,
                                   workerTrack: Option<string>, lastPicked: Option<string>)

  /** The globals of src/music.c (current_playlist, current_playlist_order,
      current_song_index, music_thread_playing, player_skipped_song,
      mp3_play_thid) together with app_play_music, which src/main.c owns and
      the player reads and clears. `workerTrack` is the path the most recently
      started worker thread was given. */
  class MusicPlayer {
    const playlist: Playlist
    const order: array<int>
    var songIndex: int
    var threadPlaying: bool
    var skippedSong: bool
    var playMusic: bool
    var threadId: int
    var workerTrack: Option<string>

    ghost predicate Valid()
      reads this, playlist, playlist.filePath, order
    {
      && playlist.Valid()
      && order.Length == MUSIC_PLAYLIST_SIZE
      && songIndex >= 0
      && (forall k :: 0 <= k < order.Length ==> 0 <= order[k] < MUSIC_PLAYLIST_SIZE)
    }

    /** The order's first `size` entries are a permutation of [0, size). */
    ghost predicate Shuffled()
      reads this, playlist, playlist.filePath, order
      requires Valid()
    {
      IsPermutationPrefix(order[..], playlist.size)
    }

    /** The globals at start-up: everything zero, no thread, music off. */
    constructor ()
      ensures Valid() && fresh(playlist) && fresh(playlist.filePath) && fresh(order)
      ensures playlist.Tracks() == [] && Shuffled()
      ensures songIndex == 0 && !threadPlaying && !skippedSong && !playMusic && threadId == -1
    {
      playlist := new Playlist();
      order := new int[MUSIC_PLAYLIST_SIZE](_ => 0);
      songIndex := 0;
      threadPlaying := false;
      skippedSong := false;
      playMusic := false;
      threadId := -1;
      workerTrack := None;
    }

    /** music_shuffle_playlist: fills order[0, size) with 0, ..., size - 1,
        then swaps each slot i from size - 1 down to 1 with a slot drawn by
        get_rand_range_uint(0, i). Whatever rand() returns, the result is a
        permutation, and the slots from size on are not touched. */
    method Shuffle()
      requires Valid()
      modifies order
      ensures Valid() && Shuffled()
      ensures order[playlist.size..] == old(order[playlist.size..])
    {
      var size := playlist.size;
      FillOrder();
      var i := size as int - 1;
      while i > 0
        invariant -1 <= i < size
        invariant Valid() && Shuffled()
        invariant order[size..] == old(order[size..])
      {
        var roll: int :| 0 <= roll < UINT_MODULUS;
        var j := RandRangeUint(roll, 0, i);
        SwapOrder(i, j);
        i := i - 1;
      }
    }

    /** The first loop of music_shuffle_playlist: order[k] := k below size. */
    method FillOrder()
      requires Valid()
      modifies order
      ensures Valid()
      ensures order[..playlist.size] == Iota(playlist.size)
      ensures order[playlist.size..] == old(order[playlist.size..])
    {
      var size := playlist.size;
      var i := 0;
      while i < size
        invariant 0 <= i <= size
        invariant forall k :: 0 <= k < i ==> order[k] == k
        invariant forall k :: size <= k < order.Length ==> order[k] == old(order[k])
        invariant forall k :: 0 <= k < order.Length ==> 0 <= order[k] < MUSIC_PLAYLIST_SIZE
      {
        order[i] := i;
        i := i + 1;
      }
    }

    /** The swap in the second loop of music_shuffle_playlist, through a
        temporary. */
    method SwapOrder(i: nat, j: nat)
      requires Valid() && i < playlist.size && j < playlist.size
      modifies order
      ensures Valid()
      ensures order[..] == old(order[..])[i := old(order[j])][j := old(order[i])]
      ensures multiset(order[..playlist.size]) == multiset(old(order[..playlist.size]))
      ensures order[playlist.size..] == old(order[playlist.size..])
    {
      ghost var before := order[..playlist.size];
      var temp := order[i];
      order[i] := order[j];
      order[j] := temp;
      assert order[..playlist.size] == before[i := before[j]][j := before[i]];
      SwapKeepsElements(before, i, j);
    }

    /** music_stop: clears music_thread_playing (waiting for the worker to
        end is left out). */
    method Stop() returns (r: int)
      modifies this
      ensures r == 0 && !threadPlaying
      ensures songIndex == old(songIndex) && skippedSong == old(skippedSong) && playMusic == old(playMusic)
      ensures threadId == old(threadId) && workerTrack == old(workerTrack)
    {
      threadPlaying := false;
      r := 0;
    }

    /** music_play: refuses a NULL path or an empty playlist; otherwise stops
        a playing worker, records the id sceKernelCreateThread gives
        (`launch.created`) and starts the worker on `path`; 0 exactly when
        both SDK calls succeed. */
    method Play(path: Option<string>, launch: Launch) returns (r: int)
      requires Valid()
      modifies this
      ensures Valid()
      ensures songIndex == old(songIndex) && skippedSong == old(skippedSong) && playMusic == old(playMusic)
      ensures r == 0 || r == -1
      ensures r == 0 <==> path.Some? && playlist.size > 0 && Launched(launch)
      ensures path.None? || playlist.size == 0 ==>
                threadPlaying == old(threadPlaying) && threadId == old(threadId)
      ensures path.Some? && playlist.size > 0 ==> !threadPlaying && threadId == launch.created
      ensures workerTrack == (if r == 0 then path else old(workerTrack))
    {
      if path.None? || playlist.size <= 0 {
        return -1;
      }
      if threadPlaying {
        var _ := Stop();
      }
      threadId := launch.created;
      if threadId < 0 {
        return -1;
      }
      if launch.started < 0 {
        return -1;
      }
      workerTrack := path;
      r := 0;
    }

    /** What the controls can observe of the player: the cursor, the
        order, the worker fields and the path last handed to music_play. */
    ghost function View(): PlayerView
      reads this, playlist, playlist.filePath, order
    {
      PlayerView(songIndex, threadPlaying, order[..], threadId, workerTrack, LastPicked())
    }

    /** The path at the order slot just before the cursor: after
        music_play_random, the path it handed to music_play. */
    function LastPicked(): Option<string>
      reads this, playlist, playlist.filePath, order
    {
      if 0 < songIndex <= order.Length && 0 <= order[songIndex - 1] < playlist.filePath.Length
      then playlist.filePath[order[songIndex - 1]] else None
    }

    /** music_play_random: on an empty playlist nothing happens. Otherwise
        the cursor wraps to 0 with a reshuffle once it has reached the end,
        steps back by two (clamped at 0) when `back`, plays the path the order
        names at the cursor and moves past it. `picked` is the slot of the
        playlist handed to music_play, and `launch` what the thread calls of
        that music_play return. */
    method PlayRandom(back: bool, launch: Launch) returns (picked: Option<nat>)
      requires Valid()
      modifies this, order
      ensures Valid()
      ensures skippedSong == old(skippedSong) && playMusic == old(playMusic)
      ensures !old(threadPlaying) ==> !threadPlaying
      ensures playlist.size == 0 ==>
                && picked.None? && songIndex == old(songIndex) && order[..] == old(order[..])
                && threadPlaying == old(threadPlaying) && threadId == old(threadId)
                && workerTrack == old(workerTrack)
      ensures playlist.size > 0 ==>
                var s := CursorStep(old(songIndex), playlist.size, back);
                && songIndex == s.next
                && picked == Some(order[s.pos])
                && (s.reshuffle ==> Shuffled())
                && (!s.reshuffle ==> order[..] == old(order[..]))
                && (s.reshuffle || old(Shuffled()) ==> picked.value < playlist.size)
                && LastPicked() == playlist.filePath[picked.value]
                && PlayedBy(LastPicked(), launch, old(threadPlaying), old(threadId), old(workerTrack))
    {
      if playlist.size <= 0 {
        return None;
      }
      ghost var step := CursorStep(songIndex, playlist.size, back);
      ghost var wasShuffled := Shuffled();
      var pos := MoveCursor(back);
      var slot := order[pos];
      picked := Some(slot);
      if step.reshuffle || wasShuffled {
        ShuffledSlotInRange(pos);
      }
      var music := playlist.filePath[slot];
      var _ := Play(music, launch);
      songIndex := songIndex + 1;
    }

    /** The worker state after music_play was handed `path` on a non-empty
        playlist: a NULL path changes nothing; otherwise no worker is left
        playing, the thread id is the one created, and the worker plays
        `path` exactly when creating and starting it succeeded. */
    ghost predicate PlayedBy(path: Option<string>, launch: Launch,
                             wasPlaying: bool, oldId: int, oldTrack: Option<string>)
      reads this
    {
      if path.None? then threadPlaying == wasPlaying && threadId == oldId && workerTrack == oldTrack
      else
        && !threadPlaying && threadId == launch.created
        && workerTrack == (if Launched(launch) then path else oldTrack)
    }

    /** The cursor handling of music_play_random before it plays: wrap to 0
        and reshuffle at the end of a round, then step back by two (clamped
        at 0) when `back`. */
    method MoveCursor(back: bool) returns (pos: nat)
      requires Valid() && playlist.size > 0
      modifies this, order
      ensures Valid()
      ensures var s := CursorStep(old(songIndex), playlist.size, back);
        && pos == s.pos && songIndex == pos
        && (s.reshuffle ==> Shuffled())
        && (!s.reshuffle ==> order[..] == old(order[..]))
      ensures threadPlaying == old(threadPlaying) && skippedSong == old(skippedSong) && playMusic == old(playMusic)
      ensures threadId == old(threadId) && workerTrack == old(workerTrack)
    {
      if songIndex >= playlist.size {
        songIndex := 0;
        Shuffle();
      }
      if back {
        songIndex := songIndex - 2;
        if songIndex < 0 {
          songIndex := 0;
        }
      }
      pos := songIndex;
    }

    /** In a shuffled order every slot below the playlist size names a
        track. */
    lemma ShuffledSlotInRange(pos: nat)
      requires Valid() && Shuffled() && pos < playlist.size
      ensures order[pos] < playlist.size
    {
      PermutationFacts(order[..playlist.size], playlist.size);
      assert order[..playlist.size][pos] == order[pos];
    }

    /** music_mp3_thread_end after the releases: clears
        music_thread_playing; if music is on and the user did not skip, the
        next track starts (auto-advance), otherwise a skip flag is consumed.
        Exiting the thread is left out. */
    method ThreadEnd(a: EndArgs, launch: Launch) returns (released: seq<Resource>)
      requires Valid()
      modifies this, order
      ensures Valid()
      ensures released == EndReleases(a)
      ensures !threadPlaying && !skippedSong && playMusic == old(playMusic)
      ensures old(playMusic) && !old(skippedSong) && playlist.size > 0 ==>
                var s := CursorStep(old(songIndex), playlist.size, false);
                && songIndex == s.next
                && (s.reshuffle ==> Shuffled())
                && (!s.reshuffle ==> order[..] == old(order[..]))
                && PlayedBy(LastPicked(), launch, false, old(threadId), old(workerTrack))
      ensures old(Shuffled()) ==> Shuffled()
      ensures !(old(playMusic) && !old(skippedSong)) || playlist.size == 0 ==>
                && songIndex == old(songIndex) && order[..] == old(order[..])
                && threadId == old(threadId) && workerTrack == old(workerTrack)
    {
      released := EndReleases(a);
      threadPlaying := false;
      if playMusic && !skippedSong {
        var _ := PlayRandom(false, launch);
      } else if skippedSong {
        skippedSong := false;
      }
    }

    /** A whole run of the worker thread: music_mp3_player_thread followed by
        its music_mp3_thread_end. Its trace acquires and releases every
        resource in a balanced way on every path; `released` is what the
        ending call released, and the trace ends with exactly those releases.
        A failed set-up releases what it acquired, last first; a run that
        played releases the channel it may hold, then the handle, the MP3
        resource and the file. */
    method PlayerThread(o: ThreadOracle, launch: Launch) returns (r: int, trace: seq<Event>, released: seq<Resource>)
      requires Valid()
      requires SetupSucceeds(o) ==> o.numChannels != 0
      requires SetupSucceeds(o) && playMusic ==> FirstStop(o.frames) < |o.frames|
      modifies this, order
      ensures Valid()
      ensures r == 0 <==> SetupSucceeds(o)
      ensures Replay(trace, {}) == Some({})
      ensures var acq := SetupAcquired(o);
        && |trace| >= |acq| + |released|
        && trace[..|acq|] == Acquires(acq)
        && trace[|trace| - |released|..] == ReleaseEvents(released)
      ensures !SetupSucceeds(o) ==>
                && released == Reverse(SetupAcquired(o))
                && trace == Acquires(SetupAcquired(o)) + ReleaseEvents(released)
      ensures SetupSucceeds(o) ==>
                && trace == StreamTrace(o, old(playMusic))
                && released == ChannelReleases(StreamAudio(o, old(playMusic)).channel) + [Mp3Handle, Mp3Resource, File]
      ensures !threadPlaying && !skippedSong && playMusic == old(playMusic)
      ensures old(playMusic) && !old(skippedSong) && playlist.size > 0 ==>
                var s := CursorStep(old(songIndex), playlist.size, false);
                && songIndex == s.next
                && (s.reshuffle ==> Shuffled())
                && (!s.reshuffle ==> order[..] == old(order[..]))
                && PlayedBy(LastPicked(), launch, false, old(threadId), old(workerTrack))
      ensures old(Shuffled()) ==> Shuffled()
      ensures !(old(playMusic) && !old(skippedSong)) || playlist.size == 0 ==>
                && songIndex == old(songIndex) && order[..] == old(order[..])
                && threadId == old(threadId) && workerTrack == old(workerTrack)
    {
      var end;
      r, trace, end := WorkerRun(o, playMusic);
      ChannelThenStream(end.channel);
      released := ThreadEnd(end, launch);
    }

    /** music_init: scans the music folder (`dirExists` is dir_exists,
        `dirFd` what sceIoDopen returns, `entries` the names sceIoDread
        returns), offers each ".mp3" entry to the playlist, then loads the
        modules and shuffles. The suffix test is the corrected EndsWith. */
    method Init(dirExists: bool, dirFd: int, entries: seq<string>, mallocOk: seq<bool>,
                avcodecLoad: int, mp3Load: int) returns (r: int)
      requires Valid() && |mallocOk| == |entries|
      modifies playlist, playlist.filePath, order
      ensures Valid()
      ensures !dirExists || dirFd < 0 ==> r == -1 && playlist.Tracks() == old(playlist.Tracks())
      ensures dirExists && dirFd >= 0 ==>
                playlist.Tracks() == ScanEntries(old(playlist.Tracks()), entries, mallocOk)
      ensures r == 0 <==> dirExists && dirFd >= 0 && playlist.size > 0 && InitModules(avcodecLoad, mp3Load) == 0
      ensures r == 0 ==> Shuffled()
      ensures r != 0 ==> order[..] == old(order[..])
    {
      if !dirExists || dirFd < 0 {
        return -1;
      }
      ghost var start := playlist.Tracks();
      var i := 0;
      while i < |entries|
        invariant 0 <= i <= |entries|
        invariant Valid()
        invariant order[..] == old(order[..])
        invariant ScanEntries(playlist.Tracks(), entries[i..], mallocOk[i..]) == ScanEntries(start, entries, mallocOk)
      {
        assert entries[i..][1..] == entries[i + 1..] && mallocOk[i..][1..] == mallocOk[i + 1..];
        if EndsWith(entries[i], MP3_SUFFIX) {
          playlist.Append(Some(entries[i]), mallocOk[i]);
        }
        i := i + 1;
      }
      if playlist.size <= 0 {
        return -1;
      }
      if InitModules(avcodecLoad, mp3Load) < 0 {
        return -1;
      }
      Shuffle();
      r := 0;
    }

    /** music_end: turns music off, unloads the modules and empties the
        playlist. */
    method End() returns (r: int)
      requires Valid()
      modifies this, playlist, playlist.filePath
      ensures Valid() && r == 0
      ensures !playMusic && playlist.size == 0 && playlist.Tracks() == [] && Shuffled()
      ensures forall k :: 0 <= k < playlist.filePath.Length ==> playlist.filePath[k].None?
      ensures songIndex == old(songIndex) && threadPlaying == old(threadPlaying) && skippedSong == old(skippedSong)
      ensures threadId == old(threadId) && workerTrack == old(workerTrack)
    {
      playMusic := false;
      playlist.Clear();
      r := 0;
    }
  }
}
