/** The application's error codes. They are the negated positions of the
    matching entries of the error table in src/error.c. */
module ErrorCodes {
  const ERROR_SETUP_CALLBACKS: int := -1
  const ERROR_TEXTURES_NOT_FOUND: int := -2
  const ERROR_ALLOCATING_TEXTURES: int := -3
  const ERROR_GETTING_TIME_RTC: int := -4
  const ERROR_UNKNOWN: int := -5
}

/** The error screen of src/error.c: the table of known errors and
    app_error_display, which releases the textures and the music before it
    shows the entry an error code selects. */
module Errors {
  import opened Utils
  import opened ErrorCodes
  import opened Tex
  import opened Music

  /** An app_error entry: the code shown as "0x%08X" and the name (None for
      the empty first entry, whose name pointer is NULL). The descriptions
      are left out. */
  datatype AppError = AppError(id: nat, name: Option<string>)

  /** The id an error code is shown with: `0x80000000 | -code`. The
      negated code is below 2^31, so bit 31 is clear in it and the OR adds
      0x80000000. */
  function ErrorId(code: int): nat
    requires -0x8000_0000 < code <= 0
  {
    0x8000_0000 + -code
  }

  /** app_errors: an empty entry, then one entry per code in the order of the
      codes, so entry k belongs to code -k. */
  const APP_ERRORS: seq<AppError> := [
    AppError(0, None),
    AppError(ErrorId(ERROR_SETUP_CALLBACKS), Some("ERROR_SETUP_CALLBACKS")),
    AppError(ErrorId(ERROR_TEXTURES_NOT_FOUND), Some("ERROR_TEXTURES_NOT_FOUND")),
    AppError(ErrorId(ERROR_ALLOCATING_TEXTURES), Some("ERROR_ALLOCATING_TEXTURES")),
    AppError(ErrorId(ERROR_GETTING_TIME_RTC), Some("ERROR_GETTING_TIME_RTC")),
    AppError(ErrorId(ERROR_UNKNOWN), Some("ERROR_UNKNOWN"))
  ]

  /** The entry app_error_display selects: entry -err when that is a position
      of the table, the last entry (ERROR_UNKNOWN) otherwise. */
  function ErrorIndex(err: int): (i: nat)
    ensures i < |APP_ERRORS|
    ensures 0 <= -err < |APP_ERRORS| ==> i == -err
    ensures !(0 <= -err < |APP_ERRORS|) ==> i == |APP_ERRORS| - 1
  {
    if -err < 0 || -err >= |APP_ERRORS| then |APP_ERRORS| - 1 else -err
  }

  /** The code an id shown on screen stands for. */
  function CodeOfId(id: nat): int {
    if id >= 0x8000_0000 then -(id - 0x8000_0000) else 0
  }

  /** Every defined code selects its own entry, which shows the code's id;
      the id gives the code back. */
  lemma ErrorEntryRoundTrip(code: int)
    requires ERROR_UNKNOWN <= code <= ERROR_SETUP_CALLBACKS
    ensures APP_ERRORS[ErrorIndex(code)].id == 0x8000_0000 - code
    ensures CodeOfId(APP_ERRORS[ErrorIndex(code)].id) == code
    ensures APP_ERRORS[ErrorIndex(code)].name.Some?
  {
  }

  /** The entries have distinct ids, so the screen identifies the error. */
  lemma ErrorIdsDistinct()
    ensures forall i, j :: 0 <= i < j < |APP_ERRORS| ==> APP_ERRORS[i].id != APP_ERRORS[j].id
  {
  }

  /** A positive code or one past the table falls back to ERROR_UNKNOWN's
      entry; code 0 selects the empty entry. */
  lemma OutOfTableIsUnknown(err: int)
    ensures (err > 0 || err < ERROR_UNKNOWN) ==> APP_ERRORS[ErrorIndex(err)] == APP_ERRORS[-ERROR_UNKNOWN]
    ensures err == 0 ==> APP_ERRORS[ErrorIndex(err)] == AppError(0, None)
  {
  }

  /** app_error_display up to its display loop: frees the textures, ends the
      music (music off, playlist emptied) and selects the entry to show.
      The loop that waits for SELECT and exits the game is left out: the
      function never returns to its caller. */
  method AppErrorDisplay(err: int, textures: ClockTextures, music: MusicPlayer) returns (shown: AppError)
    requires textures.Valid() && music.Valid()
    modifies textures.tex, music, music.playlist, music.playlist.filePath
    ensures textures.Valid() && music.Valid()
    ensures forall k :: 0 <= k < T_COUNT ==> textures.tex[k] == None
    ensures !music.playMusic && music.playlist.Tracks() == [] && music.Shuffled()
    ensures music.songIndex == old(music.songIndex) && music.threadPlaying == old(music.threadPlaying)
    ensures music.skippedSong == old(music.skippedSong) && music.order[..] == old(music.order[..])
    ensures shown == APP_ERRORS[ErrorIndex(err)]
  {
    textures.Free();
    var _ := music.End();
    var index := if -err < 0 || -err >= |APP_ERRORS| then |APP_ERRORS| - 1 else -err;
    shown := APP_ERRORS[index];
  }
}
