# Snake-and-Ladder game rules and sound-loader decisions, in Dafny

This project models the two pieces of pure decision logic in a small FLTK
Snake-and-Ladder desktop game, and proves properties of them.

1. **The game rules** (`snake.cpp`). The board is a 100-square table.
   It is the identity except for six ladders and six snakes. The squares are
   laid out boustrophedon: rows run bottom to top and alternate direction.
   Two players, Red (player A) and Green (player B), take turns. Each mouse
   push rolls the dice and moves the current player. A roll that would pass
   square 100 leaves the player in place. Otherwise the player moves to the
   destination of `pos + roll`. Reaching square 100 wins and freezes the game.
   The scoreboard message depends on whether a ladder or a snake was taken.
   - `snake_board.dfy` (module `SnakeBoard`) holds the position table,
     `getDestination`, the layout loop and the pixel position of a piece.
   - `snake_game.dfy` (module `SnakeGame`) holds the game state
     `(posA, posB, turn, gameDone, message)` and the event handler as a pure
     step function `Handle(game, event, roll)`.
2. **The sound loader's format decisions** (`SoundFX.cpp`). Every
   libsndfile and OpenAL query is an input here. That covers the file info,
   extension presence, the WAVE `fmt ` chunk, the ambisonic flag and the
   read's return value. What remains is the choice of sample format (Int16,
   Float, IMA4, MSADPCM). Then comes the block alignment read from the
   WAVEFORMATEX `nBlockAlign` field and converted, with a round-trip check.
   Then the choice of OpenAL buffer format, and the `INT_MAX` guard on the
   buffer size.
   - `sound_formats.dfy` (module `SoundFormats`) holds the listed OpenAL
     formats and `FormatName`.
   - `sound_load.dfy` (module `SoundLoad`) holds the `LoadSound` decisions.
     They are split at the read into `PlanLoad` (everything before it) and
     `FinishLoad` (everything after it).

C's truncating `/` is written out as `TDiv`. It matters for the IMA4
formula `(bba/ch - 4)/4` when `bba/ch < 4`. The 8-bit `fmt ` chunk bytes are
a `byte` newtype. `fmtbuf[12] | (fmtbuf[13] << 8)` is written as
`b12 + 256 * b13`, which is the same value because the two bytes' bits do
not overlap.

## Model

| member | source | states |
|---|---|---|
| SnakeBoard.PositionMap | snake.cpp:353-370 | The table has 100 entries. A ladder foot maps to the ladder's top and a snake head to the snake's tail (0-based). Every other square maps to itself. |
| SnakeBoard.GetDestination | snake.cpp:311-314 | The destination of any square in 1..100 is itself a resting square in 1..100. A ladder strictly raises the position and a snake strictly lowers it. Every other square is kept. |
| SnakeBoard.RedirectedSquares | snake.cpp:359-370 | The squares whose destination differs from themselves are exactly the six ladder feet and the six snake heads. |
| SnakeBoard.HomeOnlyFromHome | snake.cpp:359-370 | Square 100 maps to itself and no redirect leads to 100. So a destination is 100 exactly when the square is 100. |
| SnakeBoard.DestinationIdempotent | snake.cpp:359-370 | No redirect lands on another redirect, so applying getDestination twice is the same as applying it once. |
| SnakeBoard.EmbedLayout | snake.cpp:371-390 | The nested layout loops, with the alternating `reverse` flag, produce exactly the closed-form layout: 100 squares, square n stored at index n-1. |
| SnakeBoard.CellOnGrid | snake.cpp:379-386 | Every square carries its own number and sits at `BORDER + k*SQUARE_SIZE` in x and in y, with k in 0..9. |
| SnakeBoard.ConsecutiveSquaresAdjacent | snake.cpp:373-390 | Consecutive squares are grid neighbours. Within a row they step right in rows 0, 2, ... (from the bottom) and left in rows 1, 3, .... After the 10th square of a row the next square is directly above. |
| SnakeBoard.SquareAtRoundTrip | snake.cpp:371-390 | Every grid cell (column, screen row) holds a board square, so the layout covers the whole grid. |
| SnakeBoard.CellRoundTrip | snake.cpp:371-390 | A square's own grid place names it back, so the layout is one-to-one. |
| SnakeBoard.CellInjective | snake.cpp:371-390 | No two board squares share a screen position. |
| SnakeBoard.PixelCoordinates | snake.cpp:316-322 | A piece at `pos` is drawn as a box strictly inside the screen square of `getDestination(pos)`. |
| SnakeBoard.PixelBoxOfDestination | snake.cpp:316-322 | The piece box depends on `pos` only through its destination: the destination square's corner plus 5, with size `SQUARE_SIZE - 20`. |
| SnakeBoard.SamePixelsIffSameDestination | snake.cpp:316-322 | Two pieces get the same pixel position exactly when their positions have the same destination. |
| SnakeGame.NewGame | snake.cpp:505-525 | A new game has both players on square 1, Red (A) to move, the game not done, and the state valid. |
| SnakeGame.Handle | snake.cpp:528-589 | With the game done or an event other than a push, nothing changes and the event is not consumed. On an overshoot, positions and `gameDone` are unchanged and the message is the plain dice roll. Otherwise the mover lands on the target's ladder top, snake tail or the target itself, and the other player never moves. `gameDone` becomes true exactly when `pos + roll == 100`, with the mover's congratulations. Otherwise the message is great luck for a ladder, bad luck for a snake, or the plain roll. Every handled push flips `turn`. |
| SnakeGame.HandlePreservesValid | snake.cpp:528-589 | Handling any event keeps the invariant. Both pieces stay on resting squares. The game is done exactly when one piece is on 100, never both. A finished game shows the winner's congratulations. |
| SnakeGame.PlayPreservesValid | snake.cpp:528-589 | Every state reached from a valid state by pushes is valid. |
| SnakeGame.FinishedGameIsFrozen | snake.cpp:530 | Once `gameDone` holds, any further sequence of pushes leaves the state unchanged. |
| SnakeGame.PlayersAlternate | snake.cpp:582-584 | The players whose turn is taken strictly alternate (an overshooting push takes a turn without moving the piece): the k-th turn is taken by the starting player for even k and by the other for odd k. |
| SnakeGame.RedStarts | snake.cpp:506 | From a new game, Red takes the even-numbered turns and Green the odd ones. |
| SnakeGame.TurnParity | snake.cpp:582 | While the game is not done, every push takes a turn, and `turn` after n pushes is the starting value flipped n times. |
| SnakeGame.PlayersOverlap | snake.cpp:623-627 | The same-square test for placing the pieces holds exactly when both destinations agree. In a valid game that means exactly when both players are on the same square. |
| SoundFormats.FormatName | SoundFX.cpp:4-104 | The lookup is total and yields "Unknown Format" exactly for enumerants that are not listed. |
| SoundFormats.FormatNameParts | SoundFX.cpp:4-104 | Every listed format's name is its channel layout's name, then ", ", then its sample type's name. |
| SoundFormats.FormatOfParts | SoundFX.cpp:4-104 | Looking up a listed format by its own layout and sample type finds that format again, so the layout and sample type fully describe a format. |
| SoundFormats.FormatDeterminedByParts | SoundFX.cpp:4-104 | Two listed formats with the same layout and sample type are the same format. |
| SoundFormats.LayoutNameInjective | SoundFX.cpp:4-104 | Different channel layouts have different names. |
| SoundFormats.SampleNameInjective | SoundFX.cpp:4-104 | Different sample types have different names. |
| SoundFormats.FormatNameInjective | SoundFX.cpp:4-104 | Two listed formats with the same name are the same format, so each name identifies one case. The name splits uniquely at its first comma into a layout name and a sample name, and neither of those names repeats. |
| SoundLoad.ChooseSampleFormat | SoundFX.cpp:203-232 | Float is chosen exactly for float-native sub-formats when AL_EXT_FLOAT32 is present. IMA4 and MSADPCM are chosen exactly for IMA/MS ADPCM with at most 2 channels in a WAV container when both extensions are present. Everything else gives Int16. The choice is always supported by the present extensions. |
| SoundLoad.ReadBlockAlign | SoundFX.cpp:259 | The little-endian 16-bit `nBlockAlign` read from bytes 12-13 lies in 0..65535. |
| SoundLoad.BlockAlignRoundTrip | SoundFX.cpp:259 | Writing any 16-bit value into bytes 12-13 and reading the field gives the value back. |
| SoundLoad.BlockAlignBytesRoundTrip | SoundFX.cpp:259 | Encoding the value read gives back bytes 12-13 exactly. |
| SoundLoad.ImaAcceptedIff | SoundFX.cpp:262-264 | The IMA4 conversion is accepted exactly when `bba` is a multiple of the channel count and each channel's share is at least 4 and a multiple of 4. |
| SoundLoad.ImaRoundTrip | SoundFX.cpp:262-264 | For every block size `spl >= 1` with `spl % 8 == 1`, the byte size converts back to `spl` and is accepted. |
| SoundLoad.MsAcceptedIff | SoundFX.cpp:268-270 | The MS ADPCM conversion is accepted exactly when `bba` is a multiple of the channel count and each channel's share is at least 7. |
| SoundLoad.MsRoundTrip | SoundFX.cpp:268-270 | For every even block size `spl >= 2`, the byte size converts back to `spl` and is accepted. |
| SoundLoad.ImaAlignment | SoundFX.cpp:260-265 | The IMA4 conversion keeps IMA4 exactly when it is accepted (see ImaAcceptedIff for what that means), and otherwise falls back to Int16. When kept, `spl` is 1 mod 8, `bba` is the field value, and `bba` is the byte size of `spl`. |
| SoundLoad.MsAlignment | SoundFX.cpp:266-271 | The MS ADPCM conversion keeps MSADPCM exactly when it is accepted (see MsAcceptedIff), and otherwise falls back to Int16. When kept, `spl` is even and at least 2, and `bba` is the field value and the byte size of `spl`. |
| SoundLoad.AdpcmAlignment | SoundFX.cpp:234-273 | For an ADPCM choice, the format stays ADPCM exactly when the `fmt ` chunk exists, has at least 14 bytes, was read, and the conversion is accepted. Otherwise it falls back to Int16. |
| SoundLoad.BlockAlignment | SoundFX.cpp:234-286 | The result keeps the chosen format or falls back to Int16. It stays ADPCM exactly when the chunk exists, has at least 14 bytes, was read, and the conversion round-trips, and then `bba` is the field's value. The result is always consistent: Int16 has 1 and 2*ch, Float has 1 and 4*ch, an accepted IMA4 `spl` is 1 mod 8, an accepted MSADPCM `spl` is even, and ADPCM `bba` is the byte size of `spl`. A Float or Int16 choice is kept, and both block sizes are at least 1. |
| SoundLoad.ConsistentIsPositive | SoundFX.cpp:262-286 | Every consistent alignment has samples-per-block >= 1 and bytes-per-block >= 1, so the later divisions are defined. |
| SoundLoad.OutputFormat | SoundFX.cpp:288-331 | A format is found exactly for 1 or 2 channels, or for 3 or 4 ambisonic channels of a PCM sample format. When found, its channel count equals the file's and its sample type matches the sample format. With 1 channel it is a Mono format and with 2 channels a Stereo format (never UHJ). With 3 or 4 channels it is B-Format 2D or 3D. |
| SoundLoad.OutputFormatInjective | SoundFX.cpp:290-311 | For a fixed channel count, different sample formats never give the same buffer format. |
| SoundLoad.TooManySamples | SoundFX.cpp:339-344 | The guard `frames/spl > INT_MAX/bba` rejects exactly the files with `frames/spl*bba > INT_MAX`. |
| SoundLoad.SizeGuardExact | SoundFX.cpp:339 | For q >= 0 and b >= 1, `q > INT_MAX/b` holds exactly when `q*b > INT_MAX`. |
| SoundLoad.PlanLoad | SoundFX.cpp:186-344 | A file that fails to open is rejected. `frames < 1` is rejected with a bad sample count. Channels above 4, or 3 or 4 non-ambisonic channels, and only these, are rejected as unsupported. An accepted plan has a buffer format with the file's channel count and matching sample type, a supported and consistent alignment, and `frames/spl*bba <= INT_MAX`. The plan uses exactly the alignment of the chosen sample format and the buffer format found for it. A file that opens, has frames and a supported channel count is accepted exactly when `frames/spl*bba <= INT_MAX`, and is otherwise refused with too many frames. |
| SoundLoad.AdpcmRead | SoundFX.cpp:353-367 | For ADPCM, a positive frame count is read exactly when at least one block's bytes came back. Recounting the frames as bytes gives a whole number of blocks, no more than what was read. |
| SoundLoad.PcmRead | SoundFX.cpp:349-367 | For PCM, the byte size of at most the guarded number of frames fits in an int and is a whole number of frames. |
| SoundLoad.FinishLoad | SoundFX.cpp:346-378 | The load fails only on a read of no frames (ADPCM: less than one block). Otherwise `num_bytes` is in 1..INT_MAX and a whole number of blocks. For ADPCM it is the bytes read rounded down to whole blocks (`got/bba*bba`), and for PCM it is frames read times bytes per frame. The unpack block alignment is `spl` when `spl > 1` and unset otherwise. |

## Left out

- FLTK widget construction, `draw`, images, labels, window redraws and the
  `getInstance` singletons are GUI glue with no decision logic.
- The dice's random generator (`std::mt19937`) is replaced by the roll as an
  input in 1..6. Showing the dice face is left out.
- `SoundDriver` / `SnakeLadderGameSound`, with their detached threads and the
  ALSA and CoreAudio playback loops, are concurrency and OS I/O.
- The `* 0.66` floating-point scaling of the piece boxes in `AddPlayer` and
  `PositionPlayersOnBoard` is left out. Only the same-square test is modelled
  (`PlayersOverlap`).
- Destructors are left out. They only manage memory.
- The scoreboard message is modelled by kind, with the player and roll it
  names, rather than as the exact text.
- When `Handle` does not consume an event, the source returns the toolkit's
  `Fl_Widget::handle(event)`. That value comes from code outside this model,
  so only "not consumed, state unchanged" is stated.
- `InitAL`, `CloseAL`, `setupSource`, `play`, and OpenAL buffer creation and
  error checking are device management with no decision logic. The
  libsndfile open, chunk and read calls are replaced by inputs.
- SoundFormats.FormatName: the numeric values of the OpenAL format
  enumerants are not modelled, because the OpenAL headers are not part of
  this model. Formats are symbolic, and every other enumerant (AL_NONE
  among them) is `Unlisted`.
- SoundLoad.PlanLoad: requires `channels >= 1`. The source relies on
  libsndfile reporting at least one channel for an opened file, because it
  divides by the channel count.
- SoundLoad.FinishLoad: requires that the read returns no more than it was
  asked for, which is libsndfile's contract for `sf_readf_*` and
  `sf_read_raw`.
- `frames` (a 64-bit `sf_count_t`) and `channels` are unbounded integers.
  In C, `channels * 2` could overflow for absurd channel counts, but that
  value is only used after the format check, which rejects such files.
- The `destination` field of a layout square is never set by the source, so
  it is always -1 in the model.
