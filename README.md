# ESP32-P4 dashboard firmware and its web client, modelled in Dafny

This project models the core of a handheld ESP32-P4 dashboard and of the
browser page that talks to it:

- **Audio manager** (`main/audio_manager.c`). An I2S transport paired with
  an ES8311 codec, covering:
  - the sample-rate coordinator: disable TX, reconfigure the clock,
    re-initialise the codec, re-enable TX, and only then commit the new rate;
  - WAV playback: read the 44-byte header, check the magic, switch the rate,
    scan for the `data` chunk, stream the payload in 1024-byte writes;
  - recording: write a placeholder header, capture until the deadline, and
    back-fill the header;
  - the test tone and the volume guard.
- **Snake game** (`main/ui/screens/ui_Screen7.c`): a 40 x 24 grid with a
  game loop on a 100 ms timer.
- **Board** (`main/board_init.c`): the backlight controller on I2C (clamp
  the level, map it to a duty value, write register 0x96) and the argument
  check of the touch set-up.
- **Display glue** (`main/main_gui.c`): the flush callback's arithmetic,
  which rotates a landscape area into the portrait panel, and the touch
  callback.
- **Web client** (`client_dashboard/src/hooks/useESP32WebSocket.ts`): the
  `useESP32WebSocket` React hook, covering:
  - the bounded data-stream log;
  - classification of incoming messages;
  - the reconnect decision on close;
  - connect and disconnect;
  - `sendCommand` and `updateConfig`.

Hardware, files, the network, the clock and randomness are not computed by
the model; they are passed in as parameters:

- every driver call's outcome is a `bool` argument;
- a file is its byte contents, or `None` when it cannot be opened;
- the microphone is the list of read outcomes observed before the deadline;
- `esp_random()` is a pair of draws;
- `JSON.parse` is its result;
- `new Date()` is a `now` argument.

The state that the C modules keep in statics is modelled as a class:
`AudioManager.Audio`, `Board.Board`, and `Snake.SnakeGame`, whose segment
array is an `array<Point>` of 960 slots (the corrected program of the first
row under Findings; the source declares 100). The hook's refs and React state are the fields
of `Dashboard.Hook`. Each method is proved against a pure transition
function over a value of that state (`SwitchRate`, `Step`, `ConnectT`, …),
and the lemmas about the transitions carry the properties.

On the web client, the model shows two behaviours of the source that are
worth knowing:

- `connect()` resets the attempt counter to 0, and the reconnect timer
  calls `connect()`. So the counter never reaches the maximum along the
  reconnect path, and "Max reconnection attempts reached" is never logged
  for a socket opened by a retry (`Dashboard.ReconnectNeverGivesUp`).
- The callbacks capture the configuration of the render that created
  them. So `updateConfig` followed by `connect` in the same event handler
  still dials the old address (`Dashboard.ConnectSeesConfigAfterRender`).

Modules:

| file | module | models |
|---|---|---|
| `wrappers.dfy` | `Wrappers` | `Option` |
| `bytes.dfy` | `Bytes` | bytes, little-endian encodings, flattening |
| `wav.dfy` | `Wav` | `wav_header_t`, the chunk scan, the 1024-byte chunking |
| `audio.dfy` | `AudioManager` | `audio_manager.c` |
| `snake.dfy` | `Snake` | `ui_Screen7.c` game logic |
| `board.dfy` | `Board` | `board_init.c` backlight and touch set-up |
| `gui.dfy` | `MainGui` | `main_gui.c` flush and touch callbacks |
| `dashboard.dfy` | `Dashboard` | `useESP32WebSocket.ts` |

## Model

| member | source | states |
|---|---|---|
| Bytes.Wrap32 | main/audio_manager.c:373-386 | reduction modulo 2^32 of a `uint32_t` field: the value itself below 2^32, and congruent to it in general |
| Bytes.Le16 | main/audio_manager.c:175-189 | how a packed `uint16_t` header field is stored: two bytes, low byte first; `Le16RoundTrip` states that `ReadLe16` inverts it |
| Bytes.Le32 | main/audio_manager.c:175-189 | how a packed `uint32_t` header field is stored: four bytes, least significant first; `Le32RoundTrip` states that `ReadLe32` inverts it |
| Bytes.ReadLe16 | main/audio_manager.c:175-189 | a little-endian 16-bit field read from two bytes: low byte first, high byte second |
| Bytes.ReadLe32 | main/audio_manager.c:175-189 | a little-endian 32-bit field read from four bytes: the low byte is the first byte; the value is below 2^24 exactly when the last byte is 0 |
| Bytes.Le16RoundTrip | main/audio_manager.c:175-189 | reading back a 16-bit field that was written gives the original value |
| Bytes.Le32RoundTrip | main/audio_manager.c:175-189 | reading back a 32-bit field that was written gives the original value |
| Bytes.ReadLe32Injective | main/audio_manager.c:252-260 | two 4-byte words read equal exactly when their bytes are equal, so comparing the chunk id as a `uint32_t` is comparing it with "data" |
| Bytes.FlattenLength | main/audio_manager.c:291-304 | the number of bytes written is the sum of the buffer lengths (used by `AudioManager.StreamedByteCount`) |
| Wav.EncodeHeader | main/audio_manager.c:175-189 | the packed `wav_header_t` is 44 bytes, with "RIFF", "WAVE" and the data id at offsets 0, 8 and 36 |
| Wav.DecodeHeader | main/audio_manager.c:206-210 | reading the 44 header bytes takes the magic fields from offsets 0 and 8 |
| Wav.DecodeEncode | main/audio_manager.c:175-189 | decoding an encoded header gives every field back (the layout round trip) |
| Wav.ZeroHeader | main/audio_manager.c:341-343 | the zeroed placeholder header is a header with four-byte ids |
| Wav.ZeroHeaderIsZeroBytes | main/audio_manager.c:341-343 | the placeholder writes 44 zero bytes |
| Wav.RecordedHeader | main/audio_manager.c:373-389 | the back-filled header: RIFF/WAVE/fmt/data ids, PCM, 2 channels, 16 bits, alignment 4, the current rate, byte rate = rate x 4, `wav_size` = bytes + 36, `data_bytes` = bytes |
| Wav.MagicOk | main/audio_manager.c:223-228 | the `strncmp` checks of the player: the RIFF field is "RIFF" and the WAVE field is "WAVE"; `RecordedFileParses` shows a recording passes them |
| Wav.RateSupported | main/audio_manager.c:231 | the rate guard of the player: a declared rate above 0 and at most 48000; `PlaybackSwitch` states its effect |
| Wav.FindData | main/audio_manager.c:248-264 | the chunk scan as a function: read an 8-byte record, stop at id "data" with its size and the offset after it, otherwise skip 8 + size bytes, and give up when fewer than 8 bytes are left (unsigned skip; the source differs from 2^31 up, see Findings); its properties are `FindDataSound`, `ScanSkip`, `ScanStopsAtData`, `ScanSkipsChunks`, `ScanWithoutData` and `ScanFindsDataAfterChunks` |
| Wav.FindDataSound | main/audio_manager.c:248-272 | what the scan reports is a real record of the file at or after the cursor: its id is "data", its size is the record's size word, and the payload starts inside the file |
| Wav.DataWordIsDataId | main/audio_manager.c:252-260 | the id word equals the constant `0x61746164` exactly when the id bytes are "data" |
| Wav.Playable | main/audio_manager.c:291-304 | the streaming loop plays `data_bytes` bytes, or stops at end of file if that comes first, and never more than either |
| Wav.Chunks | main/audio_manager.c:291-304 | the pieces of at most 1024 bytes the streaming loop cuts a payload into; its properties are `ChunksFlatten`, `ChunksShape` and `ChunksStep` |
| Wav.ChunksFlatten | main/audio_manager.c:291-304 | the 1024-byte pieces written, joined, are exactly the payload |
| Wav.ChunksShape | main/audio_manager.c:291-304 | there are ceil(n / 1024) pieces, each non-empty and at most 1024 bytes, all full except the last |
| Wav.ChunksStep | main/audio_manager.c:291-304 | one loop iteration takes `min(1024, remaining)` bytes, and the rest is chunked the same way |
| Wav.ScanSkip | main/audio_manager.c:262-264 | a chunk whose id is not "data" is skipped by 8 + its size (unsigned skip; the source differs from 2^31 up, see Findings) |
| Wav.SliceOfRegion | main/audio_manager.c:248-272 | a slice of a region of the file located at a cursor is the same slice of that region's bytes |
| Wav.SerializeCons | main/audio_manager.c:248-272 | a list of chunks lays out as the first chunk's id, size and body, then the rest |
| Wav.ScanSkipsChunks | main/audio_manager.c:248-272 | the scan passes over any well-formed run of non-data chunks |
| Wav.ScanStopsAtData | main/audio_manager.c:256-260 | a record whose id is "data" stops the scan, with its size and the payload offset just after it |
| Wav.ScanWithoutData | main/audio_manager.c:266-272 | a file whose chunks after the header contain no data chunk is rejected |
| Wav.ScanFindsDataAfterChunks | main/audio_manager.c:248-272 | after any run of other chunks, the data chunk is found at its true offset with its declared size |
| Wav.ScanOfCanonicalHeader | main/audio_manager.c:244-272 | for a canonical 44-byte header, the scan from offset 12 finds the payload at byte 44 with the header's `data_bytes` |
| Wav.RecordedFileParses | main/audio_manager.c:341-389 | a recorded file (back-filled header followed by the captured bytes) passes the magic check and the scan finds exactly the captured bytes |
| Wav.SeekOffsetAsWritten | main/audio_manager.c:263 | the `long` seek offset with a 32-bit `long`: sizes of 2^31 or more become negative |
| Wav.NextCursorAsWritten | main/audio_manager.c:262-264 | as written, the cursor after skipping a chunk is cursor + 8 + size only for sizes below 2^31 |
| Wav.NegativeSkipLoops | main/audio_manager.c:262-264 | as written, a chunk of size 0xFFFFFFF8 puts the cursor back where it was |
| Wav.JunkChunkFile | main/audio_manager.c:244-272 | a concrete file with a "JUNK" chunk of that size passes the header check and makes the as-written scan re-read the same record forever |
| AudioManager.SwitchRate | main/audio_manager.c:86-115 | the rate coordinator as a function of the transport state and the two driver outcomes: result, driver calls in order, new state; its properties are `SwitchToCurrentRateIsNoOp`, `SwitchCommitsOnlyOnSuccess` and `SwitchTwiceIsNoOp` |
| AudioManager.SwitchToCurrentRateIsNoOp | main/audio_manager.c:86-89 | asking for the active rate returns OK, makes no driver call and changes nothing |
| AudioManager.SwitchCommitsOnlyOnSuccess | main/audio_manager.c:86-115 | a new rate first disables TX and reconfigures its clock; the codec is touched only if that succeeded; the rate is committed and TX re-enabled exactly when both steps succeed; on failure the old rate stays and TX stays disabled |
| AudioManager.SwitchTwiceIsNoOp | main/audio_manager.c:86-115 | after a successful switch, switching to the same rate again calls nothing and changes nothing |
| AudioManager.Writes | main/audio_manager.c:291-304 | one `i2s_channel_write` per buffer, carrying that buffer, in order |
| AudioManager.Fread | main/audio_manager.c:206-210 | `fread` returns at most the bytes asked for, fewer only at end of file, and they are the file's bytes at the cursor |
| AudioManager.ScanForData | main/audio_manager.c:244-272 | the chunk-scan loop returns exactly what `Wav.FindData` specifies from offset 12 (unsigned skip; the source differs from 2^31 up, see Findings) |
| AudioManager.Payload | main/audio_manager.c:291-304 | the payload streamed is at most `data_bytes` long and is the file's bytes from the payload offset |
| AudioManager.StreamPayload | main/audio_manager.c:286-304 | the streaming loop plays `Playable` bytes, at most `data_bytes`, in the 1024-byte pieces `Chunks` of the payload |
| AudioManager.StreamedByteCount | main/audio_manager.c:291-304 | the streaming loop's writes carry `Playable` bytes in all, at most `data_bytes` |
| AudioManager.SamplesToBytes | main/audio_manager.c:147-164 | the byte buffer of n 16-bit samples is 2n bytes |
| AudioManager.SamplesToBytesDecode | main/audio_manager.c:147-164 | sample k can be read back from bytes 2k and 2k+1 of the written buffer |
| AudioManager.ToneFrames | main/audio_manager.c:147 | `(16000 * duration_ms) / 1000` frames while the product fits in 32 bits |
| AudioManager.ToneFramesExact | main/audio_manager.c:147 | that is 16 frames per millisecond, e.g. 1600 frames for 100 ms |
| AudioManager.ToneBuffer | main/audio_manager.c:148-161 | the interleaved stereo tone buffer holds 2 x frames samples |
| AudioManager.FillTone | main/audio_manager.c:148-161 | the fill loop writes the same sample to the left and right slots of every frame |
| AudioManager.ToneIsMonoAndBounded | main/audio_manager.c:155-161 | both channels of each frame carry the same sample, which lies within +-15000 |
| AudioManager.CapturedBytes | main/audio_manager.c:355-368 | the bytes the capture loop appends: those of every successful read, in order, nothing for a timeout; `RecordThenPlay` and `RecordWav` state what becomes of them |
| AudioManager.RecordThenPlay | main/audio_manager.c:327-389 | a recording, played back, is accepted by the header check; the scan locates exactly the captured bytes; the writes carry them in order |
| AudioManager.HeaderAccepted | main/audio_manager.c:206-228 | the header checks of playback: 44 bytes could be read and the magic fields are "RIFF" and "WAVE"; `RecordThenPlay` shows a recording passes them and `PlayWav` that a file failing them touches nothing |
| AudioManager.DeclaredRate | main/audio_manager.c:206-235 | the `sample_rate` field of the 44-byte header read, the rate `PlayWav` asks the coordinator for |
| AudioManager.PlaybackSwitch | main/audio_manager.c:231-235 | playback switches the rate only for a declared rate in (0, 48000]; afterwards the rate is the old one or the declared one |
| AudioManager.Audio.constructor | main/audio_manager.c:16-25 | no TX, RX or codec handle, TX disabled, rate 16000, no driver call yet |
| AudioManager.Audio.Init | main/audio_manager.c:27-136 | `audio_init` succeeds exactly when the channel, the I2S set-up and the codec set-up all succeed; the handles are set and the codec calls (clock at the current rate, volume 65, analog microphone, unmute) made as far as the steps got; the rate is unchanged |
| AudioManager.Audio.SetSampleRateInternal | main/audio_manager.c:86-115 | the method's result, new transport state and driver calls are those of `SwitchRate` |
| AudioManager.Audio.PlayWav | main/audio_manager.c:191-310 | fails without a TX channel, without a file, or on a short or wrong-magic header, touching nothing; otherwise it makes the rate switch of `PlaybackSwitch`, then fails if no data chunk is found, returns ESP_ERR_NO_MEM if the buffer cannot be allocated, and otherwise writes exactly the payload's 1024-byte pieces (unsigned skip; the source differs from 2^31 up, see Findings) |
| AudioManager.Audio.SetVolume | main/audio_manager.c:312-317 | the volume reaches the codec only when one exists; otherwise ESP_FAIL and no call |
| AudioManager.Audio.PlayTone | main/audio_manager.c:138-168 | fails without TX, returns ESP_ERR_NO_MEM without a buffer, and otherwise makes one write of 4 x frames bytes holding the tone buffer |
| AudioManager.Audio.RecordWav | main/audio_manager.c:327-394 | fails without RX or a file; when a file exists the ADC gain is set if there is a codec; without a buffer the file holds only the zero header; otherwise the file is the back-filled header followed by every captured byte, and the transport is unchanged |
| Snake.SpawnFood | main/ui/screens/ui_Screen7.c:33-36 | the food lies in the grid, at the draws themselves when they already fit |
| Snake.Reset | main/ui/screens/ui_Screen7.c:38-51 | the state `reset_game` leaves; `ResetEstablishesInv` states it |
| Snake.Steer | main/ui/screens/ui_Screen7.c:62-75 | the input handling: a deflection beyond 50 turns onto the other axis only, horizontal before vertical; `SteerNeverReverses` states it |
| Snake.NextHead | main/ui/screens/ui_Screen7.c:85 | the head's next cell: head plus direction; used by `CollisionEndsGame` and `MoveShiftsSnake` |
| Snake.Move | main/ui/screens/ui_Screen7.c:84-114 | the movement: stop when over, end the game on a wall or any segment, otherwise shift and eat; `CollisionEndsGame`, `MoveShiftsSnake`, `MovePreservesInv` and `MoveFitsCapacity` state it |
| Snake.Prepare | main/ui/screens/ui_Screen7.c:62-82 | steering, then the START reset after a game over; `PreparePreservesInv`, `GameOverFreezes` and `StartAfterGameOverResets` state it |
| Snake.Step | main/ui/screens/ui_Screen7.c:53-119 | one tick, nothing unless the game screen is active; `StepPreservesInv` states it |
| Snake.ResetEstablishesInv | main/ui/screens/ui_Screen7.c:38-51 | reset puts 3 segments at (10,10), (9,10), (8,10) heading right, score 0, not over, and the game invariant holds |
| Snake.SteerNeverReverses | main/ui/screens/ui_Screen7.c:62-75 | steering keeps a unit direction and never turns the snake back on itself |
| Snake.GameOverFreezes | main/ui/screens/ui_Screen7.c:77-82 | while the game is over and START is not pressed, a tick changes only the direction |
| Snake.StartAfterGameOverResets | main/ui/screens/ui_Screen7.c:77-82 | START after a game over resets, then moves in the same tick |
| Snake.CollisionEndsGame | main/ui/screens/ui_Screen7.c:85-102 | a head outside the grid or on any segment, the tail included, ends the game and leaves the body as it was |
| Snake.MoveShiftsSnake | main/ui/screens/ui_Screen7.c:104-114 | a move onto a free cell shifts the body by one with the new head in front; it grows by one and scores 10 exactly when the head lands on the food |
| Snake.StepPreservesInv | main/ui/screens/ui_Screen7.c:53-119 | every tick keeps the invariant: at least 3 segments, all in the grid and pairwise distinct, a unit direction, score = 10 x (length - 3), food in the grid |
| Snake.PreparePreservesInv | main/ui/screens/ui_Screen7.c:62-82 | steering and the START reset keep the invariant |
| Snake.MovePreservesInv | main/ui/screens/ui_Screen7.c:85-114 | the move keeps the invariant |
| Snake.CellIndexInjective | main/ui/screens/ui_Screen7.c:18-19 | distinct grid cells have distinct row-major indices |
| Snake.CellIndicesOfDistinct | main/ui/screens/ui_Screen7.c:18-19 | the cell indices of distinct in-grid segments are as many as the segments and all below 960 |
| Snake.CellIndexFrom | main/ui/screens/ui_Screen7.c:18-19 | proof helper of the pigeonhole bound: every index in the set comes from a segment |
| Snake.BoundedSetSize | main/ui/screens/ui_Screen7.c:18-19 | proof helper of the pigeonhole bound: a set of indices below n has at most n elements |
| Snake.LengthBoundedByGrid | main/ui/screens/ui_Screen7.c:18-19 | a snake of distinct in-grid segments has at most 960 of them |
| Snake.MoveFitsCapacity | main/ui/screens/ui_Screen7.c:104-114 | when a move goes ahead, the slot the shift writes exists in a 960-slot array |
| Snake.ShiftAsWritten | main/ui/screens/ui_Screen7.c:104-108 | the shift on the 100-slot `snake` array puts the head in front of the old segments |
| Snake.SerpentineInjective | main/ui/screens/ui_Screen7.c:18-19 | fixture of the counterexample: the serpentine path through the grid never revisits a cell |
| Snake.Coiled | main/ui/screens/ui_Screen7.c:18-19 | fixture of the counterexample: a coiled snake of n segments has n segments |
| Snake.SourceArrayOverflows | main/ui/screens/ui_Screen7.c:104-108 | a reachable-shaped state of 100 segments satisfies the invariant and moves ahead, so the shift writes `snake[100]`, outside the array |
| Snake.SnakeGame.constructor | main/ui/screens/ui_Screen7.c:186 | the screen's initialisation leaves the reset state |
| Snake.SnakeGame.ResetGame | main/ui/screens/ui_Screen7.c:38-51 | `reset_game` leaves the state `Reset` |
| Snake.SnakeGame.Occupied | main/ui/screens/ui_Screen7.c:95-102 | the self-collision scan reports a hit exactly when the cell is one of the `snake_len` segments |
| Snake.SnakeGame.ShiftIn | main/ui/screens/ui_Screen7.c:104-108 | the shift loop leaves the new head followed by the old segments in slots 0 to `snake_len` |
| Snake.SnakeGame.Advance | main/ui/screens/ui_Screen7.c:84-114 | the movement part of `game_loop` leaves the state `Move` |
| Snake.SnakeGame.GameLoop | main/ui/screens/ui_Screen7.c:53-119 | one timer tick leaves the state `Step` and keeps the invariant |
| Board.ClampLevel | main/board_init.c:40-41 | the level is clamped to 100 and is unchanged below |
| Board.Duty | main/board_init.c:44 | the duty value of a clamped level; `DutyRange` and `DutyStrictlyIncreasing` state it |
| Board.DutyRange | main/board_init.c:44 | the duty is `floor(255 x level / 100)`: 0 for level 0, 255 for level 100 |
| Board.DutyStrictlyIncreasing | main/board_init.c:44 | a higher level gives a strictly higher duty |
| Board.Board.constructor | main/board_init.c:14-16 | nothing is initialised and nothing is sent |
| Board.Board.InitBacklight | main/board_init.c:18-37 | a null bus is ESP_ERR_INVALID_ARG; a failed device add is an error; only success marks the backlight ready |
| Board.Board.SetBacklight | main/board_init.c:39-60 | the duty is that of the clamped level; before initialisation ESP_ERR_INVALID_STATE and nothing is sent; afterwards `[0x96, duty]` is sent and the result follows the transmit |
| Board.Board.InitTouch | main/board_init.c:62-110 | a null bus is ESP_ERR_INVALID_ARG; touch becomes ready exactly when both the panel IO and the GT911 driver are created |
| Board.BacklightSequence | main/board_init.c:39-60 | setting the level before initialisation is refused; after a successful initialisation the same call succeeds |
| MainGui.PlanFlush | main/main_gui.c:50-73 | width, height, panel corner and output byte offset of a flushed area; `FlushBlockInPanel`, `FlushBlockIsImage` and `FlushOffsetInFramebuffer` state them |
| MainGui.Rotate | main/main_gui.c:58-61 | logical (x, y) to panel (y, 1279 - x); `RotationIsBijective` and `RotationInjective` state it |
| MainGui.RotationIsBijective | main/main_gui.c:58-61 | logical (x, y) maps to panel (y, 1279 - x), the inverse map undoes it, and each maps its screen onto the other's |
| MainGui.RotationInjective | main/main_gui.c:58-61 | no two logical pixels land on the same panel pixel |
| MainGui.FlushBlockInPanel | main/main_gui.c:50-61 | for an on-screen area the block has width and height of at least 1, its corner is in the panel, and the area's corners map to the block's corners |
| MainGui.FlushBlockIsImage | main/main_gui.c:50-79 | every pixel of the area lands in the rotated block and every pixel of the block comes from the area |
| MainGui.PixelOffsetInFramebuffer | main/main_gui.c:73 | each panel pixel's two bytes lie inside the 720 x 1280 RGB565 frame buffer, and distinct pixels do not overlap |
| MainGui.FlushOffsetInFramebuffer | main/main_gui.c:73 | the output pointer addresses the block's corner pixel, and the block's last pixel is still inside the frame buffer |
| MainGui.TouchRead | main/main_gui.c:107-110 | touch reads always report released and leave the point alone |
| Dashboard.Merge | client_dashboard/src/hooks/useESP32WebSocket.ts:210-211 | each key given in the update replaces the old value and each absent key keeps it |
| Dashboard.MergeLaws | client_dashboard/src/hooks/useESP32WebSocket.ts:210-211 | an empty update changes nothing; an update is idempotent; two updates equal one combined update where later keys win |
| Dashboard.AddEntry | client_dashboard/src/hooks/useESP32WebSocket.ts:43-54 | the log grows by one up to 100 entries and then stays at 100 |
| Dashboard.AddEntryDropsOldest | client_dashboard/src/hooks/useESP32WebSocket.ts:43-54 | the new entry goes first and the others follow in order; when the log is full the oldest entry is dropped |
| Dashboard.Reverse | client_dashboard/src/hooks/useESP32WebSocket.ts:51 | entry i of the reversed list is entry n-1-i of the original |
| Dashboard.AddAllNewestFirst | client_dashboard/src/hooks/useESP32WebSocket.ts:43-54 | after any series of additions the log is the newest 100 of all entries, newest first |
| Dashboard.LogStaysBounded | client_dashboard/src/hooks/useESP32WebSocket.ts:52 | the log never holds more than 100 entries |
| Dashboard.OrElse | client_dashboard/src/hooks/useESP32WebSocket.ts:101-111 | `x \|\| fallback` is x when x is truthy, and otherwise the fallback |
| Dashboard.Normalise | client_dashboard/src/hooks/useESP32WebSocket.ts:100-110 | the `EcuData` record built from a message; `NormaliseDefaults` states it |
| Dashboard.IsEcuMessage | client_dashboard/src/hooks/useESP32WebSocket.ts:99 | a message carries ECU data when `engineRpm` or `mapPressure` is not `undefined`; `EcuReplacedOnlyForEcuMessages` states its effect |
| Dashboard.AboveRpmWarning | client_dashboard/src/hooks/useESP32WebSocket.ts:121 | `engineRpm > 6000` for numbers; other values read as false (see Left out) |
| Dashboard.EcuEntries | client_dashboard/src/hooks/useESP32WebSocket.ts:115-123 | the warnings an ECU update logs, in order; `EcuEntriesClassify` states it |
| Dashboard.EcuEntriesClassify | client_dashboard/src/hooks/useESP32WebSocket.ts:116-125 | limp mode logs an error; protection logs a warning only without limp mode; RPM above 6000 logs a warning; at most two entries |
| Dashboard.NormaliseDefaults | client_dashboard/src/hooks/useESP32WebSocket.ts:100-111 | every number of the ECU record is the message's truthy value or 0, every flag its truthy value or false |
| Dashboard.Decide | client_dashboard/src/hooks/useESP32WebSocket.ts:138-154 | reconnect iff a connection is wanted and attempts are below the maximum; give up iff not that and attempts have reached the maximum |
| Dashboard.WsUrl | client_dashboard/src/hooks/useESP32WebSocket.ts:65 | the URL `ws://<ip>:<port>/ws`, the port in decimal; `ConnectSeesConfigAfterRender` shows which config it is built from |
| Dashboard.ConnectT | client_dashboard/src/hooks/useESP32WebSocket.ts:56-174 | `connect` with a captured config: only a log entry when the socket is open, otherwise `StartT` |
| Dashboard.StartT | client_dashboard/src/hooks/useESP32WebSocket.ts:62-173 | set the intent, reset the attempts, log the URL, then a new connecting socket or the failure status and entry |
| Dashboard.OpenT | client_dashboard/src/hooks/useESP32WebSocket.ts:77-87 | `onopen`: attempts to 0, connected status, log entry, socket open, "ping" sent |
| Dashboard.MessageEffectOf | client_dashboard/src/hooks/useESP32WebSocket.ts:89-130 | what a message does: nothing for "pong" or a non-ECU value, an ECU update with its warnings, or a parse error |
| Dashboard.MessageT | client_dashboard/src/hooks/useESP32WebSocket.ts:89-130 | `onmessage` applied to the state; `PongIsIgnored` and `EcuReplacedOnlyForEcuMessages` state it |
| Dashboard.CloseT | client_dashboard/src/hooks/useESP32WebSocket.ts:132-155 | `onclose` of a socket with the config it captured; `CloseSchedulesReconnectIff` states it |
| Dashboard.AfterClose | client_dashboard/src/hooks/useESP32WebSocket.ts:138-154 | the three branches of `onclose` after the status update |
| Dashboard.ErrorT | client_dashboard/src/hooks/useESP32WebSocket.ts:157-164 | `onerror`: a log entry and the "Connection error" status |
| Dashboard.FireT | client_dashboard/src/hooks/useESP32WebSocket.ts:142-145 | a reconnect timer fires: count an attempt and call the captured `connect`; `ReconnectNeverGivesUp` states it |
| Dashboard.DisconnectT | client_dashboard/src/hooks/useESP32WebSocket.ts:176-194 | `disconnect`; `DisconnectStopsReconnecting` states it |
| Dashboard.SendT | client_dashboard/src/hooks/useESP32WebSocket.ts:196-203 | `sendCommand`; `SendOnlyWhenOpen` states it |
| Dashboard.ClearT | client_dashboard/src/hooks/useESP32WebSocket.ts:205-208 | `clearDataStream`: the log holds only the "cleared" entry |
| Dashboard.UpdateConfigT | client_dashboard/src/hooks/useESP32WebSocket.ts:210-213 | `updateConfig`: the merged config and a log entry; `ConnectSeesConfigAfterRender` states its effect on `connect` |
| Dashboard.RenderT | client_dashboard/src/hooks/useESP32WebSocket.ts:174 | a render recreates `connect` over the current config (its dependency list) |
| Dashboard.FreshTimerIsUnused | client_dashboard/src/hooks/useESP32WebSocket.ts:142-145 | the first render has no timer, and with fresh timer ids the next id names no pending timer |
| Dashboard.TransitionsKeepTimersFresh | client_dashboard/src/hooks/useESP32WebSocket.ts:56-213 | every transition of the hook keeps each pending timer's id below the next id, so the precondition of `CloseSchedulesReconnectIff` and `ReconnectNeverGivesUp` holds in every reachable state |
| Dashboard.PongIsIgnored | client_dashboard/src/hooks/useESP32WebSocket.ts:92-95 | a "pong" message changes nothing |
| Dashboard.EcuReplacedOnlyForEcuMessages | client_dashboard/src/hooks/useESP32WebSocket.ts:89-130 | the ECU data is replaced exactly by messages that parse to non-null values with `engineRpm` or `mapPressure`; an unparsable or null message logs one parse error; the status, socket and timers stay |
| Dashboard.CloseSchedulesReconnectIff | client_dashboard/src/hooks/useESP32WebSocket.ts:132-155 | a close schedules one reconnect timer iff a connection is wanted and attempts are below the socket's maximum; "Failed to reconnect" iff not that and the maximum is reached |
| Dashboard.DisconnectStopsReconnecting | client_dashboard/src/hooks/useESP32WebSocket.ts:176-194 | after `disconnect` the intent is cleared, the socket ref is empty, the pending timer is cancelled, and a later close schedules nothing |
| Dashboard.ReconnectNeverGivesUp | client_dashboard/src/hooks/useESP32WebSocket.ts:56-155 | a fired timer calls `connect`, which resets the attempts to 0, so the next close schedules a reconnect again and never reports the maximum |
| Dashboard.SendOnlyWhenOpen | client_dashboard/src/hooks/useESP32WebSocket.ts:196-203 | a command goes out on the socket exactly when it is open; otherwise nothing is sent and a warning is logged |
| Dashboard.ConnectSeesConfigAfterRender | client_dashboard/src/pages/ESP32Dashboard.tsx:156-157 | `updateConfig` then `connect` from the same render dials the old address; after a render the merged address is used |
| Dashboard.Hook.constructor | client_dashboard/src/hooks/useESP32WebSocket.ts:30-41 | the first render's state: disconnected, empty log, default config, no socket, no timer |
| Dashboard.Hook.AddDataStreamEntry | client_dashboard/src/hooks/useESP32WebSocket.ts:43-54 | the log becomes `AddEntry` of the old log and nothing else changes |
| Dashboard.Hook.ConnectWith | client_dashboard/src/hooks/useESP32WebSocket.ts:56-174 | `connect` with a captured config has the effect `ConnectT`: with an open socket it only logs |
| Dashboard.Hook.StartConnecting | client_dashboard/src/hooks/useESP32WebSocket.ts:62-173 | connecting sets the intent, resets the attempts, logs the URL, and either installs a new connecting socket or reports the failure |
| Dashboard.Hook.Connect | client_dashboard/src/hooks/useESP32WebSocket.ts:56-174 | `connect` of the current render uses the rendered config |
| Dashboard.Hook.OnOpen | client_dashboard/src/hooks/useESP32WebSocket.ts:77-87 | open resets the attempts, marks the status connected, logs, and sends "ping" |
| Dashboard.Hook.OnMessage | client_dashboard/src/hooks/useESP32WebSocket.ts:89-130 | the effect of a message is `MessageT` |
| Dashboard.Hook.OnClose | client_dashboard/src/hooks/useESP32WebSocket.ts:132-155 | the effect of a close is `CloseT` |
| Dashboard.Hook.ReactToClose | client_dashboard/src/hooks/useESP32WebSocket.ts:136-154 | the reconnect branch of a close is `AfterClose` |
| Dashboard.Hook.OnError | client_dashboard/src/hooks/useESP32WebSocket.ts:157-164 | an error marks the status "Connection error" and logs it |
| Dashboard.Hook.OnReconnectTimer | client_dashboard/src/hooks/useESP32WebSocket.ts:142-145 | a firing timer counts an attempt and calls `connect` |
| Dashboard.Hook.Disconnect | client_dashboard/src/hooks/useESP32WebSocket.ts:176-194 | `disconnect` has the effect `DisconnectT` |
| Dashboard.Hook.SendCommand | client_dashboard/src/hooks/useESP32WebSocket.ts:196-203 | `sendCommand` has the effect `SendT` |
| Dashboard.Hook.ClearDataStream | client_dashboard/src/hooks/useESP32WebSocket.ts:205-208 | the log is emptied and then holds the single "cleared" entry |
| Dashboard.Hook.UpdateConfig | client_dashboard/src/hooks/useESP32WebSocket.ts:210-213 | the config becomes the merge and a log entry is added; the rendered config is not updated |
| Dashboard.Hook.Render | client_dashboard/src/hooks/useESP32WebSocket.ts:29-41 | a render makes the callbacks see the current config |

## Left out

- Drivers (I2S, ES8311, I2C, the GT911 touch controller, the pixel-processing accelerator) are not modelled. Each call is a success flag or a recorded event; ESP-IDF error codes other than those the module itself returns are collapsed into `EspFail`.
- AudioManager.Audio.Init: the eight `ESP_ERROR_CHECK`/`ESP_RETURN_ON_ERROR` steps of the I2S and codec set-up are counted (`i2sSteps`, `codecSteps`) rather than each being named.
- The sine of the tone uses floating point; it is the parameter `sine`, whose values are bounded by the amplitude.
- FreeRTOS ticks and the recording deadline are not modelled: the recording is the list of read outcomes seen before the deadline.
- `ESP_LOGx` logging, the `vTaskDelay` of the loops, `fclose`/`free`, and the label texts and styles of the game screen are left out.
- AudioManager.SwitchRate: when `es8311_create` failed during `audio_init`, the source still calls `es8311_init` on the NULL handle when a later switch reaches line 106; what the driver then does is not in the source, and the model assumes a clean ESP_FAIL with TX left disabled.
- Concurrency (the LVGL mutex, the audio task, the React event loop) is left out. Each operation runs to completion.
- AudioManager.Audio.RecordWav: a `fwrite` that writes fewer bytes than asked is not modelled. A recording of more than 4 GiB, where `total_bytes` and `wav_size` wrap, is expressed through `Wrap32` but no lemma covers it.
- Snake.SnakeGame: its segment array has 960 slots, one per grid cell, not the source's 100; the class is the corrected program of the first row under Findings, so at `snake_len == 100` it goes on where the source writes past `snake[99]` (that write is shown by `Snake.SourceArrayOverflows`).
- Snake: the score label, the drawing of the cells and the screen switching are left out; `lv_scr_act() == ui_Screen7` is the parameter `active`.
- Board.Board.InitTouch: the GT911 configuration fields (resolution, swap/mirror flags, reset and interrupt pins) are not modelled.
- MainGui: the PPA call itself and `lv_disp_flush_ready` are not modelled; only the area arithmetic and the output offset are.
- Dashboard: `JSON.parse`, `new Date()` and `setTimeout` are parameters or recorded timers. The timestamp's `toLocaleTimeString` text and the `toFixed` formatting of warnings are left out.
- Dashboard.AboveRpmWarning: only numbers are compared with 6000 (a boolean is never above 6000 in JavaScript either); JavaScript's coercion of strings and arrays in `>` (`"7000" > 6000` is true) is not modelled and reads as false.
- Dashboard.Merge: a key present in the partial config but explicitly `undefined` is treated as absent, although the spread would copy the `undefined`.
- Dashboard: React's batching of state updates is reduced to applying each update at once; the periodic 30-second ping and the unmount clean-up effect are left out.

## Findings

| source | as written | input that shows it | evidently intended | confidence | as-written member | corrected member |
|---|---|---|---|---|---|---|
| main/ui/screens/ui_Screen7.c:104-108 | `Point snake[100]` and the shift writes `snake[snake_len]` with no bound on the length | a 100-segment snake coiled along rows 0-2 (`Coiled(100)`), head at (19,2) heading right onto the free cell (20,2), food at (0,23): the shift writes `snake[100]` | room for every segment the 40 x 24 grid allows (960), or a length cap | not executed | Snake.SourceArrayOverflows | Snake.MoveFitsCapacity, Snake.SnakeGame |
| main/audio_manager.c:262-264 | `fseek(f, chunk_size, SEEK_CUR)` passes a `uint32_t` size as a 32-bit `long` | a chunk "JUNK" of size 0xFFFFFFF8 after the header (`JunkChunkFile`): the offset becomes -8 and the scan re-reads the same record forever | skip forward by the unsigned size, giving up at end of file | not executed | Wav.NegativeSkipLoops | AudioManager.ScanForData |
