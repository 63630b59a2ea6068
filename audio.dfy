/** The audio manager of `main/audio_manager.c`: the static transport and
    codec state, the sample-rate coordinator, WAV playback and recording, the
    test tone and the volume guard. The I2S driver and the ES8311 codec are
    an abstract device: every call the manager makes into them is appended to
    `hwLog`, and whether a call succeeds is a parameter. Files are byte
    sequences read through a cursor. */
module AudioManager {
  import opened Wrappers
  import opened Bytes
  import opened Wav

  /** AUDIO_SAMPLE_RATE: the rate at start-up and the tone generator's rate. */
  const DefaultSampleRate: U32 := 16000
  /** Peak value of the test tone's samples. */
  const ToneAmplitude: int := 15000
  /** Volume the codec is set to during initialisation. */
  const DefaultVolume: int := 65

  datatype EspErr = EspOk | EspFail | EspErrNoMem

  /** Calls into the transport and the codec, in the order they are made. */
  datatype HwEvent =
    | TxDisable                    // i2s_channel_disable(tx)
    | TxClockConfig(rate: nat)     // i2s_channel_reconfig_std_clock, MCLK = 256 x rate
    | TxEnable                     // i2s_channel_enable(tx)
    | CodecClockInit(rate: nat)    // es8311_init with MCLK = 256 x rate, 16-bit both ways
    | CodecVolume(percent: int)    // es8311_voice_volume_set
    | CodecMicAnalog               // es8311_microphone_config(handle, false)
    | CodecUnmute                  // es8311_voice_mute(handle, false)
    | MicGain18dB                  // es8311_microphone_gain_set(handle, 18 dB)
    | TxWrite(bytes: seq<Byte>)    // i2s_channel_write(tx, bytes)

  /** The transport state the sample-rate coordinator outcomes and changes. */
  datatype TransportView = TransportView(txReady: bool, codecReady: bool, rate: U32, txEnabled: bool)

  /** The outcome of `audio_set_sample_rate_internal`: its return value, the
      calls it made and the transport state it leaves. */
  datatype RateSwitch = RateSwitch(err: EspErr, events: seq<HwEvent>, after: TransportView)

  /** `audio_set_sample_rate_internal(rate)`. Same rate: nothing happens.
      Otherwise TX is disabled, its clock reconfigured (fails without a TX
      channel or when the driver refuses), the codec re-initialised (fails
      without a codec or when the codec refuses), TX re-enabled, and only then
      is the rate committed. A failure returns at once and leaves TX
      disabled. */
  function SwitchRate(v: TransportView, rate: U32, reconfigOk: bool, codecOk: bool): RateSwitch
  {
    if rate == v.rate then RateSwitch(EspOk, [], v)
    else if !(v.txReady && reconfigOk) then
      RateSwitch(EspFail, [TxDisable, TxClockConfig(rate)], v.(txEnabled := false))
    else if !(v.codecReady && codecOk) then
      RateSwitch(EspFail, [TxDisable, TxClockConfig(rate), CodecClockInit(rate)], v.(txEnabled := false))
    else
      RateSwitch(EspOk, [TxDisable, TxClockConfig(rate), CodecClockInit(rate), TxEnable],
                 v.(rate := rate, txEnabled := true))
  }

  /** Asking for the rate already active is a no-op: OK, no driver call. */
  lemma SwitchToCurrentRateIsNoOp(v: TransportView, reconfigOk: bool, codecOk: bool)
    ensures var r := SwitchRate(v, v.rate, reconfigOk, codecOk);
            r.err == EspOk && r.events == [] && r.after == v
  {
  }

  /** The rate is committed exactly when both reconfiguration steps succeed;
      on failure the old rate stays and TX is left disabled. */
  lemma SwitchCommitsOnlyOnSuccess(v: TransportView, rate: U32, reconfigOk: bool, codecOk: bool)
    requires rate != v.rate
    ensures var r := SwitchRate(v, rate, reconfigOk, codecOk);
            && (r.err == EspOk <==> v.txReady && reconfigOk && v.codecReady && codecOk)
            && (r.err == EspOk ==> r.after.rate == rate && r.after.txEnabled)
            && (r.err != EspOk ==> r.after.rate == v.rate && !r.after.txEnabled)
            && r.events[..2] == [TxDisable, TxClockConfig(rate)]
            && (CodecClockInit(rate) in r.events <==> v.txReady && reconfigOk)
  {
  }

  /** After a successful switch, switching to the same rate again changes
      nothing and calls nothing. */
  lemma SwitchTwiceIsNoOp(v: TransportView, rate: U32, ok1: bool, ok2: bool, ok3: bool, ok4: bool)
    requires SwitchRate(v, rate, ok1, ok2).err == EspOk
    ensures var first := SwitchRate(v, rate, ok1, ok2);
            var second := SwitchRate(first.after, rate, ok3, ok4);
            first.after.rate == rate && second.events == [] && second.after == first.after
  {
  }

  /** The transport writes for a sequence of buffers. */
  function Writes(pieces: seq<seq<Byte>>): (ev: seq<HwEvent>)
    ensures |ev| == |pieces|
    ensures forall i :: 0 <= i < |pieces| ==> ev[i] == TxWrite(pieces[i])
  {
    if pieces == [] then [] else [TxWrite(pieces[0])] + Writes(pieces[1..])
  }

  /** `fread(buf, 1, count, f)` with the file cursor at `cursor`: as many
      bytes as remain, at most `count`; nothing at or past the end. */
  function Fread(file: seq<Byte>, cursor: nat, count: nat): (r: seq<Byte>)
    ensures |r| <= count
    ensures |r| < count ==> cursor + |r| >= |file|
    ensures cursor + |r| <= |file| || r == []
    ensures cursor <= |file| ==> r == file[cursor..cursor + |r|]
  {
    if cursor >= |file| then []
    else if count <= |file| - cursor then file[cursor..cursor + count]
    else file[cursor..]
  }

  /** The chunk-scan loop of `audio_play_wav`: seek to byte 12, then read
      (id, size) records until the id is "data" (compared as the `uint32_t`
      0x61746164) or a read comes up short. */
  method ScanForData(file: seq<Byte>) returns (found: Option<DataChunk>)
    ensures found == FindData(file, ScanStart)
  {
    var cursor: nat := ScanStart;
    while true
      invariant FindData(file, cursor) == FindData(file, ScanStart)
      decreases |file| - cursor
    {
      var id := Fread(file, cursor, 4);
      if |id| != 4 {
        return None;
      }
      var sizeField := Fread(file, cursor + 4, 4);
      if |sizeField| != 4 {
        return None;
      }
      var size := ReadLe32(sizeField);
      DataWordIsDataId(id);
      if ReadLe32(id) == DataIdWord {
        return Some(DataChunk(cursor + 8, size));
      }
      cursor := cursor + 8 + size;
    }
  }

  /** The bytes the streaming loop plays from a located `data` chunk. */
  function Payload(file: seq<Byte>, d: DataChunk): (p: seq<Byte>)
    ensures |p| <= d.size
    ensures d.start <= |file| ==> |p| == Playable(file, d) && p == file[d.start..d.start + |p|]
  {
    if d.start <= |file| then file[d.start..d.start + Playable(file, d)] else []
  }

  /** The streaming loop of `audio_play_wav`: read at most 1024 bytes and at
      most what is left of `len`, write what was read, stop at `len` or at a
      read of zero bytes. */
  method StreamPayload(file: seq<Byte>, start: nat, len: U32) returns (pieces: seq<seq<Byte>>, played: nat)
    requires start <= |file|
    ensures played == Playable(file, DataChunk(start, len)) <= len
    ensures pieces == Chunks(Payload(file, DataChunk(start, len)))
  {
    ghost var total := Playable(file, DataChunk(start, len));
    ghost var all := file[start..start + total];
    pieces, played := [], 0;
    while played < len
      invariant played <= total
      invariant pieces + Chunks(all[played..]) == Chunks(all)
      decreases len - played
    {
      var toRead := StreamChunk;
      if played + StreamChunk > len {
        toRead := len - played;
      }
      var got := Fread(file, start + played, toRead);
      if |got| == 0 {
        break;
      }
      ghost var rest := all[played..];
      assert rest != [] && |got| == if |rest| < StreamChunk then |rest| else StreamChunk;
      ChunksStep(rest, |got|);
      assert rest[..|got|] == got;
      assert rest[|got|..] == all[played + |got|..];
      pieces := pieces + [got];
      played := played + |got|;
    }
    assert all[played..] == [];
  }

  /** The writes of the streaming loop carry `Playable` bytes in all: the
      payload's length, at most `data_bytes`. */
  lemma StreamedByteCount(file: seq<Byte>, d: DataChunk)
    requires d.start <= |file|
    ensures SumLengths(Chunks(Payload(file, d))) == Playable(file, d) <= d.size
  {
    ChunksFlatten(Payload(file, d));
    FlattenLength(Chunks(Payload(file, d)));
  }

  /** Two's-complement little-endian image of `int16_t` samples. */
  function SamplesToBytes(s: seq<I16>): (r: seq<Byte>)
    ensures |r| == 2 * |s|
  {
    if s == [] then []
    else Le16(if s[0] >= 0 then s[0] else s[0] as int + 0x1_0000) + SamplesToBytes(s[1..])
  }

  /** The `int16_t` sample k of a byte buffer, as the transport reads it. */
  function SampleAt(bytes: seq<Byte>, k: nat): I16
    requires 2 * k + 2 <= |bytes|
  {
    var u := ReadLe16(bytes[2 * k..2 * k + 2]);
    if u < 0x8000 then u else u - 0x1_0000
  }

  /** Every sample reads back from its two bytes unchanged. */
  lemma {:induction false} SamplesToBytesDecode(s: seq<I16>, k: nat)
    requires k < |s|
    ensures SampleAt(SamplesToBytes(s), k) == s[k]
  {
    var u: U16 := if s[0] >= 0 then s[0] else s[0] as int + 0x1_0000;
    var rest := SamplesToBytes(s[1..]);
    assert SamplesToBytes(s) == Le16(u) + rest;
    if k == 0 {
      assert SamplesToBytes(s)[0..2] == Le16(u);
      Le16RoundTrip(u);
    } else {
      assert SamplesToBytes(s)[2 * k..2 * k + 2] == rest[2 * (k - 1)..2 * (k - 1) + 2];
      SamplesToBytesDecode(s[1..], k - 1);
    }
  }

  /** A test-tone sample: the sine scaled by 15000 and truncated. */
  type ToneSample = x: int | -ToneAmplitude <= x <= ToneAmplitude

  /** Frames of a tone of `durationMs` at the fixed 16 kHz, computed in
      `uint32_t` as the source does. */
  function ToneFrames(durationMs: U32): (frames: nat)
    ensures durationMs * DefaultSampleRate < TwoTo32 ==> frames == DefaultSampleRate * durationMs / 1000
  {
    Wrap32(DefaultSampleRate * durationMs) / 1000
  }

  /** Up to 268435 ms the frame count is exactly 16 per millisecond; 100 ms
      gives the 1600 frames of a tenth of a second. */
  lemma ToneFramesExact(durationMs: U32)
    requires durationMs <= 268435
    ensures ToneFrames(durationMs) == 16 * durationMs
    ensures durationMs == 100 ==> ToneFrames(durationMs) == DefaultSampleRate / 10
  {
  }

  /** The interleaved stereo buffer of a tone: the same sample of frame i on
      the left (2i) and the right (2i+1) channel. */
  function ToneBuffer(frames: nat, sine: nat -> ToneSample): (buf: seq<I16>)
    ensures |buf| == 2 * frames
  {
    seq(2 * frames, (k: nat) => sine(k / 2))
  }

  /** The buffer loop of `audio_play_tone`. */
  method FillTone(frames: nat, sine: nat -> ToneSample) returns (buf: array<I16>)
    ensures fresh(buf) && buf[..] == ToneBuffer(frames, sine)
    ensures forall i :: 0 <= i < frames ==> buf[2 * i] == sine(i) && buf[2 * i + 1] == sine(i)
  {
    buf := new I16[2 * frames];
    var i := 0;
    while i < frames
      invariant 0 <= i <= frames
      invariant forall k :: 0 <= k < 2 * i ==> buf[k] == sine(k / 2)
    {
      var val := sine(i);
      buf[i * 2] := val;
      buf[i * 2 + 1] := val;
      i := i + 1;
    }
  }

  /** Both channels of every frame carry the same sample, inside +-15000. */
  lemma ToneIsMonoAndBounded(frames: nat, sine: nat -> ToneSample, i: nat)
    requires i < frames
    ensures var buf := ToneBuffer(frames, sine);
            buf[2 * i] == buf[2 * i + 1] == sine(i)
            && -ToneAmplitude <= buf[2 * i] <= ToneAmplitude
  {
  }

  /** One `i2s_channel_read` of the capture loop: bytes, or a timeout. */
  datatype ReadOutcome = Captured(bytes: seq<Byte>) | ReadTimeout

  /** Everything the capture loop appends to the file, in order. */
  function CapturedBytes(outcomes: seq<ReadOutcome>): seq<Byte>
  {
    if outcomes == [] then []
    else CapturedBytes(outcomes[..|outcomes| - 1])
         + match outcomes[|outcomes| - 1]
           case Captured(b) => b
           case ReadTimeout => []
  }

  /** Recording then playing back: the scan of the recorded file locates the
      captured bytes, and the writes the player issues carry exactly them, in
      pieces of at most 1024 bytes. */
  lemma {:induction false} RecordThenPlay(rate: U32, outcomes: seq<ReadOutcome>)
    requires |CapturedBytes(outcomes)| + 36 < TwoTo32
    ensures var captured := CapturedBytes(outcomes);
            var file := EncodeHeader(RecordedHeader(rate, |captured|)) + captured;
            && HeaderAccepted(file)
            && FindData(file, ScanStart) == Some(DataChunk(HeaderSize, |captured|))
            && Payload(file, DataChunk(HeaderSize, |captured|)) == captured
            && Flatten(Chunks(captured)) == captured
  {
    var captured := CapturedBytes(outcomes);
    RecordedFileParses(rate, captured);
    ChunksFlatten(captured);
  }

  /** The header checks of `audio_play_wav`: 44 bytes could be read and the
      magic fields are "RIFF" and "WAVE". */
  predicate HeaderAccepted(file: seq<Byte>)
  {
    |file| >= HeaderSize && MagicOk(DecodeHeader(file[..HeaderSize]))
  }

  /** The sample rate the header declares. */
  function DeclaredRate(file: seq<Byte>): U32
    requires |file| >= HeaderSize
  {
    DecodeHeader(file[..HeaderSize]).sampleRate
  }

  /** The rate switch `audio_play_wav` attempts: only for a declared rate in
      (0, 48000]; any other rate leaves the transport as it is. */
  function PlaybackSwitch(v: TransportView, declared: U32, reconfigOk: bool, codecOk: bool): (r: RateSwitch)
    ensures !RateSupported(declared) ==> r.events == [] && r.after == v
    ensures r.after.rate == v.rate || r.after.rate == declared
  {
    if RateSupported(declared) then SwitchRate(v, declared, reconfigOk, codecOk)
    else RateSwitch(EspOk, [], v)
  }

  /** The static state of `audio_manager.c`. */
  class Audio {
    /** `tx_handle != NULL` */
    var txReady: bool
    /** `rx_handle != NULL` */
    var rxReady: bool
    /** `s_es_handle != NULL` */
    var codecReady: bool
    /** Whether the TX channel is enabled. */
    var txEnabled: bool
    /** `current_sample_rate` */
    var currentSampleRate: U32
    /** The TX-path and codec calls the model tracks, each recorded when it
        is made, whether or not it succeeds. Channel creation, the std-mode
        set-up and the RX enable are not recorded. */
    var hwLog: seq<HwEvent>

    function View(): TransportView
      reads this
    {
      TransportView(txReady, codecReady, currentSampleRate, txEnabled)
    }

    /** The state before `audio_init`: no handles, the default rate. */
    constructor ()
      ensures !txReady && !rxReady && !codecReady && !txEnabled
      ensures currentSampleRate == DefaultSampleRate && hwLog == []
    {
      txReady, rxReady, codecReady, txEnabled := false, false, false, false;
      currentSampleRate := DefaultSampleRate;
      hwLog := [];
    }

    /** `audio_init`: create the duplex channel, configure and enable it,
        then create and configure the codec. `i2sSteps` and `codecSteps` are
        how many of the four driver calls of each phase succeed. A failing step
        returns at once; nothing done before it is undone. */
    method Init(channelOk: bool, i2sSteps: nat, codecCreated: bool, codecSteps: nat) returns (err: EspErr)
      modifies this
      ensures err == EspOk <==> channelOk && i2sSteps >= 4 && codecCreated && codecSteps >= 4
      ensures txReady == (old(txReady) || channelOk) && rxReady == (old(rxReady) || channelOk)
      ensures txEnabled == (old(txEnabled) || (channelOk && i2sSteps >= 3))
      ensures codecReady == (old(codecReady) || (channelOk && i2sSteps >= 4 && codecCreated))
      ensures currentSampleRate == old(currentSampleRate)
      ensures hwLog == old(hwLog)
        + (if channelOk && i2sSteps >= 2 then [TxEnable] else [])
        + (if channelOk && i2sSteps >= 4 && codecCreated then
             [CodecClockInit(currentSampleRate)]
             + (if codecSteps >= 1 then [CodecVolume(DefaultVolume)] else [])
             + (if codecSteps >= 2 then [CodecMicAnalog] else [])
             + (if codecSteps >= 3 then [CodecUnmute] else [])
           else [])
    {
      // audio_i2s_init
      if !channelOk {
        return EspFail;
      }
      txReady, rxReady := true, true;
      // TX std mode, RX std mode, TX enable, RX enable
      if i2sSteps >= 2 {
        hwLog := hwLog + [TxEnable];
      }
      if i2sSteps >= 3 {
        txEnabled := true;
      }
      if i2sSteps < 4 {
        return EspFail;
      }
      // audio_codec_init
      if !codecCreated {
        return EspFail;
      }
      codecReady := true;
      hwLog := hwLog + [CodecClockInit(currentSampleRate)];
      if codecSteps < 1 {
        return EspFail;
      }
      hwLog := hwLog + [CodecVolume(DefaultVolume)];
      if codecSteps < 2 {
        return EspFail;
      }
      hwLog := hwLog + [CodecMicAnalog];
      if codecSteps < 3 {
        return EspFail;
      }
      hwLog := hwLog + [CodecUnmute];
      if codecSteps < 4 {
        return EspFail;
      }
      return EspOk;
    }

    /** `audio_set_sample_rate_internal`, step by step. */
    method SetSampleRateInternal(rate: U32, reconfigOk: bool, codecOk: bool) returns (err: EspErr)
      modifies this
      ensures var r := SwitchRate(old(View()), rate, reconfigOk, codecOk);
              err == r.err && View() == r.after && hwLog == old(hwLog) + r.events
      ensures rxReady == old(rxReady)
    {
      if rate == currentSampleRate {
        return EspOk;
      }
      // 1. disable TX
      hwLog := hwLog + [TxDisable];
      txEnabled := false;
      // 2. reconfigure the TX clock
      hwLog := hwLog + [TxClockConfig(rate)];
      if !(txReady && reconfigOk) {
        return EspFail;
      }
      // 3. re-initialise the codec clock
      hwLog := hwLog + [CodecClockInit(rate)];
      if !(codecReady && codecOk) {
        return EspFail;
      }
      // 4. enable TX
      hwLog := hwLog + [TxEnable];
      txEnabled := true;
      currentSampleRate := rate;
      return EspOk;
    }

    /** `audio_play_wav`. `file` is the file's contents, `None` when it cannot
        be opened; `reconfigOk`/`codecOk` are the driver outcomes of a rate
        switch; `allocOk` is the outcome of the 1024-byte `malloc`. */
    method PlayWav(file: Option<seq<Byte>>, reconfigOk: bool, codecOk: bool, allocOk: bool) returns (err: EspErr)
      modifies this
      ensures rxReady == old(rxReady)
      ensures !old(txReady) || file.None? || !HeaderAccepted(file.value) ==>
                err == EspFail && View() == old(View()) && hwLog == old(hwLog)
      ensures old(txReady) && file.Some? && HeaderAccepted(file.value) ==>
                var f := file.value;
                var sw := PlaybackSwitch(old(View()), DeclaredRate(f), reconfigOk, codecOk);
                && View() == sw.after
                && match FindData(f, ScanStart)
                   case None => err == EspFail && hwLog == old(hwLog) + sw.events
                   case Some(d) =>
                     if allocOk then
                       err == EspOk && hwLog == old(hwLog) + sw.events + Writes(Chunks(Payload(f, d)))
                     else
                       err == EspErrNoMem && hwLog == old(hwLog) + sw.events
    {
      if !txReady {
        return EspFail;
      }
      if file.None? {
        return EspFail;
      }
      var f := file.value;
      var headerBytes := Fread(f, 0, HeaderSize);
      if |headerBytes| != HeaderSize {
        return EspFail;
      }
      var header := DecodeHeader(headerBytes);
      if header.riff != RiffId || header.wave != WaveId {
        return EspFail;
      }
      ghost var v0 := View();
      ghost var log0 := hwLog;
      if header.sampleRate > 0 && header.sampleRate <= MaxSupportedRate {
        var _ := SetSampleRateInternal(header.sampleRate, reconfigOk, codecOk);
      }
      ghost var sw := PlaybackSwitch(v0, DeclaredRate(f), reconfigOk, codecOk);
      assert View() == sw.after && hwLog == log0 + sw.events;
      var found := ScanForData(f);
      if found.None? {
        return EspFail;
      }
      if !allocOk {
        return EspErrNoMem;
      }
      FindDataSound(f, ScanStart);
      var pieces, played := StreamPayload(f, found.value.start, found.value.size);
      hwLog := hwLog + Writes(pieces);
      return EspOk;
    }

    /** `audio_set_volume`: forwarded to the codec when there is one. */
    method SetVolume(percent: int, codecAccepts: bool) returns (err: EspErr)
      modifies this
      ensures !old(codecReady) ==> err == EspFail && hwLog == old(hwLog)
      ensures old(codecReady) ==> hwLog == old(hwLog) + [CodecVolume(percent)]
                                  && (err == EspOk <==> codecAccepts)
      ensures View() == old(View()) && rxReady == old(rxReady)
    {
      if codecReady {
        hwLog := hwLog + [CodecVolume(percent)];
        return if codecAccepts then EspOk else EspFail;
      }
      return EspFail;
    }

    /** `audio_play_tone`. `sine(i)` stands for the truncated
        `sin(2 pi freq i / 16000) * 15000` of frame i; `allocOk` is the outcome
        of the buffer `malloc`. One write carries the whole buffer. */
    method PlayTone(durationMs: U32, sine: nat -> ToneSample, allocOk: bool) returns (err: EspErr)
      modifies this
      ensures !old(txReady) ==> err == EspFail && hwLog == old(hwLog)
      ensures old(txReady) && !allocOk ==> err == EspErrNoMem && hwLog == old(hwLog)
      ensures old(txReady) && allocOk ==>
                err == EspOk && |hwLog| == |old(hwLog)| + 1 && hwLog[..|old(hwLog)|] == old(hwLog)
                && hwLog[|old(hwLog)|] == TxWrite(SamplesToBytes(ToneBuffer(ToneFrames(durationMs), sine)))
                && |hwLog[|old(hwLog)|].bytes| == 4 * ToneFrames(durationMs)
      ensures View() == old(View()) && rxReady == old(rxReady)
    {
      if !txReady {
        return EspFail;
      }
      var frames := ToneFrames(durationMs);
      if !allocOk {
        return EspErrNoMem;
      }
      var buffer := FillTone(frames, sine);
      hwLog := hwLog + [TxWrite(SamplesToBytes(buffer[..]))];
      return EspOk;
    }

    /** `audio_record_wav`. `created` is whether the file could be created,
        `allocOk` the outcome of the buffer `malloc`, and `outcomes` those
        of the `i2s_channel_read` calls made before the deadline. `file` is what
        the output file holds afterwards (`None`: no file was created). */
    method RecordWav(created: bool, allocOk: bool, outcomes: seq<ReadOutcome>) returns (err: EspErr, file: Option<seq<Byte>>)
      modifies this
      ensures !old(rxReady) ==> err == EspFail && file.None? && hwLog == old(hwLog)
      ensures old(rxReady) && !created ==> err == EspFail && file.None? && hwLog == old(hwLog)
      ensures old(rxReady) && created ==>
                hwLog == old(hwLog) + (if old(codecReady) then [MicGain18dB] else [])
      ensures old(rxReady) && created && !allocOk ==>
                err == EspErrNoMem && file == Some(EncodeHeader(ZeroHeader()))
      ensures old(rxReady) && created && allocOk ==>
                err == EspOk
                && file == Some(EncodeHeader(RecordedHeader(currentSampleRate, |CapturedBytes(outcomes)|))
                                + CapturedBytes(outcomes))
      ensures View() == old(View()) && rxReady == old(rxReady)
    {
      if !rxReady {
        return EspFail, None;
      }
      if !created {
        return EspFail, None;
      }
      var contents := EncodeHeader(ZeroHeader());
      // audio_codec_enable_adc
      if codecReady {
        hwLog := hwLog + [MicGain18dB];
      }
      if !allocOk {
        return EspErrNoMem, Some(contents);
      }
      var total := 0;
      var i := 0;
      while i < |outcomes|
        invariant 0 <= i <= |outcomes|
        invariant contents == EncodeHeader(ZeroHeader()) + CapturedBytes(outcomes[..i])
        invariant total == |CapturedBytes(outcomes[..i])|
      {
        assert outcomes[..i + 1][..i] == outcomes[..i];
        match outcomes[i] {
          case Captured(b) =>
            contents := contents + b;
            total := total + |b|;
          case ReadTimeout =>
        }
        i := i + 1;
      }
      assert outcomes[..|outcomes|] == outcomes;
      var header := RecordedHeader(currentSampleRate, total);
      contents := EncodeHeader(header) + contents[HeaderSize..];
      return EspOk, Some(contents);
    }
  }
}
