/** The media pipeline from captured frames to the main stream (src/media/pipeline/MediaPipeline.cpp, with
    src/media/process/FormatConvertNode.cpp and the encoder's checks). Cameras, codecs and the stream answer in any
    way they like: one record of answers per loop turn. */
module MediaPipeline {
  import opened Foundation
  import opened Bytes
  import opened ModePlanning
  import MainStream

  datatype VideoFrame = VideoFrame(
    format: PixelFormat, width: nat, height: nat, data: seq<byte>, ptsMs: int, sequence: nat)

  type EncodedFrame = MainStream.EncodedFrame

  type Outcome = Option<ErrorCode>

  /** What the runtime context offers: the two managers, the two cameras, and the hardware codecs. */
  datatype Context = Context(
    cameraManager: bool, mainStream: bool, visibleCamera: bool, compositeCamera: bool,
    mjpegDecoder: bool, encoder: bool)

  datatype State = Created | Initialized | Running | Stopped | Error

  datatype Decoder = NoDecoder | Passthrough | Hardware

  datatype Stats = Stats(captured: nat, decoded: nat, encoded: nat, errors: nat)

  /** The answers to one init. */
  datatype InitAnswers = InitAnswers(visible: Outcome, composite: Outcome, decoder: Outcome, encoder: Outcome)

  /** The answers during one loop turn: what the cameras, decoder, converter and encoder return, whether the stream
      takes the frame, and the clock. */
  datatype Answers = Answers(
    fromVisible: Result<VideoFrame>, fromComposite: Result<VideoFrame>, decode: Result<VideoFrame>,
    convert: Result<seq<byte>>, encode: Result<(seq<byte>, bool)>, push: Outcome, nowMs: int)

  /** What start has turned on: the capture nodes and the stream. */
  datatype Power = Power(visible: bool, composite: bool, stream: bool)

  const OFF := Power(false, false, false)

  /** A pipeline with its nodes (the converter with its target), which of them run, and what its encoder was given
      and the stream took since the last init. */
  datatype Pipeline = Pipeline(
    state: State, config: PipelineConfig, context: Context,
    visible: bool, composite: bool, decoder: Decoder, convert: Option<PixelFormat>, encoder: bool,
    encoderSequence: nat, on: Power,
    stats: Stats, encoderInputs: seq<VideoFrame>, published: seq<EncodedFrame>)

  const NO_STATS := Stats(0, 0, 0, 0)

  const NO_CONTEXT := Context(false, false, false, false, false, false)

  const FRESH_PIPELINE :=
    Pipeline(Created, COMPOSITE_ONLY_AUTO.(useDecoder := false, useEncoder := false, useFormatConvert := false),
             NO_CONTEXT, false, false, NoDecoder, None, false, 0, OFF, NO_STATS, [], [])

  // ---------------------------------------------------------------- init and start

  function ValidateContext(config: PipelineConfig, context: Context): Result<Unit> {
    if !context.cameraManager || !context.mainStream then Err(InvalidArgument)
    else if config.requireVisible && !context.visibleCamera then Err(VisibleCameraOffline)
    else if config.requireComposite && !context.compositeCamera then Err(CompositeCameraOffline)
    else if config.useEncoder && !context.encoder then Err(EncoderInitFailed)
    else Ok(Unit.Unit)
  }

  function CaptureNodesStep(p: Pipeline, a: InitAnswers): (Result<Unit>, Pipeline) {
    var p1 := p.(visible := p.visible || p.config.requireVisible);
    if p.config.requireVisible && a.visible.Some? then (Err(a.visible.value), p1)
    else
      var p2 := p1.(composite := p.composite || p.config.requireComposite);
      if p.config.requireComposite && a.composite.Some? then (Err(a.composite.value), p2) else (Ok(Unit.Unit), p2)
  }

  function DecoderNodeStep(p: Pipeline, a: InitAnswers): (Result<Unit>, Pipeline) {
    if !p.config.useDecoder then (Ok(Unit.Unit), p)
    else if p.context.mjpegDecoder then
      (if a.decoder.Some? then Err(a.decoder.value) else Ok(Unit.Unit), p.(decoder := Hardware))
    else (Ok(Unit.Unit), p.(decoder := Passthrough))
  }

  function EncoderNodesStep(p: Pipeline, a: InitAnswers): (Result<Unit>, Pipeline) {
    if !p.config.useEncoder then (Ok(Unit.Unit), p.(state := Initialized))
    else
      var p1 := p.(convert := if p.config.useFormatConvert then Some(p.config.encoderInputFormat) else p.convert,
                   encoder := true, encoderSequence := 0);
      if a.encoder.Some? then (Err(a.encoder.value), p1) else (Ok(Unit.Unit), p1.(state := Initialized))
  }

  function CodecNodesStep(p: Pipeline, a: InitAnswers): (Result<Unit>, Pipeline) {
    var (r, p1) := DecoderNodeStep(p, a);
    if r.Err? then (r, p1) else EncoderNodesStep(p1, a)
  }

  /** Nodes of an earlier init stay where the new configuration makes none. */
  function InitStep(p: Pipeline, config: PipelineConfig, context: Context, a: InitAnswers): (Result<Unit>, Pipeline) {
    if p.state == Running then (Err(Busy), p)
    else
      var p0 := p.(config := config, context := context, stats := NO_STATS, encoderInputs := [], published := []);
      if ValidateContext(config, context).Err? then (ValidateContext(config, context), p0)
      else
        var (r, p1) := CaptureNodesStep(p0, a);
        if r.Err? then (r, p1) else CodecNodesStep(p1, a)
  }

  /** The nodes are the ones the configuration asks for. */
  predicate Built(p: Pipeline) {
    && p.visible == p.config.requireVisible && p.composite == p.config.requireComposite
    && (p.decoder != NoDecoder <==> p.config.useDecoder)
    && p.encoder == p.config.useEncoder
    && p.convert == (if p.config.useEncoder && p.config.useFormatConvert
                     then Some(p.config.encoderInputFormat)
                     else None)
  }

  // ---------------------------------------------------------------- one frame

  /** The converter's output buffer, filled by the hardware. */
  function Fit(pixels: seq<byte>, n: nat): (data: seq<byte>)
    ensures |data| == n
  {
    if |pixels| >= n then pixels[..n] else pixels + seq(n - |pixels|, _ => 0)
  }

  function ConvertFrame(target: PixelFormat, f: VideoFrame, answer: Result<seq<byte>>): Result<VideoFrame> {
    if f.format == target then Ok(f)
    else if target == Nv12 && f.format == Yuyv422 then
      if f.width == 0 || f.height == 0 then Err(InvalidArgument)
      else if |f.data| < f.width * f.height * 2 then Err(InvalidArgument)
      else if answer.Err? then Err(answer.code)
      else Ok(VideoFrame(Nv12, f.width, f.height, Fit(answer.value, f.width * f.height * 3 / 2), f.ptsMs, f.sequence))
    else Err(Unsupported)
  }

  /** The frame the encoder or the stream gets, with the count of decoded frames. */
  function PrepareForPipeline(p: Pipeline, f: VideoFrame, a: Answers): (Result<VideoFrame>, Pipeline) {
    if f.format == UnknownFormat then (Err(Unsupported), p)
    else if f.format == Mjpeg && p.decoder != NoDecoder then
      var decoded := if p.decoder == Passthrough then Ok(f) else a.decode;
      if decoded.Err? then (Err(MjpegDecodeFailed), p)
      else
        var p1 := p.(stats := p.stats.(decoded := p.stats.decoded + 1));
        (if p.encoder then PrepareForEncoder(p, decoded.value, a) else Ok(decoded.value), p1)
    else if f.format == Mjpeg && p.encoder then (Err(MjpegDecodeFailed), p)
    else (if p.encoder then PrepareForEncoder(p, f, a) else Ok(f), p)
  }

  function PrepareForEncoder(p: Pipeline, f: VideoFrame, a: Answers): Result<VideoFrame> {
    if f.format == p.config.encoderInputFormat then Ok(f)
    else if p.convert.None? then Err(Unsupported)
    else ConvertFrame(p.convert.value, f, a.convert)
  }

  /** The H.264 encoder: its checks, then the hardware's answer. */
  function EncodeFrame(sequence: nat, f: VideoFrame, answer: Result<(seq<byte>, bool)>): (Result<EncodedFrame>, nat) {
    if f.format != Nv12 then (Err(Unsupported), sequence)
    else if f.width == 0 || f.height == 0 || f.data == [] then (Err(InvalidArgument), sequence)
    else if |f.data| < f.width * f.height * 3 / 2 then (Err(InvalidArgument), sequence)
    else if answer.Err? then (Err(answer.code), sequence)
    else
      var next := if f.sequence != 0 then sequence else sequence + 1;
      (Ok(MainStream.EncodedFrame(MainStream.H264, answer.value.0, f.ptsMs, answer.value.1,
                                 if f.sequence != 0 then f.sequence else next)),
       next)
  }

  function PushStep(p: Pipeline, e: EncodedFrame, push: Outcome): (Result<Unit>, Pipeline) {
    var p1 := p.(stats := p.stats.(encoded := p.stats.encoded + 1));
    if push.Some? then (Err(push.value), p1) else (Ok(Unit.Unit), p1.(published := p1.published + [e]))
  }

  function PublishStep(p: Pipeline, f: VideoFrame, a: Answers): (Result<Unit>, Pipeline) {
    if p.encoder then
      var (encoded, sequence) := EncodeFrame(p.encoderSequence, f, a.encode);
      var p1 := p.(encoderInputs := p.encoderInputs + [f], encoderSequence := sequence);
      if encoded.Err? then (Err(encoded.code), p1) else PushStep(p1, encoded.value, a.push)
    else if !p.config.passthroughEncoded then (Err(Unsupported), p)
    else if f.format != Mjpeg then (Err(Unsupported), p)
    else
      var pts := if f.ptsMs == 0 then a.nowMs else f.ptsMs;
      PushStep(p, MainStream.EncodedFrame(MainStream.MotionJpeg, f.data, pts, false, f.sequence), a.push)
  }

  /** The composite camera is asked first. */
  function Capture(p: Pipeline, a: Answers): Result<VideoFrame> {
    if p.config.requireComposite && p.composite then a.fromComposite
    else if p.config.requireVisible && p.visible then a.fromVisible
    else Err(PipelineBuildFailed)
  }

  function ProcessStep(p: Pipeline, a: Answers): (Result<Unit>, Pipeline) {
    var capture := Capture(p, a);
    if capture.Err? then (Err(capture.code), p)
    else
      var p1 := p.(stats := p.stats.(captured := p.stats.captured + 1));
      var (prepared, p2) := PrepareForPipeline(p1, capture.value, a);
      if prepared.Err? then (Err(prepared.code), p2) else PublishStep(p2, prepared.value, a)
  }

  /** A timeout is no reason to leave the running state. */
  predicate Hard(code: ErrorCode) { code != Timeout && code != SerialReadTimeout }

  function RecordError(p: Pipeline, code: ErrorCode): Pipeline {
    p.(stats := p.stats.(errors := p.stats.errors + 1), state := if Hard(code) then Error else p.state)
  }

  /** One turn of the worker loop. */
  function TurnStep(p: Pipeline, a: Answers): Pipeline {
    var (r, p1) := ProcessStep(p, a);
    if r.Err? then RecordError(p1, r.code) else p1
  }

  // ---------------------------------------------------------------- start and stop

  predicate CanStart(p: Pipeline) { p.state == Initialized || p.state == Stopped }

  /** When the composite node does not start, the visible one is stopped again. */
  function StartCaptureStep(p: Pipeline, visible: Outcome, composite: Outcome): (Result<Unit>, Pipeline) {
    if p.visible && visible.Some? then (Err(visible.value), p)
    else if p.composite && composite.Some? then
      (Err(composite.value), p.(on := p.on.(visible := !p.visible && p.on.visible)))
    else
      (Ok(Unit.Unit),
       p.(on := p.on.(visible := p.visible || p.on.visible, composite := p.composite || p.on.composite)))
  }

  /** Start up to the creation of the worker thread. */
  function LaunchStep(p: Pipeline, visible: Outcome, composite: Outcome): (Result<Unit>, Pipeline) {
    if !CanStart(p) then (Err(NotInitialized), p)
    else
      var (r, p1) := StartCaptureStep(p, visible, composite);
      if r.Err? then (r, p1) else (r, p1.(on := p1.on.(stream := true)))
  }

  /** The rest of start; the worker may have taken turns since. */
  function MarkRunning(p: Pipeline): Pipeline { p.(state := Running) }

  function StopStep(p: Pipeline): Pipeline {
    p.(on := Power(!p.visible && p.on.visible, !p.composite && p.on.composite, !p.context.mainStream && p.on.stream),
       state := Stopped)
  }

  /** Any number of worker turns. */
  function Run(p: Pipeline, turns: seq<Answers>): Pipeline {
    if turns == [] then p else TurnStep(Run(p, turns[..|turns| - 1]), turns[|turns| - 1])
  }

  // ---------------------------------------------------------------- the object

  class MediaPipeline {
    var state: State
    var config: PipelineConfig
    var context: Context
    var visible: bool
    var composite: bool
    var decoder: Decoder
    var convert: Option<PixelFormat>
    var encoder: bool
    var encoderSequence: nat
    var on: Power
    var stats: Stats
    ghost var encoderInputs: seq<VideoFrame>
    ghost var published: seq<EncodedFrame>

    ghost function View(): Pipeline
      reads this
    {
      Pipeline(state, config, context, visible, composite, decoder, convert, encoder, encoderSequence, on, stats,
               encoderInputs, published)
    }

    constructor ()
      ensures View() == FRESH_PIPELINE
    {
      state, stats, context := Created, NO_STATS, NO_CONTEXT;
      config := COMPOSITE_ONLY_AUTO.(useDecoder := false, useEncoder := false, useFormatConvert := false);
      visible, composite, decoder, convert, encoder, encoderSequence := false, false, NoDecoder, None, false, 0;
      on := OFF;
      encoderInputs, published := [], [];
    }

    method InitCaptureNodes(a: InitAnswers) returns (r: Result<Unit>)
      modifies this`visible, this`composite
      ensures (r, View()) == CaptureNodesStep(old(View()), a)
    {
      if config.requireVisible {
        visible := true;
        if a.visible.Some? { return Err(a.visible.value); }
      }
      if config.requireComposite {
        composite := true;
        if a.composite.Some? { return Err(a.composite.value); }
      }
      return Ok(Unit.Unit);
    }

    method InitDecoderNode(a: InitAnswers) returns (r: Result<Unit>)
      modifies this`decoder
      ensures (r, View()) == DecoderNodeStep(old(View()), a)
    {
      if config.useDecoder {
        decoder := if context.mjpegDecoder then Hardware else Passthrough;
        if decoder == Hardware && a.decoder.Some? { return Err(a.decoder.value); }
      }
      return Ok(Unit.Unit);
    }

    method InitEncoderNodes(a: InitAnswers) returns (r: Result<Unit>)
      modifies this`convert, this`encoder, this`encoderSequence, this`state
      ensures (r, View()) == EncoderNodesStep(old(View()), a)
    {
      if config.useEncoder && config.useFormatConvert { convert := Some(config.encoderInputFormat); }
      if config.useEncoder {
        encoder, encoderSequence := true, 0;
        if a.encoder.Some? { return Err(a.encoder.value); }
      }
      state := Initialized;
      return Ok(Unit.Unit);
    }

    method Init(config: PipelineConfig, context: Context, a: InitAnswers) returns (r: Result<Unit>)
      modifies this
      ensures (r, View()) == InitStep(old(View()), config, context, a)
    {
      hide ValidateContext, DecoderNodeStep, EncoderNodesStep, CaptureNodesStep;
      if state == Running { return Err(Busy); }
      this.config, this.context, stats := config, context, NO_STATS;
      encoderInputs, published := [], [];
      r := ValidateContext(config, context);
      if r.Err? { return; }
      r := InitCaptureNodes(a);
      if r.Err? { return; }
      r := InitDecoderNode(a);
      if r.Err? { return; }
      r := InitEncoderNodes(a);
    }

    method StartCaptureNodes(visibleStart: Outcome, compositeStart: Outcome) returns (r: Result<Unit>)
      modifies this`on
      ensures (r, View()) == StartCaptureStep(old(View()), visibleStart, compositeStart)
    {
      if visible {
        if visibleStart.Some? { return Err(visibleStart.value); }
        on := on.(visible := true);
      }
      if composite {
        if compositeStart.Some? {
          if visible { on := on.(visible := false); }
          return Err(compositeStart.value);
        }
        on := on.(composite := true);
      }
      return Ok(Unit.Unit);
    }

    method Launch(visibleStart: Outcome, compositeStart: Outcome) returns (r: Result<Unit>)
      modifies this`on
      ensures (r, View()) == LaunchStep(old(View()), visibleStart, compositeStart)
    {
      if state != Initialized && state != Stopped { return Err(NotInitialized); }
      r := StartCaptureNodes(visibleStart, compositeStart);
      if r.Err? { return; }
      on := on.(stream := true);
    }

    /** Start, with the turns the worker takes before the state is set. */
    method Start(visibleStart: Outcome, compositeStart: Outcome, early: seq<Answers>) returns (r: Result<Unit>)
      modifies this
      ensures var (launched, p) := LaunchStep(old(View()), visibleStart, compositeStart);
              r == launched && View() == if launched.Err? then p else MarkRunning(Run(p, early))
    {
      hide LaunchStep, TurnStep;
      r := Launch(visibleStart, compositeStart);
      if r.Err? { return; }
      ghost var launched := View();
      assert early[..0] == [];
      for k := 0 to |early|
        invariant View() == Run(launched, early[..k])
      {
        assert early[..k + 1][..k] == early[..k];
        Turn(early[k]);
      }
      assert early[..|early|] == early;
      state := Running;
    }

    method Stop()
      modifies this`on, this`state
      ensures View() == StopStep(old(View()))
    {
      if visible { on := on.(visible := false); }
      if composite { on := on.(composite := false); }
      if context.mainStream { on := on.(stream := false); }
      state := Stopped;
    }

    method PrepareFrameForEncoder(f: VideoFrame, a: Answers) returns (r: Result<VideoFrame>)
      ensures r == PrepareForEncoder(View(), f, a)
    {
      if f.format == config.encoderInputFormat { return Ok(f); }
      if convert.None? { return Err(Unsupported); }
      return ConvertFrame(convert.value, f, a.convert);
    }

    method PrepareFrameForPipeline(captured: VideoFrame, a: Answers) returns (r: Result<VideoFrame>)
      modifies this`stats
      ensures (r, View()) == PrepareForPipeline(old(View()), captured, a)
    {
      var frame := captured;
      if frame.format == UnknownFormat { return Err(Unsupported); }
      if frame.format == Mjpeg {
        if decoder != NoDecoder {
          var decoded := if decoder == Passthrough then Ok(frame) else a.decode;
          if decoded.Err? { return Err(MjpegDecodeFailed); }
          frame := decoded.value;
          stats := stats.(decoded := stats.decoded + 1);
        } else if encoder {
          return Err(MjpegDecodeFailed);
        } else {
          return Ok(frame);
        }
      }
      if encoder {
        r := PrepareFrameForEncoder(frame, a);
        return;
      }
      return Ok(frame);
    }

    method PublishFrame(frame: VideoFrame, a: Answers) returns (r: Result<Unit>)
      modifies this`stats, this`encoderSequence, this`encoderInputs, this`published
      ensures (r, View()) == PublishStep(old(View()), frame, a)
    {
      var out: EncodedFrame;
      if encoder {
        encoderInputs := encoderInputs + [frame];
        var (encoded, sequence) := EncodeFrame(encoderSequence, frame, a.encode);
        encoderSequence := sequence;
        if encoded.Err? { return Err(encoded.code); }
        out := encoded.value;
      } else {
        if !config.passthroughEncoded { return Err(Unsupported); }
        if frame.format != Mjpeg { return Err(Unsupported); }
        var pts := if frame.ptsMs == 0 then a.nowMs else frame.ptsMs;
        out := MainStream.EncodedFrame(MainStream.MotionJpeg, frame.data, pts, false, frame.sequence);
      }
      stats := stats.(encoded := stats.encoded + 1);
      if a.push.Some? { return Err(a.push.value); }
      published := published + [out];
      return Ok(Unit.Unit);
    }

    method ProcessOneFrame(a: Answers) returns (r: Result<Unit>)
      modifies this`stats, this`encoderSequence, this`encoderInputs, this`published
      ensures (r, View()) == ProcessStep(old(View()), a)
    {
      hide PrepareForPipeline, PublishStep;
      var frame: VideoFrame;
      if config.requireComposite && composite {
        if a.fromComposite.Err? { return Err(a.fromComposite.code); }
        frame := a.fromComposite.value;
      } else if config.requireVisible && visible {
        if a.fromVisible.Err? { return Err(a.fromVisible.code); }
        frame := a.fromVisible.value;
      } else {
        return Err(PipelineBuildFailed);
      }
      stats := stats.(captured := stats.captured + 1);
      var prepared := PrepareFrameForPipeline(frame, a);
      if prepared.Err? { return Err(prepared.code); }
      r := PublishFrame(prepared.value, a);
    }

    method Turn(a: Answers)
      modifies this
      ensures View() == TurnStep(old(View()), a)
    {
      hide ProcessStep;
      var r := ProcessOneFrame(a);
      if r.Err? {
        stats := stats.(errors := stats.errors + 1);
        if r.code != Timeout && r.code != SerialReadTimeout { state := Error; }
      }
    }
  }

  // ---------------------------------------------------------------- what one turn does

  /** Everything the encoder was given is NV12, and everything the stream took is H.264 from the encoder, or MJPEG
      where there is none; the counters are in order. */
  predicate Sound(p: Pipeline, turns: nat) {
    && (forall k :: 0 <= k < |p.encoderInputs| ==> p.encoderInputs[k].format == Nv12)
    && (forall k :: 0 <= k < |p.published| ==>
          p.published[k].codec == if p.config.useEncoder then MainStream.H264 else MainStream.MotionJpeg)
    && |p.published| + p.stats.errors == turns
    && |p.published| <= p.stats.encoded <= p.stats.captured <= turns
    && p.stats.decoded <= p.stats.captured
  }

  lemma CaptureNodesBuilt(p: Pipeline, a: InitAnswers)
    ensures var (r, p1) := CaptureNodesStep(p, a);
            && p1 == p.(visible := p1.visible, composite := p1.composite)
            && (r.Ok? ==> p1.visible == (p.visible || p.config.requireVisible)
                          && p1.composite == (p.composite || p.config.requireComposite))
  {
  }

  lemma DecoderNodeBuilt(p: Pipeline, a: InitAnswers)
    ensures var (r, p1) := DecoderNodeStep(p, a);
            && p1 == p.(decoder := p1.decoder)
            && (p1.decoder != NoDecoder <==> p.decoder != NoDecoder || p.config.useDecoder)
  {
  }

  lemma EncoderNodesBuilt(p: Pipeline, a: InitAnswers)
    ensures var (r, p1) := EncoderNodesStep(p, a);
            var c := p.config;
            && p1 == p.(convert := p1.convert, encoder := p1.encoder, encoderSequence := p1.encoderSequence,
                        state := p1.state)
            && p1.state == (if r.Ok? then Initialized else p.state)
            && p1.encoder == (p.encoder || c.useEncoder) && (c.useEncoder ==> p1.encoderSequence == 0)
            && p1.convert == (if c.useEncoder && c.useFormatConvert then Some(c.encoderInputFormat) else p.convert)
  {
  }

  /** Every node the object already has is one the configuration asks for. */
  predicate NoStaleNodes(p: Pipeline, c: PipelineConfig) {
    && (p.visible ==> c.requireVisible) && (p.composite ==> c.requireComposite)
    && (p.decoder != NoDecoder ==> c.useDecoder) && (p.encoder ==> c.useEncoder)
    && (p.convert.Some? ==> c.useEncoder && c.useFormatConvert)
  }

  /** A successful init leaves exactly the nodes of its configuration if and only if no earlier init left others. */
  lemma InitBuildsIff(p: Pipeline, config: PipelineConfig, context: Context, a: InitAnswers)
    requires InitStep(p, config, context, a).0.Ok?
    ensures var p' := InitStep(p, config, context, a).1;
            && (Built(p') <==> NoStaleNodes(p, config))
            && p'.state == Initialized && p'.config == config
  {
    var p0 := p.(config := config, context := context, stats := NO_STATS, encoderInputs := [], published := []);
    var p1 := CaptureNodesStep(p0, a).1;
    CaptureNodesBuilt(p0, a);
    DecoderNodeBuilt(p1, a);
    EncoderNodesBuilt(DecoderNodeStep(p1, a).1, a);
    hide CaptureNodesStep, DecoderNodeStep, EncoderNodesStep, ValidateContext;
  }

  function First(failures: seq<Outcome>): Outcome {
    if failures == [] then None else if failures[0].Some? then failures[0] else First(failures[1..])
  }

  function If(failed: bool, code: ErrorCode): Outcome { if failed then Some(code) else None }

  /** Everything that can keep a pipeline from being initialised, in the order in which it is found. */
  function InitFailures(c: PipelineConfig, context: Context, a: InitAnswers): seq<Outcome> {
    [If(!context.cameraManager || !context.mainStream, InvalidArgument),
     If(c.requireVisible && !context.visibleCamera, VisibleCameraOffline),
     If(c.requireComposite && !context.compositeCamera, CompositeCameraOffline),
     If(c.useEncoder && !context.encoder, EncoderInitFailed),
     if c.requireVisible then a.visible else None,
     if c.requireComposite then a.composite else None,
     if c.useDecoder && context.mjpegDecoder then a.decoder else None,
     if c.useEncoder then a.encoder else None]
  }

  lemma FirstOf8(f: seq<Outcome>)
    requires |f| == 8
    ensures First(f) == if f[0].Some? then f[0] else if f[1].Some? then f[1] else if f[2].Some? then f[2]
                        else if f[3].Some? then f[3] else if f[4].Some? then f[4] else if f[5].Some? then f[5]
                        else if f[6].Some? then f[6] else f[7]
  {
    FirstOf4(f[4..]);
    assert First(f[3..]) == if f[3].Some? then f[3] else First(f[4..]) by { assert f[3..][1..] == f[4..]; }
    assert First(f[2..]) == if f[2].Some? then f[2] else First(f[3..]) by { assert f[2..][1..] == f[3..]; }
    assert First(f[1..]) == if f[1].Some? then f[1] else First(f[2..]) by { assert f[1..][1..] == f[2..]; }
  }

  lemma FirstOf4(f: seq<Outcome>)
    requires |f| == 4
    ensures First(f) == if f[0].Some? then f[0] else if f[1].Some? then f[1] else if f[2].Some? then f[2] else f[3]
  {
    assert First(f[3..]) == f[3] by { assert f[3..][1..] == []; }
    assert First(f[2..]) == if f[2].Some? then f[2] else First(f[3..]) by { assert f[2..][1..] == f[3..]; }
    assert First(f[1..]) == if f[1].Some? then f[1] else First(f[2..]) by { assert f[1..][1..] == f[2..]; }
  }

  /** Init succeeds exactly when nothing keeps it from it, and otherwise returns the first thing that does; a running
      pipeline is left alone. */
  lemma InitSucceedsIff(p: Pipeline, config: PipelineConfig, context: Context, a: InitAnswers)
    ensures var (r, p') := InitStep(p, config, context, a);
            var failure := First(InitFailures(config, context, a));
            if p.state == Running then r == Err(Busy) && p' == p
            else r == if failure.Some? then Err(failure.value) else Ok(Unit.Unit)
  {
    hide First;
    FirstOf8(InitFailures(config, context, a));
  }

  /** Init starts all counts and logs afresh, and a failed init changes no state. */
  lemma InitResets(p: Pipeline, config: PipelineConfig, context: Context, a: InitAnswers)
    requires p.state != Running
    ensures var (r, p') := InitStep(p, config, context, a);
            && p'.stats == NO_STATS && p'.encoderInputs == [] && p'.published == []
            && (r.Err? ==> p'.state == p.state)
            && (r.Ok? && config.useEncoder ==> p'.encoderSequence == 0)
  {
    var p0 := p.(config := config, context := context, stats := NO_STATS, encoderInputs := [], published := []);
    var p1 := CaptureNodesStep(p0, a).1;
    CaptureNodesBuilt(p0, a);
    DecoderNodeBuilt(p1, a);
    EncoderNodesBuilt(DecoderNodeStep(p1, a).1, a);
    hide CaptureNodesStep, DecoderNodeStep, EncoderNodesStep, ValidateContext;
  }

  /** A fresh pipeline whose init succeeded has exactly the nodes of its configuration; otherwise it cannot start. */
  lemma InitBuilds(config: PipelineConfig, context: Context, a: InitAnswers)
    ensures var (r, p) := InitStep(FRESH_PIPELINE, config, context, a);
            && (r.Ok? ==> Built(p) && p.state == Initialized && p.config == config)
            && (r.Err? ==> !CanStart(p))
            && Sound(p, 0) && p.published == []
  {
    InitResets(FRESH_PIPELINE, config, context, a);
    if InitStep(FRESH_PIPELINE, config, context, a).0.Ok? { InitBuildsIff(FRESH_PIPELINE, config, context, a); }
    hide InitStep, Built;
  }

  /** Start is all or nothing: with everything off before, success runs exactly the nodes there are and the stream,
      and failure leaves everything off. */
  lemma LaunchAllOrNothing(p: Pipeline, visible: Outcome, composite: Outcome)
    requires p.on == OFF
    ensures var (r, p') := LaunchStep(p, visible, composite);
            && (r.Ok? <==> (p.state == Initialized || p.state == Stopped)
                           && !(p.visible && visible.Some?) && !(p.composite && composite.Some?))
            && (p.state != Initialized && p.state != Stopped ==> r == Err(NotInitialized))
            && p' == p.(on := if r.Ok? then Power(p.visible, p.composite, true) else OFF)
  {
  }

  /** Stop turns off everything that start can turn on. */
  lemma StopUndoesLaunch(p: Pipeline, visible: Outcome, composite: Outcome)
    requires p.on == OFF && p.context.mainStream
    ensures var p' := StopStep(LaunchStep(p, visible, composite).1);
            p' == p.(state := Stopped)
  {
    hide LaunchStep;
    LaunchAllOrNothing(p, visible, composite);
  }

  /** What the encoder gets has its input format, whatever was captured or decoded. */
  lemma PreparedForEncoder(p: Pipeline, f: VideoFrame, a: Answers)
    requires p.encoder && (p.convert.Some? ==> p.convert.value == p.config.encoderInputFormat)
    ensures var (r, p') := PrepareForPipeline(p, f, a);
            && (r.Ok? ==> r.value.format == p.config.encoderInputFormat)
            && p' == p.(stats := p'.stats) && p'.stats.encoded == p.stats.encoded
            && p'.stats.captured == p.stats.captured && p'.stats.errors == p.stats.errors
            && p'.stats.decoded <= p.stats.decoded + 1
  {
  }

  /** The converter's output passes all of the encoder's checks: only the hardware can still refuse it. */
  lemma ConvertedIsEncodable(f: VideoFrame, convert: Result<seq<byte>>, sequence: nat,
                             encode: Result<(seq<byte>, bool)>)
    requires f.format == Yuyv422 && ConvertFrame(Nv12, f, convert).Ok?
    ensures var g := ConvertFrame(Nv12, f, convert).value;
            && g.width == f.width && g.height == f.height && g.ptsMs == f.ptsMs && g.sequence == f.sequence
            && (EncodeFrame(sequence, g, encode).0.Ok? <==> encode.Ok?)
  {
  }

  /** Without encoder and decoder a frame comes through untouched. */
  lemma PreparedForPassthrough(p: Pipeline, f: VideoFrame, a: Answers)
    requires !p.encoder && p.decoder == NoDecoder
    ensures var (r, p') := PrepareForPipeline(p, f, a); p' == p && (r.Ok? ==> r.value == f)
  {
  }

  /** What one turn may add to the encoder's inputs and to the stream, given its answers: with an encoder, at most
      one input, in the encoder's format, and at most one frame, which is the encoder's H.264 output for that input;
      without, at most the captured frame, which is then MJPEG and untouched. */
  predicate LogsGrow(encoder: bool, format: PixelFormat, inputs: seq<VideoFrame>, published: seq<EncodedFrame>,
                     capture: Result<VideoFrame>, a: Answers, inputs': seq<VideoFrame>, published': seq<EncodedFrame>) {
    && (inputs' == inputs
        || (encoder && |inputs'| == |inputs| + 1 && inputs' == inputs + [inputs'[|inputs|]]
            && inputs'[|inputs|].format == format))
    && (published' == published
        || (|published'| == |published| + 1 && published' == published + [published'[|published|]]
            && MadeFrom(encoder, format, inputs, capture, a, inputs', published'[|published|])))
  }

  predicate MadeFrom(encoder: bool, format: PixelFormat, inputs: seq<VideoFrame>, capture: Result<VideoFrame>,
                     a: Answers, inputs': seq<VideoFrame>, out: EncodedFrame) {
    if encoder then
      && |inputs'| == |inputs| + 1 && inputs'[|inputs|].format == format
      && a.encode.Ok? && out.codec == MainStream.H264 && out.data == a.encode.value.0
      && out.ptsMs == inputs'[|inputs|].ptsMs
    else
      && capture.Ok? && capture.value.format == Mjpeg
      && out.codec == MainStream.MotionJpeg && out.data == capture.value.data
  }

  predicate TurnSafe(p: Pipeline, a: Answers, p': Pipeline) {
    LogsGrow(p.encoder, p.config.encoderInputFormat, p.encoderInputs, p.published, Capture(p, a), a,
             p'.encoderInputs, p'.published)
  }

  predicate PublishedFrom(p: Pipeline, a: Answers, p': Pipeline, out: EncodedFrame) {
    MadeFrom(p.encoder, p.config.encoderInputFormat, p.encoderInputs, Capture(p, a), a, p'.encoderInputs, out)
  }

  lemma NothingGrows(p: Pipeline, a: Answers)
    ensures TurnSafe(p, a, p)
  {
  }

  lemma EncoderPublishSafe(p: Pipeline, f: VideoFrame, a: Answers)
    requires p.encoder && f.format == p.config.encoderInputFormat
    ensures TurnSafe(p, a, PublishStep(p, f, a).1)
  {
  }

  lemma PassthroughPublishSafe(p: Pipeline, f: VideoFrame, a: Answers)
    requires !p.encoder && Capture(p, a) == Ok(f)
    ensures TurnSafe(p, a, PublishStep(p, f, a).1)
  {
  }

  lemma EncoderTurnSafe(p: Pipeline, a: Answers)
    requires p.encoder && (p.convert.Some? ==> p.convert.value == p.config.encoderInputFormat)
    ensures TurnSafe(p, a, ProcessStep(p, a).1)
  {
    NothingGrows(p, a);
    hide PrepareForPipeline, PublishStep, LogsGrow;
    if Capture(p, a).Ok? {
      var p1 := p.(stats := p.stats.(captured := p.stats.captured + 1));
      var (prepared, p2) := PrepareForPipeline(p1, Capture(p, a).value, a);
      PreparedForEncoder(p1, Capture(p, a).value, a);
      if prepared.Ok? { EncoderPublishSafe(p2, prepared.value, a); }
    }
  }

  lemma PassthroughTurnSafe(p: Pipeline, a: Answers)
    requires !p.encoder && p.decoder == NoDecoder
    ensures TurnSafe(p, a, ProcessStep(p, a).1)
  {
    NothingGrows(p, a);
    hide PrepareForPipeline, PublishStep, LogsGrow;
    if Capture(p, a).Ok? {
      var p1 := p.(stats := p.stats.(captured := p.stats.captured + 1));
      var (prepared, p2) := PrepareForPipeline(p1, Capture(p, a).value, a);
      PreparedForPassthrough(p1, Capture(p, a).value, a);
      if prepared.Ok? { PassthroughPublishSafe(p2, prepared.value, a); }
    }
  }

  lemma TurnIsSafe(p: Pipeline, a: Answers)
    requires Built(p) && PipelineFits(p.config)
    ensures TurnSafe(p, a, TurnStep(p, a))
  {
    hide ProcessStep, LogsGrow;
    if p.encoder { EncoderTurnSafe(p, a); } else { PassthroughTurnSafe(p, a); }
  }

  lemma PrepareCounts(p: Pipeline, f: VideoFrame, a: Answers)
    ensures var p' := PrepareForPipeline(p, f, a).1;
            && p' == p.(stats := p.stats.(decoded := p'.stats.decoded))
            && p.stats.decoded <= p'.stats.decoded <= p.stats.decoded + 1
  {
    hide PrepareForEncoder;
  }

  lemma PublishCounts(p: Pipeline, f: VideoFrame, a: Answers)
    ensures var (r, p') := PublishStep(p, f, a);
            && |p'.published| == |p.published| + (if r.Ok? then 1 else 0)
            && p.stats.encoded + (if r.Ok? then 1 else 0) <= p'.stats.encoded <= p.stats.encoded + 1
            && p'.stats == p.stats.(encoded := p'.stats.encoded)
            && p'.config == p.config && (Built(p) ==> Built(p'))
  {
    hide EncodeFrame;
  }

  /** One pass counts: at most one frame more at each stage, no more at a later stage than at an earlier one. */
  predicate Counted(p: Pipeline, p': Pipeline, published: bool) {
    && |p'.published| == |p.published| + (if published then 1 else 0)
    && |p'.published| - |p.published| <= p'.stats.encoded - p.stats.encoded
         <= p'.stats.captured - p.stats.captured <= 1
    && 0 <= p'.stats.decoded - p.stats.decoded <= p'.stats.captured - p.stats.captured
    && p'.config == p.config && (Built(p) ==> Built(p'))
  }

  lemma ProcessCounts(p: Pipeline, a: Answers)
    ensures var (r, p') := ProcessStep(p, a);
            Counted(p, p', r.Ok?) && p'.stats.errors == p.stats.errors
  {
    hide PrepareForPipeline, PublishStep, Built;
    if Capture(p, a).Ok? {
      var p1 := p.(stats := p.stats.(captured := p.stats.captured + 1));
      var (prepared, p2) := PrepareForPipeline(p1, Capture(p, a).value, a);
      PrepareCounts(p1, Capture(p, a).value, a);
      NodesBuilt(p, p2);
      if prepared.Ok? { PublishCounts(p2, prepared.value, a); }
    }
  }

  lemma NodesBuilt(p: Pipeline, p': Pipeline)
    requires p' == p.(stats := p'.stats)
    ensures Built(p) == Built(p')
  {
  }

  /** Each turn adds exactly one published frame or one error, and leaves the nodes alone. */
  lemma TurnCounts(p: Pipeline, a: Answers)
    ensures var p' := TurnStep(p, a);
            && |p'.published| + p'.stats.errors == |p.published| + p.stats.errors + 1
            && (Counted(p, p', true) || Counted(p, p', false))
  {
    ProcessCounts(p, a);
    hide ProcessStep;
    var (r, p1) := ProcessStep(p, a);
    assert Counted(p, p1, r.Ok?);
    assert TurnStep(p, a) == if r.Err? then RecordError(p1, r.code) else p1;
  }

  // ---------------------------------------------------------------- when a turn publishes, and what

  /** The frame fills its size in NV12 (12 bits a pixel) or in YUYV (16 bits a pixel). */
  predicate FullNv12(f: VideoFrame) {
    f.format == Nv12 && f.width > 0 && f.height > 0 && |f.data| >= f.width * f.height * 3 / 2
  }

  predicate FullYuyv(f: VideoFrame) {
    f.format == Yuyv422 && f.width > 0 && f.height > 0 && |f.data| >= f.width * f.height * 2
  }

  /** What the turn captures, by configuration. */
  function Captured(c: PipelineConfig, a: Answers): Result<VideoFrame> {
    if c.requireComposite then a.fromComposite else a.fromVisible
  }

  /** The raw frame for the encoder: the captured one, or what the hardware decoded from it. */
  function RawFrame(c: PipelineConfig, hardware: bool, a: Answers): Option<VideoFrame> {
    if Captured(c, a).Err? then None else RawOf(hardware, Captured(c, a).value, a)
  }

  function RawOf(hardware: bool, f: VideoFrame, a: Answers): Option<VideoFrame> {
    if f.format != Mjpeg then Some(f)
    else if hardware && a.decode.Ok? then Some(a.decode.value)
    else None
  }

  /** The encoder gets a frame it can take: NV12 large enough, or YUYV large enough that is converted. */
  predicate Encodable(c: PipelineConfig, hardware: bool, a: Answers) {
    RawFrame(c, hardware, a).Some? && CanEncode(RawFrame(c, hardware, a).value, a)
  }

  predicate CanEncode(f: VideoFrame, a: Answers) { FullNv12(f) || (FullYuyv(f) && a.convert.Ok?) }

  /** A frame is made for the stream. */
  predicate Makes(c: PipelineConfig, hardware: bool, a: Answers) {
    if c.useEncoder then Encodable(c, hardware, a) && a.encode.Ok?
    else Captured(c, a).Ok? && Captured(c, a).value.format == Mjpeg
  }

  predicate Publishes(c: PipelineConfig, hardware: bool, a: Answers) { Makes(c, hardware, a) && a.push.None? }

  predicate Soft(code: ErrorCode) { code == Timeout || code == SerialReadTimeout }

  predicate ConversionTimesOut(raw: Option<VideoFrame>, a: Answers) {
    raw.Some? && FullYuyv(raw.value) && a.convert.Err? && Soft(a.convert.code)
  }

  /** The turn fails by a timeout: of the capture, or of a later answer that it gets to. */
  predicate TimesOut(c: PipelineConfig, hardware: bool, a: Answers) {
    var raw := RawFrame(c, hardware, a);
    || (Captured(c, a).Err? && Soft(Captured(c, a).code))
    || (c.useEncoder && ConversionTimesOut(raw, a))
    || (c.useEncoder && Encodable(c, hardware, a) && a.encode.Err? && Soft(a.encode.code))
    || (Makes(c, hardware, a) && a.push.Some? && Soft(a.push.value))
  }

  /** The encoder's input made from the raw frame. */
  predicate InputFrom(f: VideoFrame, a: Answers, g: VideoFrame) {
    && g.format == Nv12 && g.width == f.width && g.height == f.height && g.ptsMs == f.ptsMs && g.sequence == f.sequence
    && (f.format == Nv12 ==> g.data == f.data)
    && (f.format == Yuyv422 && a.convert.Ok? ==>
          var n := f.width * f.height * 3 / 2;
          |g.data| == n && g.data[..Min(n, |a.convert.value|)] == a.convert.value[..Min(n, |a.convert.value|)])
  }

  /** The frame made for the stream. A raw frame without a number gets the encoder's next one, and an MJPEG frame
      without a time the clock's. */
  function Made(c: PipelineConfig, hardware: bool, a: Answers, encoderSequence: nat): EncodedFrame
    requires Makes(c, hardware, a)
  {
    if c.useEncoder then
      var f := RawFrame(c, hardware, a).value;
      MainStream.EncodedFrame(MainStream.H264, a.encode.value.0, f.ptsMs, a.encode.value.1,
                              if f.sequence != 0 then f.sequence else encoderSequence + 1)
    else
      var f := Captured(c, a).value;
      MainStream.EncodedFrame(MainStream.MotionJpeg, f.data, if f.ptsMs == 0 then a.nowMs else f.ptsMs, false,
                              f.sequence)
  }

  predicate Grown(n: nat, n': nat, more: bool) { n' == n + if more then 1 else 0 }

  predicate Decodes(p: Pipeline, a: Answers) {
    && Captured(p.config, a).Ok? && Captured(p.config, a).value.format == Mjpeg
    && (p.decoder == Passthrough || (p.decoder == Hardware && a.decode.Ok?))
  }

  /** What a turn adds to stream, counters and encoder, said on configuration, formats, sizes and answers alone. */
  predicate Adds(p: Pipeline, a: Answers, p': Pipeline) {
    var c, hardware, raw := p.config, p.decoder == Hardware, RawFrame(p.config, p.decoder == Hardware, a);
    && p'.published ==
       p.published + (if Publishes(c, hardware, a) then [Made(c, hardware, a, p.encoderSequence)] else [])
    && Grown(p.stats.captured, p'.stats.captured, Captured(c, a).Ok?)
    && Grown(p.stats.encoded, p'.stats.encoded, Makes(c, hardware, a))
    && Grown(p.stats.decoded, p'.stats.decoded, Decodes(p, a))
    && (c.useEncoder && Encodable(c, hardware, a) ==>
          && |p'.encoderInputs| == |p.encoderInputs| + 1 && p'.encoderInputs[..|p.encoderInputs|] == p.encoderInputs
          && InputFrom(raw.value, a, p'.encoderInputs[|p.encoderInputs|]))
    && p'.encoderSequence ==
       (if c.useEncoder && Makes(c, hardware, a) && raw.value.sequence == 0 then p.encoderSequence + 1
        else p.encoderSequence)
  }

  lemma PreparedExact(p: Pipeline, f: VideoFrame, a: Answers)
    requires p.encoder && p.config.encoderInputFormat == Nv12 && p.convert == Some(Nv12)
    ensures var (r, p') := PrepareForPipeline(p, f, a);
            var raw := RawOf(p.decoder == Hardware, f, a);
            && p' == p.(stats := p.stats.(decoded := p'.stats.decoded))
            && Grown(p.stats.decoded, p'.stats.decoded,
                     f.format == Mjpeg && (p.decoder == Passthrough || (p.decoder == Hardware && a.decode.Ok?)))
            && (r.Ok? ==> raw.Some? && InputFrom(raw.value, a, r.value)
                          && (FullNv12(r.value) <==> CanEncode(raw.value, a)))
            && (r.Err? ==> raw.None? || !CanEncode(raw.value, a))
            && (ConversionTimesOut(raw, a) <==> r.Err? && Soft(r.code))
  {
  }

  lemma PublishedExact(p: Pipeline, g: VideoFrame, a: Answers)
    requires p.encoder && g.format == Nv12
    ensures var (r, p') := PublishStep(p, g, a);
            var made := FullNv12(g) && a.encode.Ok?;
            && (r.Ok? <==> made && a.push.None?)
            && p'.published == p.published + (if r.Ok? then
                 [MainStream.EncodedFrame(MainStream.H264, a.encode.value.0, g.ptsMs, a.encode.value.1,
                                          if g.sequence != 0 then g.sequence else p.encoderSequence + 1)] else [])
            && (r.Err? ==> (Soft(r.code) <==>
                              || (FullNv12(g) && a.encode.Err? && Soft(a.encode.code))
                              || (made && a.push.Some? && Soft(a.push.value))))
            && p'.stats == p.stats.(encoded := p'.stats.encoded) && Grown(p.stats.encoded, p'.stats.encoded, made)
            && p'.encoderInputs == p.encoderInputs + [g]
            && p'.encoderSequence == (if made && g.sequence == 0 then p.encoderSequence + 1 else p.encoderSequence)
  {
  }

  lemma CapturedExact(p: Pipeline, a: Answers)
    requires Built(p) && PipelineFits(p.config)
    ensures Capture(p, a) == Captured(p.config, a)
    ensures p.encoder ==> p.config.encoderInputFormat == Nv12 && p.convert == Some(Nv12) && p.config.useEncoder
  {
  }

  /** What one pass over a frame comes to. */
  predicate ProcessExact(p: Pipeline, a: Answers, r: Result<Unit>, p': Pipeline) {
    && Adds(p, a, p') && p'.stats.errors == p.stats.errors
    && (r.Ok? <==> Publishes(p.config, p.decoder == Hardware, a))
    && (r.Err? ==> (Soft(r.code) <==> TimesOut(p.config, p.decoder == Hardware, a)))
  }

  lemma PreparationFails(p: Pipeline, a: Answers, code: ErrorCode, p': Pipeline)
    requires p.config.useEncoder && Captured(p.config, a).Ok?
    requires var raw := RawFrame(p.config, p.decoder == Hardware, a);
             && (raw.None? || !CanEncode(raw.value, a)) && (ConversionTimesOut(raw, a) <==> Soft(code))
    requires p' == p.(stats := p.stats.(captured := p.stats.captured + 1, decoded := p'.stats.decoded))
    requires Grown(p.stats.decoded, p'.stats.decoded, Decodes(p, a))
    ensures ProcessExact(p, a, Err(code), p')
  {
    hide FullNv12, FullYuyv, RawOf, Soft, Captured, CanEncode, ConversionTimesOut;
  }

  lemma PreparationSucceeds(p: Pipeline, a: Answers, g: VideoFrame, p2: Pipeline, r: Result<Unit>, p': Pipeline)
    requires p.encoder && p.config.useEncoder && Captured(p.config, a).Ok?
    requires var raw := RawFrame(p.config, p.decoder == Hardware, a);
             && raw.Some? && InputFrom(raw.value, a, g) && (FullNv12(g) <==> CanEncode(raw.value, a))
             && !ConversionTimesOut(raw, a)
    requires p2 == p.(stats := p.stats.(captured := p.stats.captured + 1, decoded := p2.stats.decoded))
    requires Grown(p.stats.decoded, p2.stats.decoded, Decodes(p, a))
    requires (r, p') == PublishStep(p2, g, a)
    ensures ProcessExact(p, a, r, p')
  {
    PublishedExact(p2, g, a);
    hide FullNv12, FullYuyv, RawOf, Soft, Captured, CanEncode, ConversionTimesOut, PublishStep;
  }

  lemma EncoderProcessExact(p: Pipeline, a: Answers)
    requires Built(p) && PipelineFits(p.config) && p.encoder
    ensures ProcessExact(p, a, ProcessStep(p, a).0, ProcessStep(p, a).1)
  {
    CapturedExact(p, a);
    hide PrepareForPipeline, PublishStep, FullNv12, FullYuyv, RawOf, Capture, Captured, PipelineFits, CanEncode,
      ConversionTimesOut, InputFrom;
    if Captured(p.config, a).Ok? {
      hide ProcessExact;
      var f := Captured(p.config, a).value;
      var p1 := p.(stats := p.stats.(captured := p.stats.captured + 1));
      var (prepared, p2) := PrepareForPipeline(p1, f, a);
      PreparedExact(p1, f, a);
      if prepared.Ok? {
        PreparationSucceeds(p, a, prepared.value, p2, ProcessStep(p, a).0, ProcessStep(p, a).1);
      } else {
        PreparationFails(p, a, prepared.code, p2);
        assert ProcessStep(p, a) == (Err(prepared.code), p2);
      }
    }
  }

  lemma PassthroughProcessExact(p: Pipeline, a: Answers)
    requires Built(p) && PipelineFits(p.config) && !p.encoder
    ensures ProcessExact(p, a, ProcessStep(p, a).0, ProcessStep(p, a).1)
  {
    hide PrepareForEncoder, EncodeFrame, FullNv12, FullYuyv;
  }

  /** A turn publishes exactly when all it needs succeeds, and exactly the frame it is to make; every counter grows just
      as its stage gets through, and only a failure other than a timeout leads to the error state. */
  lemma TurnIsExact(p: Pipeline, a: Answers)
    requires Built(p) && PipelineFits(p.config)
    ensures var p', published := TurnStep(p, a), Publishes(p.config, p.decoder == Hardware, a);
            && Adds(p, a, p')
            && Grown(p.stats.errors, p'.stats.errors, !published)
            && p'.state == (if published || TimesOut(p.config, p.decoder == Hardware, a) then p.state else Error)
  {
    if p.encoder { EncoderProcessExact(p, a); } else { PassthroughProcessExact(p, a); }
    ProcessKeepsState(p, a);
    AddsBeforeRecord(p, a, ProcessStep(p, a).1, ProcessStep(p, a).0);
    hide ProcessStep, Adds, Publishes, TimesOut;
  }

  lemma AddsBeforeRecord(p: Pipeline, a: Answers, p': Pipeline, r: Result<Unit>)
    requires Adds(p, a, p')
    ensures r.Err? ==> Adds(p, a, RecordError(p', r.code))
  {
    hide Publishes, Makes, Made, InputFrom, Encodable;
  }

  // ---------------------------------------------------------------- whole runs

  lemma TurnKeepsSound(p: Pipeline, a: Answers, turns: nat)
    requires Built(p) && PipelineFits(p.config) && Sound(p, turns)
    ensures Sound(TurnStep(p, a), turns + 1) && Built(TurnStep(p, a)) && TurnStep(p, a).config == p.config
  {
    TurnIsSafe(p, a);
    TurnCounts(p, a);
    hide TurnStep;
  }

  lemma {:induction false} RunKeepsSound(p: Pipeline, turns: seq<Answers>)
    requires Built(p) && PipelineFits(p.config) && Sound(p, 0)
    ensures Sound(Run(p, turns), |turns|) && Built(Run(p, turns)) && Run(p, turns).config == p.config
  {
    hide Sound, Built, PipelineFits, TurnStep;
    if turns != [] {
      RunKeepsSound(p, turns[..|turns| - 1]);
      TurnKeepsSound(Run(p, turns[..|turns| - 1]), turns[|turns| - 1], |turns| - 1);
    }
  }

  /** The turns that added a frame to the stream. */
  function PublishedTurns(p: Pipeline, turns: seq<Answers>): seq<nat> {
    if turns == [] then []
    else
      var front := turns[..|turns| - 1];
      PublishedTurns(p, front)
      + if |Run(p, turns).published| > |Run(p, front).published| then [|turns| - 1] else []
  }

  /** The `k`-th frame the stream took was made in the `k`-th publishing turn, from what that turn was given: the
      encoder's output for an input of its format, or the captured MJPEG data untouched. */
  predicate TracedTo(p: Pipeline, turns: seq<Answers>, at: nat, out: EncodedFrame) {
    at < |turns| && PublishedFrom(Run(p, turns[..at]), turns[at], TurnStep(Run(p, turns[..at]), turns[at]), out)
  }

  /** Every frame in the stream is traced to a turn of its own, in the order of the turns. */
  predicate Traced(p: Pipeline, turns: seq<Answers>) {
    var out, at := Run(p, turns).published, PublishedTurns(p, turns);
    && |at| == |out|
    && (forall k :: 0 <= k < |at| ==> TracedTo(p, turns, at[k], out[k]))
    && (forall j, k :: 0 <= j < k < |at| ==> at[j] < at[k])
  }

  lemma TracedStays(p: Pipeline, turns: seq<Answers>, a: Answers, at: nat, out: EncodedFrame)
    requires TracedTo(p, turns, at, out)
    ensures TracedTo(p, turns + [a], at, out)
  {
    assert (turns + [a])[..at] == turns[..at];
  }

  lemma TracedNow(p: Pipeline, turns: seq<Answers>, a: Answers, out: EncodedFrame)
    requires PublishedFrom(Run(p, turns), a, TurnStep(Run(p, turns), a), out)
    ensures TracedTo(p, turns + [a], |turns|, out)
  {
    assert (turns + [a])[..|turns|] == turns;
  }

  lemma NothingTraced(p: Pipeline)
    requires Sound(p, 0)
    ensures Traced(p, [])
  {
  }

  lemma {:induction false} RunTraced(p: Pipeline, turns: seq<Answers>)
    requires Built(p) && PipelineFits(p.config) && Sound(p, 0)
    ensures Traced(p, turns)
  {
    hide *;
    if turns == [] {
      NothingTraced(p);
    } else {
      var front, a := turns[..|turns| - 1], turns[|turns| - 1];
      RunTraced(p, front);
      RunKeepsSound(p, front);
      FitsStays(p, front);
      TurnIsSafe(Run(p, front), a);
      ExtendTrace(p, front, a);
      assert front + [a] == turns;
    }
  }

  lemma FitsStays(p: Pipeline, turns: seq<Answers>)
    requires PipelineFits(p.config) && Run(p, turns).config == p.config
    ensures PipelineFits(Run(p, turns).config)
  {
  }

  lemma ExtendTrace(p: Pipeline, turns: seq<Answers>, a: Answers)
    requires Traced(p, turns) && TurnSafe(Run(p, turns), a, TurnStep(Run(p, turns), a))
    ensures Traced(p, turns + [a])
  {
    hide TurnStep, MadeFrom, Run, TracedTo, PublishedTurns, PublishedFrom;
    var all := turns + [a];
    var before, after := Run(p, turns), Run(p, all);
    var at := PublishedTurns(p, turns);
    OneMoreTurn(p, turns, a);
    forall k | 0 <= k < |at| ensures TracedTo(p, all, at[k], before.published[k]) {
      TracedStays(p, turns, a, at[k], before.published[k]);
    }
    forall k | 0 <= k < |at| ensures at[k] < |turns| { TracedBelow(p, turns, at[k], before.published[k]); }
    if after.published != before.published {
      TracedNow(p, turns, a, after.published[|before.published|]);
    }
  }

  lemma OneMoreTurn(p: Pipeline, turns: seq<Answers>, a: Answers)
    ensures Run(p, turns + [a]) == TurnStep(Run(p, turns), a)
    ensures PublishedTurns(p, turns + [a]) ==
            PublishedTurns(p, turns)
            + if |Run(p, turns + [a]).published| > |Run(p, turns).published| then [|turns|] else []
  {
    hide TurnStep;
    var all := turns + [a];
    assert all[..|all| - 1] == turns && all[|all| - 1] == a;
  }

  lemma TracedBelow(p: Pipeline, turns: seq<Answers>, at: nat, out: EncodedFrame)
    requires TracedTo(p, turns, at, out)
    ensures at < |turns|
  {
  }

  /** Without an encoder and without permission to pass frames through, nothing is ever published. */
  lemma NothingPassesThrough(p: Pipeline, a: Answers)
    requires !p.encoder && !p.config.passthroughEncoded
    ensures TurnStep(p, a).published == p.published && TurnStep(p, a).stats.errors == p.stats.errors + 1
  {
    hide PrepareForEncoder, EncodeFrame;
  }

  /** The numbers the encoder has given out itself. */
  function OwnNumbers(c: PipelineConfig, hardware: bool, turns: seq<Answers>): nat {
    if turns == [] then 0
    else
      var a := turns[|turns| - 1];
      OwnNumbers(c, hardware, turns[..|turns| - 1])
      + if c.useEncoder && Makes(c, hardware, a) && RawFrame(c, hardware, a).value.sequence == 0 then 1 else 0
  }

  /** What the stream gets in any turns, by configuration and answers alone. */
  function Delivered(c: PipelineConfig, hardware: bool, turns: seq<Answers>): seq<EncodedFrame> {
    if turns == [] then []
    else
      var front, a := turns[..|turns| - 1], turns[|turns| - 1];
      Delivered(c, hardware, front)
      + if Publishes(c, hardware, a) then [Made(c, hardware, a, OwnNumbers(c, hardware, front))] else []
  }

  lemma NodesStay(p: Pipeline, a: Answers)
    ensures var p' := TurnStep(p, a); p'.decoder == p.decoder && p'.config == p.config
  {
    hide PrepareForEncoder, EncodeFrame, ConvertFrame;
  }

  /** Over any run the stream gets exactly the frames of the turns in which all that is needed succeeds. */
  lemma {:induction false} RunDelivers(p: Pipeline, turns: seq<Answers>)
    requires Built(p) && PipelineFits(p.config) && Sound(p, 0) && p.published == [] && p.encoderSequence == 0
    ensures var q, hardware := Run(p, turns), p.decoder == Hardware;
            && q.published == Delivered(p.config, hardware, turns)
            && q.encoderSequence == OwnNumbers(p.config, hardware, turns)
            && q.decoder == p.decoder && q.config == p.config
  {
    hide Built, PipelineFits, Sound, TurnStep, Publishes, Made, Makes, RawFrame;
    if turns != [] {
      var front, a := turns[..|turns| - 1], turns[|turns| - 1];
      RunDelivers(p, front);
      RunKeepsSound(p, front);
      NodesStay(Run(p, front), a);
      TurnIsExact(Run(p, front), a);
    }
  }

  /** From the plan to the stream: whatever plan the planner builds, the stream gets exactly the frames of those turns
      in which cameras, codecs and stream do their part. */
  lemma PlannedPipelineDelivers(planner: Option<ModeConfig>, mode: WorkMode, context: Context, a: InitAnswers,
                                turns: seq<Answers>)
    requires BuildPlan(planner, mode).Ok?
    requires InitStep(FRESH_PIPELINE, BuildPlan(planner, mode).value.pipeline, context, a).0.Ok?
    ensures var c := BuildPlan(planner, mode).value.pipeline;
            var p := InitStep(FRESH_PIPELINE, c, context, a).1;
            Run(p, turns).published == Delivered(c, c.useDecoder && context.mjpegDecoder, turns)
  {
    var c := BuildPlan(planner, mode).value.pipeline;
    PlanSound(planner, mode);
    hide BuildPlan, Sound, PipelineFits, Built, Delivered;
    InitBuilds(c, context, a);
    InitDecoder(c, context, a);
    hide InitStep;
    RunDelivers(InitStep(FRESH_PIPELINE, c, context, a).1, turns);
  }

  lemma InitDecoder(c: PipelineConfig, context: Context, a: InitAnswers)
    requires InitStep(FRESH_PIPELINE, c, context, a).0.Ok?
    ensures var p := InitStep(FRESH_PIPELINE, c, context, a).1;
            && (p.decoder == Hardware <==> c.useDecoder && context.mjpegDecoder)
            && p.encoderSequence == 0
  {
  }

  /** Whatever plan the planner builds, whatever the hardware answers: every frame in the stream is the encoder's
      output for an NV12 frame of its turn, or the MJPEG data captured in its turn, so a raw frame never reaches the
      stream; the encoder only ever sees NV12; and published <= encoded <= captured. */
  lemma PlannedPipelineSound(planner: Option<ModeConfig>, mode: WorkMode, context: Context, a: InitAnswers,
                             turns: seq<Answers>)
    requires BuildPlan(planner, mode).Ok?
    requires InitStep(FRESH_PIPELINE, BuildPlan(planner, mode).value.pipeline, context, a).0.Ok?
    ensures var p := InitStep(FRESH_PIPELINE, BuildPlan(planner, mode).value.pipeline, context, a).1;
            Sound(Run(p, turns), |turns|) && Traced(p, turns)
  {
    hide BuildPlan, InitStep, Sound, PipelineFits, Built, Traced;
    var config := BuildPlan(planner, mode).value.pipeline;
    PlanSound(planner, mode);
    InitBuilds(config, context, a);
    RunKeepsSound(InitStep(FRESH_PIPELINE, config, context, a).1, turns);
    RunTraced(InitStep(FRESH_PIPELINE, config, context, a).1, turns);
  }

  // ---------------------------------------------------------------- the error state

  /** Some turn ended in an error other than a timeout. */
  predicate HardErrorIn(p: Pipeline, turns: seq<Answers>) {
    turns != [] &&
    (HardErrorIn(p, turns[..|turns| - 1])
     || var r := ProcessStep(Run(p, turns[..|turns| - 1]), turns[|turns| - 1]).0; r.Err? && Hard(r.code))
  }

  /** From the running state, the error state is reached exactly by a hard error, and no later turn leaves it. */
  lemma {:induction false} ErrorIsSticky(p: Pipeline, turns: seq<Answers>)
    requires p.state == Running
    ensures Run(p, turns).state == if HardErrorIn(p, turns) then Error else Running
  {
    if turns != [] {
      ErrorIsSticky(p, turns[..|turns| - 1]);
      ProcessKeepsState(Run(p, turns[..|turns| - 1]), turns[|turns| - 1]);
      hide ProcessStep;
    }
  }

  lemma PublishKeepsState(p: Pipeline, f: VideoFrame, a: Answers)
    ensures PublishStep(p, f, a).1.state == p.state
  {
    hide EncodeFrame;
  }

  lemma ProcessKeepsState(p: Pipeline, a: Answers)
    ensures ProcessStep(p, a).1.state == p.state
  {
    hide PublishStep, PrepareForPipeline;
    if Capture(p, a).Ok? {
      var p1 := p.(stats := p.stats.(captured := p.stats.captured + 1));
      var (prepared, p2) := PrepareForPipeline(p1, Capture(p, a).value, a);
      PrepareCounts(p1, Capture(p, a).value, a);
      if prepared.Ok? { PublishKeepsState(p2, prepared.value, a); }
    }
  }

  /** How many turns ended in an error. */
  function FailedTurns(p: Pipeline, turns: seq<Answers>): nat {
    if turns == [] then 0
    else
      var before := Run(p, turns[..|turns| - 1]);
      FailedTurns(p, turns[..|turns| - 1]) + if ProcessStep(before, turns[|turns| - 1]).0.Err? then 1 else 0
  }

  lemma {:induction false} ErrorsCounted(p: Pipeline, turns: seq<Answers>)
    ensures Run(p, turns).stats.errors == p.stats.errors + FailedTurns(p, turns)
  {
    if turns != [] {
      var front, a := turns[..|turns| - 1], turns[|turns| - 1];
      ErrorsCounted(p, front);
      ProcessCounts(Run(p, front), a);
      hide ProcessStep, Counted;
      assert ProcessStep(Run(p, front), a).1.stats.errors == Run(p, front).stats.errors;
    }
  }

  /** Start sets the running state after it has started the worker, which may take any turns `before` that and any
      turns `after`. The error state then tells of the hard errors after only; it tells of all of them exactly if
      there was none before or there is one after. The error counter tells of both. */
  lemma StartHidesEarlyErrors(p: Pipeline, before: seq<Answers>, after: seq<Answers>)
    ensures var q := MarkRunning(Run(p, before));
            var end := Run(q, after);
            && (end.state == Error <==> HardErrorIn(q, after))
            && ((HardErrorIn(p, before) || HardErrorIn(q, after) ==> end.state == Error) <==>
                  !HardErrorIn(p, before) || HardErrorIn(q, after))
            && end.stats.errors == p.stats.errors + FailedTurns(p, before) + FailedTurns(q, after)
  {
    var q := MarkRunning(Run(p, before));
    ErrorIsSticky(q, after);
    ErrorsCounted(p, before);
    ErrorsCounted(q, after);
  }

  /** The turns before can hold a hard error: the very first capture fails, and start still ends in running. */
  lemma EarlyErrorIsHidden(p: Pipeline, a: Answers)
    requires CanStart(p) && Capture(p, a) == Err(IoError)
    ensures HardErrorIn(p, [a]) && Run(p, [a]).state == Error
    ensures MarkRunning(Run(p, [a])).state == Running
  {
    assert [a][..0] == [];
  }
}
