/** From a work mode to a switch plan (src/mode/WorkMode.cpp, ModePolicy.cpp, ModeSwitchPlanner.cpp and
    src/media/pipeline/PipelineBuilder.cpp). */
module ModePlanning {
  import opened Foundation
  import Sensor = SensorCommands

  datatype WorkMode =
    | Unknown
    | VisibleOnly
    | LowlightOnly
    | ThermalOnly
    | LowlightThermalComposite
    | VisibleLowlightFusion
    | VisibleThermalFusion
    | VisibleCompositeFusion

  datatype FusionMode = NoFusion | VisibleLowlight | VisibleThermal | VisibleComposite

  datatype CameraId = Visible | CompositeLowThermal

  datatype PixelFormat = UnknownFormat | Mjpeg | Nv12 | Rgb888 | Yuyv422

  datatype PipelineType = VisiblePipeline | CompositePipeline | FusionPipeline

  datatype PipelineConfig = PipelineConfig(
    kind: PipelineType, requireVisible: bool, requireComposite: bool, useDecoder: bool, useEncoder: bool,
    useFormatConvert: bool, encoderInputFormat: PixelFormat, passthroughEncoded: bool)

  datatype ModeConfig = ModeConfig(enabledModes: map<string, bool>, compositeOutputs: map<string, string>)

  datatype Plan = Plan(
    targetMode: WorkMode, requiredCameras: seq<CameraId>, requireVisible: bool, requireComposite: bool,
    requireSensorSwitch: bool, compositeOutput: Sensor.OutputMode, requireFusion: bool, fusionMode: FusionMode,
    stableWaitMs: nat, pipeline: PipelineConfig)

  const STABLE_WAIT_MS := 200

  // ---------------------------------------------------------------- modes

  function ConfigKey(mode: WorkMode): string {
    match mode
    case VisibleOnly => "visible_only"
    case LowlightOnly => "lowlight_only"
    case ThermalOnly => "thermal_only"
    case LowlightThermalComposite => "lowlight_thermal_composite"
    case VisibleLowlightFusion => "visible_lowlight_fusion"
    case VisibleThermalFusion => "visible_thermal_fusion"
    case VisibleCompositeFusion => "visible_composite_fusion"
    case Unknown => "unknown"
  }

  predicate RequiresVisibleCamera(mode: WorkMode) {
    mode == VisibleOnly || IsFusionMode(mode)
  }

  predicate RequiresCompositeCamera(mode: WorkMode) {
    mode == LowlightOnly || mode == ThermalOnly || mode == LowlightThermalComposite || IsFusionMode(mode)
  }

  predicate IsFusionMode(mode: WorkMode) {
    mode == VisibleLowlightFusion || mode == VisibleThermalFusion || mode == VisibleCompositeFusion
  }

  function FusionModeFor(mode: WorkMode): FusionMode {
    match mode
    case VisibleLowlightFusion => VisibleLowlight
    case VisibleThermalFusion => VisibleThermal
    case VisibleCompositeFusion => VisibleComposite
    case _ => NoFusion
  }

  // ---------------------------------------------------------------- policy

  function ValidateModeEnabled(config: ModeConfig, mode: WorkMode): Result<Unit> {
    var key := ConfigKey(mode);
    if mode == Unknown then Err(InvalidArgument)
    else if key in config.enabledModes && !config.enabledModes[key] then Err(UnsupportedWorkMode)
    else Ok(Unit.Unit)
  }

  function DefaultCompositeOutput(mode: WorkMode): Sensor.OutputMode {
    match mode
    case LowlightOnly => Sensor.LowlightOnly
    case VisibleLowlightFusion => Sensor.LowlightOnly
    case ThermalOnly => Sensor.ThermalOnly
    case VisibleThermalFusion => Sensor.ThermalOnly
    case LowlightThermalComposite => Sensor.LowlightThermalComposite
    case VisibleCompositeFusion => Sensor.LowlightThermalComposite
    case VisibleOnly => Sensor.UnknownOutput
    case Unknown => Sensor.UnknownOutput
  }

  function CompositeOutputFor(config: ModeConfig, mode: WorkMode): Result<Sensor.OutputMode> {
    var key := ConfigKey(mode);
    if !RequiresCompositeCamera(mode) then Ok(Sensor.UnknownOutput)
    else if key in config.compositeOutputs && config.compositeOutputs[key] != "" then
      var output := Sensor.OutputModeFromText(config.compositeOutputs[key]);
      if output == Sensor.UnknownOutput then Err(ConfigError) else Ok(output)
    else if DefaultCompositeOutput(mode) == Sensor.UnknownOutput then Err(UnsupportedWorkMode)
    else Ok(DefaultCompositeOutput(mode))
  }

  // ---------------------------------------------------------------- pipelines and plans

  const VISIBLE_ONLY := PipelineConfig(VisiblePipeline, true, false, false, false, false, Nv12, true)

  const COMPOSITE_ONLY_AUTO := PipelineConfig(CompositePipeline, false, true, true, true, true, Nv12, false)

  const FUSION_PLACEHOLDER := PipelineConfig(FusionPipeline, true, true, true, true, true, Nv12, false)

  /** A planner is None until it is given its configuration. */
  function BuildPlan(planner: Option<ModeConfig>, mode: WorkMode): Result<Plan> {
    if planner.None? then Err(NotInitialized)
    else
      var valid := ValidateModeEnabled(planner.value, mode);
      var output := CompositeOutputFor(planner.value, mode);
      if valid.Err? then Err(valid.code)
      else if output.Err? then Err(output.code)
      else
        var cameras := (if RequiresVisibleCamera(mode) then [Visible] else [])
                       + (if RequiresCompositeCamera(mode) then [CompositeLowThermal] else []);
        var pipeline := if mode == VisibleOnly then VISIBLE_ONLY
                        else if IsFusionMode(mode) then FUSION_PLACEHOLDER
                        else COMPOSITE_ONLY_AUTO;
        Ok(Plan(mode, cameras, RequiresVisibleCamera(mode), RequiresCompositeCamera(mode),
                RequiresCompositeCamera(mode), output.value, IsFusionMode(mode), FusionModeFor(mode),
                STABLE_WAIT_MS, pipeline))
  }

  /** The stages fit together: an encoder comes with a decoder, a converter and NV12 input, and only a pipeline
      without an encoder passes frames through. */
  predicate PipelineFits(c: PipelineConfig) {
    && (c.useEncoder ==> c.useDecoder && c.useFormatConvert && c.encoderInputFormat == Nv12 && !c.passthroughEncoded)
    && (!c.useEncoder ==> !c.useDecoder && !c.useFormatConvert && c.passthroughEncoded)
    && (c.requireVisible || c.requireComposite)
  }

  /** A plan exists exactly for a known mode that is not switched off and whose configured sensor output, if any, is
      one the sensor knows. */
  lemma PlanExists(config: ModeConfig, mode: WorkMode)
    ensures BuildPlan(Some(config), mode).Ok? <==>
            && mode != Unknown
            && !(ConfigKey(mode) in config.enabledModes && !config.enabledModes[ConfigKey(mode)])
            && (mode != VisibleOnly && ConfigKey(mode) in config.compositeOutputs
                && config.compositeOutputs[ConfigKey(mode)] != "" ==>
                  Sensor.OutputModeFromText(config.compositeOutputs[ConfigKey(mode)]) != Sensor.UnknownOutput)
    ensures BuildPlan(None, mode) == Err(NotInitialized) && BuildPlan(Some(config), Unknown) == Err(InvalidArgument)
  {
    hide Sensor.OutputModeFromText;
  }

  lemma ConfigKeyInjective(a: WorkMode, b: WorkMode)
    ensures ConfigKey(a) == ConfigKey(b) <==> a == b
  {
    assert "visible_only"[0] != "thermal_only"[0];
  }

  /** The settings of one mode are its own: switching a mode off leaves it without a plan, and whatever is set for it,
      the plans of all other modes stay what they were. */
  lemma SettingsAreLocal(config: ModeConfig, mode: WorkMode, other: WorkMode, enabled: bool, output: string)
    requires mode != Unknown && other != mode
    ensures var key := ConfigKey(mode);
            var config' := ModeConfig(config.enabledModes[key := enabled], config.compositeOutputs[key := output]);
            && BuildPlan(Some(config'), other) == BuildPlan(Some(config), other)
            && (!enabled ==> BuildPlan(Some(config'), mode) == Err(UnsupportedWorkMode))
  {
    hide ConfigKey, Sensor.OutputModeFromText;
    ConfigKeyInjective(mode, other);
  }

  /** What every plan promises the executor, whatever the configuration: the pipeline fits together and asks for just
      the required cameras, a sensor switch always has a definite output, and a fusion mode its own algorithm. */
  lemma PlanSound(planner: Option<ModeConfig>, mode: WorkMode)
    requires BuildPlan(planner, mode).Ok?
    ensures var plan := BuildPlan(planner, mode).value;
            && plan.targetMode == mode != Unknown
            && PipelineFits(plan.pipeline)
            && plan.pipeline.requireVisible == plan.requireVisible == (Visible in plan.requiredCameras)
            && plan.pipeline.requireComposite == plan.requireComposite == (CompositeLowThermal in plan.requiredCameras)
            && (plan.requireSensorSwitch <==> plan.compositeOutput != Sensor.UnknownOutput)
            && (plan.requireSensorSwitch <==> plan.pipeline.useEncoder)
            && (plan.requireFusion <==> plan.fusionMode != NoFusion)
            && (plan.requireFusion ==> plan.requireVisible && plan.requireComposite)
  {
    hide Sensor.OutputModeFromText;
  }

  /** Two different fusion modes never share an algorithm. */
  lemma FusionModeTellsMode(a: WorkMode, b: WorkMode)
    requires IsFusionMode(a) && FusionModeFor(a) == FusionModeFor(b)
    ensures a == b
  {
  }

  // ---------------------------------------------------------------- what a mode is for

  /** The light a picture is made of. */
  datatype Band = VisibleLight | Lowlight | Infrared

  /** What the name of a mode promises to show. */
  function BandsOf(mode: WorkMode): set<Band> {
    match mode
    case VisibleOnly => {VisibleLight}
    case LowlightOnly => {Lowlight}
    case ThermalOnly => {Infrared}
    case LowlightThermalComposite => {Lowlight, Infrared}
    case VisibleLowlightFusion => {VisibleLight, Lowlight}
    case VisibleThermalFusion => {VisibleLight, Infrared}
    case VisibleCompositeFusion => {VisibleLight, Lowlight, Infrared}
    case Unknown => {}
  }

  function SensorBands(output: Sensor.OutputMode): set<Band> {
    match output
    case UnknownOutput => {}
    case LowlightOnly => {Lowlight}
    case ThermalOnly => {Infrared}
    case LowlightThermalComposite => {Lowlight, Infrared}
  }

  /** What a fusion algorithm joins with the visible picture. */
  function FusedBands(fusion: FusionMode): set<Band> {
    match fusion
    case NoFusion => {}
    case VisibleLowlight => {VisibleLight, Lowlight}
    case VisibleThermal => {VisibleLight, Infrared}
    case VisibleComposite => {VisibleLight, Lowlight, Infrared}
  }

  /** The sensor output configured for a mode; nothing configured counts as an empty text. */
  function ConfiguredOutput(config: ModeConfig, mode: WorkMode): string {
    var key := ConfigKey(mode);
    if key in config.compositeOutputs then config.compositeOutputs[key] else ""
  }

  /** A configured output is the plan's exactly if the text reads as one of its names; a text that reads as no name is
      refused. A mode that shows only visible light ignores what is configured. */
  lemma PlanUsesConfiguredOutput(config: ModeConfig, mode: WorkMode, output: Sensor.OutputMode)
    requires ConfiguredOutput(config, mode) != "" && output != Sensor.UnknownOutput
    requires ConfigKey(mode) in config.enabledModes ==> config.enabledModes[ConfigKey(mode)]
    ensures var r, text := BuildPlan(Some(config), mode), ConfiguredOutput(config, mode);
            && (mode !in {Unknown, VisibleOnly} ==>
                  && (r.Ok? && r.value.compositeOutput == output <==> Sensor.ReadsOneOf(text, Sensor.NamesOf(output)))
                  && (r.Ok? ==> r.value.compositeOutput != Sensor.UnknownOutput)
                  && (r.Err? ==> r.code == ConfigError))
            && (mode == VisibleOnly ==> r.Ok? && r.value.compositeOutput == Sensor.UnknownOutput)
  {
    Sensor.TextNames(output, ConfiguredOutput(config, mode));
    hide Sensor.OutputModeFromText, Sensor.ReadsOneOf, Sensor.NamesOf, ConfigKey;
  }

  /** A plan serves its mode: the visible camera is asked for exactly when the mode shows visible light, the sensor,
      unless configured otherwise, delivers exactly the mode's other bands, and a fusion algorithm joins exactly the
      mode's bands. */
  lemma PlanServesMode(config: ModeConfig, mode: WorkMode)
    requires BuildPlan(Some(config), mode).Ok?
    ensures var plan := BuildPlan(Some(config), mode).value;
            && plan.stableWaitMs == 200
            && plan.requiredCameras == (if VisibleLight in BandsOf(mode) then [Visible] else [])
                                       + (if BandsOf(mode) - {VisibleLight} != {} then [CompositeLowThermal] else [])
            && (plan.pipeline.kind == VisiblePipeline <==> BandsOf(mode) == {VisibleLight})
            && (plan.pipeline.kind == FusionPipeline <==> plan.requireFusion)
            && (plan.requireVisible <==> VisibleLight in BandsOf(mode))
            && (plan.requireComposite <==> BandsOf(mode) - {VisibleLight} != {})
            && (ConfiguredOutput(config, mode) == "" ==>
                  SensorBands(plan.compositeOutput) == BandsOf(mode) - {VisibleLight})
            && (plan.requireFusion <==> VisibleLight in BandsOf(mode) && |BandsOf(mode)| > 1)
            && (plan.requireFusion ==> FusedBands(plan.fusionMode) == BandsOf(mode))
  {
    hide Sensor.OutputModeFromText;
    var bands := BandsOf(mode);
    assert Lowlight in bands ==> Lowlight in bands - {VisibleLight};
    assert Infrared in bands ==> Infrared in bands - {VisibleLight};
    assert IsFusionMode(mode) ==> bands == FusedBands(FusionModeFor(mode)) && |bands| > 1;
  }
}
