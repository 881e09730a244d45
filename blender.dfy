/**
 * The placeholder motion-blending stage (src/blender/blender.py): the checks
 * `load_bvh` and `blend_motions` make before giving up, and `blend_batch`,
 * which turns configuration dictionaries into blend results one by one.
 *
 * `BlendConfig` is a dataclass without type checks, so its fields hold any
 * value; `render` stands for `str()` of a value inside an f-string.
 */
module Blender {
  import opened Optional
  import opened PyValue
  import opened Strings
  import opened Paths
  import opened Batch

  const DefaultFps: int := 30
  const DefaultScale: real := 1.0
  const SupportedBlendModes: seq<string> := ["single-shot", "multi-frame"]
  const MinFrames: int := 30

  /** The `NotImplementedError` message of `load_bvh`. */
  const BvhNotImplemented: string :=
    "BVH loading requires blendanim framework. See docs/BLENDANIM_INTEGRATION.md for setup instructions."

  /** The error message of every blend that passes its checks. */
  const BlendNotImplemented: string :=
    "Motion blending requires blendanim framework. See docs/BLENDANIM_INTEGRATION.md for setup instructions."

  /** `load_bvh(p)`: it never returns, and this is the exception it raises. */
  function LoadBvh(fs: FileSystem, p: string): (e: Exc)
    ensures !Exists(fs, p) ==> e == Error(FileNotFoundError, "BVH file not found: " + p)
    ensures Exists(fs, p) && Lower(Suffix(p)) != ".bvh" ==>
      e == Error(ValueError, "Invalid file format: " + Suffix(p) + " (expected .bvh)")
    ensures Exists(fs, p) && Lower(Suffix(p)) == ".bvh" ==> e == Error(NotImplementedError, BvhNotImplemented)
  {
    if !Exists(fs, p) then Error(FileNotFoundError, "BVH file not found: " + p)
    else if Lower(Suffix(p)) != ".bvh" then Error(ValueError, "Invalid file format: " + Suffix(p) + " (expected .bvh)")
    else Error(NotImplementedError, BvhNotImplemented)
  }

  /** The suffix test ignores case: "walk.BVH" gets as far as "walk.bvh". */
  lemma LoadBvhSuffixCase(fs: FileSystem, p: string)
    requires Exists(fs, p) && Suffix(p) == ".BVH"
    ensures LoadBvh(fs, p).kind == NotImplementedError
  {
    assert Lower(".BVH") == ".bvh" by {
      assert LowerChar('B') == 'b' && LowerChar('V') == 'v' && LowerChar('H') == 'h';
    }
  }

  /** `BlendConfig`. */
  datatype BlendConfig = BlendConfig(
    sourceAnimation: Value,
    targetAnimation: Value,
    blendMode: Value,
    transitionFrames: Value,
    fps: Value,
    scale: Value,
    useTemporalConditioning: Value,
    checkpointPath: Value)

  /** `BlendConfig(source_animation=source, target_animation=target)`. */
  function DefaultBlendConfig(source: Value, target: Value): BlendConfig {
    BlendConfig(source, target, Str("single-shot"), Int(30), Int(DefaultFps), Float(DefaultScale), Bool(true), Null)
  }

  /** `BlendResult` without the duration. */
  datatype BlendResult = BlendResult(
    success: bool,
    outputPath: Option<string>,
    blendConfig: BlendConfig,
    frameCount: int,
    errorMessage: Option<string>)

  function BlendFailure(config: BlendConfig, message: string): BlendResult {
    BlendResult(false, None, config, 0, Some(message))
  }

  /** `v < 30` for the value of `transition_frames`; only numbers compare with an int. */
  function BelowMinFrames(v: Value): (r: Outcome<bool>)
    ensures r.Ok? <==> IsNumber(v)
    ensures r.Ok? ==> (r.value <==> NumValue(v) < MinFrames as real)
    ensures r.Raised? ==> r.exc.kind == TypeError
  {
    if IsNumber(v) then Ok(NumValue(v) < MinFrames as real)
    else Raised(Error(TypeError, "'<' not supported between instances of '" + TypeName(v) + "' and 'int'"))
  }

  /** `Path(v)`: only a string makes a path. */
  function PathOf(v: Value): (r: Outcome<string>)
    ensures r.Ok? <==> v.Str?
    ensures r.Ok? ==> r.value == v.s
  {
    if v.Str? then Ok(v.s)
    else Raised(Error(TypeError, "argument should be a str or an os.PathLike object where __fspath__ returns a str, not '"
                                 + TypeName(v) + "'"))
  }

  /** `mode in SUPPORTED_BLEND_MODES`: only the two strings themselves. */
  predicate SupportedMode(mode: Value) {
    mode == Str(SupportedBlendModes[0]) || mode == Str(SupportedBlendModes[1])
  }

  /** The blend mode is supported and the transition is long enough. */
  predicate ModeAndFramesPass(config: BlendConfig) {
    SupportedMode(config.blendMode) && BelowMinFrames(config.transitionFrames) == Ok(false)
  }

  /** Every check of `blend_motions` passes: only making the output directory is left. */
  predicate ChecksPass(fs: FileSystem, config: BlendConfig) {
    && ModeAndFramesPass(config)
    && config.sourceAnimation.Str? && Exists(fs, config.sourceAnimation.s)
    && config.targetAnimation.Str? && Exists(fs, config.targetAnimation.s)
  }

  /**
   * The second half of `blend_motions`: both paths are built (a non-string
   * raises), both must exist, and then the output directory is made.
   */
  function BlendFiles(fs: FileSystem, config: BlendConfig, mkdir: Option<Exc>): (r: Outcome<BlendResult>)
    ensures r.Ok? ==> r.value.blendConfig == config && !r.value.success && r.value.outputPath.None? && r.value.frameCount == 0
    ensures !config.sourceAnimation.Str? || !config.targetAnimation.Str? ==> r.Raised? && r.exc.kind == TypeError
    ensures r.Raised? ==> r.exc.kind == TypeError || mkdir == Some(r.exc)
    ensures ChecksPass(fs, config) ==>
      r == if mkdir.Some? then Raised(mkdir.value) else Ok(BlendFailure(config, BlendNotImplemented))
    ensures config.sourceAnimation.Str? && config.targetAnimation.Str? && !Exists(fs, config.sourceAnimation.s) ==>
      r == Ok(BlendFailure(config, "Source animation not found: " + config.sourceAnimation.s))
    ensures config.sourceAnimation.Str? && config.targetAnimation.Str?
            && Exists(fs, config.sourceAnimation.s) && !Exists(fs, config.targetAnimation.s) ==>
      r == Ok(BlendFailure(config, "Target animation not found: " + config.targetAnimation.s))
  {
    match PathOf(config.sourceAnimation)
    case Raised(e) => Raised(e)
    case Ok(source) =>
      match PathOf(config.targetAnimation)
      case Raised(e) => Raised(e)
      case Ok(target) =>
        if !Exists(fs, source) then Ok(BlendFailure(config, "Source animation not found: " + source))
        else if !Exists(fs, target) then Ok(BlendFailure(config, "Target animation not found: " + target))
        else if mkdir.Some? then Raised(mkdir.value)
        else Ok(BlendFailure(config, BlendNotImplemented))
  }

  /**
   * `blend_motions(config, output_path)`: blend mode, transition length,
   * source and target are checked in that order, then the output directory
   * is made (`mkdir` is what that raises) and the blend is reported as not
   * implemented. The output path only locates that directory.
   */
  function BlendMotions(fs: FileSystem, config: BlendConfig, outputPath: string, mkdir: Option<Exc>,
                        render: Value -> string): (r: Outcome<BlendResult>)
    ensures r.Ok? ==> r.value.blendConfig == config && !r.value.success && r.value.outputPath.None? && r.value.frameCount == 0
    ensures !SupportedMode(config.blendMode) ==>
      r == Ok(BlendFailure(config, "Unsupported blend_mode: " + render(config.blendMode)
                                   + ". Supported: ['single-shot', 'multi-frame']"))
    ensures SupportedMode(config.blendMode) && BelowMinFrames(config.transitionFrames) == Ok(true) ==>
      r == Ok(BlendFailure(config, "transition_frames (" + render(config.transitionFrames) + ") < minimum (30)"))
    ensures SupportedMode(config.blendMode) && BelowMinFrames(config.transitionFrames).Raised? ==>
      r == Raised(BelowMinFrames(config.transitionFrames).exc)
    ensures ModeAndFramesPass(config) ==> r == BlendFiles(fs, config, mkdir)
    ensures r.Raised? ==> r.exc.kind == TypeError || mkdir == Some(r.exc)
  {
    if !SupportedMode(config.blendMode) then
      Ok(BlendFailure(config, "Unsupported blend_mode: " + render(config.blendMode) + ". Supported: ['single-shot', 'multi-frame']"))
    else
      match BelowMinFrames(config.transitionFrames)
      case Raised(e) => Raised(e)
      case Ok(below) =>
        if below then Ok(BlendFailure(config, "transition_frames (" + render(config.transitionFrames) + ") < minimum (30)"))
        else BlendFiles(fs, config, mkdir)
  }

  /** `blend_motions` never succeeds: whatever passes every check ends in the not-implemented failure or a mkdir error. */
  lemma BlendNeverSucceeds(fs: FileSystem, config: BlendConfig, outputPath: string, mkdir: Option<Exc>,
                           render: Value -> string)
    ensures var r := BlendMotions(fs, config, outputPath, mkdir, render);
      && (r.Ok? ==> !r.value.success)
      && (ChecksPass(fs, config) && mkdir.None? ==> r == Ok(BlendFailure(config, BlendNotImplemented)))
  {
  }

  /** A missing source is reported before a missing target. */
  lemma SourceCheckedFirst(fs: FileSystem, config: BlendConfig, outputPath: string, mkdir: Option<Exc>,
                           render: Value -> string, source: string, target: string)
    requires config.blendMode == Str("single-shot") && config.transitionFrames == Int(30)
    requires config.sourceAnimation == Str(source) && config.targetAnimation == Str(target)
    requires !Exists(fs, source) && !Exists(fs, target)
    ensures BlendMotions(fs, config, outputPath, mkdir, render) == Ok(BlendFailure(config, "Source animation not found: " + source))
  {
  }

  /**
   * A configuration dictionary: its items in insertion order. A Python dict
   * holds each key once, and the model does not demand that of the sequence:
   * where a key repeats, `GetItem` reads its first item, whereas a dict built
   * from those items would keep the last. Only sequences with distinct keys
   * stand for real dicts.
   */
  type ConfigDict = seq<(string, Value)>

  /** `key in d`. */
  predicate HasKey(d: ConfigDict, key: string) {
    exists i :: 0 <= i < |d| && d[i].0 == key
  }

  /** `d.get(key, default)`: the first item with that key. */
  function GetItem(d: ConfigDict, key: string, default: Value): (v: Value)
    ensures !HasKey(d, key) ==> v == default
    ensures HasKey(d, key) ==>
      exists i :: 0 <= i < |d| && d[i] == (key, v) && forall j :: 0 <= j < i ==> d[j].0 != key
  {
    if d == [] then default
    else if d[0].0 == key then d[0].1
    else
      var v := GetItem(d[1..], key, default);
      assert forall i :: 0 <= i < |d| - 1 ==> d[1..][i] == d[i + 1];
      assert HasKey(d, key) ==> exists i :: 0 <= i < |d| && d[i] == (key, v) && forall j :: 0 <= j < i ==> d[j].0 != key by {
        if HasKey(d, key) {
          var i :| 0 <= i < |d| && d[i].0 == key;
          assert i > 0 && d[1..][i - 1].0 == key;
          var k :| 0 <= k < |d| - 1 && d[1..][k] == (key, v) && forall j :: 0 <= j < k ==> d[1..][j].0 != key;
          assert d[k + 1] == (key, v);
          assert forall j :: 0 <= j < k + 1 ==> d[j].0 != key by {
            forall j | 0 <= j < k + 1
              ensures d[j].0 != key
            {
              if j > 0 {
                assert d[j] == d[1..][j - 1];
              }
            }
          }
        }
      }
      v
  }

  /** The keyword arguments `BlendConfig` accepts. */
  const BlendConfigFields: seq<string> := ["source_animation", "target_animation", "blend_mode", "transition_frames",
                                           "fps", "scale", "use_temporal_conditioning", "checkpoint_path"]

  /** The first key `BlendConfig(**d)` does not accept, if any. */
  function FirstUnexpected(d: ConfigDict): (r: Option<string>)
    ensures r.None? <==> forall i :: 0 <= i < |d| ==> d[i].0 in BlendConfigFields
    ensures r.Some? ==> r.value !in BlendConfigFields && HasKey(d, r.value)
    ensures r.Some? ==>
      exists i :: 0 <= i < |d| && d[i].0 == r.value && forall j :: 0 <= j < i ==> d[j].0 in BlendConfigFields
  {
    if d == [] then None
    else if d[0].0 !in BlendConfigFields then Some(d[0].0)
    else
      var r := FirstUnexpected(d[1..]);
      assert forall i :: 0 <= i < |d| - 1 ==> d[1..][i] == d[i + 1];
      assert r.Some? ==> exists i :: 0 <= i < |d| && d[i].0 == r.value && forall j :: 0 <= j < i ==> d[j].0 in BlendConfigFields by {
        if r.Some? {
          var k :| 0 <= k < |d| - 1 && d[1..][k].0 == r.value && forall j :: 0 <= j < k ==> d[1..][j].0 in BlendConfigFields;
          assert d[k + 1].0 == r.value;
          assert forall j :: 0 <= j < k + 1 ==> d[j].0 in BlendConfigFields by {
            forall j | 0 <= j < k + 1
              ensures d[j].0 in BlendConfigFields
            {
              if j > 0 {
                assert d[j] == d[1..][j - 1];
              }
            }
          }
        }
      }
      r
  }

  /** `BlendConfig(**d)`: a `TypeError` naming the first unexpected key, or the fields with their defaults filled in. */
  function MakeBlendConfig(d: ConfigDict): (r: Outcome<BlendConfig>)
    ensures r.Ok? <==> FirstUnexpected(d).None?
    ensures r.Raised? ==> r.exc == Error(TypeError,
      "BlendConfig.__init__() got an unexpected keyword argument '" + FirstUnexpected(d).value + "'")
  {
    match FirstUnexpected(d)
    case Some(k) => Raised(Error(TypeError, "BlendConfig.__init__() got an unexpected keyword argument '" + k + "'"))
    case None =>
      var base := DefaultBlendConfig(Str(""), Str(""));
      Ok(BlendConfig(
        GetItem(d, "source_animation", base.sourceAnimation),
        GetItem(d, "target_animation", base.targetAnimation),
        GetItem(d, "blend_mode", base.blendMode),
        GetItem(d, "transition_frames", base.transitionFrames),
        GetItem(d, "fps", base.fps),
        GetItem(d, "scale", base.scale),
        GetItem(d, "use_temporal_conditioning", base.useTemporalConditioning),
        GetItem(d, "checkpoint_path", base.checkpointPath)))
  }

  /** `[f for f in ["source_animation", "target_animation"] if f not in d]`, as Python prints the list. */
  function MissingFieldsText(d: ConfigDict): string {
    var s := HasKey(d, "source_animation");
    var t := HasKey(d, "target_animation");
    if !s && !t then "['source_animation', 'target_animation']"
    else if !s then "['source_animation']"
    else "['target_animation']"
  }

  /** `f"blend_{i:04d}.bvh"`. */
  function DefaultOutputName(i: nat): string {
    "blend_" + ZeroPad(NatToString(i), 4) + ".bvh"
  }

  /** The default name is the index padded to four digits: config 7 becomes "blend_0007.bvh". */
  lemma DefaultOutputNameExample()
    ensures DefaultOutputName(7) == "blend_0007.bvh"
  {
    assert NatToString(7) == "7";
    assert ZeroPad("7", 4) == "0007";
  }

  /** `config_dict.get("output_filename", f"blend_{i:04d}.bvh")` with a string value. */
  function OutputName(d: ConfigDict, i: nat, render: Value -> string): string {
    var v := GetItem(d, "output_filename", Str(DefaultOutputName(i)));
    if v.Str? then v.s else render(v)
  }

  /**
   * One iteration of the `blend_batch` loop, at index `i`; `mkdir(i)` is what
   * creating the output's directory raises. Only `blend_motions` can raise.
   */
  function BlendItem(fs: FileSystem, outputDir: string, mkdir: nat -> Option<Exc>, render: Value -> string,
                     i: nat, d: ConfigDict): (r: Outcome<BlendResult>)
    ensures !HasKey(d, "source_animation") || !HasKey(d, "target_animation") ==>
      r == Ok(BlendFailure(DefaultBlendConfig(Str(""), Str("")),
                           "Missing required fields in config " + NatToString(i) + ": " + MissingFieldsText(d)))
    ensures HasKey(d, "source_animation") && HasKey(d, "target_animation") && MakeBlendConfig(d).Raised? ==>
      r == Ok(BlendFailure(
        DefaultBlendConfig(GetItem(d, "source_animation", Str("")), GetItem(d, "target_animation", Str(""))),
        "Invalid config " + NatToString(i) + ": " + MakeBlendConfig(d).exc.message))
    ensures HasKey(d, "source_animation") && HasKey(d, "target_animation") && MakeBlendConfig(d).Ok? ==>
      r == BlendMotions(fs, MakeBlendConfig(d).value, JoinPath(outputDir, OutputName(d, i, render)), mkdir(i), render)
  {
    if !HasKey(d, "source_animation") || !HasKey(d, "target_animation") then
      Ok(BlendFailure(DefaultBlendConfig(Str(""), Str("")),
                      "Missing required fields in config " + NatToString(i) + ": " + MissingFieldsText(d)))
    else
      match MakeBlendConfig(d)
      case Raised(e) =>
        Ok(BlendFailure(DefaultBlendConfig(GetItem(d, "source_animation", Str("")), GetItem(d, "target_animation", Str(""))),
                        "Invalid config " + NatToString(i) + ": " + e.message))
      case Ok(config) =>
        BlendMotions(fs, config, JoinPath(outputDir, OutputName(d, i, render)), mkdir(i), render)
  }

  /** `BlendItem` for fixed arguments, as the per-index function of a batch. */
  function BlendStep(fs: FileSystem, outputDir: string, mkdir: nat -> Option<Exc>, render: Value -> string)
    : (nat, ConfigDict) -> Outcome<BlendResult>
  {
    (i: nat, d: ConfigDict) => BlendItem(fs, outputDir, mkdir, render, i, d)
  }

  /**
   * `blend_batch(configs, output_dir)`: an empty list returns at once;
   * otherwise `output_dir` is made (`mkdirBatch` is what that raises) and
   * each dictionary gives one result.
   */
  method BlendBatch(fs: FileSystem, configs: seq<ConfigDict>, outputDir: string, mkdirBatch: Option<Exc>,
                    mkdir: nat -> Option<Exc>, render: Value -> string) returns (r: Outcome<seq<BlendResult>>)
    ensures configs == [] ==> r == Ok([])
    ensures configs != [] && mkdirBatch.Some? ==> r == Raised(mkdirBatch.value)
    ensures configs != [] && mkdirBatch.None? ==> r == Collect(configs, BlendStep(fs, outputDir, mkdir, render))
  {
    var results: seq<BlendResult> := [];
    if configs == [] {
      return Ok(results);
    }
    if mkdirBatch.Some? {
      return Raised(mkdirBatch.value);
    }
    var f := BlendStep(fs, outputDir, mkdir, render);
    var i := 0;
    while i < |configs|
      invariant 0 <= i <= |configs|
      invariant CollectFrom(configs, f, i, results) == Collect(configs, f)
    {
      var result := BlendItem(fs, outputDir, mkdir, render, i, configs[i]);
      assert result == f(i, configs[i]);
      if result.Raised? {
        return Raised(result.exc);
      }
      results := results + [result.value];
      i := i + 1;
    }
    r := Ok(results);
  }

  /** `output_filename` is not a field of `BlendConfig`. */
  lemma OutputFilenameNotAField()
    ensures "output_filename" !in BlendConfigFields
  {
    forall m | 0 <= m < |BlendConfigFields|
      ensures BlendConfigFields[m] != "output_filename"
    {
      assert BlendConfigFields[m][0] != 'o';
    }
  }

  /**
   * A dictionary naming `output_filename` is always refused by `BlendConfig`
   * (the key is read only after the configuration is built), so the name it
   * gives is never used.
   */
  lemma OutputFilenameRejected(fs: FileSystem, outputDir: string, mkdir: nat -> Option<Exc>, render: Value -> string,
                               i: nat, d: ConfigDict)
    requires HasKey(d, "source_animation") && HasKey(d, "target_animation") && HasKey(d, "output_filename")
    ensures MakeBlendConfig(d).Raised?
    ensures BlendItem(fs, outputDir, mkdir, render, i, d)
         == Ok(BlendFailure(DefaultBlendConfig(GetItem(d, "source_animation", Str("")), GetItem(d, "target_animation", Str(""))),
                            "Invalid config " + NatToString(i) + ": " + MakeBlendConfig(d).exc.message))
  {
    OutputFilenameNotAField();
    var j :| 0 <= j < |d| && d[j].0 == "output_filename";
    assert d[j].0 !in BlendConfigFields;
  }

  /** A dictionary that reaches `blend_motions` uses the default output name `blend_{i:04d}.bvh`. */
  lemma DefaultNameUsed(d: ConfigDict, i: nat, render: Value -> string)
    requires MakeBlendConfig(d).Ok?
    ensures OutputName(d, i, render) == DefaultOutputName(i)
  {
    OutputFilenameNotAField();
    forall j | 0 <= j < |d|
      ensures d[j].0 != "output_filename"
    {
    }
  }

  /** When no item raises, the batch gives one result per dictionary, in order. */
  lemma BlendBatchResults(fs: FileSystem, configs: seq<ConfigDict>, outputDir: string, mkdir: nat -> Option<Exc>,
                          render: Value -> string)
    requires forall k :: 0 <= k < |configs| ==> BlendItem(fs, outputDir, mkdir, render, k, configs[k]).Ok?
    ensures var r := Collect(configs, BlendStep(fs, outputDir, mkdir, render));
      r.Ok? && |r.value| == |configs|
      && forall k :: 0 <= k < |configs| ==> r.value[k] == BlendItem(fs, outputDir, mkdir, render, k, configs[k]).value
  {
    var f := BlendStep(fs, outputDir, mkdir, render);
    assert forall k :: 0 <= k < |configs| ==> f(k, configs[k]) == BlendItem(fs, outputDir, mkdir, render, k, configs[k]);
    CollectAll(configs, f);
  }
}
