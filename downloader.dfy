/**
 * The animation file validator and the placeholder download stage
 * (src/downloader/downloader.py): ordered input checks over an abstract file
 * system, and a batch that gives one result per configuration.
 *
 * `mkdir` is modelled by the exception it raises, if any; the directory it
 * creates is not added to the file system.
 */
module Downloader {
  import opened Optional
  import opened PyValue
  import opened Strings
  import opened Paths
  import opened Batch

  const SupportedFormats: seq<string> := ["fbx", "bvh"]
  const MinFileSizeBytes: nat := 1024
  const MaxRetries: nat := 3

  /** The text of the failure every download that is attempted returns. */
  const NotImplementedMessage: string :=
    "Mixamo API integration " + "not yet implemented"
    + ". This requires integration with mixamo_anims_downloader repository."

  /** `DownloadResult` without the duration. */
  datatype DownloadResult = DownloadResult(
    success: bool,
    filePath: Option<string>,
    animationId: string,
    errorMessage: Option<string>,
    fileSizeBytes: Option<nat>)

  /** `Path(p).suffix.lower().lstrip(".")`. */
  function Extension(p: string): string {
    LStripChar(Lower(Suffix(p)), '.')
  }

  /** `validate_download(p, min_size_bytes)`: exists, is not a directory, has a supported extension, is large enough. */
  function ValidateDownload(fs: FileSystem, p: string, minSize: int): (r: Outcome<bool>)
    ensures r.Raised? <==> AllSpace(p)
    ensures r.Raised? ==> r.exc == Error(ValueError, "file_path cannot be empty")
    ensures r == Ok(true) <==>
      !AllSpace(p) && IsFile(fs, p) && Extension(p) in SupportedFormats && Size(fs, p) >= minSize
  {
    if Strip(p) == "" then Raised(Error(ValueError, "file_path cannot be empty"))
    else if !Exists(fs, p) then Ok(false)
    else if IsDir(fs, p) then Ok(false)
    else if Extension(p) !in SupportedFormats then Ok(false)
    else Ok(Size(fs, p) >= minSize)
  }

  /** A path of one ideographic space (U+3000) is whitespace only, so it is rejected as empty. */
  lemma WideSpacePathRaises(fs: FileSystem, minSize: int)
    ensures ValidateDownload(fs, "\U{3000}", minSize) == Raised(Error(ValueError, "file_path cannot be empty"))
  {
  }

  /** `f"Unsupported format '{format}'. Supported formats: fbx, bvh"`. */
  function UnsupportedFormatMessage(format: string): string {
    "Unsupported format '" + format + "'. Supported formats: fbx, bvh"
  }

  /** What `mkdir` raising `e` turns into: an `OSError` is re-raised with the directory named, anything else unchanged. */
  function MkdirFailure(dir: string, e: Exc): (r: Exc)
    ensures IsSubclass(e.kind, OSError) ==> r.kind == OSError
    ensures !IsSubclass(e.kind, OSError) ==> r == e
  {
    if IsSubclass(e.kind, OSError) then Error(OSError, "Failed to create output directory " + dir + ": " + e.message)
    else e
  }

  /** The argument checks of `download_animation`, in order: the `ValueError` of the first that fails. */
  function InputError(animationId: string, outputPath: string, format: string): (r: Option<Exc>)
    ensures AllSpace(animationId) ==> r == Some(Error(ValueError, "animation_id cannot be empty"))
    ensures !AllSpace(animationId) && AllSpace(outputPath) ==> r == Some(Error(ValueError, "output_path cannot be empty"))
    ensures !AllSpace(animationId) && !AllSpace(outputPath) && Lower(format) !in SupportedFormats ==>
      r == Some(Error(ValueError, UnsupportedFormatMessage(format)))
    ensures r.None? <==> !AllSpace(animationId) && !AllSpace(outputPath) && Lower(format) in SupportedFormats
    ensures r.Some? ==> r.value.kind == ValueError
  {
    if Strip(animationId) == "" then Some(Error(ValueError, "animation_id cannot be empty"))
    else if Strip(outputPath) == "" then Some(Error(ValueError, "output_path cannot be empty"))
    else if Lower(format) !in SupportedFormats then Some(Error(ValueError, UnsupportedFormatMessage(format)))
    else None
  }

  /** What `download_animation` does once its arguments pass: make the directory, then keep or give up. */
  function DownloadChecked(fs: FileSystem, cwd: string, animationId: string, outputPath: string,
                           overwrite: bool, mkdir: Option<Exc>): (r: Outcome<DownloadResult>)
    ensures r.Raised? <==> mkdir.Some?
    ensures r.Raised? ==> r.exc == MkdirFailure(ParentPath(outputPath), mkdir.value)
    ensures r.Raised? && !IsSubclass(r.exc.kind, Exception) ==> mkdir == Some(r.exc)
    ensures r.Ok? ==> r.value.animationId == animationId
    ensures r.Ok? ==> (r.value.success <==> Exists(fs, outputPath) && !overwrite)
    ensures r.Ok? && r.value.success ==>
      r.value.filePath == Some(Absolute(cwd, outputPath)) && r.value.fileSizeBytes == Some(Size(fs, outputPath))
    ensures r.Ok? && !r.value.success ==>
      r.value == DownloadResult(false, None, animationId, Some(NotImplementedMessage), None)
  {
    if mkdir.Some? then Raised(MkdirFailure(ParentPath(outputPath), mkdir.value))
    else if Exists(fs, outputPath) && !overwrite then
      Ok(DownloadResult(true, Some(Absolute(cwd, outputPath)), animationId, None, Some(Size(fs, outputPath))))
    else Ok(DownloadResult(false, None, animationId, Some(NotImplementedMessage), None))
  }

  /**
   * `download_animation`: the inputs are checked in order, then the parent
   * directory is created; an existing file is kept unless `overwrite`, and
   * every other case fails as not yet implemented.
   */
  function DownloadAnimation(fs: FileSystem, cwd: string, animationId: string, outputPath: string, format: string,
                             overwrite: bool, mkdir: Option<Exc>): (r: Outcome<DownloadResult>)
    ensures AllSpace(animationId) ==> r == Raised(Error(ValueError, "animation_id cannot be empty"))
    ensures !AllSpace(animationId) && AllSpace(outputPath) ==> r == Raised(Error(ValueError, "output_path cannot be empty"))
    ensures !AllSpace(animationId) && !AllSpace(outputPath) && Lower(format) !in SupportedFormats ==>
      r == Raised(Error(ValueError, UnsupportedFormatMessage(format)))
    ensures !AllSpace(animationId) && !AllSpace(outputPath) && Lower(format) in SupportedFormats ==>
      r == DownloadChecked(fs, cwd, animationId, outputPath, overwrite, mkdir)
    ensures r.Raised? && !IsSubclass(r.exc.kind, Exception) ==> mkdir == Some(r.exc)
  {
    match InputError(animationId, outputPath, format)
    case Some(e) =>
      assert IsSubclass(e.kind, Exception);
      Raised(e)
    case None => DownloadChecked(fs, cwd, animationId, outputPath, overwrite, mkdir)
  }

  /** No download is ever performed: success only ever means an existing file was kept. */
  lemma NeverDownloads(fs: FileSystem, cwd: string, animationId: string, outputPath: string, format: string,
                       overwrite: bool, mkdir: Option<Exc>)
    ensures var r := DownloadAnimation(fs, cwd, animationId, outputPath, format, overwrite, mkdir);
      r.Ok? && r.value.success ==> Exists(fs, outputPath)
    ensures var r := DownloadAnimation(fs, cwd, animationId, outputPath, format, overwrite, mkdir);
      overwrite && r.Ok? ==> !r.value.success && Contains(r.value.errorMessage.value, "not yet implemented")
  {
    ContainsMiddle("Mixamo API integration ", "not yet implemented",
                   ". This requires integration with mixamo_anims_downloader repository.");
  }

  /** The format check ignores case: "FBX" is accepted like "fbx". */
  lemma FormatIgnoresCase(fs: FileSystem, cwd: string, animationId: string, outputPath: string, overwrite: bool,
                          mkdir: Option<Exc>, f1: string, f2: string)
    requires Lower(f1) == Lower(f2) && Lower(f1) in SupportedFormats
    ensures DownloadAnimation(fs, cwd, animationId, outputPath, f1, overwrite, mkdir)
         == DownloadAnimation(fs, cwd, animationId, outputPath, f2, overwrite, mkdir)
  {
  }

  /** One entry of `animation_configs`; values are strings. */
  type DownloadSpec = map<string, string>

  /** `not config.get(key)`: the key is missing or its value is empty. */
  predicate Blank(config: DownloadSpec, key: string) {
    key !in config || config[key] == ""
  }

  /**
   * One iteration of the `download_batch` loop, at index `k`: configuration
   * problems and exceptions of `download_animation` both become failures;
   * only an exception that is not an `Exception` escapes.
   */
  function DownloadItem(fs: FileSystem, cwd: string, outputDir: string, format: string, mkdir: nat -> Option<Exc>,
                        k: nat, config: DownloadSpec): (r: Outcome<DownloadResult>)
    ensures Blank(config, "animation_id") ==> r == Ok(DownloadResult(false, None, "unknown",
      Some("Missing animation_id in config at index " + NatToString(k)), None))
    ensures !Blank(config, "animation_id") && Blank(config, "output_filename") ==>
      r == Ok(DownloadResult(false, None, config["animation_id"],
        Some("Missing output_filename for animation_id " + config["animation_id"]), None))
    ensures r.Ok? && !Blank(config, "animation_id") ==> r.value.animationId == config["animation_id"]
    ensures r.Raised? ==> !IsSubclass(r.exc.kind, Exception) && mkdir(k) == Some(r.exc)
  {
    if Blank(config, "animation_id") then
      Ok(DownloadResult(false, None, "unknown", Some("Missing animation_id in config at index " + NatToString(k)), None))
    else
      var id := config["animation_id"];
      if Blank(config, "output_filename") then
        Ok(DownloadResult(false, None, id, Some("Missing output_filename for animation_id " + id), None))
      else
        match DownloadAnimation(fs, cwd, id, JoinPath(outputDir, config["output_filename"]), format, false, mkdir(k))
        case Ok(result) => Ok(result)
        case Raised(e) =>
          if IsSubclass(e.kind, Exception) then
            Ok(DownloadResult(false, None, id,
                              Some("Unexpected error downloading " + id + ": " + KindName(e.kind) + ": " + e.message), None))
          else Raised(e)
  }

  /** `DownloadItem` for fixed arguments, as the per-index function of a batch. */
  function DownloadStep(fs: FileSystem, cwd: string, outputDir: string, format: string, mkdir: nat -> Option<Exc>)
    : (nat, DownloadSpec) -> Outcome<DownloadResult>
  {
    (k: nat, config: DownloadSpec) => DownloadItem(fs, cwd, outputDir, format, mkdir, k, config)
  }

  /** The checks `download_batch` makes before its loop, with the batch directory's `mkdir`. */
  function BatchPrecheck(configs: seq<DownloadSpec>, outputDir: string, mkdirBatch: Option<Exc>): (r: Option<Exc>)
    ensures configs == [] ==> r == Some(Error(ValueError, "animation_configs cannot be empty"))
    ensures configs != [] && AllSpace(outputDir) ==> r == Some(Error(ValueError, "output_dir cannot be empty"))
    ensures configs != [] && !AllSpace(outputDir) ==> r == if mkdirBatch.Some? then Some(MkdirFailure(Render(outputDir), mkdirBatch.value)) else None
  {
    if configs == [] then Some(Error(ValueError, "animation_configs cannot be empty"))
    else if Strip(outputDir) == "" then Some(Error(ValueError, "output_dir cannot be empty"))
    else if mkdirBatch.Some? then Some(MkdirFailure(Render(outputDir), mkdirBatch.value))
    else None
  }

  /**
   * `download_batch`; `mkdirBatch` is what creating `output_dir` raises and
   * `mkdir(k)` what creating the parent of item `k` raises.
   */
  method DownloadBatch(fs: FileSystem, cwd: string, configs: seq<DownloadSpec>, outputDir: string, format: string,
                       mkdirBatch: Option<Exc>, mkdir: nat -> Option<Exc>) returns (r: Outcome<seq<DownloadResult>>)
    ensures BatchPrecheck(configs, outputDir, mkdirBatch).Some? ==> r == Raised(BatchPrecheck(configs, outputDir, mkdirBatch).value)
    ensures BatchPrecheck(configs, outputDir, mkdirBatch).None? ==> r == Collect(configs, DownloadStep(fs, cwd, outputDir, format, mkdir))
  {
    var failure := BatchPrecheck(configs, outputDir, mkdirBatch);
    if failure.Some? {
      return Raised(failure.value);
    }
    var f := DownloadStep(fs, cwd, outputDir, format, mkdir);
    var results: seq<DownloadResult> := [];
    var i := 0;
    while i < |configs|
      invariant 0 <= i <= |configs|
      invariant CollectFrom(configs, f, i, results) == Collect(configs, f)
    {
      var result := DownloadItem(fs, cwd, outputDir, format, mkdir, i, configs[i]);
      assert result == f(i, configs[i]);
      if result.Raised? {
        return Raised(result.exc);
      }
      results := results + [result.value];
      i := i + 1;
    }
    r := Ok(results);
  }

  /** When every `mkdir` raises at most an `Exception`, there is one result per configuration, in order. */
  lemma DownloadBatchResults(fs: FileSystem, cwd: string, configs: seq<DownloadSpec>, outputDir: string, format: string,
                             mkdir: nat -> Option<Exc>)
    requires forall k: nat :: mkdir(k).Some? ==> IsSubclass(mkdir(k).value.kind, Exception)
    ensures var r := Collect(configs, DownloadStep(fs, cwd, outputDir, format, mkdir));
      r.Ok? && |r.value| == |configs|
      && forall k :: 0 <= k < |configs| ==> r.value[k] == DownloadItem(fs, cwd, outputDir, format, mkdir, k, configs[k]).value
  {
    var f := DownloadStep(fs, cwd, outputDir, format, mkdir);
    forall k | 0 <= k < |configs|
      ensures f(k, configs[k]).Ok?
    {
      var r := DownloadItem(fs, cwd, outputDir, format, mkdir, k, configs[k]);
      assert f(k, configs[k]) == r;
    }
    CollectAll(configs, f);
  }
}
