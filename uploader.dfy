/**
 * Google Cloud Storage upload pre-validation (src/uploader/uploader.py):
 * bucket-name checks, the ordered checks `upload_file` makes on the local
 * file before it talks to the SDK, the `gs://` URI it builds, and the
 * order-preserving batch loop.
 *
 * The local file system is a `Paths.FileSystem`; what the SDK does with a
 * validated upload is a parameter: `None` when every SDK call returns, or the
 * exception one of them raises. Whether `google.cloud.storage` can be
 * imported is a parameter too.
 */
module Uploader {
  import opened Optional
  import opened PyValue
  import opened Strings
  import opened Paths
  import opened Batch

  const SupportedExtensions: seq<string> := [".bvh", ".fbx", ".dae", ".json"]
  const MinFileSizeBytes: nat := 10
  const MaxFileSizeMB: nat := 500
  const ValidFolders: seq<string> := ["seed", "build", "blend", "output"]

  /** `UploadConfig`; the SDK-only settings are carried but only the SDK reads them. */
  datatype UploadConfig = UploadConfig(
    bucketName: string,
    destinationFolder: string,
    metadata: map<string, string>,
    contentType: Option<string>,
    makePublic: bool,
    timeoutSeconds: int)

  /** `UploadConfig(bucket_name)` with the dataclass defaults. */
  function DefaultUploadConfig(bucket: string): UploadConfig {
    UploadConfig(bucket, "seed/", map[], None, false, 300)
  }

  /** `UploadResult` without `duration_seconds`. */
  datatype UploadResult = UploadResult(
    success: bool,
    gcsUri: Option<string>,
    localPath: string,
    uploadConfig: UploadConfig,
    fileSizeBytes: nat,
    errorMessage: Option<string>)

  /** A dot followed by a dot or an underscore at index `i`. */
  predicate BadPairAt(b: string, i: int) {
    0 <= i < |b| - 1 && b[i] == '.' && (b[i + 1] == '.' || b[i + 1] == '_')
  }

  /** `[a, c] in b` for a two-character string: `a` followed by `c` at some index. */
  lemma TwoCharContains(b: string, a: char, c: char)
    ensures Contains(b, [a, c]) <==> exists i :: 0 <= i < |b| - 1 && b[i] == a && b[i + 1] == c
  {
    var t := [a, c];
    if Contains(b, t) {
      var i :| 0 <= i <= |b| - |t| && OccursAt(b, t, i);
      assert b[i..i + 2][0] == b[i] && b[i..i + 2][1] == b[i + 1];
    }
    if exists i :: 0 <= i < |b| - 1 && b[i] == a && b[i + 1] == c {
      var i :| 0 <= i < |b| - 1 && b[i] == a && b[i + 1] == c;
      assert b[i..i + 2] == t;
      assert OccursAt(b, t, i);
    }
  }

  /** `".." in b or "._" in b` holds exactly when some index starts a bad pair. */
  lemma BadPairsContained(b: string)
    ensures (Contains(b, "..") || Contains(b, "._")) <==> exists i :: BadPairAt(b, i)
  {
    TwoCharContains(b, '.', '.');
    TwoCharContains(b, '.', '_');
    assert ".." == ['.', '.'] && "._" == ['.', '_'];
    if Contains(b, "..") || Contains(b, "._") {
      var i :| 0 <= i < |b| - 1 && b[i] == '.' && (b[i + 1] == '.' || b[i + 1] == '_');
      assert BadPairAt(b, i);
    }
  }

  /**
   * `validate_gcs_path`. The destination folder is only compared with
   * `VALID_FOLDERS` for a warning, so it never changes the answer.
   */
  function ValidateGcsPath(bucketName: string, destinationFolder: string): (r: bool)
    ensures r <==>
      && bucketName != []
      && |bucketName| <= 63
      && !StartsWith(bucketName, "goog") && !StartsWith(bucketName, "g00g")
      && forall i :: 0 <= i < |bucketName| ==> !BadPairAt(bucketName, i)
  {
    BadPairsContained(bucketName);
    if bucketName == [] then false
    else if |bucketName| > 63 then false
    else if StartsWith(bucketName, "goog") || StartsWith(bucketName, "g00g") then false
    else if Contains(bucketName, "..") || Contains(bucketName, "._") then false
    else true
  }

  /** The destination folder never affects the result. */
  lemma FolderNeverMatters(bucketName: string, f1: string, f2: string)
    ensures ValidateGcsPath(bucketName, f1) == ValidateGcsPath(bucketName, f2)
  {
  }

  /** A 63-character name passes the length check; one more character fails it. */
  lemma LengthBoundary(b: string, c: char)
    requires |b| == 63
    requires forall i :: 0 <= i < |b| ==> b[i] == 'a'
    ensures ValidateGcsPath(b, "seed/")
    ensures !ValidateGcsPath(b + [c], "seed/")
  {
    assert b[..4] != "goog" by { assert b[..4][0] == 'a'; }
    assert b[..4] != "g00g" by { assert b[..4][0] == 'a'; }
  }

  /** Names from the documented examples. */
  lemma GcsPathExamples()
    ensures ValidateGcsPath("my-bucket", "seed/")
    ensures ValidateGcsPath("my-bucket", "custom/")
    ensures !ValidateGcsPath("", "seed/")
    ensures !ValidateGcsPath("google-bucket", "seed/")
    ensures !ValidateGcsPath("bucket..name", "seed/")
    ensures !ValidateGcsPath("bucket._name", "seed/")
  {
    var b := "my-bucket";
    assert !BadPairAt(b, 0) && !BadPairAt(b, 1) && !BadPairAt(b, 2) && !BadPairAt(b, 3);
    assert !BadPairAt(b, 4) && !BadPairAt(b, 5) && !BadPairAt(b, 6) && !BadPairAt(b, 7);
    assert "google-bucket"[..4] == "goog";
    assert BadPairAt("bucket..name", 6);
    assert BadPairAt("bucket._name", 6);
  }

  /** `Path(local_path).suffix.lower() in SUPPORTED_EXTENSIONS`: decides only a warning. */
  predicate UsualExtension(localPath: string) {
    Lower(Suffix(localPath)) in SupportedExtensions
  }

  /** `f"{destination_folder.rstrip('/')}/{name}"`. */
  function DestinationBlob(config: UploadConfig, localPath: string): string {
    RStripChar(config.destinationFolder, '/') + "/" + Name(localPath)
  }

  function Failure(localPath: string, config: UploadConfig, size: nat, message: string): UploadResult {
    UploadResult(false, None, localPath, config, size, Some(message))
  }

  /**
   * `upload_file`: the checks on the local file in order, the bucket check,
   * then the SDK upload. `storageInstalled` is whether the import at the start
   * of the upload succeeds; `sdk` is the exception the SDK calls raise, if any.
   */
  function UploadFile(fs: FileSystem, localPath: string, config: UploadConfig, storageInstalled: bool,
                      sdk: Option<Exc>): (r: Outcome<UploadResult>)
    ensures r.Ok? ==> r.value.localPath == localPath && r.value.uploadConfig == config
    ensures r.Ok? ==> (r.value.success <==> r.value.gcsUri.Some?) && (r.value.success <==> r.value.errorMessage.None?)
  {
    if !Exists(fs, localPath) then Ok(Failure(localPath, config, 0, "File not found: " + localPath))
    else if !IsFile(fs, localPath) then Ok(Failure(localPath, config, 0, "Path is not a file: " + localPath))
    else
      var size := Size(fs, localPath);
      if size < MinFileSizeBytes then
        Ok(Failure(localPath, config, size, "File too small: " + NatToString(size) + " < 10 bytes"))
      else if size > MaxFileSizeMB * 1024 * 1024 then
        Ok(Failure(localPath, config, size,
                   "File too large: " + NatToString(size) + " > 524288000 bytes (500MB)"))
      else if !ValidateGcsPath(config.bucketName, config.destinationFolder) then
        Ok(Failure(localPath, config, size, "Invalid GCS path configuration"))
      else
        var uri := "gs://" + config.bucketName + "/" + DestinationBlob(config, localPath);
        if !storageInstalled then Raised(Error(ImportError, "No module named 'google.cloud.storage'"))
        else
          match sdk
          case None => Ok(UploadResult(true, Some(uri), localPath, config, size, None))
          case Some(e) =>
            if IsSubclass(e.kind, Exception) then Ok(Failure(localPath, config, size, "GCS upload failed: " + e.message))
            else Raised(e)
  }

  /** The file is found, is a regular file, has an accepted size and goes to a valid bucket. */
  predicate Uploadable(fs: FileSystem, localPath: string, config: UploadConfig) {
    IsFile(fs, localPath) && MinFileSizeBytes <= Size(fs, localPath) <= MaxFileSizeMB * 1024 * 1024
    && ValidateGcsPath(config.bucketName, config.destinationFolder)
  }

  /**
   * The checks fail in order (missing, not a file, too small, too large,
   * invalid bucket) with no URI; the file size is reported from the third
   * check on. A file that passes every check reaches the SDK.
   */
  lemma UploadCheckOrder(fs: FileSystem, localPath: string, config: UploadConfig, installed: bool, sdk: Option<Exc>)
    ensures var r := UploadFile(fs, localPath, config, installed, sdk);
      && (!Exists(fs, localPath) ==> r == Ok(Failure(localPath, config, 0, "File not found: " + localPath)))
      && (Exists(fs, localPath) && !IsFile(fs, localPath) ==>
            r == Ok(Failure(localPath, config, 0, "Path is not a file: " + localPath)))
      && (IsFile(fs, localPath) && Size(fs, localPath) < MinFileSizeBytes ==>
            r.Ok? && !r.value.success && r.value.fileSizeBytes == Size(fs, localPath)
            && StartsWith(r.value.errorMessage.value, "File too small: "))
      && (IsFile(fs, localPath) && Size(fs, localPath) > MaxFileSizeMB * 1024 * 1024 ==>
            r.Ok? && !r.value.success && r.value.fileSizeBytes == Size(fs, localPath)
            && StartsWith(r.value.errorMessage.value, "File too large: "))
      && (IsFile(fs, localPath) && MinFileSizeBytes <= Size(fs, localPath) <= MaxFileSizeMB * 1024 * 1024
          && !ValidateGcsPath(config.bucketName, config.destinationFolder) ==>
            r == Ok(Failure(localPath, config, Size(fs, localPath), "Invalid GCS path configuration")))
      && (r.Ok? && r.value.success ==> Uploadable(fs, localPath, config))
  {
    var size := if IsFile(fs, localPath) then Size(fs, localPath) else 0;
    var small := "File too small: " + NatToString(size) + " < 10 bytes";
    var large := "File too large: " + NatToString(size) + " > 524288000 bytes (500MB)";
    assert small[..|"File too small: "|] == "File too small: ";
    assert large[..|"File too large: "|] == "File too large: ";
  }

  /** An uploadable file whose SDK calls return is uploaded to `gs://bucket/folder/name`, trailing slashes of the folder removed. */
  lemma UploadUri(fs: FileSystem, localPath: string, config: UploadConfig)
    requires Uploadable(fs, localPath, config)
    ensures var r := UploadFile(fs, localPath, config, true, None);
      && r.Ok? && r.value.success && r.value.fileSizeBytes == Size(fs, localPath)
      && r.value.gcsUri == Some("gs://" + config.bucketName + "/" + RStripChar(config.destinationFolder, '/')
                                + "/" + Name(localPath))
  {
    var head := "gs://" + config.bucketName + "/";
    var folder := RStripChar(config.destinationFolder, '/');
    assert head + DestinationBlob(config, localPath) == head + folder + "/" + Name(localPath);
  }

  /** Two paths that name the same file-system entry, or that both name nothing. */
  predicate SameEntry(fs: FileSystem, p1: string, p2: string) {
    (Render(p1) in fs <==> Render(p2) in fs)
    && (Render(p1) in fs ==> fs[Render(p1)] == fs[Render(p2)])
  }

  /**
   * The extension check only warns: two paths to the same entry, with any
   * two suffixes (`.bvh` and `.txt`, say), get the same verdict and size. Once
   * the file is found to be a regular file, they also get the same error.
   */
  lemma ExtensionOnlyWarns(fs: FileSystem, p1: string, p2: string, config: UploadConfig, installed: bool,
                           sdk: Option<Exc>)
    requires SameEntry(fs, p1, p2)
    ensures var r1 := UploadFile(fs, p1, config, installed, sdk);
      var r2 := UploadFile(fs, p2, config, installed, sdk);
      && r1.Ok? == r2.Ok?
      && (r1.Ok? ==> r1.value.success == r2.value.success && r1.value.fileSizeBytes == r2.value.fileSizeBytes)
      && (r1.Ok? && IsFile(fs, p1) ==> r1.value.errorMessage == r2.value.errorMessage)
      && (r1.Raised? ==> r1 == r2)
  {
  }

  /** An SDK error derived from `Exception` becomes a failed result; anything else propagates. */
  lemma SdkErrorsCaught(fs: FileSystem, localPath: string, config: UploadConfig, e: Exc)
    requires Uploadable(fs, localPath, config)
    ensures IsSubclass(e.kind, Exception) ==>
      UploadFile(fs, localPath, config, true, Some(e))
        == Ok(Failure(localPath, config, Size(fs, localPath), "GCS upload failed: " + e.message))
    ensures !IsSubclass(e.kind, Exception) ==> UploadFile(fs, localPath, config, true, Some(e)) == Raised(e)
  {
  }

  /** The upload of the `k`-th path of a batch; `sdk(k)` is what the SDK does for it. */
  function UploadItem(fs: FileSystem, config: UploadConfig, storageInstalled: bool, sdk: nat -> Option<Exc>)
    : (nat, string) -> Outcome<UploadResult>
  {
    (k: nat, p: string) => UploadFile(fs, p, config, storageInstalled, sdk(k))
  }

  /** `upload_batch`. */
  method UploadBatch(fs: FileSystem, paths: seq<string>, config: UploadConfig, storageInstalled: bool,
                     sdk: nat -> Option<Exc>) returns (r: Outcome<seq<UploadResult>>)
    ensures r == Collect(paths, UploadItem(fs, config, storageInstalled, sdk))
  {
    var f := UploadItem(fs, config, storageInstalled, sdk);
    var results: seq<UploadResult> := [];
    if paths == [] {
      return Ok(results);
    }
    var i := 0;
    while i < |paths|
      invariant i <= |paths|
      invariant CollectFrom(paths, f, i, results) == Collect(paths, f)
    {
      var result := UploadFile(fs, paths[i], config, storageInstalled, sdk(i));
      assert result == f(i, paths[i]);
      if result.Raised? {
        return Raised(result.exc);
      }
      results := results + [result.value];
      i := i + 1;
    }
    return Ok(results);
  }

  /**
   * Unless an upload raises, the batch returns one result per path, in
   * input order, each the result of uploading that path alone and carrying
   * that path and the shared configuration.
   */
  lemma UploadBatchResults(fs: FileSystem, paths: seq<string>, config: UploadConfig, installed: bool,
                           sdk: nat -> Option<Exc>)
    requires forall k :: 0 <= k < |paths| ==> UploadFile(fs, paths[k], config, installed, sdk(k)).Ok?
    ensures var r := Collect(paths, UploadItem(fs, config, installed, sdk));
      && r.Ok? && |r.value| == |paths|
      && forall k :: 0 <= k < |paths| ==>
        r.value[k] == UploadFile(fs, paths[k], config, installed, sdk(k)).value
        && r.value[k].localPath == paths[k] && r.value[k].uploadConfig == config
  {
    var f := UploadItem(fs, config, installed, sdk);
    assert forall k :: 0 <= k < |paths| ==> f(k, paths[k]) == UploadFile(fs, paths[k], config, installed, sdk(k));
    CollectAll(paths, f);
  }

  /** An empty batch gives no results. */
  lemma EmptyBatch(fs: FileSystem, config: UploadConfig, installed: bool, sdk: nat -> Option<Exc>)
    ensures Collect([], UploadItem(fs, config, installed, sdk)) == Ok([])
  {
  }

  /** Without the storage library the first uploadable file raises `ImportError` out of the batch. */
  lemma BatchWithoutStorage(fs: FileSystem, paths: seq<string>, config: UploadConfig,
                            sdk: nat -> Option<Exc>, j: nat)
    requires j < |paths| && Uploadable(fs, paths[j], config)
    requires forall k :: 0 <= k < j ==> !Uploadable(fs, paths[k], config)
    ensures var r := Collect(paths, UploadItem(fs, config, false, sdk));
      r.Raised? && r.exc.kind == ImportError
  {
    var f := UploadItem(fs, config, false, sdk);
    assert forall k :: 0 <= k < j ==> f(k, paths[k]) == UploadFile(fs, paths[k], config, false, sdk(k));
    assert f(j, paths[j]) == UploadFile(fs, paths[j], config, false, sdk(j));
    CollectFromFirstRaise(paths, f, 0, [], j);
  }
}
