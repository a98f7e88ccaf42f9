/**
 * The transcode task: mark the version PROCESSING, derive the proxy path, run
 * ffmpeg on a fixed argument list and record COMPLETED and the proxy path on
 * success, or the failure status on any error. The database `save()` and the
 * subprocess are recorded as effects, in order; the subprocess's result is a
 * function of the command it is given.
 */
module Tasks {
  import opened Wrappers
  import opened Text
  import opened Models

  /** How the ffmpeg subprocess ended: an exit code and its stderr, or an error raised while launching it. */
  datatype RunResult = Exited(returnCode: int, stderr: string) | LaunchFailed(message: string)

  /** What the task does outside the version object, in order. */
  datatype Effect = Saved(record: VersionRecord) | Ran(command: seq<string>)

  /** How a task run ends: with a returned message, or with an exception escaping it. */
  datatype TaskOutcome = Returned(message: string) | Raised(exceptionType: string)

  /** The stem of a base name holds no separator. */
  lemma StemHasNoSeparator(inputPath: string)
    ensures '/' !in SplitExt(Basename(inputPath)).0
  {
    var base := Basename(inputPath);
    var (stem, ext) := SplitExt(base);
    assert stem + ext == base;
    forall j | 0 <= j < |stem|
      ensures stem[j] != '/'
    {
      assert stem[j] == base[j];
    }
  }

  /** The proxy file name: the input's base name without its extension, then `_proxy.mp4`. */
  function ProxyFilename(inputPath: string): (name: string)
    ensures '/' !in name && |name| > 0
  {
    var stem := SplitExt(Basename(inputPath)).0;
    StemHasNoSeparator(inputPath);
    stem + "_proxy.mp4"
  }

  /** `os.path.join(MEDIA_ROOT, 'proxies', <proxy file name>)`. */
  function ProxyOutputPath(mediaRoot: string, inputPath: string): (p: string)
    ensures |p| >= |ProxyFilename(inputPath)| && p[|p| - |ProxyFilename(inputPath)|..] == ProxyFilename(inputPath)
  {
    PosixJoin(mediaRoot, ["proxies", ProxyFilename(inputPath)])
  }

  /** The proxy lands in the `proxies` directory directly under the media root. */
  lemma ProxyOutputLocation(mediaRoot: string, inputPath: string)
    ensures ProxyOutputPath(mediaRoot, inputPath) == DirPrefix(mediaRoot) + "proxies" + "/" + ProxyFilename(inputPath)
  {
    JoinUnderRoot(mediaRoot, "proxies", ProxyFilename(inputPath));
  }

  /** `<stem>_proxy.mp4` splits at its last dot into `<stem>_proxy` and `.mp4`. */
  lemma ProxyNameSplits(stem: string)
    requires '/' !in stem
    ensures SplitExt(stem + "_proxy.mp4") == (stem + "_proxy", ".mp4")
  {
    var name := stem + "_proxy.mp4";
    var dot := |stem| + 6;
    assert forall j :: 0 <= j < |stem| ==> name[j] == stem[j];
    assert '/' !in name;
    var sep := LastIndex(name, '/');
    assert sep == -1;
    var last := LastIndex(name, '.');
    assert name[dot] == '.' && name[dot + 1] == 'm' && name[dot + 2] == 'p' && name[dot + 3] == '4';
    assert last == dot;
    assert name[|stem|] == '_';
    assert HasNonDot(name, 0, dot);
    assert name[..dot] == stem + "_proxy";
    assert name[dot..] == ".mp4";
  }

  /**
   * The proxy path names the input's stem: its base name is `<stem>_proxy.mp4`, and
   * the stem followed by the input's extension is the input's base name.
   */
  lemma ProxyNameRoundTrip(mediaRoot: string, inputPath: string)
    ensures var (stem, ext) := SplitExt(Basename(inputPath));
      && stem + ext == Basename(inputPath)
      && '/' !in stem
      && Basename(ProxyOutputPath(mediaRoot, inputPath)) == stem + "_proxy.mp4"
      && SplitExt(stem + "_proxy.mp4") == (stem + "_proxy", ".mp4")
  {
    var (stem, ext) := SplitExt(Basename(inputPath));
    StemHasNoSeparator(inputPath);
    assert ProxyFilename(inputPath) == stem + "_proxy.mp4";
    ProxyOutputLocation(mediaRoot, inputPath);
    BasenameAfterSlash(DirPrefix(mediaRoot) + "proxies", stem + "_proxy.mp4");
    ProxyNameSplits(stem);
  }

  /** The ffmpeg command: scale to 720 lines, H.264 at CRF 23, AAC at 128k, overwrite the output. */
  function FfmpegCommand(inputPath: string, outputPath: string): (cmd: seq<string>)
    ensures |cmd| == 17
    ensures cmd[..4] == ["ffmpeg", "-y", "-i", inputPath]
    ensures cmd[4] == "-vf" && cmd[5] == "scale=-2:720"
    ensures cmd[|cmd| - 1] == outputPath
  {
    ["ffmpeg", "-y", "-i", inputPath, "-vf", "scale=-2:720", "-c:v", "libx264",
     "-preset", "fast", "-crf", "23", "-c:a", "aac", "-b:a", "128k", outputPath]
  }

  /** The command the task runs for an input file. */
  function TranscodeCommand(mediaRoot: string, inputPath: string): seq<string> {
    FfmpegCommand(inputPath, ProxyOutputPath(mediaRoot, inputPath))
  }

  /** The message of the exception a run raises, or `None` for a clean exit. */
  function FailureReason(run: RunResult): (reason: Option<string>)
    ensures reason.None? <==> run.Exited? && run.returnCode == 0
  {
    match run
    case Exited(code, stderr) => if code != 0 then Some("FFmpeg Error: " + stderr) else None
    case LaunchFailed(message) => Some(message)
  }

  /** `Version <number> processed successfully.` */
  function SuccessMessage(versionNumber: nat): (s: string)
    ensures |s| > 32 && s[..8] == "Version "
    ensures s[|s| - 24..] == " processed successfully."
    ensures AllDigits(s[8..|s| - 24]) && DecimalValue(s[8..|s| - 24]) == versionNumber
  {
    DecimalRoundTrip(versionNumber);
    var s := "Version " + Decimal(versionNumber) + " processed successfully.";
    assert s[8..|s| - 24] == Decimal(versionNumber);
    s
  }

  /** `Error processing version <id>: <reason>` */
  function ErrorMessage(versionId: nat, reason: string): (s: string)
    ensures |s| > 25 + |reason| && s[..25] == "Error processing version "
    ensures s[|s| - |reason|..] == reason
  {
    "Error processing version " + (Decimal(versionId) + (": " + reason))
  }

  /** A success message is never an error message, and an error message names its version and its reason. */
  lemma MessagesAreDistinguishable(n: nat, id1: nat, r1: string, id2: nat, r2: string)
    ensures SuccessMessage(n) != ErrorMessage(id1, r1)
    ensures ErrorMessage(id1, r1) == ErrorMessage(id2, r2) ==> id1 == id2 && r1 == r2
  {
    assert SuccessMessage(n)[..8][0] == 'V';
    assert ErrorMessage(id1, r1)[..25][0] == 'E';
    if ErrorMessage(id1, r1) == ErrorMessage(id2, r2) {
      ErrorMessageInjective(id1, r1, id2, r2);
    }
  }

  lemma ErrorMessageInjective(id1: nat, r1: string, id2: nat, r2: string)
    requires ErrorMessage(id1, r1) == ErrorMessage(id2, r2)
    ensures id1 == id2 && r1 == r2
  {
    var p := "Error processing version ";
    var d1, d2 := Decimal(id1), Decimal(id2);
    var t1, t2 := ": " + r1, ": " + r2;
    assert d1 + t1 == d2 + t2 by {
      assert (p + (d1 + t1))[|p|..] == d1 + t1;
      assert (p + (d2 + t2))[|p|..] == d2 + t2;
    }
    DigitsPrefixEqual(d1, d2, t1, t2);
    DecimalInjective(id1, id2);
    assert t1 == (d1 + t1)[|d1|..] == (d2 + t2)[|d2|..] == t2;
    assert t1[2..] == r1 && t2[2..] == r2;
  }

  /**
   * The status transitions of the task once the version is loaded and the command is
   * built: PROCESSING is saved, the command runs, and COMPLETED with the proxy path,
   * or FAILED, is saved according to how it ended.
   */
  method Transcode(versionId: nat, version: Version, outputPath: string, command: seq<string>,
                   ffmpeg: seq<string> -> RunResult)
    returns (message: string, effects: seq<Effect>)
    modifies version
    ensures version.versionNumber == old(version.versionNumber)
    ensures version.approvalStatus == old(version.approvalStatus)
    ensures version.originalFilePath == old(version.originalFilePath)
    ensures FailureReason(ffmpeg(command)).None? ==>
      && version.transcodingStatus == Completed
      && version.proxyFilePath == outputPath
      && message == SuccessMessage(version.versionNumber)
    ensures FailureReason(ffmpeg(command)).Some? ==>
      && version.transcodingStatus == Failed
      && version.proxyFilePath == old(version.proxyFilePath)
      && message == ErrorMessage(versionId, FailureReason(ffmpeg(command)).value)
    ensures effects == [Saved(old(version.Record()).(transcodingStatus := Processing)), Ran(command),
                        Saved(version.Record())]
  {
    version.transcodingStatus := Processing;
    var processing := version.Record();
    effects := [Saved(processing)];
    var result := ffmpeg(command);
    effects := effects + [Ran(command)];
    assert effects == [Saved(processing), Ran(command)];
    var raised := FailureReason(result);
    if raised.None? {
      version.proxyFilePath := outputPath;
      version.transcodingStatus := Completed;
      message := SuccessMessage(version.versionNumber);
    } else {
      version.transcodingStatus := Failed;
      message := ErrorMessage(versionId, raised.value);
    }
    effects := effects + [Saved(version.Record())];
  }

  /**
   * `process_video_task` with the failure branch writing FAILED. `version` is the
   * result of the lookup by id (`null` when it raised, with `lookupError` its
   * message); `ffmpeg` gives the subprocess's result for a command.
   */
  method ProcessVideoTask(versionId: nat, version: Version?, lookupError: string, mediaRoot: string,
                          ffmpeg: seq<string> -> RunResult)
    returns (message: string, effects: seq<Effect>)
    modifies version
    ensures version == null ==> message == ErrorMessage(versionId, lookupError) && effects == []
    ensures version != null ==>
      && version.versionNumber == old(version.versionNumber)
      && version.approvalStatus == old(version.approvalStatus)
      && version.originalFilePath == old(version.originalFilePath)
      && version.transcodingStatus.Terminal()
    ensures version != null && FailureReason(ffmpeg(TranscodeCommand(mediaRoot, old(version.originalFilePath)))).None? ==>
      && version.transcodingStatus == Completed
      && version.proxyFilePath == ProxyOutputPath(mediaRoot, old(version.originalFilePath))
      && message == SuccessMessage(version.versionNumber)
    ensures version != null && FailureReason(ffmpeg(TranscodeCommand(mediaRoot, old(version.originalFilePath)))).Some? ==>
      && version.transcodingStatus == Failed
      && version.proxyFilePath == old(version.proxyFilePath)
      && message == ErrorMessage(versionId, FailureReason(ffmpeg(TranscodeCommand(mediaRoot, old(version.originalFilePath)))).value)
    ensures version != null ==>
      effects == [Saved(old(version.Record()).(transcodingStatus := Processing)),
                  Ran(TranscodeCommand(mediaRoot, old(version.originalFilePath))),
                  Saved(version.Record())]
  {
    if version == null {
      return ErrorMessage(versionId, lookupError), [];
    }
    var inputPath := version.originalFilePath;
    var outputPath := ProxyOutputPath(mediaRoot, inputPath);
    var command := TranscodeCommand(mediaRoot, inputPath);
    message, effects := Transcode(versionId, version, outputPath, command, ffmpeg);
  }

  /**
   * The transitions as written: on failure the handler looks up the member `ERROR`,
   * which the transcoding enumeration does not define, so the handler itself raises
   * AttributeError before saving anything.
   */
  method TranscodeAsWritten(versionId: nat, version: Version, outputPath: string, command: seq<string>,
                            ffmpeg: seq<string> -> RunResult)
    returns (outcome: TaskOutcome, effects: seq<Effect>)
    modifies version
    ensures version.versionNumber == old(version.versionNumber)
    ensures version.approvalStatus == old(version.approvalStatus)
    ensures version.originalFilePath == old(version.originalFilePath)
    ensures FailureReason(ffmpeg(command)).None? ==>
      && version.transcodingStatus == Completed
      && version.proxyFilePath == outputPath
      && outcome == Returned(SuccessMessage(version.versionNumber))
      && effects == [Saved(old(version.Record()).(transcodingStatus := Processing)), Ran(command),
                     Saved(version.Record())]
    ensures FailureReason(ffmpeg(command)).Some? ==>
      && version.transcodingStatus == Processing
      && version.proxyFilePath == old(version.proxyFilePath)
      && outcome == Raised("AttributeError")
      && effects == [Saved(old(version.Record()).(transcodingStatus := Processing)), Ran(command)]
  {
    version.transcodingStatus := Processing;
    var processing := version.Record();
    effects := [Saved(processing)];
    var result := ffmpeg(command);
    effects := effects + [Ran(command)];
    assert effects == [Saved(processing), Ran(command)];
    var raised := FailureReason(result);
    if raised.None? {
      version.proxyFilePath := outputPath;
      version.transcodingStatus := Completed;
      effects := effects + [Saved(version.Record())];
      outcome := Returned(SuccessMessage(version.versionNumber));
    } else {
      match TranscodingMember("ERROR")
      case None =>
        outcome := Raised("AttributeError");
      case Some(_) =>
        assert false;
    }
  }

  /**
   * `process_video_task` as written. The version is left PROCESSING in memory and in
   * the database when ffmpeg fails, and the task ends in an exception instead of
   * returning its error message.
   */
  method ProcessVideoTaskAsWritten(versionId: nat, version: Version?, lookupError: string, mediaRoot: string,
                                   ffmpeg: seq<string> -> RunResult)
    returns (outcome: TaskOutcome, effects: seq<Effect>)
    modifies version
    ensures version == null ==> outcome == Returned(ErrorMessage(versionId, lookupError)) && effects == []
    ensures version != null ==>
      && version.versionNumber == old(version.versionNumber)
      && version.approvalStatus == old(version.approvalStatus)
      && version.originalFilePath == old(version.originalFilePath)
    ensures version != null && FailureReason(ffmpeg(TranscodeCommand(mediaRoot, old(version.originalFilePath)))).None? ==>
      && version.transcodingStatus == Completed
      && version.proxyFilePath == ProxyOutputPath(mediaRoot, old(version.originalFilePath))
      && outcome == Returned(SuccessMessage(version.versionNumber))
      && effects == [Saved(old(version.Record()).(transcodingStatus := Processing)),
                     Ran(TranscodeCommand(mediaRoot, old(version.originalFilePath))),
                     Saved(version.Record())]
    ensures version != null && FailureReason(ffmpeg(TranscodeCommand(mediaRoot, old(version.originalFilePath)))).Some? ==>
      && version.transcodingStatus == Processing
      && version.proxyFilePath == old(version.proxyFilePath)
      && outcome == Raised("AttributeError")
      && effects == [Saved(old(version.Record()).(transcodingStatus := Processing)),
                     Ran(TranscodeCommand(mediaRoot, old(version.originalFilePath)))]
  {
    if version == null {
      return Returned(ErrorMessage(versionId, lookupError)), [];
    }
    var inputPath := version.originalFilePath;
    var outputPath := ProxyOutputPath(mediaRoot, inputPath);
    var command := TranscodeCommand(mediaRoot, inputPath);
    outcome, effects := TranscodeAsWritten(versionId, version, outputPath, command, ffmpeg);
  }

  /**
   * On a non-zero exit the task as written leaves the version PROCESSING, which is not
   * a terminal state; with FAILED written instead it ends in a terminal state.
   */
  lemma NonZeroExitLeavesVersionProcessing()
    ensures FailureReason(Exited(1, "")) == Some("FFmpeg Error: ")
    ensures TranscodingMember("ERROR") == None
    ensures !Processing.Terminal() && Failed.Terminal()
  {
    assert "FFmpeg Error: " + "" == "FFmpeg Error: ";
    ErrorIsNotATranscodingStatus();
  }
}
