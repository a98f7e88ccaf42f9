# AXIOM media pipeline — a Dafny model of its core

This project models the core of the AXIOM media pipeline, a Django application that
ingests video versions of creative assets and transcodes them. The model has four parts:

- **The pipeline stability index** (`PipelineStabilityIndex`). For each monitored
  component (database, storage, ffmpeg, integrity) it keeps a sliding window of the
  last 50 outcomes in a cache. From the windows it computes a health ratio and label per
  component, a weighted drift, the PSI score (a fixed baseline plus the drift), a
  global label and a stability flag.
- **The file helpers.** These cover the storage path of an uploaded version
  (`assets/<project>/<asset>/v<NNN>/<file>`), the streaming SHA-256 over 4096-byte
  blocks, and the technical metadata taken from the last video track.
- **The transcode task** (`process_video_task`). It loads a version, marks it
  PROCESSING, derives `MEDIA_ROOT/proxies/<stem>_proxy.mp4`, runs ffmpeg with a fixed
  argument list, and records COMPLETED with the proxy path or the failure state.
- **The `Version` record.** This covers its two status enumerations (stored values and
  display labels), its field defaults and its `__str__`.

Modules, one file each:

- `wrappers.dfy`: `Option`.
- `text.dfy`: the Python string and path behaviour the core relies on:
  - `str(n)` and `f"{n:03d}"`;
  - `str.replace` of one character;
  - `posixpath.join`, `basename` and `splitext`.
- `models.dfy`: `pipeline/models.py`.
- `stability.dfy`: `pipeline/divergence_engine.py`.
- `utils.dfy`: `pipeline/utils.py`.
- `tasks.dfy`: `pipeline/tasks.py`.

Things that change in place are modelled as Dafny classes:

- The stability index is the class `StabilityIndex`. Its field `cache` stands for
  Django's cache.
- A version is the class `Version`. The task updates its fields in place.

The rest of the model works on values:

- Health and drift are exact rationals (`real`).
- The hash function, the float parser and the ffmpeg subprocess are function
  parameters.
- The task's calls to `save()` and its subprocess run are returned as an ordered trace
  of `Effect` values.

What the code does, and the model with it:

- The transcoding enumeration has PENDING, PROCESSING, COMPLETED and FAILED, and no
  ERROR member.
- The approval enumeration has no DEPRECATED member.
- The transcode task does not report its outcome to the stability index.
- The task runs one ffmpeg invocation, with no thumbnail and no overlay text.

## Model

| member | source | states |
|---|---|---|
| Stability.StabilityIndex.GetHistory | pipeline/divergence_engine.py:23-26 | While the index is valid, the history it reads (the cached one, or the empty default) holds a window of at most 50 entries for every monitored component. |
| Stability.StabilityIndex.ReportStatus | pipeline/divergence_engine.py:28-41 | An unmonitored component leaves the cache untouched. A monitored one gets its window replaced by the window with the outcome appended and the oldest entry evicted past 50, stored under the cache key with the rest of the cache unchanged. Every other component's window is unchanged, and the cache stays well formed. |
| Stability.StabilityIndex.GetDiagnostics | pipeline/divergence_engine.py:44-78 | The score minus the baseline is the weighted drift of the history. The global label, the baseline/drift world line and the stability flag (drift < 0.05) all follow from that drift. There is one report per monitored component, holding health × 100, its label and its window length. |
| Stability.Survey | pipeline/divergence_engine.py:53-66 | The loop over the weights accumulates exactly the total drift, and it reports exactly the monitored components, each with its health report. |
| Stability.Slide | pipeline/divergence_engine.py:36-39 | The appended outcome is last. For a window of at most 50 the result has length min(n+1, 50) and is the last 50 of the window followed by the outcome. |
| Stability.SlideAllKeepsMostRecent | pipeline/divergence_engine.py:36-39 | Reporting any run of outcomes leaves exactly the last 50 of the old window followed by the run. |
| Stability.Health | pipeline/divergence_engine.py:54-56 | Health lies in [0, 1], and an empty window counts as 1. |
| Stability.HealthIsOne | pipeline/divergence_engine.py:56 | Health is 1 exactly when the window records no failure. |
| Stability.WeightsSumToOne | pipeline/divergence_engine.py:16-21 | The four weights are positive and sum to 1. |
| Stability.DriftBounds | pipeline/divergence_engine.py:53-60 | With non-negative weights the drift lies between 0 and the weight sum. |
| Stability.TotalDriftInUnitRange | pipeline/divergence_engine.py:53-70 | The drift over the monitored components, so the score minus the baseline, lies in [0, 1]. |
| Stability.DriftZero | pipeline/divergence_engine.py:53-60 | With positive weights the drift is 0 exactly when every component has health 1. |
| Stability.OptimalIffNoFailures | pipeline/divergence_engine.py:70-86 | The global label is OPTIMAL exactly when no monitored window holds a failure. |
| Stability.DriftMonotone | pipeline/divergence_engine.py:53-60 | Lowering component health pointwise never lowers the drift. |
| Stability.HealthAfterFailure | pipeline/divergence_engine.py:34-39 | Reporting a failure never raises a window's health. |
| Stability.DriftAfterFailure | pipeline/divergence_engine.py:28-60 | Reporting a failure for a component never lowers the drift. |
| Stability.RecentFailures | pipeline/divergence_engine.py:36-39 | After n successes and then k failures on an empty window, with n + k ≥ 50, the window holds 50 − k successes and then the k failures, a health of (50 − k)/50. |
| Stability.ReportAll | pipeline/divergence_engine.py:28-41 | Reporting a run of outcomes one after the other replaces the component's window by the window that results from sliding in each outcome in turn, and leaves every other component's window unchanged. The cache changes only under its key: every other key keeps its presence and its value. |
| Stability.StorageScenario | pipeline/divergence_engine.py:28-83 | 50 successes then 10 failures for storage, on an empty cache, give a storage report of 80 % health, CRITICAL, 50 events. |
| Stability.ComponentLabel | pipeline/divergence_engine.py:80-83 | NOMINAL, DEGRADED and CRITICAL hold on the health bands [0.98, ∞), [0.85, 0.98) and below 0.85, each in both directions. |
| Stability.ComponentLabelMonotone | pipeline/divergence_engine.py:80-83 | A healthier component never gets a more severe label. |
| Stability.GlobalStatus | pipeline/divergence_engine.py:85-89 | OPTIMAL, STABLE, WARNING and SYSTEMIC FAILURE hold on drift 0, non-zero drift below 0.02 (negative drift included), [0.02, 0.07) and 0.07 or more, each in both directions. |
| Stability.GlobalStatusMonotone | pipeline/divergence_engine.py:85-89 | For non-negative drift, more drift never gives a less severe global label. |
| Stability.StableFlagAgreesWithLabel | pipeline/divergence_engine.py:77 | OPTIMAL and STABLE always come with `is_stable`. SYSTEMIC FAILURE never does. |
| Utils.VersionSegment | pipeline/utils.py:30 | The directory is `v` followed by at least three digits that read back as the version number; it is wider only when the number has more digits. |
| Utils.VersionSegmentExamples | pipeline/utils.py:30 | 7, 42 and 1234 give v007, v042 and v1234. |
| Utils.AssetVersionPath | pipeline/utils.py:26-31 | The storage path ends with the uploaded file name. |
| Utils.AssetVersionPathLayout | pipeline/utils.py:26-31 | For plain names and a relative file name, the path is `assets/<project slug>/<asset slug>/v<NNN>/<filename>` with one separator between parts. |
| Utils.AbsoluteFilenameWins | pipeline/utils.py:31 | An absolute file name is returned unchanged, because the join discards the directories before it. |
| Utils.CalculateSha256 | pipeline/utils.py:5-11 | The digest is the hash of the whole file. The blocks fed to the hash concatenate to the file, and each holds 1 to 4096 bytes, with all but the last holding 4096. |
| Utils.LastVideo | pipeline/utils.py:17-18 | Finds the last track of type "Video", or reports that there is none. |
| Utils.TrackMetadata | pipeline/utils.py:20-23 | One video track writes exactly the keys width, height, fps and color_space. |
| Utils.TrackMetadataFields | pipeline/utils.py:20-23 | A track's metadata has exactly the four keys. A missing or zero width or height and a missing or empty frame rate become None. A missing or empty colour space becomes ACEScg. |
| Utils.GetVideoMetadata | pipeline/utils.py:13-24 | With no video track the result is empty. Otherwise it is the metadata of the last video track, since each one overwrites the keys. |
| Models.ApprovalFromValue | pipeline/models.py:40-44 | Exactly the three stored approval values name a status, and the status read back has that value. |
| Models.TranscodingFromValue | pipeline/models.py:48-52 | Exactly the four stored transcoding values name a status, and the status read back has that value. |
| Models.ApprovalValueRoundTrip | pipeline/models.py:40-44 | Every approval status reads back from its stored value. |
| Models.TranscodingValueRoundTrip | pipeline/models.py:48-52 | Every transcoding status reads back from its stored value. |
| Models.TranscodingMember | pipeline/models.py:48-52 | Member lookup succeeds exactly for PENDING, PROCESSING, COMPLETED and FAILED. |
| Models.ErrorIsNotATranscodingStatus | pipeline/models.py:48-52 | `ERROR` is not a member, and no status has the stored value ERROR. |
| Models.Version.constructor | pipeline/models.py:63-81 | A new version has number 1, PENDING_REVIEW, transcoding PENDING and an empty proxy path. |
| Models.Version.Str | pipeline/models.py:90-91 | The text starts with the project title followed by ` - v`, and ends with the closing parenthesis of the approval label. |
| Models.StrIdentifiesVersion | pipeline/models.py:90-91 | Within one project, the text of a version determines its number and its approval status. |
| Tasks.ProxyFilename | pipeline/tasks.py:18-20 | The proxy file name is non-empty and holds no separator. |
| Tasks.ProxyOutputPath | pipeline/tasks.py:18-21 | The proxy path ends with the proxy file name. |
| Tasks.ProxyOutputLocation | pipeline/tasks.py:21 | The proxy lies in `proxies/` directly under the media root. |
| Tasks.ProxyNameRoundTrip | pipeline/tasks.py:18-21 | The stem plus the input's extension is the input's base name. The proxy path's base name is `<stem>_proxy.mp4`, which splits back into `<stem>_proxy` and `.mp4`. |
| Tasks.FfmpegCommand | pipeline/tasks.py:28-39 | 17 arguments: overwrite the output, read the input, scale to 720 lines, and end with the output path. |
| Tasks.FailureReason | pipeline/tasks.py:42-50 | A run fails exactly when it did not exit with code 0. A non-zero exit gives `FFmpeg Error: <stderr>`. |
| Tasks.SuccessMessage | pipeline/tasks.py:57 | The message starts with `Version ` and ends with ` processed successfully.`; what lies between is a digit string that reads back as the version number. |
| Tasks.ErrorMessage | pipeline/tasks.py:64 | The message starts with `Error processing version ` and ends with the reason. |
| Tasks.MessagesAreDistinguishable | pipeline/tasks.py:57-64 | A success message is never an error message. An error message determines its version id and its reason. |
| Tasks.Transcode | pipeline/tasks.py:12-63 | Once the version is loaded and the paths are known: the number, approval and original path are unchanged. A clean exit leaves the version COMPLETED with the given proxy path and returns the success message. A failure leaves it FAILED with the proxy path untouched and returns the error message. The trace is: save PROCESSING, run the command, save the final state. |
| Tasks.TranscodeAsWritten | pipeline/tasks.py:12-63 | The same, except that a failure raises AttributeError in the handler: the version stays PROCESSING and the trace ends after the run. |
| Tasks.ProcessVideoTask | pipeline/tasks.py:8-64 | A failed lookup returns its error and does nothing else. Otherwise the number, approval and original path are unchanged and the version ends terminal: COMPLETED with the proxy path and the success message after a clean exit, or FAILED with the proxy path untouched and the error message. The trace is: save PROCESSING, run the command, save the final state. |
| Tasks.ProcessVideoTaskAsWritten | pipeline/tasks.py:8-64 | The same, except that on a failed run the handler raises AttributeError. The version is left PROCESSING, and the trace stops after the run. |
| Tasks.NonZeroExitLeavesVersionProcessing | pipeline/tasks.py:49-63 | Exit code 1 raises `FFmpeg Error: `, ERROR is no member, and PROCESSING is not terminal while FAILED is. |
| Text.Format03d | pipeline/utils.py:30 | Digits only, at least three of them (more only when the number needs more), reading back as the number. |
| Text.ReplaceChar | pipeline/utils.py:28-29 | Same length; every occurrence of the character is replaced and every other character kept, so none is left when the two differ. |
| Text.PosixJoin | pipeline/utils.py:31 | The joined path ends with the last part, and an absolute last part is the whole result. |
| Text.Basename | pipeline/tasks.py:18 | The base name holds no separator, is a suffix of the path, and is preceded by a separator when shorter than the path. |
| Text.DecimalRoundTrip | pipeline/models.py:91 | The decimal text of a number reads back as that number. |
| Text.SplitExt | pipeline/tasks.py:19 | Stem plus extension is the name. The extension is empty or starts with the last dot, with no further dot or separator. A name with a non-dot character before a later dot always gets an extension. |

## Left out

- Concurrency: the read-modify-write of the shared cache in `report_status` can lose updates between workers. The model has one index and sequential calls.
- The cache starts empty (`constructor`). Eviction and persistence are not modelled. Other keys of the cache are modelled only as holding window maps; what they really hold is not modelled.
- Stability.StabilityIndex.ReportStatus: requires the index to be valid: the cached history holds a window for every monitored component, each of at most 50 entries. A cached history without one would raise KeyError in the source, and that case is not modelled. The source never builds a window longer than 50, but `report_status` would accept one; that case is not modelled either.
- Stability.StabilityIndex.GetDiagnostics: the drift is an exact real. The source's float rounding is not modelled: `(baseline + drift) - baseline` need not equal the drift, `round(health * 100, 2)` and the `.6f` string of the score are left out, and the score is returned as a number.
- Logging (`logger.info`) is left out.
- Utils.CalculateSha256: the digest function is a parameter. SHA-256 itself, opening the file and I/O errors are not modelled.
- Utils.GetVideoMetadata: `MediaInfo.parse` is not modelled; tracks arrive as records. `float()` on the frame rate is a parameter. Its parse errors, and `int()` of a non-integral width, are not modelled.
- Utils.AssetVersionPath takes the project title and asset name directly. The source reads `instance.asset`, which the `Version` model does not define. The `Asset` model is not part of this model.
- Tasks.ProcessVideoTask: `Version.objects.get` is the `version` argument (null when the lookup raised). `subprocess.run` is the `ffmpeg` parameter. Calls to `save()` are recorded in the trace, and their failures are not modelled.
- Tasks.ProcessVideoTask: `os.makedirs` on the proxy directory, and its failure, are not modelled.
- Celery dispatch, retries and the task's `self` binding are left out.
- Tasks.ProcessVideoTask: `str(e)` of a launch failure is the given message. The text of Python's exception messages is not modelled.
- Models.Version: only the fields the core reads or writes are modelled: number, statuses, file paths, and the project title used by `__str__`. The foreign keys to project and uploader are left out.
- `Profile`, `Project`, `Comment` and `License` are left out, as are the admin, signals, views, URLs and serializers.
- The QC gate and upload de-duplication do not appear in the modelled files and are not modelled.

## Findings

| source | as written | input that shows it | evidently intended | confidence | as-written member | corrected member |
|---|---|---|---|---|---|---|
| pipeline/tasks.py:62 | The failure handler assigns `Version.TranscodingStatus.ERROR`, but the enumeration (pipeline/models.py:48-52) has no ERROR member. The handler raises AttributeError before saving, so the version stays PROCESSING and the task ends in an exception instead of returning its error message. | Any ffmpeg run that exits with a non-zero code, e.g. `Exited(1, "")`, or any launch failure. | Set FAILED, save, and return `Error processing version <id>: <reason>`. | not executed | Tasks.ProcessVideoTaskAsWritten | Tasks.ProcessVideoTask |
