/**
 * The pipeline's file helpers: the storage path of an uploaded version, the
 * streaming content hash and the technical metadata read from media tracks.
 * The hash function and the media parser are outside the model: the hash is a
 * parameter, and tracks arrive as records.
 */
module Utils {
  import opened Wrappers
  import opened Text

  type Byte = b: int | 0 <= b < 256

  /** Bytes requested per `read` call. */
  const ChunkSize: nat := 4096

  /** The version directory name: `v` and the number padded to three digits. */
  function VersionSegment(versionNumber: nat): (s: string)
    ensures |s| >= 4 && s[0] == 'v' && AllDigits(s[1..]) && DecimalValue(s[1..]) == versionNumber
    ensures |s| == 1 + (if |Decimal(versionNumber)| >= 3 then |Decimal(versionNumber)| else 3)
  {
    "v" + Format03d(versionNumber)
  }

  lemma VersionSegmentExamples()
    ensures VersionSegment(7) == "v007"
    ensures VersionSegment(42) == "v042"
    ensures VersionSegment(1234) == "v1234"
  {
    assert Decimal(7) == "7";
    assert Decimal(42) == "42";
    assert Decimal(1234) == "1234";
  }

  /**
   * `asset_version_path`: `posixpath.join` of `assets`, the project slug, the asset
   * slug, the version directory and the file name, each slug being its name with
   * spaces replaced by underscores.
   */
  function AssetVersionPath(projectTitle: string, assetName: string, versionNumber: nat, filename: string): (p: string)
    ensures |p| >= |filename| && p[|p| - |filename|..] == filename
  {
    PosixJoin("assets", [ReplaceChar(projectTitle, ' ', '_'), ReplaceChar(assetName, ' ', '_'),
                         VersionSegment(versionNumber), filename])
  }

  /**
   * When the names are plain segments and the file name is not absolute, the path is
   * `assets/<project slug>/<asset slug>/v<NNN>/<filename>` with one `/` between neighbours.
   */
  lemma AssetVersionPathLayout(projectTitle: string, assetName: string, versionNumber: nat, filename: string)
    requires PlainSegment(projectTitle) && PlainSegment(assetName)
    requires filename == [] || filename[0] != '/'
    ensures AssetVersionPath(projectTitle, assetName, versionNumber, filename)
         == "assets/" + ReplaceChar(projectTitle, ' ', '_') + "/" + ReplaceChar(assetName, ' ', '_')
            + "/" + VersionSegment(versionNumber) + "/" + filename
  {
    assert "assets" + "/" == "assets/";
    var project, asset, dir := ReplaceChar(projectTitle, ' ', '_'), ReplaceChar(assetName, ' ', '_'),
                               VersionSegment(versionNumber);
    SlugIsPlain(projectTitle);
    SlugIsPlain(assetName);
    var parts := [project, asset, dir, filename];
    assert forall i :: 0 <= i < |parts| - 1 ==> PlainSegment(parts[i]);
    PosixJoinSlashed("assets", parts);
    SlashedFour("assets", parts);
  }

  /** A slug of a plain segment is a plain segment. */
  lemma SlugIsPlain(name: string)
    requires PlainSegment(name)
    ensures PlainSegment(ReplaceChar(name, ' ', '_'))
  {
    var slug := ReplaceChar(name, ' ', '_');
    assert slug[0] != '/' && slug[|slug| - 1] != '/';
  }

  /** An absolute file name discards the directories before it. */
  lemma AbsoluteFilenameWins(projectTitle: string, assetName: string, versionNumber: nat, filename: string)
    requires |filename| > 0 && filename[0] == '/'
    ensures AssetVersionPath(projectTitle, assetName, versionNumber, filename) == filename
  {
    var parts := [ReplaceChar(projectTitle, ' ', '_'), ReplaceChar(assetName, ' ', '_'),
                  VersionSegment(versionNumber), filename];
    assert parts[|parts| - 1] == filename;
  }

  lemma SlashedFour(first: string, parts: seq<string>)
    requires |parts| == 4
    ensures Slashed(first, parts) == first + "/" + parts[0] + "/" + parts[1] + "/" + parts[2] + "/" + parts[3]
  {
    assert parts[..3][..2][..1][..0] == [];
    assert parts[..3][..2][..1] == [parts[0]];
    assert parts[..3][..2] == [parts[0], parts[1]];
    assert Slashed(first, [parts[0]]) == first + "/" + parts[0];
    assert Slashed(first, [parts[0], parts[1]]) == first + "/" + parts[0] + "/" + parts[1];
    assert Slashed(first, parts[..3]) == first + "/" + parts[0] + "/" + parts[1] + "/" + parts[2];
  }

  /** The result of one `f.read(ChunkSize)` at offset `pos`: at most `ChunkSize` bytes, empty at the end. */
  function ReadChunk(file: seq<Byte>, pos: nat): (block: seq<Byte>)
    requires pos <= |file|
    ensures |block| <= ChunkSize && pos + |block| <= |file| && file[pos..pos + |block|] == block
    ensures block == [] <==> pos == |file|
  {
    if pos + ChunkSize <= |file| then file[pos..pos + ChunkSize] else file[pos..]
  }

  function Concat(chunks: seq<seq<Byte>>): seq<Byte>
    decreases |chunks|
  {
    if chunks == [] then [] else Concat(chunks[..|chunks| - 1]) + chunks[|chunks| - 1]
  }

  lemma ConcatAppend(chunks: seq<seq<Byte>>, block: seq<Byte>)
    ensures Concat(chunks + [block]) == Concat(chunks) + block
  {
    assert (chunks + [block])[..|chunks|] == chunks;
  }

  /**
   * `calculate_sha256`: read the file in `ChunkSize` blocks until an empty read,
   * feeding each block to the hash. The hash object is the byte string it has been
   * fed; `sha256` gives the hex digest of a byte string.
   */
  method CalculateSha256(file: seq<Byte>, sha256: seq<Byte> -> string) returns (digest: string, ghost chunks: seq<seq<Byte>>)
    ensures digest == sha256(file)
    ensures Concat(chunks) == file
    ensures forall i :: 0 <= i < |chunks| ==> 0 < |chunks[i]| <= ChunkSize
    ensures forall i :: 0 <= i < |chunks| - 1 ==> |chunks[i]| == ChunkSize
  {
    var fed: seq<Byte> := [];
    chunks := [];
    var pos := 0;
    var block := ReadChunk(file, pos);
    while block != []
      invariant pos <= |file| && block == ReadChunk(file, pos)
      invariant fed == file[..pos] && Concat(chunks) == fed
      invariant forall i :: 0 <= i < |chunks| ==> 0 < |chunks[i]| <= ChunkSize
      invariant forall i :: 0 <= i < |chunks| - 1 ==> |chunks[i]| == ChunkSize
      invariant |chunks| > 0 && |chunks[|chunks| - 1]| < ChunkSize ==> pos == |file|
      decreases |file| - pos
    {
      ConcatAppend(chunks, block);
      assert file[..pos + |block|] == file[..pos] + block;
      fed := fed + block;
      chunks := chunks + [block];
      pos := pos + |block|;
      block := ReadChunk(file, pos);
    }
    assert file[..pos] == file;
    digest := sha256(fed);
  }

  /** A media track as the parser reports it; absent attributes are `None`. */
  datatype Track = Track(
    trackType: string,
    width: Option<int>,
    height: Option<int>,
    frameRate: Option<string>,
    colorSpace: Option<string>)

  /** A metadata value: Python `None`, an `int`, a `float` or a `str`. */
  datatype MetaValue = Null | Int(i: int) | Float(r: real) | Text(s: string)

  /** Python truthiness of an optional integer and of an optional string. */
  predicate TruthyInt(x: Option<int>) {
    x.Some? && x.value != 0
  }

  predicate TruthyText(x: Option<string>) {
    x.Some? && x.value != ""
  }

  /** The index of the last track of type "Video", if any. */
  function LastVideo(tracks: seq<Track>): (k: Option<nat>)
    ensures k.Some? ==> k.value < |tracks| && tracks[k.value].trackType == "Video"
    ensures k.Some? ==> forall j :: k.value < j < |tracks| ==> tracks[j].trackType != "Video"
    ensures k.None? <==> forall j :: 0 <= j < |tracks| ==> tracks[j].trackType != "Video"
    decreases |tracks|
  {
    if tracks == [] then None
    else if tracks[|tracks| - 1].trackType == "Video" then Some(|tracks| - 1)
    else LastVideo(tracks[..|tracks| - 1])
  }

  /** The four keys one "Video" track writes: its size, its frame rate as a float, its colour space. */
  function TrackMetadata(t: Track, toFloat: string -> real): (m: map<string, MetaValue>)
    ensures m.Keys == {"width", "height", "fps", "color_space"}
  {
    map["width" := if TruthyInt(t.width) then Int(t.width.value) else Null,
        "height" := if TruthyInt(t.height) then Int(t.height.value) else Null,
        "fps" := if TruthyText(t.frameRate) then Float(toFloat(t.frameRate.value)) else Null,
        "color_space" := Text(if TruthyText(t.colorSpace) then t.colorSpace.value else "ACEScg")]
  }

  /**
   * A track's metadata has exactly the four keys; a missing or zero size and a missing
   * or empty frame rate become `None`, and a missing or empty colour space becomes ACEScg.
   */
  lemma TrackMetadataFields(t: Track, toFloat: string -> real)
    ensures TrackMetadata(t, toFloat).Keys == {"width", "height", "fps", "color_space"}
    ensures TrackMetadata(t, toFloat)["width"] == Null <==> t.width.None? || t.width.value == 0
    ensures TrackMetadata(t, toFloat)["height"] == Null <==> t.height.None? || t.height.value == 0
    ensures TrackMetadata(t, toFloat)["fps"] == Null <==> t.frameRate.None? || t.frameRate.value == ""
    ensures TrackMetadata(t, toFloat)["color_space"] != Text("")
    ensures !TruthyText(t.colorSpace) ==> TrackMetadata(t, toFloat)["color_space"] == Text("ACEScg")
  {
  }

  /** Writing the four keys of a track over a dictionary with no other key gives that track's metadata. */
  lemma OverwriteFour(m: map<string, MetaValue>, t: Track, toFloat: string -> real)
    requires m.Keys <= {"width", "height", "fps", "color_space"}
    ensures m["width" := if TruthyInt(t.width) then Int(t.width.value) else Null]
             ["height" := if TruthyInt(t.height) then Int(t.height.value) else Null]
             ["fps" := if TruthyText(t.frameRate) then Float(toFloat(t.frameRate.value)) else Null]
             ["color_space" := Text(if TruthyText(t.colorSpace) then t.colorSpace.value else "ACEScg")]
            == TrackMetadata(t, toFloat)
  {
  }

  /**
   * `get_video_metadata` over parsed tracks: every "Video" track overwrites the four
   * keys, so the last one wins; no "Video" track gives an empty dictionary. `toFloat`
   * is Python's `float()` on a frame-rate string.
   */
  method GetVideoMetadata(tracks: seq<Track>, toFloat: string -> real) returns (metadata: map<string, MetaValue>)
    ensures LastVideo(tracks).None? ==> metadata == map[]
    ensures LastVideo(tracks).Some? ==> metadata == TrackMetadata(tracks[LastVideo(tracks).value], toFloat)
  {
    metadata := map[];
    var i := 0;
    while i < |tracks|
      invariant 0 <= i <= |tracks|
      invariant LastVideo(tracks[..i]).None? ==> metadata == map[]
      invariant LastVideo(tracks[..i]).Some? ==> metadata == TrackMetadata(tracks[LastVideo(tracks[..i]).value], toFloat)
    {
      var track := tracks[i];
      assert tracks[..i + 1][..i] == tracks[..i];
      if track.trackType == "Video" {
        if LastVideo(tracks[..i]).Some? {
          TrackMetadataFields(tracks[LastVideo(tracks[..i]).value], toFloat);
        }
        OverwriteFour(metadata, track, toFloat);
        metadata := metadata["width" := if TruthyInt(track.width) then Int(track.width.value) else Null];
        metadata := metadata["height" := if TruthyInt(track.height) then Int(track.height.value) else Null];
        metadata := metadata["fps" := if TruthyText(track.frameRate) then Float(toFloat(track.frameRate.value)) else Null];
        metadata := metadata["color_space" := Text(if TruthyText(track.colorSpace) then track.colorSpace.value else "ACEScg")];
      }
      i := i + 1;
    }
    assert tracks[..i] == tracks;
  }
}
