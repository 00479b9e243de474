/**
 * The decision logic of assets.go: extensions from media types, the image
 * whitelist, random asset names, aspect-ratio classification of the first
 * probed stream, and the result checks after the fast-start remux.
 *
 * The external tools (ffprobe, ffmpeg), the file system's `stat` and the
 * random source are not run: their outcomes are parameters.
 */
module Assets {
  import opened Wrappers
  import Base64Url

  // ---------------------------------------------------------------------
  // strings.Split and mediaTypeToExt (assets.go:34-40)
  // ---------------------------------------------------------------------

  /** Number of occurrences of `c` in `s`. */
  function Count(s: string, c: char): nat {
    if |s| == 0 then 0 else (if s[0] == c then 1 else 0) + Count(s[1..], c)
  }

  /** The parts joined back together with the separator between them. */
  function Join(parts: seq<string>, sep: char): string
    requires |parts| > 0
  {
    if |parts| == 1 then parts[0] else parts[0] + [sep] + Join(parts[1..], sep)
  }

  /**
   * Go's `strings.Split(s, sep)` for a one-character separator: the pieces
   * between the separators, so an empty `s` gives one empty piece.
   */
  function Split(s: string, sep: char): seq<string> {
    if |s| == 0 then [""]
    else
      var rest := Split(s[1..], sep);
      if s[0] == sep then [""] + rest
      else [[s[0]] + rest[0]] + rest[1..]
  }

  /**
   * Split cuts at every separator and nowhere else: one more piece than
   * separators, no piece holds one, and joining the pieces gives `s` back.
   */
  lemma {:induction false} SplitPieces(s: string, sep: char)
    ensures var parts := Split(s, sep);
      |parts| == Count(s, sep) + 1
      && (forall i :: 0 <= i < |parts| ==> sep !in parts[i])
      && Join(parts, sep) == s
  {
    if |s| > 0 {
      SplitPieces(s[1..], sep);
      var rest := Split(s[1..], sep);
      assert s == [s[0]] + s[1..];
      if s[0] == sep {
        assert ([""] + rest)[1..] == rest;
      } else {
        var parts := [[s[0]] + rest[0]] + rest[1..];
        if |rest| > 1 {
          assert parts[1..] == rest[1..];
        }
        assert Join(parts, sep) == [s[0]] + Join(rest, sep);
      }
    }
  }

  /**
   * The file extension for a media type: `.` and the text after the slash
   * when the type splits on `/` into exactly two parts, `.bin` otherwise.
   */
  function MediaTypeToExt(mediaType: string): (ext: string)
    ensures |ext| > 0 && ext[0] == '.'
    ensures '/' !in ext
  {
    var parts := Split(mediaType, '/');
    SplitPieces(mediaType, '/');
    if |parts| != 2 then ".bin" else "." + parts[1]
  }

  lemma {:induction false} SplitNoSeparator(s: string, sep: char)
    requires sep !in s
    ensures Split(s, sep) == [s]
  {
    var parts := Split(s, sep);
    SplitPieces(s, sep);
    assert |parts| == 1 by { CountAbsent(s, sep); }
  }

  lemma {:induction false} CountAbsent(s: string, c: char)
    requires c !in s
    ensures Count(s, c) == 0
  {
    if |s| > 0 {
      assert c !in s[1..];
      CountAbsent(s[1..], c);
    }
  }

  /** Counting distributes over concatenation. */
  lemma {:induction false} CountAppend(a: string, b: string, c: char)
    ensures Count(a + b, c) == Count(a, c) + Count(b, c)
  {
    if |a| > 0 {
      assert (a + b)[1..] == a[1..] + b;
      CountAppend(a[1..], b, c);
    } else {
      assert a + b == b;
    }
  }

  lemma {:induction false} SplitAtFirst(a: string, sep: char, b: string)
    requires sep !in a
    ensures Split(a + [sep] + b, sep) == [a] + Split(b, sep)
    decreases |a|
  {
    var s := a + [sep] + b;
    if |a| == 0 {
      assert s[1..] == b;
    } else {
      assert s[1..] == a[1..] + [sep] + b;
      assert sep !in a[1..];
      SplitAtFirst(a[1..], sep, b);
      assert [a[0]] + a[1..] == a;
    }
  }

  /** A media type with exactly one slash, `type/subtype`, has extension `.subtype`. */
  lemma MediaTypeWithOneSlash(typ: string, subtype: string)
    requires '/' !in typ && '/' !in subtype
    ensures MediaTypeToExt(typ + "/" + subtype) == "." + subtype
  {
    SplitAtFirst(typ, '/', subtype);
    SplitNoSeparator(subtype, '/');
  }

  /** With no slash, or with more than one, the extension is `.bin`. */
  lemma MediaTypeWithoutOneSlash(mediaType: string)
    requires Count(mediaType, '/') != 1
    ensures MediaTypeToExt(mediaType) == ".bin"
  {
    SplitPieces(mediaType, '/');
  }

  /** Every media type with exactly one slash is of the form `type/subtype`. */
  lemma {:induction false} OneSlashDecomposes(s: string)
    requires Count(s, '/') == 1
    ensures exists i :: (0 <= i < |s| && s[i] == '/' && '/' !in s[..i] && '/' !in s[i + 1..]
      && MediaTypeToExt(s) == "." + s[i + 1..])
  {
    var parts := Split(s, '/');
    SplitPieces(s, '/');
    assert |parts| == 2;
    var i := |parts[0]|;
    assert Join(parts, '/') == parts[0] + "/" + parts[1];
    assert s[i] == '/' && s[..i] == parts[0] && s[i + 1..] == parts[1];
  }

  // The examples below take the media type as a variable equal to the
  // literal: that keeps the verifier from evaluating Split on the literal.

  lemma ExtensionOfVideoMp4(mediaType: string)
    requires mediaType == "video/mp4"
    ensures MediaTypeToExt(mediaType) == ".mp4"
  {
    MediaTypeWithOneSlash("video", "mp4");
    assert "video" + "/" + "mp4" == mediaType;
  }

  lemma ExtensionOfImagePng(mediaType: string)
    requires mediaType == "image/png"
    ensures MediaTypeToExt(mediaType) == ".png"
  {
    MediaTypeWithOneSlash("image", "png");
    assert "image" + "/" + "png" == mediaType;
  }

  lemma ExtensionOfImageJpeg(mediaType: string)
    requires mediaType == "image/jpeg"
    ensures MediaTypeToExt(mediaType) == ".jpeg"
  {
    MediaTypeWithOneSlash("image", "jpeg");
    assert "image" + "/" + "jpeg" == mediaType;
  }

  lemma ExtensionWithoutSlash(mediaType: string)
    requires mediaType == "" || mediaType == "mp4"
    ensures MediaTypeToExt(mediaType) == ".bin"
  {
    CountAbsent(mediaType, '/');
    MediaTypeWithoutOneSlash(mediaType);
  }

  // ---------------------------------------------------------------------
  // isValidImageType (assets.go:42-51)
  // ---------------------------------------------------------------------

  /** The media types accepted for thumbnails: exactly image/jpeg and image/png. */
  function IsValidImageType(mediaType: string): (ok: bool)
    ensures ok <==> mediaType in {"image/jpeg", "image/png"}
  {
    match mediaType
    case "image/jpeg" => true
    case "image/png" => true
    case _ => false
  }

  /** An accepted image type is stored with the extension `.jpeg` or `.png`. */
  lemma ValidImageExtension(mediaType: string)
    requires IsValidImageType(mediaType)
    ensures MediaTypeToExt(mediaType) in {".jpeg", ".png"}
  {
    if mediaType == "image/jpeg" {
      ExtensionOfImageJpeg(mediaType);
    } else {
      ExtensionOfImagePng(mediaType);
    }
  }

  // ---------------------------------------------------------------------
  // getAssetPath (assets.go:24-32)
  // ---------------------------------------------------------------------

  /** getAssetPath draws this many random bytes. */
  const RandomLength := 32

  /** Length of the unpadded base64url encoding of the random bytes. */
  const NameLength := 43

  /** The 32 bytes `rand.Read` fills the slice with. */
  type RandomBytes = s: seq<Base64Url.byte> | |s| == RandomLength witness seq(32, _ => 0)

  /**
   * The asset path: the random bytes in unpadded base64url, then the
   * extension of the media type. The name is 43 URL-safe characters, the
   * whole path has no slash, and the name decodes back to the random bytes.
   */
  function GetAssetPath(mediaType: string, random: RandomBytes): (path: string)
    ensures |path| == NameLength + |MediaTypeToExt(mediaType)|
    ensures forall i :: 0 <= i < NameLength ==> Base64Url.IsUrlSafeChar(path[i])
    ensures path[NameLength..] == MediaTypeToExt(mediaType)
    ensures '/' !in path
    ensures path[..NameLength] == Base64Url.Encode(random)
  {
    var assetName := Base64Url.Encode(random);
    Base64Url.EncodeLength(random);
    Base64Url.EncodeAlphabet(random);
    var path := assetName + MediaTypeToExt(mediaType);
    assert path[..NameLength] == assetName;
    assert path[NameLength..] == MediaTypeToExt(mediaType);
    assert forall i :: 0 <= i < NameLength ==> path[i] == assetName[i];
    path
  }

  /** The name part of an asset path decodes back to the random bytes. */
  lemma AssetNameDecodes(mediaType: string, random: RandomBytes)
    ensures Base64Url.Decode(GetAssetPath(mediaType, random)[..NameLength]) == Some(random)
  {
    Base64Url.DecodeEncode(random);
  }

  /** Two asset paths are equal only if their random bytes are. */
  lemma AssetPathInjective(type1: string, r1: RandomBytes, type2: string, r2: RandomBytes)
    requires GetAssetPath(type1, r1) == GetAssetPath(type2, r2)
    ensures r1 == r2
  {
    AssetNameDecodes(type1, r1);
    AssetNameDecodes(type2, r2);
  }

  // ---------------------------------------------------------------------
  // The aspect classifier in getVideoAspectRatio (assets.go:82-92)
  // ---------------------------------------------------------------------

  const LandscapeRatio: real := 16.0 / 9.0
  const PortraitRatio: real := 9.0 / 16.0
  const Tolerance: real := 0.1

  function Abs(x: real): real { if x < 0.0 then -x else x }

  /**
   * The label of a width and a height: "16:9" within the tolerance of 16/9,
   * else "9:16" within the tolerance of 9/16, else "other". Go divides
   * float64 values; a zero height gives an infinite or NaN ratio, which fails
   * both comparisons, so it is "other" here too.
   */
  function Classify(width: int, height: int): string {
    if height == 0 then "other"
    else
      var ratio := width as real / height as real;
      if Abs(ratio - LandscapeRatio) < Tolerance then "16:9"
      else if Abs(ratio - PortraitRatio) < Tolerance then "9:16"
      else "other"
  }

  /** The two tolerance windows are disjoint: no ratio is close to both. */
  lemma WindowsDisjoint(ratio: real)
    ensures !(Abs(ratio - LandscapeRatio) < Tolerance && Abs(ratio - PortraitRatio) < Tolerance)
  {
  }

  lemma SignOfProduct(u: real, v: real)
    requires u >= 0.0 && v > 0.0
    ensures u * v >= 0.0 && (u > 0.0 ==> u * v > 0.0)
  {
  }

  /** The absolute value of a product is the product of the absolute values. */
  lemma AbsOfProduct(u: real, v: real)
    ensures Abs(u * v) == Abs(u) * Abs(v)
  {
    if u < 0.0 && v < 0.0 {
      assert u * v == (-u) * (-v);
    } else if u < 0.0 {
      assert -(u * v) == (-u) * v;
    } else if v < 0.0 {
      assert -(u * v) == u * (-v);
    }
  }

  /** For `b` above 0 and `p` the product `a b`: `a` is below 1/10 exactly when `10 p` is below `b`. */
  lemma TenthOfPositive(a: real, b: real, p: real)
    requires b > 0.0 && p == a * b
    ensures a < 0.1 <==> 10.0 * p < b
  {
    assert 10.0 * p - b == (10.0 * a - 1.0) * b;
    if 10.0 * a < 1.0 {
      SignOfProduct(1.0 - 10.0 * a, b);
    } else {
      SignOfProduct(10.0 * a - 1.0, b);
    }
  }

  /** |x / y| < 1/10 exactly when 10 |x| < |y|, for y other than 0. */
  lemma WithinTenth(x: real, y: real)
    requires y != 0.0
    ensures Abs(x / y) < 0.1 <==> 10.0 * Abs(x) < Abs(y)
  {
    var q := x / y;
    assert x == q * y;
    AbsOfProduct(q, y);
    TenthOfPositive(Abs(q), Abs(y), Abs(x));
  }

  /** Distance of a ratio to `n/d`, rewritten over the common denominator. */
  lemma RatioDistance(width: int, height: int, n: int, d: int)
    requires height != 0 && d > 0
    ensures width as real / height as real - n as real / d as real
      == (d * width - n * height) as real / (d * height) as real
  {
    var w, h, nr, dr := width as real, height as real, n as real, d as real;
    assert (d * width - n * height) as real == dr * w - nr * h;
    assert (d * height) as real == dr * h;
    calc {
      w / h - nr / dr;
      (dr * w) / (dr * h) - (nr * h) / (dr * h);
      (dr * w - nr * h) / (dr * h);
    }
  }

  /**
   * The same classification in integers, by cross-multiplication:
   * |w/h - 16/9| < 1/10 is 10 |9w - 16h| < 9 |h|, and
   * |w/h - 9/16| < 1/10 is 10 |16w - 9h| < 16 |h|.
   */
  function ClassifyInIntegers(width: int, height: int): string {
    var absH := if height < 0 then -height else height;
    var dl := 9 * width - 16 * height;
    var dp := 16 * width - 9 * height;
    if height != 0 && 10 * (if dl < 0 then -dl else dl) < 9 * absH then "16:9"
    else if height != 0 && 10 * (if dp < 0 then -dp else dp) < 16 * absH then "9:16"
    else "other"
  }

  lemma CloseTo(width: int, height: int, n: int, d: int)
    requires height != 0 && d > 0
    ensures var diff := d * width - n * height;
      Abs(width as real / height as real - n as real / d as real) < Tolerance
      <==> 10 * (if diff < 0 then -diff else diff) < d * (if height < 0 then -height else height)
  {
    RatioDistance(width, height, n, d);
    var diff := d * width - n * height;
    WithinTenth(diff as real, (d * height) as real);
    assert Abs(diff as real) == (if diff < 0 then -diff else diff) as real;
    assert Abs((d * height) as real) == (d * (if height < 0 then -height else height)) as real;
  }

  /** The real-valued classifier and the integer one agree on every input. */
  lemma ClassifyMatchesIntegers(width: int, height: int)
    ensures Classify(width, height) == ClassifyInIntegers(width, height)
  {
    if height != 0 {
      CloseTo(width, height, 16, 9);
      CloseTo(width, height, 9, 16);
      assert LandscapeRatio == 16 as real / 9 as real;
      assert PortraitRatio == 9 as real / 16 as real;
    }
  }

  /** Only the ratio matters: scaling both sides by the same factor keeps the label. */
  lemma ClassifyScaleInvariant(width: int, height: int, k: int)
    requires k != 0
    ensures Classify(k * width, k * height) == Classify(width, height)
  {
    if height != 0 {
      var w, h, kr := width as real, height as real, k as real;
      assert (k * width) as real == kr * w;
      assert (k * height) as real == kr * h;
      assert (kr * w) / (kr * h) == w / h;
    }
  }

  lemma ClassifyExamples()
    ensures Classify(1920, 1080) == "16:9"
    ensures Classify(1080, 1920) == "9:16"
    ensures Classify(1000, 1000) == "other"
    ensures Classify(1920, 0) == "other" && Classify(0, 0) == "other"
  {
  }

  // ---------------------------------------------------------------------
  // getVideoAspectRatio (assets.go:53-93)
  // ---------------------------------------------------------------------

  /** One entry of the `streams` array of ffprobe's JSON output. */
  datatype Stream = Stream(width: int, height: int)

  /**
   * What running ffprobe gave: whether it exited successfully, and its
   * standard output parsed as JSON (None when it does not parse).
   */
  datatype ProbeRun = ProbeRun(succeeded: bool, streams: Option<seq<Stream>>)

  datatype ProbeError = ProbeFailed | ProbeOutputUnparsable | NoVideoStreams

  /**
   * Runs the checks of getVideoAspectRatio on the outcome of ffprobe: a
   * failed run, unparsable output or an empty stream list is an error and
   * gives no label; otherwise the label classifies the first stream alone.
   */
  method GetVideoAspectRatio(run: ProbeRun) returns (aspectRatio: string, err: Option<ProbeError>)
    ensures !run.succeeded ==> err == Some(ProbeFailed)
    ensures run.succeeded && run.streams.None? ==> err == Some(ProbeOutputUnparsable)
    ensures run.succeeded && run.streams == Some([]) ==> err == Some(NoVideoStreams)
    ensures err.None? <==> run.succeeded && run.streams.Some? && |run.streams.value| > 0
    ensures err.None? ==> aspectRatio == Classify(run.streams.value[0].width, run.streams.value[0].height)
    ensures err.Some? ==> aspectRatio == ""
  {
    if !run.succeeded {
      return "", Some(ProbeFailed);
    }
    if run.streams.None? {
      return "", Some(ProbeOutputUnparsable);
    }
    var streams := run.streams.value;
    if |streams| == 0 {
      return "", Some(NoVideoStreams);
    }
    var videoRatioWidth, videoRatioHeight := streams[0].width, streams[0].height;
    aspectRatio := Classify(videoRatioWidth, videoRatioHeight);
    err := None;
  }

  // ---------------------------------------------------------------------
  // processVideoForFastStart (assets.go:95-120)
  // ---------------------------------------------------------------------

  /** The suffix of the remuxed file's path. */
  const ProcessingSuffix := ".processing"

  /**
   * What running ffmpeg gave: whether it exited successfully, its standard
   * error, and the size of the output file `os.Stat` then finds (None when
   * the stat fails).
   */
  datatype FastStartRun = FastStartRun(succeeded: bool, stderr: string, outputSize: Option<nat>)

  datatype FastStartError = ProcessingFailed(stderr: string) | StatFailed | EmptyOutput

  /**
   * Runs the checks of processVideoForFastStart: the output path is the
   * input path with ".processing" appended, returned only when ffmpeg
   * succeeded and the output exists and is not empty.
   */
  method ProcessVideoForFastStart(filePath: string, run: FastStartRun) returns (processedPath: string, err: Option<FastStartError>)
    ensures !run.succeeded ==> err == Some(ProcessingFailed(run.stderr))
    ensures run.succeeded && run.outputSize.None? ==> err == Some(StatFailed)
    ensures run.succeeded && run.outputSize == Some(0) ==> err == Some(EmptyOutput)
    ensures err.None? <==> run.succeeded && run.outputSize.Some? && run.outputSize.value > 0
    ensures err.None? ==> processedPath == filePath + ProcessingSuffix
    ensures err.Some? ==> processedPath == ""
  {
    var processedFilePath := filePath + ProcessingSuffix;
    if !run.succeeded {
      return "", Some(ProcessingFailed(run.stderr));
    }
    if run.outputSize.None? {
      return "", Some(StatFailed);
    }
    if run.outputSize.value == 0 {
      return "", Some(EmptyOutput);
    }
    return processedFilePath, None;
  }
}
