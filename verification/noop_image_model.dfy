/** The descriptor of a transform that is not carried out: the "transformed" image is the
    source file itself, with the size the transform would have given it. */
module NoopImageModel {
  import opened Php
  import opened Wrappers

  /** The fields of the local source image the descriptor copies. */
  datatype SourceModel = SourceModel(filePath: string, filename: string, url: string, extension: string)

  /** A transform: the PHP array of settings, keyed by name. */
  type Transform = map<string, Value>

  /** A width and a height in pixels. */
  datatype Dims = Dims(width: int, height: int)

  /** Imagine's InvalidArgumentException: raised by the `Box` constructor for a side below 1
      (carrying the size it was given), or by the crop computation. */
  datatype InvalidArgument = RejectedBoxSize(size: Dims) | InvalidCrop(message: string, code: int)

  /** What a collaborator can throw: an InvalidArgumentException, or any other throwable. */
  datatype Thrown = InvalidArgumentException(cause: InvalidArgument) | OtherThrowable(message: string)

  /** What the mime type lookup gave: a type, null, an InvalidConfigException, or another throwable. */
  datatype MimeLookup = MimeType(mimeType: string) | NoMimeType | InvalidConfig | MimeThrew(message: string)

  /** Why construction failed: an ImagerException wrapping an invalid argument; a null mime type
      assigned to the typed string property; the warning raised by reading a width from the
      `false` a failed `getimagesize` gives, which the application's error handler throws as an
      ErrorException; or another throwable that is not caught. */
  datatype ConstructError =
    | ImagerException(cause: InvalidArgument)
    | MimeTypeNotString
    | ProbeFailedWarning
    | Propagated(message: string)

  /** The constructed descriptor. An unset mime type is `None`. */
  datatype NoopImage = NoopImage(
    source: SourceModel,
    path: string,
    filename: string,
    url: string,
    extension: string,
    mimeType: Option<string>,
    width: int,
    height: int,
    size: nat,
    isNew: bool)

  /** The uninterpreted crop computation: source box, transform and upscale setting to a crop size. */
  type CropSize = (Dims, Transform, bool) -> Result<Dims, Thrown>

  /** A probed size the `Box` constructor accepts. */
  predicate ValidBox(probe: Option<Dims>)
  {
    probe.Some? && probe.value.width >= 1 && probe.value.height >= 1
  }

  /** A mime lookup outcome construction survives. */
  predicate MimeTolerated(mime: MimeLookup)
  {
    mime.MimeType? || mime.InvalidConfig?
  }

  /** The constructor. `fileSize` is what `filesize` gave (`None` for its `false`, which the
      `int|float` property coerces to 0), `mime` the mime type lookup, `probe` the width and
      height `getimagesize` read, and `allowUpscale` the setting the configuration resolves
      for this transform. */
  function Construct(
    source: SourceModel, transform: Transform, allowUpscale: bool,
    fileSize: Option<nat>, mime: MimeLookup, probe: Option<Dims>, getCropSize: CropSize): (r: Result<NoopImage, ConstructError>)
    ensures r.Ok? <==>
              MimeTolerated(mime) && ValidBox(probe) && getCropSize(probe.value, transform, allowUpscale).Ok?
    ensures r.Ok? ==>
              && r.value.source == source
              && !r.value.isNew
              && r.value.path == source.filePath
              && r.value.filename == source.filename
              && r.value.url == source.url
              && r.value.extension == source.extension
    ensures r.Ok? ==>
              Dims(r.value.width, r.value.height) == getCropSize(probe.value, transform, allowUpscale).value
    ensures r.Ok? ==> (r.value.mimeType.Some? <==> mime.MimeType?)
    ensures r.Ok? && mime.MimeType? ==> r.value.mimeType == Some(mime.mimeType)
    ensures r.Ok? ==> r.value.size == (if fileSize.Some? then fileSize.value else 0)
    ensures mime.NoMimeType? ==> r == Err(MimeTypeNotString)
    ensures mime.MimeThrew? ==> r == Err(Propagated(mime.message))
    ensures MimeTolerated(mime) && probe.None? ==> r == Err(ProbeFailedWarning)
    ensures MimeTolerated(mime) && probe.Some? && !ValidBox(probe) ==>
              r == Err(ImagerException(RejectedBoxSize(probe.value)))
    ensures r.Err? && r.error.ImagerException? <==>
              && MimeTolerated(mime)
              && probe.Some?
              && (|| !ValidBox(probe)
                  || (getCropSize(probe.value, transform, allowUpscale).Err?
                      && getCropSize(probe.value, transform, allowUpscale).error.InvalidArgumentException?))
    ensures MimeTolerated(mime) && ValidBox(probe) ==>
              match getCropSize(probe.value, transform, allowUpscale)
              case Err(InvalidArgumentException(cause)) => r == Err(ImagerException(cause))
              case Err(OtherThrowable(message)) => r == Err(Propagated(message))
              case Ok(_) => r.Ok?
  {
    match mime
    case NoMimeType => Err(MimeTypeNotString)
    case MimeThrew(message) => Err(Propagated(message))
    case MimeType(t) => Measure(source, transform, allowUpscale, fileSize, Some(t), probe, getCropSize)
    case InvalidConfig => Measure(source, transform, allowUpscale, fileSize, None, probe, getCropSize)
  }

  /** The part of the constructor after the mime type lookup: box, crop and the fields. */
  function Measure(
    source: SourceModel, transform: Transform, allowUpscale: bool,
    fileSize: Option<nat>, mimeType: Option<string>, probe: Option<Dims>, getCropSize: CropSize): Result<NoopImage, ConstructError>
  {
    if probe.None? then
      Err(ProbeFailedWarning)
    else if !ValidBox(probe) then
      Err(ImagerException(RejectedBoxSize(probe.value)))
    else
      match getCropSize(probe.value, transform, allowUpscale)
      case Err(InvalidArgumentException(cause)) => Err(ImagerException(cause))
      case Err(OtherThrowable(message)) => Err(Propagated(message))
      case Ok(crop) =>
        Ok(NoopImage(
             source, source.filePath, source.filename, source.url, source.extension, mimeType,
             crop.width, crop.height,
             if fileSize.Some? then fileSize.value else 0,
             false))
  }

  function GetWidth(m: NoopImage): int
  {
    m.width
  }

  function GetHeight(m: NoopImage): int
  {
    m.height
  }

  /** The width and height a constructed descriptor reports are the crop size of its transform. */
  lemma ReportedSizeIsCrop(
    source: SourceModel, transform: Transform, allowUpscale: bool,
    fileSize: Option<nat>, mime: MimeLookup, probe: Option<Dims>, getCropSize: CropSize)
    requires Construct(source, transform, allowUpscale, fileSize, mime, probe, getCropSize).Ok?
    ensures var m := Construct(source, transform, allowUpscale, fileSize, mime, probe, getCropSize).value;
            getCropSize(probe.value, transform, allowUpscale) == Ok(Dims(GetWidth(m), GetHeight(m)))
  {
  }

  /** A mime lookup that fails with InvalidConfigException changes nothing but the mime type:
      the same descriptor is built, with the field left unset, or the same error is raised. */
  lemma MimeConfigFailureIsCosmetic(
    source: SourceModel, transform: Transform, allowUpscale: bool,
    fileSize: Option<nat>, mimeType: string, probe: Option<Dims>, getCropSize: CropSize)
    ensures var found := Construct(source, transform, allowUpscale, fileSize, MimeType(mimeType), probe, getCropSize);
            var unset := Construct(source, transform, allowUpscale, fileSize, InvalidConfig, probe, getCropSize);
            && (found.Ok? <==> unset.Ok?)
            && (found.Ok? ==> unset.value == found.value.(mimeType := None))
            && (found.Err? ==> unset == found)
  {
  }

  // ---------------------------------------------------------------------------
  // Size in a unit
  // ---------------------------------------------------------------------------

  /** `getSize` returns the raw integer for its default unit and a float for a scaled one. */
  datatype Number = IntNumber(i: int) | FloatNumber(f: real)

  /** The power of 1024 a unit selects, matched after lower-casing; other units select none. */
  function UnitExponent(unit: string): Option<nat>
  {
    var u := ToLower(unit);
    if u == "k" || u == "kb" then Some(1)
    else if u == "m" || u == "mb" then Some(2)
    else if u == "g" || u == "gb" then Some(3)
    else None
  }

  function Pow1024(e: nat): nat
  {
    if e == 0 then 1 else 1024 * Pow1024(e - 1)
  }

  /** The file size in a unit; `getSize`'s rounding to `precision` decimals is not modelled. */
  function GetSize(m: NoopImage, unit: string): (r: Number)
    ensures r.IntNumber? <==> UnitExponent(unit).None?
    ensures r.IntNumber? ==> r.i == m.size
    ensures r.FloatNumber? ==> r.f * (Pow1024(UnitExponent(unit).value) as real) == m.size as real
    ensures r.FloatNumber? ==> 0.0 <= r.f <= m.size as real
  {
    match UnitExponent(unit)
    case None => IntNumber(m.size)
    case Some(e) =>
      if e == 1 then FloatNumber(m.size as real / 1024.0)
      else if e == 2 then FloatNumber(m.size as real / 1024.0 / 1024.0)
      else FloatNumber(m.size as real / 1024.0 / 1024.0 / 1024.0)
  }

  /** Units that agree after lower-casing give the same size. */
  lemma GetSizeIgnoresCase(m: NoopImage, u1: string, u2: string)
    requires ToLower(u1) == ToLower(u2)
    ensures GetSize(m, u1) == GetSize(m, u2)
  {
  }

  /** The default unit, in either case, returns the size unscaled. */
  lemma ByteUnitIsRaw(m: NoopImage)
    ensures GetSize(m, "b") == IntNumber(m.size) && GetSize(m, "B") == IntNumber(m.size)
  {
  }

  /** Exactly six spellings select kilobytes: `k` and `kb` in any mix of cases. */
  lemma KilobyteSpellings(unit: string)
    ensures UnitExponent(unit) == Some(1) <==> unit in {"k", "K", "kb", "kB", "Kb", "KB"}
  {
    ToLowerMatches(unit, "k");
    ToLowerMatches(unit, "kb");
    if ToLower(unit) == "kb" {
      assert unit == [unit[0], unit[1]];
    } else if ToLower(unit) == "k" {
      assert unit == [unit[0]];
    }
  }

  /** Exactly six spellings select megabytes: `m` and `mb` in any mix of cases. */
  lemma MegabyteSpellings(unit: string)
    ensures UnitExponent(unit) == Some(2) <==> unit in {"m", "M", "mb", "mB", "Mb", "MB"}
  {
    ToLowerMatches(unit, "m");
    ToLowerMatches(unit, "mb");
    if ToLower(unit) == "mb" {
      assert unit == [unit[0], unit[1]];
    } else if ToLower(unit) == "m" {
      assert unit == [unit[0]];
    }
  }

  /** Exactly six spellings select gigabytes: `g` and `gb` in any mix of cases. */
  lemma GigabyteSpellings(unit: string)
    ensures UnitExponent(unit) == Some(3) <==> unit in {"g", "G", "gb", "gB", "Gb", "GB"}
  {
    ToLowerMatches(unit, "g");
    ToLowerMatches(unit, "gb");
    if ToLower(unit) == "gb" {
      assert unit == [unit[0], unit[1]];
    } else if ToLower(unit) == "g" {
      assert unit == [unit[0]];
    }
  }

  // ---------------------------------------------------------------------------
  // Data URI
  // ---------------------------------------------------------------------------

  const DataUriPrefix: string := "data:image/"
  const Base64Marker: string := ";base64,"

  /** The data URI of the descriptor; `base64` is the base64 encoding of the file's contents. */
  function DataUri(m: NoopImage, base64: string): (uri: string)
    ensures |uri| == |DataUriPrefix| + |m.extension| + |Base64Marker| + |base64|
    ensures uri[..|DataUriPrefix|] == DataUriPrefix
    ensures uri[|uri| - |base64|..] == base64
  {
    DataUriPrefix + m.extension + Base64Marker + base64
  }

  /** The position of the first `c` in `s`, if any. */
  function IndexOf(s: string, c: char): (r: Option<nat>)
    ensures r.None? <==> c !in s
    ensures r.Some? ==> r.value < |s| && s[r.value] == c && c !in s[..r.value]
  {
    if s == [] then None
    else if s[0] == c then Some(0)
    else match IndexOf(s[1..], c)
      case None => None
      case Some(j) => Some(j + 1)
  }

  /** Reads a data URI back into its extension and its payload: the extension runs up to the
      first `;`, which must open the base64 marker. */
  function ParseDataUri(uri: string): Option<(string, string)>
  {
    if |uri| < |DataUriPrefix| || uri[..|DataUriPrefix|] != DataUriPrefix then None
    else
      var rest := uri[|DataUriPrefix|..];
      match IndexOf(rest, ';')
      case None => None
      case Some(j) =>
        if |rest| - j < |Base64Marker| || rest[j..j + |Base64Marker|] != Base64Marker then None
        else Some((rest[..j], rest[j + |Base64Marker|..]))
  }

  /** The data URI gives back its extension and payload, for every extension without a `;`. */
  lemma DataUriRoundTrip(m: NoopImage, base64: string)
    requires ';' !in m.extension
    ensures ParseDataUri(DataUri(m, base64)) == Some((m.extension, base64))
  {
    var uri := DataUri(m, base64);
    var rest := uri[|DataUriPrefix|..];
    assert rest == m.extension + Base64Marker + base64;
    var j := IndexOf(rest, ';');
    assert rest[|m.extension|] == ';';
    assert j == Some(|m.extension|);
    assert rest[|m.extension|..|m.extension| + |Base64Marker|] == Base64Marker;
    assert rest[..|m.extension|] == m.extension;
    assert rest[|m.extension| + |Base64Marker|..] == base64;
  }

  /** Whatever the parser accepts is the data URI of what it returns. */
  lemma ParsedDataUriIsExact(uri: string, extension: string, base64: string)
    requires ParseDataUri(uri) == Some((extension, base64))
    ensures ';' !in extension
    ensures uri == DataUriPrefix + extension + Base64Marker + base64
  {
  }
}
