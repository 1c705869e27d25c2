/** Turning an image source into a data-API file (src/image/mod.rs).

    A local source is staged: it is uploaded into the temporary directory
    under a fresh name, `<token>.<ext>` when the name comes from the sniffed
    format and `<token>-<file name>` when it comes from a path. A source that
    already lives on the platform is used where it is.

    The fresh token (`Uuid::new_v4().simple()`) is a parameter; format
    sniffing, `Path::file_name`, opening a file and uploading it are the
    fields of an `Env`. */
module Image {
  import opened Wrappers
  import opened Errors
  import opened Platform

  /** The formats the image crate can sniff. */
  datatype ImageFormat = PNG | JPEG | GIF | WEBP | PPM | TIFF | TGA | BMP | ICO | HDR

  predicate IsLowerAlpha(s: string) {
    forall i :: 0 <= i < |s| ==> 'a' <= s[i] <= 'z'
  }

  /** The file extension a staged upload of each format gets. */
  function GetExt(format: ImageFormat): (ext: string)
    ensures 0 < |ext| && IsLowerAlpha(ext)
  {
    match format
    case PNG => "png"
    case JPEG => "jpeg"
    case GIF => "gif"
    case WEBP => "webp"
    case PPM => "ppm"
    case TIFF => "tiff"
    case TGA => "tga"
    case BMP => "bmp"
    case ICO => "ico"
    case HDR => "hdr"
  }

  /** The format an extension stands for, if any. */
  function FormatOfExt(ext: string): (r: Option<ImageFormat>)
    ensures r.Some? ==> GetExt(r.value) == ext
  {
    if ext == "png" then Some(PNG)
    else if ext == "jpeg" then Some(JPEG)
    else if ext == "gif" then Some(GIF)
    else if ext == "webp" then Some(WEBP)
    else if ext == "ppm" then Some(PPM)
    else if ext == "tiff" then Some(TIFF)
    else if ext == "tga" then Some(TGA)
    else if ext == "bmp" then Some(BMP)
    else if ext == "ico" then Some(ICO)
    else if ext == "hdr" then Some(HDR)
    else None
  }

  /** Every format's extension reads back as that format. */
  lemma GetExtRoundTrip(format: ImageFormat)
    ensures FormatOfExt(GetExt(format)) == Some(format)
  {
  }

  /** Distinct formats never share an extension. */
  lemma GetExtInjective(a: ImageFormat, b: ImageFormat)
    ensures GetExt(a) == GetExt(b) ==> a == b
  {
    GetExtRoundTrip(a);
    GetExtRoundTrip(b);
  }

  predicate IsHexDigit(c: char) {
    '0' <= c <= '9' || 'a' <= c <= 'f'
  }

  /** The "simple" rendering of a UUID: 32 lower-case hex digits. */
  predicate IsSimpleUuid(s: string) {
    |s| == 32 && forall i :: 0 <= i < |s| ==> IsHexDigit(s[i])
  }

  type SimpleUuid = s: string | IsSimpleUuid(s) witness "00000000000000000000000000000000"

  /** The two shapes of a staged file name. */
  datatype StagingName =
    | ByFormat(token: SimpleUuid, format: ImageFormat)
    | ByFileName(token: SimpleUuid, fileName: string)

  /** The file name a staged upload gets: `<token>.<ext>` or `<token>-<name>`. */
  function RenderName(n: StagingName): (s: string)
    ensures |s| > 32 && s[..32] == n.token
    ensures s[32] == (if n.ByFormat? then '.' else '-')
    ensures n.ByFormat? ==> s[33..] == GetExt(n.format)
    ensures n.ByFileName? ==> s[33..] == n.fileName
  {
    match n
    case ByFormat(token, format) => token + "." + GetExt(format)
    case ByFileName(token, name) => token + "-" + name
  }

  /** Reads a staged file name back into its parts. */
  function ParseName(s: string): (r: Option<StagingName>)
    ensures r.Some? ==> RenderName(r.value) == s
  {
    if |s| < 33 || !IsSimpleUuid(s[..32]) then None
    else
      var token: SimpleUuid := s[..32];
      assert s == token + [s[32]] + s[33..];
      if s[32] == '.' then
        match FormatOfExt(s[33..])
        case Some(format) => Some(ByFormat(token, format))
        case None => None
      else if s[32] == '-' then Some(ByFileName(token, s[33..]))
      else None
  }

  /** Every staged name parses back to the token and format or file name it
      was built from. */
  lemma ParseRenderName(n: StagingName)
    ensures ParseName(RenderName(n)) == Some(n)
  {
    var s := RenderName(n);
    assert s[..32] == n.token;
    if n.ByFormat? {
      GetExtRoundTrip(n.format);
    }
  }

  /** Two staged names coincide only when they were built from the same
      parts: the two naming rules never produce the same name. */
  lemma RenderNameInjective(a: StagingName, b: StagingName)
    ensures RenderName(a) == RenderName(b) ==> a == b
  {
    ParseRenderName(a);
    ParseRenderName(b);
  }

  /** A path, and an open file: its contents and the reader's position. */
  datatype Path = Path(text: string)
  datatype OpenFile = OpenFile(data: seq<byte>, pos: nat)

  /** The bytes a reader at `f.pos` still has to deliver. */
  function Remaining(f: OpenFile): seq<byte> {
    if f.pos < |f.data| then f.data[f.pos..] else []
  }

  /** `read_to_end`: everything from the current position, leaving the
      reader at the end of the file. */
  function ReadToEnd(f: OpenFile): (r: (seq<byte>, OpenFile))
    ensures r.0 == Remaining(f)
    ensures r.1.data == f.data && Remaining(r.1) == []
  {
    (Remaining(f), OpenFile(f.data, if f.pos < |f.data| then |f.data| else f.pos))
  }

  /** The kinds of source `ImageInterop` is implemented for. */
  datatype Source =
    | FromFile(file: OpenFile)
    | FromPath(path: Path)
    | FromDataFileRef(dataFile: DataFile)
    | FromDataFile(dataFile: DataFile)

  /** What resolving a source needs from outside: format sniffing
      (`guess_format`), `Path::file_name` (lossily converted), opening and
      reading a file, and uploading bytes to a data file (`DataFile::put`). */
  datatype Env = Env(
    sniff: seq<byte> -> Result<ImageFormat>,
    fileName: Path -> Option<string>,
    open: Path -> Result<seq<byte>>,
    put: (DataFile, seq<byte>) -> Result<()>)

  /** What resolution does before any upload: either upload `body` to
      `target`, or use an existing file. */
  datatype Staging = Upload(target: DataFile, body: seq<byte>) | Existing(file: DataFile)

  /** Staging of an open file, as the crate intends it: the bytes read for
      sniffing are the bytes uploaded, under `<token>.<ext>`. */
  function StageFile(f: OpenFile, token: SimpleUuid, env: Env): (r: Result<Staging>)
    ensures env.sniff(Remaining(f)).Err? ==> r == Err(env.sniff(Remaining(f)).error)
    ensures env.sniff(Remaining(f)).Ok? ==>
      r == Ok(Upload(TmpChild(RenderName(ByFormat(token, env.sniff(Remaining(f)).value))), Remaining(f)))
  {
    var (buf, _) := ReadToEnd(f);
    match env.sniff(buf)
    case Err(e) => Err(e)
    case Ok(format) => Ok(Upload(TmpChild(RenderName(ByFormat(token, format))), buf))
  }

  /** Staging of an open file as the source writes it: the handle is read to
      the end for sniffing, and that same, exhausted handle is then uploaded. */
  function StageFileAsWritten(f: OpenFile, token: SimpleUuid, env: Env): (r: Result<Staging>)
    ensures r.Ok? ==> r.value.Upload? && r.value.body == []
    ensures r.Ok? <==> StageFile(f, token, env).Ok?
    ensures r.Ok? ==> r.value.target == StageFile(f, token, env).value.target
    ensures r.Ok? ==> r.value.target == TmpChild(RenderName(ByFormat(token, env.sniff(Remaining(f)).value)))
    ensures r.Err? ==> r == StageFile(f, token, env) == Err(env.sniff(Remaining(f)).error)
  {
    var (buf, rest) := ReadToEnd(f);
    match env.sniff(buf)
    case Err(e) => Err(e)
    case Ok(format) => Ok(Upload(TmpChild(RenderName(ByFormat(token, format))), Remaining(rest)))
  }

  /** The discrepancy: a freshly opened, non-empty image is staged with no
      content at all, where the intended staging uploads all of it. */
  lemma AsWrittenUploadsNothing(data: seq<byte>, token: SimpleUuid, env: Env)
    requires |data| > 0 && env.sniff(data).Ok?
    ensures StageFile(OpenFile(data, 0), token, env).value.body == data
    ensures StageFileAsWritten(OpenFile(data, 0), token, env).value.body != data
  {
    assert Remaining(OpenFile(data, 0)) == data;
  }

  /** Everything `into_data_file` does before its upload. */
  function Stage(src: Source, token: SimpleUuid, env: Env): (r: Result<Staging>)
    ensures src.FromFile? ==> r == StageFile(src.file, token, env)
    ensures src.FromDataFile? ==> r == Ok(Existing(src.dataFile))
    ensures src.FromDataFileRef? ==> r.Ok? && r.value.Existing? && r.value.file.uri == src.dataFile.uri
    ensures src.FromPath? && env.open(src.path).Err? ==> r == Err(env.open(src.path).error)
    ensures src.FromPath? && env.open(src.path).Ok? && env.fileName(src.path).Some? ==>
      r == Ok(Upload(TmpChild(RenderName(ByFileName(token, env.fileName(src.path).value))), env.open(src.path).value))
    ensures src.FromPath? && env.open(src.path).Ok? && env.fileName(src.path).None? ==>
      r == StageFile(OpenFile(env.open(src.path).value, 0), token, env)
  {
    match src
    case FromFile(f) => StageFile(f, token, env)
    case FromPath(p) =>
      (match env.fileName(p)
       case None =>
         (match env.open(p)
          case Err(e) => Err(e)
          case Ok(data) => StageFile(OpenFile(data, 0), token, env))
       case Some(name) =>
         (match env.open(p)
          case Err(e) => Err(e)
          case Ok(data) => Ok(Upload(TmpChild(RenderName(ByFileName(token, name))), data))))
    case FromDataFileRef(d) => Ok(Existing(ClientFile(d.uri)))
    case FromDataFile(d) => Ok(Existing(d))
  }

  /** Carries out a staging: uploads when asked to, and yields the file. */
  function Commit(s: Staging, env: Env): (r: Result<DataFile>)
    ensures s.Existing? ==> r == Ok(s.file)
    ensures s.Upload? ==> (r.Ok? <==> env.put(s.target, s.body).Ok?)
    ensures s.Upload? && r.Ok? ==> r.value == s.target
    ensures s.Upload? && r.Err? ==> r.error == env.put(s.target, s.body).error
  {
    match s
    case Existing(d) => Ok(d)
    case Upload(target, body) =>
      (match env.put(target, body)
       case Err(e) => Err(e)
       case Ok(_) => Ok(target))
  }

  /** `into_data_file`. A local source ends up in the staging directory under
      a name carrying the token; a data file is kept or rebound in place. */
  function IntoDataFile(src: Source, token: SimpleUuid, env: Env): (r: Result<DataFile>)
    ensures src.FromDataFile? ==> r == Ok(src.dataFile)
    ensures src.FromDataFileRef? ==> r.Ok? && r.value.uri == src.dataFile.uri
    ensures Stage(src, token, env).Err? ==> r == Err(Stage(src, token, env).error)
    ensures Stage(src, token, env).Ok? && Stage(src, token, env).value.Upload? ==>
      var s := Stage(src, token, env).value;
      && (r.Ok? <==> env.put(s.target, s.body).Ok?)
      && (r.Ok? ==> r.value == s.target)
      && (r.Err? ==> r.error == env.put(s.target, s.body).error)
    ensures r.Ok? && (src.FromFile? || src.FromPath?) ==>
      TmpChildName(r.value).Some? &&
      ParseName(TmpChildName(r.value).value).Some? &&
      ParseName(TmpChildName(r.value).value).value.token == token
  {
    match Stage(src, token, env)
    case Err(e) => Err(e)
    case Ok(s) =>
      var r := Commit(s, env);
      if r.Ok? && s.Upload? then
        StagedFileNamed(s, token, env, src);
        r
      else r
  }

  lemma StagedFileNamed(s: Staging, token: SimpleUuid, env: Env, src: Source)
    requires Stage(src, token, env) == Ok(s) && s.Upload?
    ensures TmpChildName(s.target).Some?
    ensures ParseName(TmpChildName(s.target).value).Some?
    ensures ParseName(TmpChildName(s.target).value).value.token == token
  {
    assert exists n: StagingName :: n.token == token && s.target == TmpChild(RenderName(n));
    var n: StagingName :| n.token == token && s.target == TmpChild(RenderName(n));
    TmpChildNameRoundTrip(RenderName(n));
    ParseRenderName(n);
  }

  /** A file is staged as `<token>.<ext>` after the format sniffed from its bytes. */
  lemma FileStagedByFormat(f: OpenFile, token: SimpleUuid, env: Env)
    requires env.sniff(Remaining(f)).Ok?
    ensures var r := IntoDataFile(FromFile(f), token, env);
      r.Ok? ==> TmpChildName(r.value) == Some(token + "." + GetExt(env.sniff(Remaining(f)).value))
  {
    TmpChildNameRoundTrip(token + "." + GetExt(env.sniff(Remaining(f)).value));
  }

  /** A path with a file name is staged as `<token>-<file name>`. */
  lemma PathStagedByFileName(p: Path, token: SimpleUuid, env: Env)
    requires env.fileName(p).Some?
    ensures var r := IntoDataFile(FromPath(p), token, env);
      r.Ok? ==> TmpChildName(r.value) == Some(token + "-" + env.fileName(p).value)
  {
    TmpChildNameRoundTrip(token + "-" + env.fileName(p).value);
  }

  /** A path with no file name is resolved exactly like the file it opens. */
  lemma PathWithoutFileNameFallsBack(p: Path, token: SimpleUuid, env: Env)
    requires env.fileName(p).None?
    ensures env.open(p).Err? ==> IntoDataFile(FromPath(p), token, env) == Err(env.open(p).error)
    ensures env.open(p).Ok? ==>
      IntoDataFile(FromPath(p), token, env) == IntoDataFile(FromFile(OpenFile(env.open(p).value, 0)), token, env)
  {
  }

  /** An owned data file resolves to itself whatever the environment: no
      sniffing, no upload. */
  lemma DataFileResolvesToItself(d: DataFile, token: SimpleUuid, env1: Env, env2: Env)
    ensures IntoDataFile(FromDataFile(d), token, env1) == IntoDataFile(FromDataFile(d), token, env2) == Ok(d)
  {
  }

  /** A borrowed data file is rebound to the same location without touching
      the environment. */
  lemma DataFileRefRebinds(d: DataFile, token: SimpleUuid, env1: Env, env2: Env)
    ensures IntoDataFile(FromDataFileRef(d), token, env1) == IntoDataFile(FromDataFileRef(d), token, env2)
    ensures IntoDataFile(FromDataFileRef(d), token, env1) == Ok(ClientFile(d.uri))
  {
  }

  /** A processed image, as handed back to the caller. */
  datatype ImageFile = ImageFile(file: DataFile)
}
