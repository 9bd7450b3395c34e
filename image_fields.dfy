/**
 * `ExtendedImageField`: an image field that checks the byte size and the
 * pixel dimensions of an upload and, when a target box is configured, stores
 * a resized copy renamed to PNG.
 */
module ImageFields {
  import opened Wrappers
  import PosixPath

  newtype byte = x: int | 0 <= x < 256

  /**
   * The options `ExtendedImageField.__init__` pops from its keyword arguments,
   * with the same defaults: every bound `None`, `max_upload_size` 0.
   */
  datatype ExtendedImageField = ExtendedImageField(
    width: Option<nat> := None,
    height: Option<nat> := None,
    minWidth: Option<nat> := None,
    maxWidth: Option<nat> := None,
    minHeight: Option<nat> := None,
    maxHeight: Option<nat> := None,
    maxUploadSize: Option<nat> := Some(0))

  /** Python truthiness of an optional integer option: `None` and `0` are false. */
  predicate Truthy(option: Option<nat>) {
    option.Some? && option.value != 0
  }

  /** The outcome of `clean`: the data it returns, or the validation error it raises with the values its message shows. */
  datatype CleanResult<D> =
    | Accepted(data: D)
    | SizeTooLarge(maxUploadSize: nat, size: nat)
    | WidthOutOfRange(minWidth: nat, maxWidth: nat, width: nat)
    | HeightOutOfRange(minHeight: nat, maxHeight: nat, height: nat)

  // Each check stated on its own, as the condition under which it fails.

  predicate SizeExceeded(field: ExtendedImageField, size: Option<nat>) {
    Truthy(field.maxUploadSize) && size.Some? && field.maxUploadSize.value < size.value
  }

  predicate WidthOutside(field: ExtendedImageField, width: nat) {
    Truthy(field.minWidth) && Truthy(field.maxWidth) &&
    (width < field.minWidth.value || field.maxWidth.value < width)
  }

  predicate HeightOutside(field: ExtendedImageField, height: nat) {
    Truthy(field.minHeight) && Truthy(field.maxHeight) &&
    (height < field.minHeight.value || field.maxHeight.value < height)
  }

  /**
   * `clean` after the parent field has parsed the upload into `data`. `size` is
   * the file's `size` attribute (`None` when it has none) and `dimensions` is
   * what `get_image_dimensions` reports. Size, then width, then height.
   */
  function Clean<D>(field: ExtendedImageField, data: D, size: Option<nat>, dimensions: (nat, nat)): (r: CleanResult<D>)
    ensures r.SizeTooLarge? ==>
      Some(r.maxUploadSize) == field.maxUploadSize && size == Some(r.size) && 0 < r.maxUploadSize < r.size
    ensures r.WidthOutOfRange? ==>
      Some(r.minWidth) == field.minWidth && Some(r.maxWidth) == field.maxWidth && r.width == dimensions.0 &&
      0 < r.minWidth && 0 < r.maxWidth && (r.width < r.minWidth || r.maxWidth < r.width)
    ensures r.HeightOutOfRange? ==>
      Some(r.minHeight) == field.minHeight && Some(r.maxHeight) == field.maxHeight && r.height == dimensions.1 &&
      0 < r.minHeight && 0 < r.maxHeight && (r.height < r.minHeight || r.maxHeight < r.height)
    ensures r.Accepted? ==> r.data == data
  {
    var (width, height) := dimensions;
    if Truthy(field.maxUploadSize) && size.Some? && size.value > field.maxUploadSize.value then
      SizeTooLarge(field.maxUploadSize.value, size.value)
    else if Truthy(field.minWidth) && Truthy(field.maxWidth) &&
            !(field.minWidth.value <= width <= field.maxWidth.value) then
      WidthOutOfRange(field.minWidth.value, field.maxWidth.value, width)
    else if Truthy(field.minHeight) && Truthy(field.maxHeight) &&
            !(field.minHeight.value <= height <= field.maxHeight.value) then
      HeightOutOfRange(field.minHeight.value, field.maxHeight.value, height)
    else
      Accepted(data)
  }

  /** With a non-zero limit and a known size, the size error is raised exactly above the limit. */
  lemma SizeErrorExactlyAboveLimit<D>(field: ExtendedImageField, data: D, size: nat, dimensions: (nat, nat))
    requires Truthy(field.maxUploadSize)
    ensures Clean(field, data, Some(size), dimensions).SizeTooLarge? <==> size > field.maxUploadSize.value
    ensures size == field.maxUploadSize.value ==> !Clean(field, data, Some(size), dimensions).SizeTooLarge?
  {
  }

  /** Without a limit (the default 0, or `None`) or without a size, no size error is raised. */
  lemma NoSizeErrorWithoutLimit<D>(field: ExtendedImageField, data: D, size: Option<nat>, dimensions: (nat, nat))
    requires !Truthy(field.maxUploadSize) || size.None?
    ensures !Clean(field, data, size, dimensions).SizeTooLarge?
  {
  }

  /** A size failure decides the result whatever the dimensions. */
  lemma SizeCheckComesFirst<D>(field: ExtendedImageField, data: D, size: Option<nat>, dimensions: (nat, nat), other: (nat, nat))
    requires SizeExceeded(field, size)
    ensures Clean(field, data, size, dimensions) == Clean(field, data, size, other)
    ensures Clean(field, data, size, dimensions) == SizeTooLarge(field.maxUploadSize.value, size.value)
  {
  }

  /**
   * Once the size passes, the width error is raised exactly when both width
   * bounds are set and the width lies outside the inclusive range; in
   * particular it needs both bounds.
   */
  lemma WidthErrorExactlyOutsideRange<D>(field: ExtendedImageField, data: D, size: Option<nat>, dimensions: (nat, nat))
    requires !SizeExceeded(field, size)
    ensures Clean(field, data, size, dimensions).WidthOutOfRange? <==> WidthOutside(field, dimensions.0)
    ensures Clean(field, data, size, dimensions).WidthOutOfRange? ==> Truthy(field.minWidth) && Truthy(field.maxWidth)
  {
  }

  /** Once size and width pass, the height error follows the same rule with the height bounds. */
  lemma HeightErrorExactlyOutsideRange<D>(field: ExtendedImageField, data: D, size: Option<nat>, dimensions: (nat, nat))
    requires !SizeExceeded(field, size) && !WidthOutside(field, dimensions.0)
    ensures Clean(field, data, size, dimensions).HeightOutOfRange? <==> HeightOutside(field, dimensions.1)
  {
  }

  /** A width failure takes precedence over a height failure. */
  lemma WidthCheckBeforeHeight<D>(field: ExtendedImageField, data: D, size: Option<nat>, dimensions: (nat, nat))
    requires !SizeExceeded(field, size) && WidthOutside(field, dimensions.0) && HeightOutside(field, dimensions.1)
    ensures Clean(field, data, size, dimensions).WidthOutOfRange?
  {
  }

  /** `clean` returns its data unchanged exactly when no check fails. */
  lemma AcceptedExactlyWhenAllChecksPass<D>(field: ExtendedImageField, data: D, size: Option<nat>, dimensions: (nat, nat))
    ensures Clean(field, data, size, dimensions) == Accepted(data) <==>
      !SizeExceeded(field, size) && !WidthOutside(field, dimensions.0) && !HeightOutside(field, dimensions.1)
  {
  }

  /** A field built with no options accepts every upload. */
  lemma DefaultFieldAcceptsEverything<D>(data: D, size: Option<nat>, dimensions: (nat, nat))
    ensures Clean(ExtendedImageField(), data, size, dimensions) == Accepted(data)
  {
  }

  /** An uploaded file: its name and the bytes `read()` returns. */
  datatype UploadedFile = UploadedFile(name: string, content: seq<byte>)

  /**
   * The form data handed to `save_form_data`: nothing (`None`), the
   * clear-checkbox `False`, or an uploaded file.
   */
  datatype FormData = NoFile | Cleared | Upload(file: UploadedFile)

  /** Python truthiness of the form data; a Django file is true when its name is non-empty. */
  predicate IsPresent(data: FormData) {
    data.Upload? && data.file.name != ""
  }

  /** The name of the resized file: the upload's basename without its last extension, plus ".png". */
  function PngFileName(uploadName: string): (r: string)
    ensures |r| >= 4 && r[|r| - 4..] == ".png"
    ensures '/' !in r
  {
    var baseName := PosixPath.Split(uploadName).1;
    var stem := PosixPath.SplitExt(baseName).0;
    assert stem == baseName[..|stem|];
    stem + ".png"
  }

  /**
   * What `save_form_data` passes on to the parent field. When the data is
   * present and both `width` and `height` are set, a new file named by
   * `PngFileName` holding `resize(content, (width, height))`; otherwise the
   * data itself. `resize` stands for `resize_image`.
   */
  function SaveFormData(field: ExtendedImageField, data: FormData, resize: (seq<byte>, (nat, nat)) -> seq<byte>): (r: FormData)
    ensures r != data ==> IsPresent(data) && Truthy(field.width) && Truthy(field.height)
  {
    if IsPresent(data) && Truthy(field.width) && Truthy(field.height) then
      var content := resize(data.file.content, (field.width.value, field.height.value));
      var fileName := PngFileName(data.file.name);
      Upload(UploadedFile(fileName, content))
    else
      data
  }

  /** The resize decision: the upload is replaced only when it is present and both target dimensions are set. */
  lemma SaveFormDataResizesExactlyWhenConfigured(field: ExtendedImageField, data: FormData, resize: (seq<byte>, (nat, nat)) -> seq<byte>)
    ensures !(IsPresent(data) && Truthy(field.width) && Truthy(field.height)) ==> SaveFormData(field, data, resize) == data
    ensures IsPresent(data) && Truthy(field.width) && Truthy(field.height) ==>
      var r := SaveFormData(field, data, resize);
      r.Upload? && r.file.content == resize(data.file.content, (field.width.value, field.height.value)) &&
      r.file.name == PngFileName(data.file.name) &&
      r.file.name[|r.file.name| - 4..] == ".png" && '/' !in r.file.name
  {
  }

  /** A field built with no options never resizes. */
  lemma DefaultFieldNeverResizes(data: FormData, resize: (seq<byte>, (nat, nat)) -> seq<byte>)
    ensures SaveFormData(ExtendedImageField(), data, resize) == data
  {
  }

  /**
   * The PNG name keeps the basename of the upload (`Split`'s tail, the text
   * after its last '/') up to its last extension: the basename is the stem
   * followed by either nothing, when it has no extension, or a '.' and text
   * without dots.
   */
  lemma PngFileNameIsStemOfBaseName(uploadName: string)
    ensures var r := PngFileName(uploadName);
      var baseName := PosixPath.Split(uploadName).1;
      var stem := r[..|r| - 4];
      var ext := baseName[|stem|..];
      |stem| <= |baseName| && baseName == stem + ext &&
      (ext == [] <==> !PosixPath.HasExtension(baseName)) &&
      (ext != [] ==> ext[0] == '.' && '.' !in ext[1..])
  {
    var r := PngFileName(uploadName);
    var baseName := PosixPath.Split(uploadName).1;
    var pair := PosixPath.SplitExt(baseName);
    PngFileNameParts(uploadName);
    assert r[..|r| - 4] == pair.0;
    assert baseName[|pair.0|..] == pair.1;
    PosixPath.SplitExtFindsExtension(baseName);
  }

  /** Unfolds `PngFileName` into its two path steps, for the worked cases below. */
  lemma PngFileNameParts(uploadName: string)
    ensures PngFileName(uploadName) == PosixPath.SplitExt(PosixPath.Split(uploadName).1).0 + ".png"
  {
  }

  /** The basename of `dir/base` is `base` when `base` holds no '/'. */
  lemma BaseNameAfterLastSlash(dir: string, base: string)
    requires '/' !in base
    ensures PosixPath.Split(dir + "/" + base).1 == base
  {
    var p := dir + "/" + base;
    assert p[|dir|] == '/';
    forall k | |dir| < k < |p|
      ensures p[k] != '/'
    {
      assert p[k] == base[k - |dir| - 1];
    }
    assert PosixPath.RFind(p, '/') == |dir|;
    assert p[|dir| + 1..] == base;
  }

  /** A name `stem.ext` whose stem holds a non-dot splits into `stem` and `.ext`. */
  lemma StemBeforeLastDot(stem: string, ext: string, k: nat)
    requires '/' !in stem && '/' !in ext && '.' !in ext
    requires k < |stem| && stem[k] != '.'
    ensures PosixPath.SplitExt(stem + "." + ext) == (stem, "." + ext)
  {
    var p := stem + "." + ext;
    forall i | 0 <= i < |p|
      ensures p[i] != '/'
    {
      if i < |stem| { assert p[i] == stem[i]; } else if i > |stem| { assert p[i] == ext[i - |stem| - 1]; }
    }
    forall i | |stem| < i < |p|
      ensures p[i] != '.'
    {
      assert p[i] == ext[i - |stem| - 1];
    }
    assert PosixPath.RFind(p, '/') == -1;
    assert p[|stem|] == '.';
    assert PosixPath.RFind(p, '.') == |stem|;
    assert p[k] == stem[k];
    assert p[..|stem|] == stem && p[|stem|..] == "." + ext;
  }

  /** A name made of dots, one more dot and a dot-free rest has no extension. */
  lemma LeadingDotsAreNoExtension(dots: string, ext: string)
    requires PosixPath.AllCharBetween(dots, 0, |dots|, '.')
    requires '/' !in ext && '.' !in ext
    ensures PosixPath.SplitExt(dots + "." + ext) == (dots + "." + ext, [])
  {
    var p := dots + "." + ext;
    forall i | 0 <= i < |p|
      ensures p[i] != '/'
    {
      if i < |dots| { assert p[i] == dots[i]; } else if i > |dots| { assert p[i] == ext[i - |dots| - 1]; }
    }
    forall i | |dots| < i < |p|
      ensures p[i] != '.'
    {
      assert p[i] == ext[i - |dots| - 1];
    }
    assert PosixPath.RFind(p, '/') == -1;
    assert p[|dots|] == '.';
    assert PosixPath.RFind(p, '.') == |dots|;
    forall i | 0 <= i < |dots|
      ensures p[i] == '.'
    {
      assert p[i] == dots[i];
    }
  }

  /** Worked case: the directory goes and only the last extension is replaced. */
  lemma PngFileNameOfNestedName(uploadName: string)
    requires uploadName == "dir/a.b.jpg"
    ensures PngFileName(uploadName) == "a.b.png"
  {
    var base := uploadName[4..];
    NestedNameBase(uploadName);
    DottedNameStem(base);
    PngFileNameParts(uploadName);
  }

  lemma NestedNameBase(uploadName: string)
    requires uploadName == "dir/a.b.jpg"
    ensures PosixPath.Split(uploadName).1 == "a.b.jpg"
  {
    var dir, base := uploadName[..3], uploadName[4..];
    assert uploadName == dir + "/" + base;
    BaseNameAfterLastSlash(dir, base);
  }

  lemma DottedNameStem(base: string)
    requires base == "a.b.jpg"
    ensures PosixPath.SplitExt(base).0 == "a.b"
  {
    var stem, ext := base[..3], base[4..];
    assert base == stem + "." + ext;
    StemBeforeLastDot(stem, ext, 0);
  }

  /** Worked case: a name whose only dots lead it has no extension. */
  lemma PngFileNameOfDotName(uploadName: string)
    requires uploadName == "..jpg"
    ensures PngFileName(uploadName) == "..jpg.png"
  {
    var dots, ext := uploadName[..1], uploadName[2..];
    assert uploadName == dots + "." + ext;
    assert '/' !in uploadName;
    assert PosixPath.Split(uploadName).1 == uploadName;
    LeadingDotsAreNoExtension(dots, ext);
    PngFileNameParts(uploadName);
  }

  /** Worked case: a name ending in '/' has an empty basename. */
  lemma PngFileNameOfDirectoryName(uploadName: string)
    requires uploadName == "photos/"
    ensures PngFileName(uploadName) == ".png"
  {
    var dir := uploadName[..6];
    assert uploadName == dir + "/" + "";
    BaseNameAfterLastSlash(dir, "");
    PngFileNameParts(uploadName);
  }
}
