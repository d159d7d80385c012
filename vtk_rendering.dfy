/** Two decisions of `cs530/utils/vtk_rendering.py`: the image format and file name
    `take_screenshot` derives, with the writer it picks, and how `make_actor` sets up its
    mapper. The rendering itself is not modelled. */
module VtkRendering {
  import opened Wrappers
  import opened PyStr
  import opened VtkKinds
  import VtkIo
  import VtkHelper

  /** The `ValueError` of an unsupported screenshot format. */
  datatype RenderError = UnsupportedFormat(format: string)

  /** `(format, filename)` after the first lines of `take_screenshot`: a given format is
      kept; otherwise the extension without its dot, or `jpg` with `.jpg` appended to a
      name that has no extension. */
  function ScreenshotTarget(filename: string, format: Option<string>): (r: (string, string))
    ensures format.Some? ==> r == (format.value, filename)
    ensures format.None? && SplitExt(filename).1 != "" ==> "." + r.0 == SplitExt(filename).1 && r.1 == filename
    ensures format.None? && SplitExt(filename).1 == "" ==> r == ("jpg", filename + ".jpg")
  {
    var ext := SplitExt(filename).1;
    if format.None? && ext != "" then (ext[1..], filename)
    else if format.None? then ("jpg", filename + ".jpg")
    else (format.value, filename)
  }

  /** Without an explicit format the name always ends up with the extension of the format
      used, provided a `.jpg` appended to it is recognised as its extension. */
  lemma DerivedFormatMatchesName(filename: string)
    requires SplitExt(filename).1 != "" || BaseHasNonDot(filename)
    ensures var (format, name) := ScreenshotTarget(filename, None);
      SplitExt(name).1 == "." + format
  {
    if SplitExt(filename).1 == "" {
      SplitExtWith(filename, ".jpg");
    }
  }

  /** The writer of the `match` on the format: only these lower-case spellings. */
  function ScreenshotWriter(format: string): (r: Option<WriterKind>)
    ensures r.Some? <==> format in {"png", "jpg", "jpeg", "tif", "tiff", "bmp"}
    ensures r == Some(JpegWriter) <==> format == "jpg" || format == "jpeg"
    ensures r == Some(TiffWriter) <==> format == "tif" || format == "tiff"
    ensures r == Some(PngWriter) <==> format == "png"
    ensures r == Some(BmpWriter) <==> format == "bmp"
  {
    if format == "png" then Some(PngWriter)
    else if format == "jpg" || format == "jpeg" then Some(JpegWriter)
    else if format == "tif" || format == "tiff" then Some(TiffWriter)
    else if format == "bmp" then Some(BmpWriter)
    else None
  }

  /** The writer `take_screenshot` sets up: its class and the file name it writes. */
  datatype Shot = Shot(writer: WriterKind, fileName: string)

  /** `take_screenshot(window, filename, format)`, up to the write: the writer for the
      derived format under the derived name, or the `ValueError` naming that format. */
  function TakeScreenshot(filename: string, format: Option<string>): (r: Result<Shot, RenderError>)
    ensures var (f, name) := ScreenshotTarget(filename, format);
      && (r.Success? <==> ScreenshotWriter(f).Some?)
      && (r.Success? ==> r.value == Shot(ScreenshotWriter(f).value, name))
      && (r.Failure? ==> r.error == UnsupportedFormat(f))
  {
    var (f, name) := ScreenshotTarget(filename, format);
    match ScreenshotWriter(f)
    case Some(w) => Success(Shot(w, name))
    case None => Failure(UnsupportedFormat(f))
  }

  /** A name without an extension is saved as a JPEG under that name plus `.jpg`. */
  lemma DefaultIsJpeg(filename: string)
    requires SplitExt(filename).1 == ""
    ensures TakeScreenshot(filename, None) == Success(Shot(JpegWriter, filename + ".jpg"))
  {
  }

  /** An upper-case extension is refused, although `read_vtk_file` reads the same name. */
  lemma UpperCaseRefused(stem: string)
    requires BaseHasNonDot(stem)
    ensures TakeScreenshot(stem + ".PNG", None) == Failure(UnsupportedFormat("PNG"))
    ensures VtkIo.ReadVtkFile(stem + ".PNG") == Success(VtkIo.Reader(PngReader, stem + ".PNG"))
  {
    var name := stem + ".PNG";
    SplitExtWith(stem, ".PNG");
    assert ".PNG"[1..] == "PNG";
    assert ScreenshotTarget(name, None) == ("PNG", name);
    assert ScreenshotWriter("PNG") == None;
    LowerPng();
    assert VtkIo.LoweredExt(name) == ".png";
    assert VtkIo.ReaderFor(".png") == Some(PngReader);
  }

  lemma LowerPng()
    ensures Lower(".PNG") == ".png"
  {
  }

  /** The mapper `make_actor` uses: the one it was given, or a new dataset mapper. */
  datatype MapperChoice = GivenMapper | NewDataSetMapper

  /** The actor's mapper as `make_actor` leaves it: which mapper, the lookup table it set
      (None: left as it was), scalar visibility, and how the data was attached. */
  datatype ActorSetup<T> = ActorSetup(mapper: MapperChoice, lookupTable: Option<T>, scalarVisibility: bool, link: Link)

  /** `make_actor(data, ctf, show_scalars)`. */
  function MakeActor<T>(data: VtkObject, ctf: Option<T>, showScalars: bool): (a: ActorSetup<T>)
    ensures a.mapper == GivenMapper <==> data.Mapper?
    ensures a.lookupTable == ctf
    ensures a.scalarVisibility <==> ctf.Some? || showScalars
    ensures a.link == ByConnection <==> IsAlgorithm(data)
  {
    var mapper := if data.Mapper? then GivenMapper else NewDataSetMapper;
    var visible := ctf.Some? || showScalars;
    ActorSetup(mapper, ctf, visible, InputLink(data))
  }

  /** A mapper passed in is reused and then, being an algorithm, connected to its own
      output port. */
  lemma GivenMapperFeedsItself<T>(ctf: Option<T>, showScalars: bool)
    ensures MakeActor(Mapper, ctf, showScalars).mapper == GivenMapper
    ensures MakeActor(Mapper, ctf, showScalars).link == ByConnection
  {
  }

  /** For a dataset or an algorithm that is not a mapper, the new mapper is fed exactly as
      `connect` would feed it. */
  lemma ActorFedLikeConnect<T>(data: VtkObject, ctf: Option<T>, showScalars: bool)
    requires IsDataSet(data) || data.Filter?
    ensures MakeActor(data, ctf, showScalars).mapper == NewDataSetMapper
    ensures VtkHelper.Connect(data, Mapper).Success?
    ensures MakeActor(data, ctf, showScalars).link == VtkHelper.Connect(data, Mapper).value.link
  {
  }
}
