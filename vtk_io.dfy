/** The dispatch of `cs530/utils/vtk_io.py`: which reader `read_vtk_file` builds for a file
    name, which writer `save_vtk_file` uses, and which extension `saveVTK_XML` gives a
    dataset. Readers and writers are described by their class, the file name they are
    given and how their input is attached; the reading and writing themselves are not
    modelled. */
module VtkIo {
  import opened Wrappers
  import opened PyStr
  import opened VtkKinds

  /** The exceptions the module raises: `TypeError` for an unknown read extension,
      `ValueError` for an unknown save extension, the `TypeError` of calling the writer
      helper without its dataset argument, and the `NameError` of the undefined `saveVTK`. */
  datatype IoError =
    | UnknownReadExtension(ext: string)
    | UnknownSaveExtension(ext: string)
    | MissingWriterArgument
    | UndefinedSave

  /** A reader as built: its class and its `file_name`. */
  datatype Reader = Reader(kind: ReaderKind, fileName: string)

  /** A writer as configured by `__write`: its class, its `file_name` and the input it is fed. */
  datatype Writer = Writer(kind: WriterKind, fileName: string, input: VtkObject, link: Link)

  /** `replace_extension(filename, newext)`: the stem of the name followed by `newext`. */
  function ReplaceExtension(filename: string, newext: string): (r: string)
    ensures |r| == |SplitExt(filename).0| + |newext|
    ensures r[..|SplitExt(filename).0|] == SplitExt(filename).0
    ensures r[|SplitExt(filename).0|..] == newext
  {
    SplitExt(filename).0 + newext
  }

  /** For a new extension `.e` the result splits into the old stem and `.e`, provided the
      stem's last component has a character other than a dot, which holds whenever the old
      name had an extension. */
  lemma ReplaceExtensionSplits(filename: string, e: string)
    requires '.' !in e && '/' !in e
    requires BaseHasNonDot(SplitExt(filename).0)
    ensures SplitExt(ReplaceExtension(filename, "." + e)) == (SplitExt(filename).0, "." + e)
  {
    var stem := SplitExt(filename).0;
    assert ReplaceExtension(filename, "." + e) == stem + "." + e;
    SplitExtAppend(stem, e);
  }

  /** The extension `read_vtk_file` and `save_vtk_file` dispatch on: the last extension,
      lower-cased. */
  function LoweredExt(filename: string): (ext: string)
    ensures ext == Lower(SplitExt(filename).1)
  {
    Lower(SplitExt(filename).1)
  }

  /** The reader table, on a lower-cased extension. */
  function ReaderFor(ext: string): (r: Option<ReaderKind>)
    ensures r.Some? <==> ext in {".vtk", ".vti", ".vtu", ".vtp", ".vtr", ".jpg", ".jpeg",
                                 ".png", ".tif", ".tiff", ".nrrd", ".nhdr", ".csv"}
    ensures r == Some(DataSetReader) <==> ext == ".vtk"
    ensures r == Some(JpegReader) <==> ext == ".jpg" || ext == ".jpeg"
    ensures r == Some(TiffReader) <==> ext == ".tif" || ext == ".tiff"
    ensures r == Some(NrrdReader) <==> ext == ".nrrd" || ext == ".nhdr"
  {
    if ext == ".vtk" then Some(DataSetReader)
    else if ext == ".vti" then Some(XmlImageDataReader)
    else if ext == ".vtu" then Some(XmlUnstructuredGridReader)
    else if ext == ".vtp" then Some(XmlPolyDataReader)
    else if ext == ".vtr" then Some(XmlRectilinearGridReader)
    else if ext == ".jpg" || ext == ".jpeg" then Some(JpegReader)
    else if ext == ".png" then Some(PngReader)
    else if ext == ".tif" || ext == ".tiff" then Some(TiffReader)
    else if ext == ".nrrd" || ext == ".nhdr" then Some(NrrdReader)
    else if ext == ".csv" then Some(DelimitedTextReader)
    else None
  }

  /** `read_vtk_file(filename)`: the reader for the lower-cased extension, given the
      original name; a `TypeError` naming the lower-cased extension otherwise. */
  function ReadVtkFile(filename: string): (r: Result<Reader, IoError>)
    ensures r.Success? <==> ReaderFor(LoweredExt(filename)).Some?
    ensures r.Success? ==> r.value == Reader(ReaderFor(LoweredExt(filename)).value, filename)
    ensures r.Failure? ==> r.error == UnknownReadExtension(LoweredExt(filename))
  {
    match ReaderFor(LoweredExt(filename))
    case Some(kind) => Success(Reader(kind, filename))
    case None => Failure(UnknownReadExtension(LoweredExt(filename)))
  }

  /** The extension decides the reader whatever its case: a name and its lower-cased
      form get the same reader class. */
  lemma ReadIgnoresCase(filename: string)
    ensures ReadVtkFile(Lower(filename)).Success? == ReadVtkFile(filename).Success?
    ensures ReadVtkFile(filename).Success? ==>
      ReadVtkFile(Lower(filename)).value.kind == ReadVtkFile(filename).value.kind
  {
    SplitExtLower(filename);
    LowerIdempotent(SplitExt(filename).1);
  }

  /** Structured grids cannot be read back: `.vts` has no reader, whatever its case. */
  lemma StructuredGridUnreadable(stem: string)
    requires BaseHasNonDot(stem)
    ensures ReadVtkFile(stem + ".vts").Failure?
    ensures ReadVtkFile(stem + ".VTS") == Failure(UnknownReadExtension(".vts"))
  {
    SplitExtWith(stem, ".vts");
    SplitExtWith(stem, ".VTS");
    LowerVts();
  }

  lemma LowerVts()
    ensures Lower(".VTS") == ".vts" && Lower(".vts") == ".vts"
  {
  }

  /** `__write(writer_type, input, filename)`: a writer named `filename` that is fed
      through the input's output port when the input is an algorithm, and with the input
      as data otherwise. */
  function Write(kind: WriterKind, input: VtkObject, filename: string): (w: Writer)
    ensures w.kind == kind && w.fileName == filename && w.input == input
    ensures w.link == ByConnection <==> IsAlgorithm(input)
  {
    Writer(kind, filename, input, InputLink(input))
  }

  /** The dataset formats of `save_vtk_file`, on a lower-cased extension. */
  function DatasetWriterFor(ext: string): (r: Option<WriterKind>)
    ensures r.Some? <==> ext in {".vtk", ".vti", ".vtu", ".vtp", ".vts", ".vtr"}
    ensures r == Some(DataSetWriter) <==> ext == ".vtk"
  {
    if ext == ".vtk" then Some(DataSetWriter)
    else if ext == ".vti" then Some(XmlImageDataWriter)
    else if ext == ".vtu" then Some(XmlUnstructuredGridWriter)
    else if ext == ".vtp" then Some(XmlPolyDataWriter)
    else if ext == ".vts" then Some(XmlStructuredGridWriter)
    else if ext == ".vtr" then Some(XmlRectilinearGridWriter)
    else None
  }

  /** The image and table extensions of `save_vtk_file`: their branches call the writer
      helper without the dataset, so they raise before any writer is made. */
  predicate ImageExtension(ext: string)
  {
    ext in {".jpg", ".jpeg", ".png", ".tif", ".tiff", ".csv"}
  }

  /** `save_vtk_file(dataset, filename)`: a dataset format writes the dataset under the
      given name; an image or table format raises for the missing argument; any other
      extension raises `ValueError`. */
  function SaveVtkFile(dataset: VtkObject, filename: string): (r: Result<Writer, IoError>)
    ensures r.Success? <==> DatasetWriterFor(LoweredExt(filename)).Some?
    ensures r.Success? ==> r.value == Write(DatasetWriterFor(LoweredExt(filename)).value, dataset, filename)
    ensures r == Failure(MissingWriterArgument) <==> ImageExtension(LoweredExt(filename))
    ensures r.Failure? && !ImageExtension(LoweredExt(filename)) ==>
      r.error == UnknownSaveExtension(LoweredExt(filename))
  {
    var ext := LoweredExt(filename);
    match DatasetWriterFor(ext)
    case Some(kind) => Success(Write(kind, dataset, filename))
    case None =>
      if ImageExtension(ext) then Failure(MissingWriterArgument)
      else Failure(UnknownSaveExtension(ext))
  }

  /** No image or table format can be saved through `save_vtk_file`. */
  lemma ImagesNeverSave(dataset: VtkObject, stem: string, e: string)
    requires BaseHasNonDot(stem)
    requires e in {"jpg", "jpeg", "png", "tif", "tiff", "csv", "JPG", "PNG"}
    ensures SaveVtkFile(dataset, stem + "." + e) == Failure(MissingWriterArgument)
  {
    SplitExtAppend(stem, e);
    assert LoweredExt(stem + "." + e) == Lower("." + e);
    LowerImageExtension(e);
  }

  lemma LowerImageExtension(e: string)
    requires e in {"jpg", "jpeg", "png", "tif", "tiff", "csv", "JPG", "PNG"}
    ensures ImageExtension(Lower("." + e))
  {
    if e == "JPG" {
      assert "." + e == ".JPG";
      assert Lower(".JPG") == ".jpg";
    } else if e == "PNG" {
      assert "." + e == ".PNG";
      assert Lower(".PNG") == ".png";
    } else {
      assert forall k :: 0 <= k < |e| ==> 'a' <= e[k] <= 'z';
      assert Lower("." + e) == "." + e;
      if e == "jpg" { assert "." + e == ".jpg"; }
      else if e == "jpeg" { assert "." + e == ".jpeg"; }
      else if e == "png" { assert "." + e == ".png"; }
      else if e == "tif" { assert "." + e == ".tif"; }
      else if e == "tiff" { assert "." + e == ".tiff"; }
      else { assert "." + e == ".csv"; }
    }
  }

  /** The extension `saveVTK_XML` chooses for a dataset by its class. */
  function XmlExtension(dataset: VtkObject): (ext: string)
    ensures ext in {".vti", ".vtu", ".vtp", ".vtr", ".vts", ".vtk"}
    ensures ext == ".vtk" <==> !dataset.Data? || dataset.kind.OtherPointSet? || dataset.kind.NotDataSet?
  {
    if dataset.Data? && dataset.kind.ImageData? then ".vti"
    else if dataset.Data? && dataset.kind.UnstructuredGrid? then ".vtu"
    else if dataset.Data? && dataset.kind.PolyData? then ".vtp"
    else if dataset.Data? && dataset.kind.RectilinearGrid? then ".vtr"
    else if dataset.Data? && dataset.kind.StructuredGrid? then ".vts"
    else ".vtk"
  }

  /** The writer class that matches a dataset's class. */
  function WriterForData(dataset: VtkObject): WriterKind
  {
    if !dataset.Data? then DataSetWriter
    else match dataset.kind
      case ImageData => XmlImageDataWriter
      case UnstructuredGrid => XmlUnstructuredGridWriter
      case PolyData => XmlPolyDataWriter
      case RectilinearGrid => XmlRectilinearGridWriter
      case StructuredGrid => XmlStructuredGridWriter
      case _ => DataSetWriter
  }

  /** `saveVTK_XML(dataset, filename)`: the name it computes (the stem with the extension
      for the dataset's class) and its outcome, the `NameError` of the undefined `saveVTK`
      that it calls last. */
  function SaveVtkXml(dataset: VtkObject, filename: string): (r: (string, Outcome<IoError>))
    ensures r.0 == ReplaceExtension(filename, XmlExtension(dataset))
    ensures r.1 == Fail(UndefinedSave)
  {
    (ReplaceExtension(filename, XmlExtension(dataset)), Fail(UndefinedSave))
  }

  /** The chosen extensions are all lower case. */
  lemma XmlExtensionLower(dataset: VtkObject)
    ensures Lower(XmlExtension(dataset)) == XmlExtension(dataset)
  {
    var ext := XmlExtension(dataset);
    if ext == ".vti" { assert Lower(".vti") == ".vti"; }
    else if ext == ".vtu" { assert Lower(".vtu") == ".vtu"; }
    else if ext == ".vtp" { assert Lower(".vtp") == ".vtp"; }
    else if ext == ".vtr" { assert Lower(".vtr") == ".vtr"; }
    else if ext == ".vts" { assert Lower(".vts") == ".vts"; }
    else { assert Lower(".vtk") == ".vtk"; }
  }

  /** The name `saveVTK_XML` computes has, lower-cased, exactly the extension it chose. */
  lemma XmlNameExtension(dataset: VtkObject, filename: string)
    requires BaseHasNonDot(SplitExt(filename).0)
    ensures LoweredExt(SaveVtkXml(dataset, filename).0) == XmlExtension(dataset)
  {
    var ext := XmlExtension(dataset);
    assert "." + ext[1..] == ext;
    assert '.' !in ext[1..] && '/' !in ext[1..];
    ReplaceExtensionSplits(filename, ext[1..]);
    XmlExtensionLower(dataset);
  }

  /** The extension chosen for a class selects, in `save_vtk_file`, the writer for that class. */
  lemma XmlExtensionWriter(dataset: VtkObject)
    ensures DatasetWriterFor(XmlExtension(dataset)) == Some(WriterForData(dataset))
  {
  }

  /** The name `saveVTK_XML` computes is one `save_vtk_file` accepts, and it picks the writer
      matching the dataset's class, fed as `__write` feeds it. */
  lemma XmlNameSaves(dataset: VtkObject, filename: string)
    requires BaseHasNonDot(SplitExt(filename).0)
    ensures var name := SaveVtkXml(dataset, filename).0;
      SaveVtkFile(dataset, name) == Success(Write(WriterForData(dataset), dataset, name))
  {
    XmlNameExtension(dataset, filename);
    XmlExtensionWriter(dataset);
  }

  /** Reading back what `saveVTK_XML` names succeeds for every class except the structured
      grid, whose `.vts` has no reader. */
  lemma XmlNameReads(dataset: VtkObject, filename: string)
    requires BaseHasNonDot(SplitExt(filename).0)
    ensures ReadVtkFile(SaveVtkXml(dataset, filename).0).Success? <==>
      !(dataset.Data? && dataset.kind.StructuredGrid?)
  {
    XmlNameExtension(dataset, filename);
    XmlExtensionReader(dataset);
  }

  lemma XmlExtensionReader(dataset: VtkObject)
    ensures ReaderFor(XmlExtension(dataset)).Some? <==> !(dataset.Data? && dataset.kind.StructuredGrid?)
  {
  }
}
