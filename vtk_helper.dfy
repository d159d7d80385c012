/** The helpers of `utils/vtk_helper.py`: `connect`, its own `replace_extension` (which
    builds a path, not a dotted name) and the exact-case reader and writer tables of
    `correct_reader` and `correct_writer`. The module's `__all__` names functions before
    they exist, so importing it fails; the functions are modelled one by one. */
module VtkHelper {
  import opened Wrappers
  import opened PyStr
  import opened VtkKinds
  import VtkIo

  /** The exceptions: `connect`'s `TypeError`, and the `IndexError` of `ext[0]` on an
      empty extension. */
  datatype HelperError = InvalidTypes | EmptyExtension

  /** A consumer after `connect`: the object returned and how its input was attached. */
  datatype Wiring = Wiring(consumer: VtkObject, link: Link)

  /** `connect(input, output)`: only an algorithm can be fed, by an algorithm through its
      port or by a dataset as data; the output is returned. */
  function Connect(input: VtkObject, output: VtkObject): (r: Result<Wiring, HelperError>)
    ensures r.Success? <==> IsAlgorithm(output) && (IsAlgorithm(input) || IsDataSet(input))
    ensures r.Success? ==> r.value.consumer == output
    ensures r.Success? ==> (r.value.link == ByConnection <==> IsAlgorithm(input))
    ensures r.Failure? ==> r.error == InvalidTypes
  {
    if IsAlgorithm(input) && IsAlgorithm(output) then Success(Wiring(output, ByConnection))
    else if IsDataSet(input) && IsAlgorithm(output) then Success(Wiring(output, ByData))
    else Failure(InvalidTypes)
  }

  /** Where `connect` succeeds it attaches its input the way the writers of
      `save_vtk_file` attach theirs. */
  lemma ConnectLikeWrite(input: VtkObject, output: VtkObject, kind: WriterKind, filename: string)
    requires Connect(input, output).Success?
    ensures Connect(input, output).value.link == VtkIo.Write(kind, input, filename).link
  {
  }

  /** The extension argument with one leading dot removed. */
  function StripDot(ext: string): (r: string)
    requires |ext| > 0
    ensures ext[0] == '.' ==> "." + r == ext
    ensures ext[0] != '.' ==> r == ext
  {
    if ext[0] == '.' then ext[1..] else ext
  }

  /** `replace_extension(filename, ext)`: `IndexError` for an empty `ext`; otherwise the
      stem joined, as a path, with `ext` stripped of one leading dot. */
  function ReplaceExtension(filename: string, ext: string): (r: Result<string, HelperError>)
    ensures r.Failure? <==> ext == ""
    ensures r.Failure? ==> r.error == EmptyExtension
    ensures r.Success? ==> var e := StripDot(ext);
      |e| <= |r.value| && r.value[|r.value| - |e|..] == e
    ensures r.Success? && SplitExt(filename).0 != "" && (StripDot(ext) == "" || StripDot(ext)[0] != '/') ==>
      r.value == SplitExt(filename).0 + (if SplitExt(filename).0[|SplitExt(filename).0| - 1] == '/' then "" else "/") + StripDot(ext)
  {
    if ext == "" then Failure(EmptyExtension)
    else Success(Join(SplitExt(filename).0, StripDot(ext)))
  }

  /** A new extension with no dot after its first character is joined as a last path
      component without a dot: the rewritten name has no extension at all. */
  lemma ReplacedNameHasNoExtension(filename: string, ext: string)
    requires |ext| > 0 && '.' !in ext[1..]
    ensures SplitExt(ReplaceExtension(filename, ext).value).1 == ""
  {
    var e := StripDot(ext);
    if ext[0] != '.' {
      assert ext == [ext[0]] + ext[1..];
    }
    JoinHasNoExtension(SplitExt(filename).0, e);
  }

  /** The five formats `correct_reader` and `correct_writer` know. */
  datatype Format = Vtk | Vti | Vtu | Vtp | Vtr

  /** The extension table of both functions: the all-lower-case or all-upper-case
      spelling of a format's extension, and nothing else. */
  function ExactFormat(ext: string): (r: Option<Format>)
    ensures r.Some? <==> ext in {".vtk", ".VTK", ".vti", ".VTI", ".vtu", ".VTU", ".vtp", ".VTP", ".vtr", ".VTR"}
  {
    if ext == ".vtk" || ext == ".VTK" then Some(Vtk)
    else if ext == ".vti" || ext == ".VTI" then Some(Vti)
    else if ext == ".vtu" || ext == ".VTU" then Some(Vtu)
    else if ext == ".vtp" || ext == ".VTP" then Some(Vtp)
    else if ext == ".vtr" || ext == ".VTR" then Some(Vtr)
    else None
  }

  function ReaderOf(f: Format): ReaderKind
  {
    match f
    case Vtk => DataSetReader
    case Vti => XmlImageDataReader
    case Vtu => XmlUnstructuredGridReader
    case Vtp => XmlPolyDataReader
    case Vtr => XmlRectilinearGridReader
  }

  function WriterOf(f: Format): WriterKind
  {
    match f
    case Vtk => DataSetWriter
    case Vti => XmlImageDataWriter
    case Vtu => XmlUnstructuredGridWriter
    case Vtp => XmlPolyDataWriter
    case Vtr => XmlRectilinearGridWriter
  }

  /** The table agrees with the case-insensitive one of `read_vtk_file`: every extension it
      knows is one `read_vtk_file` maps to the same reader class. */
  lemma ExactFormatAgreesWithRead(ext: string)
    requires ExactFormat(ext).Some?
    ensures VtkIo.ReaderFor(Lower(ext)) == Some(ReaderOf(ExactFormat(ext).value))
  {
    if ext == ".VTK" { assert Lower(ext) == ".vtk"; }
    else if ext == ".vtk" { assert Lower(ext) == ".vtk"; }
    else if ext == ".VTI" { assert Lower(ext) == ".vti"; }
    else if ext == ".vti" { assert Lower(ext) == ".vti"; }
    else if ext == ".VTU" { assert Lower(ext) == ".vtu"; }
    else if ext == ".vtu" { assert Lower(ext) == ".vtu"; }
    else if ext == ".VTP" { assert Lower(ext) == ".vtp"; }
    else if ext == ".vtp" { assert Lower(ext) == ".vtp"; }
    else if ext == ".VTR" { assert Lower(ext) == ".vtr"; }
    else { assert Lower(ext) == ".vtr"; }
  }

  /** A reader or writer class together with the file name it was given. */
  datatype Configured<K> = Configured(kind: K, fileName: string)

  /** The name both functions look up: the one rewritten by `replace_extension` when `_ext`
      is given. */
  function TargetName(filename: string, ext: Option<string>): (r: Result<string, HelperError>)
    ensures ext.None? ==> r == Success(filename)
    ensures ext.Some? ==> r == ReplaceExtension(filename, ext.value)
  {
    if ext.Some? then ReplaceExtension(filename, ext.value) else Success(filename)
  }

  /** `correct_reader(filename, _ext)`: the reader for an exact-case extension, set to the
      (possibly rewritten) name; None for any other extension. */
  function CorrectReader(filename: string, ext: Option<string>): (r: Result<Option<Configured<ReaderKind>>, HelperError>)
    ensures r.Failure? <==> ext == Some("")
    ensures r.Success? ==> var name := TargetName(filename, ext).value;
      && (r.value.Some? <==> ExactFormat(SplitExt(name).1).Some?)
      && (r.value.Some? ==> r.value.value == Configured(ReaderOf(ExactFormat(SplitExt(name).1).value), name))
  {
    match TargetName(filename, ext)
    case Failure(e) => Failure(e)
    case Success(name) =>
      match ExactFormat(SplitExt(name).1)
      case Some(f) => Success(Some(Configured(ReaderOf(f), name)))
      case None => Success(None)
  }

  /** `correct_writer(filename, _ext)`: the same table and fallback, with writers. */
  function CorrectWriter(filename: string, ext: Option<string>): (r: Result<Option<Configured<WriterKind>>, HelperError>)
    ensures r.Failure? <==> ext == Some("")
    ensures r.Success? ==> var name := TargetName(filename, ext).value;
      && (r.value.Some? <==> ExactFormat(SplitExt(name).1).Some?)
      && (r.value.Some? ==> r.value.value == Configured(WriterOf(ExactFormat(SplitExt(name).1).value), name))
  {
    match TargetName(filename, ext)
    case Failure(e) => Failure(e)
    case Success(name) =>
      match ExactFormat(SplitExt(name).1)
      case Some(f) => Success(Some(Configured(WriterOf(f), name)))
      case None => Success(None)
  }

  /** Giving `_ext` (with at most its leading dot) always ends in None: the rewritten name
      is a path with no extension. */
  lemma WithExtensionNeverMatches(filename: string, ext: string)
    requires |ext| > 0 && '.' !in ext[1..]
    ensures CorrectReader(filename, Some(ext)) == Success(None)
    ensures CorrectWriter(filename, Some(ext)) == Success(None)
  {
    ReplacedNameHasNoExtension(filename, ext);
  }

  /** A mixed-case extension is not recognised here, although `read_vtk_file` reads it. */
  lemma MixedCaseRejected(stem: string)
    requires BaseHasNonDot(stem)
    ensures CorrectReader(stem + ".Vtk", None) == Success(None)
    ensures CorrectWriter(stem + ".Vtk", None) == Success(None)
    ensures VtkIo.ReadVtkFile(stem + ".Vtk") == Success(VtkIo.Reader(DataSetReader, stem + ".Vtk"))
  {
    var name := stem + ".Vtk";
    SplitExtWith(stem, ".Vtk");
    assert ExactFormat(".Vtk") == None;
    LowerVtk();
    assert VtkIo.LoweredExt(name) == ".vtk";
  }

  lemma LowerVtk()
    ensures Lower(".Vtk") == ".vtk"
  {
  }

  /** On a name whose extension is in the exact-case table, `correct_reader` builds the
      reader `read_vtk_file` builds, under the same name. */
  lemma CorrectReaderAgreesWithRead(filename: string)
    requires ExactFormat(SplitExt(filename).1).Some?
    ensures CorrectReader(filename, None).Success? && CorrectReader(filename, None).value.Some?
    ensures var c := CorrectReader(filename, None).value.value;
      VtkIo.ReadVtkFile(filename) == Success(VtkIo.Reader(c.kind, c.fileName))
  {
    ExactFormatAgreesWithRead(SplitExt(filename).1);
  }
}
