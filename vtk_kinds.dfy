/** Closed sets of the VTK classes that the modelled code tells apart with `isinstance`
    checks or constructs by name. VTK itself is not modelled: an object is known here
    only by the class it belongs to. */
module VtkKinds {

  /** Data objects by class. `vtkPolyData`, `vtkUnstructuredGrid` and
      `vtkStructuredGrid` are `vtkPointSet` subclasses, as is any `OtherPointSet`;
      `vtkStructuredPoints` and `vtkUniformGrid` are `ImageData`; `NotDataSet` stands
      for data objects that are not a `vtkDataSet` (a table, a composite dataset). */
  datatype DataKind =
    | ImageData
    | RectilinearGrid
    | StructuredGrid
    | UnstructuredGrid
    | PolyData
    | OtherPointSet
    | NotDataSet

  /** `isinstance(d, vtk.vtkPointSet)`: the kinds with explicit point coordinates. */
  predicate IsPointSet(k: DataKind)
  {
    k.StructuredGrid? || k.UnstructuredGrid? || k.PolyData? || k.OtherPointSet?
  }

  /** A VTK object by what the code asks of it. A mapper is also a `vtkAlgorithm`. */
  datatype VtkObject =
    | Data(kind: DataKind)
    | Filter    // any vtkAlgorithm that is not a mapper: a source, a filter, a reader
    | Mapper
    | Other     // anything else (a renderer, a plain Python value)

  /** `isinstance(o, vtk.vtkAlgorithm)`. */
  predicate IsAlgorithm(o: VtkObject)
  {
    o.Filter? || o.Mapper?
  }

  /** `isinstance(o, vtk.vtkDataSet)`. */
  predicate IsDataSet(o: VtkObject)
  {
    o.Data? && o.kind != NotDataSet
  }

  /** How a consumer is fed: through the producer's output port, or with the data itself. */
  datatype Link = ByConnection | ByData

  /** The dispatch shared by the writers, `connect` and `make_actor`: an algorithm is
      connected through its output port, anything else is handed over as data. */
  function InputLink(input: VtkObject): (l: Link)
    ensures l == ByConnection <==> IsAlgorithm(input)
  {
    if IsAlgorithm(input) then ByConnection else ByData
  }

  /** The reader classes the modelled code instantiates. */
  datatype ReaderKind =
    | DataSetReader
    | XmlImageDataReader
    | XmlUnstructuredGridReader
    | XmlPolyDataReader
    | XmlRectilinearGridReader
    | JpegReader
    | PngReader
    | TiffReader
    | NrrdReader
    | DelimitedTextReader

  /** The writer classes the modelled code instantiates. */
  datatype WriterKind =
    | DataSetWriter
    | XmlImageDataWriter
    | XmlUnstructuredGridWriter
    | XmlPolyDataWriter
    | XmlStructuredGridWriter
    | XmlRectilinearGridWriter
    | JpegWriter
    | PngWriter
    | TiffWriter
    | BmpWriter
    | DelimitedTextWriter
}
