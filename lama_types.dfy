/** Messages and table rows of the LaMa map core: the LamaObject message (a vertex
    or an edge of the map graph), the row it is stored as in the core table, the
    DescriptorLink message, and the errors the services raise. */
module LamaTypes {

  /** Values of LamaObject.type; 0 means "not set". */
  const VERTEX: int := 1
  const EDGE: int := 2

  /** A LamaObject message. `references` is a fixed pair on the wire, but a caller can
      hand over any list, so its length is checked where the source checks it. */
  datatype LamaObject = LamaObject(
    id: int,
    idInWorld: int,
    name: string,
    emitterId: int,
    emitterName: string,
    kind: int,
    references: seq<int>)

  /** A freshly constructed message: every integer 0, every string empty, references [0, 0]. */
  const DefaultObject: LamaObject := LamaObject(0, 0, "", 0, "", 0, [0, 0])

  /** A row of the core table without its primary key; references are the columns v0, v1. */
  datatype Row = Row(
    idInWorld: int,
    name: string,
    emitterId: int,
    emitterName: string,
    kind: int,
    v0: int,
    v1: int)

  /** The core table: primary key to row. */
  type Table = map<int, Row>

  /** A row of the descriptor-link table, as handed back in DescriptorLink messages
      (the timestamp columns are not modelled). */
  datatype DescriptorLink = DescriptorLink(objectId: int, descriptorId: int, interfaceName: string)

  datatype Error =
    | MalformedReferences(length: int)
    | ZeroEdgeReference
    | NoSuchObject(id: int)
    | MissingInterfaceName
    | NoSuchInterface(interfaceName: string)
    | NoSuchDescriptor(descriptorId: int)
    | NotAVertex
    | NotAnEdge
    | ActionNotImplemented(action: int)

  datatype Result<T> = Success(value: T) | Failure(error: Error)

  datatype Option<T> = None | Some(value: T)

  /** The row an object is inserted as (the insert arguments of set_lama_object). */
  function RowOf(o: LamaObject): Row
    requires |o.references| == 2
  {
    Row(o.idInWorld, o.name, o.emitterId, o.emitterName, o.kind, o.references[0], o.references[1])
  }

  /** The object a query result row is turned into (_lama_object_from_result). */
  function ObjectOf(id: int, row: Row): LamaObject
  {
    LamaObject(id, row.idInWorld, row.name, row.emitterId, row.emitterName, row.kind, [row.v0, row.v1])
  }

  /** Storing an object and reading its row back gives the object again, field for field. */
  lemma StoredObjectReadsBack(o: LamaObject)
    requires |o.references| == 2
    ensures ObjectOf(o.id, RowOf(o)) == o
  {
  }

  /** Reading a row and storing the object gives the same row. */
  lemma ReadRowStoresBack(id: int, row: Row)
    ensures |ObjectOf(id, row).references| == 2
    ensures RowOf(ObjectOf(id, row)) == row
  {
  }
}
