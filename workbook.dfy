/** The normalised workbook record the parser builds and the recommender
    reads: one Python dict per entity in the original, one datatype here. */
module Workbook {

  /** The eight shelves of a worksheet record. */
  datatype ShelfRole = Columns | Rows | Color | Size | Shape | Label | Detail | Tooltip
  {
    /** The key of this shelf in the shelves dict. */
    function Key(): string
    {
      match this
      case Columns => "columns"
      case Rows => "rows"
      case Color => "color"
      case Size => "size"
      case Shape => "shape"
      case Label => "label"
      case Detail => "detail"
      case Tooltip => "tooltip"
    }

    /** The shelf's place in the shelf order. */
    function Position(): nat
    {
      match this
      case Columns => 0
      case Rows => 1
      case Color => 2
      case Size => 3
      case Shape => 4
      case Label => 5
      case Detail => 6
      case Tooltip => 7
    }

    /** The `shelf` attribute value that places a field on this shelf. */
    function Token(): string
    {
      match this
      case Columns => "columns-shelf"
      case Rows => "rows-shelf"
      case Color => "color-shelf"
      case Size => "size-shelf"
      case Shape => "shape-shelf"
      case Label => "text-shelf"
      case Detail => "detail-shelf"
      case Tooltip => "tooltip-shelf"
    }
  }

  /** The order in which shelves are filled and listed. */
  const ShelfOrder: seq<ShelfRole> := [Columns, Rows, Color, Size, Shape, Label, Detail, Tooltip]

  type Shelves = map<ShelfRole, seq<string>>


  /** One filter of a worksheet: the filtered column, its class and the
      members of its group filters. */
  datatype Filter = Filter(field: string, kind: string, values: seq<string>)

  /** The `marks` entry of a worksheet; its `encoding` dict is always empty
      and is not represented. */
  datatype Marks = Marks(markType: string)

  /** One worksheet.  `shelves` maps each shelf to the field names placed on
      it; `vizType` is the inferred chart type as a string
      (`"unknown"` when nothing is inferred). */
  datatype Worksheet = Worksheet(
    name: string,
    marks: Marks,
    shelves: Shelves,
    filters: seq<Filter>,
    vizType: string,
    dimensions: seq<string>,
    measures: seq<string>)

  datatype Summary = Summary(
    name: string,
    version: string,
    worksheetCount: nat,
    dashboardCount: nat,
    storyCount: nat)

  /** The `connection` dict of a datasource: empty when the datasource has no
      connection element, else the four attributes. */
  datatype Connection =
    | NoConnection
    | Connection(cls: string, dbname: string, server: string, username: string)

  datatype Column = Column(name: string, dataType: string, role: string, kind: string)

  datatype Datasource = Datasource(name: string, connection: Connection, columns: seq<Column>)

  /** A parsed workbook; `id` stands for the random identifier drawn when the
      workbook was parsed. */
  datatype WorkbookData = WorkbookData(
    id: nat,
    filename: string,
    summary: Summary,
    worksheets: seq<Worksheet>,
    datasources: seq<Datasource>)
}
