/**
 * The filter lookup table of client/src/utils/filters.ts: the filterable
 * columns with their types, the operators each type allows, and the lookups
 * getColumnType and getDefaultOperator.
 */
module Filters {
  import opened Js

  datatype ColumnType = StringType | NumericType

  datatype Column = Column(id: string, caption: string, columnType: ColumnType)

  datatype Operator = Operator(id: string, caption: string)

  /** filterableColumns, in the order the table lists them. */
  const FilterableColumns: seq<Column> := [
    Column("title", "Název", StringType),
    Column("genres", "Žánry", StringType),
    Column("release_date", "Rok vydání", StringType),
    Column("vote_average", "Popularita", NumericType),
    Column("vote_count", "Počet hlasů", NumericType),
    Column("runtime", "Délka (min)", NumericType),
    Column("budget", "Rozpočet", NumericType),
    Column("revenue", "Tržby", NumericType)
  ]

  /** `operators[type]`. */
  function Operators(t: ColumnType): (ops: seq<Operator>)
    ensures |ops| >= 1
  {
    match t
    case StringType => [Operator("contains", "obsahuje"), Operator("eq", "je rovno")]
    case NumericType =>
      [Operator("gte", ">="), Operator("lte", "<="), Operator("eq", "=="), Operator("gt", ">"), Operator("lt", "<")]
  }

  /** The operator ids of a type, in table order. */
  function OperatorIds(t: ColumnType): (ids: seq<string>)
    ensures |ids| == |Operators(t)|
    ensures forall k :: 0 <= k < |ids| ==> ids[k] == Operators(t)[k].id
  {
    seq(|Operators(t)|, k requires 0 <= k < |Operators(t)| => Operators(t)[k].id)
  }

  /** `cols.find(c => c.id === id)`: the first column with that id, if any. */
  function Find(cols: seq<Column>, id: string): (r: Option<Column>)
    ensures r.None? <==> forall k :: 0 <= k < |cols| ==> cols[k].id != id
    ensures r.Some? ==> r.value in cols && r.value.id == id
  {
    if cols == [] then None
    else if cols[0].id == id then Some(cols[0])
    else Find(cols[1..], id)
  }

  /** getColumnType. An unknown id finds no column and the source's optional
      chain yields `undefined`, modelled as None. */
  function GetColumnType(columnId: string): (r: Option<ColumnType>)
    ensures r.Some? <==> exists k :: 0 <= k < |FilterableColumns| && FilterableColumns[k].id == columnId
    ensures r.Some? ==> exists k :: 0 <= k < |FilterableColumns| && FilterableColumns[k].id == columnId &&
                                    FilterableColumns[k].columnType == r.value
  {
    match Find(FilterableColumns, columnId)
    case None => None
    case Some(c) => Some(c.columnType)
  }

  /** getDefaultOperator: the first operator of the column's type. For an
      unknown id `operators[undefined][0]` throws, modelled as None. */
  function GetDefaultOperator(columnId: string): (r: Option<string>)
    ensures r.Some? <==> GetColumnType(columnId).Some?
    ensures r.Some? ==> r.value in OperatorIds(GetColumnType(columnId).value)
  {
    match GetColumnType(columnId)
    case None => None
    case Some(t) => Some(Operators(t)[0].id)
  }

  predicate DistinctIds(cols: seq<Column>)
  {
    forall j, k :: 0 <= j < k < |cols| ==> cols[j].id != cols[k].id
  }

  /** With distinct ids, find returns the one column carrying the id. */
  lemma {:induction false} FindDistinct(cols: seq<Column>, k: nat)
    requires DistinctIds(cols) && k < |cols|
    ensures Find(cols, cols[k].id) == Some(cols[k])
  {
    if k > 0 {
      assert cols[1..][k - 1] == cols[k];
      FindDistinct(cols[1..], k - 1);
    }
  }

  /** The table: eight columns with distinct ids; title, genres and
      release_date are string-typed, the other five numeric. */
  lemma FilterableColumnsTable()
    ensures |FilterableColumns| == 8
    ensures DistinctIds(FilterableColumns)
    ensures forall k :: 0 <= k < 3 ==> FilterableColumns[k].columnType == StringType
    ensures forall k :: 3 <= k < 8 ==> FilterableColumns[k].columnType == NumericType
  {
  }

  /** getColumnType of a listed column is that column's type, and of any other
      id it is undefined. */
  lemma GetColumnTypeOfListed(columnId: string)
    ensures forall k :: 0 <= k < |FilterableColumns| && FilterableColumns[k].id == columnId ==>
              GetColumnType(columnId) == Some(FilterableColumns[k].columnType)
    ensures (forall k :: 0 <= k < |FilterableColumns| ==> FilterableColumns[k].id != columnId) ==>
              GetColumnType(columnId) == None
  {
    FilterableColumnsTable();
    forall k | 0 <= k < |FilterableColumns| && FilterableColumns[k].id == columnId
      ensures GetColumnType(columnId) == Some(FilterableColumns[k].columnType)
    {
      FindDistinct(FilterableColumns, k);
    }
  }

  /** The operator lists, in the order the table gives them. */
  lemma OperatorTable()
    ensures OperatorIds(StringType) == ["contains", "eq"]
    ensures OperatorIds(NumericType) == ["gte", "lte", "eq", "gt", "lt"]
  {
  }

  /** getDefaultOperator is "contains" for every string column and "gte" for
      every numeric column, and it is always one of the operators of the
      column's own type. */
  lemma DefaultOperatorByType(c: Column)
    requires c in FilterableColumns
    ensures c.columnType == StringType ==> GetDefaultOperator(c.id) == Some("contains")
    ensures c.columnType == NumericType ==> GetDefaultOperator(c.id) == Some("gte")
    ensures GetDefaultOperator(c.id).Some? && GetDefaultOperator(c.id).value in OperatorIds(c.columnType)
  {
    var k :| 0 <= k < |FilterableColumns| && FilterableColumns[k] == c;
    GetColumnTypeOfListed(c.id);
    assert OperatorIds(c.columnType)[0] == Operators(c.columnType)[0].id;
  }

  /** "eq" is allowed for both column types; "contains" only for strings. */
  lemma OperatorsPerType()
    ensures "eq" in OperatorIds(StringType) && "eq" in OperatorIds(NumericType)
    ensures "contains" in OperatorIds(StringType) && "contains" !in OperatorIds(NumericType)
  {
    OperatorTable();
  }
}
