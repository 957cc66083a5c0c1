/** `normalize_row` and the list comprehension in `main` that applies it:
    one raw API record becomes one destination-table row. */
module Normalize {
  import opened Json
  import opened Text
  import opened Numeric

  /** Every raw key that `normalize_row` looks up. */
  const ReadKeys: set<string> := {
    "date", "warehouseID", "warehouseName", "boxTypeID", "coefficient",
    "allowUnload", "storageCoef", "deliveryCoef", "deliveryBaseLiter",
    "deliveryAdditionalLiter", "storageBaseLiter", "storageAdditionalLiter",
    "isSortingCenter"
  }

  /** One row of the destination table: the dict `normalize_row` returns,
      with one field per column (`coeff_date`, `warehouse_id`, ...,
      `is_sorting_center`). The six numeric columns hold `Optional[float]`. */
  datatype Row = Row(
    coeffDate: Value,
    warehouseId: Value,
    warehouseName: Value,
    boxTypeId: Value,
    coefficient: Value,
    allowUnload: Value,
    storageCoef: Option<real>,
    deliveryCoef: Option<real>,
    deliveryBaseLiter: Option<real>,
    deliveryAdditionalLiter: Option<real>,
    storageBaseLiter: Option<real>,
    storageAdditionalLiter: Option<real>,
    isSortingCenter: Value
  )

  /** `coeff_date`: a string holding a 'T' keeps only what precedes its first
      'T'; any other value, a 'T'-less string or a non-string, is kept as it is. */
  function TruncateDate(raw: Value): (d: Value)
    ensures raw.Str? && 'T' in raw.s ==>
      d.Str? && d.s <= raw.s && 'T' !in d.s && raw.s[|d.s|] == 'T'
    ensures !(raw.Str? && 'T' in raw.s) ==> d == raw
  {
    if raw.Str? && 'T' in raw.s then Str(BeforeFirst(raw.s, 'T')) else raw
  }

  /** Truncating a truncated date changes nothing. */
  lemma TruncateDateIdempotent(raw: Value)
    ensures TruncateDate(TruncateDate(raw)) == TruncateDate(raw)
  {
  }

  /** A timestamp `date + "T" + time` whose date part has no 'T' becomes
      exactly its date part. */
  lemma TruncateTimestamp(date: string, time: string)
    requires 'T' !in date
    ensures TruncateDate(Str(date + "T" + time)) == Str(date)
  {
    var s := date + "T" + time;
    assert s[|date|] == 'T';
    var d := TruncateDate(Str(s)).s;
    assert d == s[..|d|] == date;
  }

  /** The shape the supplies API sends: "2024-04-11T00:00:00Z" becomes
      "2024-04-11". */
  lemma TruncateApiExample()
    ensures TruncateDate(Str("2024-04-11T00:00:00Z")) == Str("2024-04-11")
  {
    assert "2024-04-11T00:00:00Z" == "2024-04-11" + "T" + "00:00:00Z";
    TruncateTimestamp("2024-04-11", "00:00:00Z");
  }

  /** `normalize_row(row)`: the row inserted into the table for one record. */
  function NormalizeRow(parse: Parser, row: Record): Row {
    Row(
      coeffDate := TruncateDate(Get(row, "date")),
      warehouseId := Get(row, "warehouseID"),
      warehouseName := Get(row, "warehouseName"),
      boxTypeId := Get(row, "boxTypeID"),
      coefficient := Get(row, "coefficient"),
      allowUnload := Get(row, "allowUnload"),
      storageCoef := SafeToNumeric(parse, Get(row, "storageCoef")),
      deliveryCoef := SafeToNumeric(parse, Get(row, "deliveryCoef")),
      deliveryBaseLiter := SafeToNumeric(parse, Get(row, "deliveryBaseLiter")),
      deliveryAdditionalLiter := SafeToNumeric(parse, Get(row, "deliveryAdditionalLiter")),
      storageBaseLiter := SafeToNumeric(parse, Get(row, "storageBaseLiter")),
      storageAdditionalLiter := SafeToNumeric(parse, Get(row, "storageAdditionalLiter")),
      isSortingCenter := Get(row, "isSortingCenter")
    )
  }

  /** A raw value that is present is copied into its column unchanged. */
  lemma PresentFieldsCopied(parse: Parser, row: Record)
    ensures "warehouseID" in row ==> NormalizeRow(parse, row).warehouseId == row["warehouseID"]
    ensures "warehouseName" in row ==> NormalizeRow(parse, row).warehouseName == row["warehouseName"]
    ensures "boxTypeID" in row ==> NormalizeRow(parse, row).boxTypeId == row["boxTypeID"]
    ensures "coefficient" in row ==> NormalizeRow(parse, row).coefficient == row["coefficient"]
    ensures "allowUnload" in row ==> NormalizeRow(parse, row).allowUnload == row["allowUnload"]
    ensures "isSortingCenter" in row ==> NormalizeRow(parse, row).isSortingCenter == row["isSortingCenter"]
    ensures "date" in row && !(row["date"].Str? && 'T' in row["date"].s) ==>
      NormalizeRow(parse, row).coeffDate == row["date"]
  {
  }

  /** A missing raw key leaves its column `None`, whichever column it is:
      copied, date or numeric (never zero, never `False`). */
  lemma MissingKeysGiveNone(parse: Parser, row: Record)
    ensures "date" !in row ==> NormalizeRow(parse, row).coeffDate == Null
    ensures "warehouseID" !in row ==> NormalizeRow(parse, row).warehouseId == Null
    ensures "warehouseName" !in row ==> NormalizeRow(parse, row).warehouseName == Null
    ensures "boxTypeID" !in row ==> NormalizeRow(parse, row).boxTypeId == Null
    ensures "coefficient" !in row ==> NormalizeRow(parse, row).coefficient == Null
    ensures "allowUnload" !in row ==> NormalizeRow(parse, row).allowUnload == Null
    ensures "storageCoef" !in row ==> NormalizeRow(parse, row).storageCoef == None
    ensures "deliveryCoef" !in row ==> NormalizeRow(parse, row).deliveryCoef == None
    ensures "deliveryBaseLiter" !in row ==> NormalizeRow(parse, row).deliveryBaseLiter == None
    ensures "deliveryAdditionalLiter" !in row ==> NormalizeRow(parse, row).deliveryAdditionalLiter == None
    ensures "storageBaseLiter" !in row ==> NormalizeRow(parse, row).storageBaseLiter == None
    ensures "storageAdditionalLiter" !in row ==> NormalizeRow(parse, row).storageAdditionalLiter == None
    ensures "isSortingCenter" !in row ==> NormalizeRow(parse, row).isSortingCenter == Null
  {
  }

  /** No key outside the thirteen it looks up affects the row: two records
      that agree on those keys normalize alike. */
  lemma NormalizeRowReadsOnly(parse: Parser, row1: Record, row2: Record)
    requires forall key :: key in ReadKeys ==> Get(row1, key) == Get(row2, key)
    ensures NormalizeRow(parse, row1) == NormalizeRow(parse, row2)
  {
  }

  /** `[normalize_row(r) for r in rows]`. `row.get` exists only on dicts, so
      any other element raises and the script stops: that is `None`. */
  function NormalizeAll(parse: Parser, rows: seq<Value>): (r: Option<seq<Row>>)
    ensures r.Some? <==> forall i :: 0 <= i < |rows| ==> rows[i].Obj?
    ensures r.Some? ==> |r.value| == |rows|
    ensures r.Some? ==> forall i :: 0 <= i < |rows| ==> r.value[i] == NormalizeRow(parse, rows[i].fields)
  {
    if rows == [] then Some([])
    else if !rows[0].Obj? then None
    else
      match NormalizeAll(parse, rows[1..])
      case None => None
      case Some(rest) => Some([NormalizeRow(parse, rows[0].fields)] + rest)
  }
}
