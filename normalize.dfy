/** Normalisation of upstream warehouse rows into records with seven fixed
    keys (the dict built for each row and the `norm` loop of
    `fetch_warehouses`). */
module Normalize {
  import opened Json
  import opened Outcomes

  /** The keys of every normalised record. */
  const RecordKeys: set<string> :=
    {"id", "name", "address", "work_time", "accepts_qr", "is_active", "is_transit_active"}

  /** The record built for one upstream row. Every key is present; a source
      field that is absent becomes null. `id` uses Python `or`, so it falls
      back to `id` whenever `ID` is falsy (absent, null, 0, "", ...);
      `accepts_qr` uses `get` with a default, so it falls back to
      `acceptsQr` only when the key `acceptsQR` is absent. */
  function NormalizeRow(row: map<string, Value>): (r: Record)
    ensures r.Keys == RecordKeys
    ensures Truthy(Get(row, "ID")) ==> r["id"] == row["ID"]
    ensures !Truthy(Get(row, "ID")) && "id" in row ==> r["id"] == row["id"]
    ensures !Truthy(Get(row, "ID")) && "id" !in row ==> r["id"] == Null
    ensures "name" in row ==> r["name"] == row["name"]
    ensures "address" in row ==> r["address"] == row["address"]
    ensures "workTime" in row ==> r["work_time"] == row["workTime"]
    ensures "acceptsQR" in row ==> r["accepts_qr"] == row["acceptsQR"]
    ensures "acceptsQR" !in row && "acceptsQr" in row ==> r["accepts_qr"] == row["acceptsQr"]
    ensures "acceptsQR" !in row && "acceptsQr" !in row ==> r["accepts_qr"] == Null
    ensures "isActive" in row ==> r["is_active"] == row["isActive"]
    ensures "isTransitActive" in row ==> r["is_transit_active"] == row["isTransitActive"]
    ensures "name" !in row ==> r["name"] == Null
    ensures "address" !in row ==> r["address"] == Null
    ensures "workTime" !in row ==> r["work_time"] == Null
    ensures "isActive" !in row ==> r["is_active"] == Null
    ensures "isTransitActive" !in row ==> r["is_transit_active"] == Null
  {
    map[
      "id" := Or(Get(row, "ID"), Get(row, "id")),
      "name" := Get(row, "name"),
      "address" := Get(row, "address"),
      "work_time" := Get(row, "workTime"),
      "accepts_qr" := GetOr(row, "acceptsQR", Get(row, "acceptsQr")),
      "is_active" := Get(row, "isActive"),
      "is_transit_active" := Get(row, "isTransitActive")
    ]
  }

  /** All rows of a decoded list, in order. The first element that is not a
      dict stops the run, since `row.get` raises on it. */
  function NormalizeRows(data: seq<Value>): (r: Outcome)
    ensures r.Ok? <==> forall k :: 0 <= k < |data| ==> data[k].Obj?
    ensures r.Fail? ==> r.reason == RowNotObject
    ensures r.Ok? ==> |r.records| == |data|
    ensures r.Ok? ==> forall k :: 0 <= k < |data| ==> r.records[k] == NormalizeRow(data[k].fields)
    decreases |data|
  {
    if data == [] then Ok([])
    else if !data[0].Obj? then Fail(RowNotObject)
    else
      match NormalizeRows(data[1..])
      case Ok(rest) => Ok([NormalizeRow(data[0].fields)] + rest)
      case Fail(e) => Fail(e)
  }

  /** The `norm` loop: append one record per row, in order. */
  method NormalizeAll(data: seq<Value>) returns (outcome: Outcome)
    ensures outcome == NormalizeRows(data)
  {
    var norm: seq<Record> := [];
    for i := 0 to |data|
      invariant |norm| == i
      invariant forall k :: 0 <= k < i ==> data[k].Obj? && norm[k] == NormalizeRow(data[k].fields)
    {
      var row := data[i];
      if !row.Obj? {
        return Fail(RowNotObject);
      }
      norm := norm + [NormalizeRow(row.fields)];
    }
    outcome := Ok(norm);
    assert outcome.records == NormalizeRows(data).records;
  }
}
