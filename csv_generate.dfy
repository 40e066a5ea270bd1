/**
  CSV record-to-map conversion (src/process/csv_generate.rs). The csv crate's
  tokeniser is not modelled: its output is the header row and the sequence of
  records, each either parsed fields or a parse error.
*/
module CsvGenerate {
  import opened Wrappers

  /** An error reported by the csv crate, opaque here. */
  datatype ParseError = ParseError(message: string)

  datatype CsvError =
    | HeaderError(cause: ParseError)          // `reader.headers()?`
    | RowError(row: nat, cause: ParseError)   // "parse csv row:{row} error", `row` counting the header as line 1

  /** One record as a map from header name to field. */
  type Row = map<string, string>

  /** The field in column `col`, or "" when the record is shorter. */
  function Field(record: seq<string>, col: nat): string {
    if col < |record| then record[col] else ""
  }

  /** The map built by inserting `header_i -> field_i` for each header in turn. */
  function RowMap(headers: seq<string>, record: seq<string>): Row
    decreases |headers|
  {
    if headers == [] then map[]
    else RowMap(headers[..|headers| - 1], record)[headers[|headers| - 1] := Field(record, |headers| - 1)]
  }

  /** A row's keys are exactly the header names. */
  lemma {:induction false} RowMapKeys(headers: seq<string>, record: seq<string>)
    ensures RowMap(headers, record).Keys == set h | h in headers
    decreases |headers|
  {
    if headers != [] {
      var init := headers[..|headers| - 1];
      RowMapKeys(init, record);
      assert headers == init + [headers[|headers| - 1]];
    }
  }

  /**
    The value under a header is the field of its LAST column carrying that
    name: a later duplicate overwrites an earlier one, a missing field reads
    as "", and fields beyond the last header play no part.
  */
  lemma {:induction false} RowMapValue(headers: seq<string>, record: seq<string>, j: nat)
    requires j < |headers|
    requires forall k :: j < k < |headers| ==> headers[k] != headers[j]
    ensures headers[j] in RowMap(headers, record)
    ensures RowMap(headers, record)[headers[j]] == Field(record, j)
    decreases |headers|
  {
    var last := |headers| - 1;
    if j < last {
      var init := headers[..last];
      assert init[j] == headers[j];
      RowMapValue(init, record, j);
    }
  }

  /** Fields beyond the header count are dropped. */
  lemma {:induction false} RowMapDropsExtraFields(headers: seq<string>, record: seq<string>)
    requires |headers| <= |record|
    ensures RowMap(headers, record) == RowMap(headers, record[..|headers|])
    decreases |headers|
  {
    if headers != [] {
      var n := |headers| - 1;
      RowMapDropsExtraFields(headers[..n], record);
      RowMapPrefixOfRecord(headers[..n], record[..|headers|], n);
      assert record[..|headers|][..n] == record[..n];
    }
  }

  /** Only the first |headers| fields of a record are read. */
  lemma {:induction false} RowMapPrefixOfRecord(headers: seq<string>, record: seq<string>, n: nat)
    requires |headers| <= n <= |record|
    ensures RowMap(headers, record) == RowMap(headers, record[..n])
    decreases |headers|
  {
    if headers != [] {
      RowMapPrefixOfRecord(headers[..|headers| - 1], record, n);
    }
  }

  /**
    `read_csv_data`: one map per record, in record order; the first record the
    csv reader fails on aborts the whole read with its row number.
  */
  method ReadCsvData(headers: Result<seq<string>, ParseError>, records: seq<Result<seq<string>, ParseError>>)
    returns (r: Result<seq<Row>, CsvError>)
    ensures headers.Failure? ==> r == Failure(HeaderError(headers.error))
    ensures headers.Success? ==> (r.Success? <==> forall i :: 0 <= i < |records| ==> records[i].Success?)
    ensures r.Success? ==>
      && headers.Success?
      && |r.value| == |records|
      && forall i :: 0 <= i < |records| ==>
           && records[i].Success?
           && r.value[i] == RowMap(headers.value, records[i].value)
           && r.value[i].Keys == set h | h in headers.value
    ensures headers.Success? && r.Failure? ==>
      exists i :: 0 <= i < |records| && records[i].Failure?
        && (forall k :: 0 <= k < i ==> records[k].Success?)
        && r.error == RowError(i + 2, records[i].error)
  {
    var recordList: seq<Row> := [];
    if headers.Failure? {
      return Failure(HeaderError(headers.error));
    }
    var header := headers.value;
    for rowIndex := 0 to |records|
      invariant |recordList| == rowIndex
      invariant forall k :: 0 <= k < rowIndex ==>
        && records[k].Success?
        && recordList[k] == RowMap(header, records[k].value)
        && recordList[k].Keys == set h | h in header
    {
      if records[rowIndex].Failure? {
        return Failure(RowError(rowIndex + 2, records[rowIndex].error));
      }
      var record := records[rowIndex].value;
      var row: Row := map[];
      for colIndex := 0 to |header|
        invariant row == RowMap(header[..colIndex], record)
      {
        assert header[..colIndex + 1][..colIndex] == header[..colIndex];
        if colIndex < |record| {
          row := row[header[colIndex] := record[colIndex]];
        } else {
          row := row[header[colIndex] := ""];
        }
      }
      assert header[..|header|] == header;
      RowMapKeys(header, record);
      recordList := recordList + [row];
    }
    r := Success(recordList);
  }

  /** `process_toml`'s root: a single key, `tomlKey`, bound to the whole record list. */
  function TomlRoot(recordList: seq<Row>, tomlKey: string): (root: map<string, seq<Row>>)
    ensures root.Keys == {tomlKey}
    ensures root[tomlKey] == recordList
  {
    map[tomlKey := recordList]
  }
}
