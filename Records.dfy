/** The uploaded file as the handler sees it: the suffix-based choice of
    decoder and the decoded records. The decoders themselves (csv-parse and
    SheetJS) are not modelled; what they return for the uploaded bytes is an
    input, a function from the chosen format to its outcome. */
module Records {
  import opened Text

  /** The two decoding paths. */
  datatype Format = DelimitedText | Spreadsheet

  /** Which decoder a file name selects, after lower-casing it (None: the
      suffix is not supported and nothing is decoded). */
  function SelectFormat(filename: string): (r: Option<Format>)
    ensures r == Some(DelimitedText) <==>
              EndsWith(ToLower(filename), ".csv") || EndsWith(ToLower(filename), ".txt")
    ensures r == Some(Spreadsheet) <==>
              !EndsWith(ToLower(filename), ".csv") && !EndsWith(ToLower(filename), ".txt") &&
              (EndsWith(ToLower(filename), ".xlsx") || EndsWith(ToLower(filename), ".xls"))
    ensures r == None <==>
              !EndsWith(ToLower(filename), ".csv") && !EndsWith(ToLower(filename), ".txt") &&
              !EndsWith(ToLower(filename), ".xlsx") && !EndsWith(ToLower(filename), ".xls")
  {
    var name := ToLower(filename);
    if EndsWith(name, ".csv") || EndsWith(name, ".txt") then Some(DelimitedText)
    else if EndsWith(name, ".xlsx") || EndsWith(name, ".xls") then Some(Spreadsheet)
    else None
  }

  /** The suffix test ignores letter case: a name and its lower-cased
      spelling select the same decoder. */
  lemma {:induction false} SelectFormatIgnoresCase(filename: string)
    ensures SelectFormat(ToLower(filename)) == SelectFormat(filename)
  {
    ToLowerIdempotent(filename);
  }

  datatype Option<T> = None | Some(value: T)

  /** One property of a decoded record: a column header and its cell text. */
  datatype Field = Field(key: string, value: string)

  /** A decoded record, its properties in `Object.keys` order. */
  type Row = seq<Field>

  /** `Object.keys(row)`. */
  function Keys(row: Row): (ks: seq<string>)
    ensures |ks| == |row|
    ensures forall i :: 0 <= i < |row| ==> ks[i] == row[i].key
  {
    if row == [] then [] else [row[0].key] + Keys(row[1..])
  }

  /** `row[key]`: the cell under `key`, None when the record has no such
      property. */
  function Lookup(row: Row, key: string): (r: Option<string>)
    ensures r.None? <==> key !in Keys(row)
    ensures r.Some? ==> exists i :: 0 <= i < |row| && row[i] == Field(key, r.value)
  {
    if row == [] then None
    else if row[0].key == key then Some(row[0].value)
    else
      assert Keys(row) == [row[0].key] + Keys(row[1..]);
      var r := Lookup(row[1..], key);
      if r.Some? then
        var i :| 0 <= i < |row[1..]| && row[1..][i] == Field(key, r.value);
        assert row[i + 1] == Field(key, r.value);
        r
      else r
  }

  /** JavaScript truthiness of a cell: present and not the empty string. */
  predicate Present(cell: Option<string>) {
    cell.Some? && cell.value != ""
  }

  /** What the selected decoder made of the uploaded bytes. */
  datatype Decoded = Parsed(records: seq<Row>) | ParseError(message: string)
}
