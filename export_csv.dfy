/**
 * `ExportChartService.convertToCSV`: the chart's labels and datasets as a
 * comma-separated table, one header line and one line per label, every line ended
 * by a line feed, with no quoting of any kind.
 *
 * JavaScript values are modelled by `JsValue`. A number carries the text that
 * JavaScript's number-to-string conversion gives it, and an object (or array)
 * carries both its `JSON.stringify` text and its `String(...)` text: those two
 * conversions are not modelled, only where they are used.
 */
module ExportCsv {
  import opened Wrappers
  import opened Text

  datatype JsValue =
    | JsUndefined
    | JsNull
    | JsBool(b: bool)
    | JsNumber(text: string)
    | JsString(s: string)
    | JsObject(json: string, text: string)

  /** JavaScript truthiness. A number is falsy when it prints as `0` (which covers
      `-0`) or as `NaN`. */
  predicate Truthy(v: JsValue) {
    match v
    case JsUndefined => false
    case JsNull => false
    case JsBool(b) => b
    case JsNumber(t) => t != "0" && t != "NaN"
    case JsString(s) => s != ""
    case JsObject(_, _) => true
  }

  /** `typeof v === 'object'`: objects, arrays and `null`. */
  predicate IsObjectTyped(v: JsValue) {
    v.JsNull? || v.JsObject?
  }

  /** How `Array.prototype.join` turns one element into text: `undefined` and `null`
      become the empty string, everything else its string conversion. */
  function JoinText(v: JsValue): (r: string)
    ensures v.JsUndefined? || v.JsNull? ==> r == ""
    ensures v.JsString? ==> r == v.s
  {
    match v
    case JsUndefined => ""
    case JsNull => ""
    case JsBool(b) => if b then "true" else "false"
    case JsNumber(t) => t
    case JsString(s) => s
    case JsObject(_, t) => t
  }

  /** One entry of `data.datasets`; `data` is `None` when the dataset has no data array. */
  datatype Dataset = Dataset(labelValue: JsValue, data: Option<seq<JsValue>>)

  /** `chart.data`: `None` stands for a missing (or otherwise falsy) field. */
  datatype ChartValues = ChartValues(labels: Option<seq<JsValue>>, datasets: Option<seq<Dataset>>)

  /** `data.labels || []` */
  function LabelsOf(data: ChartValues): seq<JsValue> {
    data.labels.GetOr([])
  }

  /** `data.datasets || []` */
  function DatasetsOf(data: ChartValues): seq<Dataset> {
    data.datasets.GetOr([])
  }

  /** `ds.label || 'Data'` */
  function HeaderValue(ds: Dataset): (r: JsValue)
    ensures Truthy(r)
    ensures Truthy(ds.labelValue) ==> r == ds.labelValue
    ensures !Truthy(ds.labelValue) ==> r == JsString("Data")
  {
    if Truthy(ds.labelValue) then ds.labelValue else JsString("Data")
  }

  /** `['Label', ...datasets.map(ds => ds.label || 'Data')]` */
  function HeaderValues(datasets: seq<Dataset>): (r: seq<JsValue>)
    ensures |r| == |datasets| + 1
  {
    [JsString("Label")] + seq(|datasets|, k requires 0 <= k < |datasets| => HeaderValue(datasets[k]))
  }

  /** Every dataset has a data array, so `dataset.data[index]` does not throw. */
  predicate HasData(datasets: seq<Dataset>) {
    forall k :: 0 <= k < |datasets| ==> datasets[k].data.Some?
  }

  /** `dataset.data[index]`: `undefined` past the end of the array. */
  function ValueAt(ds: Dataset, index: nat): JsValue
    requires ds.data.Some?
  {
    if index < |ds.data.value| then ds.data.value[index] else JsUndefined
  }

  /** `JSON.stringify` of an object-typed value: `"null"` for `null`. */
  function JsonStringify(v: JsValue): (r: string)
    requires IsObjectTyped(v)
    ensures v.JsNull? ==> r == "null"
    ensures v.JsObject? ==> r == v.json
  {
    if v.JsNull? then "null" else v.json
  }

  /** What is pushed onto the row: the JSON text of object-typed values, the value
      itself otherwise. */
  function Pushed(v: JsValue): JsValue {
    if IsObjectTyped(v) then JsString(JsonStringify(v)) else v
  }

  /** The row for label `index`: the label, then one value per dataset. */
  function RowValues(lbl: JsValue, datasets: seq<Dataset>, index: nat): (r: seq<JsValue>)
    requires HasData(datasets)
    ensures |r| == |datasets| + 1
  {
    [lbl] + seq(|datasets|, k requires 0 <= k < |datasets| => Pushed(ValueAt(datasets[k], index)))
  }

  /** The texts `join` produces for the elements of `values`. */
  function Texts(values: seq<JsValue>): (r: seq<string>)
    ensures |r| == |values|
    ensures forall k :: 0 <= k < |values| ==> r[k] == JoinText(values[k])
  {
    seq(|values|, k requires 0 <= k < |values| => JoinText(values[k]))
  }

  /** `values.join(',')` */
  function Line(values: seq<JsValue>): string {
    Join(Texts(values), ',')
  }

  /** The table of texts the CSV is made of: the header fields, then one row per label. */
  function Table(labels: seq<JsValue>, datasets: seq<Dataset>): (r: seq<seq<string>>)
    requires |labels| == 0 || HasData(datasets)
    ensures |r| == |labels| + 1
  {
    [Texts(HeaderValues(datasets))]
      + seq(|labels|, i requires 0 <= i < |labels| => Texts(RowValues(labels[i], datasets, i)))
  }

  /** The lines of the CSV, without their terminators. */
  function Lines(labels: seq<JsValue>, datasets: seq<Dataset>): (r: seq<string>)
    requires |labels| == 0 || HasData(datasets)
    ensures |r| == |labels| + 1
  {
    [Line(HeaderValues(datasets))]
      + seq(|labels|, i requires 0 <= i < |labels| => Line(RowValues(labels[i], datasets, i)))
  }

  /** The text `convertToCSV` returns, or `None` when it throws: with at least one
      label, a dataset without a data array makes `dataset.data[index]` a TypeError. */
  function Csv(data: ChartValues): Option<string> {
    var labels := LabelsOf(data);
    var datasets := DatasetsOf(data);
    if |labels| > 0 && !HasData(datasets) then None
    else Some(Terminated(Lines(labels, datasets), '\n'))
  }

  method ConvertToCsv(data: ChartValues) returns (r: Option<string>)
    ensures r == Csv(data)
  {
    var labels := LabelsOf(data);
    var datasets := DatasetsOf(data);
    var headers := HeaderValues(datasets);
    var csv := Line(headers) + "\n";
    assert csv == Terminated(Lines(labels[..0], datasets), '\n');
    var index := 0;
    while index < |labels|
      invariant 0 <= index <= |labels|
      invariant index > 0 ==> HasData(datasets)
      invariant csv == Terminated(Lines(labels[..index], datasets), '\n')
    {
      var row := [labels[index]];
      var j := 0;
      while j < |datasets|
        invariant 0 <= j <= |datasets|
        invariant HasData(datasets[..j])
        invariant row == RowValues(labels[index], datasets[..j], index)
      {
        if datasets[j].data.None? {
          // `dataset.data[index]` on a missing array throws
          return None;
        }
        var value := ValueAt(datasets[j], index);
        row := row + [if IsObjectTyped(value) then JsString(JsonStringify(value)) else value];
        RowStep(labels[index], datasets, index, j);
        j := j + 1;
      }
      assert datasets[..j] == datasets;
      LinesStep(labels, datasets, index);
      TerminatedAppend(Lines(labels[..index], datasets), Line(row), '\n');
      csv := csv + Line(row) + "\n";
      index := index + 1;
    }
    assert labels[..index] == labels;
    r := Some(csv);
  }

  lemma RowStep(lbl: JsValue, datasets: seq<Dataset>, index: nat, j: nat)
    requires j < |datasets| && HasData(datasets[..j]) && datasets[j].data.Some?
    ensures HasData(datasets[..j + 1])
    ensures RowValues(lbl, datasets[..j + 1], index)
            == RowValues(lbl, datasets[..j], index) + [Pushed(ValueAt(datasets[j], index))]
  {
    assert forall k :: 0 <= k < j ==> datasets[..j][k] == datasets[..j + 1][k];
    assert datasets[..j + 1][j] == datasets[j];
    var lhs := RowValues(lbl, datasets[..j + 1], index);
    var rhs := RowValues(lbl, datasets[..j], index) + [Pushed(ValueAt(datasets[j], index))];
    assert forall k :: 0 <= k < |lhs| ==> lhs[k] == rhs[k];
  }

  lemma LinesStep(labels: seq<JsValue>, datasets: seq<Dataset>, index: nat)
    requires index < |labels| && HasData(datasets)
    ensures Lines(labels[..index + 1], datasets)
            == Lines(labels[..index], datasets) + [Line(RowValues(labels[index], datasets, index))]
  {
    var lhs := Lines(labels[..index + 1], datasets);
    var rhs := Lines(labels[..index], datasets) + [Line(RowValues(labels[index], datasets, index))];
    forall i | 0 < i < |lhs| ensures lhs[i] == rhs[i] {
      assert labels[..index + 1][i - 1] == labels[i - 1];
      if i < index + 1 {
        assert labels[..index][i - 1] == labels[i - 1];
      }
    }
    assert lhs[0] == rhs[0];
  }

  /** Appending one more terminated line at the end. */
  lemma {:induction false} TerminatedAppend(lines: seq<string>, line: string, sep: char)
    ensures Terminated(lines + [line], sep) == Terminated(lines, sep) + line + [sep]
    decreases |lines|
  {
    if |lines| == 0 {
      assert lines + [line] == [line];
    } else {
      assert (lines + [line])[1..] == lines[1..] + [line];
      TerminatedAppend(lines[1..], line, sep);
    }
  }

  /** No text in the table holds `c`. */
  predicate Avoids(table: seq<seq<string>>, c: char) {
    forall i, k :: 0 <= i < |table| && 0 <= k < |table[i]| ==> c !in table[i][k]
  }

  /** A character in none of the fields and not the separator is not in their join. */
  lemma {:induction false} JoinAvoids(fields: seq<string>, sep: char, c: char)
    requires c != sep
    requires forall k :: 0 <= k < |fields| ==> c !in fields[k]
    ensures c !in Join(fields, sep)
    decreases |fields|
  {
    if |fields| > 1 {
      JoinAvoids(fields[1..], sep, c);
      assert Join(fields, sep) == fields[0] + [sep] + Join(fields[1..], sep);
    }
  }

  /** Each line is its row of the table joined with commas. */
  lemma LinesAreJoinedRows(labels: seq<JsValue>, datasets: seq<Dataset>)
    requires |labels| == 0 || HasData(datasets)
    ensures forall i :: 0 <= i < |labels| + 1 ==>
      Lines(labels, datasets)[i] == Join(Table(labels, datasets)[i], ',')
  {
  }

  /** With no line feed in any text, the output has exactly `labels.length + 1` lines,
      each ended by a line feed: splitting at line feeds gives the lines and an empty
      remainder. */
  lemma CsvLineCount(data: ChartValues)
    requires Csv(data).Some?
    requires Avoids(Table(LabelsOf(data), DatasetsOf(data)), '\n')
    ensures var lines := Lines(LabelsOf(data), DatasetsOf(data));
            && |lines| == |LabelsOf(data)| + 1
            && Split(Csv(data).value, '\n') == lines + [""]
  {
    var labels, datasets := LabelsOf(data), DatasetsOf(data);
    var lines := Lines(labels, datasets);
    var table := Table(labels, datasets);
    forall i | 0 <= i < |lines| ensures '\n' !in lines[i] {
      LinesAreJoinedRows(labels, datasets);
      JoinAvoids(table[i], ',', '\n');
    }
    SplitTerminated(lines, '\n');
  }

  /** With no comma in any text, every line splits back into its row of the table. */
  lemma CsvFields(data: ChartValues, i: nat)
    requires Csv(data).Some? && i <= |LabelsOf(data)|
    requires Avoids(Table(LabelsOf(data), DatasetsOf(data)), ',')
    ensures Split(Lines(LabelsOf(data), DatasetsOf(data))[i], ',') == Table(LabelsOf(data), DatasetsOf(data))[i]
  {
    var table := Table(LabelsOf(data), DatasetsOf(data));
    LinesAreJoinedRows(LabelsOf(data), DatasetsOf(data));
    assert |table[i]| > 0;
    SplitJoin(table[i], ',');
  }

  /** The header row: `Label`, then per dataset, in order, its label when truthy and
      `Data` otherwise. */
  lemma HeaderRow(data: ChartValues)
    requires Csv(data).Some?
    ensures var header := Table(LabelsOf(data), DatasetsOf(data))[0];
            var datasets := DatasetsOf(data);
            && |header| == |datasets| + 1
            && header[0] == "Label"
            && forall k :: 0 <= k < |datasets| ==>
                 header[k + 1] == if Truthy(datasets[k].labelValue) then JoinText(datasets[k].labelValue) else "Data"
  {
  }

  /** Row `i`: the label's text, then per dataset, in order, the text of its `i`-th
      value, with object-typed values in their JSON form. */
  lemma DataRow(data: ChartValues, i: nat)
    requires Csv(data).Some? && i < |LabelsOf(data)|
    ensures var datasets := DatasetsOf(data);
            var row := Table(LabelsOf(data), datasets)[i + 1];
            && HasData(datasets)
            && |row| == |datasets| + 1
            && row[0] == JoinText(LabelsOf(data)[i])
            && forall k :: 0 <= k < |datasets| ==>
                 var v := ValueAt(datasets[k], i);
                 row[k + 1] == (if v.JsNull? then "null" else if v.JsObject? then v.json else JoinText(v))
  {
    var datasets := DatasetsOf(data);
    var row := Table(LabelsOf(data), datasets)[i + 1];
    forall k | 0 <= k < |datasets|
      ensures var v := ValueAt(datasets[k], i);
              row[k + 1] == (if v.JsNull? then "null" else if v.JsObject? then v.json else JoinText(v))
    {
      assert row[k + 1] == JoinText(RowValues(LabelsOf(data)[i], datasets, i)[k + 1]);
    }
  }

  /** A dataset shorter than the labels leaves an empty field: `undefined` joins as "". */
  lemma ShortDatasetField(data: ChartValues, i: nat, k: nat)
    requires Csv(data).Some? && i < |LabelsOf(data)| && k < |DatasetsOf(data)|
    requires DatasetsOf(data)[k].data.Some? && i >= |DatasetsOf(data)[k].data.value|
    ensures Table(LabelsOf(data), DatasetsOf(data))[i + 1][k + 1] == ""
  {
    DataRow(data, i);
  }

  /** Without labels the output is the header line alone. */
  lemma NoLabels(data: ChartValues)
    requires LabelsOf(data) == []
    ensures Csv(data) == Some(Line(HeaderValues(DatasetsOf(data))) + "\n")
  {
    var lines := Lines(LabelsOf(data), DatasetsOf(data));
    assert lines == [Line(HeaderValues(DatasetsOf(data)))];
    assert Terminated(lines, '\n') == lines[0] + "\n" + Terminated([], '\n');
    assert lines[0] + "\n" + "" == lines[0] + "\n";
  }

  /** Without datasets (none configured, or an empty list) the header is `Label` and
      each row is the label alone. */
  lemma NoDatasets(data: ChartValues)
    requires DatasetsOf(data) == []
    ensures Csv(data).Some?
    ensures Lines(LabelsOf(data), [])[0] == "Label"
    ensures forall i :: 0 <= i < |LabelsOf(data)| ==> Lines(LabelsOf(data), [])[i + 1] == JoinText(LabelsOf(data)[i])
  {
    assert Texts(HeaderValues([])) == ["Label"];
    forall i | 0 <= i < |LabelsOf(data)|
      ensures Lines(LabelsOf(data), [])[i + 1] == JoinText(LabelsOf(data)[i])
    {
      assert Texts(RowValues(LabelsOf(data)[i], [], i)) == [JoinText(LabelsOf(data)[i])];
    }
  }

  /** With some label to write, a dataset without a data array makes the export fail. */
  lemma MissingDataThrows(data: ChartValues, k: nat)
    requires |LabelsOf(data)| > 0 && k < |DatasetsOf(data)| && DatasetsOf(data)[k].data.None?
    ensures Csv(data).None?
  {
  }

  /** Nothing is quoted: a label holding a comma comes back as two fields. */
  lemma CommaIsNotQuoted()
    ensures Csv(ChartValues(Some([JsString("a,b")]), None)) == Some("Label\na,b\n")
    ensures Split(Lines([JsString("a,b")], [])[1], ',') == ["a", "b"]
  {
    var labels := [JsString("a,b")];
    NoDatasets(ChartValues(Some(labels), None));
    var lines := Lines(labels, []);
    assert lines == ["Label", "a,b"];
    assert lines[1..] == ["a,b"] && lines[1..][1..] == [];
    assert Terminated(lines, '\n') == "Label" + "\n" + ("a,b" + "\n" + "");
    assert "Label" + "\n" + ("a,b" + "\n" + "") == "Label\na,b\n";
    JoinDoesNotEscape();
  }
}
