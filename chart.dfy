/**
 * `Rechart` (src/App.js:476-484): each accident record becomes one row of
 * the line chart. Recharts itself is not modelled; only the rows it is given.
 */
module Chart {
  import opened Accidents

  /** The number of leading characters `substring(9)` drops from `spot_nm`. */
  const NamePrefixLength: nat := 9

  /** One chart row: `name` and the three plotted series. */
  datatype ChartRow = ChartRow(name: string, occurrences: int, seriousInjuries: int, deaths: int)

  /** JavaScript's `s.substring(start)` for a non-negative start. */
  function SubstringFrom(s: string, start: nat): (r: string)
    ensures start >= |s| ==> r == []
    ensures start < |s| ==> |r| == |s| - start && s == s[..start] + r
  {
    if start >= |s| then [] else s[start..]
  }

  /** The row drawn for one record. */
  function ToRow(a: AccidentRecord): (row: ChartRow)
    ensures row.occurrences == a.occurrences
    ensures row.seriousInjuries == a.seriousInjuries
    ensures row.deaths == a.deaths
    ensures |a.spotName| <= NamePrefixLength ==> row.name == []
    ensures |a.spotName| > NamePrefixLength ==> a.spotName == a.spotName[..NamePrefixLength] + row.name
  {
    ChartRow(SubstringFrom(a.spotName, NamePrefixLength), a.occurrences, a.seriousInjuries, a.deaths)
  }

  /** `accidents.map(...)`: one row per record, in the same order. */
  function ChartRows(accidents: seq<AccidentRecord>): (rows: seq<ChartRow>)
    ensures |rows| == |accidents|
    ensures forall i :: 0 <= i < |accidents| ==> rows[i] == ToRow(accidents[i])
    decreases |accidents|
  {
    if accidents == [] then [] else [ToRow(accidents[0])] + ChartRows(accidents[1..])
  }

  /** Reshaping commutes with concatenation: rows of a batch are the rows of its parts. */
  lemma {:induction false} ChartRowsAppend(xs: seq<AccidentRecord>, ys: seq<AccidentRecord>)
    ensures ChartRows(xs + ys) == ChartRows(xs) + ChartRows(ys)
  {
    var l, r := ChartRows(xs + ys), ChartRows(xs) + ChartRows(ys);
    assert |l| == |r|;
    forall i | 0 <= i < |l| ensures l[i] == r[i] {
      if i < |xs| {
        assert (xs + ys)[i] == xs[i];
      } else {
        assert (xs + ys)[i] == ys[i - |xs|];
      }
    }
  }

  /** The series values of the chart are exactly the records' counts, in order. */
  lemma ChartSeriesAreCounts(accidents: seq<AccidentRecord>, i: nat)
    requires i < |accidents|
    ensures ChartRows(accidents)[i].occurrences == accidents[i].occurrences
    ensures ChartRows(accidents)[i].seriousInjuries == accidents[i].seriousInjuries
    ensures ChartRows(accidents)[i].deaths == accidents[i].deaths
    ensures |ChartRows(accidents)[i].name| == if |accidents[i].spotName| > NamePrefixLength then |accidents[i].spotName| - NamePrefixLength else 0
  {
  }
}
