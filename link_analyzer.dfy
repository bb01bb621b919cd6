/** The link analyzer page: a batch form whose text area holds one
    marketplace link per line, the analysis request it sends, and the CSV
    export of the returned results. How numbers are rendered (`String(n)`
    and `toFixed(2)`) is passed in as two functions. */
module LinkAnalyzer {
  import opened Wrappers
  import opened Types
  import Text
  import Platform

  datatype BatchForm = BatchForm(links: string, cost: real, taxRate: real, extraCosts: real)

  datatype AnalysisResult = AnalysisResult(
    link: string, productName: string, cost: real, marketPrice: real, suggestedPrice: real,
    netMargin: real, roi: real, competition: CompetitionLevel, recommendation: Recommendation,
    aiJustification: string)

  /** The body of the analysis request. */
  datatype AnalyzeRequest = AnalyzeRequest(links: seq<string>, cost: real, taxRate: real, extraCosts: real)

  const NO_VALID_LINK: string := "Adicione pelo menos um link válido"
  const ANALYZE_ERROR: string := "Erro ao analisar links"
  const ANALYZED_SUFFIX: string := " produtos analisados!"
  const NOTHING_TO_EXPORT: string := "Nenhum resultado para exportar"
  const EXPORTED: string := "Resultados exportados!"

  /** `batchSchema`: a non-empty links text, a non-negative cost and extra
      costs, a tax rate between 0 and 100. */
  predicate BatchSchemaValid(f: BatchForm)
  {
    |f.links| >= 1 && f.cost >= 0.0 && 0.0 <= f.taxRate <= 100.0 && f.extraCosts >= 0.0
  }

  /** A text of blank lines passes the schema's non-empty check yet yields no
      link, so the page reports it instead of sending a request. */
  lemma BlankTextPassesSchemaWithoutLinks()
    ensures BatchSchemaValid(BatchForm(" \n ", 0.0, 0.0, 0.0))
    ensures Text.NonBlankLines(" \n ") == []
  {
    assert Text.Join([" ", " "], '\n') == " \n ";
    Text.SplitJoin([" ", " "], '\n');
    assert Text.IsBlank(" ");
    Text.NonBlankEmptyIffAllBlank([" ", " "]);
  }

  class LinkAnalyzerPage {
    var isAnalyzing: bool
    var results: seq<AnalysisResult>
    var requests: seq<AnalyzeRequest>
    var toasts: seq<Platform.Toast>

    constructor ()
      ensures !isAnalyzing && results == [] && requests == [] && toasts == []
    {
      isAnalyzing := false;
      results := [];
      requests := [];
      toasts := [];
    }

    /** Submitting the batch form: an invalid form is stopped by the schema
        and changes nothing; otherwise `onAnalyzeBatch` runs, with
        `response` the settled analysis request. The results are cleared
        first; with no valid link an error is shown and no request is made;
        the success message counts the links sent. `isAnalyzing` is off
        again in every case. */
    method SubmitBatch(data: BatchForm, response: Result<seq<AnalysisResult>, Thrown>)
      modifies this
      ensures !BatchSchemaValid(data) ==> unchanged(this)
      ensures BatchSchemaValid(data) && Text.NonBlankLines(data.links) == [] ==>
                && results == [] && !isAnalyzing && requests == old(requests)
                && toasts == old(toasts) + [Platform.ToastError(NO_VALID_LINK)]
      ensures BatchSchemaValid(data) && Text.NonBlankLines(data.links) != [] ==>
                && !isAnalyzing
                && requests == old(requests) +
                     [AnalyzeRequest(Text.NonBlankLines(data.links), data.cost, data.taxRate, data.extraCosts)]
                && results == (if response.Success? then response.value else [])
                && toasts == old(toasts) +
                     [if response.Success?
                      then Platform.ToastSuccess(Text.NatToDecimal(|Text.NonBlankLines(data.links)|) + ANALYZED_SUFFIX)
                      else Platform.ToastError(ANALYZE_ERROR)]
    {
      if !BatchSchemaValid(data) {
        return;
      }
      isAnalyzing := true;
      results := [];
      var links := Text.NonBlankLines(data.links);
      if |links| == 0 {
        toasts := toasts + [Platform.ToastError(NO_VALID_LINK)];
        isAnalyzing := false;
        return;
      }
      requests := requests + [AnalyzeRequest(links, data.cost, data.taxRate, data.extraCosts)];
      if response.Success? {
        results := response.value;
        toasts := toasts + [Platform.ToastSuccess(Text.NatToDecimal(|links|) + ANALYZED_SUFFIX)];
      } else {
        toasts := toasts + [Platform.ToastError(ANALYZE_ERROR)];
      }
      isAnalyzing := false;
    }
  }

  const HEADERS: seq<string> :=
    ["Link", "Produto", "Custo", "Preço ML", "Preço Sugerido", "Margem %", "ROI %",
     "Concorrência", "Recomendação", "Justificativa"]

  /** `"${s}"`: wrapped in double quotes, nothing inside escaped. */
  function Quote(s: string): string
  {
    "\"" + s + "\""
  }

  /** The ten cells of a result's row, in column order. */
  function Fields(r: AnalysisResult, show: real -> string, fixed2: real -> string): (cells: seq<string>)
    ensures |cells| == |HEADERS|
  {
    [r.link, Quote(r.productName), show(r.cost), show(r.marketPrice), show(r.suggestedPrice),
     fixed2(r.netMargin), fixed2(r.roi), CompetitionName(r.competition),
     RecommendationName(r.recommendation), Quote(r.aiJustification)]
  }

  function Row(r: AnalysisResult, show: real -> string, fixed2: real -> string): string
  {
    Text.Join(Fields(r, show, fixed2), ',')
  }

  function Rows(results: seq<AnalysisResult>, show: real -> string, fixed2: real -> string): (rows: seq<string>)
    ensures |rows| == |results|
    ensures forall i :: 0 <= i < |results| ==> rows[i] == Row(results[i], show, fixed2)
  {
    seq(|results|, i requires 0 <= i < |results| => Row(results[i], show, fixed2))
  }

  /** `handleExport`: the file's text, or none when there is nothing to
      export, and the message shown. */
  datatype Export = Export(csv: Option<string>, toast: Platform.Toast)

  function HandleExport(results: seq<AnalysisResult>, show: real -> string, fixed2: real -> string): (e: Export)
    ensures e.csv.None? <==> results == []
    ensures results == [] ==> e.toast == Platform.ToastError(NOTHING_TO_EXPORT)
    ensures results != [] ==> e.toast == Platform.ToastSuccess(EXPORTED)
  {
    if |results| == 0 then Export(None, Platform.ToastError(NOTHING_TO_EXPORT))
    else
      var csv := Text.Join([Text.Join(HEADERS, ',')] + Rows(results, show, fixed2), '\n');
      Export(Some(csv), Platform.ToastSuccess(EXPORTED))
  }

  /** No cell of the result holds `c`. */
  predicate CellsFree(r: AnalysisResult, show: real -> string, fixed2: real -> string, c: char)
  {
    forall i :: 0 <= i < |HEADERS| ==> c !in Fields(r, show, fixed2)[i]
  }

  lemma HeaderIsOneLine()
    ensures '\n' !in Text.Join(HEADERS, ',')
  {
    forall i | 0 <= i < |HEADERS| ensures '\n' !in HEADERS[i] {
    }
    Text.JoinExcludes(HEADERS, ',', '\n');
  }

  lemma RowIsOneLine(r: AnalysisResult, show: real -> string, fixed2: real -> string)
    requires CellsFree(r, show, fixed2, '\n')
    ensures '\n' !in Row(r, show, fixed2)
  {
    Text.JoinExcludes(Fields(r, show, fixed2), ',', '\n');
  }

  /** When no cell holds a line break, the file's lines are the header line
      (the ten column names joined by commas) followed by one row per
      result, in result order, with no trailing empty line. */
  lemma CsvLines(results: seq<AnalysisResult>, show: real -> string, fixed2: real -> string)
    requires results != []
    requires forall k :: 0 <= k < |results| ==> CellsFree(results[k], show, fixed2, '\n')
    ensures Text.Split(HandleExport(results, show, fixed2).csv.value, '\n') ==
              [Text.Join(HEADERS, ',')] + Rows(results, show, fixed2)
  {
    var lines := [Text.Join(HEADERS, ',')] + Rows(results, show, fixed2);
    HeaderIsOneLine();
    forall i | 0 <= i < |lines| ensures '\n' !in lines[i] {
      if i > 0 {
        RowIsOneLine(results[i - 1], show, fixed2);
      }
    }
    Text.SplitJoin(lines, '\n');
  }

  /** When no cell holds a comma, a row splits back into its ten cells. */
  lemma RowCells(r: AnalysisResult, show: real -> string, fixed2: real -> string)
    requires CellsFree(r, show, fixed2, ',')
    ensures Text.Split(Row(r, show, fixed2), ',') == Fields(r, show, fixed2)
  {
    Text.SplitJoin(Fields(r, show, fixed2), ',');
  }

  /** Quoting does not protect a comma: a product name `p,q` spreads over
      two cells, `"p` and `q"`, and every later column moves one place
      right. */
  lemma CommaInProductNameShiftsColumns(r: AnalysisResult, show: real -> string, fixed2: real -> string,
                                        p: string, q: string)
    requires r.productName == p + "," + q && ',' !in p && ',' !in q
    requires forall i :: 0 <= i < |HEADERS| && i != 1 ==> ',' !in Fields(r, show, fixed2)[i]
    ensures |Text.Split(Row(r, show, fixed2), ',')| == |HEADERS| + 1
    ensures Text.Split(Row(r, show, fixed2), ',')[1] == "\"" + p
    ensures Text.Split(Row(r, show, fixed2), ',')[2] == q + "\""
  {
    var f := Fields(r, show, fixed2);
    var g := [f[0], "\"" + p, q + "\""] + f[2..];
    assert Text.Join(f[1..], ',') == Text.Join(g[1..], ',') by {
      assert f[1] == "\"" + p + "," + (q + "\"");
      assert Text.Join(f[1..], ',') == f[1] + [','] + Text.Join(f[2..], ',');
      assert g[1..][1..] == g[2..];
      assert g[2..][1..] == f[2..];
      assert Text.Join(g[1..], ',') == g[1] + [','] + Text.Join(g[2..], ',');
      assert Text.Join(g[2..], ',') == g[2] + [','] + Text.Join(f[2..], ',');
    }
    assert Row(r, show, fixed2) == Text.Join(g, ',');
    forall i | 0 <= i < |g| ensures ',' !in g[i] {
      if i >= 3 {
        assert g[i] == f[i - 1];
      }
    }
    Text.SplitJoin(g, ',');
  }
}
