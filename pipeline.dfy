/** The pieces put together: the trigger's item name is the orchestration's
    input, and the three activities' results are the outcomes the
    orchestration receives. */
module Pipeline {
  import opened Wrappers
  import BlobTrigger
  import AnalyzePdf
  import SummarizeText
  import WriteSummary
  import Orchestration

  /** When every activity succeeds at its first attempt, the orchestration
      started for a blob path completes with the name the summary was
      uploaded under, which is the `/`-free item name and the time. */
  lemma EndToEnd(path: string, pages: seq<AnalyzePdf.Page>, cfg: SummarizeText.Config,
                 post: SummarizeText.Request -> SummarizeText.Response, ts: WriteSummary.Timestamp)
    requires WriteSummary.ValidTimestamp(ts)
    requires SummarizeText.Summarize(cfg, AnalyzePdf.ExtractedText(pages), post).Success?
    ensures var blob := BlobTrigger.ItemName(path);
            var text := AnalyzePdf.ExtractedText(pages);
            var summary := SummarizeText.Summarize(cfg, text, post).value;
            var w := WriteSummary.Write(blob, summary, ts);
            var s := Orchestration.Run(blob, [Orchestration.Succeeded(text),
                                              Orchestration.Succeeded(summary),
                                              Orchestration.Succeeded(w.name)]);
            && '/' !in blob
            && s.status == Orchestration.Completed
            && s.result == Some(w.name)
            && w.upload == WriteSummary.Upload(WriteSummary.OutputContainer, w.name, summary)
            && WriteSummary.ParseOutputName(w.name) == Some((blob, ts))
  {
    var blob := BlobTrigger.ItemName(path);
    var text := AnalyzePdf.ExtractedText(pages);
    var summary := SummarizeText.Summarize(cfg, text, post).value;
    BlobTrigger.ItemNameIsLastSegment(path);
    Orchestration.HappyPath(blob, text, summary, WriteSummary.Write(blob, summary, ts).name);
  }

  /** What the orchestrator receives from one attempt of `summarize_text`:
      the summary it returned, or the exception it raised (`HTTPError` from
      `raise_for_status`, `IndexError` from an empty `choices`). */
  function SummarizeOutcome(r: Result<string, SummarizeText.SummarizeError>): (o: Orchestration.Outcome)
    ensures o.Succeeded? <==> r.Success?
    ensures r.Success? ==> o.value == r.value
  {
    match r
    case Success(summary) => Orchestration.Succeeded(summary)
    case Failure(e) => Orchestration.Raised(if e.HttpError? then "HTTPError" else "IndexError")
  }

  /** An error status (4xx as well as 5xx) or a response without choices is
      retried like any other failure: the next attempt is `summarize_text`
      again, with the same text, after the retry interval; only the third
      such failure fails the orchestration. */
  lemma ErrorResponseRetried(blob: string, s: Orchestration.State, resp: SummarizeText.Response,
                             next: Orchestration.Outcome)
    requires Orchestration.Wf(blob, s) && s.status == Orchestration.Running && s.step == 1
    requires SummarizeText.IsHttpError(resp.status) || resp.choices == []
    ensures var r := Orchestration.Apply(blob, s, SummarizeOutcome(SummarizeText.SummaryOf(resp)));
            && r.step == 1 && r.attempt == s.attempt + 1 && r.outputs == s.outputs
            && (r.attempt < Orchestration.MaxAttempts ==>
                  && r.status == Orchestration.Running
                  && var a := Orchestration.NextAttempt(blob, r, next);
                  && a.activity == "summarize_text" && a.number == s.attempt + 2
                  && a.delayMs == Orchestration.FirstRetryIntervalMs
                  && a.input == Orchestration.Text(s.outputs[0]))
            && (r.attempt == Orchestration.MaxAttempts ==> r.status == Orchestration.Failed)
  {
  }

  /** A reply whose first choice has empty content is a success: the empty
      summary is passed on to `write_summary` at its first attempt, with no
      retry of `summarize_text`. */
  lemma EmptySummaryDelivered(blob: string, s: Orchestration.State, resp: SummarizeText.Response,
                              next: Orchestration.Outcome)
    requires Orchestration.Wf(blob, s) && s.status == Orchestration.Running && s.step == 1
    requires !SummarizeText.IsHttpError(resp.status) && |resp.choices| > 0
    requires resp.choices[0].message.content == ""
    ensures var r := Orchestration.Apply(blob, s, SummarizeOutcome(SummarizeText.SummaryOf(resp)));
            && r.status == Orchestration.Running && r.step == 2 && r.attempt == 0
            && var a := Orchestration.NextAttempt(blob, r, next);
            && a.activity == "write_summary" && a.number == 1
            && a.input == Orchestration.Record(blob, "")
  {
  }

  /** The worked example: `input/report.pdf` holds two pages of one line
      each; the item name, the extracted text and the output name written at
      2025-01-01 12:00:00 UTC are as follows. */
  lemma ReportItemName()
    ensures BlobTrigger.ItemName("input/report.pdf") == "report.pdf"
  {
    assert "input" + ['/'] + "report.pdf" == "input/report.pdf";
    BlobTrigger.ItemNameIgnoresPrefix("input", "report.pdf");
  }

  lemma ReportText()
    ensures AnalyzePdf.ExtractedText([AnalyzePdf.Page([AnalyzePdf.Line("Quarterly revenue rose 8%.")]),
                                      AnalyzePdf.Page([AnalyzePdf.Line("Costs were flat.")])])
            == "Quarterly revenue rose 8%.\nCosts were flat."
  {
    var pages := [AnalyzePdf.Page([AnalyzePdf.Line("Quarterly revenue rose 8%.")]),
                  AnalyzePdf.Page([AnalyzePdf.Line("Costs were flat.")])];
    assert AnalyzePdf.LineContents(pages) == ["Quarterly revenue rose 8%.", "Costs were flat."];
  }

  lemma PadYear()
    ensures WriteSummary.Pad(2025, 4) == "2025"
  {
    assert WriteSummary.Pad(2, 1) == "2";
    assert WriteSummary.Pad(20, 2) == "20";
    assert WriteSummary.Pad(202, 3) == "202";
  }

  lemma PadSmall()
    ensures WriteSummary.Pad(1, 2) == "01"
    ensures WriteSummary.Pad(12, 2) == "12"
    ensures WriteSummary.Pad(0, 2) == "00"
  {
    assert WriteSummary.Pad(0, 1) == "0";
    assert WriteSummary.Pad(1, 1) == "1";
  }

  lemma ReportStamp()
    ensures WriteSummary.Stamp(WriteSummary.Timestamp(2025, 1, 1, 12, 0, 0)) == "20250101120000"
  {
    PadYear();
    PadSmall();
  }

  lemma ReportNamePieces()
    ensures WriteSummary.OutputName("report.pdf", WriteSummary.Timestamp(2025, 1, 1, 12, 0, 0))
            == "report.pdf" + "-" + "20250101120000" + ".txt"
  {
    ReportStamp();
  }

  lemma ReportOutputName()
    ensures WriteSummary.OutputName("report.pdf", WriteSummary.Timestamp(2025, 1, 1, 12, 0, 0))
            == "report.pdf-20250101120000.txt"
  {
    ReportNamePieces();
    ReportNameSpelled();
  }

  lemma ReportNameSpelled()
    ensures "report.pdf" + "-" + "20250101120000" + ".txt" == "report.pdf-20250101120000.txt"
  {
  }
}
