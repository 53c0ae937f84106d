/** The final-answer envelope: the agent wraps its summary between two marker lines
    (app/agent/toolcall.py:264, 292 and 301), and the server cuts the answer back out from between
    them (server.py:91-99). */
module Envelope {
  import opened Wrappers
  import opened PyStr

  /** The opening marker. */
  const Open: string := "===== FINAL ANSWER ====="

  /** The closing marker: twenty-three `=`. */
  const Close: string := "======================="

  /** A summary between the two markers, each separated from it by a blank line. */
  function Framed(summary: string): string {
    Open + Rest(summary)
  }

  /** What follows the opening marker in a frame. */
  function Rest(summary: string): string {
    "\n\n" + summary + "\n\n" + Close
  }

  /** The status line `_generate_summary` puts in front of the framed summary. */
  function StatusLine(status: string): string {
    "The interaction has been completed with status: " + status + "\n\n"
  }

  /** What `_generate_summary` returns on success (app/agent/toolcall.py:264). */
  function Completed(status: string, summary: string): string {
    StatusLine(status) + Framed(summary)
  }

  /** The text the fallback frames when even the direct question fails
      (app/agent/toolcall.py:301). */
  function Apology(question: string): string {
    "Sorry, I couldn't generate an answer to your question: '" + question
    + "'\nPlease try asking again or rephrasing your question."
  }

  /** `final_answer` in `process_with_agent`: when the result holds the opening marker, the stripped
      text after its first occurrence and before the next closing marker; `None` otherwise. */
  function FinalAnswer(result: string): (r: Option<string>)
    ensures r.Some? <==> Contains(result, Open)
    ensures r.Some? ==> Trimmed(r.value)
  {
    if |result| > 0 && Contains(result, Open) then
      var after := Split(result, Open)[1];
      Some(Strip(Split(after, Close)[0]))
    else None
  }

  /** Text shorter than `sep` cannot contain it. */
  lemma TooShort(a: string, sep: string)
    requires |a| < |sep|
    ensures !Contains(a, sep)
  {
  }

  /** Blank lines around text free of a marker without line breaks leave it free of the marker and
      guarded against it. */
  lemma Padded(x: string, sep: string)
    requires |sep| > 0 && '\n' !in sep && !Contains(x, sep)
    ensures Guarded("\n\n" + x + "\n\n", sep)
  {
    var nl := "\n\n";
    NoOccWithoutFirstChar(nl, sep);
    NoOccAppend(nl, x, sep);
    NoOccAppend(nl + x, nl, sep);
  }

  /** After a guarded prefix, the piece following the first `open` is everything after it, as long
      as that holds no `open` of its own. */
  lemma AfterFirst(pre: string, open: string, rest: string)
    requires |open| > 0 && Guarded(pre, open) && !Contains(rest, open)
    ensures Contains(pre + (open + rest), open)
    ensures Split(pre + (open + rest), open)[1] == rest
  {
    assert pre + (open + rest) == pre + open + rest;
    SplitAfterGuarded(pre, open, rest);
    SplitClean(rest, open);
    ContainsMiddle(pre, open, rest);
  }

  /** The rest of a frame holds no opening marker when the summary holds none: the blank lines
      separate it from the closing marker, which is too short to hold one. */
  lemma RestClean(summary: string, open: string, close: string)
    requires |open| > 0 && '\n' !in open && |close| < |open| && !Contains(summary, open)
    ensures !Contains("\n\n" + summary + "\n\n" + close, open)
  {
    var body := "\n\n" + summary + "\n\n";
    Padded(summary, open);
    TooShort(close, open);
    NoOccAppend(body, close, open);
  }

  /** The piece after the first opening marker of a framed summary is the rest of the frame. */
  lemma AfterOpen(pre: string, summary: string)
    requires Guarded(pre, Open) && !Contains(summary, Open)
    ensures Contains(pre + Framed(summary), Open)
    ensures Split(pre + Framed(summary), Open)[1] == Rest(summary)
  {
    assert '\n' !in Open;
    RestClean(summary, Open, Close);
    AfterFirst(pre, Open, Rest(summary));
  }

  /** The piece before the first closing marker of the rest of a frame is the padded summary. */
  lemma BeforeClose(summary: string)
    requires !Contains(summary, Close)
    ensures Split(Rest(summary), Close)[0] == "\n\n" + summary + "\n\n"
  {
    var body := "\n\n" + summary + "\n\n";
    Padded(summary, Close);
    SplitAfterGuarded(body, Close, []);
    assert body + Close + [] == body + Close;
  }

  /** Whatever guarded text precedes it, a framed summary that holds neither marker is extracted
      as the summary, stripped. */
  lemma ExtractFramed(pre: string, summary: string)
    requires Guarded(pre, Open)
    requires !Contains(summary, Open) && !Contains(summary, Close)
    ensures FinalAnswer(pre + Framed(summary)) == Some(Strip(summary))
  {
    AfterOpen(pre, summary);
    BeforeClose(summary);
    StripPadding("\n\n", summary, "\n\n");
  }

  /** The fixed start of the status line, cut in two. */
  lemma LeadHalves()
    ensures "The interaction has been completed with status: " == "The interaction has been " + "completed with status: "
  {
  }

  /** The status line is guarded against the opening marker when the status does not hold it. */
  lemma StatusLineGuarded(status: string)
    requires !Contains(status, Open)
    ensures Guarded(StatusLine(status), Open)
  {
    var lead := "The interaction has been completed with status: ";
    LeadHalves();
    assert '=' !in "The interaction has been ";
    assert '=' !in "completed with status: ";
    NoOccWithoutFirstChar(lead, Open);
    NoOccAppend(lead, status, Open);
    NoOccWithoutFirstChar("\n\n", Open);
    NoOccAppend(lead + status, "\n\n", Open);
  }

  /** Round trip with `_generate_summary`: for a status and summary holding neither marker, the
      server extracts exactly the stripped summary; the status never reaches the answer. */
  lemma ExtractCompleted(status: string, summary: string)
    requires !Contains(status, Open)
    requires !Contains(summary, Open) && !Contains(summary, Close)
    ensures FinalAnswer(Completed(status, summary)) == Some(Strip(summary))
  {
    StatusLineGuarded(status);
    ExtractFramed(StatusLine(status), summary);
  }

  /** Round trip with the fallback summary: the framed answer comes back stripped. */
  lemma ExtractFallback(summary: string)
    requires !Contains(summary, Open) && !Contains(summary, Close)
    ensures FinalAnswer(Framed(summary)) == Some(Strip(summary))
  {
    ExtractFramed([], summary);
    assert [] + Framed(summary) == Framed(summary);
  }
}
