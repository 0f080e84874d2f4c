/** The client's API service: the classification of failed requests, and
    `streamChat`, which reads the chat reply body piece by piece and yields
    the payloads of its `data:` lines. */
module ApiClient {
  import opened Wrappers
  import opened Text
  import SseClient
  import Web
  import Entities
  import Errors

  /** The response part of a failed axios request: its status and the
      `detail` field of its body, if any. */
  datatype ErrorResponse = ErrorResponse(status: nat, detail: Option<string>)

  /** What a request can fail with: an axios error (with a response, or
      with only a request, or neither), another `Error`, or a thrown value
      that is not an `Error`. */
  datatype Failure =
    | AxiosFailure(response: Option<ErrorResponse>, hasRequest: bool, message: string)
    | OtherError(message: string)
    | NonError

  /** `ApiError`: a message and, for server and network failures, a status. */
  datatype ApiError = ApiError(detail: string, status: Option<nat>)

  const ServerErrorMessage: string := "Server error occurred"
  const NetworkErrorMessage: string := "Network error - unable to reach server"
  const UnknownErrorMessage: string := "Unknown error occurred"

  /** `handleError`: a server answer keeps its status and its `detail`
      (a generic text when that is missing or empty); no answer to a sent
      request is status 0; anything else has no status and carries the
      error's own message. */
  function HandleError(f: Failure): (e: ApiError)
    ensures f.AxiosFailure? && f.response.Some? ==>
              && e.status == Some(f.response.value.status)
              && e.detail == (if f.response.value.detail.Some? && f.response.value.detail.value != ""
                              then f.response.value.detail.value else ServerErrorMessage)
    ensures f.AxiosFailure? && f.response.None? && f.hasRequest ==> e == ApiError(NetworkErrorMessage, Some(0))
    ensures e.status.None? <==> !(f.AxiosFailure? && (f.response.Some? || f.hasRequest))
    ensures e.status.None? && !f.NonError? ==> e.detail == f.message
    ensures f.NonError? ==> e.detail == UnknownErrorMessage
  {
    match f
    case AxiosFailure(Some(resp), _, _) =>
      var detail := if resp.detail.Some? && resp.detail.value != "" then resp.detail.value else ServerErrorMessage;
      ApiError(detail, Some(resp.status))
    case AxiosFailure(None, true, _) => ApiError(NetworkErrorMessage, Some(0))
    case AxiosFailure(None, false, message) => ApiError(message, None)
    case OtherError(message) => ApiError(message, None)
    case NonError => ApiError(UnknownErrorMessage, None)
  }

  /** The message `streamChat` throws for a response that is not OK: the
      body's `detail`, else `HTTP <status>`; a body that is not JSON reads
      as the detail "Unknown error". */
  function NotOkMessage(status: nat, body: Option<Option<string>>): (m: string)
    ensures body.None? ==> m == "Unknown error"
    ensures body.Some? && body.value.Some? && body.value.value != "" ==> m == body.value.value
    ensures body.Some? && (body.value.None? || body.value.value == "") ==> m == "HTTP " + NatToDecimal(status)
  {
    match body
    case None => "Unknown error"
    case Some(detail) => if detail.Some? && detail.value != "" then detail.value else "HTTP " + NatToDecimal(status)
  }

  /** The two readings of a server's error answer agree on a non-empty
      `detail`; without one, `streamChat` reports the status and
      `handleError` the generic text. */
  lemma ClientMessagesAgree(status: nat, detail: Option<string>, hasRequest: bool, message: string)
    ensures var e := HandleError(AxiosFailure(Some(ErrorResponse(status, detail)), hasRequest, message));
            && e.status == Some(status)
            && (detail.Some? && detail.value != "" ==> NotOkMessage(status, Some(detail)) == e.detail == detail.value)
            && (!(detail.Some? && detail.value != "") ==>
                  NotOkMessage(status, Some(detail)) == "HTTP " + NatToDecimal(status) && e.detail == ServerErrorMessage)
  {
  }

  /** An error a project route answers with reaches the client unchanged:
      its status, and its message as the detail, which names the project's
      id right after "Project with ID ". */
  lemma RouteErrorsReachClient(outcome: Result<Entities.Project, Errors.Error>, hasRequest: bool, message: string)
    requires outcome.Err?
    ensures var r := Web.FoundResponse(outcome);
            r.Ok? && r.value.HttpError? ==>
              && HandleError(AxiosFailure(Some(ErrorResponse(r.value.code, Some(r.value.detail))), hasRequest, message))
                   == ApiError(Errors.Message(outcome.error), Some(404))
              && OccursAt(r.value.detail, outcome.error.projectId, |"Project with ID "|)
    ensures var r := Web.CreateResponse(outcome);
            r.Ok? && r.value.HttpError? ==>
              && HandleError(AxiosFailure(Some(ErrorResponse(r.value.code, Some(r.value.detail))), hasRequest, message))
                   == ApiError(Errors.Message(outcome.error), Some(409))
              && OccursAt(r.value.detail, outcome.error.projectId, |"Project with ID "|)
    ensures HandleError(AxiosFailure(Some(ErrorResponse(Web.DeleteResponse(false).code, Some(Web.DeleteResponse(false).detail))),
                                     hasRequest, message))
              == ApiError("Project not found", Some(404))
  {
    var m := Errors.Message(outcome.error);
    if outcome.error.ProjectNotFound? || outcome.error.ProjectAlreadyExists? {
      assert |"Project with ID "| <= |m| && m[..|"Project with ID "|] == "Project with ID ";
      assert m != "";
    }
  }

  /** The last field of a split. */
  function Last(lines: seq<string>): string
    requires |lines| > 0
  {
    lines[|lines| - 1]
  }

  /** The complete lines of a buffer: all fields but the last. */
  function Complete(lines: seq<string>): seq<string>
    requires |lines| > 0
  {
    lines[..|lines| - 1]
  }

  /** Appending a read to the buffer: the complete lines of the whole text
      are those of the old text, then those of the carried-over line with
      the read appended; the new partial line is the latter's. */
  lemma CompleteLinesAppend(x: string, y: string)
    ensures var sx := SplitOn(x, '\n');
            var sb := SplitOn(Last(sx) + y, '\n');
            var sxy := SplitOn(x + y, '\n');
            && Complete(sxy) == Complete(sx) + Complete(sb)
            && Last(sxy) == Last(sb)
  {
    SplitAppend(x, y, '\n');
    var sx := SplitOn(x, '\n');
    var sb := SplitOn(Last(sx) + y, '\n');
    var sxy := SplitOn(x + y, '\n');
    assert sxy == Complete(sx) + sb;
    assert Complete(sxy) == Complete(sx) + Complete(sb);
  }

  /** The text received after one more read. */
  lemma PiecesStep(pieces: seq<string>, i: nat)
    requires i < |pieces|
    ensures Concat(pieces[..i + 1]) == Concat(pieces[..i]) + pieces[i]
  {
    assert pieces[..i + 1] == pieces[..i] + [pieces[i]];
    ConcatAppend(pieces[..i], pieces[i]);
  }

  // ---- `streamChat` as written: every line is trimmed ----

  /** What one line yields in `streamChat`: the trimmed line, minus its
      `data: ` prefix, unless it is blank, the terminator, or has no
      payload. The payload is not unescaped. */
  function TrimmedLineData(line: string): (out: seq<string>)
    ensures |out| <= 1
    ensures |out| == 1 <==>
              var t := Trim(line, JsIsSpace);
              "data: " <= t && t != "data: [DONE]" && |t| > 6
    ensures |out| == 1 ==> out[0] == Trim(line, JsIsSpace)[6..]
  {
    var trimmed := Trim(line, JsIsSpace);
    if trimmed != "" && trimmed != "data: [DONE]" then
      if "data: " <= trimmed then
        var data := trimmed[6..];
        if data != "" then [data] else []
      else []
    else []
  }

  /** The leftover buffer at the end of the stream, with its own test. */
  function LeftoverData(buffer: string): (out: seq<string>)
  {
    if Trim(buffer, JsIsSpace) != "" then
      var trimmed := Trim(buffer, JsIsSpace);
      if "data: " <= trimmed && trimmed != "data: [DONE]" then
        var data := trimmed[6..];
        if data != "" then [data] else []
      else []
    else []
  }

  /** The leftover buffer is parsed by the same rule as a complete line. */
  lemma LeftoverSameRule(buffer: string)
    ensures LeftoverData(buffer) == TrimmedLineData(buffer)
  {
  }

  function TrimmedLinesData(lines: seq<string>): seq<string>
    decreases |lines|
  {
    if |lines| == 0 then [] else TrimmedLineData(lines[0]) + TrimmedLinesData(lines[1..])
  }

  lemma {:induction false} TrimmedLinesAppend(a: seq<string>, b: seq<string>)
    ensures TrimmedLinesData(a + b) == TrimmedLinesData(a) + TrimmedLinesData(b)
    decreases |a|
  {
    if |a| == 0 {
      assert a + b == b;
    } else {
      assert (a + b)[1..] == a[1..] + b;
      TrimmedLinesAppend(a[1..], b);
    }
  }

  /** One read of the as-written loop: the lines it completes are parsed,
      and its partial line is carried over. */
  lemma TrimmedReadStep(x: string, piece: string)
    ensures var lines := SplitOn(Last(SplitOn(x, '\n')) + piece, '\n');
            && TrimmedLinesData(Complete(SplitOn(x + piece, '\n')))
               == TrimmedLinesData(Complete(SplitOn(x, '\n'))) + TrimmedLinesData(Complete(lines))
            && Last(lines) == Last(SplitOn(x + piece, '\n'))
  {
    CompleteLinesAppend(x, piece);
    var lines := SplitOn(Last(SplitOn(x, '\n')) + piece, '\n');
    TrimmedLinesAppend(Complete(SplitOn(x, '\n')), Complete(lines));
  }

  /** What `streamChat` yields for a whole body, read at once: every line,
      the last (partial) one included, by the trimming rule. */
  function TrimmedBodyData(body: string): seq<string> {
    var lines := SplitOn(body, '\n');
    TrimmedLinesData(Complete(lines)) + LeftoverData(Last(lines))
  }

  /** `streamChat` as written. A response that is not OK, or has no body
      reader, fails before anything is yielded; otherwise the reads are
      consumed in order with the partial last line carried over, and the
      result is what the whole body yields at once. */
  method StreamChatAsWritten(ok: bool, status: nat, errorBody: Option<Option<string>>, hasReader: bool, pieces: seq<string>)
    returns (r: Result<seq<string>, string>)
    ensures !ok ==> r == Err(NotOkMessage(status, errorBody))
    ensures ok && !hasReader ==> r == Err("Failed to get response reader")
    ensures ok && hasReader ==> r == Ok(TrimmedBodyData(Concat(pieces)))
  {
    if !ok {
      return Err(NotOkMessage(status, errorBody));
    }
    if !hasReader {
      return Err("Failed to get response reader");
    }
    var buffer := "";
    var out: seq<string> := [];
    var i := 0;
    while i < |pieces|
      invariant 0 <= i <= |pieces|
      invariant buffer == Last(SplitOn(Concat(pieces[..i]), '\n'))
      invariant out == TrimmedLinesData(Complete(SplitOn(Concat(pieces[..i]), '\n')))
    {
      PiecesStep(pieces, i);
      TrimmedReadStep(Concat(pieces[..i]), pieces[i]);
      buffer := buffer + pieces[i];
      var lines := SplitOn(buffer, '\n');
      out := out + TrimmedLinesData(Complete(lines));
      buffer := Last(lines);
      i := i + 1;
    }
    assert pieces[..i] == pieces;
    out := out + LeftoverData(buffer);
    return Ok(out);
  }

  /** A payload that is non-empty and does not end in whitespace. */
  predicate EndsVisible(d: string) {
    |d| > 0 && !JsIsSpace(d[|d| - 1])
  }

  lemma LineDataVisible(line: string)
    ensures forall d :: d in TrimmedLineData(line) ==> EndsVisible(d)
  {
    var t := Trim(line, JsIsSpace);
    if |TrimmedLineData(line)| == 1 {
      var d := t[6..];
      assert d[|d| - 1] == t[|t| - 1];
      assert TrimmedLineData(line) == [d];
    }
  }

  /** Whatever `streamChat` yields has no whitespace at its end. */
  lemma {:induction false} TrimmedPayloads(lines: seq<string>)
    ensures forall d :: d in TrimmedLinesData(lines) ==> EndsVisible(d)
    decreases |lines|
  {
    if |lines| > 0 {
      TrimmedPayloads(lines[1..]);
      LineDataVisible(lines[0]);
      assert TrimmedLinesData(lines) == TrimmedLineData(lines[0]) + TrimmedLinesData(lines[1..]);
    }
  }

  /** A line that ends in one blank after its last visible character loses
      that blank when trimmed. */
  lemma TrimOneTrailingBlank(t: string)
    requires |t| > 0 && !JsIsSpace(t[0]) && !JsIsSpace(t[|t| - 1])
    ensures Trim(t + " ", JsIsSpace) == t
  {
    var s := t + " ";
    assert s[..|s| - 1] == t;
    assert LeadingSpace(s, JsIsSpace) == 0;
    TrimTrimmed(t, JsIsSpace);
    assert TrailingSpaceStart(t, JsIsSpace) == |t|;
    assert TrailingSpaceStart(s, JsIsSpace) == TrailingSpaceStart(t, JsIsSpace);
  }

  /** Blank lines and the terminator yield nothing. */
  lemma BlankAndDoneLines(blank: string, done: string)
    requires blank == "" && done == "data: [DONE]"
    ensures TrimmedLineData(blank) == [] && TrimmedLineData(done) == []
  {
    TrimTrimmed(done, JsIsSpace);
  }

  /** A reply of one chunk without newlines yields what its `data:` line
      yields, read at once. */
  lemma SingleChunkBody(c: string)
    requires '\n' !in c
    ensures TrimmedBodyData(Web.Stream([c])) == TrimmedLineData(SseClient.DataPrefix + c)
  {
    SseClient.StreamLines([c]);
    Web.EscapeShape(c);
    var line := SseClient.DataPrefix + c;
    assert [c][1..] == [];
    assert SseClient.FrameLines([c]) == [line, ""];
    var lines := SplitOn(Web.Stream([c]), '\n');
    var done := "data: [DONE]";
    assert lines == [line, "", done, "", ""];
    assert Complete(lines) == [line, "", done, ""];
    assert Last(lines) == "";
    BlankAndDoneLines("", done);
    assert TrimmedLinesData([""]) == [];
    assert TrimmedLinesData([done, ""]) == [];
    assert TrimmedLinesData(["", done, ""]) == [];
    assert TrimmedLinesData(Complete(lines)) == TrimmedLineData(line);
    assert LeftoverData("") == [];
  }

  /** The second half of the counterexample: the payload is not unescaped.
      The chunk `"a\nb"`, with a newline, travels as a `data:` line holding
      a backslash and `n` in place of the newline, and reaches the caller in
      that escaped form, `"a\\nb"`. */
  lemma TrimmingKeepsEscapes()
    ensures TrimmedBodyData(Web.Stream(["a\nb"])) == ["a\\nb"]
  {
    var e := "a\\nb";
    EscapedNewline();
    SameStreamEscaped("a\nb");
    SingleChunkBody(e);
    var t := SseClient.DataPrefix + e;
    TrimTrimmed(t, JsIsSpace);
    assert t[6..] == e;
  }

  /** The newline of `"a\nb"` is sent as a backslash and `n`. */
  lemma EscapedNewline()
    ensures Web.Escape("a\nb") == "a\\nb"
  {
    assert "a\nb" == ['a'] + "\nb" && "\nb" == ['\n'] + "b" && "b" == ['b'] + "";
    Web.EscapeCons('a', "\nb");
    Web.EscapeCons('\n', "b");
    Web.EscapeCons('b', "");
    Web.EscapeShape("");
  }

  /** A one-chunk reply is sent exactly as the reply of its escaped form. */
  lemma SameStreamEscaped(c: string)
    ensures Web.Stream([c]) == Web.Stream([Web.Escape(c)])
  {
    var e := Web.Escape(c);
    Web.EscapeNoNewline(c);
    Web.EscapeShape(e);
    assert [c][1..] == [] && [e][1..] == [];
  }

  /** The counterexample: the one-chunk reply `"a "`, which the server sends
      as `data: a ` followed by a blank line, reaches the caller as `"a"`.
      Every chunk the stub agent sends except the last ends in a blank, so
      its reply is shown as `Thisisastubreply.`. */
  lemma TrimmingDropsSpaces()
    ensures TrimmedBodyData(Web.Stream(["a "])) == ["a"]
  {
    SingleChunkBody("a ");
    var t := SseClient.DataPrefix + "a";
    assert SseClient.DataPrefix + "a " == t + " ";
    TrimOneTrailingBlank(t);
    assert t[6..] == "a";
  }

  // ---- `streamChat` reading through `extractSseChunks` ----

  /** What the corrected reader yields for a whole body: each line by the
      rule of `extractSseChunks`, the partial last line included. */
  function BodyData(body: string): seq<string> {
    SseClient.Payloads(SplitOn(body, '\n'))
  }

  /** `extractSseChunks` in terms of the split of its buffer. */
  lemma ExtractSpec(buffer: string)
    ensures var lines := SplitOn(buffer, '\n');
            SseClient.ExtractSseChunks(buffer) == SseClient.Extracted(SseClient.Payloads(Complete(lines)), Last(lines))
  {
  }

  /** One read of the corrected loop: `extractSseChunks` yields the
      payloads of the lines the read completes and keeps the partial one. */
  lemma ReadStep(x: string, piece: string)
    ensures var e := SseClient.ExtractSseChunks(Last(SplitOn(x, '\n')) + piece);
            && SseClient.Payloads(Complete(SplitOn(x + piece, '\n')))
               == SseClient.Payloads(Complete(SplitOn(x, '\n'))) + e.chunks
            && e.remaining == Last(SplitOn(x + piece, '\n'))
  {
    CompleteLinesAppend(x, piece);
    var b := Last(SplitOn(x, '\n')) + piece;
    ExtractSpec(b);
    SseClient.PayloadsAppend(Complete(SplitOn(x, '\n')), Complete(SplitOn(b, '\n')));
  }

  /** The whole body: its complete lines, then its last line by the same rule. */
  lemma FinalLine(text: string)
    ensures var lines := SplitOn(text, '\n');
            BodyData(text) == SseClient.Payloads(Complete(lines)) + SseClient.LinePayload(Last(lines))
  {
    var lines := SplitOn(text, '\n');
    assert lines == Complete(lines) + [Last(lines)];
    SseClient.PayloadsAppend(Complete(lines), [Last(lines)]);
    assert [Last(lines)][1..] == [];
  }

  /** `streamChat` with each read passed through `extractSseChunks`, the
      remaining text carried to the next read, and the text left at the end
      parsed as one more line. The result does not depend on how the body
      was cut into pieces. */
  method StreamChatCorrected(ok: bool, status: nat, errorBody: Option<Option<string>>, hasReader: bool, pieces: seq<string>)
    returns (r: Result<seq<string>, string>)
    ensures !ok ==> r == Err(NotOkMessage(status, errorBody))
    ensures ok && !hasReader ==> r == Err("Failed to get response reader")
    ensures ok && hasReader ==> r == Ok(BodyData(Concat(pieces)))
  {
    if !ok {
      return Err(NotOkMessage(status, errorBody));
    }
    if !hasReader {
      return Err("Failed to get response reader");
    }
    var buffer := "";
    var out: seq<string> := [];
    var i := 0;
    while i < |pieces|
      invariant 0 <= i <= |pieces|
      invariant buffer == Last(SplitOn(Concat(pieces[..i]), '\n'))
      invariant out == SseClient.Payloads(Complete(SplitOn(Concat(pieces[..i]), '\n')))
    {
      PiecesStep(pieces, i);
      ReadStep(Concat(pieces[..i]), pieces[i]);
      var extracted := SseClient.ExtractSseChunks(buffer + pieces[i]);
      out := out + extracted.chunks;
      buffer := extracted.remaining;
      i := i + 1;
    }
    assert pieces[..i] == pieces;
    FinalLine(Concat(pieces));
    out := out + SseClient.LinePayload(buffer);
    return Ok(out);
  }

  /** The corrected reader delivers exactly the chunks the server sent, in
      however many reads the body arrives, if and only if every chunk is
      transportable. */
  lemma ReaderRoundTrip(chunks: seq<string>)
    ensures BodyData(Web.Stream(chunks)) == chunks <==>
              forall k :: 0 <= k < |chunks| ==> SseClient.Transportable(chunks[k])
  {
    var body := Web.Stream(chunks);
    SseClient.RoundTrip(chunks);
    FinalLine(body);
    ExtractSpec(body);
    assert SseClient.LinePayload("") == [];
  }

  /** The chunk `"a "` is transportable, so the corrected reader gives it
      back, and the trimming reader does not. */
  lemma TrimmingLosesTransportable()
    ensures SseClient.Transportable("a ")
    ensures BodyData(Web.Stream(["a "])) == ["a "]
    ensures TrimmedBodyData(Web.Stream(["a "])) != ["a "]
  {
    var c := "a ";
    assert c[0..2][0] == 'a';
    assert !OccursAt(c, "\\n", 0);
    assert forall i: nat :: !OccursAt(c, "\\n", i);
    ReaderRoundTrip([c]);
    TrimmingDropsSpaces();
  }

  /** The newline half of the finding: `"a\nb"` is transportable, so the
      corrected reader restores the newline, where the as-written one leaves
      it escaped. */
  lemma CorrectedUnescapes()
    ensures SseClient.Transportable("a\nb")
    ensures BodyData(Web.Stream(["a\nb"])) == ["a\nb"]
    ensures TrimmedBodyData(Web.Stream(["a\nb"])) != ["a\nb"]
  {
    var c := "a\nb";
    assert c[0] == 'a' && c[1] == '\n' && c[2] == 'b';
    assert forall i: nat :: !OccursAt(c, "\\n", i);
    ReaderRoundTrip([c]);
    TrimmingKeepsEscapes();
    assert "a\\nb"[1] != c[1];
  }
}
