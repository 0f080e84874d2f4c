/** The client's server-sent-event helpers: unescaping of a payload and the
    extraction of complete `data:` lines from a receive buffer, with the
    round trip against the server's framing. */
module SseClient {
  import opened Text
  import Web
  import Seqs

  /** `unescapeSseData`: every backslash followed by `n` becomes a newline,
      left to right. */
  function Unescape(d: string): string {
    ReplaceAll(d, "\\n", "\n")
  }

  /** One step of unescaping: an escape pair at the front, or any other
      first character kept as it is. */
  lemma UnescapeStep(s: string)
    requires |s| > 0
    ensures Unescape(s) == if "\\n" <= s then "\n" + Unescape(s[2..]) else [s[0]] + Unescape(s[1..])
  {
  }

  /** Escaping puts a backslash where a newline was and keeps any other
      first character. */
  lemma EscapeHead(c: string)
    requires |c| > 0
    ensures |Web.Escape(c)| > 0 && Web.Escape(c)[0] == (if c[0] == '\n' then '\\' else c[0])
  {
    assert c == [c[0]] + c[1..];
    Web.EscapeCons(c[0], c[1..]);
  }

  /** Unescaping undoes escaping exactly for the text that does not already
      hold a backslash followed by `n`. */
  lemma {:induction false} UnescapeEscape(c: string)
    ensures Unescape(Web.Escape(c)) == c <==> !Contains(c, "\\n")
    decreases |c|
  {
    if |c| == 0 {
      assert Web.Escape(c) == "" by { Web.EscapeShape(c); }
      assert !Contains(c, "\\n");
    } else {
      var e := Web.Escape(c);
      assert c == [c[0]] + c[1..];
      Web.EscapeCons(c[0], c[1..]);
      ContainsCons(c, "\\n");
      var rest := Web.Escape(c[1..]);
      if c[0] == '\n' {
        assert e == "\\n" + rest;
        assert "\\n" <= e && e[2..] == rest;
        UnescapeStep(e);
        UnescapeEscape(c[1..]);
        assert !OccursAt(c, "\\n", 0);
        assert Unescape(e) == c <==> Unescape(rest) == c[1..];
      } else if c[0] == '\\' && |c| >= 2 && c[1] == 'n' {
        assert OccursAt(c, "\\n", 0);
        EscapeHead(c[1..]);
        assert e == "\\" + rest && rest[0] == 'n';
        assert "\\n" <= e;
        UnescapeStep(e);
        assert Unescape(e)[0] == '\n';
      } else {
        assert e == [c[0]] + rest;
        if |c| >= 2 {
          EscapeHead(c[1..]);
        } else {
          assert c[1..] == "";
          Web.EscapeShape(c[1..]);
        }
        assert !("\\n" <= e);
        UnescapeStep(e);
        assert e[1..] == rest;
        UnescapeEscape(c[1..]);
        assert !OccursAt(c, "\\n", 0);
        assert Unescape(e) == [c[0]] + Unescape(rest);
      }
    }
  }

  const DataPrefix: string := "data: "

  /** What one complete line contributes: the unescaped payload of a
      `data: ` line, unless the payload is empty or the terminator. */
  function LinePayload(line: string): (out: seq<string>)
    ensures |out| <= 1
    ensures |out| == 1 <==> DataPrefix <= line && line[6..] != "" && line[6..] != "[DONE]"
    ensures |out| == 1 ==> out[0] == Unescape(line[6..])
  {
    if DataPrefix <= line then
      var payload := line[6..];
      if payload != "" && payload != "[DONE]" then [Unescape(payload)] else []
    else []
  }

  /** The contributions of complete lines, in order. */
  function Payloads(lines: seq<string>): (out: seq<string>)
    ensures |out| <= |lines|
    decreases |lines|
  {
    if |lines| == 0 then [] else LinePayload(lines[0]) + Payloads(lines[1..])
  }

  lemma {:induction false} PayloadsAppend(a: seq<string>, b: seq<string>)
    ensures Payloads(a + b) == Payloads(a) + Payloads(b)
    decreases |a|
  {
    if |a| == 0 {
      assert a + b == b;
    } else {
      assert (a + b)[1..] == a[1..] + b;
      PayloadsAppend(a[1..], b);
    }
  }

  /** The result of `extractSseChunks`. */
  datatype Extracted = Extracted(chunks: seq<string>, remaining: string)

  /** `extractSseChunks`: the buffer's complete lines yield their payloads,
      and the text after the last newline is kept for the next read. */
  function ExtractSseChunks(buffer: string): (r: Extracted)
    ensures '\n' !in r.remaining
    ensures |r.remaining| <= |buffer| && buffer[|buffer| - |r.remaining|..] == r.remaining
    ensures |r.remaining| < |buffer| ==> buffer[|buffer| - |r.remaining| - 1] == '\n'
    ensures '\n' !in buffer ==> r == Extracted([], buffer)
  {
    var lines := SplitOn(buffer, '\n');
    SplitLast(buffer, '\n');
    if '\n' in buffer then Extracted(Payloads(lines[..|lines| - 1]), lines[|lines| - 1])
    else
      SplitNoSeparator(buffer, '\n');
      assert lines[..0] == [];
      Extracted(Payloads(lines[..|lines| - 1]), lines[|lines| - 1])
  }

  /** A line that is not a `data: ` line contributes nothing. */
  lemma OtherLinesIgnored(lines: seq<string>)
    requires forall k :: 0 <= k < |lines| ==> !(DataPrefix <= lines[k])
    ensures Payloads(lines) == []
  {
  }

  /** The server's framed lines: for each chunk its `data:` line and the
      blank line that ends the event. */
  function FrameLines(chunks: seq<string>): seq<string>
    decreases |chunks|
  {
    if |chunks| == 0 then [] else [DataPrefix + Web.Escape(chunks[0]), ""] + FrameLines(chunks[1..])
  }

  /** Splitting one event off the front of a body. */
  lemma FrameSplit(c: string, rest: string)
    ensures SplitOn(Web.Frame(c) + rest, '\n') == [DataPrefix + Web.Escape(c), ""] + SplitOn(rest, '\n')
  {
    var line := DataPrefix + Web.Escape(c);
    Web.EscapeNoNewline(c);
    assert '\n' !in line;
    SplitNoSeparator(line, '\n');
    var nl := ['\n'];
    var empty := "";
    assert Web.Frame(c) == line + (nl + nl);
    Seqs.AppendAssoc(line, nl + nl, rest);
    Seqs.AppendAssoc(nl, nl, rest);
    Seqs.AppendAssoc(line, nl, nl + rest);
    assert Web.Frame(c) + rest == line + nl + (empty + nl + rest);
    SplitAround(line, '\n', empty + nl + rest);
    SplitAround(empty, '\n', rest);
  }

  /** The lines of a one-line event: the line, the blank line, and the
      empty text after the last newline. */
  lemma EventLines(d: string)
    requires '\n' !in d
    ensures SplitOn(d + "\n\n", '\n') == [d, "", ""]
  {
    SplitNoSeparator(d, '\n');
    var empty := "";
    var tail := empty + ['\n'] + empty;
    SplitAround(empty, '\n', empty);
    assert d + "\n\n" == d + ['\n'] + tail;
    SplitAround(d, '\n', tail);
  }

  /** The lines of the empty reply: the terminator alone. */
  lemma TerminatorLines()
    ensures SplitOn(Web.Stream([]), '\n') == ["data: [DONE]", "", ""]
  {
    var d := "data: [DONE]";
    assert Web.Stream([]) == d + "\n\n";
    assert forall k :: 0 <= k < |d| ==> d[k] != '\n';
    EventLines(d);
  }

  /** The lines of a whole reply body. */
  lemma {:induction false} StreamLines(chunks: seq<string>)
    ensures SplitOn(Web.Stream(chunks), '\n') == FrameLines(chunks) + ["data: [DONE]", "", ""]
    decreases |chunks|
  {
    if |chunks| == 0 {
      TerminatorLines();
      assert chunks == [];
    } else {
      var c := chunks[0];
      var tail := Web.Stream(chunks[1..]);
      assert Web.Frames(chunks) == Web.Frame(c) + Web.Frames(chunks[1..]);
      Seqs.AppendAssoc(Web.Frame(c), Web.Frames(chunks[1..]), Web.DoneFrame);
      assert Web.Stream(chunks) == Web.Frame(c) + tail;
      FrameSplit(c, tail);
      StreamLines(chunks[1..]);
      var head := [DataPrefix + Web.Escape(c), ""];
      assert FrameLines(chunks) == head + FrameLines(chunks[1..]);
      Seqs.AppendAssoc(head, FrameLines(chunks[1..]), ["data: [DONE]", "", ""]);
    }
  }

  /** The server side of a chunk is kept by the client exactly when the
      chunk is neither empty nor the terminator. */
  lemma KeptChunk(c: string)
    ensures (Web.Escape(c) != "" && Web.Escape(c) != "[DONE]") <==> (c != "" && c != "[DONE]")
  {
    Web.EscapeShape(c);
    if '\n' in c {
      assert Web.Escape(c) != "[DONE]";
      assert c != "[DONE]";
    }
  }

  /** A chunk that survives the trip unchanged. */
  ghost predicate Transportable(c: string) {
    c != "" && c != "[DONE]" && !Contains(c, "\\n")
  }

  /** Every chunk of `chunks` is transportable. */
  ghost predicate AllTransportable(chunks: seq<string>) {
    forall k :: 0 <= k < |chunks| ==> Transportable(chunks[k])
  }

  lemma AllTransportableCons(chunks: seq<string>)
    requires |chunks| > 0
    ensures AllTransportable(chunks) <==> Transportable(chunks[0]) && AllTransportable(chunks[1..])
  {
    if Transportable(chunks[0]) && AllTransportable(chunks[1..]) {
      forall k | 0 <= k < |chunks| ensures Transportable(chunks[k]) {
        if k > 0 { assert chunks[k] == chunks[1..][k - 1]; }
      }
    }
    if AllTransportable(chunks) {
      forall k | 0 <= k < |chunks[1..]| ensures Transportable(chunks[1..][k]) {
        assert chunks[1..][k] == chunks[k + 1];
      }
    }
  }

  /** The client's reading of the first event: the unescaped chunk, unless
      the chunk is empty or the terminator text. */
  lemma FrameLinesCons(chunks: seq<string>)
    requires |chunks| > 0
    ensures var c := chunks[0];
            Payloads(FrameLines(chunks))
              == (if c != "" && c != "[DONE]" then [Unescape(Web.Escape(c))] else [])
                 + Payloads(FrameLines(chunks[1..]))
  {
    var c := chunks[0];
    var lines := [DataPrefix + Web.Escape(c), ""];
    assert FrameLines(chunks) == lines + FrameLines(chunks[1..]);
    PayloadsAppend(lines, FrameLines(chunks[1..]));
    assert (DataPrefix + Web.Escape(c))[6..] == Web.Escape(c);
    assert Payloads(lines) == LinePayload(DataPrefix + Web.Escape(c));
    KeptChunk(c);
  }

  /** What the client recovers from the framed lines of `chunks`. */
  lemma {:induction false} FrameLinesDecode(chunks: seq<string>)
    ensures Payloads(FrameLines(chunks)) == chunks <==> AllTransportable(chunks)
    decreases |chunks|
  {
    if |chunks| > 0 {
      var c := chunks[0];
      FrameLinesDecode(chunks[1..]);
      FrameLinesCons(chunks);
      AllTransportableCons(chunks);
      UnescapeEscape(c);
      var rest := Payloads(FrameLines(chunks[1..]));
      assert chunks == [c] + chunks[1..];
      if c != "" && c != "[DONE]" {
        assert Payloads(FrameLines(chunks)) == [Unescape(Web.Escape(c))] + rest;
      } else {
        FrameLinesLength(chunks[1..]);
        assert |Payloads(FrameLines(chunks))| < |chunks|;
      }
    }
  }

  /** Two lines per chunk. */
  lemma {:induction false} FrameLinesLength(chunks: seq<string>)
    ensures |Payloads(FrameLines(chunks))| <= |chunks|
    decreases |chunks|
  {
    if |chunks| > 0 {
      var lines := [DataPrefix + Web.Escape(chunks[0]), ""];
      assert FrameLines(chunks) == lines + FrameLines(chunks[1..]);
      PayloadsAppend(lines, FrameLines(chunks[1..]));
      FrameLinesLength(chunks[1..]);
    }
  }

  /** The round trip between the server's `generate()` and the client's
      `extractSseChunks`: a whole reply body gives back exactly the chunks
      sent, with nothing left over, if and only if every chunk is non-empty,
      is not the terminator text, and holds no backslash followed by `n`. */
  lemma RoundTrip(chunks: seq<string>)
    ensures ExtractSseChunks(Web.Stream(chunks)).remaining == ""
    ensures ExtractSseChunks(Web.Stream(chunks)).chunks == chunks <==>
              forall k :: 0 <= k < |chunks| ==> Transportable(chunks[k])
  {
    StreamLines(chunks);
    var lines := FrameLines(chunks) + ["data: [DONE]", "", ""];
    assert lines[..|lines| - 1] == FrameLines(chunks) + ["data: [DONE]", ""];
    PayloadsAppend(FrameLines(chunks), ["data: [DONE]", ""]);
    assert Payloads(["data: [DONE]", ""]) == [];
    FrameLinesDecode(chunks);
  }
}
