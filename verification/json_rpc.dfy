/**
 * The tool host's JSON-RPC 2.0 traffic over a child process's stdio: the messages it
 * writes (section 4 requests, section 4.1 notifications), and how it recognises the
 * response to a request (section 5) in the text the process writes to stdout. JSON
 * parsing of a line is a parameter `parse`.
 */
module JsonRpc {
  import opened Wrappers
  import opened Json
  import opened Seqs

  /** A message written to the server's stdin: a request carries an id, a notification none. */
  datatype Message =
    | Request(id: nat, methodName: string, params: Value)
    | Notification(methodName: string, params: Value)

  /** How a request's promise settles. */
  datatype Reply = Resolved(result: Option<Value>) | Rejected(message: string)

  function TimeoutMessage(methodName: string): string
  {
    "MCP request timeout: " + methodName
  }

  // ---------------------------------------------------------------------------------
  // Lines.
  // ---------------------------------------------------------------------------------

  /** `s.split('\n')`: the pieces between newlines, empty ones included; never empty. */
  function Split(s: string): (r: seq<string>)
    ensures |r| >= 1
  {
    if s == [] then [""]
    else
      var t := Split(s[1..]);
      if s[0] == '\n' then [""] + t else [[s[0]] + t[0]] + t[1..]
  }

  /** No piece of a split holds a newline. */
  lemma {:induction false} SplitPiecesHaveNoNewline(s: string)
    ensures forall i :: 0 <= i < |Split(s)| ==> '\n' !in Split(s)[i]
  {
    if s != [] {
      SplitPiecesHaveNoNewline(s[1..]);
      var t := Split(s[1..]);
      if s[0] != '\n' {
        assert '\n' !in [s[0]] + t[0];
        assert Split(s) == [[s[0]] + t[0]] + t[1..];
      }
    }
  }

  /** `parts.join('\n')`. */
  function Join(parts: seq<string>): string
    requires |parts| >= 1
  {
    if |parts| == 1 then parts[0] else parts[0] + "\n" + Join(parts[1..])
  }

  /** Joining the pieces of a split gives the text back. */
  lemma {:induction false} JoinSplit(s: string)
    ensures Join(Split(s)) == s
  {
    if s != [] {
      var t := Split(s[1..]);
      JoinSplit(s[1..]);
      if s[0] != '\n' {
        var r := Split(s);
        if |t| > 1 {
          assert r[1..] == t[1..];
          assert Join(r) == [s[0]] + t[0] + "\n" + Join(t[1..]);
        }
      } else {
        assert Split(s)[1..] == t;
      }
    }
  }

  /** Splitting newline-free pieces joined by newlines gives the pieces back. */
  lemma {:induction false} SplitJoin(parts: seq<string>)
    requires |parts| >= 1 && forall i :: 0 <= i < |parts| ==> '\n' !in parts[i]
    ensures Split(Join(parts)) == parts
    decreases |parts|
  {
    if |parts| == 1 {
      NoNewlineSplit(parts[0]);
    } else {
      SplitJoin(parts[1..]);
      NewlineSplit(parts[0], Join(parts[1..]));
      assert parts == [parts[0]] + parts[1..];
    }
  }

  /** Text without a newline splits into itself. */
  lemma {:induction false} NoNewlineSplit(s: string)
    requires '\n' !in s
    ensures Split(s) == [s]
  {
    if s != [] {
      assert '\n' !in s[1..] && s[0] != '\n';
      NoNewlineSplit(s[1..]);
      assert Split(s) == [[s[0]] + s[1..]];
      assert [s[0]] + s[1..] == s;
    }
  }

  /** A newline after a newline-free piece ends that piece. */
  lemma {:induction false} NewlineSplit(a: string, b: string)
    requires '\n' !in a
    ensures Split(a + "\n" + b) == [a] + Split(b)
  {
    if a == [] {
      assert a + "\n" + b == "\n" + b;
      assert ("\n" + b)[1..] == b;
    } else {
      var s := a + "\n" + b;
      assert s[0] == a[0] && s[0] != '\n';
      assert s[1..] == a[1..] + "\n" + b;
      assert '\n' !in a[1..];
      NewlineSplit(a[1..], b);
      var t := Split(s[1..]);
      assert t[0] == a[1..] && t[1..] == Split(b);
      assert Split(s) == [[a[0]] + t[0]] + t[1..];
      assert [a[0]] + a[1..] == a;
    }
  }

  /** `SplitAppend`'s conclusion for `a` and `b`. */
  ghost predicate SplitsAppended(a: string, b: string)
  {
    var pa := Split(a);
    Split(a + b) == pa[..|pa| - 1] + Split(pa[|pa| - 1] + b)
  }

  /** The step of `SplitAppend` when `a` starts with a newline. */
  lemma SplitAppendNewline(a: string, b: string)
    requires a != [] && a[0] == '\n' && SplitsAppended(a[1..], b)
    ensures SplitsAppended(a, b)
  {
    var t := Split(a[1..]);
    SplitAtNewline(a);
    DropAppend(a, b);
    SplitAtNewline(a + b);
    LastOfCons("", t);
    AppendAssoc([""], t[..|t| - 1], Split(t[|t| - 1] + b));
  }

  /** A leading newline ends an empty first piece. */
  lemma SplitAtNewline(s: string)
    requires s != [] && s[0] == '\n'
    ensures Split(s) == [""] + Split(s[1..])
  {
  }

  /** All but the last, and the last, of a sequence with an element put in front. */
  lemma LastOfCons<T>(x: T, t: seq<T>)
    requires t != []
    ensures var p := [x] + t; p[..|p| - 1] == [x] + t[..|t| - 1] && p[|p| - 1] == t[|t| - 1]
  {
  }

  /** The step of `SplitAppend` when `a` starts with another character and its first piece ends before `a` does. */
  lemma SplitAppendLongPiece(a: string, b: string)
    requires a != [] && a[0] != '\n' && |Split(a[1..])| > 1 && SplitsAppended(a[1..], b)
    ensures SplitsAppended(a, b)
  {
    var t := Split(a[1..]);
    var front := t[..|t| - 1];
    var back := Split(t[|t| - 1] + b);
    var tb := Split(a[1..] + b);
    var pa := Split(a);
    assert pa == [[a[0]] + t[0]] + t[1..];
    DropAppend(a, b);
    assert Split(a + b) == [[a[0]] + tb[0]] + tb[1..];
    assert tb == front + back;
    DropAppend(front, back);
    assert front[0] == t[0] && front[1..] == t[1..|t| - 1];
    assert pa[..|pa| - 1] == [[a[0]] + t[0]] + t[1..|t| - 1] && pa[|pa| - 1] == t[|t| - 1];
    AppendAssoc([[a[0]] + t[0]], t[1..|t| - 1], back);
  }

  /** The step of `SplitAppend` when `a` is a single piece. */
  lemma SplitAppendOnePiece(a: string, b: string)
    requires a != [] && a[0] != '\n' && |Split(a[1..])| == 1
    ensures SplitsAppended(a, b)
  {
    var t := Split(a[1..]);
    var pa := Split(a);
    assert pa == [[a[0]] + t[0]];
    JoinSplit(a);
    assert pa[0] == a;
    assert pa[..0] == [];
  }

  /** The text up to its last newline splits into all pieces but the last. */
  lemma {:induction false} SplitAppend(a: string, b: string)
    ensures SplitsAppended(a, b)
    decreases |a|
  {
    if a == [] {
      assert a + b == b && Split(a) == [""] && [""][..0] == [] && "" + b == b;
    } else if a[0] == '\n' {
      SplitAppend(a[1..], b);
      SplitAppendNewline(a, b);
    } else if |Split(a[1..])| > 1 {
      SplitAppend(a[1..], b);
      SplitAppendLongPiece(a, b);
    } else {
      SplitAppendOnePiece(a, b);
    }
  }

  /** `.filter(Boolean)`: the non-empty pieces, in order. */
  function NonEmpty(parts: seq<string>): (r: seq<string>)
    ensures forall i :: 0 <= i < |r| ==> r[i] != ""
  {
    if parts == [] then []
    else (if parts[0] == "" then [] else [parts[0]]) + NonEmpty(parts[1..])
  }

  /** Filtering drops the empty pieces and keeps the count of every other one. */
  lemma {:induction false} NonEmptyCounts(parts: seq<string>)
    ensures multiset(NonEmpty(parts)) == multiset(parts)["" := 0]
  {
    if parts != [] {
      NonEmptyCounts(parts[1..]);
      var head := if parts[0] == "" then [] else [parts[0]];
      assert NonEmpty(parts) == head + NonEmpty(parts[1..]);
      assert parts == [parts[0]] + parts[1..];
    }
  }

  /**
   * Filtering keeps exactly the non-empty pieces: every kept piece was there, every
   * non-empty piece is kept, and each as often as it occurs (the order is `NonEmptyAppend`).
   */
  lemma {:induction false} NonEmptyKeeps(parts: seq<string>)
    ensures forall i :: 0 <= i < |NonEmpty(parts)| ==> NonEmpty(parts)[i] in parts
    ensures forall i :: 0 <= i < |parts| && parts[i] != "" ==> parts[i] in NonEmpty(parts)
    ensures multiset(NonEmpty(parts)) == multiset(parts)["" := 0]
  {
    NonEmptyCounts(parts);
    forall i | 0 <= i < |NonEmpty(parts)|
      ensures NonEmpty(parts)[i] in parts
    {
      assert multiset(NonEmpty(parts))[NonEmpty(parts)[i]] > 0;
    }
    forall i | 0 <= i < |parts| && parts[i] != ""
      ensures parts[i] in NonEmpty(parts)
    {
      assert multiset(parts)[parts[i]] > 0;
      assert multiset(NonEmpty(parts))[parts[i]] == multiset(parts)[parts[i]];
      assert parts[i] in multiset(NonEmpty(parts));
    }
  }

  lemma {:induction false} NonEmptyAppend(a: seq<string>, b: seq<string>)
    ensures NonEmpty(a + b) == NonEmpty(a) + NonEmpty(b)
  {
    if a != [] {
      assert (a + b)[0] == a[0] && (a + b)[1..] == a[1..] + b;
      NonEmptyAppend(a[1..], b);
      var head := if a[0] == "" then [] else [a[0]];
      assert NonEmpty(a + b) == head + NonEmpty(a[1..] + b);
      assert NonEmpty(a) == head + NonEmpty(a[1..]);
      assert head + (NonEmpty(a[1..]) + NonEmpty(b)) == (head + NonEmpty(a[1..])) + NonEmpty(b);
    } else {
      assert a + b == b;
    }
  }

  /** The lines of one stdout chunk: split on `\n`, empty lines dropped. */
  function Lines(chunk: string): seq<string>
  {
    NonEmpty(Split(chunk))
  }

  /** Every line of a chunk is non-empty and newline-free. */
  lemma LinesAreLines(chunk: string)
    ensures forall i :: 0 <= i < |Lines(chunk)| ==> Lines(chunk)[i] != "" && '\n' !in Lines(chunk)[i]
  {
    SplitPiecesHaveNoNewline(chunk);
    NonEmptyKeeps(Split(chunk));
  }

  // ---------------------------------------------------------------------------------
  // Recognising the response.
  // ---------------------------------------------------------------------------------

  /**
   * `new Error(error.message).message`: the error's `message` converted to text, or
   * empty when the error is not an object carrying one.
   */
  function ErrorMessage(error: Value): string
  {
    if error.Obj? && "message" in error.fields then ToText(error.fields["message"]) else ""
  }

  /** The reply a response settles with: a truthy `error` rejects with its message, otherwise `result` resolves. */
  function ReplyOf(response: Object): (r: Reply)
    ensures r.Rejected? <==> Truthy(Get(response, "error"))
    ensures r.Resolved? ==> r.result == Get(response, "result")
  {
    if Truthy(Get(response, "error")) then Rejected(ErrorMessage(response["error"]))
    else Resolved(Get(response, "result"))
  }

  /** A line that parses to an object whose `id` is this request's id answers it. */
  function MatchLine(line: string, id: nat, parse: string -> Option<Value>): (r: Option<Reply>)
    ensures r.Some? <==> parse(line).Some? && parse(line).value.Obj? &&
                         Get(parse(line).value.fields, "id") == Some(Num(id))
  {
    match parse(line)
    case None => None
    case Some(v) =>
      if v.Obj? && Get(v.fields, "id") == Some(Num(id)) then Some(ReplyOf(v.fields)) else None
  }

  /** The first line that answers the request decides; later lines are not looked at. */
  function MatchLines(lines: seq<string>, id: nat, parse: string -> Option<Value>): (r: Option<Reply>)
    ensures r.None? <==> forall i :: 0 <= i < |lines| ==> MatchLine(lines[i], id, parse).None?
    ensures r.Some? ==> exists i :: 0 <= i < |lines| && MatchLine(lines[i], id, parse) == r &&
                                    forall j :: 0 <= j < i ==> MatchLine(lines[j], id, parse).None?
  {
    if lines == [] then None
    else if MatchLine(lines[0], id, parse).Some? then MatchLine(lines[0], id, parse)
    else
      var r := MatchLines(lines[1..], id, parse);
      if r.Some? then
        ghost var i :| 0 <= i < |lines[1..]| && MatchLine(lines[1..][i], id, parse) == r &&
                       forall j :: 0 <= j < i ==> MatchLine(lines[1..][j], id, parse).None?;
        assert MatchLine(lines[i + 1], id, parse) == r;
        r
      else r
  }

  lemma {:induction false} MatchLinesAppend(a: seq<string>, b: seq<string>, id: nat, parse: string -> Option<Value>)
    ensures MatchLines(a + b, id, parse) ==
            if MatchLines(a, id, parse).Some? then MatchLines(a, id, parse) else MatchLines(b, id, parse)
  {
    if a != [] {
      assert (a + b)[0] == a[0] && (a + b)[1..] == a[1..] + b;
      MatchLinesAppend(a[1..], b, id, parse);
    } else {
      assert a + b == b;
    }
  }

  /** The `data` handler on one chunk: the reply it settles the request with, if any. */
  function MatchChunk(chunk: string, id: nat, parse: string -> Option<Value>): Option<Reply>
  {
    MatchLines(Lines(chunk), id, parse)
  }

  /**
   * The `data` handler as written: it walks the chunk's lines and stops at the first one
   * answering the request; lines that do not parse or carry another id are skipped.
   */
  method HandleData(chunk: string, id: nat, parse: string -> Option<Value>) returns (r: Option<Reply>)
    ensures r == MatchChunk(chunk, id, parse)
  {
    var lines := Lines(chunk);
    var i := 0;
    while i < |lines|
      invariant 0 <= i <= |lines|
      invariant MatchLines(lines, id, parse) == MatchLines(lines[i..], id, parse)
    {
      var m := MatchLine(lines[i], id, parse);
      if m.Some? {
        return m;
      }
      assert lines[i..][1..] == lines[i + 1..];
      i := i + 1;
    }
    return None;
  }

  /**
   * `sendRequest` as written: each chunk is matched on its own, the first chunk holding
   * the response settles the request, and if none of the chunks that arrive before the
   * timer fires does, the request is rejected with the timeout message.
   */
  function AwaitPerChunk(chunks: seq<string>, id: nat, methodName: string, parse: string -> Option<Value>): Reply
  {
    if chunks == [] then Rejected(TimeoutMessage(methodName))
    else
      match MatchChunk(chunks[0], id, parse)
      case Some(reply) => reply
      case None => AwaitPerChunk(chunks[1..], id, methodName, parse)
  }

  /** The first chunk that answers the request settles it with its reply. */
  lemma {:induction false} FirstAnsweringChunkSettles(chunks: seq<string>, id: nat, methodName: string,
                                                      parse: string -> Option<Value>, i: nat)
    requires i < |chunks| && MatchChunk(chunks[i], id, parse).Some?
    requires forall j :: 0 <= j < i ==> MatchChunk(chunks[j], id, parse).None?
    ensures AwaitPerChunk(chunks, id, methodName, parse) == MatchChunk(chunks[i], id, parse).value
    decreases i
  {
    if i > 0 {
      assert MatchChunk(chunks[0], id, parse).None?;
      assert chunks[1..][i - 1] == chunks[i];
      FirstAnsweringChunkSettles(chunks[1..], id, methodName, parse, i - 1);
    }
  }

  /** When no chunk answers the request, the timer rejects it with the timeout message. */
  lemma {:induction false} NoAnswerTimesOut(chunks: seq<string>, id: nat, methodName: string,
                                            parse: string -> Option<Value>)
    requires forall i :: 0 <= i < |chunks| ==> MatchChunk(chunks[i], id, parse).None?
    ensures AwaitPerChunk(chunks, id, methodName, parse) == Rejected(TimeoutMessage(methodName))
    decreases |chunks|
  {
    if chunks != [] {
      assert MatchChunk(chunks[0], id, parse).None?;
      NoAnswerTimesOut(chunks[1..], id, methodName, parse);
    }
  }

  /**
   * Waiting for the response as written: the handler runs on each chunk in turn until
   * one settles the request; when the chunks run out, the timer rejects it.
   */
  method Await(chunks: seq<string>, id: nat, methodName: string, parse: string -> Option<Value>) returns (r: Reply)
    ensures r == AwaitPerChunk(chunks, id, methodName, parse)
  {
    var i := 0;
    while i < |chunks|
      invariant 0 <= i <= |chunks|
      invariant AwaitPerChunk(chunks, id, methodName, parse) == AwaitPerChunk(chunks[i..], id, methodName, parse)
    {
      var m := HandleData(chunks[i], id, parse);
      if m.Some? {
        return m.value;
      }
      assert chunks[i..][1..] == chunks[i + 1..];
      i := i + 1;
    }
    assert chunks[i..] == [];
    return Rejected(TimeoutMessage(methodName));
  }

  // ---------------------------------------------------------------------------------
  // Line matching across chunks.
  // ---------------------------------------------------------------------------------

  /** The text a sequence of chunks adds up to. */
  function Concat(chunks: seq<string>): string
  {
    if chunks == [] then "" else chunks[0] + Concat(chunks[1..])
  }

  /** The newline-terminated lines of a stream; the unterminated tail is not yet a line. */
  function CompleteLines(stream: string): seq<string>
  {
    var parts := Split(stream);
    NonEmpty(parts[..|parts| - 1])
  }

  /** The reply the complete lines of a stream decide, or the timeout. */
  function Decide(lines: seq<string>, id: nat, methodName: string, parse: string -> Option<Value>): Reply
  {
    match MatchLines(lines, id, parse)
    case Some(reply) => reply
    case None => Rejected(TimeoutMessage(methodName))
  }

  /**
   * A matcher that keeps the unterminated tail of each chunk and prefixes it to the next
   * one, matching only complete lines.
   */
  function AwaitBuffered(pending: string, chunks: seq<string>, id: nat, methodName: string,
                         parse: string -> Option<Value>): Reply
    decreases |chunks|
  {
    if chunks == [] then Rejected(TimeoutMessage(methodName))
    else
      var parts := Split(pending + chunks[0]);
      match MatchLines(NonEmpty(parts[..|parts| - 1]), id, parse)
      case Some(reply) => reply
      case None => AwaitBuffered(parts[|parts| - 1], chunks[1..], id, methodName, parse)
  }

  /** The complete lines of a longer stream: those of a prefix, then those its unterminated tail starts. */
  lemma CompleteLinesAfter(prefix: string, rest: string)
    ensures var parts := Split(prefix);
      CompleteLines(prefix + rest) == NonEmpty(parts[..|parts| - 1]) + CompleteLines(parts[|parts| - 1] + rest)
  {
    var parts := Split(prefix);
    var complete := parts[..|parts| - 1];
    var whole := Split(prefix + rest);
    var tailParts := Split(parts[|parts| - 1] + rest);
    assert CompleteLines(prefix + rest) == NonEmpty(whole[..|whole| - 1]);
    assert CompleteLines(parts[|parts| - 1] + rest) == NonEmpty(tailParts[..|tailParts| - 1]);
    assert whole[..|whole| - 1] == complete + tailParts[..|tailParts| - 1] by {
      SplitAppend(prefix, rest);
      assert whole == complete + tailParts;
    }
    assert NonEmpty(complete + tailParts[..|tailParts| - 1]) ==
           NonEmpty(complete) + NonEmpty(tailParts[..|tailParts| - 1]) by {
      NonEmptyAppend(complete, tailParts[..|tailParts| - 1]);
    }
  }

  /**
   * The buffered matcher's answer depends only on the text the server wrote, not on how
   * that text was cut into chunks: it is the first complete line answering the request.
   */
  lemma {:induction false} BufferedIgnoresChunking(pending: string, chunks: seq<string>, id: nat, methodName: string,
                                                   parse: string -> Option<Value>)
    requires '\n' !in pending
    ensures AwaitBuffered(pending, chunks, id, methodName, parse) ==
            Decide(CompleteLines(pending + Concat(chunks)), id, methodName, parse)
    decreases |chunks|
  {
    if chunks == [] {
      NoNewlineSplit(pending);
      assert pending + Concat(chunks) == pending;
    } else {
      var first := pending + chunks[0];
      var parts := Split(first);
      var tail := parts[|parts| - 1];
      var rest := Concat(chunks[1..]);
      var now := NonEmpty(parts[..|parts| - 1]);
      var later := CompleteLines(tail + rest);
      assert pending + Concat(chunks) == first + rest;
      SplitPiecesHaveNoNewline(first);
      CompleteLinesAfter(first, rest);
      assert CompleteLines(pending + Concat(chunks)) == now + later;
      MatchLinesAppend(now, later, id, parse);
      BufferedIgnoresChunking(tail, chunks[1..], id, methodName, parse);
      if MatchLines(now, id, parse).None? {
        assert AwaitBuffered(pending, chunks, id, methodName, parse) ==
               AwaitBuffered(tail, chunks[1..], id, methodName, parse);
      }
    }
  }

  /**
   * As written, a response line that reaches stdout cut in two chunks is never
   * recognised when neither piece is itself an answer: the request times out, although
   * the same text in one chunk resolves it. The buffered matcher resolves it either way.
   */
  lemma {:induction false} SplitReplyTimesOut(line: string, cut: nat, id: nat, methodName: string,
                                              parse: string -> Option<Value>)
    requires '\n' !in line && 0 < cut < |line|
    requires MatchLine(line, id, parse).Some?
    requires MatchLine(line[..cut], id, parse).None? && MatchLine(line[cut..], id, parse).None?
    ensures AwaitPerChunk([line + "\n"], id, methodName, parse) == MatchLine(line, id, parse).value
    ensures AwaitPerChunk([line[..cut], line[cut..] + "\n"], id, methodName, parse) == Rejected(TimeoutMessage(methodName))
    ensures AwaitBuffered("", [line[..cut], line[cut..] + "\n"], id, methodName, parse) == MatchLine(line, id, parse).value
  {
    var first, second := line[..cut], line[cut..];
    assert line == first + second;
    assert '\n' !in first && '\n' !in second;
    OneLine(line);
    OneLine(second);
    UnterminatedLine(first);
    assert AwaitPerChunk([first, second + "\n"], id, methodName, parse) == Rejected(TimeoutMessage(methodName)) by {
      var chunks := [first, second + "\n"];
      assert MatchChunk(chunks[0], id, parse).None? && MatchChunk(chunks[1], id, parse).None?;
      NoAnswerTimesOut(chunks, id, methodName, parse);
    }
    BufferedIgnoresChunking("", [first, second + "\n"], id, methodName, parse);
    assert "" + Concat([first, second + "\n"]) == line + "\n" by {
      assert Concat([second + "\n"]) == second + "\n" + Concat([]);
      assert [first, second + "\n"][1..] == [second + "\n"];
    }
  }

  /** A non-empty newline-free text followed by a newline is exactly one line, and a complete one. */
  lemma OneLine(line: string)
    requires '\n' !in line && line != ""
    ensures Lines(line + "\n") == [line] && CompleteLines(line + "\n") == [line]
  {
    NewlineSplit(line, "");
    NoNewlineSplit("");
    assert line + "\n" == line + "\n" + "";
    assert Split(line + "\n") == [line, ""];
    assert [line, ""][1..] == [""] && [""][1..] == [] && [line, ""][..1] == [line] && [line][1..] == [];
    assert NonEmpty([]) == [];
    assert NonEmpty([line]) == [line] + NonEmpty([]);
    assert NonEmpty([""]) == [] + NonEmpty([]);
    assert NonEmpty([line, ""]) == [line] + NonEmpty([""]);
  }

  /** A non-empty newline-free chunk is one line on its own. */
  lemma UnterminatedLine(line: string)
    requires '\n' !in line && line != ""
    ensures Lines(line) == [line]
  {
    NoNewlineSplit(line);
    assert [line][1..] == [];
    assert NonEmpty([line]) == [line] + NonEmpty([]);
    assert NonEmpty([]) == [];
  }

  /** A whole `tools/list` response line. */
  const ResponseLine := "{\"jsonrpc\":\"2.0\",\"id\":1,\"result\":{}}"

  /** A parser that understands exactly the response line. */
  function ParseResponseOnly(line: string): Option<Value>
  {
    if line == ResponseLine then Some(Obj(map["jsonrpc" := Str("2.0"), "id" := Num(1), "result" := Obj(map[])]))
    else None
  }

  /**
   * An instance: the response cut after `"id":1,` times out as written, and resolves with
   * its empty result in one chunk or under the buffered matcher.
   */
  lemma ResponseCutAfterId()
    ensures ResponseLine[..24] == "{\"jsonrpc\":\"2.0\",\"id\":1,"
    ensures AwaitPerChunk([ResponseLine[..24], ResponseLine[24..] + "\n"], 1, "tools/list", ParseResponseOnly) ==
            Rejected(TimeoutMessage("tools/list"))
    ensures AwaitBuffered("", [ResponseLine[..24], ResponseLine[24..] + "\n"], 1, "tools/list", ParseResponseOnly) ==
            Resolved(Some(Obj(map[])))
  {
    assert '\n' !in ResponseLine;
    assert MatchLine(ResponseLine, 1, ParseResponseOnly) == Some(Resolved(Some(Obj(map[]))));
    assert |ResponseLine[..24]| != |ResponseLine| && |ResponseLine[24..]| != |ResponseLine|;
    SplitReplyTimesOut(ResponseLine, 24, 1, "tools/list", ParseResponseOnly);
  }
}
