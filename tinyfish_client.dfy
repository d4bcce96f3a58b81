/**
 * The response handling of the backend's TinyFish client: extracting the
 * audit JSON from the agent's free-text answer (parse_tinyfish_response) and
 * the server-sent-event loop of run_audit that accumulates that answer.
 *
 * The JSON decoder (`json.loads`) and encoder (`json.dumps`) are parameters:
 * nothing here depends on how they work, only on whether decoding succeeds
 * and what value it yields. The clock (`datetime.now()`) is the parameter `now`.
 */
module TinyfishClient {
  import opened Wrappers
  import opened Json
  import opened Text

  /**
   * The dictionary parse_tinyfish_response returns. `audit_date` holds a
   * datetime, not a JSON value, so it is kept apart from the other keys.
   */
  datatype ParsedAudit = ParsedAudit(fields: map<string, Json>, auditDate: int)

  /** The fallback: the url, the current time and three empty issue lists. */
  function EmptyAudit(url: string, now: int): ParsedAudit {
    ParsedAudit(
      map["url" := JString(url), "technical_failures" := JArray([]),
          "contextual_errors" := JArray([]), "competitive_gaps" := JArray([])],
      now)
  }

  /**
   * The text handed to the decoder: from the first `{` to the last `}`
   * inclusive, or nothing when either brace is missing. When the last `}`
   * comes before the first `{`, Python's slice is empty.
   */
  function JsonCandidate(result: string): (r: Option<string>)
    ensures r.None? <==> '{' !in result || '}' !in result
    ensures r.Some? ==>
              var i, j := Find(result, '{'), RFind(result, '}');
              && (i <= j ==> r.value == result[i..j + 1])
              && (j < i ==> r.value == [])
    ensures r.Some? && r.value != [] ==>
              && r.value[0] == '{' && r.value[|r.value| - 1] == '}'
              && r.value[0] !in result[..Find(result, '{')]
              && r.value[|r.value| - 1] !in result[RFind(result, '}') + 1..]
  {
    var i, j := Find(result, '{'), RFind(result, '}');
    if i == -1 || j == -1 then None
    else Some(Slice(result, i, j + 1))
  }

  /**
   * parse_tinyfish_response. It is total: every failure (no braces, a decode
   * error, a decoded value that is not an object) yields the empty audit.
   */
  function ParseTinyfishResponse(result: string, url: string, now: int,
                                 decode: string -> Option<Json>): (r: ParsedAudit)
    ensures "url" in r.fields && r.fields["url"] == JString(url)
    ensures r.auditDate == now && "audit_date" !in r.fields
    ensures JsonCandidate(result).None? ==> r == EmptyAudit(url, now)
    ensures JsonCandidate(result).Some? ==>
              match decode(JsonCandidate(result).value)
              case Some(JObject(m)) =>
                && r.fields.Keys == m.Keys - {"audit_date"} + {"url"}
                && forall k :: k in m && k != "url" && k != "audit_date" ==> r.fields[k] == m[k]
              case _ => r == EmptyAudit(url, now)
  {
    match JsonCandidate(result)
    case None => EmptyAudit(url, now)
    case Some(text) =>
      match decode(text)
      case Some(JObject(m)) => ParsedAudit((m - {"audit_date"})["url" := JString(url)], now)
      case _ => EmptyAudit(url, now)
  }

  /** Whatever text surrounds one brace-delimited block, that block is what gets decoded. */
  lemma SurroundingTextIgnored(before: string, block: string, after: string)
    requires '{' !in before && '}' !in after
    requires |block| >= 2 && block[0] == '{' && block[|block| - 1] == '}'
    ensures JsonCandidate(before + block + after) == Some(block)
  {
    var s := before + block + after;
    var i, j := Find(s, '{'), RFind(s, '}');
    assert s[|before|] == '{';
    assert s[..|before|] == before;
    assert s[|before| + |block| - 1] == '}';
    assert s[|before| + |block|..] == after;
    assert s[i..j + 1] == block;
  }

  /** Decoding failure and a non-object answer both fall back to the empty audit. */
  lemma FailedDecodeGivesEmptyAudit(result: string, url: string, now: int, decode: string -> Option<Json>)
    requires JsonCandidate(result).Some?
    requires !decode(JsonCandidate(result).value).Some? || !decode(JsonCandidate(result).value).value.JObject?
    ensures ParseTinyfishResponse(result, url, now, decode) == EmptyAudit(url, now)
  {
  }

  // ---------------------------------------------------------------- SSE fold

  /** What run_audit keeps while reading the stream. */
  datatype SseState = SseState(resultText: string, rawEvents: seq<string>)

  /**
   * The exceptions that escape the loop, ending run_audit: `event.get` on a
   * decoded value that is not a dictionary, and `in` or `+=` applied to a
   * value that does not support it.
   */
  datatype StreamError = AttributeError | TypeError

  const DataPrefix := "data: "

  /** Python's `key in value` for a decoded JSON value. */
  function Contains(value: Json, key: string): (r: Result<bool, StreamError>)
    ensures r.Err? <==> !(value.JObject? || value.JArray? || value.JString?)
    ensures value.JObject? ==> r == Ok(key in value.fields)
    ensures value.JArray? ==> r == Ok(JString(key) in value.items)
    ensures value.JString? ==> r == Ok(HasSubstring(value.s, key))
  {
    match value
    case JObject(m) => Ok(key in m)
    case JArray(items) => Ok(JString(key) in items)
    case JString(s) => Ok(HasSubstring(s, key))
    case _ => Err(TypeError)
  }

  /** A string-valued field appended to (or replacing) the text; anything else is a TypeError. */
  function AsText(value: Json): Result<string, StreamError> {
    if value.JString? then Ok(value.s) else Err(TypeError)
  }

  /** How one decoded-or-not payload changes `result_text`. */
  function ApplyPayload(text: string, data: string, decode: string -> Option<Json>,
                        encode: Json -> string): Result<string, StreamError>
  {
    match decode(data)
    case None => Ok(text + data)
    case Some(JObject(event)) =>
      if "type" in event && event["type"] == JString("COMPLETE") then
        if "resultJson" in event then
          match Contains(event["resultJson"], "rejected")
          case Ok(true) =>
            // the warning indexes `result_json['rejected']`: only a dictionary allows a string index
            if event["resultJson"].JObject? then Ok(text) else Err(TypeError)
          case Ok(false) => Ok(encode(event["resultJson"]))
          case Err(e) => Err(e)
        else Ok(text)
      else if "result" in event then
        AsText(event["result"])
      else if "output" in event then
        match AsText(event["output"])
        case Ok(s) => Ok(text + s)
        case Err(e) => Err(e)
      else if "message" in event then
        match AsText(event["message"])
        case Ok(s) => Ok(text + s)
        case Err(e) => Err(e)
      else Ok(text)
    case Some(_) => Err(AttributeError)
  }

  /** One iteration of run_audit's `async for line in response.aiter_lines()`. */
  function Step(st: SseState, line: string, decode: string -> Option<Json>,
                encode: Json -> string): Result<SseState, StreamError>
  {
    var events := if !IsBlank(line) then st.rawEvents + [line] else st.rawEvents;
    if StartsWith(line, DataPrefix) then
      var data := line[|DataPrefix|..];
      if !IsBlank(data) && data != "[DONE]" then
        match ApplyPayload(st.resultText, data, decode, encode)
        case Ok(text) => Ok(SseState(text, events))
        case Err(e) => Err(e)
      else Ok(SseState(st.resultText, events))
    else Ok(SseState(st.resultText, events))
  }

  /** The loop over a whole stream, from empty text and no events; the first exception ends it. */
  function Fold(lines: seq<string>, decode: string -> Option<Json>,
                encode: Json -> string): Result<SseState, StreamError>
  {
    if lines == [] then Ok(SseState("", []))
    else
      match Fold(lines[..|lines| - 1], decode, encode)
      case Ok(st) => Step(st, lines[|lines| - 1], decode, encode)
      case Err(e) => Err(e)
  }

  /** The loop of run_audit (backend/tinyfish_client.py, lines 177-212): `result_text` and `raw_events` updated line by line. */
  method CollectResult(lines: seq<string>, decode: string -> Option<Json>, encode: Json -> string)
    returns (r: Result<SseState, StreamError>)
    ensures r == Fold(lines, decode, encode)
  {
    var resultText := "";
    var rawEvents: seq<string> := [];
    var i := 0;
    while i < |lines|
      invariant 0 <= i <= |lines|
      invariant Fold(lines[..i], decode, encode) == Ok(SseState(resultText, rawEvents))
    {
      var line := lines[i];
      assert lines[..i + 1][..i] == lines[..i];
      ghost var before := SseState(resultText, rawEvents);
      if !IsBlank(line) {
        rawEvents := rawEvents + [line];
      }
      if StartsWith(line, DataPrefix) {
        var data := line[|DataPrefix|..];
        if !IsBlank(data) && data != "[DONE]" {
          var applied := ApplyPayload(resultText, data, decode, encode);
          if applied.Err? {
            assert Step(before, line, decode, encode) == Err(applied.error);
            FoldErrorIsFinal(lines, i + 1, decode, encode);
            assert lines[..|lines|] == lines;
            return Err(applied.error);
          }
          resultText := applied.value;
        }
      }
      assert Step(before, line, decode, encode) == Ok(SseState(resultText, rawEvents));
      i := i + 1;
    }
    assert lines[..i] == lines;
    r := Ok(SseState(resultText, rawEvents));
  }

  /** Once an exception escapes, the stream's outcome is that exception whatever follows. */
  lemma {:induction false} FoldErrorIsFinal(lines: seq<string>, n: nat, decode: string -> Option<Json>,
                                            encode: Json -> string)
    requires n <= |lines|
    requires Fold(lines[..n], decode, encode).Err?
    ensures Fold(lines, decode, encode) == Fold(lines[..n], decode, encode)
    decreases |lines|
  {
    if n < |lines| {
      assert lines[..|lines| - 1][..n] == lines[..n];
      FoldErrorIsFinal(lines[..|lines| - 1], n, decode, encode);
    } else {
      assert lines[..n] == lines;
    }
  }

  /** The lines that count as events: those that are not blank. */
  function NonBlank(lines: seq<string>): (r: seq<string>)
    ensures |r| <= |lines|
    ensures forall i :: 0 <= i < |r| ==> !IsBlank(r[i])
  {
    if lines == [] then []
    else
      NonBlank(lines[..|lines| - 1]) + (if !IsBlank(lines[|lines| - 1]) then [lines[|lines| - 1]] else [])
  }

  /** `raw_events` is exactly the non-blank lines read, in order. */
  lemma {:induction false} RawEventsAreNonBlankLines(lines: seq<string>, decode: string -> Option<Json>,
                                                     encode: Json -> string)
    requires Fold(lines, decode, encode).Ok?
    ensures Fold(lines, decode, encode).value.rawEvents == NonBlank(lines)
  {
    if lines != [] {
      var init := lines[..|lines| - 1];
      assert Fold(init, decode, encode).Ok?;
      RawEventsAreNonBlankLines(init, decode, encode);
    }
  }

  /** A line without the `data: ` prefix leaves the text as it was. */
  lemma NonDataLineKeepsText(st: SseState, line: string, decode: string -> Option<Json>, encode: Json -> string)
    requires !StartsWith(line, DataPrefix)
    ensures Step(st, line, decode, encode).Ok?
    ensures Step(st, line, decode, encode).value.resultText == st.resultText
  {
  }

  /** A blank payload and the `[DONE]` marker are ignored. */
  lemma IgnoredPayloadKeepsText(st: SseState, payload: string, decode: string -> Option<Json>,
                                encode: Json -> string)
    requires IsBlank(payload) || payload == "[DONE]"
    ensures Step(st, DataPrefix + payload, decode, encode).Ok?
    ensures Step(st, DataPrefix + payload, decode, encode).value.resultText == st.resultText
  {
    var line := DataPrefix + payload;
    assert StartsWith(line, DataPrefix) && line[|DataPrefix|..] == payload;
  }

  /** A payload the decoder rejects is appended verbatim. */
  lemma UndecodablePayloadAppended(st: SseState, payload: string, decode: string -> Option<Json>,
                                   encode: Json -> string)
    requires !IsBlank(payload) && payload != "[DONE]" && decode(payload).None?
    ensures Step(st, DataPrefix + payload, decode, encode) == Ok(SseState(st.resultText + payload, st.rawEvents + [DataPrefix + payload]))
  {
    var line := DataPrefix + payload;
    assert StartsWith(line, DataPrefix) && line[|DataPrefix|..] == payload;
    assert !IsBlank(line) by {
      assert line[0] == 'd';
    }
  }

  /**
   * A COMPLETE event with resultJson replaces the text by its serialisation,
   * unless the value contains "rejected": a dictionary with that key keeps
   * the text, while a string or list containing it raises TypeError when the
   * warning subscripts it with a string. The result/output/message keys of
   * such an event are never consulted.
   */
  lemma CompleteEventOutcome(text: string, data: string, decode: string -> Option<Json>,
                             encode: Json -> string)
    requires decode(data).Some? && decode(data).value.JObject?
    requires var event := decode(data).value.fields;
             "type" in event && event["type"] == JString("COMPLETE")
    ensures var event := decode(data).value.fields;
            var outcome := ApplyPayload(text, data, decode, encode);
            && ("resultJson" !in event ==> outcome == Ok(text))
            && ("resultJson" in event && Contains(event["resultJson"], "rejected") == Ok(true)
                ==> outcome == if event["resultJson"].JObject? then Ok(text) else Err(TypeError))
            && ("resultJson" in event && !Contains(event["resultJson"], "rejected").Ok?
                ==> outcome == Err(TypeError))
            && ("resultJson" in event && Contains(event["resultJson"], "rejected") == Ok(false)
                ==> outcome == Ok(encode(event["resultJson"])))
            && (outcome.Ok? ==> outcome.value == text || ("resultJson" in event && outcome.value == encode(event["resultJson"])))
  {
  }

  /** Outside COMPLETE events, `result` replaces the text while `output` and `message` append to it. */
  lemma OtherEventOutcome(text: string, data: string, decode: string -> Option<Json>,
                          encode: Json -> string, s: string)
    requires decode(data).Some? && decode(data).value.JObject?
    requires var event := decode(data).value.fields;
             !("type" in event && event["type"] == JString("COMPLETE"))
    ensures var event := decode(data).value.fields;
            var outcome := ApplyPayload(text, data, decode, encode);
            && ("result" in event && event["result"] == JString(s) ==> outcome == Ok(s))
            && ("result" !in event && "output" in event && event["output"] == JString(s) ==> outcome == Ok(text + s))
            && ("result" !in event && "output" !in event && "message" in event && event["message"] == JString(s)
                ==> outcome == Ok(text + s))
            && ("result" !in event && "output" !in event && "message" !in event ==> outcome == Ok(text))
  {
  }

  /** A decoded value that is not a dictionary stops the loop with AttributeError. */
  lemma NonObjectEventFails(st: SseState, payload: string, decode: string -> Option<Json>, encode: Json -> string)
    requires !IsBlank(payload) && payload != "[DONE]"
    requires decode(payload).Some? && !decode(payload).value.JObject?
    ensures Step(st, DataPrefix + payload, decode, encode) == Err(AttributeError)
  {
    var line := DataPrefix + payload;
    assert StartsWith(line, DataPrefix) && line[|DataPrefix|..] == payload;
  }

  /** The data lines of a stream whose payloads are `payloads`. */
  function DataLines(payloads: seq<string>): (r: seq<string>)
    ensures |r| == |payloads|
    ensures forall i :: 0 <= i < |r| ==> r[i] == DataPrefix + payloads[i]
  {
    seq(|payloads|, i requires 0 <= i < |payloads| => DataPrefix + payloads[i])
  }

  function Flatten(parts: seq<string>): string {
    if parts == [] then [] else Flatten(parts[..|parts| - 1]) + parts[|parts| - 1]
  }

  /** A plain-text stream (no payload decodes) accumulates its payloads in order. */
  lemma {:induction false} PlainTextStreamConcatenates(payloads: seq<string>, decode: string -> Option<Json>,
                                                       encode: Json -> string)
    requires forall i :: 0 <= i < |payloads| ==>
               !IsBlank(payloads[i]) && payloads[i] != "[DONE]" && decode(payloads[i]).None?
    ensures Fold(DataLines(payloads), decode, encode).Ok?
    ensures Fold(DataLines(payloads), decode, encode).value.resultText == Flatten(payloads)
  {
    if payloads != [] {
      var init, last := payloads[..|payloads| - 1], payloads[|payloads| - 1];
      var lines := DataLines(payloads);
      assert lines[..|lines| - 1] == DataLines(init);
      PlainTextStreamConcatenates(init, decode, encode);
      var st := Fold(DataLines(init), decode, encode).value;
      UndecodablePayloadAppended(st, last, decode, encode);
    }
  }

  /**
   * run_audit after the stream (lines 214-222): the collected text goes
   * through parse_tinyfish_response; an exception from the loop propagates.
   */
  function AuditFromStream(lines: seq<string>, url: string, now: int, decode: string -> Option<Json>,
                           encode: Json -> string): (r: Result<ParsedAudit, StreamError>)
    ensures r.Err? <==> Fold(lines, decode, encode).Err?
    ensures r.Ok? ==> "url" in r.value.fields && r.value.fields["url"] == JString(url) && r.value.auditDate == now
    ensures r.Ok? ==> r.value == ParseTinyfishResponse(Fold(lines, decode, encode).value.resultText, url, now, decode)
  {
    match Fold(lines, decode, encode)
    case Ok(st) => Ok(ParseTinyfishResponse(st.resultText, url, now, decode))
    case Err(e) => Err(e)
  }

  /** A stream without data lines yields the empty audit. */
  lemma {:induction false} NoDataLinesGivesEmptyAudit(lines: seq<string>, url: string, now: int,
                                                      decode: string -> Option<Json>, encode: Json -> string)
    requires forall i :: 0 <= i < |lines| ==> !StartsWith(lines[i], DataPrefix)
    ensures Fold(lines, decode, encode).Ok? && Fold(lines, decode, encode).value.resultText == ""
    ensures AuditFromStream(lines, url, now, decode, encode) == Ok(EmptyAudit(url, now))
  {
    if lines != [] {
      NoDataLinesGivesEmptyAudit(lines[..|lines| - 1], url, now, decode, encode);
    }
  }
}
