/** The two streaming endpoints: the chat message and the answer
    explanation. Each validates its request body, hands a text to the AI
    provider, and relays the chunks the provider emits into the response.
    The provider is given as the sequence of chunks it delivers and how the
    stream ends. */
module Messages {
  import opened Quiz
  import opened Http

  // ---------------------------------------------------------------------
  // JSON values and their string conversion
  // ---------------------------------------------------------------------

  /** A value of the parsed request body. Numbers are integers here. */
  datatype JsValue =
    | Undefined
    | Null
    | Bool(b: bool)
    | Num(n: int)
    | Str(s: string)
    | Arr(elems: seq<JsValue>)
    | Obj(fields: map<string, JsValue>)

  /** The parsed JSON body: a missing key reads as `undefined`. */
  type RequestBody = map<string, JsValue>

  function Field(body: RequestBody, key: string): JsValue {
    if key in body then body[key] else Undefined
  }

  /** JavaScript truthiness, as `!x` tests it. */
  predicate Truthy(v: JsValue) {
    match v
    case Undefined => false
    case Null => false
    case Bool(b) => b
    case Num(n) => n != 0
    case Str(s) => s != ""
    case Arr(_) => true
    case Obj(_) => true
  }

  function Digit(d: nat): char
    requires d < 10
  {
    ('0' as int + d) as char
  }

  /** The decimal spelling of a natural number. */
  function NatToString(n: nat): string {
    if n < 10 then [Digit(n)] else NatToString(n / 10) + [Digit(n % 10)]
  }

  function IntToString(i: int): string {
    if i < 0 then "-" + NatToString(-i) else NatToString(i)
  }

  /** The number a string of decimal digits denotes. */
  function DecimalValue(s: string): int {
    if s == [] then 0 else DecimalValue(s[..|s| - 1]) * 10 + (s[|s| - 1] as int - '0' as int)
  }

  /** `NatToString` writes digits only, and reading them back gives the
      number: the option list is numbered in plain decimal. */
  lemma {:induction false} NatToStringDecimal(n: nat)
    ensures forall i :: 0 <= i < |NatToString(n)| ==> '0' <= NatToString(n)[i] <= '9'
    ensures DecimalValue(NatToString(n)) == n
  {
    var s := NatToString(n);
    if n < 10 {
      assert s[..|s| - 1] == [];
    } else {
      NatToStringDecimal(n / 10);
      assert s[..|s| - 1] == NatToString(n / 10);
    }
  }

  /** `parts.join(sep)`. */
  function Join(parts: seq<string>, sep: string): string {
    if |parts| == 0 then ""
    else if |parts| == 1 then parts[0]
    else parts[0] + sep + Join(parts[1..], sep)
  }

  /** The error `String(v)` throws when `v` has no primitive value. */
  const ConversionError: Thrown := ErrorObject("Cannot convert object to primitive value")

  /** Whether `String(v)` throws. A parsed object inherits `toString` and
      `valueOf` from `Object.prototype`. An own `toString` key hides the
      inherited method behind a value that is not a function, and the
      inherited `valueOf` gives back the object itself, so no primitive
      value is found. An array converts its elements, so it throws when one
      of them does. */
  ghost predicate Unconvertible(v: JsValue)
    decreases v
  {
    match v
    case Obj(f) => "toString" in f
    case Arr(xs) => exists i :: 0 <= i < |xs| && Unconvertible(xs[i])
    case _ => false
  }

  /** Converting a list of values one by one: the first conversion that
      throws ends the list, otherwise every text is kept. */
  function Collect(os: seq<Outcome<string>>): (r: Outcome<seq<string>>)
    ensures r.Returned? <==> forall i :: 0 <= i < |os| ==> os[i].Returned?
    ensures r.Returned? ==> |r.value| == |os| && forall i :: 0 <= i < |os| ==> r.value[i] == os[i].value
    ensures r.Threw? ==>
      exists i :: 0 <= i < |os| && os[i] == Threw(r.thrown) && (forall j :: 0 <= j < i ==> os[j].Returned?)
  {
    if os == [] then Returned([])
    else if os[0].Threw? then Threw(os[0].thrown)
    else
      var rest := Collect(os[1..]);
      if rest.Threw? then Threw(rest.thrown) else Returned([os[0].value] + rest.value)
  }

  /** `String(v)`, the conversion a template literal applies. An array
      converts to its elements joined by commas, with `null` and `undefined`
      elements written as nothing. */
  function ToStr(v: JsValue): Outcome<string>
    decreases v
  {
    match v
    case Undefined => Returned("undefined")
    case Null => Returned("null")
    case Bool(b) => Returned(if b then "true" else "false")
    case Num(n) => Returned(IntToString(n))
    case Str(s) => Returned(s)
    case Arr(xs) =>
      var parts := Collect(seq(|xs|, i requires 0 <= i < |xs| =>
        if xs[i].Undefined? || xs[i].Null? then Returned("") else ToStr(xs[i])));
      if parts.Threw? then Threw(parts.thrown) else Returned(Join(parts.value, ","))
    case Obj(f) => if "toString" in f then Threw(ConversionError) else Returned("[object Object]")
  }

  /** `String(v)` throws exactly for the values that have no primitive
      value, and always with the same error. */
  lemma {:induction false} ToStrThrows(v: JsValue)
    ensures ToStr(v).Threw? <==> Unconvertible(v)
    ensures ToStr(v).Threw? ==> ToStr(v).thrown == ConversionError
    decreases v
  {
    if v.Arr? {
      var xs := v.elems;
      var os := seq(|xs|, i requires 0 <= i < |xs| =>
        if xs[i].Undefined? || xs[i].Null? then Returned("") else ToStr(xs[i]));
      assert ToStr(v) == (var parts := Collect(os); if parts.Threw? then Threw(parts.thrown) else Returned(Join(parts.value, ",")));
      forall i | 0 <= i < |xs|
        ensures os[i].Threw? <==> Unconvertible(xs[i])
        ensures os[i].Threw? ==> os[i].thrown == ConversionError
      {
        ToStrThrows(xs[i]);
      }
    }
  }

  /** `String` of every element, as `options.map` applies it to build each
      numbered line. */
  function Texts(xs: seq<JsValue>): (r: Outcome<seq<string>>)
    ensures r.Returned? <==> forall i :: 0 <= i < |xs| ==> ToStr(xs[i]).Returned?
    ensures r.Returned? ==> |r.value| == |xs| && forall i :: 0 <= i < |xs| ==> r.value[i] == ToStr(xs[i]).value
  {
    var os := seq(|xs|, i requires 0 <= i < |xs| => ToStr(xs[i]));
    assert forall i :: 0 <= i < |xs| ==> os[i] == ToStr(xs[i]);
    Collect(os)
  }

  // ---------------------------------------------------------------------
  // The explanation prompt
  // ---------------------------------------------------------------------

  /** The closing request of the prompt (written in pieces only so that
      the verifier sees it holds no line break). */
  const ExplainAsk: string :=
    "Please explain why " + "my answer is " + "incorrect and why " + "the correct answer " + "is right."

  /** The heading line of the options part. */
  const OptionsHeading: string := "Available Options:"

  /** The lines of an option list: `1. first`, `2. second`, ... */
  function NumberedLines(texts: seq<string>): seq<string> {
    seq(|texts|, i requires 0 <= i < |texts| => NatToString(i + 1) + ". " + texts[i])
  }

  /** The optional `Available Options` part of the prompt: nothing for a
      falsy value, a numbered list for an array, the value itself otherwise. */
  function OptionsSection(options: JsValue): Outcome<string> {
    if !Truthy(options) then Returned("")
    else if options.Arr? then
      var texts := Texts(options.elems);
      if texts.Threw? then Threw(texts.thrown)
      else Returned("\n" + OptionsHeading + "\n" + Join(NumberedLines(texts.value), "\n"))
    else
      var text := ToStr(options);
      if text.Threw? then text else Returned("\n" + OptionsHeading + "\n" + text.value)
  }

  /** Whether converting the options part throws. */
  ghost predicate OptionsUnconvertible(options: JsValue) {
    Truthy(options) &&
    if options.Arr? then exists i :: 0 <= i < |options.elems| && Unconvertible(options.elems[i])
    else Unconvertible(options)
  }

  /** The lines of the template string of `explainQuestionController`,
      given the texts of its four placeholders; the prompt is these lines
      joined by line breaks. */
  function PromptParts(question: string, options: string, userAnswer: string, correctAnswer: string): seq<string> {
    ["", "Question: " + question, options, "",
     "Your Answer: " + userAnswer, "Correct Answer: " + correctAnswer, "", ExplainAsk, ""]
  }

  function PromptText(question: string, options: string, userAnswer: string, correctAnswer: string): string {
    Join(PromptParts(question, options, userAnswer, correctAnswer), "\n")
  }

  /** Evaluating the template literal: its placeholders are converted from
      left to right, and the first conversion that throws ends it. */
  function BuildPrompt(question: JsValue, userAnswer: JsValue, correctAnswer: JsValue, options: JsValue): Outcome<string> {
    var q, o := ToStr(question), OptionsSection(options);
    var u, c := ToStr(userAnswer), ToStr(correctAnswer);
    if q.Threw? then q
    else if o.Threw? then o
    else if u.Threw? then u
    else if c.Threw? then c
    else Returned(PromptText(q.value, o.value, u.value, c.value))
  }

  /** Building the prompt throws exactly when one of its placeholders has
      no primitive value, and then with the conversion error. */
  lemma BuildPromptThrows(question: JsValue, userAnswer: JsValue, correctAnswer: JsValue, options: JsValue)
    ensures BuildPrompt(question, userAnswer, correctAnswer, options).Threw? <==>
      Unconvertible(question) || OptionsUnconvertible(options) || Unconvertible(userAnswer) || Unconvertible(correctAnswer)
    ensures BuildPrompt(question, userAnswer, correctAnswer, options).Threw? ==>
      BuildPrompt(question, userAnswer, correctAnswer, options).thrown == ConversionError
  {
    ToStrThrows(question);
    ToStrThrows(userAnswer);
    ToStrThrows(correctAnswer);
    ToStrThrows(options);
    if options.Arr? {
      forall i | 0 <= i < |options.elems|
        ensures ToStr(options.elems[i]).Threw? <==> Unconvertible(options.elems[i])
        ensures ToStr(options.elems[i]).Threw? ==> ToStr(options.elems[i]).thrown == ConversionError
      {
        ToStrThrows(options.elems[i]);
      }
    }
  }

  /** A question object with its own `toString` key cannot be put into the
      prompt. */
  lemma ObjectQuestionThrows()
    ensures BuildPrompt(Obj(map["toString" := Num(1)]), Str("a"), Str("b"), Undefined) == Threw(ConversionError)
  {
    var question := Obj(map["toString" := Num(1)]);
    assert "toString" in question.fields;
    assert ToStr(question) == Threw(ConversionError);
  }

  /** A string cut at its line breaks. */
  function Lines(s: string): (ls: seq<string>)
    ensures |ls| >= 1
  {
    if s == [] then [""]
    else
      var rest := Lines(s[1..]);
      if s[0] == '\n' then [""] + rest else [[s[0]] + rest[0]] + rest[1..]
  }

  lemma {:induction false} LinesOfPlain(s: string)
    requires '\n' !in s
    ensures Lines(s) == [s]
  {
    if s != [] {
      LinesOfPlain(s[1..]);
      assert [s[0]] + s[1..] == s;
    }
  }

  /** A line break splits the lines of the two sides apart. */
  lemma {:induction false} LinesAppend(a: string, b: string)
    ensures Lines(a + "\n" + b) == Lines(a) + Lines(b)
  {
    if a == [] {
      assert a + "\n" + b == "\n" + b;
      assert ("\n" + b)[1..] == b;
    } else {
      var s := a + "\n" + b;
      assert s[0] == a[0];
      assert s[1..] == a[1..] + "\n" + b;
      LinesAppend(a[1..], b);
    }
  }

  /** The lines of every part, one after the other. */
  function AllLines(parts: seq<string>): seq<string> {
    if parts == [] then [] else Lines(parts[0]) + AllLines(parts[1..])
  }

  lemma {:induction false} LinesOfJoin(parts: seq<string>)
    requires |parts| >= 1
    ensures Lines(Join(parts, "\n")) == AllLines(parts)
  {
    if |parts| == 1 {
      assert AllLines(parts[1..]) == [];
    } else {
      LinesOfJoin(parts[1..]);
      LinesAppend(parts[0], Join(parts[1..], "\n"));
    }
  }

  lemma NineLines(p0: string, p1: string, p2: string, p3: string, p4: string,
                  p5: string, p6: string, p7: string, p8: string)
    ensures Lines(Join([p0, p1, p2, p3, p4, p5, p6, p7, p8], "\n")) ==
      Lines(p0) + (Lines(p1) + (Lines(p2) + (Lines(p3) + (Lines(p4) +
      (Lines(p5) + (Lines(p6) + (Lines(p7) + Lines(p8))))))))
  {
    var parts := [p0, p1, p2, p3, p4, p5, p6, p7, p8];
    LinesOfJoin(parts);
    var t8 := AllLines(parts[8..]);
    assert t8 == Lines(p8) by { assert parts[8..] == [p8]; assert AllLines([p8][1..]) == []; }
    var t7 := AllLines(parts[7..]);
    assert t7 == Lines(p7) + t8 by { assert parts[7..][1..] == parts[8..]; }
    var t6 := AllLines(parts[6..]);
    assert t6 == Lines(p6) + t7 by { assert parts[6..][1..] == parts[7..]; }
    var t5 := AllLines(parts[5..]);
    assert t5 == Lines(p5) + t6 by { assert parts[5..][1..] == parts[6..]; }
    var t4 := AllLines(parts[4..]);
    assert t4 == Lines(p4) + t5 by { assert parts[4..][1..] == parts[5..]; }
    var t3 := AllLines(parts[3..]);
    assert t3 == Lines(p3) + t4 by { assert parts[3..][1..] == parts[4..]; }
    var t2 := AllLines(parts[2..]);
    assert t2 == Lines(p2) + t3 by { assert parts[2..][1..] == parts[3..]; }
    var t1 := AllLines(parts[1..]);
    assert t1 == Lines(p1) + t2 by { assert parts[1..][1..] == parts[2..]; }
    assert AllLines(parts) == Lines(p0) + t1;
  }

  /** Cut at its line breaks, the prompt is: an empty line, the question
      line, the lines of the options part, an empty line, the two answer
      lines, an empty line, the request sentence, and a final empty line. */
  lemma PromptLines(question: string, options: string, userAnswer: string, correctAnswer: string)
    ensures Lines(PromptText(question, options, userAnswer, correctAnswer)) ==
      [""] + (Lines("Question: " + question) + (Lines(options) + ([""] +
      (Lines("Your Answer: " + userAnswer) + (Lines("Correct Answer: " + correctAnswer) +
      ["", ExplainAsk, ""])))))
  {
    var q, o := "Question: " + question, options;
    var u, c := "Your Answer: " + userAnswer, "Correct Answer: " + correctAnswer;
    var a := ExplainAsk;
    assert PromptParts(question, options, userAnswer, correctAnswer) == ["", q, o, "", u, c, "", a, ""];
    NineLines("", q, o, "", u, c, "", a, "");
    AskIsOneLine();
    assert Lines("") == [""];
  }

  lemma AskIsOneLine()
    ensures Lines(ExplainAsk) == [ExplainAsk]
  {
    LinesOfPlain(ExplainAsk);
  }

  lemma HeadingIsOneLine()
    ensures '\n' !in OptionsHeading
  {
    assert forall i :: 0 <= i < |OptionsHeading| ==> OptionsHeading[i] != '\n';
  }

  /** A line break, a heading line, a line break, then `b`. */
  lemma HeadedLines(h: string, b: string)
    requires '\n' !in h
    ensures Lines("\n" + h + "\n" + b) == ["", h] + Lines(b)
  {
    LinesAppend("", h + "\n" + b);
    assert "" + "\n" + (h + "\n" + b) == "\n" + h + "\n" + b;
    LinesAppend(h, b);
    LinesOfPlain(h);
  }

  /** The numbered option lines, joined and cut again, are those lines. */
  lemma NumberedLinesRoundTrip(texts: seq<string>)
    requires texts != []
    requires forall i :: 0 <= i < |texts| ==> '\n' !in texts[i]
    ensures Lines(Join(NumberedLines(texts), "\n")) == NumberedLines(texts)
  {
    var ls := NumberedLines(texts);
    forall i | 0 <= i < |ls|
      ensures '\n' !in ls[i]
    {
      NatToStringDecimal(i + 1);
      assert ls[i] == NatToString(i + 1) + ". " + texts[i];
    }
    LinesOfJoin(ls);
    LinesOfSingleLines(ls);
  }

  /** Whether `String(v)` gives a text without a line break. */
  predicate OneLine(v: JsValue) {
    ToStr(v).Returned? && '\n' !in ToStr(v).value
  }

  /** The lines of the options part, when every option converts to a text
      without a line break: one empty line for a falsy value; otherwise an
      empty line, the heading, and then one line `i. option` per array
      element counting from 1 (a single empty line for an empty array), or
      the value itself. */
  lemma OptionsSectionLines(options: JsValue)
    requires options.Arr? ==> forall i :: 0 <= i < |options.elems| ==> OneLine(options.elems[i])
    requires Truthy(options) && !options.Arr? ==> OneLine(options)
    ensures OptionsSection(options).Returned?
    ensures Lines(OptionsSection(options).value) ==
      (if !Truthy(options) then [""]
       else if !options.Arr? then ["", OptionsHeading, ToStr(options).value]
       else if options.elems == [] then ["", OptionsHeading, ""]
       else ["", OptionsHeading] + NumberedLines(Texts(options.elems).value))
  {
    if options.Arr? {
      ListedLines(Texts(options.elems).value);
    } else if Truthy(options) {
      PlainLines(ToStr(options).value);
    }
  }

  /** The options part for an array, whose element texts are `texts`. */
  lemma ListedLines(texts: seq<string>)
    requires forall i :: 0 <= i < |texts| ==> '\n' !in texts[i]
    ensures Lines("\n" + OptionsHeading + "\n" + Join(NumberedLines(texts), "\n")) ==
      ["", OptionsHeading] + (if texts == [] then [""] else NumberedLines(texts))
  {
    HeadingIsOneLine();
    HeadedLines(OptionsHeading, Join(NumberedLines(texts), "\n"));
    if texts != [] {
      NumberedLinesRoundTrip(texts);
    }
  }

  /** The options part for a value that is not an array. */
  lemma PlainLines(text: string)
    requires '\n' !in text
    ensures Lines("\n" + OptionsHeading + "\n" + text) == ["", OptionsHeading, text]
  {
    HeadingIsOneLine();
    HeadedLines(OptionsHeading, text);
    LinesOfPlain(text);
  }

  lemma {:induction false} LinesOfSingleLines(ls: seq<string>)
    requires forall i :: 0 <= i < |ls| ==> '\n' !in ls[i]
    ensures AllLines(ls) == ls
  {
    if ls != [] {
      LinesOfPlain(ls[0]);
      LinesOfSingleLines(ls[1..]);
    }
  }

  // ---------------------------------------------------------------------
  // Relaying the provider's stream into the response
  // ---------------------------------------------------------------------

  /** What the provider delivers: the chunks it emits, in order, and the
      error it ends with, if any. */
  datatype Stream = Stream(chunks: seq<string>, failure: Option<Thrown>)

  /** The text handed to the provider, and which of its two entry points
      receives it. */
  datatype AiRequest = Chat(message: string) | Explanation(prompt: string)

  const StreamHeaders: map<string, string> :=
    map["Content-Type" := "text/plain; charset=utf-8", "Transfer-Encoding" := "chunked"]

  /** The finished response after relaying `s`. A stream that completes is
      sent whole with status 200. A stream that fails before its first chunk
      becomes a 500 JSON error; one that fails later is cut short with no
      error body. Either way the response is ended exactly once. */
  ghost predicate Relayed(s: Stream, res: Response)
    reads res
  {
    res.endCalls == 1 && res.headersSent && res.headers == StreamHeaders &&
    if s.failure.Some? && s.chunks == [] then
      res.statusCode == 500 && res.written == [] &&
      res.jsonBody == Some(ErrorReply("Internal server error", Details(s.failure.value)))
    else
      res.statusCode == 200 && res.written == s.chunks && res.jsonBody == None
  }

  /** A 400 JSON rejection sent before anything else touched the response. */
  ghost predicate Rejected(res: Response, details: string)
    reads res
  {
    res.statusCode == 400 && res.jsonBody == Some(ErrorReply("Invalid request", details)) &&
    res.endCalls == 1 && res.headersSent && res.written == [] && res.headers == map[]
  }

  /** A 500 JSON error sent before any header was set: the catch block
      reached while the prompt was being built. */
  ghost predicate Aborted(res: Response, details: string)
    reads res
  {
    res.statusCode == 500 && res.jsonBody == Some(ErrorReply("Internal server error", details)) &&
    res.endCalls == 1 && res.headersSent && res.written == [] && res.headers == map[]
  }

  /** The streaming part shared by both controllers: set the headers, write
      every chunk as it arrives, end the response; on a failure, send a JSON
      error if the headers have not gone out yet, and otherwise just end. */
  method RelayStream(s: Stream, res: Response)
    requires res.Pristine()
    modifies res
    ensures Relayed(s, res)
    ensures res.Text() == Concat(s.chunks) || (s.failure.Some? && s.chunks == [] && res.Text() == "")
  {
    res.SetHeader("Content-Type", "text/plain; charset=utf-8");
    res.SetHeader("Transfer-Encoding", "chunked");
    var i := 0;
    while i < |s.chunks|
      invariant 0 <= i <= |s.chunks|
      invariant res.written == s.chunks[..i]
      invariant res.headersSent <==> i > 0
      invariant res.endCalls == 0 && res.jsonBody == None && res.statusCode == 200
      invariant res.headers == StreamHeaders
    {
      res.Write(s.chunks[i]);
      i := i + 1;
    }
    assert s.chunks[..i] == s.chunks;
    if s.failure.None? {
      res.End();
    } else if !res.headersSent {
      res.Status(500);
      res.Json(ErrorReply("Internal server error", Details(s.failure.value)));
    } else {
      res.End();
    }
  }

  /** `messageController`. `sent` is what went to the provider; None when
      the request was rejected and the provider was never called. */
  method MessageController(body: RequestBody, s: Stream, res: Response) returns (sent: Option<AiRequest>)
    requires res.Pristine()
    modifies res
    ensures var m := Field(body, "message");
      if m.Str? && m.s != "" then sent == Some(Chat(m.s)) && Relayed(s, res)
      else sent == None && Rejected(res, "Message field is required and must be a string")
  {
    var message := Field(body, "message");
    if !Truthy(message) || !message.Str? {
      res.Status(400);
      res.Json(ErrorReply("Invalid request", "Message field is required and must be a string"));
      return None;
    }
    sent := Some(Chat(message.s));
    RelayStream(s, res);
  }

  /** `explainQuestionController`. The prompt is built before the headers
      are set, so a placeholder that cannot be converted to text ends in a
      500 JSON error and the provider is never called. */
  method ExplainQuestionController(body: RequestBody, s: Stream, res: Response) returns (sent: Option<AiRequest>)
    requires res.Pristine()
    modifies res
    ensures var q, u, c, o := Field(body, "question"), Field(body, "userAnswer"), Field(body, "correctAnswer"), Field(body, "options");
      if !(Truthy(q) && Truthy(u) && Truthy(c)) then
        sent == None && Rejected(res, "Question, userAnswer, and correctAnswer fields are required")
      else match BuildPrompt(q, u, c, o)
        case Returned(prompt) => sent == Some(Explanation(prompt)) && Relayed(s, res)
        case Threw(e) => sent == None && Aborted(res, Details(e))
    ensures var q, u, c, o := Field(body, "question"), Field(body, "userAnswer"), Field(body, "correctAnswer"), Field(body, "options");
      Truthy(q) && Truthy(u) && Truthy(c) ==>
        (sent.None? <==> Unconvertible(q) || OptionsUnconvertible(o) || Unconvertible(u) || Unconvertible(c)) &&
        (sent.None? ==> Aborted(res, "Cannot convert object to primitive value"))
  {
    var question, userAnswer := Field(body, "question"), Field(body, "userAnswer");
    var correctAnswer, options := Field(body, "correctAnswer"), Field(body, "options");
    if !Truthy(question) || !Truthy(userAnswer) || !Truthy(correctAnswer) {
      res.Status(400);
      res.Json(ErrorReply("Invalid request", "Question, userAnswer, and correctAnswer fields are required"));
      return None;
    }
    var prompt := BuildPrompt(question, userAnswer, correctAnswer, options);
    BuildPromptThrows(question, userAnswer, correctAnswer, options);
    if prompt.Threw? {
      res.Status(500);
      res.Json(ErrorReply("Internal server error", Details(prompt.thrown)));
      return None;
    }
    sent := Some(Explanation(prompt.value));
    RelayStream(s, res);
  }
}
