/**
 * The post-processing half of the reminder-extraction service: what it does
 * with the language model's reply once the chat-completion call has returned.
 * The reply is trimmed, a Markdown code fence is peeled off, the text is handed
 * to `JSON.parse`, the three required fields are checked, and a due-date text
 * `date + "T" + time + ":00"` is added. Every failure (provider error, invalid
 * JSON, non-object JSON, a missing or falsy field) becomes `None` (the
 * service's `null`); nothing is thrown to the caller.
 *
 * The provider call and `JSON.parse` are foreign code: the reply is an input
 * and `JSON.parse` is a function parameter.
 */
module ReminderParser {
  import opened Wrappers
  import opened JsString

  /**
   * A JavaScript value held by a property of the parsed reply. Numbers are
   * integers; `Composite` is an array or object, carrying the text `String()`
   * gives for it.
   */
  datatype Value = Str(s: string) | Num(n: int) | Bool(b: bool) | Null | Composite(text: string)

  /** The outcome of `JSON.parse`: an object, or any other JSON value. */
  datatype JsonDoc = Object(fields: map<string, Value>) | NonObject

  /** The provider's answer: an error, or the message content of the first choice. */
  datatype ProviderReply = ProviderError | Completion(content: string)

  /** A non-null result: the parsed properties plus `dueDate`, the text given to `new Date`. */
  datatype ParsedReminder = ParsedReminder(fields: map<string, Value>, dueDate: string)

  /** JavaScript truthiness; `!v` is `!Truthy(v)`. */
  predicate Truthy(v: Value) {
    match v
    case Str(s) => s != ""
    case Num(n) => n != 0
    case Bool(b) => b
    case Null => false
    case Composite(_) => true
  }

  function DigitChar(d: nat): (c: char)
    requires d < 10
    ensures IsDigit(c)
  {
    ('0' as int + d) as char
  }

  /** The decimal numeral of `n`, as `String(n)` writes it. */
  function NatText(n: nat): (r: string)
    ensures r != [] && forall k :: 0 <= k < |r| ==> IsDigit(r[k])
  {
    if n < 10 then [DigitChar(n)] else NatText(n / 10) + [DigitChar(n % 10)]
  }

  /** The number a run of decimal digits denotes, most significant digit first. */
  function DigitsValue(s: string): nat
    requires forall k :: 0 <= k < |s| ==> IsDigit(s[k])
  {
    if s == [] then 0
    else
      assert IsDigit(s[|s| - 1]);
      10 * DigitsValue(s[..|s| - 1]) + (s[|s| - 1] as int - '0' as int)
  }

  /** `NatText(n)` denotes `n`, and has no leading zero unless it is "0". */
  lemma {:induction false} NatTextRoundTrip(n: nat)
    ensures DigitsValue(NatText(n)) == n
    ensures |NatText(n)| > 1 ==> NatText(n)[0] != '0'
  {
    if n >= 10 {
      var r := NatText(n);
      assert r[..|r| - 1] == NatText(n / 10);
      NatTextRoundTrip(n / 10);
      assert r[0] == NatText(n / 10)[0];
    }
  }

  function IntText(n: int): string {
    if n < 0 then "-" + NatText(-n) else NatText(n)
  }

  /** `String(v)`, which is what a template literal inserts. */
  function ValueText(v: Value): string {
    match v
    case Str(s) => s
    case Num(n) => IntText(n)
    case Bool(b) => if b then "true" else "false"
    case Null => "null"
    case Composite(t) => t
  }

  const Fence: string := "```"

  /** `s.replace(/^```json?\s*\/, '')`: the prefix needs "```jso"; an "n" and then whitespace go with it. */
  function StripOpeningFence(s: string): string {
    if StartsWith(s, "```jso") then
      var rest := s[6..];
      TrimStart(if rest != [] && rest[0] == 'n' then rest[1..] else rest)
    else
      s
  }

  /** `s.replace(/```$/, '')`. */
  function StripClosingFence(s: string): string {
    if EndsWith(s, Fence) then s[..|s| - |Fence|] else s
  }

  /** The text handed to `JSON.parse`: never surrounded by whitespace, and the trimmed reply itself when it is not fenced. */
  function JsonText(content: string): (r: string)
    ensures Trim(r) == r
    ensures !StartsWith(Trim(content), Fence) ==> r == Trim(content)
  {
    var c := Trim(content);
    TrimIdempotent(content);
    if StartsWith(c, Fence) then
      var r := Trim(StripClosingFence(StripOpeningFence(c)));
      TrimIdempotent(StripClosingFence(StripOpeningFence(c)));
      r
    else
      c
  }

  /** `parsed.task && parsed.date && parsed.time`. */
  predicate HasRequiredFields(fields: map<string, Value>) {
    && "task" in fields && Truthy(fields["task"])
    && "date" in fields && Truthy(fields["date"])
    && "time" in fields && Truthy(fields["time"])
  }

  /** `parseReminder`'s post-processing, with `null` as `None`. */
  function ParseReminder(reply: ProviderReply, jsonParse: string -> Option<JsonDoc>): (r: Option<ParsedReminder>)
    ensures reply.ProviderError? ==> r == None
    ensures r.Some? ==>
      && reply.Completion?
      && jsonParse(JsonText(reply.content)).Some?
      && jsonParse(JsonText(reply.content)).value.Object?
      && var f := jsonParse(JsonText(reply.content)).value.fields;
      && HasRequiredFields(f)
      && r.value.fields.Keys == f.Keys - {"dueDate"}
      && (forall k :: k in r.value.fields ==> r.value.fields[k] == f[k])
      && r.value.dueDate == ValueText(f["date"]) + "T" + ValueText(f["time"]) + ":00"
  {
    match reply
    case ProviderError => None
    case Completion(content) =>
      match jsonParse(JsonText(content))
      case None => None
      case Some(NonObject) => None
      case Some(Object(f)) =>
        if HasRequiredFields(f) then
          Some(ParsedReminder(f - {"dueDate"}, ValueText(f["date"]) + "T" + ValueText(f["time"]) + ":00"))
        else
          None
  }

  /** Dropping `dueDate` from the reply keeps `task`, `date` and `time`, so an accepted reply has them. */
  lemma AcceptedHasRequiredFields(reply: ProviderReply, jsonParse: string -> Option<JsonDoc>)
    ensures ParseReminder(reply, jsonParse).Some? ==> HasRequiredFields(ParseReminder(reply, jsonParse).value.fields)
  {
    match reply
    case ProviderError =>
    case Completion(content) =>
      match jsonParse(JsonText(content))
      case None =>
      case Some(NonObject) =>
      case Some(Object(f)) =>
        if HasRequiredFields(f) {
          SameRequiredFields(f, f - {"dueDate"});
        }
  }

  /** Dropping a key other than `task`, `date` and `time` keeps the three. */
  lemma SameRequiredFields(f: map<string, Value>, g: map<string, Value>)
    requires HasRequiredFields(f)
    requires "task" in g && "date" in g && "time" in g
    requires g["task"] == f["task"] && g["date"] == f["date"] && g["time"] == f["time"]
    ensures HasRequiredFields(g)
  {
  }

  /** A missing or falsy `task`, `date` or `time` (the empty string included) always yields `None`. */
  lemma MissingFieldYieldsNull(content: string, jsonParse: string -> Option<JsonDoc>, f: map<string, Value>)
    requires jsonParse(JsonText(content)) == Some(Object(f))
    requires !HasRequiredFields(f)
    ensures ParseReminder(Completion(content), jsonParse) == None
  {
  }

  /** An object with the three fields truthy is always accepted: the result is never `None` then. */
  lemma CompleteObjectIsAccepted(content: string, jsonParse: string -> Option<JsonDoc>, f: map<string, Value>)
    requires jsonParse(JsonText(content)) == Some(Object(f))
    requires HasRequiredFields(f)
    ensures ParseReminder(Completion(content), jsonParse).Some?
  {
  }

  /**
   * What `JSON.parse` is known to refuse: the empty text and a text starting
   * with a backtick (a JSON text starts with whitespace or a value).
   */
  ghost predicate RejectsFenceText(jsonParse: string -> Option<JsonDoc>) {
    forall s :: (s == [] || s[0] == '`') ==> jsonParse(s) == None
  }

  /** Once trimmed, a reply that is neither empty nor starts with a backtick keeps its first character. */
  lemma TrimKeepsBacktick(x: string)
    requires x != [] && x[0] == '`'
    ensures Trim(x) != [] && Trim(x)[0] == '`'
  {
    assert !IsWhitespace(x[0]);
    assert LeadingWhitespace(x) == 0;
    // The trimmed text keeps the backtick, so it is not empty, and by Trim's
    // infix clause its first character is x[0].
    assert TrailingWhitespace(TrimStart(x)) < |x|;
    assert |Trim(x)| > 0;
    assert Trim(x)[0] == x[LeadingWhitespace(x) + 0];
  }

  /**
   * A bare fence ("```" not followed by "jso") is not removed by the opening
   * pattern, so the text handed to `JSON.parse` still starts with a backtick
   * (or is empty) and the result is `None`.
   */
  lemma {:induction false} BareFenceYieldsNull(content: string, jsonParse: string -> Option<JsonDoc>)
    requires StartsWith(Trim(content), Fence) && !StartsWith(Trim(content), "```jso")
    requires RejectsFenceText(jsonParse)
    ensures ParseReminder(Completion(content), jsonParse) == None
  {
    var c := Trim(content);
    assert StripOpeningFence(c) == c;
    var x := StripClosingFence(c);
    ClosingFenceKeepsBacktick(c);
    var j := JsonText(content);
    assert j == Trim(x);
    if x != [] {
      TrimKeepsBacktick(x);
    }
    assert jsonParse(j) == None;
  }

  /** Removing a closing fence from a text that starts with one leaves a backtick first, or nothing. */
  lemma ClosingFenceKeepsBacktick(c: string)
    requires StartsWith(c, Fence)
    ensures var x := StripClosingFence(c); x == [] || x[0] == '`'
  {
    assert c[0] == Fence[0];
  }

  /** A trimmed, non-empty body followed by white space trims back to the body. */
  lemma TrimDropsTrailingNewline(body: string)
    requires body != [] && !IsWhitespace(body[0]) && !IsWhitespace(body[|body| - 1])
    ensures Trim(body + "\n") == body
  {
    assert (body + "\n")[0] == body[0];
    assert TrimStart(body + "\n") == body + "\n";
    TrimEndSkipsWhitespace(body, "\n");
    assert TrimEnd(body) == body;
  }

  /** The opening pattern removes "```json" and the line break, and nothing of the body. */
  lemma OpeningFenceOfJsonReply(body: string, tail: string)
    requires body != [] && !IsWhitespace(body[0]) && tail == body + "\n```"
    ensures StripOpeningFence("```json\n" + tail) == tail
  {
    var s := "```json\n" + tail;
    assert StartsWith(s, "```jso") by { assert s[..6] == "```jso"; }
    assert s[6..] == "n" + ("\n" + tail);
    assert s[6..][1..] == "\n" + tail;
    TrimStartSkipsWhitespace("\n", tail);
    assert tail[0] == body[0];
    assert TrimStart(tail) == tail;
  }

  /**
   * The usual fenced reply is unwrapped to exactly the JSON text it carries:
   * "```json", a line break, the body, a line break, "```".
   */
  lemma {:induction false} FencedReplyUnwraps(body: string)
    requires body != [] && !IsWhitespace(body[0]) && !IsWhitespace(body[|body| - 1])
    ensures JsonText("```json\n" + body + "\n```") == body
  {
    var tail := body + "\n```";
    var content := "```json\n" + body + "\n```";
    assert content == "```json\n" + tail;
    FencedReplyIsTrimmed(content);
    OpeningFenceOfJsonReply(body, tail);
    ClosingFenceOfJsonReply(body);
    TrimDropsTrailingNewline(body);
  }

  /** A reply that opens and closes with a backtick is its own trim and starts with the fence. */
  lemma FencedReplyIsTrimmed(content: string)
    requires |content| >= 3 && content[..3] == Fence && content[|content| - 1] == '`'
    ensures Trim(content) == content && StartsWith(content, Fence)
  {
    TrimOfTrimmed(content);
  }

  /** The closing pattern removes the final "```" and leaves the line break before it. */
  lemma ClosingFenceOfJsonReply(body: string)
    ensures StripClosingFence(body + "\n```") == body + "\n"
  {
    var tail := body + "\n```";
    assert tail[|tail| - 3..] == Fence;
    assert tail[..|tail| - 3] == body + "\n";
  }
}
