/**
 * The reminder service's HTTP routes over its document collection:
 * POST creates a reminder from a free-text message, GET lists the complete
 * reminders soonest-due first, PUT .../mark-paid flips one reminder's paid flag.
 *
 * The collection is a `ReminderStore` object holding the documents in insertion
 * order and the next identifier to hand out. Outcomes of the store's own I/O
 * (a save, a query or an update that throws) are boolean inputs.
 */
module ReminderRoutes {
  import opened Wrappers
  import opened JsString
  import opened ReminderParser

  /**
   * A stored reminder. `task`, `date` and `time` are optional because the
   * collection may hold documents written by other code; every document this
   * service creates has all three.
   */
  datatype Document = Document(
    id: nat,
    userId: string,
    originalText: string,
    task: Option<string>,
    date: Option<string>,
    time: Option<string>,
    dueDate: Option<string>,
    isPaid: bool)

  /** The JSON body of a POST: `message` and `userId`, each possibly absent. */
  datatype PostBody = PostBody(message: Option<string>, userId: Option<string>)

  datatype ResponseBody = ErrorBody(error: string) | One(doc: Document) | Many(docs: seq<Document>)

  datatype Response = Response(status: int, body: ResponseBody)

  /** `!message` is false: the message is present and not the empty string (whitespace counts as present). */
  predicate HasMessage(body: PostBody) {
    body.message.Some? && body.message.value != ""
  }

  /** `const { userId = "guest" } = req.body`: the default applies only when the field is absent. */
  function RequestUser(body: PostBody): (u: string)
    ensures body.userId.None? ==> u == "guest"
    ensures body.userId.Some? ==> u == body.userId.value
  {
    body.userId.GetOr("guest")
  }

  /** The stored text of a property: a parsed key overrides the value given before the spread. */
  function Overridden(fields: map<string, Value>, key: string, given: string): string {
    if key in fields then ValueText(fields[key]) else given
  }

  /**
   * `new Reminder({ userId, originalText: message, ...parsed })`: the parsed
   * properties are spread last, so a `userId` or `originalText` in the reply
   * wins over the request's; a fresh reminder is unpaid.
   */
  function NewDocument(id: nat, userId: string, message: string, parsed: ParsedReminder): (d: Document)
    requires HasRequiredFields(parsed.fields)
    ensures Complete(d) && !d.isPaid && d.id == id
    ensures d.task == Some(ValueText(parsed.fields["task"]))
    ensures d.date == Some(ValueText(parsed.fields["date"]))
    ensures d.time == Some(ValueText(parsed.fields["time"]))
    ensures d.dueDate == Some(parsed.dueDate)
    ensures "userId" !in parsed.fields ==> d.userId == userId
    ensures "originalText" !in parsed.fields ==> d.originalText == message
    ensures "userId" in parsed.fields ==> d.userId == ValueText(parsed.fields["userId"])
    ensures "originalText" in parsed.fields ==> d.originalText == ValueText(parsed.fields["originalText"])
  {
    Document(
      id,
      Overridden(parsed.fields, "userId", userId),
      Overridden(parsed.fields, "originalText", message),
      Some(ValueText(parsed.fields["task"])),
      Some(ValueText(parsed.fields["date"])),
      Some(ValueText(parsed.fields["time"])),
      Some(parsed.dueDate),
      false)
  }

  /** The GET query: `task`, `date` and `time` all exist. */
  predicate Complete(d: Document) {
    d.task.Some? && d.date.Some? && d.time.Some?
  }

  /** The documents the GET query matches, in collection order. */
  function CompleteDocuments(s: seq<Document>): (r: seq<Document>)
    ensures forall d :: d in r <==> d in s && Complete(d)
    ensures |r| <= |s|
  {
    if s == [] then []
    else (if Complete(s[0]) then [s[0]] else []) + CompleteDocuments(s[1..])
  }

  /** `sort({ date: 1, time: 1 })`: `a` may come before `b`. */
  predicate DueNoLater(a: Document, b: Document) {
    var da, db := a.date.GetOr(""), b.date.GetOr("");
    if da == db then LexLessEq(a.time.GetOr(""), b.time.GetOr("")) else LexLessEq(da, db)
  }

  lemma DueNoLaterTotal(a: Document, b: Document)
    ensures DueNoLater(a, b) || DueNoLater(b, a)
  {
    LexTotal(a.date.GetOr(""), b.date.GetOr(""));
    LexTotal(a.time.GetOr(""), b.time.GetOr(""));
  }

  lemma DueNoLaterTransitive(a: Document, b: Document, c: Document)
    requires DueNoLater(a, b) && DueNoLater(b, c)
    ensures DueNoLater(a, c)
  {
    var da, db, dc := a.date.GetOr(""), b.date.GetOr(""), c.date.GetOr("");
    var ta, tb, tc := a.time.GetOr(""), b.time.GetOr(""), c.time.GetOr("");
    if da == db && db == dc {
      LexTransitive(ta, tb, tc);
    } else if da == db || db == dc {
    } else {
      LexTransitive(da, db, dc);
      if da == dc {
        LexAntisymmetric(da, db);
      }
    }
  }

  ghost predicate SortedByDue(s: seq<Document>) {
    forall i, j :: 0 <= i < j < |s| ==> DueNoLater(s[i], s[j])
  }

  /** Places `d` into an ordered sequence. */
  function InsertByDue(d: Document, s: seq<Document>): (r: seq<Document>)
    requires SortedByDue(s)
    ensures SortedByDue(r)
    ensures multiset(r) == multiset(s) + multiset{d}
  {
    if s == [] then [d]
    else if DueNoLater(d, s[0]) then
      InsertAtFront(d, s);
      [d] + s
    else
      var rest := InsertByDue(d, s[1..]);
      InsertBehind(d, s, rest);
      assert s == [s[0]] + s[1..];
      [s[0]] + rest
  }

  /** A document due no later than every element of a sorted sequence can go before it. */
  lemma ConsSorted(h: Document, s: seq<Document>)
    requires SortedByDue(s)
    requires forall j :: 0 <= j < |s| ==> DueNoLater(h, s[j])
    ensures SortedByDue([h] + s)
  {
    forall i, j | 0 <= i < j < |[h] + s|
      ensures DueNoLater(([h] + s)[i], ([h] + s)[j])
    {
      assert ([h] + s)[j] == s[j - 1];
      if i > 0 {
        assert ([h] + s)[i] == s[i - 1];
      }
    }
  }

  /** Due no later than the head of a sorted sequence means due no later than all of it. */
  lemma InsertAtFront(d: Document, s: seq<Document>)
    requires SortedByDue(s) && s != [] && DueNoLater(d, s[0])
    ensures SortedByDue([d] + s)
  {
    forall j | 0 <= j < |s| ensures DueNoLater(d, s[j]) {
      if j > 0 {
        DueNoLaterTransitive(d, s[0], s[j]);
      }
    }
    ConsSorted(d, s);
  }

  /** A document due after the head goes behind it, into the rest. */
  lemma InsertBehind(d: Document, s: seq<Document>, rest: seq<Document>)
    requires SortedByDue(s) && s != [] && !DueNoLater(d, s[0])
    requires SortedByDue(rest) && multiset(rest) == multiset(s[1..]) + multiset{d}
    ensures SortedByDue([s[0]] + rest)
  {
    DueNoLaterTotal(d, s[0]);
    forall j | 0 <= j < |rest| ensures DueNoLater(s[0], rest[j]) {
      var x := rest[j];
      assert x in multiset(rest);
      if x != d {
        assert x in multiset(s[1..]);
        var k :| 0 <= k < |s[1..]| && s[1..][k] == x;
        assert s[k + 1] == x;
      }
    }
    ConsSorted(s[0], rest);
  }

  /** The documents ordered soonest-due first. */
  function SortByDue(s: seq<Document>): (r: seq<Document>)
    ensures SortedByDue(r)
    ensures multiset(r) == multiset(s)
  {
    if s == [] then []
    else
      assert s == [s[0]] + s[1..];
      InsertByDue(s[0], SortByDue(s[1..]))
  }

  /** `findByIdAndUpdate(id, { isPaid: true })` applied to the whole collection. */
  function MarkedPaid(s: seq<Document>, id: nat): (r: seq<Document>)
    ensures |r| == |s|
  {
    seq(|s|, i requires 0 <= i < |s| => if s[i].id == id then s[i].(isPaid := true) else s[i])
  }

  predicate HasId(s: seq<Document>, id: nat) {
    exists i :: 0 <= i < |s| && s[i].id == id
  }

  /** Identifiers are handed out in increasing order, so they are distinct. */
  ghost predicate IdsIncreasing(s: seq<Document>) {
    forall i, j :: 0 <= i < j < |s| ==> s[i].id < s[j].id
  }

  /** Every identifier in `s` is below `n`, the next one to hand out. */
  ghost predicate IdsBelow(s: seq<Document>, n: nat) {
    forall i :: 0 <= i < |s| ==> s[i].id < n
  }

  /** Appending a document with the next identifier keeps identifiers increasing and below the new next one. */
  lemma AppendFresh(s: seq<Document>, d: Document, n: nat)
    requires IdsIncreasing(s) && IdsBelow(s, n) && d.id == n
    ensures IdsIncreasing(s + [d]) && IdsBelow(s + [d], n + 1)
  {
  }

  /** What the route relies on from the parsing service: a reply it returns always has task, date and time. */
  ghost predicate ChecksRequiredFields(parse: string -> Option<ParsedReminder>) {
    forall m :: parse(m).Some? ==> HasRequiredFields(parse(m).value.fields)
  }

  /**
   * The service `parseReminder`, the model's reply to each message run
   * through `ParseReminder`, is a parser the route can rely on.
   */
  lemma ServiceParserChecksFields(reply: string -> ProviderReply, jsonParse: string -> Option<JsonDoc>)
    ensures ChecksRequiredFields(m => ParseReminder(reply(m), jsonParse))
  {
    var parse := m => ParseReminder(reply(m), jsonParse);
    forall m | parse(m).Some?
      ensures HasRequiredFields(parse(m).value.fields)
    {
      assert parse(m) == ParseReminder(reply(m), jsonParse);
      AcceptedHasRequiredFields(reply(m), jsonParse);
    }
  }

  class ReminderStore {
    var records: seq<Document>
    var nextId: nat

    ghost predicate Valid()
      reads this
    {
      IdsIncreasing(records) && IdsBelow(records, nextId)
    }

    /** The collection as found at start-up; identifiers continue after the last one. */
    constructor (existing: seq<Document>)
      requires IdsIncreasing(existing)
      ensures Valid() && records == existing
    {
      records := existing;
      nextId := if existing == [] then 0 else existing[|existing| - 1].id + 1;
    }

    /**
     * POST `/`. `parse` is the parsing service, `parseReminder`, applied to the
     * message; it answers with `None` or with a reply holding the required fields
     * (`ServiceParserChecksFields` shows that `ParseReminder` does).
     */
    method Create(body: PostBody, parse: string -> Option<ParsedReminder>, saveOk: bool)
      returns (resp: Response, ghost parserCalled: bool)
      requires Valid()
      requires ChecksRequiredFields(parse)
      modifies this
      ensures Valid()
      ensures parserCalled <==> HasMessage(body)
      ensures !HasMessage(body) ==>
        resp == Response(400, ErrorBody("Message is required")) && records == old(records) && nextId == old(nextId)
      ensures HasMessage(body) && parse(body.message.value).None? ==>
        resp == Response(500, ErrorBody("Failed to parse reminder")) && records == old(records) && nextId == old(nextId)
      ensures HasMessage(body) && parse(body.message.value).Some? && !saveOk ==>
        resp == Response(500, ErrorBody("Failed to save reminder")) && records == old(records) && nextId == old(nextId)
      ensures HasMessage(body) && parse(body.message.value).Some? && saveOk ==>
        var d := NewDocument(old(nextId), RequestUser(body), body.message.value, parse(body.message.value).value);
        && resp == Response(201, One(d))
        && records == old(records) + [d]
        && nextId == old(nextId) + 1
    {
      parserCalled := false;
      if !HasMessage(body) {
        resp := Response(400, ErrorBody("Message is required"));
        return;
      }
      var message := body.message.value;
      var userId := RequestUser(body);
      parserCalled := true;
      var parsed := parse(message);
      if parsed.None? {
        resp := Response(500, ErrorBody("Failed to parse reminder"));
        return;
      }
      var reminder := NewDocument(nextId, userId, message, parsed.value);
      if !saveOk {
        resp := Response(500, ErrorBody("Failed to save reminder"));
        return;
      }
      AppendFresh(records, reminder, nextId);
      records := records + [reminder];
      nextId := nextId + 1;
      resp := Response(201, One(reminder));
    }

    /** GET `/`: every complete document, of every user, ordered by date and then time. */
    method List(findOk: bool) returns (resp: Response)
      ensures !findOk ==> resp == Response(500, ErrorBody("Failed to fetch reminders"))
      ensures findOk ==>
        && resp.status == 200 && resp.body.Many?
        && SortedByDue(resp.body.docs)
        && multiset(resp.body.docs) == multiset(CompleteDocuments(records))
    {
      if !findOk {
        resp := Response(500, ErrorBody("Failed to fetch reminders"));
        return;
      }
      resp := Response(200, Many(SortByDue(CompleteDocuments(records))));
    }

    /** PUT `/:id/mark-paid`. */
    method MarkPaid(id: nat, updateOk: bool) returns (resp: Response)
      requires Valid()
      modifies this
      ensures Valid() && nextId == old(nextId)
      ensures !updateOk ==>
        resp == Response(500, ErrorBody("Failed to mark as paid")) && records == old(records)
      ensures updateOk && !HasId(old(records), id) ==>
        resp == Response(404, ErrorBody("Reminder not found")) && records == old(records)
      ensures updateOk && HasId(old(records), id) ==>
        && records == MarkedPaid(old(records), id)
        && resp.status == 200 && resp.body.One?
        && resp.body.doc in records && resp.body.doc.id == id && resp.body.doc.isPaid
    {
      if !updateOk {
        resp := Response(500, ErrorBody("Failed to mark as paid"));
        return;
      }
      var i := 0;
      while i < |records| && records[i].id != id
        invariant 0 <= i <= |records|
        invariant forall k :: 0 <= k < i ==> records[k].id != id
      {
        i := i + 1;
      }
      if i == |records| {
        resp := Response(404, ErrorBody("Reminder not found"));
        return;
      }
      var updated := records[i].(isPaid := true);
      records := records[i := updated];
      assert records[i] == updated;
      assert records == MarkedPaid(old(records), id) by {
        forall k | 0 <= k < |records| && k != i ensures old(records)[k].id != id {
          if k > i {
            assert old(records)[i].id < old(records)[k].id;
          }
        }
      }
      resp := Response(200, One(updated));
    }
  }

  /** Marking a reminder paid a second time changes nothing more: the operation is idempotent. */
  lemma MarkPaidIdempotent(s: seq<Document>, id: nat)
    ensures MarkedPaid(MarkedPaid(s, id), id) == MarkedPaid(s, id)
  {
  }

  /**
   * Marking paid is the only transition and it is one-way: no reminder
   * becomes unpaid, only reminders with that id change, and they change
   * in nothing but the flag.
   */
  lemma {:induction false} MarkPaidOnlyFlipsFlag(s: seq<Document>, id: nat, i: nat)
    requires i < |s|
    ensures s[i].isPaid ==> MarkedPaid(s, id)[i].isPaid
    ensures s[i].id != id ==> MarkedPaid(s, id)[i] == s[i]
    ensures s[i].id == id ==> MarkedPaid(s, id)[i] == s[i].(isPaid := true)
  {
  }

  /**
   * A paid reminder stays in the GET result: the query does not look at the
   * flag, so the listed reminders after marking are the listed reminders
   * before, with that one marked.
   */
  lemma {:induction false} MarkPaidKeepsListed(s: seq<Document>, id: nat)
    ensures CompleteDocuments(MarkedPaid(s, id)) == MarkedPaid(CompleteDocuments(s), id)
  {
    if s != [] {
      assert MarkedPaid(s, id)[1..] == MarkedPaid(s[1..], id);
      MarkPaidKeepsListed(s[1..], id);
      var head := if Complete(s[0]) then [s[0]] else [];
      MarkedPaidAppend(head, CompleteDocuments(s[1..]), id);
    }
  }

  /** Marking works element by element, so it distributes over concatenation. */
  lemma MarkedPaidAppend(a: seq<Document>, b: seq<Document>, id: nat)
    ensures MarkedPaid(a + b, id) == MarkedPaid(a, id) + MarkedPaid(b, id)
  {
  }

  /** A document created by POST always passes the GET query. */
  lemma CreatedDocumentIsListed(s: seq<Document>, id: nat, userId: string, message: string, parsed: ParsedReminder)
    requires HasRequiredFields(parsed.fields)
    ensures NewDocument(id, userId, message, parsed) in CompleteDocuments(s + [NewDocument(id, userId, message, parsed)])
  {
  }
}
