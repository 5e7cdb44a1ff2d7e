# Payble bill reminders: a verified model of its logic

Payble is a bill-reminder app. A user types a sentence such as "remind me to pay
400 for electricity by 15th August at 6 PM". A small reminder service asks a
language model to turn it into a task, a date and a time, stores the result, lists
the stored reminders soonest-due first, and marks them paid. A second service
totals a user's 2025 spending by month and by category. The mobile screens
validate sign-in and login forms, colour bills by how close they are due, and split
reminders into unpaid and paid groups.

This project models those pieces in Dafny and proves what they promise:

- `ReminderRoutes`: the three reminder routes. The collection is a
  `ReminderStore` class holding the documents and the next identifier.
- `ReminderParser`: what the service does with the model's reply. It trims the
  reply, peels off a Markdown fence, checks the required fields and builds the
  due-date text.
- `Insight`: the spending aggregation loop, over an `array` of twelve monthly
  totals and a category map.
- `SpreadUtils` and `BillItem`: the two colour classifiers.
- `FormPatterns`, `SignIn` and `Login`: the form regexes and the two
  `validateForm` handlers.
- `ReminderGroups`, `Bills` and `Chat`: the paid/unpaid partition, the two
  screens that show it, and the two "add reminder" handlers.
- `JsString`: the JavaScript string behaviour all of these rely on. This covers
  `trim`, `\s`, the line terminators `.` refuses, and the code-point order the
  document store sorts strings by.
- `Wrappers`: the `Option` type.

Some inputs are not computed by the model. These are the language model's reply,
`JSON.parse`, whether a database call succeeds, the outcome of a client's HTTP
request, calendar years and months, timestamps, and the current instant. The
model takes each of them as a parameter.

Some behaviours of the code are worth stating plainly:

- Dates and times are never checked for format or calendar validity. A task
  needs only to be truthy, so `" "` passes.
- The POST route rejects only an absent or empty message. A whitespace-only
  message reaches the parser.
- GET does not look at the user. It returns every complete reminder.
- The order of reminders with equal date and time is left to the database. The
  model promises only that the result is sorted and holds the right reminders.
- The password pattern has no `u` flag, so its length test counts UTF-16 code
  units. A character outside the Basic Multilingual Plane, such as an emoji,
  counts twice.
- The collection's schema declares neither `isPaid` nor `dueDate`, but the
  routes and screens use `isPaid`. The model follows the routes. On the client,
  a missing flag reads as unpaid.

## Model

| member | source | states |
|---|---|---|
| JsString.Utf16Length | screens/signin.tsx:40 | the code-unit length lies between the number of characters and twice that; `Utf16LengthOfOne` and `Utf16LengthAppend` pin it to two units per astral character and one per other character |
| JsString.Utf16LengthOfOne | screens/signin.tsx:40 | a single character weighs two code units when it lies above U+FFFF and one otherwise |
| JsString.Utf16LengthOfBasic | screens/signin.tsx:40 | without characters outside the Basic Multilingual Plane, the code-unit length is the number of characters |
| JsString.Utf16LengthAppend | screens/signin.tsx:40 | the code-unit length of a concatenation is the sum of the parts' |
| JsString.LeadingWhitespace | reminder-backend/services/parseReminder.mjs:27 | the count of whitespace characters opening the text: all of them whitespace, and the next character is not |
| JsString.TrailingWhitespace | reminder-backend/services/parseReminder.mjs:27 | the count of whitespace characters closing the text: all of them whitespace, and the one before them is not |
| JsString.TrimStart | reminder-backend/services/parseReminder.mjs:31 | `\s*` after the opening fence drops exactly a whitespace prefix; what remains is a suffix that starts with a non-whitespace character |
| JsString.TrimEnd | reminder-backend/services/parseReminder.mjs:27 | the trailing half of `trim`: a prefix, with only whitespace cut and a non-whitespace last character |
| JsString.Trim | reminder-backend/services/parseReminder.mjs:27 | `trim()` yields the infix left after cutting whitespace at both ends; no whitespace remains at either end |
| JsString.TrimTail | reminder-backend/services/parseReminder.mjs:27 | what `trimEnd` removes after `trimStart` is whitespace of the original text |
| JsString.BlankIffTrimmedEmpty | screens/signin.tsx:44 | `!s.trim()` holds exactly when every character is whitespace |
| JsString.TrimStartSkipsWhitespace | reminder-backend/services/parseReminder.mjs:31 | a whitespace prefix never survives `trimStart` |
| JsString.TrimEndSkipsWhitespace | reminder-backend/services/parseReminder.mjs:31 | a whitespace suffix never survives `trimEnd` |
| JsString.TrimOfTrimmed | reminder-backend/services/parseReminder.mjs:27 | a string with non-whitespace ends is its own trim |
| JsString.TrimIdempotent | reminder-backend/services/parseReminder.mjs:31 | trimming twice is trimming once |
| JsString.LexTotal | reminder-backend/routes/reminders.mjs:46 | any two strings are comparable in the sort order |
| JsString.LexTransitive | reminder-backend/routes/reminders.mjs:46 | the sort order on strings is transitive |
| JsString.LexAntisymmetric | reminder-backend/routes/reminders.mjs:46 | two strings ordered both ways are equal |
| ReminderParser.StripOpeningFence | reminder-backend/services/parseReminder.mjs:31 | `replace(/^```json?\s*/, '')`; `OpeningFenceOfJsonReply` shows it removes the fence, the "n" and the line break and nothing of the body, and `BareFenceYieldsNull` that a bare fence is left in place |
| ReminderParser.StripClosingFence | reminder-backend/services/parseReminder.mjs:31 | `replace(/```$/, '')`; `ClosingFenceOfJsonReply` shows it removes only the final fence, and `ClosingFenceKeepsBacktick` what it leaves of a bare fence |
| ReminderParser.HasRequiredFields | reminder-backend/services/parseReminder.mjs:36-38 | `parsed.task && parsed.date && parsed.time`; `MissingFieldYieldsNull` and `CompleteObjectIsAccepted` show that the parser accepts exactly the objects it holds for |
| ReminderParser.AcceptedHasRequiredFields | reminder-backend/services/parseReminder.mjs:36-47 | an accepted reply still holds truthy task, date and time after `dueDate` is set |
| ReminderParser.SameRequiredFields | reminder-backend/services/parseReminder.mjs:36-47 | dictionaries that agree on task, date and time agree on the required-field check |
| ReminderParser.NatText | reminder-backend/services/parseReminder.mjs:42 | `String(n)` in the template is a non-empty run of digits; `NatTextRoundTrip` shows it is the decimal numeral of `n` |
| ReminderParser.NatTextRoundTrip | reminder-backend/services/parseReminder.mjs:42 | the digits `String(n)` writes denote `n` again, and there is no leading zero except in "0" |
| ReminderParser.JsonText | reminder-backend/services/parseReminder.mjs:27-32 | the text handed to `JSON.parse` has no whitespace at its ends; an unfenced reply is passed on as trimmed |
| ReminderParser.ParseReminder | reminder-backend/services/parseReminder.mjs:20-51 | a provider error gives null; a non-null result comes from a JSON object with truthy task, date and time; it holds all of that object's properties plus `dueDate = date + "T" + time + ":00"` |
| ReminderParser.MissingFieldYieldsNull | reminder-backend/services/parseReminder.mjs:36-38 | an object lacking task, date or time, or holding a falsy one (the empty string included), gives null |
| ReminderParser.CompleteObjectIsAccepted | reminder-backend/services/parseReminder.mjs:36-47 | an object with all three fields truthy is always accepted |
| ReminderParser.TrimKeepsBacktick | reminder-backend/services/parseReminder.mjs:31 | trimming a text that starts with a backtick keeps the backtick first |
| ReminderParser.BareFenceYieldsNull | reminder-backend/services/parseReminder.mjs:30-34 | a reply fenced with a bare "```" (no "jso") keeps its backtick, so parsing fails and the result is null |
| ReminderParser.TrimDropsTrailingNewline | reminder-backend/services/parseReminder.mjs:31 | the final trim removes the line break before the closing fence |
| ReminderParser.OpeningFenceOfJsonReply | reminder-backend/services/parseReminder.mjs:31 | the opening pattern removes "```json" and the line break and nothing of the body |
| ReminderParser.FencedReplyUnwraps | reminder-backend/services/parseReminder.mjs:30-32 | a reply "```json", break, body, break, "```" hands exactly the body to `JSON.parse` |
| ReminderParser.FencedReplyIsTrimmed | reminder-backend/services/parseReminder.mjs:27-30 | a reply that opens with the fence and ends with a backtick is left alone by `trim` and takes the fenced branch |
| ReminderParser.ClosingFenceOfJsonReply | reminder-backend/services/parseReminder.mjs:31 | the closing pattern removes the final "```" and leaves the line break before it |
| ReminderParser.ClosingFenceKeepsBacktick | reminder-backend/services/parseReminder.mjs:31 | after the closing fence is removed, a text that began with the fence still begins with a backtick, or is empty |
| ReminderRoutes.HasMessage | reminder-backend/routes/reminders.mjs:13 | `!message` is false; `ReminderStore.Create` answers 400 exactly when it fails, and `Bills.BillsScreen.AddReminder` and `Chat.ChatScreen.HandleSaveReminder` show that what the screens send passes it |
| ReminderRoutes.RequestUser | reminder-backend/routes/reminders.mjs:11 | `userId` defaults to "guest" only when the field is absent |
| ReminderRoutes.NewDocument | reminder-backend/routes/reminders.mjs:24-28 | a new reminder is complete and unpaid and holds the parsed task, date, time and due text; a `userId` or `originalText` in the parsed reply overrides the request's user or message, and without one the request's value is kept |
| ReminderRoutes.CompleteDocuments | reminder-backend/routes/reminders.mjs:42-45 | the query keeps exactly the documents that have task, date and time |
| ReminderRoutes.DueNoLaterTotal | reminder-backend/routes/reminders.mjs:46 | the (date, time) order is total |
| ReminderRoutes.DueNoLaterTransitive | reminder-backend/routes/reminders.mjs:46 | the (date, time) order is transitive |
| ReminderRoutes.InsertByDue | reminder-backend/routes/reminders.mjs:46 | inserting into a sorted list keeps it sorted and adds exactly that document |
| ReminderRoutes.ConsSorted | reminder-backend/routes/reminders.mjs:46 | a document due no later than every element of a sorted list can be put in front of it |
| ReminderRoutes.InsertAtFront | reminder-backend/routes/reminders.mjs:46 | due no later than the head of a sorted list means due no later than all of it |
| ReminderRoutes.InsertBehind | reminder-backend/routes/reminders.mjs:46 | a document due after the head goes behind it without breaking the order |
| ReminderRoutes.SortByDue | reminder-backend/routes/reminders.mjs:46 | the result is sorted by date, then time, and is a permutation of the input |
| ReminderRoutes.MarkedPaid | reminder-backend/routes/reminders.mjs:58-62 | the update keeps the collection's length; `MarkPaidOnlyFlipsFlag` states what changes |
| ReminderRoutes.ServiceParserChecksFields | reminder-backend/services/parseReminder.mjs:36-47 | the service (the model's reply to each message, run through `ParseReminder`) only ever answers with task, date and time present, which is what POST relies on |
| ReminderRoutes.AppendFresh | reminder-backend/routes/reminders.mjs:30-31 | saving a document under the next identifier keeps identifiers increasing and below the new next one |
| ReminderRoutes.ReminderStore.constructor | reminder-backend/models/Reminder.mjs:3-15 | the store starts from an existing collection with increasing identifiers |
| ReminderRoutes.ReminderStore.Create | reminder-backend/routes/reminders.mjs:8-37 | 400 "Message is required" when the message is absent or empty, with no parser call; otherwise the message is parsed; 500 "Failed to parse reminder" on null; 500 "Failed to save reminder" on a failed save; each error leaves the store unchanged; otherwise exactly one document is appended and returned with 201 |
| ReminderRoutes.ReminderStore.List | reminder-backend/routes/reminders.mjs:40-53 | 500 "Failed to fetch reminders" on a failed query; otherwise 200 with exactly the complete documents of every user, sorted by date and then time |
| ReminderRoutes.ReminderStore.MarkPaid | reminder-backend/routes/reminders.mjs:56-73 | 500 on a failed update; 404 "Reminder not found" for an unknown id, store unchanged; otherwise that reminder alone becomes paid and is returned with 200 |
| ReminderRoutes.MarkPaidIdempotent | reminder-backend/routes/reminders.mjs:58-66 | marking the same id paid twice equals marking it once |
| ReminderRoutes.MarkPaidOnlyFlipsFlag | reminder-backend/routes/reminders.mjs:58-62 | paid stays paid; other ids are untouched; the marked reminder changes in nothing but the flag |
| ReminderRoutes.MarkPaidKeepsListed | reminder-backend/routes/reminders.mjs:42-46 | marking paid does not change which reminders the list returns: the listed reminders after marking are the listed ones before, with that reminder marked |
| ReminderRoutes.MarkedPaidAppend | reminder-backend/routes/reminders.mjs:58-62 | marking works reminder by reminder, so it distributes over concatenation |
| ReminderRoutes.CreatedDocumentIsListed | reminder-backend/routes/reminders.mjs:24-45 | a reminder created by POST always passes the GET query |
| Insight.Remark | backend/routes/insight.js:31-34 | "big spender" exactly when the month's total is over 1000, "under control" otherwise |
| Insight.CategoriesStep | backend/routes/insight.js:24-27 | a counted transaction adds its category to the keys; others add none |
| Insight.CategoryTotalsMeaning | backend/routes/insight.js:24-27 | the dictionary built step by step has one key per category seen in 2025, holding that category's 2025 sum |
| Insight.CategoryTotalsStep | backend/routes/insight.js:24-27 | one loop step creates a missing 2025 category at 0 and adds the amount to it; other years change nothing |
| Insight.MonthlyTotalsStep | backend/routes/insight.js:21-22 | one loop step adds a 2025 amount to its month alone; other years change nothing |
| Insight.CategoryTotalOutside | backend/routes/insight.js:24-27 | a category that no 2025 transaction has totals zero |
| Insight.Summarize | backend/routes/insight.js:11-34 | a fresh array of twelve totals, each the 2025 sum for its month; a dictionary with exactly one key per category seen in 2025, holding its sum; the remark for the current month's total |
| Insight.OtherYearsIgnored | backend/routes/insight.js:21 | a transaction outside 2025 leaves both totals unchanged |
| Insight.SumMonthsStep | backend/routes/insight.js:22 | adding a transaction adds its amount to exactly one month |
| Insight.SumMonthsOfNothing | backend/routes/insight.js:11 | base case of `MonthlyTotalsSumToYearTotal`: with no transactions the twelve monthly totals add up to zero |
| Insight.MonthlyTotalsSumToYearTotal | backend/routes/insight.js:15-22 | the twelve monthly totals add up to the 2025 total |
| Insight.SumCategoriesStep | backend/routes/insight.js:27 | adding a transaction adds its amount to exactly one listed category |
| Insight.SumCategoriesOfNothing | backend/routes/insight.js:12 | base case of `CategoryTotalsSumToYearTotal`: with no transactions the listed category totals add up to zero |
| Insight.CategoryTotalsSumToYearTotal | backend/routes/insight.js:24-27 | the category totals add up to the 2025 total |
| Insight.MonthlyAndCategoryTotalsAgree | backend/routes/insight.js:15-29 | the sum of `monthlyTotals` equals the sum of the `categoryTotals` values |
| Insight.CategoryStepAsWritten | backend/routes/insight.js:24-27 | the dictionary update as the code performs it on a plain object; `PrototypeCategoriesCorrupted` shows where it goes wrong |
| Insight.PrototypeCategoriesCorrupted | backend/routes/insight.js:24-27 | with the object literal, category "toString" becomes a string and "__proto__" is lost, where the intended map holds 250 for each |
| SpreadUtils.Min | frontend/spendings-backend/utils/spreadUtils.tsx:8 | `Math.min` is an element no larger than any other |
| SpreadUtils.Max | frontend/spendings-backend/utils/spreadUtils.tsx:9 | `Math.max` is an element no smaller than any other |
| SpreadUtils.SameExtremes | frontend/spendings-backend/utils/spreadUtils.tsx:8-9 | lists holding the same values have the same minimum and maximum |
| SpreadUtils.DiffDays | frontend/spendings-backend/utils/spreadUtils.tsx:12 | the day count is the floor of the span over a day: non-negative and within one day of it |
| SpreadUtils.GetSpreadColor | frontend/spendings-backend/utils/spreadUtils.tsx:1-17 | missing or empty gives green; otherwise red exactly when the span is at most 10 days, yellow for 11 to 20, green above 20 |
| SpreadUtils.EqualDatesAreRed | frontend/spendings-backend/utils/spreadUtils.tsx:12-14 | a single date or equal dates give red |
| SpreadUtils.ColorDependsOnlyOnInstants | frontend/spendings-backend/utils/spreadUtils.tsx:8-9 | lists holding the same instants, in any order or multiplicity, get the same colour |
| BillItem.DaysLeft | frontend/spendings-backend/components/BillItem.tsx:12-14 | the ceiling of the gap in days: the least whole number of days not short of it |
| BillItem.GetRowColor | frontend/spendings-backend/components/BillItem.tsx:11-20 | red exactly for at most 10 days left (overdue included), yellow for 11 to 20, green for 21 to 30, grey beyond |
| BillItem.OverdueIsRed | frontend/spendings-backend/components/BillItem.tsx:16 | a bill due now or earlier is red |
| BillItem.DaysLeftMonotone | frontend/spendings-backend/components/BillItem.tsx:14 | a later due instant never has fewer days left |
| BillItem.LaterDueNeverMoreUrgent | frontend/spendings-backend/components/BillItem.tsx:16-19 | moving a due date later never gives a more urgent colour |
| FormPatterns.MatchesPhone | screens/signin.tsx:38 | `/^\d{10}$/`: exactly ten digits; `SignIn.PatternsRejectBlank` shows it refuses blank text |
| FormPatterns.MatchesEmail | screens/signin.tsx:39 | the email regex; `EmailPatternIsEmailShape` restates it in plain terms |
| FormPatterns.MatchesStrongPassword | screens/signin.tsx:40 | the password regex; `PasswordPatternIsPasswordShape` restates it in plain terms, with the length in UTF-16 code units |
| FormPatterns.IndexOf | screens/signin.tsx:39 | the first position of a character, or the length when it is absent |
| FormPatterns.CountOfOne | screens/signin.tsx:39 | a character occurs once exactly when nothing but its first occurrence matches |
| FormPatterns.CountOfZero | screens/signin.tsx:39 | a character occurs zero times exactly when no position holds it |
| FormPatterns.EmailPatternIsEmailShape | screens/signin.tsx:39 | the email regex accepts exactly: no whitespace, exactly one "@" with text before it, and a "." after it with text on both sides |
| FormPatterns.PasswordPatternIsPasswordShape | screens/signin.tsx:40 | the password regex accepts exactly: 8 or more UTF-16 code units, no line terminator, a lower-case letter, an upper-case letter and a digit |
| FormPatterns.AstralCharactersCountTwice | screens/signin.tsx:40 | "Ab1" followed by three emoji, six characters in all, passes the pattern, because the emoji take two code units each |
| FormPatterns.BasicPasswordNeedsEightCharacters | screens/signin.tsx:40 | a password without characters outside the Basic Multilingual Plane passes only with 8 or more characters |
| FormPatterns.StrongPasswordAt | screens/signin.tsx:40 | a single-line text with a lower-case letter, an upper-case letter and a digit passes once it is 8 code units long |
| SignIn.DigitsOnly | screens/signin.tsx:31 | the filtered text is made of digits only and is no longer than the input |
| SignIn.DigitsOnlyKeepsDigits | screens/signin.tsx:31 | a string of digits passes through unchanged |
| SignIn.DigitsOnlyIdempotent | screens/signin.tsx:29-33 | filtering twice is filtering once |
| SignIn.DigitsOnlyAppend | screens/signin.tsx:31 | the digits are kept in order: filtering works piece by piece |
| SignIn.DigitsOnlyCounts | screens/signin.tsx:31 | every digit is kept as often as it occurs and nothing else is kept |
| SignIn.NameProblems | screens/signin.tsx:49-52 | the name field contributes at most one line |
| SignIn.PhoneProblems | screens/signin.tsx:54-60 | the phone field contributes at most one line |
| SignIn.EmailProblems | screens/signin.tsx:62-68 | the email field contributes at most one line |
| SignIn.PasswordProblems | screens/signin.tsx:70-76 | the password field contributes at most one line |
| SignIn.Line | screens/signin.tsx:44-76 | every error line is non-empty |
| SignIn.FieldsIncreaseAppend | screens/signin.tsx:48-77 | appending the later fields' lines keeps the lines in form order |
| SignIn.RenderEmptyIffNoProblems | screens/signin.tsx:79-86 | the message is empty exactly when there is no problem |
| SignIn.RenderOne | screens/signin.tsx:45 | one problem renders as its own line |
| SignIn.RenderAppend | screens/signin.tsx:48-77 | appending problems appends their lines |
| SignIn.CheckName | screens/signin.tsx:49-52 | a blank name appends "Name is required" and clears the valid flag; otherwise nothing changes |
| SignIn.CheckPhone | screens/signin.tsx:54-60 | appends the phone field's line, if any, and clears the valid flag exactly when there is one |
| SignIn.CheckEmail | screens/signin.tsx:62-68 | appends the email field's line, if any, and clears the valid flag exactly when there is one |
| SignIn.CheckPassword | screens/signin.tsx:70-76 | appends the password field's line, if any, and clears the valid flag exactly when there is one; the strength test counts the length in UTF-16 code units, as the pattern does |
| SignIn.Problems | screens/signin.tsx:44-77 | the single all-blank line, or each field's lines in form order; `AllBlankMessage`, `OneLinePerFieldInOrder` and `ValidIffAllFieldsPass` pin it down |
| SignIn.CheckForm | screens/signin.tsx:35-77 | the message built with `+=` is the lines of the problems found; valid exactly when there is none, exactly when the message is empty |
| SignIn.AllBlankMessage | screens/signin.tsx:44-47 | four blank fields give exactly "All feilds are required!\n" |
| SignIn.OneLinePerFieldInOrder | screens/signin.tsx:48-77 | otherwise each field gives at most one line, in the order name, phone, email, password, and the all-blank line is absent |
| SignIn.PatternsRejectBlank | screens/signin.tsx:54-73 | none of the three patterns accepts a blank value |
| SignIn.ValidIffAllFieldsPass | screens/signin.tsx:35-77 | valid exactly when the name is not blank and phone, email and password match their patterns |
| SignIn.PaddedEmailIsInvalid | screens/signin.tsx:62-68 | blankness is judged trimmed but the pattern sees the raw text, so a leading space gives "Invalid email format" |
| SignIn.SignInScreen.constructor | screens/signin.tsx:14-25 | all inputs and the error text start empty |
| SignIn.SignInScreen.HandlePhoneChange | screens/signin.tsx:29-33 | the phone field becomes the digits of the typed text |
| SignIn.SignInScreen.ValidateForm | screens/signin.tsx:35-87 | stores the message; alerts "Sign In successful!" and goes home exactly when it is empty, else alerts the message |
| Login.CheckForm | screens/login.tsx:23-41 | the message holds at most one line; a blank password always gives "Password is required\n"; else a blank email gives "Email is required\n" and a malformed one "Invalid email format\n"; valid exactly when the email is non-blank and matches and the password is non-blank, exactly when the message is empty |
| Login.WeakPasswordIsNotRejected | screens/login.tsx:26 | some non-blank password fails the strength pattern, yet the login check never applies it |
| Login.LoginScreen.constructor | screens/login.tsx:14-22 | both inputs and the error text start empty |
| Login.LoginScreen.ValidateForm | screens/login.tsx:23-51 | stores the message: "Password is required\n" for a blank password, else "Email is required\n" for a blank email, else "Invalid email format\n" for a malformed one; alerts "Login Successful" and goes home exactly when it is empty, else alerts the message |
| ReminderGroups.Filter | frontend/screens/notifications.tsx:61-62 | a group is never longer than the list |
| ReminderGroups.FilterKeepsExactly | frontend/screens/notifications.tsx:61-62 | a group holds exactly the reminders whose paid flag matches; a missing flag counts as unpaid |
| ReminderGroups.FilterAppend | frontend/screens/Reminders.js:85-86 | the groups keep the reminders in their original order |
| ReminderGroups.GroupsPartition | frontend/screens/Reminders.js:85-86 | every reminder lands in exactly one group, so the sizes add up to the list's |
| ReminderGroups.CardsFor | frontend/screens/notifications.tsx:73-77 | one card per reminder, with the pay button exactly on unpaid ones |
| ReminderGroups.ShownAppend | frontend/screens/notifications.tsx:81-109 | the cards of two stacked blocks are the cards of each in turn |
| ReminderGroups.ShownList | frontend/screens/notifications.tsx:89-94 | a list block shows exactly its reminders |
| ReminderGroups.ShownNoCards | frontend/screens/notifications.tsx:86 | a heading or note shows no reminder |
| ReminderGroups.ShownGroupBlock | frontend/screens/Reminders.js:133-151 | a group's list, or the note in its place, shows exactly that group |
| ReminderGroups.ButtonsAppend | frontend/screens/notifications.tsx:85-107 | stacking two sections keeps the pay button on unpaid reminders only |
| ReminderGroups.ButtonsOfCards | frontend/screens/notifications.tsx:73-77 | a list of cards, under a heading or not, has the pay button exactly on unpaid reminders |
| ReminderGroups.NotificationsView | frontend/screens/notifications.tsx:81-109 | the pending list or an empty note, then the paid list when there is one; `NotificationsViewShowsEachOnce` and `NotificationsViewSections` state what it shows |
| ReminderGroups.BillsView | frontend/screens/Reminders.js:105-156 | a spinner while loading, else the unpaid and paid sections, each with its own empty note; `BillsViewShowsEachOnce` and `BillsViewSections` state what it shows |
| ReminderGroups.NotificationsViewShowsEachOnce | frontend/screens/notifications.tsx:85-107 | the notifications screen shows each reminder exactly once |
| ReminderGroups.NotificationsViewSections | frontend/screens/notifications.tsx:73-107 | the empty note shows exactly when nothing is unpaid; the Paid section shows exactly when something is paid; "Mark Paid" appears only on unpaid reminders |
| ReminderGroups.BillsViewShowsEachOnce | frontend/screens/Reminders.js:128-154 | once loaded, the bills screen shows each reminder exactly once |
| ReminderGroups.BillsViewSections | frontend/screens/Reminders.js:94-152 | each empty note shows exactly when its group is empty; "Mark as Paid" appears only on unpaid reminders |
| Bills.FailureMessage | frontend/screens/Reminders.js:71 | the reply's `error` when it is present and non-empty, else "Failed to add reminder" |
| Bills.BillsScreen.constructor | frontend/screens/Reminders.js:16-19 | empty list, empty input, not sending |
| Bills.BillsScreen.AddReminder | frontend/screens/Reminders.js:55-83 | a blank input only alerts; otherwise the untrimmed input is posted (and passes the route's message check); `sending` is on during the request and off after; only a created reminder is prepended and clears the input; failures alert the reply's error or the exception's message |
| Chat.ChatScreen.constructor | frontend/screens/reminders.tsx:33-34 | empty list and empty input |
| Chat.ChatScreen.HandleSaveReminder | frontend/screens/reminders.tsx:36-45 | blank input changes nothing and sends nothing; otherwise the trimmed text is prepended, the input cleared, and that same trimmed text sent (it passes the route's message check); the service's answer changes nothing |

## Left out

- The language-model call, its prompt and its settings are foreign code. The model takes the reply, or a provider error, as an input.
- The parsing service is a parameter of `ReminderStore.Create`, because it calls the language model. `ServiceParserChecksFields` shows that `ParseReminder`, applied to the model's reply to the message, meets what the route relies on.
- `JSON.parse` is foreign code. It is a function parameter. Numbers in parsed JSON are integers, and arrays and objects inside it carry only their `String()` text.
- Database persistence is left out. `save`, `find` and `findByIdAndUpdate` are the store's own operations on a sequence, and whether each call throws is a boolean input.
- The schema's strict mode is left out. It would drop `isPaid` and `dueDate`, which are absent from the schema. The model keeps `isPaid` as the routes and screens use it.
- `dueDate` is kept as the text handed to `new Date`. Parsing dates, time zones, `getFullYear`, `getMonth` and the wall clock are left out. Years, months, timestamps and the current instant are integer inputs.
- Mongo identifiers are left out. They are modelled as increasing naturals, so an id in the wrong format reaches the 404 path rather than the 500 path. An `_id` or `createdAt` in the parsed reply is not modelled.
- Request bodies whose `message` is not a string (a number, say) are left out.
- ReminderRoutes.ReminderStore.List: the order among reminders with equal date and time is not stated. The database does not fix it.
- Insight.Summarize: it models the category dictionary as a map, so the prototype-key corruption under Findings is not reproduced there. `CategoryStepAsWritten` shows the code as written.
- Floating-point amounts and the NaN produced by invalid dates are left out. Amounts and timestamps are integers.
- Locale formatting (`toLocaleString`, `date-fns`) and all UI layout and styling are left out.
- Fetching lists on the client, `markAsPaid` on the client, authentication, speech input, and the other screens are outside this model.
- Alerts and navigation are returned as values instead of being performed.

## Findings

| source | as written | input that shows it | evidently intended | confidence | as-written member | corrected member |
|---|---|---|---|---|---|---|
| backend/routes/insight.js:24-27 | `categoryTotals` is a plain object literal; `!categoryTotals[c]` reads a member inherited from Object.prototype, and `+=` then concatenates onto it | one 2025 transaction of 250 in category "toString" gives a string total; one in category "__proto__" gives no key at all (`PrototypeCategoriesCorrupted`) | every category seen in 2025 maps to the sum of its amounts (`CategoryTotalsMeaning`) | not executed | Insight.CategoryStepAsWritten | Insight.Summarize |
