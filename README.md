# ClickUp → Telegram webhook, modelled in Dafny

This project models a small bridge that turns ClickUp task events into Telegram
notifications and runs a two-step approval flow over Telegram.

A ClickUp event arrives as a webhook. The serverless handler (`api/webhook.py`) then:
- fetches the task and its latest comment;
- parses the comment into text and image URLs;
- classifies the task to a team through its "Requestor" drop-down field;
- posts the notification to the administrators' default chat. When a team was
  found, the notification carries two inline buttons, `send:<key>` and `edit:<key>`.

Pressing "send" forwards the message to the team's chat. Pressing "edit" posts a
force-reply prompt whose text ends in `(ID: <key>)`, and the reply to that prompt
is forwarded to the team. A second, older Flask server (`app.py`) sends one
message per ClickUp payload. Both files carry the same Gregorian-to-Jalali
conversion.

The model has one module per component:

| module | file | models |
|---|---|---|
| `Text` | text.dfy | Python's `in`, `find`, `split`, `split(sep, 1)`, `lower` (ASCII) and `strip` on strings |
| `Jalali` | jalali.dfy | `gregorian_to_jalali` of the serverless handler, split into its stages |
| `Teams` | teams.dfy | the `TEAMS` registry as an ordered sequence, and `get_team_from_task` |
| `Comments` | comments.dfy | `parse_comment` and the author name |
| `Tokens` | tokens.dfy | the `action:key` button token and the `(ID: key)` edit prompt |
| `Telegram` | telegram.dfy | the Bot API calls, as a `Bot` object that appends each request to a log |
| `Handler` | handler.dfy | the POST branch of `handler` |
| `App` | app.dfy | the `/webhook` route of `app.py` and its copy of the conversion |

How the handler is modelled:
- The handler is a set of methods on a `Bot`. Each one is proved to append
  exactly the calls that a specification function (`Dispatch`,
  `CallbackOutcome`, `ReplyCalls`, `ClickUpCalls`) gives for the decoded body.
- Whether a Telegram request is delivered comes from an oracle fixed with the
  bot (`delivered`, indexed by the request's position in the log). The handler
  reads that result in one place only: the "send" button.
- The ClickUp API answers are parameters (`Fetched`). So are the two formatted
  dates (`dateText`, `nowText`).

## Model

| member | source | states |
|---|---|---|
| Text.Find | api/webhook.py:192 | the index found holds an occurrence and no earlier index does; None exactly when there is no occurrence at all |
| Text.Split | api/webhook.py:286 | at least one part; two or more exactly when the separator occurs; the first part is the text before the first occurrence |
| Text.SplitJoin | api/webhook.py:286 | the parts joined by the separator give the text back |
| Text.SplitPartsClean | api/webhook.py:286 | no part holds the separator |
| Text.SplitSecond | api/webhook.py:286 | the second part is the text after the first occurrence up to the next occurrence, or to the end |
| Text.PrefixKeepsAbsence | api/webhook.py:286 | a prefix of a text without the pattern has none either |
| Text.SplitOnce | api/webhook.py:240 | two parts exactly when the separator occurs, and then they rebuild the text around the separator and the first part holds no separator; otherwise the text itself |
| Text.Lower | api/webhook.py:192 | same length, every character lower-cased (ASCII letters) |
| Text.SkipSpaces | api/webhook.py:183 | the first index from a start that holds no whitespace, every index skipped holding whitespace |
| Text.SkipSpacesBack | api/webhook.py:183 | the end of a range once its trailing whitespace is cut, every index cut holding whitespace and the new end not following whitespace |
| Text.Strip | api/webhook.py:183 | a slice of the text with only whitespace around it, neither starting nor ending with whitespace, empty exactly when the text is all whitespace |
| Text.StripUnchanged | api/webhook.py:183 | a text without surrounding whitespace is its own strip |
| Text.ContainsMiddle | api/webhook.py:284 | a text contains whatever was placed in it |
| Text.ContainsSplit | api/webhook.py:284 | an occurrence in a concatenation lies in one of the parts when the seam character is not in the pattern |
| Text.NoOccurrenceAround | api/webhook.py:284 | a pattern cannot occur across parts that lack its first character |
| Text.FindAfter | api/webhook.py:286 | the first occurrence in `a + p + b` is right after `a` when `a` has none and cannot start one at the seam |
| Text.StartsWithExtend | app.py:211-223 | appending to a text keeps how it starts |
| Jalali.ReduceCycles | api/webhook.py:49-52 | after the 33-year and 4-year reductions the day count lies in [0, 1460], and, for a non-negative day count, the year never decreases |
| Jalali.EpochDays | api/webhook.py:39-48 | the year starts from 979 exactly after 1600, else from 0 |
| Jalali.EpochDaysConsecutive | api/webhook.py:39-48 | the day count grows by one from each day to the next: within a month, into February, and across the new year on either side of the epoch switch |
| Jalali.FoldYears | api/webhook.py:54-56 | the day count ends in [0, 365], at most 3 years are added, and no day is lost: the count equals 365 per added year plus the rest, plus the leap day |
| Jalali.MonthAndDay | api/webhook.py:58-62 | a valid month and day (months 7 to 12 have at most 30 days); month at most 6 exactly when the count is below 186; the day index is recovered |
| Jalali.MonthAndDayInverse | api/webhook.py:58-62 | month selection is a bijection: every valid month and day comes from exactly its own day index |
| Jalali.GregorianToJalali | api/webhook.py:39-62 | for every month 1 to 12 the result is a valid Jalali month and day |
| Jalali.Nowruz1403 | api/webhook.py:39-62 | 20 March 2024 maps to 1 Farvardin 1403 |
| Teams.Lookup | api/webhook.py:241 | None exactly when no entry has the key; a found team is registered under that key |
| Teams.Classify | api/webhook.py:186-202 | a team found for a task is a registry entry that some Requestor field and selected option match |
| Teams.LookupFindsPair | api/webhook.py:17-24 | with unique keys, every registered pair is found by its key |
| Teams.TeamCandidatesMembers | api/webhook.py:199-201 | a team is a candidate for an option name exactly when its key and the name contain one another |
| Teams.OptionCandidatesMembers | api/webhook.py:196-201 | a candidate comes exactly from an option whose order index equals the field value and whose lower-cased name matches |
| Teams.CandidatesMembers | api/webhook.py:191-201 | a candidate exists exactly when some Requestor field with a value and options has a matching option for it |
| Teams.TeamFromTask | api/webhook.py:186-202 | the triple loop with early return gives the first candidate in field, option, registry order, or none (no task gives none) |
| Teams.EmptyLabelMatchesAll | api/webhook.py:200 | an empty option name matches every key |
| Teams.ClassifySound | api/webhook.py:186-202 | a classified team is the registry's entry for its key and a field and option witness the match; no result means no field and option match any team |
| Teams.EmptyLabelPicksFirstTeam | api/webhook.py:198-201 | an empty option name selects the first registered team |
| Teams.FacilityLabelMatches | api/webhook.py:192-201 | the option "Facility Team" selects the facility team, and the key "facilityteam" matches the name "facility" |
| Comments.ParseComment | api/webhook.py:167-184 | the loop returns the stripped joined segment text (else `comment_text`) and the image URLs; no comment gives ("", []) |
| Comments.ParsedText | api/webhook.py:167-184 | no comment gives ""; a text other than `comment_text` is non-empty and neither starts nor ends with whitespace |
| Comments.ParsedImages | api/webhook.py:167-184 | no comment gives no image; otherwise one image per image segment with a URL |
| Comments.ImagesWithUrl | api/webhook.py:176-179 | the number of image segments with a URL is at most the number of segments |
| Comments.ImageCount | api/webhook.py:176-179 | the image list has exactly one entry per image segment with a URL |
| Comments.Author | api/webhook.py:316 | the username when non-empty; else the email, or the default when there is no email |
| Comments.ImageUrlsAppend | api/webhook.py:175-179 | images of concatenated segments are the concatenated images |
| Comments.TextPartsAppend | api/webhook.py:175-181 | text parts of concatenated segments are the concatenated parts |
| Comments.SegmentsInOrder | api/webhook.py:175-181 | each segment contributes its own image or text, in segment order |
| Comments.ImageUrlsMembers | api/webhook.py:176-179 | a URL is an image exactly when some image segment has it as thumbnail, or as URL without thumbnail |
| Comments.ImageOnlyHasNoText | api/webhook.py:176-181 | image segments add no text, and the images number exactly the image segments that have a URL |
| Comments.ImageOnlyComment | api/webhook.py:175-184 | a comment of images only has its `comment_text` as text, and its images number exactly its segments that have a URL |
| Comments.TextFallback | api/webhook.py:183 | an all-whitespace joined text falls back to `comment_text`; otherwise the text is the non-empty stripped join |
| Comments.SingleTextSegment | api/webhook.py:175-183 | a single text segment without surrounding whitespace is the text, with no image |
| Comments.OneTextSegment | api/webhook.py:175-181 | a lone non-image segment with text contributes that text and no image |
| Tokens.SplitToken | api/webhook.py:240 | the parts rebuild the token, and the action holds no colon |
| Tokens.EditPrompt | api/webhook.py:273 | the edit prompt holds the marker and ends with ")" |
| Tokens.ExtractKey | api/webhook.py:286 | the extracted key holds neither ")" nor the marker |
| Tokens.TokenRoundTrip | api/webhook.py:337-338 | `send:k` and `edit:k` split back into their action and `k`, even when `k` holds colons |
| Tokens.PromptBodyClean | api/webhook.py:273 | the prompt text before the key holds no marker when the team name holds none |
| Tokens.PromptRoundTrip | api/webhook.py:273 | the key extracted from an edit prompt is the key it was written for, when the key holds neither ")" nor the marker and the team name holds no marker |
| Tokens.MarkerInKeyIsCut | api/webhook.py:286 | a key holding the marker is cut at it, so the extra condition on the key is needed |
| Tokens.AfterMarker | api/webhook.py:286 | in a prompt whose team name has no marker, the text after the first marker is what follows the marker before the key |
| Tokens.NoMarkerAdded | api/webhook.py:286 | a marker-free key closed by ")" still holds no marker |
| Tokens.UpToParen | api/webhook.py:286 | cutting a ")"-free key followed by ")" at the first ")" gives the key back |
| Telegram.Route | api/webhook.py:107 | a non-empty chat id is kept; an empty one is replaced by the default chat |
| Telegram.Bot.constructor | api/webhook.py:91-104 | a bot with its default chat, its delivery oracle and an empty log |
| Telegram.Bot.Send | api/webhook.py:106-115 | appends one message to the routed chat; the result is the oracle's answer for that request |
| Telegram.Bot.SendImage | api/webhook.py:117-127 | appends one photo to the routed chat; the result is the oracle's answer for that request |
| Telegram.Bot.Answer | api/webhook.py:129-133 | appends one callback answer |
| Telegram.Bot.ClearButtons | api/webhook.py:135-139 | appends one markup removal for the chat and message |
| Handler.HandleCallback | api/webhook.py:231-275 | appends exactly the calls of a button press and returns its response |
| Handler.CallbackOutcome | api/webhook.py:231-275 | a button press answers 200, makes at most three calls, none without a colon in its data, and answers only its own callback id |
| Handler.ReplyCalls | api/webhook.py:277-293 | a reply makes at most two calls, all plain messages without markup |
| Handler.ClickUpCalls | api/webhook.py:300-354 | a ClickUp event makes at least one call, every one a message or photo to the default chat |
| Handler.Dispatch | api/webhook.py:228-360 | the POST answers 200, or 405 with no call exactly when the body has none of `update_id`, `payload`, `event` |
| Handler.CommentMessage | api/webhook.py:325-330 | the comment notification ends with the link to the task |
| Handler.ActivityMessage | api/webhook.py:351 | the activity notice ends with the link to the task |
| Handler.ForwardPressed | api/webhook.py:249-264 | appends the send of the pressed message to the team, then the answer and, when delivered, the removal of the buttons |
| Handler.HandleReply | api/webhook.py:278-293 | appends exactly the calls of a reply to an edit prompt |
| Handler.HandleClickUp | api/webhook.py:300-352 | appends exactly the notification burst for a ClickUp event |
| Handler.CommentCalls | api/webhook.py:313-345 | a fetched comment makes at least one call, every one a message or photo to the default chat |
| Handler.NotifyComment | api/webhook.py:313-345 | the comment branch appends exactly the photos or the message that `CommentCalls` describes |
| Handler.SendPhotos | api/webhook.py:343-345 | the image loop appends one photo per image, in order |
| Handler.HandlePost | api/webhook.py:218-360 | appends exactly the calls of the POST body and returns its response |
| Handler.TelegramUpdateFirst | api/webhook.py:228-300 | an `update_id` body ignores every ClickUp field, the fetched data and the dates, and answers 200 |
| Handler.CallbackBeforeMessage | api/webhook.py:231-278 | with a callback query present, the message does not change the outcome |
| Handler.UnrecognisedBody | api/webhook.py:300-360 | a body with none of the keys makes no call and answers 405 |
| Handler.DeliveryReadOnlyBySend | api/webhook.py:247-264 | delivery matters only to a "send" press; every other body makes the same calls whatever the oracle says |
| Handler.PressWithoutColon | api/webhook.py:239 | callback data without a colon makes no call |
| Handler.PressForUnknownTeam | api/webhook.py:241-245 | an unknown key gets exactly one "team not found" answer and a bare 200 |
| Handler.PressOtherAction | api/webhook.py:247-266 | a known key with another action makes no call |
| Handler.SendPress | api/webhook.py:247-264 | "send" sends the last photo size with text-else-caption, or the text, to the team's chat; on delivery ✅ and then the markup removal on the originating message; on failure only ❌ |
| Handler.EditPress | api/webhook.py:266-275 | "edit" sends exactly one force-reply prompt naming the team and key to the pressing chat, then the waiting answer, whatever the delivery |
| Handler.ReplyForwarding | api/webhook.py:279-293 | at most two calls; some exactly when the replied text holds the marker, the key names a team and the text is non-empty; then the text goes first to the team, and the confirmation follows to the replier exactly when the message has a chat id (otherwise the swallowed KeyError ends the branch after one call) |
| Handler.EditThenReply | api/webhook.py:266-291 | the reply to the prompt of an "edit" press is forwarded to the team that was pressed |
| Handler.ButtonsResolveToTeam | api/webhook.py:333-340 | the buttons of a classified task split back into send/edit and the classified key, which the registry maps to the classified team |
| Handler.ButtonsIffTeam | api/webhook.py:333-340 | buttons exactly when a team with a non-empty key was found; otherwise no markup |
| Handler.PhotoCallsAt | api/webhook.py:343-345 | one photo per image, in image order, each with the same caption, buttons and default chat |
| Handler.CommentMessageNames | api/webhook.py:325-330 | the comment notification contains the task name, the comment text, the author and the date |
| Handler.ActivityMessageNames | api/webhook.py:351 | the activity notice contains the task name and the time |
| Handler.ShownTextChoice | api/webhook.py:320-322 | the placeholder replaces the text exactly when the text is empty and images exist; otherwise the parsed text is shown |
| Handler.CommentNotification | api/webhook.py:313-347 | with a comment: max(1, #images) sends, all to the default chat, with the same text and the classified team's buttons; the text names the task, the shown text and the author |
| Handler.ActivityNotification | api/webhook.py:349-352 | without a comment (or task id): exactly one activity message to the default chat, without buttons |
| Handler.SingleTextScenario | api/webhook.py:313-347 | an unclassified task with one text comment such as "Done" gets one message to the default chat showing it, and nothing to a team |
| Handler.ImageOnlyScenario | api/webhook.py:313-345 | a facility task with one image and no text gets one photo to the default chat, captioned with the placeholder and carrying the facility buttons |
| Handler.DisabledTeamStillReceives | api/webhook.py:241-258 | a "send" press for a facility team marked disabled still sends to its chat |
| Handler.ReplyWithoutMarker | api/webhook.py:284 | a reply to text without the marker makes no call |
| Handler.ReplyToFacilityPrompt | api/webhook.py:284-291 | "Updated answer" in reply to the facility prompt goes to the facility chat, then the confirmation to the replier |
| Handler.ReplyToPrompt | api/webhook.py:279-291 | a reply to the prompt built for a registered key is forwarded to that key's team, then confirmed to the replier |
| App.GregorianToJalali | app.py:35-65 | month 1 to 12, day 1 to 31, and at most 30 in months 7 to 12 |
| App.ConversionsAgree | app.py:35-65 | the server's conversion equals the serverless handler's on every date |
| App.Webhook | app.py:181-235 | always status 200; exactly one message when there is a payload or a body; the comment is fetched only with a task id and a token |
| App.CommentMessage | app.py:211-217 | the comment message opens with the task line and closes with the date |
| App.ActivityMessage | app.py:219-223 | the activity message opens with its head and closes with the current time |
| App.TestMessage | app.py:228-232 | the test message opens with its head and closes with the current time |
| App.MessagesDiffer | app.py:209-223 | the comment message and the activity message never coincide |
| App.CommentMessageIff | app.py:200-223 | when a fetched comment has a non-empty text and author, the comment message carrying the task name, that author, that text and the date is sent; otherwise the activity message with the task name and the time; no comment message is sent in any other case |
| App.NoFetchMeansActivity | app.py:200-223 | without a task id or token nothing is fetched and the activity message is sent, whatever the comment |
| App.PayloadBeforeBody | app.py:188-233 | a payload wins over a body; a body alone gets the test message |
| App.CommentMessageNames | app.py:211-217 | the comment message contains the task name, the author and the comment text |
| App.ActivityMessageNames | app.py:190-223 | the activity message contains the task name, the "unknown" placeholder when the name is absent |

## Left out

- The network:
  - `telegram_request`, `get_clickup_data` and `send_telegram_message` are not modelled.
  - Telegram delivery is the `delivered` oracle.
  - The ClickUp answers are the `Fetched` parameter and the `latest` parameter.
  - Which comment `get_latest_comment` picks (the first of the list) is not modelled.
- `format_jalali_datetime` and `get_jalali_now`: the clock, time zones, `strftime` and the float division of millisecond timestamps. They enter as opaque strings.
- The GET branch of `handler` and the JSON and byte decoding of the body are not modelled. Neither are the environment variables or the catch-all handlers that answer 500.
- Inputs that raise in the source and reach the catch-all handler that answers 500 are outside the model, because the model assumes well-typed fields. Examples: a missing callback `id`, a `photo` entry without `file_id`, a `payload` that is null. The one raise the source swallows, a reply message without a chat id, is modelled: the team send happens and the confirmation does not (`Handler.ReplyForwarding`).
- The Flask app's other routes, CORS and logging are not modelled.
- JSON values that are present but null, or not strings, are folded into "absent" (""). The exceptions are the task id, which prints "None" in the link when absent, and the email and replied text, whose presence matters.
- A fetched comment that is an empty JSON object is falsy in Python. Such a comment is not distinguished from one with empty fields.
- `Text.Lower` folds only ASCII letters. Python's `lower()` also folds other scripts.
- Markdown rendering and button labels are not modelled. `reply_markup` is modelled only through the callback tokens and the force-reply placeholder.
- Telegram's own state is not modelled, so neither is whether removing buttons twice is harmless.
- The registry's `enabled` flag is carried but never read, as in the code: a team marked disabled still receives sends (`Handler.DisabledTeamStillReceives`). Nothing in the code stops a send to a team marked disabled.
- There is no "also send to the default chat" switch in the code. Notifications always go to the default chat, and teams receive only on a "send" press or an edited reply.
- Jalali.GregorianToJalali: requires a month from 1 to 12. Python would index the offset table with -1 for month 0, but every caller passes a calendar month.
- Chat ids are strings and message ids integers. No JSON number and string distinction is modelled.
