# Aurelius core, modelled in Dafny

Aurelius is a Discord bot for IMVU fashion models, with a desktop app. This
project models the self-contained logic behind its handlers and proves what
that logic promises:

- **Text builders.** The IMVU and Instagram caption builders, the request
  builders and the review builder. Agency templates are filled by chained
  first-occurrence `String.prototype.replace`; optional sections are appended
  under stated conditions. Each handler picks the agency template or the
  default builder.
- **Command logic.** The `/schedule` activity parser, Monday offset, week
  bounds, `HH:MM` check and next weekly occurrence. The `/profile` handle
  normalisation, agency list parsing, setup defaults and single-field update.
  The `/stream` creation defaults, due date, urgency band and the
  `complete`/`list`/`info` lookups. The `/review` occasions, defaults and
  template fallback.
- **The desktop app's SQLite store.** `DatabaseManager`, modelled as a class
  whose tables are sequences of rows next to their `AUTOINCREMENT` counters.
  It covers column defaults, `NOT NULL` failures, the seeding of the template
  table, the all-or-nothing import, `ORDER BY` on text keys and the
  statistics.
- **The two cron sweeps** of the bot. The hourly overdue-stream sweep runs
  against the table model above. The daily reminder sweep runs against a
  reminder table class. Every store write and every direct message may fail
  nondeterministically.

Files (one module each):

- `wrappers.dfy`: `Option`.
- `jsstring.dfy`: the JavaScript string built-ins the code uses: `replace`
  with a string pattern, `trim`, `split`, `join`, `\s` removal, `repeat`.
- `placeholder.dfy`: templates as literal text and named holes, and how chained
  first-occurrence replacement fills them.
- `seeded.dfy`: brace-freeness facts about the seeded template texts.
- `ordering.dfy`: SQLite's BINARY text order and a sort that models `ORDER BY`.
- `calendar.dfy`: local time as integer milliseconds.
- `agency.dfy`: the template row, the seeded rows and the active-name lookup.
- `caption.dfy`, `request.dfy`, `review.dfy`, `schedule.dfy`, `profile.dfy`,
  `stream.dfy`: one per command file.
- `dbrecords.dfy`: the desktop store's rows and the pure functions on them.
- `database.dfy`: the `DatabaseManager` class.
- `sweeps.dfy`: the two cron bodies and the reminder table.

Where the code and its comments disagree, the model follows the code. The
overdue sweep's comment (src/index.js:213) says "overdue", but the call
completes the stream, so the sweep never writes `'overdue'`. Both branches of `/schedule weekly`
(src/commands/schedule/schedule.js:112-131) call `createSchedule`, so an "update" adds a row too.
`created_at` stamps are text in two forms: `CURRENT_TIMESTAMP` writes `YYYY-MM-DD HH:MM:SS`, and an import
without a stamp writes `toISOString()` (desktop-app/database/database.js:353).
A weekly reminder set for exactly the current day and minute lands one full week later
(src/commands/schedule/schedule.js:279-281).

## Model

| member | source | states |
|---|---|---|
| JsString.Replace | src/commands/caption/caption.js:324-328 | `s.replace(pat, rep)` with a string pattern: unchanged when `pat` does not occur, else only the first occurrence is replaced |
| JsString.ReplaceKeepsLaterOccurrences | src/commands/caption/caption.js:324-328 | an occurrence after the first survives the replacement verbatim, shifted by the length difference |
| JsString.Trim | src/commands/schedule/schedule.js:105 | the result is the input with its leading and trailing JS whitespace cut off: a trimmed slice of it with only whitespace outside, the input itself when already trimmed, empty for an all-whitespace input |
| JsString.TrimUnique | src/commands/schedule/schedule.js:105 | a trimmed slice with only whitespace around it is the trim of the text |
| JsString.TrimIdempotent | src/commands/profile/profile.js:92 | trimming twice is trimming once |
| JsString.Split | src/commands/schedule/schedule.js:105 | `split(sep)` gives at least one piece and no piece contains the separator |
| JsString.JoinSplit | src/commands/schedule/schedule.js:105 | joining the pieces with the separator gives back the input |
| JsString.SplitJoin | src/commands/profile/profile.js:92 | splitting a join of separator-free pieces gives back the pieces |
| JsString.SplitWithoutSeparator | src/commands/profile/profile.js:92 | a string without the separator splits into itself alone |
| JsString.SplitBlankPieces | src/commands/schedule/schedule.js:105 | splitting text of separators and whitespace gives only all-whitespace pieces |
| JsString.SplitDoubleSeparator | src/commands/profile/profile.js:92 | two separators in a row give an empty piece between them |
| JsString.SplitAppend | src/commands/schedule/schedule.js:105 | splitting two texts glued by a separator gives the pieces of the first, then those of the second |
| JsString.Join | src/commands/caption/caption.js:369 | joining no pieces gives the empty text; otherwise the result starts with the first piece and ends with the last |
| JsString.JoinAppend | src/commands/caption/caption.js:369 | joining two non-empty lists is joining each, with one separator between them |
| JsString.IndexOf | src/commands/caption/caption.js:330 | `indexOf` / `includes`: found iff the pattern occurs, and then at its first occurrence |
| JsString.RemoveWhitespace | src/commands/caption/caption.js:351 | `replace(/\s+/g, '')`: no whitespace remains, every other character occurs as often as in the input, the result is no longer than the input, and whitespace-free text is unchanged |
| JsString.RemoveWhitespaceAppend | src/commands/caption/caption.js:351 | whitespace removal works piece by piece, keeping the order of the remaining characters |
| JsString.RemoveWhitespaceChar | src/commands/caption/caption.js:351 | a single character is dropped iff it is whitespace |
| JsString.Repeat | src/commands/review/review.js:268 | `'⭐'.repeat(n)` has exactly `n` characters, all the star |
| Placeholder.FillFirst | src/commands/caption/caption.js:324-328 | filling a name that has no hole leaves the template unchanged; a brace-free value keeps the template well formed |
| Placeholder.ReplaceFillsFirstHole | src/commands/caption/caption.js:324-328 | on a well-formed template, `replace('{n}', v)` fills exactly the first hole named `n` |
| Placeholder.SubstituteFillsHoles | src/commands/caption/caption.js:324-328 | a chain of replaces fills, for each pair in order, the first remaining hole of that name |
| Placeholder.SubstituteAppend | src/commands/caption/caption.js:324-328 | a chain of replaces is the chain of its two halves, each acting on the previous result |
| Placeholder.SubstituteSkipsMissing | src/commands/caption/caption.js:330-332 | a replace whose placeholder is absent changes nothing |
| Placeholder.NoBraceUnchanged | src/commands/caption/caption.js:324-328 | text without `{` is left alone by any chain of placeholder replaces |
| Placeholder.SubstituteInOrder | src/commands/caption/caption.js:324-328 | when the placeholders appear in the chain's order, each is replaced by its value and the text between them is kept |
| Placeholder.SubstituteFourInOrder | src/commands/caption/caption.js:324-328 | four distinct placeholders in the chain's order, with brace-free text and values, come out as the four values in place |
| Placeholder.FirstOccurrenceOnly | src/commands/caption/caption.js:324-328 | a concrete case: the second `{name}` survives the replace |
| Calendar.WeekDay | src/commands/schedule/schedule.js:91 | `getDay()` is a weekday number from 0 (Sunday) to 6 |
| Calendar.DayStart | src/commands/schedule/schedule.js:95 | the midnight of a time's day, with the time inside that day |
| Calendar.TimeOfDay | src/commands/schedule/schedule.js:276 | the time since midnight, less than a day, which added to the day start gives the time back |
| Calendar.AddDays | src/commands/stream/stream.js:112-113 | `setDate(getDate() + k)`: same time of day, `k` days later, weekday shifted by `k` mod 7 |
| Calendar.SetHours | src/commands/schedule/schedule.js:276 | `setHours(h, m, s, ms)` with an in-range clock keeps the day and sets the time of day |
| Calendar.SameDayAndTime | src/commands/schedule/schedule.js:279 | two times with the same day and time of day are equal |
| AgencyTemplates.TextField | src/commands/caption/caption.js:118 | reading a fetched row by key: only the snake_case column names hold a value, any other key is `undefined` |
| AgencyTemplates.TagsField | src/commands/caption/caption.js:211 | the same for the tag-list columns |
| AgencyTemplates.SeedRow | desktop-app/database/database.js:141-156 | the two seeded rows are active, with the agency names "Ladies & Babes" and "Default" |
| AgencyTemplates.FirstActive | desktop-app/database/database.js:327-330 | the lookup finds nothing iff no active row has exactly that name, else the first such row |
| AgencyTemplates.Lookup | src/commands/caption/caption.js:109-112 | the handlers' lookup result is empty iff no active row has the name, else holds that row |
| Caption.Appendix | src/commands/caption/caption.js:334-338 | an optional section is empty iff its text is empty, else the separator followed by the text |
| Caption.FillShopLink | src/commands/caption/caption.js:330-332 | an empty shop link leaves the caption unchanged, else `{shop_link}` is replaced at its first occurrence |
| Caption.ImvuTemplateFillsFirstHoles | src/commands/caption/caption.js:323-339 | the IMVU template builder fills the first holes of the four names and then `{shop_link}`, and appends `"\n\n" + tags` iff tags are given |
| Caption.ImvuFromTemplate | src/commands/caption/caption.js:323-339 | a template without placeholders comes back with only the tags appended after `"\n\n"`; given tags always close the caption |
| Caption.ImvuFillsInOrder | src/commands/caption/caption.js:324-328 | a template naming the four placeholders once, in order, gets exactly the four values in their places |
| Caption.ValueSubstitutedByLaterStep | src/commands/caption/caption.js:324-328 | an item name holding `{creator_name}` is itself substituted by the next step |
| Caption.DefaultImvuCaption | src/commands/caption/caption.js:341-358 | the default IMVU caption starts with the sparkle title and ends with the hashtag line and `#` plus the creator name without whitespace, or with `"\n" + tags` when tags are given |
| Caption.DefaultImvuLayout | src/commands/caption/caption.js:342-351 | without shop link and tags, the default caption is title, Creator, Item ID and Manufacturer ID lines, then the hashtag line |
| Caption.DefaultImvuMatchesSeededFormat | src/commands/caption/caption.js:341-358 | the default IMVU caption is the seeded "Default" IMVU format filled, plus ` #` and the whitespace-free creator name |
| Caption.RequiredTagsBlock | src/commands/caption/caption.js:368-370 | the required-tags section is non-empty iff the list is present and non-empty, and is then `"\n\n"` plus the tags joined by single spaces |
| Caption.InstagramTemplateFillsFirstHoles | src/commands/caption/caption.js:360-377 | the Instagram template builder fills the first holes of its five names in order, then appends the required tags and `"\n" + tags` iff given |
| Caption.InstagramFromTemplate | src/commands/caption/caption.js:360-377 | a template without placeholders comes back with the required-tags section and the tags appended; the caption ends with the given tags, else with the required-tags section |
| Caption.InstagramFillsInOrder | src/commands/caption/caption.js:361-366 | a template naming its placeholders once, in order, gets the values in their places |
| Caption.LadiesAndBabesKeepsSecondHandle | src/commands/caption/caption.js:361-366 | with the seeded "Ladies & Babes" Instagram format, the second `{creator_instagram}` survives verbatim |
| Caption.DefaultInstagramFormatFills | src/commands/caption/caption.js:361-366 | the seeded "Default" Instagram format is filled completely |
| Caption.DefaultInstagramCaption | src/commands/caption/caption.js:379-390 | the default Instagram caption opens with the title and the creator's handle and ends with the two handles' hashtags, or with the given tags |
| Caption.DefaultInstagramShowsItemId | src/commands/caption/caption.js:382-383 | whatever the extra tags, the default Instagram caption holds `Item ID: <id>`, a blank line and the hashtag line up to `#VirtualFashion #<creator handle>` |
| Caption.DefaultInstagramIgnoresCreatorName | src/commands/caption/caption.js:379-390 | the default Instagram caption does not depend on the creator name |
| Caption.ImvuHandler | src/commands/caption/caption.js:105-124 | AI caption iff the AI service is ready; otherwise the template builder on the found row's `imvu_caption_format`, or the default builder without shop link and tags |
| Caption.ImvuDefaultIgnoresShopAndTags | src/commands/caption/caption.js:122-124 | without a template, the reply does not depend on the shop link or the tags |
| Caption.InstagramHandler | src/commands/caption/caption.js:198-224 | as written: the reply is the failure message iff a template is found; otherwise it is the default caption |
| Caption.InstagramHandlerSnakeCase | src/commands/caption/caption.js:203-224 | reading the row's own columns, a found template is used with its required tags, else the default; it never fails |
| Caption.Interpolate | src/commands/caption/caption.js:289 | a missing value prints as `undefined` in a template literal |
| Caption.CaptionTemplateView | src/commands/caption/caption.js:261-307 | as written: not found iff no template, else both formats show `undefined` and no tags field |
| Caption.CaptionTemplateViewSnakeCase | src/commands/caption/caption.js:286-305 | reading the row's own columns, the view shows the stored formats and a tags field iff tags are stored, holding the tags joined by `, ` |
| Request.RequestTemplateFillsFirstHoles | src/commands/request/request.js:186-192 | the request builder fills the first holes of `item_name`, `creator_name`, `imvu_link` and `instagram_handle`, in that order |
| Request.RequestFillsInOrder | src/commands/request/request.js:186-192 | a template naming the four placeholders once, in order, gets exactly the four values |
| Request.RequestFromTemplate | src/commands/request/request.js:186-192 | a template without placeholders is the request as it is |
| Request.DefaultRequest | src/commands/request/request.js:194-201 | the default request opens "Hi! I would love to request" with the item, names the creator "for streaming!", has the link and `@` handle lines and closes "Thank you for considering my request! 💕" |
| Request.DefaultRequestDoublesAt | src/commands/request/request.js:198 | a handle already starting with `@` shows as `@@` |
| Request.DefaultRequestIsLadiesAndBabesFormat | src/commands/request/request.js:194-201 | the default request is the seeded "Ladies & Babes" request format filled |
| Request.DefaultFormatClosesShorter | src/commands/request/request.js:186-192 | the seeded "Default" request format, filled, closes "Thank you! 💕" instead |
| Request.FormatHandler | src/commands/request/request.js:64-83 | as written: the reply fails iff a template is found; otherwise it is the default request |
| Request.FormatHandlerSnakeCase | src/commands/request/request.js:64-83 | reading `request_format`, a found template with a format is used, a found row without one fails, and no template gives the default |
| Request.LadiesAndBabesRowGivesDefault | src/commands/request/request.js:67-83 | with the seeded "Ladies & Babes" row, the corrected handler replies exactly as with no template |
| Request.TemplateViewOf | src/commands/request/request.js:122-168 | as written: no template shows the bracketed default; a found one shows `undefined` and no tags field |
| Request.InterpolateColumn | src/commands/request/request.js:158 | a `NULL` column prints as `null` in a template literal |
| Request.TemplateViewSnakeCase | src/commands/request/request.js:148-168 | reading the row's own columns, the view shows the stored format and the tags joined by `", "` iff stored |
| Request.BracketedDefaultIsSeededFormat | src/commands/request/request.js:131-136 | the default shown on "not found" is the seeded format filled with the bracket placeholders |
| Review.OccasionsForStyle | src/commands/review/review.js:291-303 | always three occasions: the style's own triple, or the generic one for an unknown style |
| Review.OccasionTriples | src/commands/review/review.js:291-303 | every occasion in the triple is non-empty |
| Review.FeatureSentence | src/commands/review/review.js:275-277 | the special-features sentence is empty iff no features are given |
| Review.DetailedReview | src/commands/review/review.js:267-287 | the review opens "This absolutely stunning" with the item type and the creator, and closes with the thanks and `rating` stars |
| Review.ReviewText | src/commands/review/review.js:267-287 | in any wording, the review starts with the opening, item type and creator and ends with the thanks and the stars |
| Review.FeatureSentenceInserted | src/commands/review/review.js:271-286 | a review with features is the review without them, with the feature sentence inserted after the quality sentence |
| Review.EndsWithStars | src/commands/review/review.js:268-286 | the review ends with the thanks sentence, a space and exactly `rating` stars |
| Review.OccasionsInOrder | src/commands/review/review.js:281 | the three occasions appear in order in one sentence |
| Review.IgnoresItemName | src/commands/review/review.js:267-289 | the review text does not depend on the item name |
| Review.StyleOrDefault | src/commands/review/review.js:118 | an omitted style is `'casual'`, any other is kept |
| Review.Generate | src/commands/review/review.js:113-159 | the saved review keeps the item name, id and rating, with the text built from the defaulted style |
| Review.OmittedStyleIsCasual | src/commands/review/review.js:118 | omitting the style is choosing `'casual'`, whose occasions appear in the text |
| Review.TemplateFor | src/commands/review/review.js:220 | an item type with its own template gets it; any other gets the outfit template |
| Review.TemplateText | src/commands/review/review.js:177-218 | every review template closes with five stars |
| Review.TemplateChoices | src/commands/review/review.js:177-220 | the four titled templates, and exactly top, bottom, shoes, makeup and bundle fall back to the outfit template |
| Review.TemplateView | src/commands/review/review.js:220-226 | the view's title is the chosen template's; its text names the item type and closes with the chosen template in a code block |
| Review.LimitOrDefault | src/commands/review/review.js:238 | an absent or zero limit is five, any other is kept |
| Review.History | src/commands/review/review.js:237-251 | the reply is titled "Review History" and its description is the coming-soon notice |
| Review.HistoryIgnoresLimit | src/commands/review/review.js:237-251 | the history reply is the same for every limit |
| Schedule.CleanPieces | src/commands/schedule/schedule.js:105 | trimmed pieces with the empty ones dropped: at most one result per piece, every result non-empty and trimmed, comma-free pieces stay comma-free |
| Schedule.CleanPiecesAppend | src/commands/schedule/schedule.js:105 | cleaning works piece by piece: the cleaned pieces of two lists, one after the other |
| Schedule.CleanPiecesOne | src/commands/schedule/schedule.js:105 | one piece gives its trim, or nothing when that is empty |
| Schedule.CleanPiecesOfClean | src/commands/schedule/schedule.js:105 | pieces already non-empty and trimmed are kept as they are |
| Schedule.CleanPiecesOfBlank | src/commands/schedule/schedule.js:105 | all-whitespace pieces are all dropped |
| Schedule.ParseActivities | src/commands/schedule/schedule.js:105 | every parsed activity is non-empty, comma-free and trimmed |
| Schedule.ParseActivitiesOne | src/commands/schedule/schedule.js:105 | a comma-free text gives its trim, or nothing when that is empty |
| Schedule.ParseActivitiesAppend | src/commands/schedule/schedule.js:105 | the activities of two texts joined by a comma are those of the first, then those of the second |
| Schedule.ParseJoined | src/commands/schedule/schedule.js:105 | parsing a comma-join of clean activities gives them back |
| Schedule.ParseActivitiesDropsEmpty | src/commands/schedule/schedule.js:105 | an empty entry between two commas is dropped |
| Schedule.CleanPiecesDropsEmpty | src/commands/schedule/schedule.js:105 | an empty piece between two clean ones is dropped |
| Schedule.ParseSeparatorsOnly | src/commands/schedule/schedule.js:102-106 | a string of commas and spaces gives an empty list |
| Schedule.CollectActivities | src/commands/schedule/schedule.js:102-107 | a day is present iff its option is non-empty, and holds that option's parsed activities |
| Schedule.MondayOffset | src/commands/schedule/schedule.js:92 | the offset lies in −6..0 and lands on Monday |
| Schedule.WeekStartOf | src/commands/schedule/schedule.js:91-95 | the week start is a Monday midnight, at most a week before now |
| Schedule.WeekStartUnique | src/commands/schedule/schedule.js:91-95 | it is the only Monday midnight in that position |
| Schedule.WeekBounds | src/commands/schedule/schedule.js:90-99 | week end is the week start plus six days at 23:59:59.999, and now lies between the two |
| Schedule.OffsetOrZero | src/commands/schedule/schedule.js:173 | an absent week offset is zero |
| Schedule.ViewWeekStart | src/commands/schedule/schedule.js:173-181 | the viewed week starts on the Monday `weekOffset` weeks from the current one |
| Schedule.WeeklySchedule | src/commands/schedule/schedule.js:85-166 | nothing is saved iff the lookup or the insert fails; otherwise, on both the create and the update branch, one new row is appended with the user, server, week bounds and parsed days, and `updatedAt` is the second clock reading only on update |
| Schedule.DecimalValue | src/commands/schedule/schedule.js:254 | decimal digits read back as their value |
| Schedule.NumberOf | src/commands/schedule/schedule.js:254 | `Number(piece)`: a blank piece is 0, a number is never negative |
| Schedule.NumberOfDecimal | src/commands/schedule/schedule.js:254 | a decimal numeral converts to its value |
| Schedule.ParseTime | src/commands/schedule/schedule.js:254 | hours come from the text before the first `:`; without a `:` minutes are missing |
| Schedule.ParseClock | src/commands/schedule/schedule.js:254 | `"h:m"` parses to the two numbers |
| Schedule.ExtraPiecesIgnored | src/commands/schedule/schedule.js:254 | text after a second `:` is ignored |
| Schedule.DaysUntil | src/commands/schedule/schedule.js:273 | the days until the target weekday lie in 0..6 and reach it |
| Schedule.WeekApart | src/commands/schedule/schedule.js:269-281 | two times on the same weekday and clock are at least a week apart |
| Schedule.NextOccurrence | src/commands/schedule/schedule.js:269-281 | the reminder falls on the target weekday and clock, strictly after now and at most a week later, and is the first such time |
| Schedule.ScheduleReminder | src/commands/schedule/schedule.js:248-291 | invalid time iff the parsed hours or minutes are out of range or not numbers; otherwise one weekly active row at the next occurrence |
| Schedule.IndexOfDay | src/commands/schedule/schedule.js:269 | `indexOf(day)` finds the day's position in the Sunday-first list |
| Profile.NormaliseHandle | src/commands/profile/profile.js:89 | the handle always starts with `@`, is kept if it did, else gets `@` prepended |
| Profile.NormaliseHandleIdempotent | src/commands/profile/profile.js:241 | normalising twice is normalising once |
| Profile.NormaliseHandleKeepsHandle | src/commands/profile/profile.js:89 | the result ends with the given handle and is at most one character longer |
| Profile.TrimEach | src/commands/profile/profile.js:92 | each piece is trimmed and none is dropped |
| Profile.ParseAgencies | src/commands/profile/profile.js:247 | one trimmed agency per comma-separated piece |
| Profile.ParseSingleAgency | src/commands/profile/profile.js:92 | a comma-free value gives the one trimmed agency |
| Profile.ParseAgenciesJoined | src/commands/profile/profile.js:92 | parsing a comma-join of clean agencies gives them back |
| Profile.ParseAgenciesKeepsEmpty | src/commands/profile/profile.js:92 | an empty entry between two commas is kept |
| Profile.SetupAgencies | src/commands/profile/profile.js:92 | an absent or empty option gives `[]`, else one entry per piece |
| Profile.StyleOrElegant | src/commands/profile/profile.js:83 | an omitted caption style is `'elegant'` |
| Profile.Setup | src/commands/profile/profile.js:78-98 | the saved profile has the normalised handle, the defaulted style, the parsed agencies and reminders stream=true, weekly=true, daily=false |
| Profile.UpdateField | src/commands/profile/profile.js:234-252 | exactly the chosen field changes (the handle normalised, the agencies parsed, the style verbatim); an unknown field changes nothing |
| Profile.UpdateWithSameValue | src/commands/profile/profile.js:234-252 | setting a field to its current value gives back the same profile |
| Profile.Update | src/commands/profile/profile.js:215-254 | no stored profile means nothing is written; otherwise the first stored profile is saved with the field updated |
| Stream.OrDefault | src/commands/stream/stream.js:107-108 | an absent or empty option gives the fallback, any other is kept |
| Stream.Create | src/commands/stream/stream.js:101-128 | the new stream is active, priority and type defaulted, every other field as given, due `due_days` calendar days later at the same time |
| Stream.DaysLeft | src/commands/stream/stream.js:254 | the least whole number of days that reaches the due date |
| Stream.DaysLeftUnique | src/commands/stream/stream.js:254 | that number is unique |
| Stream.UrgencyOf | src/commands/stream/stream.js:255 | red iff at most one day left, yellow iff two or three, green beyond |
| Stream.UrgencyMonotone | src/commands/stream/stream.js:255 | fewer days left is never less urgent |
| Stream.NewStreamUrgency | src/commands/stream/stream.js:112-113 | right after creation the days left are exactly `due_days` |
| Stream.ActiveOf | src/database/schema.js:26-41 | each of the user's active streams (on the given server inside a guild) as often as stored and nothing else, newest `created_at` first |
| Stream.Find | src/commands/stream/stream.js:285 | `find` returns nothing iff no row has the id, else the first row with it |
| Stream.CompleteReplyOf | src/commands/stream/stream.js:184-197 | "not found" iff the completion returned no row, else the first returned row |
| Stream.Listed | src/commands/stream/stream.js:223-234 | every listed stream is active and the caller's |
| Stream.ListIgnoresStatus | src/commands/stream/stream.js:229-234 | every status choice lists the same streams: the caller's active ones |
| Stream.Info | src/commands/stream/stream.js:284-285 | a stream `info` finds is stored, has the id and is one of the caller's active streams on that server |
| Stream.InfoMissesInactive | src/commands/stream/stream.js:284-295 | an id none of whose rows is an active stream of the caller on that server is "not found" |
| Stream.InfoFindsActive | src/commands/stream/stream.js:284-285 | an active stream of the caller on that server is always found by its id |
| Ordering.SortBy | desktop-app/database/database.js:169 | `ORDER BY key`: the same rows, sorted by the text key ascending or descending |
| Ordering.Insert | desktop-app/database/database.js:169 | inserting into a sorted sequence keeps it sorted and adds exactly the element |
| Ordering.SortedKeysUnique | desktop-app/database/database.js:169 | any two sorted orders of the same rows agree key by key, so ties are the only freedom |
| Ordering.LexLeTotal | desktop-app/database/database.js:323 | the text order is total |
| Ordering.LexLeAntisymmetric | desktop-app/database/database.js:323 | the text order is antisymmetric |
| Ordering.LexLeTransitive | desktop-app/database/database.js:323 | the text order is transitive |
| Ordering.LexLtAtDifference | desktop-app/database/database.js:371 | at the first difference the smaller character decides |
| DesktopRecords.ReturnedId | desktop-app/database/database.js:199 | the returned record's id is the new rowid unless the caller's record has its own `id`, which wins |
| DesktopRecords.KeyedAppend | desktop-app/database/database.js:25 | a row under the next `AUTOINCREMENT` id keeps ids increasing and within the counter |
| DesktopRecords.IncreasingPairs | desktop-app/database/database.js:25 | ids increase step by step iff every earlier row has a smaller id |
| DesktopRecords.CreateRow | desktop-app/database/database.js:186-197 | the stored row has the new id, the required texts as given, `created_at` now and no `completed_at` |
| DesktopRecords.CreateRowDefaults | desktop-app/database/database.js:186-197 | a bare record gets `creator_id`, `agency_name` and `notes` `NULL`, status active, priority medium, type showcase, user local |
| DesktopRecords.CreateRowKeepsGiven | desktop-app/database/database.js:186-197 | a non-empty given column is stored as given; no defaulted column is ever stored empty |
| DesktopRecords.CreatedShowsInputNotDefaults | desktop-app/database/database.js:199 | the returned record shows the caller's missing status, not the stored `'active'` |
| DesktopRecords.CreatedKeepsCallersId | desktop-app/database/database.js:199 | a caller's own `id` hides the new rowid |
| DesktopRecords.ImportRow | desktop-app/database/database.js:343-356 | an imported row has its id and the given `completed_at` or `NULL` |
| DesktopRecords.ImportRowWithoutStamps | desktop-app/database/database.js:343-356 | without timestamps an imported row is the row `createStream` stores |
| DesktopRecords.ImportRowKeepsStamps | desktop-app/database/database.js:353-354 | given timestamps are stored as given |
| DesktopRecords.ImportRows | desktop-app/database/database.js:341-358 | one row per imported record |
| DesktopRecords.ImportRowsAt | desktop-app/database/database.js:341-358 | the k-th imported row is the k-th record under the k-th next id |
| DesktopRecords.ImportKeepsKeyed | desktop-app/database/database.js:341-358 | the imported rows keep ids increasing and within the advanced counter |
| DesktopRecords.ColumnNamed | desktop-app/database/database.js:203 | an update key that names a column names exactly the column of that name |
| DesktopRecords.ColumnNamedName | desktop-app/database/database.js:203 | every column is found by its name |
| DesktopRecords.ApplyUpdates | desktop-app/database/database.js:202-208 | each named column gets its new value, every other column and the id stay |
| DesktopRecords.ApplyNoUpdates | desktop-app/database/database.js:202-208 | an empty assignment changes nothing |
| DesktopRecords.CompleteIsUpdate | desktop-app/database/database.js:219-227 | completing is the update setting status `'completed'` and `completed_at` |
| DesktopRecords.CompleteTwice | desktop-app/database/database.js:219-227 | completing twice leaves the status completed, stamped by the second call |
| DesktopRecords.KeyedSameIds | desktop-app/database/database.js:202-227 | rewriting rows in place with the same ids keeps the table keyed |
| DesktopRecords.WithoutId | desktop-app/database/database.js:213-217 | no remaining row has the id, every other row stays, and nothing changes when no row had it |
| DesktopRecords.KeyedWithout | desktop-app/database/database.js:213-217 | deleting keeps the table keyed |
| DesktopRecords.RowWithId | desktop-app/database/database.js:173-176 | nothing iff no row has the id, else a row with it |
| DesktopRecords.NullableKeyOrder | desktop-app/database/database.js:169 | `NULL` sorts before every text, texts as themselves |
| DesktopRecords.ScheduleRow | desktop-app/database/database.js:235-256 | the stored schedule has the week bounds, the given days, both stamps now and the user defaulted |
| DesktopRecords.CaptionRow | desktop-app/database/database.js:271-287 | the stored caption has platform and text, the stream id only when non-zero, the agency format or `NULL` when empty, the tags, `created_at` now and the user defaulted to `local` |
| DesktopRecords.ReviewRow | desktop-app/database/database.js:302-318 | the stored review has item and text; stream id and rating as given and only when non-zero; the item id or `NULL` when empty, `created_at` now and the user defaulted to `local` |
| DesktopRecords.ForStream | desktop-app/database/database.js:260-269 | a missing or zero stream id selects every row; otherwise each row of that stream as often as stored, and nothing else |
| DesktopRecords.ActiveTemplates | desktop-app/database/database.js:322-325 | each active template row as often as stored, and nothing else |
| DesktopRecords.SeedRows | desktop-app/database/database.js:158-162 | the seeding loop's first `n` rows, under the next ids |
| DesktopRecords.SeededLookups | desktop-app/database/database.js:141-164 | after seeding, each seeded name is found, with the next two ids |
| DesktopRecords.CountStatus | desktop-app/database/database.js:365-367 | a status count never exceeds the rows |
| DesktopRecords.StatusCountsBounded | desktop-app/database/database.js:365-367 | counts of three different statuses add up to at most the rows |
| DesktopRecords.CompleteMovesCount | desktop-app/database/database.js:219-227 | completing a row moves it out of its old status's count, and changes no other count |
| DesktopRecords.CountSince | desktop-app/database/database.js:371 | as written, the week's count compares the two texts and never exceeds the rows |
| DesktopRecords.CutoffDayMissed | desktop-app/database/database.js:371-377 | an ISO cutoff (`T` separator) is above every stored stamp (space separator) of the same day |
| DesktopRecords.CutoffDayExample | desktop-app/database/database.js:371-377 | a stream created the afternoon of the cutoff day is not counted |
| DesktopRecords.SeparatorIgnored | desktop-app/database/database.js:371-377 | between equal-length prefixes, a shared separator character does not change the text order |
| DesktopRecords.AsIsoText | desktop-app/database/database.js:371-377 | a text that is not a `CURRENT_TIMESTAMP` stamp is read as it is |
| DesktopRecords.AsIsoTextOfSql | desktop-app/database/database.js:371-377 | a `CURRENT_TIMESTAMP` stamp reads as the ISO text of the same second, with `T` and zero milliseconds |
| DesktopRecords.AsIsoTextOfIso | desktop-app/database/database.js:353 | an imported ISO stamp reads as itself |
| DesktopRecords.IsoChronological | desktop-app/database/database.js:371-377 | two ISO stamps compare as their dates, times and milliseconds do |
| Ordering.LexLeCommonSuffix | desktop-app/database/database.js:371-377 | a shared tail after equal-length heads does not change the text order |
| DesktopRecords.CountSinceCorrected | desktop-app/database/database.js:371-377 | the count of streams created at or after the cutoff, each stamp read as ISO text first: at most the rows, the as-written count when no row has a `CURRENT_TIMESTAMP` stamp, 0 or all when none or all are created since |
| DesktopRecords.CorrectedCutoffChronological | desktop-app/database/database.js:371-377 | for a row stamped by `CURRENT_TIMESTAMP`, the corrected test is whether date, time and milliseconds come at or after the cutoff's |
| DesktopRecords.CorrectedCountsCutoffDay | desktop-app/database/database.js:371-377 | on the cutoff day, a `CURRENT_TIMESTAMP` row counts iff its clock time is at or after the cutoff's |
| DesktopRecords.CorrectedImportChronological | desktop-app/database/database.js:371-377 | for an imported row with an ISO stamp, the corrected test is chronological too |
| DesktopRecords.CountSinceCorrectedOne | desktop-app/database/database.js:371-377 | a single row counts 1 iff it was created since the cutoff |
| DesktopRecords.CorrectedImportExample | desktop-app/database/database.js:371-377 | with cutoff `2024-06-09T10:00:00.000Z`, an imported row stamped 09:00 that day counts 0 and one stamped 11:00 counts 1 |
| DesktopDatabase.Assignments | desktop-app/database/database.js:203-204 | each update key that names a column becomes an assignment to that column with the key's value |
| DesktopDatabase.UpdateOutcome | desktop-app/database/database.js:202-211 | no keys is a syntax error, an unknown key no such column, a required text set to `NULL` on an existing row a `NOT NULL` error; otherwise true iff a row has the id |
| DesktopDatabase.StageImport | desktop-app/database/database.js:341-358 | the loop stops iff some record lacks a required text; otherwise it stages exactly the import rows |
| DesktopDatabase.DatabaseManager.constructor | desktop-app/database/database.js:6-124 | a new store has empty tables and exactly the two seeded templates |
| DesktopDatabase.DatabaseManager.InsertDefaultTemplates | desktop-app/database/database.js:126-165 | with any template row nothing changes, else the two seeded rows are added, so a second call changes nothing |
| DesktopDatabase.DatabaseManager.GetStreams | desktop-app/database/database.js:168-171 | all streams, newest `created_at` first |
| DesktopDatabase.DatabaseManager.GetStream | desktop-app/database/database.js:173-176 | the stream with the id, if any |
| DesktopDatabase.DatabaseManager.CreateStream | desktop-app/database/database.js:178-200 | throws iff a required text is missing, changing nothing; else appends the defaulted row under the next id and returns the caller's record with the id |
| DesktopDatabase.DatabaseManager.UpdateStream | desktop-app/database/database.js:202-211 | the statement's outcome; only on a changed row are the named columns of the row with the id set |
| DesktopDatabase.DatabaseManager.DeleteStream | desktop-app/database/database.js:213-217 | true iff the row existed; afterwards no row has the id and the others are unchanged |
| DesktopDatabase.DatabaseManager.CompleteStream | desktop-app/database/database.js:219-227 | true iff the row existed; that row is completed and stamped, the others unchanged |
| DesktopDatabase.DatabaseManager.ImportStreams | desktop-app/database/database.js:333-361 | all or nothing: a record missing a required text rolls back; else every record is appended in order under the next ids |
| DesktopDatabase.DatabaseManager.GetSchedules | desktop-app/database/database.js:230-233 | all schedules, latest week first |
| DesktopDatabase.DatabaseManager.CreateSchedule | desktop-app/database/database.js:235-257 | throws iff a week bound is missing; else appends the schedule row under the next id |
| DesktopDatabase.DatabaseManager.GetCaptions | desktop-app/database/database.js:260-269 | each selected caption as often as stored and nothing else, newest first |
| DesktopDatabase.DatabaseManager.CreateCaption | desktop-app/database/database.js:271-288 | throws iff platform or text is missing; else appends the caption row under the next id |
| DesktopDatabase.DatabaseManager.GetReviews | desktop-app/database/database.js:291-300 | each selected review as often as stored and nothing else, newest first |
| DesktopDatabase.DatabaseManager.CreateReview | desktop-app/database/database.js:302-319 | throws iff item name or text is missing; else appends the review row under the next id |
| DesktopDatabase.DatabaseManager.GetAgencyTemplates | desktop-app/database/database.js:322-325 | each active template as often as stored and nothing else, by agency name |
| DesktopDatabase.DatabaseManager.GetAgencyTemplate | desktop-app/database/database.js:327-330 | nothing iff no active row has exactly the name, else such a row |
| DesktopDatabase.DatabaseManager.GetStats | desktop-app/database/database.js:364-379 | the per-status counts, which add up to at most the streams, and the week's count as corrected |
| Sweeps.OverdueOf | src/database/schema.js:54-63 | each active stream due at or before now, as often as stored, and nothing else |
| Sweeps.CompleteAll | src/index.js:212-214 | completing a list of ids keeps the number of rows |
| Sweeps.CompleteAllAt | src/index.js:212-214 | each row whose id is in the list is completed, every other row is unchanged |
| Sweeps.CompleteAllStatuses | src/index.js:212-214 | ids are kept, and a status either stays or becomes `'completed'`: the sweep never writes `'overdue'` |
| Sweeps.NoneLeftOverdue | src/index.js:210-214 | completing every overdue id leaves no overdue row |
| Sweeps.SweepOne | src/index.js:213-228 | a store failure changes nothing; otherwise the stream is completed, whether or not the message went out |
| Sweeps.OverdueSweep | src/index.js:202-233 | not ready leaves the store alone; else the streams due are completed in order, only a store failure stops the rest, and the store is those completions |
| Sweeps.SweepAll | src/index.js:212-229 | the loop completes the due streams in order and stops exactly when a completion throws; the store is those completions |
| Sweeps.SweptOutcome | src/index.js:202-233 | a finished sweep leaves no overdue row, and every status stays or becomes completed |
| Sweeps.DeactivationPayload | src/index.js:258-261 | the payload adds the camelCase key `isActive: false` to the reminder's columns |
| Sweeps.PendingOf | src/database/schema.js:163-172 | each active reminder due at or before now, as often as stored, and nothing else |
| Sweeps.DeactivationCopyPending | src/index.js:258-261 | the row that payload stores is the reminder itself, still pending |
| Sweeps.DeactivateRows | src/index.js:257 | marking an id inactive changes only the rows with that id, and only their flag |
| Sweeps.ReminderTable.Insert | src/database/schema.js:153-161 | an accepted insert appends the payload's columns, a rejected one changes nothing |
| Sweeps.ReminderTable.Deactivate | src/index.js:257 | an accepted update deactivates the id's rows, a rejected one changes nothing |
| Sweeps.WrittenCopies | src/index.js:246-265 | the rows the as-written sweep adds are all among the reminders it found |
| Sweeps.RemindOne | src/index.js:247-264 | a write happens only after a successful send, and adds at most the reminder's copy |
| Sweeps.DailySweep | src/index.js:236-268 | not ready leaves the table alone; else every pending reminder is attempted, failures isolated, and every pending row stays pending |
| Sweeps.RemindAll | src/index.js:246-265 | the as-written loop makes one attempt per pending reminder, in order, and the table gains exactly the accepted copies |
| Sweeps.PendingOfAppend | src/database/schema.js:163-172 | appending pending rows appends them, in order, to the query's result |
| Sweeps.DeliveredResent | src/index.js:246-265 | as written: the next query returns everything it returned before, plus a copy of each delivered reminder |
| Sweeps.WrittenIds | src/index.js:246-265 | an id is listed iff its write was accepted |
| Sweeps.DeactivateAllAt | src/index.js:257 | each row whose id is listed is deactivated, every other row is unchanged |
| Sweeps.DeactivateAll | src/index.js:257 | marking a list of ids inactive keeps the number of rows |
| Sweeps.RemindAndDeactivate | src/index.js:247-261 | corrected: only after a successful send is the reminder's own row deactivated |
| Sweeps.DailySweepDeactivating | src/index.js:236-268 | corrected: every pending reminder is attempted, failures isolated, and the table is the original with the delivered ids deactivated |
| Sweeps.DeliveredNotResent | src/index.js:246-265 | corrected: after the sweep, a pending row was pending before and was not delivered, and every undelivered pending row stays pending |

## Left out

- I/O, which becomes parameters. This covers the Discord client, interactions, embeds and replies, `console` logging and the AI service. `aiService.isReady()` is a boolean input; the AI-generated caption is only the `AiCaption` reply.
- The hosted Supabase store, whose client is not visible. The bot-side tables are passed-in sequences of rows. The overdue sweep runs on the desktop table model. The reminders table is `Sweeps.ReminderTable`.
- Errors of the hosted store and of Discord. In the two sweeps, store failures, direct-message failures and `users.fetch` failures are nondeterministic choices inside the methods; a duplicate-key or unknown-column rejection of the reminder insert falls under that insert's outcome. In `Schedule.WeeklySchedule` the lookup's and the insert's outcomes are parameters (`lookup`, `accepted`), and a failure of either saves nothing, as the handler's `catch` does. `Schedule.ScheduleReminder` and `Profile.Update` return the row the handler writes; whether the store accepts it is not part of their outcome.
- The column names of the hosted tables. The model assumes these tables accept the camelCase keys that `createSchedule` (src/commands/schedule/schedule.js:114-130) and `createReminder` (src/commands/schedule/schedule.js:284-291) are given, since their schema is not visible. A rejected insert is the failure outcome above. The reminder sweep's copy is read the other way round only for `isActive`, the one key whose failure to name a column the model relies on.
- The SQLite connection settings. The model assumes foreign keys are not enforced, so the `REFERENCES streams (id)` clauses of the captions and reviews tables (desktop-app/database/database.js:71, :86) reject nothing, and `deleteStream` of a stream with captions or reviews succeeds. It also assumes double-quoted `"active"` in `getStats` is accepted as a string. The build options of the bundled SQLite are not part of this model.
- The second clock reading of `/schedule weekly`'s update branch (src/commands/schedule/schedule.js:120) is the parameter `updateNow`, independent of `now`.
- Time zones, DST, `toLocaleDateString` and `toISOString` formatting. Time is integer milliseconds of local time. Stored timestamps are text passed in.
- `getStats`'s computation of the week start. It is passed in as `cutoffIso`.
- The import's `new Date().toISOString()`. It is one `nowIso` per import.
- `Math.ceil` over a float millisecond difference. The model uses whole milliseconds.
- Profile and template view rendering beyond the fields listed. Embed colours and field layout are not modelled.
- `Number()` on a time fragment. It is modelled for blank text and ASCII digits only; signs, decimals, hex and exponents are taken as not-a-number.
- Unicode normalisation and case folding. `trim` and `\s` use the JS whitespace set.
- `$` patterns in `replace` replacement strings. Replacement is literal.
- JSON encoding of schedule days and template tags in the desktop store. They are kept as lists.
- SQLite's case-insensitive column names and its double-quoted `"active"` string literal in `getStats`. Column names are matched exactly; the literal is read as the text `active`.
- One completion stamp per overdue sweep: `Sweeps.CompleteAll` and `Sweeps.OverdueSweep` stamp every completion of a sweep with the same `stamp`, whereas each completion in the source takes its own clock reading (`new Date().toISOString()` at src/database/schema.js:46, `CURRENT_TIMESTAMP` in the desktop statement).
- Opening a database file that already exists. The constructor models a new file.
- `close()`, which only releases the handle.
- DesktopDatabase.DatabaseManager.UpdateStream: requires that `id` is not an update key. The model does not cover reassigning the primary key, which the source allows.
- DesktopDatabase.UpdateOutcome: `rowid`, `oid` and `_rowid_` are SQLite's names for the `INTEGER PRIMARY KEY`, so a statement setting one of them is accepted and reassigns the id. The model knows only the declared columns and answers `no such column` for these three keys.
- Profile.Setup, Profile.Update and Review.Generate: the saved profile and review are records with one field per key. The model assumes the `user_profiles` and `reviews` tables accept and return the camelCase keys the handlers use: `userId`, `imvuName`, `instagramHandle` and the rest at src/commands/profile/profile.js:86-98, and `userId`, `itemName`, `itemId`, `reviewText`, `rating` at src/commands/review/review.js:153-159.
- Profile.Setup, Profile.Update: the visible profile code names the key `user_id` (`onConflict: 'user_id'` at src/database/schema.js:134, `.eq('user_id', userId)` at src/database/schema.js:145), which points to snake_case columns. Under snake_case columns, setup's payload (src/commands/profile/profile.js:87) has no `user_id` for the conflict target. `update` copies the stored row with `{ ...userProfile }` (src/commands/profile/profile.js:234), so its keys are `imvu_name` and the rest, and the switch adds a second key such as `imvuName` (src/commands/profile/profile.js:238) beside them. The stored column would then not change. Profile.Update's "the chosen field gets the new value" holds only under the camelCase assumption.
- DesktopDatabase.DatabaseManager.GetStats: computes the week's count as corrected (see Findings), reading every `created_at` as ISO text before comparing it with the cutoff; the as-written count is `DesktopRecords.CountSince`. Stamps are compared as text, which is chronological only for stamps of the two forms the store writes (`CURRENT_TIMESTAMP` and `toISOString`).

## Findings

| source | as written | input that shows it | evidently intended | confidence | as-written member | corrected member |
|---|---|---|---|---|---|---|
| src/commands/caption/caption.js:210-211 | reads `instagramCaptionFormat` and `requiredTags` from the fetched row, which has only snake_case columns; `undefined.replace` throws | any agency with an active template, such as the seeded "Ladies & Babes" | read `instagram_caption_format` and `required_tags`, as caption.js:118 does for IMVU | not executed | Caption.InstagramHandler | Caption.InstagramHandlerSnakeCase |
| src/commands/request/request.js:73 | reads `requestFormat`, so a found template throws and the user gets the failure message | any agency with an active template | read `request_format` | not executed | Request.FormatHandler | Request.FormatHandlerSnakeCase |
| src/commands/caption/caption.js:289-305 | the template view reads camelCase keys, so both formats show `undefined` and the tags field never appears | any agency with an active template | show the stored formats and tags | not executed | Caption.CaptionTemplateView | Caption.CaptionTemplateViewSnakeCase |
| src/commands/request/request.js:156-167 | the request template view shows `undefined` and never the tags | any agency with an active template | show `request_format` and `required_tags` | not executed | Request.TemplateViewOf | Request.TemplateViewSnakeCase |
| desktop-app/database/database.js:371-377 | `created_at >= ?` compares a `CURRENT_TIMESTAMP` text (`2024-06-09 15:00:00`) with an ISO text (`2024-06-09T10:00:00.000Z`); `T` sorts after the space | one stream created at `2024-06-09 15:00:00`, cutoff `2024-06-09T10:00:00.000Z`: counted 0 | count streams created at or after the cutoff instant, whatever the stamp's form (the corrected count reads each stamp as ISO text first, so imported ISO rows are compared chronologically too) | not executed | DesktopRecords.CutoffDayExample | DesktopRecords.CorrectedImportChronological |
| src/index.js:257-261 | "Mark reminder as inactive" inserts a new row from `{...reminder, isActive: false}`. The original row is never updated, and the copy keeps `is_active` true, because `isActive` is no column | one pending reminder whose message goes out: the next daily query returns it again, and its copy too if the insert is accepted | update the reminder's own row to `is_active = false` | not executed | Sweeps.DeliveredResent | Sweeps.DeliveredNotResent |
