# MeetMind core, modelled in Dafny

MeetMind is a Next.js meeting assistant. A signed-in user plans a meeting in a
three-step wizard: plan, assets, then AI. The app saves the meeting to MongoDB
through `/api/meetings`, and can transcribe and summarize a recording through
`/api/groq/process`. This project models the deterministic part of that system
and proves properties of it:

- `Text` (text.dfy): JavaScript's `trim` and one-character `split`, each with its round trip.
- `MeetingSchema` (meeting_schema.dfy): the Mongoose `Meeting` model.
  - It models the schema paths with their kinds, defaults and required validators.
  - `Meeting.create` builds a document or throws a ValidationError.
  - Updates only cast.
  - Strict mode drops undeclared fields.
  - ObjectId casting lower-cases the id.
- `Db` (db.dfy): the connection cache of `dbConnect`. It is a class over the two
  fields `conn` and `promise`. A new connect attempt's outcome is passed in.
- `MeetingsRoute` (meetings_route.dfy): the `OPTIONS`, `POST`, `GET` and `PUT` handlers.
  They work over a `MeetingCollection` class that holds the stored documents by `_id`.
- `GroqProcess` (groq_process.dfy): the decision of the AI route. The outcomes of the two model
  calls are passed in.
- `Dashboard` (dashboard.dfy): the page's pure helpers and the `Wizard` class.
  - The helpers are `cleanSummary`, `getMeetingStatus`, the attendee split and counts, and the step badges.
  - The `Wizard` class holds the page state that the click handlers change.
    Its methods call the route models where the page calls axios.
    A non-200 reply plays the part of the exception axios throws.
- `Js` (js.dfy): `undefined`/`null` as `Option`, thrown errors, and settled promises.

JSON bodies are maps from `Key` to `Value`. A `Key` is either a schema path or any
other name, such as `id` or `meetingLink`. `_id`, the path Mongoose adds to every
schema, is not a declared path here: each created document gets the id that the
database assigns, which is a parameter. A key that is absent stands for
`undefined`. Times are integers. Date parsing is a parameter that yields `None` for
an Invalid Date, and every comparison against such a date is false.

## Model

| member | source | states |
|---|---|---|
| Text.Trim | app/dashboard/page.js:102 | the result is a contiguous slice of the input; only whitespace was cut from either end; the result neither starts nor ends with whitespace; it is empty exactly when the input is all whitespace |
| Text.TrimIdempotent | app/dashboard/page.js:102 | trimming twice gives the same as trimming once |
| Text.Split | app/dashboard/page.js:140-141 | splitting on a character gives one part more than there are separators; no part holds the separator; joining the parts with it gives the input back |
| Text.SplitJoin | app/dashboard/page.js:140-141 | splitting the join of separator-free parts gives those parts back |
| MeetingSchema.NamesDistinct | models/Meeting.js:10-30 | distinct schema paths have distinct field names |
| MeetingSchema.CollectErrors | models/Meeting.js:10-30 | the list of errors is empty exactly when no schema path has a cast error or a failing required check |
| MeetingSchema.CastPoll | models/Meeting.js:4-8 | a cast poll keeps its question and options; its createdAt is the one given, or the creation time when none is |
| MeetingSchema.CastPolls | models/Meeting.js:22 | the polls array is cast element by element, keeping its length and order |
| MeetingSchema.Build | models/Meeting.js:10-30 | the built document has the given id; each absent path takes its default: '' for description, attendees and pptUrl, 'scheduled' for status, unset for recordingUrl, transcription and summary, no polls, and the creation time for createdAt |
| MeetingSchema.Create | models/Meeting.js:10-30 | creation succeeds exactly when there are no validation errors; the document gets the given `_id`; a failure is a ValidationError |
| MeetingSchema.CreateSucceedsIff | models/Meeting.js:11-17 | creation succeeds iff userId, title, startTime and endTime hold non-empty strings and every declared path present has its declared kind |
| MeetingSchema.ValidIff | models/Meeting.js:11-17 | the validation error list is empty iff the four required String paths hold non-empty strings and every declared path present has its declared kind |
| MeetingSchema.CreateStoresString | models/Meeting.js:11-27 | each String path is stored as sent; an absent path takes its default: '' for description, attendees and pptUrl, 'scheduled' for status, and unset for recordingUrl, transcription and summary |
| MeetingSchema.CreateStoresTimesAndPolls | models/Meeting.js:4-29 | startTime and endTime are stored as the strings sent; a missing createdAt is the creation time; polls keep their order, each cast with a defaulted createdAt |
| MeetingSchema.UndeclaredFieldIgnored | models/Meeting.js:10-30 | removing an undeclared field such as meetingLink, other than `_id`, from a body does not change what creation gives |
| MeetingSchema.BuildIgnoresUndeclared | models/Meeting.js:10-30 | the document built from a body does not depend on an undeclared field in it |
| MeetingSchema.ApplyUpdateString | app/api/meetings/route.js:55 | an update that casts sets each String path it holds, the empty string included, and keeps each path it does not hold |
| MeetingSchema.ApplyUpdateKeeps | app/api/meetings/route.js:55 | an update keeps the `_id`, and keeps createdAt and the polls unless it sets them |
| MeetingSchema.ApplyUpdate | app/api/meetings/route.js:55 | the updated document keeps its id, and keeps createdAt and the polls when the update does not hold them |
| MeetingSchema.RepeatedUpdateAbsorbs | app/api/meetings/route.js:55 | applying the same update twice gives the same document as applying it once at the later time |
| MeetingSchema.UpdateIgnoresUndeclared | app/api/meetings/route.js:54-55 | an undeclared field other than `_id` does not change whether an update casts |
| MeetingSchema.ApplyUpdateIgnoresUndeclared | app/api/meetings/route.js:55 | applying an update with or without an undeclared field other than `_id` gives the same document |
| MeetingSchema.UpdateCastsIff | app/api/meetings/route.js:55 | an update casts iff every schema path it holds has a value of its declared kind |
| MeetingSchema.CastObjectId | app/api/meetings/route.js:55 | a 24-digit hexadecimal id casts to its lower-case form, a stored ObjectId; a stored id casts to itself |
| Db.ConnectionCache.constructor | lib/db.js:11-13 | a fresh cache has neither a connection nor a pending attempt |
| Db.Settled | lib/db.js:15-47 | after a call the cache is still coherent: a connection is held only together with its settled attempt; a call that connects leaves that connection cached, and a call that throws leaves both fields empty |
| Db.ConnectedStaysConnected | lib/db.js:16-18 | once a call has connected, a later call returns the same connection whatever a new attempt would give, and leaves the cache as it is |
| Db.FailureRetries | lib/db.js:39-44 | after a call that throws, the next call awaits a new attempt |
| Db.ConnectionCache.Connect | lib/db.js:15-47 | a live connection is returned and no attempt starts; an attempt starts only when none is held; success stores the connection, and failure clears both fields and rethrows; the result is what the cache fields and the new attempt settle to, and the new fields are `Settled` of the old ones |
| Db.Load | lib/db.js:3-13 | a missing MONGODB_URI throws at module load; otherwise the global cache is reused or a fresh empty one is installed |
| Db.ReuseAfterSuccess | lib/db.js:16-18 | after a successful call, the next call returns the same connection, starts no attempt, and ignores what a new attempt would give |
| Db.RetryAfterFailure | lib/db.js:39-44 | a failed call rethrows its error, and the next call starts a new attempt and can connect |
| MeetingsRoute.InsertNewestFirst | app/api/meetings/route.js:43 | inserting a meeting keeps a list newest first, adds exactly that meeting, and keeps every other member |
| MeetingsRoute.CastIdFilter | app/api/meetings/route.js:55 | an id casts iff it is a 24-digit hexadecimal string; the filter then names a stored ObjectId; no id matches nothing |
| MeetingsRoute.MeetingCollection.constructor | models/Meeting.js:33 | the collection starts empty |
| MeetingsRoute.MeetingCollection.Create | app/api/meetings/route.js:27 | the collection stores the created document under the fresh id, or stays unchanged when creation throws |
| MeetingsRoute.MeetingCollection.FindByUser | app/api/meetings/route.js:43 | the result lists exactly the user's meetings, each once, newest first |
| MeetingsRoute.MeetingCollection.FindByIdAndUpdate | app/api/meetings/route.js:55 | a bad id or an update that does not cast throws and changes nothing; an unknown id gives null; otherwise only the matching document is updated and returned |
| MeetingsRoute.Options | app/api/meetings/route.js:14-16 | the preflight reply is an empty object with the CORS headers |
| MeetingsRoute.Post | app/api/meetings/route.js:18-33 | a failed connection or body is 500; a missing or empty userId or title is 400 "Missing fields" and stores nothing; otherwise the created document is stored and returned, or the schema's rejection is reported as 500; every reply carries the CORS headers; the connection cache ends as `Settled` from its old state |
| MeetingsRoute.Get | app/api/meetings/route.js:35-48 | a failed connection is 500; a missing or empty userId is 400 "No User ID"; otherwise the reply lists exactly the user's meetings, newest first, with the CORS headers; the connection cache ends as `Settled` from its old state |
| MeetingsRoute.Put | app/api/meetings/route.js:50-60 | the body's id selects the meeting, and the rest of the body is the update; only that meeting changes; an unknown id gives success with null data; cast failures are 500; the set of ids never changes; every reply carries the CORS headers; the connection cache ends as `Settled` from its old state |
| MeetingsRoute.GuardWeakerThanSchema | app/api/meetings/route.js:23-27 | a body with userId and title but no startTime passes the 400 check and is then rejected by creation |
| GroqProcess.ErrorResponse | app/api/groq/process/route.js:73-80 | every caught error is a 500 failure whose error is the message, or "Internal Server Error" for an empty message |
| GroqProcess.Attempt | app/api/groq/process/route.js:14-71 | the try block throws the missing-key error first when there is no key, then a form parse error; what it returns rather than throws is a 200 carrying a transcript or a summary, or the 400 for an unknown task |
| GroqProcess.Process | app/api/groq/process/route.js:11-82 | a missing key is 500 before anything else; an unknown task is 400 "Invalid task specified"; 200 carries a transcript only from a transcribe task with an acceptable file, and a summary only from a summarize task with text, taken from the first choice; the status tells the body kinds apart |
| GroqProcess.TranscribeWithoutFile | app/api/groq/process/route.js:27-29 | transcribe without a file is 500 "No file uploaded", not 400 |
| GroqProcess.OversizeRejectedBeforeTranscription | app/api/groq/process/route.js:33-36 | a file over 4194304 bytes is rejected whatever the transcription would return |
| GroqProcess.LimitSizeAccepted | app/api/groq/process/route.js:34-45 | a file of exactly 4194304 bytes is transcribed |
| GroqProcess.SummarizeWithoutText | app/api/groq/process/route.js:49-51 | summarize without text is 500 whatever the model would return |
| GroqProcess.MissingKeyIgnoresRequest | app/api/groq/process/route.js:16-19 | without a key the reply is 500 whatever the request holds |
| GroqProcess.UpstreamErrorRelayed | app/api/groq/process/route.js:73-80 | an upstream error's message and string form are relayed in a 500 reply |
| Dashboard.StripWithoutBackticks | app/dashboard/page.js:102 | text without backticks passes the fence removal unchanged |
| Dashboard.StripFences | app/dashboard/page.js:102 | fence removal never lengthens the text and only deletes characters: the result's characters are a sub-multiset of the input's |
| Dashboard.StripPlainPrefix | app/dashboard/page.js:102 | a backtick-free prefix passes fence removal unchanged, ahead of whatever the rest becomes |
| Dashboard.StripDeletesHtmlFence | app/dashboard/page.js:102 | the first ```` ```html ```` after a backtick-free prefix is deleted and nothing else around it changes |
| Dashboard.StripDeletesFence | app/dashboard/page.js:102 | the first ```` ``` ```` not followed by html, after a backtick-free prefix, is deleted and nothing else around it changes |
| Dashboard.StripLeavesNoFence | app/dashboard/page.js:102 | the left-to-right fence removal leaves no three consecutive backticks |
| Dashboard.TrimKeepsNoFence | app/dashboard/page.js:102 | trimming a fence-free string keeps it fence-free |
| Dashboard.CleanSummary | app/dashboard/page.js:100-103 | a missing or empty text gives ''; any other text gives the trim of its fence removal; the result has no surrounding whitespace and no fence; text without backticks is only trimmed |
| Dashboard.MeetingStatus | app/dashboard/page.js:105-111 | a missing start or end is upcoming; the status is completed iff the parsed end is before now; it is ongoing iff both parse and start <= now <= end |
| Dashboard.StatusPhases | app/dashboard/page.js:105-111 | for start <= end, the status is upcoming before the start, ongoing on the closed window, and completed after the end |
| Dashboard.InvertedWindowNeverOngoing | app/dashboard/page.js:109 | a window whose start is after its end is never ongoing |
| Dashboard.StatusMonotone | app/dashboard/page.js:105-111 | as now grows, the status never moves back: upcoming, then ongoing, then completed |
| Dashboard.UnparsableEndStaysUpcoming | app/dashboard/page.js:108-110 | an Invalid Date as the end keeps the meeting upcoming |
| Dashboard.AttendeeEmails | app/dashboard/page.js:140-142 | there is one email per comma-separated part, commas + 1 in all, each the trimmed part and free of commas |
| Dashboard.ListAttendeeCount | app/dashboard/page.js:392 | the list count is 0 for an empty string and commas + 1 otherwise |
| Dashboard.DetailAttendeeCount | app/dashboard/page.js:580 | the detail count is nothing for a missing list and commas + 1 otherwise, so 1 for '' |
| Dashboard.AttendeeCountsDiffer | app/dashboard/page.js:392 | the two counts agree exactly on non-empty attendee strings; on '' they are 0 and 1 |
| Dashboard.StepBadge | app/dashboard/page.js:423-429 | a badge is never both active and done, and is neither exactly for the steps still ahead |
| Dashboard.BadgeNeverBoth | app/dashboard/page.js:423-429 | a badge is never both active and done; it is drawn finished before the step, current at it, and ahead after it |
| Dashboard.WizardBadges | app/dashboard/page.js:423-429 | in each of the three steps exactly one badge is active, and exactly the earlier ones are done |
| Dashboard.InitialForm | app/dashboard/page.js:44-52 | the initial form has the schema's kinds and no id |
| Dashboard.BlankForm | app/dashboard/page.js:321-328 | the new-meeting form has every plan input set to '' and has no pptUrl and no id |
| Dashboard.DocumentOf | app/dashboard/page.js:346 | a meeting's document holds its `_id` and exactly the paths it has values at, each with its stored value |
| Dashboard.SaveBody | app/dashboard/page.js:191-195 | the saved body is the form, with userId and meetingLink overriding whatever the form holds under those names |
| Dashboard.WithId | app/dashboard/page.js:202 | prefixing the id adds exactly that key, and a null id adds nothing |
| Dashboard.ResultsUpdate | app/dashboard/page.js:229-234 | the AI results update has the schema's kinds and no id |
| Dashboard.AiResults | app/dashboard/page.js:214-227 | both AI calls answer iff there is a key, the file is within the limit, the transcript is non-empty and there is a first choice; the results are the transcript and the cleaned first choice |
| Dashboard.PostNew | app/dashboard/page.js:199-200 | the POST is 200 exactly when the database connects and the body passes creation under the fresh id; a 200 reply carries the meeting created under that id, which is stored; any other reply stores nothing; the connection cache ends as `Settled` |
| Dashboard.PutWithId | app/dashboard/page.js:202 | the page's PUT is 200 exactly when the database connects, and then only the current meeting takes the update; the connection cache ends as `Settled` |
| Dashboard.Wizard.constructor | app/dashboard/page.js:30-61 | the page starts on the list at step 1 with the initial form, no meeting id and no results |
| Dashboard.Wizard.FetchMeetings | app/dashboard/page.js:76-85 | on success the list is exactly the user's meetings, newest first; on failure it is unchanged; the connection cache ends as `Settled` |
| Dashboard.Wizard.GoHome | app/dashboard/page.js:277-280 | the logo returns to the list at step 1 and changes nothing else |
| Dashboard.Wizard.NewMeeting | app/dashboard/page.js:318-331 | the new-meeting action opens the create view at step 1 with the blank form, no id and no results |
| Dashboard.Wizard.OpenMeeting | app/dashboard/page.js:345-351 | opening a card loads that meeting's document, its id, and its transcript and summary or '', then shows the detail view |
| Dashboard.Wizard.ShowDocument | app/dashboard/page.js:346-350 | the document fills the form, its id becomes current, and the detail view is shown |
| Dashboard.Wizard.EditField | app/dashboard/page.js:438-476 | typing sets exactly that plan input |
| Dashboard.Wizard.CancelCreate | app/dashboard/page.js:480 | Cancel returns to the list and keeps the form |
| Dashboard.Wizard.BackToPlan | app/dashboard/page.js:505 | Back on the assets step returns to step 1 |
| Dashboard.Wizard.NextToFinal | app/dashboard/page.js:511 | Next on the assets step goes to step 3 |
| Dashboard.Wizard.BackToAssets | app/dashboard/page.js:538 | Back on the AI step returns to step 2 |
| Dashboard.Wizard.OpenShare | app/dashboard/page.js:544 | the share buttons open the dialog |
| Dashboard.Wizard.CloseShare | app/dashboard/page.js:749 | closing the dialog changes nothing else |
| Dashboard.Wizard.BackToList | app/dashboard/page.js:566 | Back in the detail view returns to the list |
| Dashboard.Wizard.ChooseAudio | app/dashboard/page.js:525 | the chosen file, or none, becomes the audio file |
| Dashboard.Wizard.NextStep1 | app/dashboard/page.js:179-209 | nothing is sent, and the cache is untouched, without a title, a start time or a non-empty calendar link; the first save POSTs, is 200 exactly when the database connects and the saved body passes creation, and records the id of the created meeting; later saves PUT that id; step 2 follows exactly a 200 reply; whenever a request is sent the cache ends as `Settled`; the ids a session adds to the store are exactly those it records as created, so a session creates at most one meeting |
| Dashboard.Wizard.SaveNew | app/dashboard/page.js:198-204 | the POST is 200 exactly when the database connects and the body passes creation; a 200 POST records the created meeting's id and moves to step 2; any other reply keeps the wizard at step 1 with no id; the cache ends as `Settled` |
| Dashboard.Wizard.RecordCreated | app/dashboard/page.js:200-204 | the created id becomes current, it is the one meeting this session created, and the wizard goes to step 2 |
| Dashboard.Wizard.SaveExisting | app/dashboard/page.js:201-204 | a PUT of the current id is 200 exactly when the database connects; it updates only that meeting and moves to step 2; the cache ends as `Settled` |
| Dashboard.Wizard.ToAssets | app/dashboard/page.js:204 | a successful save moves the wizard to step 2 |
| Dashboard.Wizard.ProcessAudio | app/dashboard/page.js:211-240 | without a file, or when an AI call fails, nothing changes, the cache included; otherwise the transcript and the cleaned summary are shown and saved, with status "completed", to the current meeting, and the cache ends as `Settled` |
| Dashboard.Wizard.KeepResults | app/dashboard/page.js:226-234 | the results are shown and then saved to the current meeting with status "completed" when the database connects; the cache ends as `Settled` |
| Dashboard.Wizard.FinalFinish | app/dashboard/page.js:255-258 | Finish closes the dialog, returns to the list at step 1 and fetches the user's meetings again; the cache ends as `Settled` |

## Left out

- JSX rendering, styling, animation, `alert`, the clipboard and the `activeTab`, `shareOptions`, `pptFile` and poll-editor state: these are presentation only.
- The `loading` flag is not modelled. It disables Next and Generate Insights while a request is pending (app/dashboard/page.js:487, 530, 703). The model takes each click handler to run to completion before the next click.
- Dashboard.Wizard.NextStep1 and Dashboard.Wizard.ProcessAudio run as single steps, so interleavings are not modelled. The page can still interleave them with other clicks: a user can press Next, then the logo and New Meeting, and the pending POST then resolves. Its id and step 2 land in the fresh session, whose next save PUTs over the first meeting. The model does not capture that race.
- The Google Calendar request, the Groq SDK calls, the axios requests and the post-meeting webhook: these are network I/O. Their results are parameters: the calendar link, the transcription and completion outcomes, and the connect outcome.
- Firebase sign-in and sign-out, the auth-state listener and `sessionStorage`: these are browser and foreign libraries. The signed-in user's uid is a constant of the wizard.
- `Math.random` request ids, `Intl` time zones and date parsing. The clock is the parameter `now`, and `new Date` is the parameter `parse`.
- `mongoose.connect` itself and concurrent `dbConnect` callers sharing one pending promise: calls are taken one at a time.
- The Groq client constructor at module load, the `console` logging, and the `details` text of upstream errors beyond `Error.prototype.toString`.
- test-db.js and app/layout.js are not part of this model. There is no DELETE handler, although the CORS headers allow the method.
- JSON `null` field values and non-object JSON bodies: a null field is modelled as an absent key.
- A multipart form holds one value per field, which `formData.get` returns.
- Mongoose's error wording beyond the error name, the ValidationError message summary and the ObjectId cast message.
- Mongoose's own casts between kinds: a value of the wrong kind for a path, such as a number for a String path, is modelled as a cast error.
- The `_id` of each poll subdocument, and ObjectIds given as 12-byte strings.
- MeetingSchema.Create: a body's own `_id` is not modelled. Mongoose would keep it, cast to an ObjectId, instead of assigning a fresh one. The dashboard never sends one on POST, since the create view starts from `BlankForm`, which has no id.
- MeetingSchema.UndeclaredFieldIgnored: not claimed for `_id`, which Mongoose keeps and casts rather than drops. The same holds for MeetingSchema.UpdateIgnoresUndeclared and MeetingSchema.ApplyUpdateIgnoresUndeclared, for an `_id` in a PUT body.
- Dashboard.AiResults: an undefined `transcription.text` and a summary request the route refuses for other reasons are folded into the oracle outcomes.
