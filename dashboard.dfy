/** The dashboard page: the helpers that clean a summary, classify a meeting by its
    time window, split the attendee list and draw the step badges, and the meeting
    wizard, whose state the page's handlers change one step at a time. */
module Dashboard {
  import opened Js
  import opened Text
  import opened MeetingSchema
  import Db
  import MeetingsRoute
  import GroqProcess

  // ---------------------------------------------------------------- cleanSummary

  const Fence: string := "```"
  const HtmlFence: string := "```html"

  predicate StartsWith(s: string, prefix: string) {
    |prefix| <= |s| && s[..|prefix|] == prefix
  }

  /** True when no three consecutive characters of `s` are backticks. */
  predicate NoFence(s: string) {
    forall i :: 0 <= i < |s| - 2 ==> !(s[i] == '`' && s[i + 1] == '`' && s[i + 2] == '`')
  }

  /** `s.replace(/```html|```/g, '')`: a left-to-right scan that deletes a fence where
      one starts, trying "```html" before "```", and keeps every other character. */
  function StripFences(s: string): (r: string)
    ensures |r| <= |s|
    ensures multiset(r) <= multiset(s)
    decreases |s|
  {
    if StartsWith(s, HtmlFence) then
      assert s == s[..7] + s[7..];
      StripFences(s[7..])
    else if StartsWith(s, Fence) then
      assert s == s[..3] + s[3..];
      StripFences(s[3..])
    else if s == [] then []
    else
      assert s == [s[0]] + s[1..];
      [s[0]] + StripFences(s[1..])
  }

  /** A string that does not start with a backtick keeps its first character. */
  lemma StripKeepsHead(s: string)
    requires s != [] && s[0] != '`'
    ensures StripFences(s) == [s[0]] + StripFences(s[1..])
  {
    assert !StartsWith(s, HtmlFence) && !StartsWith(s, Fence) by {
      assert |s| >= 3 ==> s[..3][0] == s[0];
      assert |s| >= 7 ==> s[..7][0] == s[0];
    }
  }

  /** Text without backticks passes the scan unchanged. */
  lemma {:induction false} StripWithoutBackticks(s: string)
    ensures '`' !in s ==> StripFences(s) == s
    decreases |s|
  {
    if s != [] && '`' !in s {
      StripKeepsHead(s);
      StripWithoutBackticks(s[1..]);
      assert s == [s[0]] + s[1..];
    }
  }

  /** Text without backticks in front of the rest is kept as it is, and the scan goes
      on with the rest. */
  lemma {:induction false} StripPlainPrefix(x: string, y: string)
    requires '`' !in x
    ensures StripFences(x + y) == x + StripFences(y)
    decreases |x|
  {
    if x != [] {
      assert (x + y)[0] == x[0] && (x + y)[1..] == x[1..] + y;
      StripKeepsHead(x + y);
      StripPlainPrefix(x[1..], y);
      calc {
        StripFences(x + y);
        [x[0]] + StripFences(x[1..] + y);
        [x[0]] + (x[1..] + StripFences(y));
        { assert x == [x[0]] + x[1..]; }
        x + StripFences(y);
      }
    } else {
      assert x + y == y;
    }
  }

  /** "```html" is deleted where it starts, after text without backticks. */
  lemma StripDeletesHtmlFence(x: string, y: string)
    requires '`' !in x
    ensures StripFences(x + HtmlFence + y) == x + StripFences(y)
  {
    var t := HtmlFence + y;
    assert t[..7] == HtmlFence && t[7..] == y;
    assert x + HtmlFence + y == x + t;
    StripPlainPrefix(x, t);
  }

  /** "```" not followed by "html" is deleted where it starts, after text without
      backticks. */
  lemma StripDeletesFence(x: string, y: string)
    requires '`' !in x && !StartsWith(y, "html")
    ensures StripFences(x + Fence + y) == x + StripFences(y)
  {
    var t := Fence + y;
    assert t[..3] == Fence && t[3..] == y;
    assert !StartsWith(t, HtmlFence) by {
      if |t| >= 7 {
        assert t[..7][3..] == y[..4];
      }
    }
    assert x + Fence + y == x + t;
    StripPlainPrefix(x, t);
  }

  /** Putting a character in front of a fence-free string makes no fence unless the
      character and the string's first two are all backticks. */
  lemma ConsNoFence(c: char, rest: string)
    requires NoFence(rest)
    requires !(c == '`' && |rest| >= 2 && rest[0] == '`' && rest[1] == '`')
    ensures NoFence([c] + rest)
  {
    var r := [c] + rest;
    forall i | 1 <= i < |r| - 2 ensures !(r[i] == '`' && r[i + 1] == '`' && r[i + 2] == '`') {
      assert r[i] == rest[i - 1] && r[i + 1] == rest[i] && r[i + 2] == rest[i + 1];
    }
  }

  /** A backtick that does not start a fence is followed, after the scan, by at most
      one more backtick before the next other character. */
  lemma LoneBacktickAhead(s: string)
    requires s != [] && s[0] == '`' && !StartsWith(s, Fence)
    ensures var rest := StripFences(s[1..]); !(|rest| >= 2 && rest[0] == '`' && rest[1] == '`')
  {
    var t := s[1..];
    if |t| >= 1 && t[0] != '`' {
      StripKeepsHead(t);
    } else if |t| >= 2 {
      assert t[1] != '`' by {
        assert |s| >= 3 && s[..3] == [s[0], t[0], t[1]];
      }
      assert !StartsWith(t, HtmlFence) && !StartsWith(t, Fence) by {
        assert |t| >= 3 ==> t[..3][1] == t[1];
        assert |t| >= 7 ==> t[..7][1] == t[1];
      }
      assert StripFences(t) == [t[0]] + StripFences(t[1..]);
      StripKeepsHead(t[1..]);
    }
  }

  /** The scan leaves no fence behind: removing a fence never joins backticks into a
      new one, because a backtick kept just before a fence would have started one. */
  lemma {:induction false} StripLeavesNoFence(s: string)
    ensures NoFence(StripFences(s))
    decreases |s|
  {
    if StartsWith(s, HtmlFence) {
      StripLeavesNoFence(s[7..]);
    } else if StartsWith(s, Fence) {
      StripLeavesNoFence(s[3..]);
    } else if s != [] {
      StripLeavesNoFence(s[1..]);
      if s[0] == '`' {
        LoneBacktickAhead(s);
      }
      ConsNoFence(s[0], StripFences(s[1..]));
    }
  }

  /** A slice of a fence-free string is fence-free. */
  lemma SliceKeepsNoFence(s: string, i: nat, j: nat)
    requires NoFence(s) && i <= j <= |s|
    ensures NoFence(s[i..j])
  {
    var r := s[i..j];
    forall k | 0 <= k < |r| - 2 ensures !(r[k] == '`' && r[k + 1] == '`' && r[k + 2] == '`') {
      assert r[k] == s[i + k] && r[k + 1] == s[i + k + 1] && r[k + 2] == s[i + k + 2];
    }
  }

  /** Trimming keeps a string free of fences. */
  lemma TrimKeepsNoFence(s: string)
    requires NoFence(s)
    ensures NoFence(Trim(s))
  {
    var i, j :| 0 <= i <= j <= |s| && Trim(s) == s[i..j] && AllWhitespace(s[..i]) && AllWhitespace(s[j..]);
    SliceKeepsNoFence(s, i, j);
  }

  /** `cleanSummary(text)`: '' for a missing or empty text, otherwise the text with
      its code fences deleted and then trimmed. The result has no leading or trailing
      whitespace and no fence; text without backticks is only trimmed. */
  function CleanSummary(text: Option<string>): (r: string)
    ensures text.None? || text == Some("") ==> r == ""
    ensures Trimmed(r)
    ensures NoFence(r)
    ensures text.Some? && '`' !in text.value ==> r == Trim(text.value)
    ensures text.Some? && text.value != "" ==> r == Trim(StripFences(text.value))
  {
    if text.None? || text.value == "" then ""
    else
      var stripped := StripFences(text.value);
      StripLeavesNoFence(text.value);
      TrimKeepsNoFence(stripped);
      StripWithoutBackticks(text.value);
      Trim(stripped)
  }

  // ---------------------------------------------------------------- getMeetingStatus

  datatype Phase = Upcoming | Ongoing | Completed

  /** The phase order: upcoming, then ongoing, then completed. */
  function Rank(s: Phase): nat {
    match s
    case Upcoming => 0
    case Ongoing => 1
    case Completed => 2
  }

  /** `getMeetingStatus(startStr, endStr)` at time `now`, where `parse` is `new Date`
      (None for an Invalid Date, against which every comparison is false). A missing
      or empty start or end makes the meeting upcoming. */
  function MeetingStatus(startStr: string, endStr: string, now: int, parse: string -> Option<int>): (r: Phase)
    ensures startStr == "" || endStr == "" ==> r == Upcoming
    ensures r == Completed <==> startStr != "" && endStr != "" && parse(endStr).Some? && now > parse(endStr).value
    ensures r == Ongoing <==>
      && startStr != "" && endStr != "" && parse(startStr).Some? && parse(endStr).Some?
      && parse(startStr).value <= now <= parse(endStr).value
  {
    if startStr == "" || endStr == "" then Upcoming
    else
      var start, end := parse(startStr), parse(endStr);
      if end.Some? && now > end.value then Completed
      else if start.Some? && end.Some? && now >= start.value && now <= end.value then Ongoing
      else Upcoming
  }

  /** For a window with start <= end the status is upcoming before the start, ongoing
      from the start to the end, both included, and completed after the end. */
  lemma StatusPhases(startStr: string, endStr: string, now: int, parse: string -> Option<int>)
    requires startStr != "" && endStr != ""
    requires parse(startStr).Some? && parse(endStr).Some? && parse(startStr).value <= parse(endStr).value
    ensures now < parse(startStr).value ==> MeetingStatus(startStr, endStr, now, parse) == Upcoming
    ensures parse(startStr).value <= now <= parse(endStr).value ==> MeetingStatus(startStr, endStr, now, parse) == Ongoing
    ensures now > parse(endStr).value ==> MeetingStatus(startStr, endStr, now, parse) == Completed
  {
  }

  /** An inverted window (start after end) is never ongoing. */
  lemma InvertedWindowNeverOngoing(startStr: string, endStr: string, now: int, parse: string -> Option<int>)
    requires parse(startStr).Some? && parse(endStr).Some? && parse(startStr).value > parse(endStr).value
    ensures MeetingStatus(startStr, endStr, now, parse) != Ongoing
  {
  }

  /** The status only moves forward in time: upcoming, then ongoing, then completed. */
  lemma StatusMonotone(startStr: string, endStr: string, now1: int, now2: int, parse: string -> Option<int>)
    requires now1 <= now2
    ensures Rank(MeetingStatus(startStr, endStr, now1, parse)) <= Rank(MeetingStatus(startStr, endStr, now2, parse))
  {
  }

  /** An unparsable end date never lets a meeting start or finish. */
  lemma UnparsableEndStaysUpcoming(startStr: string, endStr: string, now: int, parse: string -> Option<int>)
    requires parse(endStr).None?
    ensures MeetingStatus(startStr, endStr, now, parse) == Upcoming
  {
  }

  // ---------------------------------------------------------------- attendees

  /** `attendees.split(',').map(email => email.trim())`: one email per comma-separated
      part, in order, each trimmed, none holding a comma. */
  function AttendeeEmails(attendees: string): (emails: seq<string>)
    ensures |emails| == Count(attendees, ',') + 1
    ensures forall i :: 0 <= i < |emails| ==> emails[i] == Trim(Split(attendees, ',')[i])
    ensures forall i :: 0 <= i < |emails| ==> Trimmed(emails[i]) && ',' !in emails[i]
  {
    var parts := Split(attendees, ',');
    seq(|parts|, i requires 0 <= i < |parts| => Trim(parts[i]))
  }

  /** The list view's participant count `m.attendees ? m.attendees.split(',').length : 0`. */
  function ListAttendeeCount(attendees: string): (n: nat)
    ensures attendees == "" ==> n == 0
    ensures attendees != "" ==> n == Count(attendees, ',') + 1
  {
    if attendees == "" then 0 else |Split(attendees, ',')|
  }

  /** The detail view's participant count `formData.attendees?.split(',').length`:
      nothing for a missing list, 1 for the empty string. */
  function DetailAttendeeCount(attendees: Option<string>): (n: Option<nat>)
    ensures attendees.None? ==> n.None?
    ensures attendees.Some? ==> n == Some(Count(attendees.value, ',') + 1)
  {
    match attendees
    case None => None
    case Some(a) => Some(|Split(a, ',')|)
  }

  /** The two views agree on a non-empty attendee string and differ only on the
      empty one, which the list shows as 0 participants and the detail view as 1. */
  lemma AttendeeCountsDiffer(attendees: string)
    ensures ListAttendeeCount(attendees) == DetailAttendeeCount(Some(attendees)).value <==> attendees != ""
    ensures ListAttendeeCount("") == 0 && DetailAttendeeCount(Some("")) == Some(1)
  {
  }

  // ---------------------------------------------------------------- StepBadge

  /** The props `active={step === num}` and `done={step > num}` of a StepBadge. */
  datatype Badge = Badge(active: bool, done: bool)

  /** How a badge is drawn: the current step, a finished step (a check mark), or a
      step still ahead. `active` wins over `done`. */
  datatype Look = Current | Finished | Ahead

  function StepBadge(step: int, num: int): (b: Badge)
    ensures !(b.active && b.done)
    // Neither flag is set exactly for the steps still ahead.
    ensures !b.active && !b.done <==> num > step
  {
    Badge(step == num, step > num)
  }

  function BadgeLook(b: Badge): Look {
    if b.active then Current else if b.done then Finished else Ahead
  }

  /** A badge is never both active and done, so the `active` priority in the look
      never hides a finished step. */
  lemma BadgeNeverBoth(step: int, num: int)
    ensures !(StepBadge(step, num).active && StepBadge(step, num).done)
    ensures BadgeLook(StepBadge(step, num)) == (if num < step then Finished else if num == step then Current else Ahead)
  {
  }

  /** In each wizard step exactly one of the three badges is current: those before it
      are finished and those after it are ahead. */
  lemma WizardBadges(step: int)
    requires 1 <= step <= 3
    ensures |set num | 1 <= num <= 3 && StepBadge(step, num).active| == 1
    ensures forall num :: 1 <= num <= 3 ==> (StepBadge(step, num).done <==> num < step)
  {
    assert (set num | 1 <= num <= 3 && StepBadge(step, num).active) == {step};
  }

  // ---------------------------------------------------------------- the wizard

  datatype View = List | Create | Detail

  /** The paths the plan step has a text input for. */
  predicate PlanInput(p: Path) {
    p.Title? || p.StartTime? || p.EndTime? || p.Description? || p.Attendees?
  }

  /** Every value of a form has the kind its schema path is declared with. */
  predicate FormFits(form: Body) {
    forall p: Path :: Field(p) in form ==> KindFits(p, form[Field(p)])
  }

  /** The form the page starts with. */
  function InitialForm(): (form: Body)
    ensures FormFits(form) && Other("id") !in form
  {
    map[Field(Title) := Str(""), Field(StartTime) := Str(""), Field(EndTime) := Str(""), Field(Description) := Str(""),
        Field(Attendees) := Str(""), Field(PptUrl) := Str(""), Field(Polls) := PollList([])]
  }

  /** The form "New Meeting" resets to; unlike the initial one it has no `pptUrl`. */
  function BlankForm(): (form: Body)
    ensures FormFits(form) && Other("id") !in form && Field(PptUrl) !in form
    ensures forall p: Path :: PlanInput(p) ==> Field(p) in form && form[Field(p)] == Str("")
  {
    map[Field(Title) := Str(""), Field(StartTime) := Str(""), Field(EndTime) := Str(""), Field(Description) := Str(""),
        Field(Attendees) := Str(""), Field(Polls) := PollList([])]
  }

  /** Stored polls as the JSON list the page holds: each with its creation time set. */
  function PollInputs(polls: seq<Poll>): (r: seq<PollInput>)
    ensures |r| == |polls|
    ensures forall i :: 0 <= i < |polls| ==>
      r[i] == PollInput(polls[i].question, polls[i].options, Some(polls[i].createdAt))
  {
    if polls == [] then []
    else [PollInput(polls[0].question, polls[0].options, Some(polls[0].createdAt))] + PollInputs(polls[1..])
  }

  /** The value a stored meeting holds at a path, as its JSON document shows it. */
  function StoredValue(m: Meeting, p: Path): (v: Option<Value>)
    ensures v.Some? ==> KindFits(p, v.value)
    ensures IsStringPath(p) ==> (v.Some? <==> StoredString(m, p).Some?)
    ensures IsStringPath(p) && v.Some? ==> v.value == Str(StoredString(m, p).value)
  {
    match p
    case Polls =>
      Some(PollList(PollInputs(m.polls)))
    case CreatedAt => Some(Time(m.createdAt))
    case _ => if StoredString(m, p).Some? then Some(Str(StoredString(m, p).value)) else None
  }

  /** The paths of the schema, in declaration order. */
  const AllPaths: seq<Path> := [
    UserId, Title, Description, StartTime, EndTime, Attendees, PptUrl,
    Polls, Status, RecordingUrl, Transcription, Summary, CreatedAt]

  lemma AllPathsComplete()
    ensures forall p: Path :: p in AllPaths
  {
    forall p: Path ensures p in AllPaths {
      match p
      case UserId => case Title => case Description => case StartTime => case EndTime =>
      case Attendees => case PptUrl => case Polls => case Status => case RecordingUrl =>
      case Transcription => case Summary => case CreatedAt =>
    }
  }

  /** The fields of a stored meeting at the given paths: each path it has a value at. */
  function StoredFields(m: Meeting, paths: seq<Path>): (fields: Body)
    ensures forall k :: k in fields ==> k.Field? && k.path in paths && StoredValue(m, k.path) == Some(fields[k])
    ensures forall p :: p in paths && StoredValue(m, p).Some? ==> Field(p) in fields
  {
    if paths == [] then map[]
    else
      var rest := StoredFields(m, paths[1..]);
      var v := StoredValue(m, paths[0]);
      if v.Some? then rest[Field(paths[0]) := v.value] else rest
  }

  /** A stored meeting as the JSON document the list holds and `setFormData(m)` copies:
      its `_id` and every path it has a value at, and nothing else. */
  function DocumentOf(m: Meeting): (doc: Body)
    ensures Other("_id") in doc && doc[Other("_id")] == Str(m.id)
    ensures forall k :: k in doc && k != Other("_id") ==> k.Field? && StoredValue(m, k.path) == Some(doc[k])
    ensures forall p: Path :: StoredValue(m, p).Some? ==> Field(p) in doc
    ensures FormFits(doc) && Other("id") !in doc
  {
    AllPathsComplete();
    StoredFields(m, AllPaths)[Other("_id") := Str(m.id)]
  }

  /** `{...formData, userId: user.uid, meetingLink: calendarLink}`: the signed-in user
      and the calendar link override whatever the form holds under those names. */
  function SaveBody(form: Body, uid: string, link: string): (body: Body)
    ensures body.Keys == form.Keys + {Field(UserId), Other("meetingLink")}
    ensures body[Field(UserId)] == Str(uid) && body[Other("meetingLink")] == Str(link)
    ensures forall k :: k in form && k != Field(UserId) && k != Other("meetingLink") ==> body[k] == form[k]
    ensures FormFits(form) ==> FormFits(body)
  {
    form + map[Field(UserId) := Str(uid), Other("meetingLink") := Str(link)]
  }

  /** `{id: currentMeetingId, ...rest}`; a null id is sent as no id at all. */
  function WithId(id: Option<string>, rest: Body): (body: Body)
    requires Other("id") !in rest
    ensures body - {Other("id")} == rest
    ensures id.Some? ==> Other("id") in body && body[Other("id")] == Str(id.value)
    ensures id.None? ==> Other("id") !in body
  {
    if id.Some? then map[Other("id") := Str(id.value)] + rest else rest
  }

  /** The update saved after the AI step: the transcript, the cleaned summary and the
      status "completed". */
  function ResultsUpdate(text: string, cleaned: string): (update: Body)
    ensures FormFits(update) && Other("id") !in update
  {
    map[Field(Transcription) := Str(text), Field(Summary) := Str(cleaned), Field(Status) := Str("completed")]
  }

  /** The form sent to the AI route to transcribe an audio file. */
  function TranscribeForm(file: GroqProcess.FormEntry): GroqProcess.Form {
    map["file" := file, "task" := GroqProcess.TextEntry("transcribe")]
  }

  /** The form sent to the AI route to summarize a transcript. */
  function SummarizeForm(text: string): GroqProcess.Form {
    map["task" := GroqProcess.TextEntry("summarize"), "text" := GroqProcess.TextEntry(text)]
  }

  /** The two AI requests of `handleProcessAudio`: the file is transcribed, then the
      transcript is summarized, and the summary cleaned. Both must answer 200 (axios
      throws otherwise). The result is the transcript and the cleaned summary. */
  function AiResults(apiKey: string, file: GroqProcess.FormEntry, heard: Outcome<string>,
                     completion: Outcome<seq<GroqProcess.Choice>>): (r: Option<(string, string)>)
    requires file.FileEntry?
    ensures r.Some? <==>
      && apiKey != "" && file.size <= GroqProcess.MaxUploadBytes
      && heard.Ok? && heard.value != "" && completion.Ok? && |completion.value| > 0
    ensures r.Some? ==>
      heard == Ok(r.value.0) && r.value.1 == CleanSummary(completion.value[0].content)
  {
    var t := GroqProcess.Process(apiKey, Ok(TranscribeForm(file)), heard, completion);
    if t.status != 200 then None
    else
      var s := GroqProcess.Process(apiKey, Ok(SummarizeForm(t.body.text)), heard, completion);
      if s.status != 200 then None
      else Some((t.body.text, CleanSummary(s.body.summary)))
  }

  /** A POST of `data` to `/api/meetings` from the page: a 200 answer carries the
      meeting `data` creates under the fresh id, which is then stored; any other
      answer leaves the store as it was. */
  method PostNew(db: Db.ConnectionCache, coll: MeetingsRoute.MeetingCollection, connect: Outcome<Db.Connection>,
                 data: Body, freshId: string, now: int) returns (r: MeetingsRoute.Response)
    requires db.Valid() && coll.Valid()
    requires IsStoredId(freshId) && freshId !in coll.meetings
    modifies db, coll
    ensures db.Valid() && coll.Valid()
    ensures (db.conn, db.promise) == Db.Settled(old(db.conn), old(db.promise), connect)
    ensures r.status == 200 <==> Db.Awaited(old(db.conn), old(db.promise), connect).Ok? && MeetingSchema.Create(data, freshId, now).Ok?
    ensures var c := MeetingSchema.Create(data, freshId, now);
      if r.status == 200 then
        c.Ok? && r.payload == MeetingsRoute.Succeeded(MeetingsRoute.One(c.value)) && c.value.id == freshId
        && coll.meetings == old(coll.meetings)[freshId := c.value]
      else coll.meetings == old(coll.meetings)
  {
    CreateSucceedsIff(data, freshId, now);
    r := MeetingsRoute.Post(db, coll, connect, Ok(data), freshId, now);
  }

  /** A PUT of `{id, ...data}` to `/api/meetings` from the page, where `data` has the
      kinds the schema declares and the id, if any, is a stored one: the request is
      answered with 200 exactly when the database connects, and then the meeting with
      that id, if it exists, takes the update. */
  method PutWithId(db: Db.ConnectionCache, coll: MeetingsRoute.MeetingCollection, connect: Outcome<Db.Connection>,
                   id: Option<string>, data: Body, now: int) returns (r: MeetingsRoute.Response)
    requires db.Valid() && coll.Valid()
    requires FormFits(data) && Other("id") !in data && (id.Some? ==> IsStoredId(id.value))
    modifies db, coll
    ensures db.Valid() && coll.Valid()
    ensures (db.conn, db.promise) == Db.Settled(old(db.conn), old(db.promise), connect)
    ensures coll.meetings.Keys == old(coll.meetings).Keys
    ensures r.status == 200 <==> Db.Awaited(old(db.conn), old(db.promise), connect).Ok?
    ensures coll.meetings == (if r.status == 200 && id.Some? && id.value in old(coll.meetings)
      then old(coll.meetings)[id.value := ApplyUpdate(old(coll.meetings)[id.value], data, now)]
      else old(coll.meetings))
  {
    UpdateCastsIff(data);
    if id.Some? {
      assert IsObjectIdText(id.value);
    }
    r := MeetingsRoute.Put(db, coll, connect, Ok(WithId(id, data)), now);
  }

  /** The dashboard page's state, changed by its handlers. The meetings store, the
      connection cache and the outcomes of the network calls are passed in. The ghost
      `created` holds the id this wizard session has created, if any; a session
      starts at "New Meeting" or when a meeting is opened. */
  class Wizard {
    const uid: string
    var view: View
    var step: int
    var form: Body
    var currentMeetingId: Option<string>
    var showShareModal: bool
    var meetings: seq<Meeting>
    var audioFile: Option<GroqProcess.FormEntry>
    var transcription: string
    var summary: string
    ghost var created: set<string>

    /** Step between 1 and 3; a session has created nothing or exactly the meeting the
        wizard is editing; every id the page holds is a stored ObjectId. */
    ghost predicate Valid()
      reads this
    {
      && 1 <= step <= 3
      && FormFits(form) && Other("id") !in form
      && (currentMeetingId.Some? ==> IsStoredId(currentMeetingId.value))
      && (forall m :: m in meetings ==> IsStoredId(m.id))
      && (audioFile.Some? ==> audioFile.value.FileEntry?)
      && (created == {} || (currentMeetingId.Some? && created == {currentMeetingId.value}))
    }

    /** The view and the step stay as they were. */
    twostate predicate NavigationKept()
      reads this
    {
      view == old(view) && step == old(step)
    }

    /** The meeting the wizard is editing, and what this session has created, stay. */
    twostate predicate SessionKept()
      reads this
    {
      currentMeetingId == old(currentMeetingId) && created == old(created)
    }

    /** The transcript and summary shown stay. */
    twostate predicate ResultsKept()
      reads this
    {
      transcription == old(transcription) && summary == old(summary)
    }

    /** The share dialog, the list of meetings and the chosen audio file stay. */
    twostate predicate PageKept()
      reads this
    {
      showShareModal == old(showShareModal) && meetings == old(meetings) && audioFile == old(audioFile)
    }

    constructor(uid: string)
      ensures Valid() && this.uid == uid
      ensures view == List && step == 1 && form == InitialForm() && currentMeetingId.None?
      ensures !showShareModal && meetings == [] && audioFile.None?
      ensures transcription == "" && summary == "" && created == {}
    {
      this.uid := uid;
      view := List;
      step := 1;
      form := InitialForm();
      currentMeetingId := None;
      showShareModal := false;
      meetings := [];
      audioFile := None;
      transcription := "";
      summary := "";
      created := {};
    }

    /** `fetchMeetings(uid)`: the list becomes the user's meetings when the request
        succeeds, and stays as it was when it fails (400 and 500 make axios throw). */
    method FetchMeetings(db: Db.ConnectionCache, coll: MeetingsRoute.MeetingCollection, connect: Outcome<Db.Connection>)
      requires Valid() && db.Valid() && coll.Valid()
      modifies this, db
      ensures Valid() && db.Valid()
      ensures NavigationKept() && form == old(form) && showShareModal == old(showShareModal)
      ensures SessionKept() && audioFile == old(audioFile)
      ensures ResultsKept()
      ensures (db.conn, db.promise) == Db.Settled(old(db.conn), old(db.promise), connect)
      ensures if Db.Awaited(old(db.conn), old(db.promise), connect).Ok? && uid != ""
        then MeetingsRoute.IsListing(coll.meetings, uid, meetings)
        else meetings == old(meetings)
    {
      var r := MeetingsRoute.Get(db, coll, connect, Some(uid));
      if r.status == 200 && r.payload.Succeeded? && r.payload.data.Many? {
        meetings := r.payload.data.meetings;
      }
    }

    /** The logo: back to the list at step 1. */
    method GoHome()
      requires Valid()
      modifies this
      ensures Valid() && view == List && step == 1
      ensures form == old(form) && SessionKept()
      ensures PageKept()
      ensures ResultsKept()
    {
      view := List;
      step := 1;
    }

    /** "New Meeting": a fresh session on a blank form at step 1, with no meeting id
        and no AI results. */
    method NewMeeting()
      requires Valid() && view == List
      modifies this
      ensures Valid() && view == Create && step == 1 && form == BlankForm()
      ensures currentMeetingId.None? && created == {} && transcription == "" && summary == ""
      ensures PageKept()
    {
      view := Create;
      step := 1;
      form := BlankForm();
      currentMeetingId := None;
      transcription := "";
      summary := "";
      created := {};
    }

    /** A card of the list: its meeting is loaded into the form and the detail view. */
    method OpenMeeting(m: Meeting)
      requires Valid() && view == List && m in meetings
      modifies this
      ensures Valid() && view == Detail && form == DocumentOf(m) && currentMeetingId == Some(m.id)
      ensures transcription == m.transcription.GetOr("") && summary == m.summary.GetOr("")
      ensures created == {} && step == old(step)
      ensures PageKept()
    {
      ShowDocument(DocumentOf(m), m.id, m.transcription.GetOr(""), m.summary.GetOr(""));
    }

    /** The detail view of a document: its fields fill the form, and its id becomes the
        current one, with no meeting created in this session. */
    method ShowDocument(doc: Body, id: string, text: string, cleaned: string)
      requires Valid() && FormFits(doc) && Other("id") !in doc && IsStoredId(id)
      modifies this
      ensures Valid() && view == Detail && form == doc && currentMeetingId == Some(id)
      ensures transcription == text && summary == cleaned
      ensures created == {} && step == old(step)
      ensures PageKept()
    {
      form := doc;
      currentMeetingId := Some(id);
      transcription := text;
      summary := cleaned;
      view := Detail;
      created := {};
    }

    /** Typing into one input of the plan step. */
    method EditField(p: Path, value: string)
      requires Valid() && view == Create && step == 1 && PlanInput(p)
      modifies this
      ensures Valid() && form == old(form)[Field(p) := Str(value)]
      ensures NavigationKept() && SessionKept()
      ensures PageKept()
      ensures ResultsKept()
    {
      form := form[Field(p) := Str(value)];
    }

    /** "Cancel" on the plan step: back to the list, keeping the step. */
    method CancelCreate()
      requires Valid() && view == Create && step == 1
      modifies this
      ensures Valid() && view == List && step == 1
      ensures form == old(form) && SessionKept()
      ensures PageKept()
      ensures ResultsKept()
    {
      view := List;
    }

    /** "Back" on the assets step. */
    method BackToPlan()
      requires Valid() && view == Create && step == 2
      modifies this
      ensures Valid() && view == Create && step == 1
      ensures form == old(form) && SessionKept()
      ensures PageKept()
      ensures ResultsKept()
    {
      step := 1;
    }

    /** "Next" on the assets step. */
    method NextToFinal()
      requires Valid() && view == Create && step == 2
      modifies this
      ensures Valid() && view == Create && step == 3
      ensures form == old(form) && SessionKept()
      ensures PageKept()
      ensures ResultsKept()
    {
      step := 3;
    }

    /** "Back" on the AI step. */
    method BackToAssets()
      requires Valid() && view == Create && step == 3
      modifies this
      ensures Valid() && view == Create && step == 2
      ensures form == old(form) && SessionKept()
      ensures PageKept()
      ensures ResultsKept()
    {
      step := 2;
    }

    /** The share button of the AI step and of the detail view. */
    method OpenShare()
      requires Valid() && ((view == Create && step == 3) || view == Detail)
      modifies this
      ensures Valid() && showShareModal
      ensures NavigationKept() && form == old(form)
      ensures SessionKept()
      ensures meetings == old(meetings) && audioFile == old(audioFile)
      ensures ResultsKept()
    {
      showShareModal := true;
    }

    /** Closing the share dialog. */
    method CloseShare()
      requires Valid() && showShareModal
      modifies this
      ensures Valid() && !showShareModal
      ensures NavigationKept() && form == old(form)
      ensures SessionKept()
      ensures meetings == old(meetings) && audioFile == old(audioFile)
      ensures ResultsKept()
    {
      showShareModal := false;
    }

    /** "Back" in the detail view. */
    method BackToList()
      requires Valid() && view == Detail
      modifies this
      ensures Valid() && view == List
      ensures step == old(step) && form == old(form) && SessionKept()
      ensures PageKept()
      ensures ResultsKept()
    {
      view := List;
    }

    /** Picking an audio file (`e.target.files[0]`, nothing when the picker is cancelled). */
    method ChooseAudio(file: Option<GroqProcess.FormEntry>)
      requires Valid() && ((view == Create && step == 3) || view == Detail)
      requires file.Some? ==> file.value.FileEntry?
      modifies this
      ensures Valid() && audioFile == file
      ensures NavigationKept() && form == old(form)
      ensures SessionKept()
      ensures showShareModal == old(showShareModal) && meetings == old(meetings)
      ensures ResultsKept()
    {
      audioFile := file;
    }

    /** `handleNextStep1`. Without a title or a start time, or without a calendar
        link (null or empty), nothing is sent and nothing changes. Otherwise the
        form, the user and the link are saved: with POST while the session has no meeting id, recording the
        id of the created meeting, and with PUT of that id afterwards, so a session
        creates at most one meeting. A successful save moves on to step 2. `saved` is
        the reply to the save request, if one was sent. */
    method NextStep1(db: Db.ConnectionCache, coll: MeetingsRoute.MeetingCollection, connect: Outcome<Db.Connection>,
                     link: Option<string>, freshId: string, now: int) returns (saved: Option<MeetingsRoute.Response>)
      requires Valid() && db.Valid() && coll.Valid()
      requires view == Create && step == 1
      requires IsStoredId(freshId) && freshId !in coll.meetings
      modifies this, db, coll
      ensures Valid() && db.Valid() && coll.Valid()
      ensures view == old(view) && form == old(form) && PageKept()
      ensures ResultsKept()
      ensures saved.None? <==>
        !Truthy(old(form), Field(Title)) || !Truthy(old(form), Field(StartTime)) || link.None? || link.value == ""
      ensures saved.None? ==>
        && SessionKept() && coll.meetings == old(coll.meetings)
        && db.conn == old(db.conn) && db.promise == old(db.promise)
      ensures saved.Some? ==> (db.conn, db.promise) == Db.Settled(old(db.conn), old(db.promise), connect)
      ensures step == (if saved.Some? && saved.value.status == 200 then 2 else 1)
      // The first save creates the meeting and records its id.
      ensures old(currentMeetingId).None? && saved.Some? ==>
        var c := MeetingSchema.Create(SaveBody(old(form), uid, link.value), freshId, now);
        && (saved.value.status == 200 <==> Db.Awaited(old(db.conn), old(db.promise), connect).Ok? && c.Ok?)
        && if saved.value.status == 200 then
          c.Ok? && currentMeetingId == Some(freshId) && created == {freshId} && coll.meetings == old(coll.meetings)[freshId := c.value]
        else currentMeetingId.None? && created == {} && coll.meetings == old(coll.meetings)
      // Later saves update the recorded meeting and create nothing.
      ensures old(currentMeetingId).Some? && saved.Some? ==>
        var k := old(currentMeetingId).value;
        && SessionKept()
        && (saved.value.status == 200 <==> Db.Awaited(old(db.conn), old(db.promise), connect).Ok?)
        && coll.meetings == (if saved.value.status == 200 && k in old(coll.meetings)
             then old(coll.meetings)[k := ApplyUpdate(old(coll.meetings)[k], SaveBody(old(form), uid, link.value), now)]
             else old(coll.meetings))
      // At most one meeting per session.
      ensures coll.meetings.Keys - old(coll.meetings).Keys == created - old(created)
      ensures old(created) != {} ==> coll.meetings.Keys == old(coll.meetings).Keys
    {
      if !Truthy(form, Field(Title)) || !Truthy(form, Field(StartTime)) {
        return None;
      }
      if link.None? || link.value == "" {
        return None;
      }
      var data := SaveBody(form, uid, link.value);
      var r;
      if currentMeetingId.None? {
        r := SaveNew(db, coll, connect, data, freshId, now);
      } else {
        r := SaveExisting(db, coll, connect, data, now);
      }
      saved := Some(r);
    }

    /** The POST branch of `handleNextStep1`. */
    method SaveNew(db: Db.ConnectionCache, coll: MeetingsRoute.MeetingCollection, connect: Outcome<Db.Connection>,
                   data: Body, freshId: string, now: int) returns (r: MeetingsRoute.Response)
      requires Valid() && db.Valid() && coll.Valid()
      requires step == 1 && currentMeetingId.None? && FormFits(data) && Other("id") !in data
      requires IsStoredId(freshId) && freshId !in coll.meetings
      modifies this, db, coll
      ensures Valid() && db.Valid() && coll.Valid()
      ensures view == old(view) && form == old(form) && PageKept()
      ensures ResultsKept()
      ensures step == (if r.status == 200 then 2 else 1)
      ensures (db.conn, db.promise) == Db.Settled(old(db.conn), old(db.promise), connect)
      ensures r.status == 200 <==> Db.Awaited(old(db.conn), old(db.promise), connect).Ok? && MeetingSchema.Create(data, freshId, now).Ok?
      ensures var c := MeetingSchema.Create(data, freshId, now);
        if r.status == 200 then
          c.Ok? && currentMeetingId == Some(freshId) && created == {freshId} && coll.meetings == old(coll.meetings)[freshId := c.value]
        else currentMeetingId.None? && created == {} && coll.meetings == old(coll.meetings)
    {
      r := PostNew(db, coll, connect, data, freshId, now);
      if r.status == 200 {
        RecordCreated(r.payload.data.meeting.id);
      }
    }

    /** After a successful POST: the new meeting becomes the current one, the one this
        session has created, and the wizard moves on to the assets step. */
    method RecordCreated(id: string)
      requires Valid() && IsStoredId(id)
      modifies this
      ensures Valid() && currentMeetingId == Some(id) && created == {id} && step == 2
      ensures view == old(view) && form == old(form) && PageKept()
      ensures ResultsKept()
    {
      currentMeetingId := Some(id);
      created := {id};
      step := 2;
    }

    /** The PUT branch of `handleNextStep1`. */
    method SaveExisting(db: Db.ConnectionCache, coll: MeetingsRoute.MeetingCollection, connect: Outcome<Db.Connection>,
                        data: Body, now: int) returns (r: MeetingsRoute.Response)
      requires Valid() && db.Valid() && coll.Valid()
      requires step == 1 && currentMeetingId.Some? && FormFits(data) && Other("id") !in data
      modifies this, db, coll
      ensures Valid() && db.Valid() && coll.Valid()
      ensures view == old(view) && form == old(form) && PageKept()
      ensures ResultsKept()
      ensures SessionKept()
      ensures step == (if r.status == 200 then 2 else 1)
      ensures (db.conn, db.promise) == Db.Settled(old(db.conn), old(db.promise), connect)
      ensures r.status == 200 <==> Db.Awaited(old(db.conn), old(db.promise), connect).Ok?
      ensures var k := currentMeetingId.value;
        coll.meetings == (if r.status == 200 && k in old(coll.meetings)
          then old(coll.meetings)[k := ApplyUpdate(old(coll.meetings)[k], data, now)]
          else old(coll.meetings))
    {
      r := PutWithId(db, coll, connect, currentMeetingId, data, now);
      if r.status == 200 {
        ToAssets();
      }
    }

    /** After a successful PUT: the wizard moves on to the assets step. */
    method ToAssets()
      requires Valid()
      modifies this
      ensures Valid() && step == 2
      ensures view == old(view) && form == old(form) && PageKept()
      ensures ResultsKept()
      ensures SessionKept()
    {
      step := 2;
    }

    /** `handleProcessAudio`. With an audio file chosen and both AI calls answered,
        the page keeps the transcript and the cleaned summary and then saves them,
        with the status "completed", to the current meeting. Without a file, or when
        an AI call fails, nothing changes; a failed save keeps the results on the page. */
    method ProcessAudio(db: Db.ConnectionCache, coll: MeetingsRoute.MeetingCollection, connect: Outcome<Db.Connection>,
                        apiKey: string, heard: Outcome<string>, completion: Outcome<seq<GroqProcess.Choice>>, now: int)
      requires Valid() && db.Valid() && coll.Valid()
      modifies this, db, coll
      ensures Valid() && db.Valid() && coll.Valid()
      ensures NavigationKept() && form == old(form) && showShareModal == old(showShareModal)
      ensures SessionKept()
      ensures meetings == old(meetings) && audioFile == old(audioFile)
      ensures coll.meetings.Keys == old(coll.meetings).Keys
      ensures var res := if old(audioFile).None? then None else AiResults(apiKey, old(audioFile).value, heard, completion);
        if res.None? then
          && ResultsKept() && coll.meetings == old(coll.meetings)
          && db.conn == old(db.conn) && db.promise == old(db.promise)
        else
          && transcription == res.value.0 && summary == res.value.1
          && (db.conn, db.promise) == Db.Settled(old(db.conn), old(db.promise), connect)
          && var k := old(currentMeetingId);
             coll.meetings == (if Db.Awaited(old(db.conn), old(db.promise), connect).Ok? && k.Some? && k.value in old(coll.meetings)
               then old(coll.meetings)[k.value := ApplyUpdate(old(coll.meetings)[k.value], ResultsUpdate(res.value.0, res.value.1), now)]
               else old(coll.meetings))
    {
      if audioFile.None? {
        return;
      }
      var res := AiResults(apiKey, audioFile.value, heard, completion);
      if res.Some? {
        KeepResults(db, coll, connect, res.value.0, res.value.1, now);
      }
    }

    /** The end of `handleProcessAudio`: the results are shown, then saved with the
        status "completed" to the current meeting. */
    method KeepResults(db: Db.ConnectionCache, coll: MeetingsRoute.MeetingCollection, connect: Outcome<Db.Connection>,
                       text: string, cleaned: string, now: int)
      requires Valid() && db.Valid() && coll.Valid()
      modifies this, db, coll
      ensures Valid() && db.Valid() && coll.Valid()
      ensures NavigationKept() && form == old(form) && showShareModal == old(showShareModal)
      ensures SessionKept()
      ensures meetings == old(meetings) && audioFile == old(audioFile)
      ensures transcription == text && summary == cleaned
      ensures (db.conn, db.promise) == Db.Settled(old(db.conn), old(db.promise), connect)
      ensures coll.meetings.Keys == old(coll.meetings).Keys
      ensures var k := currentMeetingId;
        coll.meetings == (if Db.Awaited(old(db.conn), old(db.promise), connect).Ok? && k.Some? && k.value in old(coll.meetings)
          then old(coll.meetings)[k.value := ApplyUpdate(old(coll.meetings)[k.value], ResultsUpdate(text, cleaned), now)]
          else old(coll.meetings))
    {
      transcription := text;
      summary := cleaned;
      var _ := PutWithId(db, coll, connect, currentMeetingId, ResultsUpdate(text, cleaned), now);
    }

    /** "Finish" in the share dialog: the dialog closes, the page returns to the list
        at step 1 and the list is fetched again. */
    method FinalFinish(db: Db.ConnectionCache, coll: MeetingsRoute.MeetingCollection, connect: Outcome<Db.Connection>)
      requires Valid() && db.Valid() && coll.Valid() && showShareModal
      modifies this, db
      ensures Valid() && db.Valid()
      ensures !showShareModal && view == List && step == 1
      ensures form == old(form) && SessionKept()
      ensures audioFile == old(audioFile) && ResultsKept()
      ensures (db.conn, db.promise) == Db.Settled(old(db.conn), old(db.promise), connect)
      ensures if Db.Awaited(old(db.conn), old(db.promise), connect).Ok? && uid != ""
        then MeetingsRoute.IsListing(coll.meetings, uid, meetings)
        else meetings == old(meetings)
    {
      showShareModal := false;
      view := List;
      step := 1;
      FetchMeetings(db, coll, connect);
    }
  }
}
