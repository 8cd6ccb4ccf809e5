/** The Mongoose `Meeting` model: typed schema paths with defaults and required
    checks applied when a document is created, casts applied when an update is
    applied, and strict mode, under which undeclared fields are not stored. */
module MeetingSchema {
  import opened Js

  /** A poll as a client sends it; each field may be missing. */
  datatype PollInput = PollInput(question: Option<string>, options: seq<string>, createdAt: Option<int>)

  /** A JSON field value of a request body. Dates are already parsed to integers. */
  datatype Value = Str(s: string) | Time(t: int) | PollList(polls: seq<PollInput>)

  /** The paths of MeetingSchema. */
  datatype Path =
    | UserId | Title | Description | StartTime | EndTime | Attendees | PptUrl
    | Polls | Status | RecordingUrl | Transcription | Summary | CreatedAt

  /** The field name of a path. */
  function Name(p: Path): string {
    match p
    case UserId => "userId"
    case Title => "title"
    case Description => "description"
    case StartTime => "startTime"
    case EndTime => "endTime"
    case Attendees => "attendees"
    case PptUrl => "pptUrl"
    case Polls => "polls"
    case Status => "status"
    case RecordingUrl => "recordingUrl"
    case Transcription => "transcription"
    case Summary => "summary"
    case CreatedAt => "createdAt"
  }

  /** A field name of a JSON body: the name of a schema path, or any other name
      (`id`, `meetingLink`, ...). `_id`, the path Mongoose adds to every schema, is
      an `Other` name here: the model gives each document the id the database
      assigns. */
  datatype Key = Field(path: Path) | Other(name: string)

  /** A JSON request body: its fields by name. An absent key is `undefined`. */
  type Body = map<Key, Value>

  /** Distinct paths have distinct field names. */
  lemma NamesDistinct(p: Path, q: Path)
    ensures Name(p) == Name(q) ==> p == q
  {
    if Name(p) == Name(q) {
      assert Name(p)[0] == Name(q)[0] && |Name(p)| == |Name(q)|;
    }
  }

  /** JavaScript truthiness of `body[key]`: present and not the empty string. */
  predicate Truthy(body: Body, key: Key) {
    key in body && body[key] != Str("")
  }

  /** A stored poll (PollSchema): the question, the ordered options and the creation time. */
  datatype Poll = Poll(question: Option<string>, options: seq<string>, createdAt: int)

  /** A stored meeting document (MeetingSchema) with its `_id`. */
  datatype Meeting = Meeting(
    id: string,
    userId: string,
    title: string,
    description: string,
    startTime: string,
    endTime: string,
    attendees: string,
    pptUrl: string,
    polls: seq<Poll>,
    status: string,
    recordingUrl: Option<string>,
    transcription: Option<string>,
    summary: Option<string>,
    createdAt: int)

  /** The paths of type String: all but the poll list and the creation date. */
  predicate IsStringPath(p: Path) {
    !p.Polls? && !p.CreatedAt?
  }

  /** The paths marked `required: true`. */
  predicate Required(p: Path) {
    p.UserId? || p.Title? || p.StartTime? || p.EndTime?
  }

  /** The default of a String path: '' or 'scheduled', or none for the optional paths. */
  function StringDefault(p: Path): Option<string> {
    match p
    case Description | Attendees | PptUrl => Some("")
    case Status => Some("scheduled")
    case _ => None
  }

  /** The value a meeting holds at a String path (None when the path is unset). */
  function StoredString(m: Meeting, p: Path): Option<string> {
    match p
    case UserId => Some(m.userId)
    case Title => Some(m.title)
    case Description => Some(m.description)
    case StartTime => Some(m.startTime)
    case EndTime => Some(m.endTime)
    case Attendees => Some(m.attendees)
    case PptUrl => Some(m.pptUrl)
    case Status => Some(m.status)
    case RecordingUrl => m.recordingUrl
    case Transcription => m.transcription
    case Summary => m.summary
    case Polls | CreatedAt => None
  }

  /** Whether a value has the kind a path is declared with. */
  predicate KindFits(p: Path, v: Value) {
    match p
    case Polls => v.PollList?
    case CreatedAt => v.Time?
    case _ => v.Str?
  }

  datatype PathError = CastError(path: Path) | RequiredError(path: Path)

  /** The error Mongoose reports for one path: a cast error for a value of the wrong
      kind, and, when `validate` is set, a required error for a required String path
      that is absent or empty. */
  function PathErrorOf(body: Body, p: Path, validate: bool): Option<PathError> {
    if Field(p) in body && !KindFits(p, body[Field(p)]) then Some(CastError(p))
    else if validate && Required(p) && !Truthy(body, Field(p)) then Some(RequiredError(p))
    else None
  }

  /** The error of one path as a list of at most one element. */
  function PathErrors(body: Body, p: Path, validate: bool): (errs: seq<PathError>)
    ensures errs == [] <==> PathErrorOf(body, p, validate).None?
  {
    match PathErrorOf(body, p, validate)
    case Some(e) => [e]
    case None => []
  }

  /** The errors of all paths, in declaration order. */
  function CollectErrors(body: Body, validate: bool): (errs: seq<PathError>)
    ensures errs == [] <==> forall p: Path :: PathErrorOf(body, p, validate).None?
  {
    PathErrors(body, UserId, validate) + PathErrors(body, Title, validate)
    + PathErrors(body, Description, validate) + PathErrors(body, StartTime, validate)
    + PathErrors(body, EndTime, validate) + PathErrors(body, Attendees, validate)
    + PathErrors(body, PptUrl, validate) + PathErrors(body, Polls, validate)
    + PathErrors(body, Status, validate) + PathErrors(body, RecordingUrl, validate)
    + PathErrors(body, Transcription, validate) + PathErrors(body, Summary, validate)
    + PathErrors(body, CreatedAt, validate)
  }

  /** Two bodies with the same error at every path have the same list of errors. */
  lemma SameErrors(b1: Body, b2: Body, validate: bool)
    requires forall p: Path :: PathErrorOf(b1, p, validate) == PathErrorOf(b2, p, validate)
    ensures CollectErrors(b1, validate) == CollectErrors(b2, validate)
  {
    forall p: Path ensures PathErrors(b1, p, validate) == PathErrors(b2, p, validate) {
      assert PathErrorOf(b1, p, validate) == PathErrorOf(b2, p, validate);
    }
  }

  /** The errors that reject a document built from `body`. */
  function ValidationErrors(body: Body): seq<PathError> {
    CollectErrors(body, true)
  }

  function PathErrorText(e: PathError): string {
    match e
    case CastError(p) => Name(p) + ": Cast failed at path \"" + Name(p) + "\""
    case RequiredError(p) => Name(p) + ": Path `" + Name(p) + "` is required."
  }

  function JoinErrors(errs: seq<PathError>): string {
    if |errs| == 0 then ""
    else if |errs| == 1 then PathErrorText(errs[0])
    else PathErrorText(errs[0]) + ", " + JoinErrors(errs[1..])
  }

  /** The value a String path takes from `body`, or the path's default. */
  function StringField(body: Body, p: Path): Option<string> {
    if Field(p) in body && body[Field(p)].Str? then Some(body[Field(p)].s) else StringDefault(p)
  }

  /** A poll after casting: a missing `createdAt` defaults to the current time. */
  function CastPoll(p: PollInput, now: int): (r: Poll)
    ensures r.question == p.question && r.options == p.options
    ensures p.createdAt.Some? ==> r.createdAt == p.createdAt.value
    ensures p.createdAt.None? ==> r.createdAt == now
  {
    Poll(p.question, p.options, p.createdAt.GetOr(now))
  }

  function CastPolls(ps: seq<PollInput>, now: int): (r: seq<Poll>)
    ensures |r| == |ps|
    ensures forall i :: 0 <= i < |ps| ==> r[i] == CastPoll(ps[i], now)
  {
    seq(|ps|, i requires 0 <= i < |ps| => CastPoll(ps[i], now))
  }

  /** The document Mongoose builds from `body`: declared paths only, defaults applied. */
  function Build(body: Body, id: string, now: int): (m: Meeting)
    ensures m.id == id
    // The schema's defaults, for the paths that are absent.
    ensures Field(Description) !in body ==> m.description == ""
    ensures Field(Attendees) !in body ==> m.attendees == ""
    ensures Field(PptUrl) !in body ==> m.pptUrl == ""
    ensures Field(Status) !in body ==> m.status == "scheduled"
    ensures Field(RecordingUrl) !in body ==> m.recordingUrl.None?
    ensures Field(Transcription) !in body ==> m.transcription.None?
    ensures Field(Summary) !in body ==> m.summary.None?
    ensures Field(Polls) !in body ==> m.polls == []
    ensures Field(CreatedAt) !in body ==> m.createdAt == now
  {
    Meeting(
      id,
      StringField(body, UserId).GetOr(""),
      StringField(body, Title).GetOr(""),
      StringField(body, Description).GetOr(""),
      StringField(body, StartTime).GetOr(""),
      StringField(body, EndTime).GetOr(""),
      StringField(body, Attendees).GetOr(""),
      StringField(body, PptUrl).GetOr(""),
      if Field(Polls) in body && body[Field(Polls)].PollList? then CastPolls(body[Field(Polls)].polls, now) else [],
      StringField(body, Status).GetOr(""),
      StringField(body, RecordingUrl),
      StringField(body, Transcription),
      StringField(body, Summary),
      if Field(CreatedAt) in body && body[Field(CreatedAt)].Time? then body[Field(CreatedAt)].t else now)
  }

  /** `Meeting.create(body)`: the new document with the given `_id`, or the
      ValidationError that lists every failing path. */
  function Create(body: Body, id: string, now: int): (r: Outcome<Meeting>)
    ensures r.Ok? <==> ValidationErrors(body) == []
    ensures r.Ok? ==> r.value.id == id
    ensures r.Threw? ==> r.error.name == "ValidationError"
  {
    var errs := ValidationErrors(body);
    if errs == [] then Ok(Build(body, id, now))
    else Threw(JsError("ValidationError", "Meeting validation failed: " + JoinErrors(errs)))
  }

  /** Creation succeeds exactly when every required path holds a non-empty string and
      every declared path that is present holds a value of its declared kind. */
  lemma CreateSucceedsIff(body: Body, id: string, now: int)
    ensures Create(body, id, now).Ok? <==>
      && (forall p: Path :: Required(p) ==> Field(p) in body && body[Field(p)].Str? && body[Field(p)].s != "")
      && (forall p: Path :: Field(p) in body ==> KindFits(p, body[Field(p)]))
  {
    ValidIff(body);
  }

  /** A body has no validation errors exactly when every required path holds a
      non-empty string and every declared path present has its declared kind. */
  lemma ValidIff(body: Body)
    ensures ValidationErrors(body) == [] <==>
      && (forall p: Path :: Required(p) ==> Field(p) in body && body[Field(p)].Str? && body[Field(p)].s != "")
      && (forall p: Path :: Field(p) in body ==> KindFits(p, body[Field(p)]))
  {
    if ValidationErrors(body) == [] {
      forall p: Path ensures PathErrorOf(body, p, true).None? {
      }
    } else {
      var p :| PathErrorOf(body, p, true).Some?;
      assert (Field(p) in body && !KindFits(p, body[Field(p)])) || (Required(p) && !Truthy(body, Field(p)));
    }
  }

  /** A created meeting holds each String path as sent, or else the path's default:
      '' for description, attendees and pptUrl, 'scheduled' for status, unset for
      recordingUrl, transcription and summary. */
  lemma CreateStoresString(body: Body, id: string, now: int, p: Path)
    requires Create(body, id, now).Ok?
    requires IsStringPath(p)
    ensures var m := Create(body, id, now).value;
      && (Field(p) in body ==> body[Field(p)].Str? && StoredString(m, p) == Some(body[Field(p)].s))
      && (Field(p) !in body ==> !Required(p) && StoredString(m, p) == StringDefault(p))
  {
    assert PathErrorOf(body, p, true).None?;
  }

  /** startTime and endTime are stored as the strings sent, unparsed; a missing
      createdAt takes the creation time; the polls keep the order they were sent in,
      each missing poll createdAt taking the creation time too. */
  lemma CreateStoresTimesAndPolls(body: Body, id: string, now: int)
    requires Create(body, id, now).Ok?
    ensures var m := Create(body, id, now).value;
      && Field(StartTime) in body && body[Field(StartTime)] == Str(m.startTime)
      && Field(EndTime) in body && body[Field(EndTime)] == Str(m.endTime)
      && (Field(CreatedAt) in body ==> body[Field(CreatedAt)] == Time(m.createdAt))
      && (Field(CreatedAt) !in body ==> m.createdAt == now)
      && (Field(Polls) in body ==>
            && body[Field(Polls)].PollList?
            && |m.polls| == |body[Field(Polls)].polls|
            && forall i :: 0 <= i < |m.polls| ==> m.polls[i] == CastPoll(body[Field(Polls)].polls[i], now))
      && (Field(Polls) !in body ==> m.polls == [])
  {
    assert PathErrorOf(body, StartTime, true).None? && PathErrorOf(body, EndTime, true).None?;
    assert PathErrorOf(body, CreatedAt, true).None? && PathErrorOf(body, Polls, true).None?;
  }

  /** Strict mode: a field that is not a schema path has no effect on creation. The
      calendar link the dashboard sends as `meetingLink` is one such field. */
  lemma UndeclaredFieldIgnored(body: Body, name: string, id: string, now: int)
    requires name != "_id"
    ensures Create(body, id, now) == Create(body - {Other(name)}, id, now)
  {
    var b := body - {Other(name)};
    forall p: Path ensures PathErrorOf(body, p, true) == PathErrorOf(b, p, true) {
      assert Field(p) in body <==> Field(p) in b;
    }
    SameErrors(body, b, true);
    BuildIgnoresUndeclared(body, name, id, now);
  }

  /** The document built from a body does not depend on its `Other` keys. */
  lemma BuildIgnoresUndeclared(body: Body, name: string, id: string, now: int)
    ensures Build(body, id, now) == Build(body - {Other(name)}, id, now)
  {
    var b := body - {Other(name)};
    forall p: Path ensures StringField(body, p) == StringField(b, p) {
    }
    assert Field(Polls) in body ==> body[Field(Polls)] == b[Field(Polls)];
    assert Field(CreatedAt) in body ==> body[Field(CreatedAt)] == b[Field(CreatedAt)];
  }

  /** The cast errors of an update; updates do not run required validators. */
  function UpdateErrors(update: Body): seq<PathError> {
    CollectErrors(update, false)
  }

  /** The String value of a path after `update`: the new value when the update sets it. */
  function Updated(m: Meeting, update: Body, p: Path): Option<string> {
    if Field(p) in update && update[Field(p)].Str? then Some(update[Field(p)].s) else StoredString(m, p)
  }

  /** `{$set: update}` applied to a meeting: each declared path the update holds is
      overwritten, everything else stays. */
  function ApplyUpdate(m: Meeting, update: Body, now: int): (r: Meeting)
    ensures r.id == m.id
    ensures Field(CreatedAt) !in update ==> r.createdAt == m.createdAt
    ensures Field(Polls) !in update ==> r.polls == m.polls
  {
    m.(
      userId := Updated(m, update, UserId).GetOr(""),
      title := Updated(m, update, Title).GetOr(""),
      description := Updated(m, update, Description).GetOr(""),
      startTime := Updated(m, update, StartTime).GetOr(""),
      endTime := Updated(m, update, EndTime).GetOr(""),
      attendees := Updated(m, update, Attendees).GetOr(""),
      pptUrl := Updated(m, update, PptUrl).GetOr(""),
      polls := if Field(Polls) in update && update[Field(Polls)].PollList? then CastPolls(update[Field(Polls)].polls, now) else m.polls,
      status := Updated(m, update, Status).GetOr(""),
      recordingUrl := Updated(m, update, RecordingUrl),
      transcription := Updated(m, update, Transcription),
      summary := Updated(m, update, Summary),
      createdAt := if Field(CreatedAt) in update && update[Field(CreatedAt)].Time? then update[Field(CreatedAt)].t else m.createdAt)
  }

  /** An update that casts sets each String path it holds to the new value, an empty
      string included, since updates skip the required validators; a path it does not
      hold keeps its value. */
  lemma ApplyUpdateString(m: Meeting, update: Body, now: int, p: Path)
    requires UpdateErrors(update) == []
    requires IsStringPath(p)
    ensures var m' := ApplyUpdate(m, update, now);
      && (Field(p) in update ==> update[Field(p)].Str? && StoredString(m', p) == Some(update[Field(p)].s))
      && (Field(p) !in update ==> StoredString(m', p) == StoredString(m, p))
  {
    assert PathErrorOf(update, p, false).None?;
  }

  /** An update keeps the `_id`, and keeps createdAt and the polls unless it sets them. */
  lemma ApplyUpdateKeeps(m: Meeting, update: Body, now: int)
    requires UpdateErrors(update) == []
    ensures var m' := ApplyUpdate(m, update, now);
      && m'.id == m.id
      && (Field(CreatedAt) in update ==> update[Field(CreatedAt)] == Time(m'.createdAt))
      && (Field(CreatedAt) !in update ==> m'.createdAt == m.createdAt)
      && (Field(Polls) in update ==> update[Field(Polls)].PollList? && m'.polls == CastPolls(update[Field(Polls)].polls, now))
      && (Field(Polls) !in update ==> m'.polls == m.polls)
  {
    assert PathErrorOf(update, CreatedAt, false).None? && PathErrorOf(update, Polls, false).None?;
  }

  /** Strict mode for updates: a field that is not a schema path has no effect. */
  lemma UpdateIgnoresUndeclared(update: Body, name: string)
    requires name != "_id"
    ensures UpdateErrors(update) == UpdateErrors(update - {Other(name)})
  {
    var u := update - {Other(name)};
    forall p: Path ensures PathErrorOf(update, p, false) == PathErrorOf(u, p, false) {
      assert Field(p) in update <==> Field(p) in u;
    }
    SameErrors(update, u, false);
  }

  /** Strict mode for updates: applying an update with or without an undeclared
      field gives the same document. */
  lemma ApplyUpdateIgnoresUndeclared(m: Meeting, update: Body, name: string, now: int)
    requires name != "_id"
    ensures ApplyUpdate(m, update, now) == ApplyUpdate(m, update - {Other(name)}, now)
  {
    var u := update - {Other(name)};
    forall p: Path ensures Updated(m, update, p) == Updated(m, u, p) {
    }
    var polls := if Field(Polls) in update && update[Field(Polls)].PollList? then CastPolls(update[Field(Polls)].polls, now) else m.polls;
    assert polls == if Field(Polls) in u && u[Field(Polls)].PollList? then CastPolls(u[Field(Polls)].polls, now) else m.polls;
    assert Field(CreatedAt) in update ==> update[Field(CreatedAt)] == u[Field(CreatedAt)];
  }

  /** A PUT repeated later leaves what the later one sets: applying an update twice is
      applying it once, at the later time (which only a poll without its own
      createdAt records). */
  lemma RepeatedUpdateAbsorbs(m: Meeting, update: Body, first: int, later: int)
    ensures ApplyUpdate(ApplyUpdate(m, update, first), update, later) == ApplyUpdate(m, update, later)
  {
    var m1 := ApplyUpdate(m, update, first);
    forall p: Path | IsStringPath(p) ensures Updated(m1, update, p) == Updated(m, update, p) {
      StoredAfterUpdate(m, update, first, p);
    }
    var a, b := ApplyUpdate(m1, update, later), ApplyUpdate(m, update, later);
    assert a.userId == b.userId && a.title == b.title && a.description == b.description;
    assert a.startTime == b.startTime && a.endTime == b.endTime && a.attendees == b.attendees;
    assert a.pptUrl == b.pptUrl && a.status == b.status && a.recordingUrl == b.recordingUrl;
    assert a.transcription == b.transcription && a.summary == b.summary;
  }

  /** After an update a String path holds what `Updated` gives. */
  lemma StoredAfterUpdate(m: Meeting, update: Body, now: int, p: Path)
    requires IsStringPath(p)
    ensures StoredString(ApplyUpdate(m, update, now), p) == Updated(m, update, p)
  {
  }

  /** An update casts exactly when every schema path it holds has a value of the
      path's declared kind. */
  lemma UpdateCastsIff(update: Body)
    ensures UpdateErrors(update) == [] <==> forall p: Path :: Field(p) in update ==> KindFits(p, update[Field(p)])
  {
    if UpdateErrors(update) == [] {
      forall p: Path ensures Field(p) in update ==> KindFits(p, update[Field(p)]) {
        assert PathErrorOf(update, p, false).None?;
      }
    } else {
      var p :| PathErrorOf(update, p, false).Some?;
    }
  }

  /** A stored ObjectId: 24 lower-case hexadecimal digits. */
  predicate IsStoredId(s: string) {
    |s| == 24 && forall i :: 0 <= i < |s| ==> ('0' <= s[i] <= '9' || 'a' <= s[i] <= 'f')
  }

  predicate IsHexDigit(c: char) {
    '0' <= c <= '9' || 'a' <= c <= 'f' || 'A' <= c <= 'F'
  }

  /** A string that casts to an ObjectId: 24 hexadecimal digits of either case. */
  predicate IsObjectIdText(s: string) {
    |s| == 24 && forall i :: 0 <= i < |s| ==> IsHexDigit(s[i])
  }

  function LowerHex(c: char): char {
    if 'A' <= c <= 'F' then (c as int - 'A' as int + 'a' as int) as char else c
  }

  /** The ObjectId a hexadecimal string casts to, in its stored lower-case form. */
  function CastObjectId(s: string): (id: string)
    requires IsObjectIdText(s)
    ensures IsStoredId(id)
    ensures IsStoredId(s) ==> id == s
    ensures forall i :: 0 <= i < |s| ==> id[i] == LowerHex(s[i])
  {
    seq(|s|, i requires 0 <= i < |s| => LowerHex(s[i]))
  }
}
