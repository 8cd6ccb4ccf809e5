/** The `/api/meetings` route: POST creates a meeting, GET lists one user's meetings
    newest first, PUT updates a meeting by id, OPTIONS answers CORS preflight. Each
    handler first awaits the connection cache; the Meeting collection is an in-memory
    map from `_id` to document. */
module MeetingsRoute {
  import opened Js
  import opened MeetingSchema
  import Db

  type Header = (string, string)

  /** The CORS headers every response of the route carries. */
  const CorsHeaders: seq<Header> := [
    ("Access-Control-Allow-Origin", "*"),
    ("Access-Control-Allow-Methods", "GET, POST, PUT, DELETE, OPTIONS"),
    ("Access-Control-Allow-Headers", "Content-Type, Authorization")]

  /** The `data` of a successful response: one document, a list, or `null`. */
  datatype Data = One(meeting: Meeting) | Many(meetings: seq<Meeting>) | NoMeeting

  /** `{success: true, data}`, `{success: false, error}`, or `{}`. */
  datatype Payload = Succeeded(data: Data) | Failed(error: string) | EmptyObject

  datatype Response = Response(status: nat, payload: Payload, headers: seq<Header>)

  /** `NextResponse.json(payload, { status, headers: corsHeaders })`. */
  function Reply(status: nat, payload: Payload): Response {
    Response(status, payload, CorsHeaders)
  }

  /** Sorted by `createdAt`, newest first. */
  predicate NewestFirst(ms: seq<Meeting>) {
    forall i, j :: 0 <= i < j < |ms| ==> ms[i].createdAt >= ms[j].createdAt
  }

  /** Every meeting of the list is at most as recent as `t`. */
  predicate NoNewerThan(ms: seq<Meeting>, t: int) {
    forall i :: 0 <= i < |ms| ==> ms[i].createdAt <= t
  }

  /** Inserts `m` into a newest-first list, after every meeting at least as recent. */
  function InsertNewestFirst(ms: seq<Meeting>, m: Meeting): (r: seq<Meeting>)
    requires NewestFirst(ms)
    ensures NewestFirst(r)
    ensures |r| == |ms| + 1
    ensures forall x :: x in r <==> x in ms || x == m
    ensures forall t :: NoNewerThan(ms, t) && m.createdAt <= t ==> NoNewerThan(r, t)
  {
    if ms == [] then [m]
    else if ms[0].createdAt < m.createdAt then [m] + ms
    else
      var rest := InsertNewestFirst(ms[1..], m);
      assert NoNewerThan(ms[1..], ms[0].createdAt);
      assert ms == [ms[0]] + ms[1..];
      [ms[0]] + rest
  }

  /** The ids of the meetings of `userId` among the given ids. */
  function UserIds(store: map<string, Meeting>, ids: set<string>, userId: string): set<string>
    requires ids <= store.Keys
  {
    set id | id in ids && store[id].userId == userId
  }

  /** Taking one more id into account adds one user id exactly when it is the user's. */
  lemma UserIdsStep(store: map<string, Meeting>, seen: set<string>, id: string, userId: string)
    requires seen <= store.Keys && id in store && id !in seen
    ensures |UserIds(store, seen + {id}, userId)| == |UserIds(store, seen, userId)| + (if store[id].userId == userId then 1 else 0)
  {
    if store[id].userId == userId {
      assert UserIds(store, seen + {id}, userId) == UserIds(store, seen, userId) + {id};
    } else {
      assert UserIds(store, seen + {id}, userId) == UserIds(store, seen, userId);
    }
  }

  /** `ms` lists, newest first, exactly the meetings of `userId` whose ids are in `seen`. */
  ghost predicate PartialListing(store: map<string, Meeting>, seen: set<string>, userId: string, ms: seq<Meeting>)
    requires seen <= store.Keys
  {
    && (forall x :: x in ms ==> x.id in seen && store[x.id] == x && x.userId == userId)
    && (forall id :: id in seen && store[id].userId == userId ==> store[id] in ms)
    && |ms| == |UserIds(store, seen, userId)|
    && NewestFirst(ms)
  }

  /** `ms` is the answer to `find({ userId }).sort({ createdAt: -1 })`: the meetings of
      that user, each exactly once, newest first. */
  ghost predicate IsListing(store: map<string, Meeting>, userId: string, ms: seq<Meeting>) {
    PartialListing(store, store.Keys, userId, ms)
  }

  /** One step of the listing loop: the meeting under a new id is inserted when it is
      the user's, and the list then covers that id too. */
  lemma ListingStep(store: map<string, Meeting>, seen: set<string>, userId: string, ms: seq<Meeting>, id: string)
    requires forall k :: k in store ==> store[k].id == k
    requires seen <= store.Keys && id in store && id !in seen
    requires PartialListing(store, seen, userId, ms)
    ensures var m := store[id];
      PartialListing(store, seen + {id}, userId, if m.userId == userId then InsertNewestFirst(ms, m) else ms)
  {
    var m := store[id];
    UserIdsStep(store, seen, id, userId);
    var ms' := if m.userId == userId then InsertNewestFirst(ms, m) else ms;
    forall x | x in ms' ensures x.id in seen + {id} && store[x.id] == x && x.userId == userId {
      if x != m || m.userId != userId {
        assert x in ms;
      }
    }
  }

  /** Taking `id` off the ids left to do adds it to the ids done. */
  lemma LeftToDo(all: set<string>, todo: set<string>, id: string)
    requires todo <= all && id in todo
    ensures all - todo + {id} == all - (todo - {id})
  {
  }

  /** The message Mongoose gives when an id does not cast to an ObjectId. */
  function ObjectIdCastMessage(s: string): string {
    "Cast to ObjectId failed for value \"" + s + "\" (type string) at path \"_id\" for model \"Meeting\""
  }

  /** The `_id` filter `findByIdAndUpdate` casts from the `id` of a PUT body: no id
      matches nothing; a 24-digit hexadecimal string is an ObjectId; anything else is
      a CastError. */
  function CastIdFilter(id: Option<Value>): (r: Outcome<Option<string>>)
    ensures r.Ok? && r.value.Some? ==> IsStoredId(r.value.value)
    ensures r.Threw? <==> id.Some? && !(id.value.Str? && IsObjectIdText(id.value.s))
  {
    match id
    case None => Ok(None)
    case Some(Str(s)) =>
      if IsObjectIdText(s) then Ok(Some(CastObjectId(s)))
      else Threw(JsError("CastError", ObjectIdCastMessage(s)))
    case Some(_) => Threw(JsError("CastError", "Cast to ObjectId failed at path \"_id\" for model \"Meeting\""))
  }

  /** The Meeting collection. */
  class MeetingCollection {
    var meetings: map<string, Meeting>

    /** Every document is stored under its own `_id`, an ObjectId. */
    ghost predicate Valid()
      reads this
    {
      forall id :: id in meetings ==> meetings[id].id == id && IsStoredId(id)
    }

    constructor ()
      ensures Valid() && meetings == map[]
    {
      meetings := map[];
    }

    /** `Meeting.create(body)` with the fresh `_id` the database assigns. */
    method Create(body: Body, freshId: string, now: int) returns (r: Outcome<Meeting>)
      requires Valid()
      requires IsStoredId(freshId) && freshId !in meetings
      modifies this
      ensures Valid()
      ensures r == MeetingSchema.Create(body, freshId, now)
      ensures r.Ok? ==> meetings == old(meetings)[freshId := r.value]
      ensures r.Threw? ==> meetings == old(meetings)
    {
      r := MeetingSchema.Create(body, freshId, now);
      if r.Ok? {
        meetings := meetings[freshId := r.value];
      }
    }

    /** `Meeting.find({ userId }).sort({ createdAt: -1 })`. */
    method FindByUser(userId: string) returns (ms: seq<Meeting>)
      requires Valid()
      ensures IsListing(meetings, userId, ms)
    {
      ms := [];
      var todo := meetings.Keys;
      while todo != {}
        invariant todo <= meetings.Keys
        invariant PartialListing(meetings, meetings.Keys - todo, userId, ms)
        decreases |todo|
      {
        var id :| id in todo;
        var m := meetings[id];
        ListingStep(meetings, meetings.Keys - todo, userId, ms, id);
        LeftToDo(meetings.Keys, todo, id);
        if m.userId == userId {
          ms := InsertNewestFirst(ms, m);
        }
        todo := todo - {id};
      }
      assert meetings.Keys - todo == meetings.Keys;
    }

    /** `Meeting.findByIdAndUpdate(id, update, { new: true })`: the filter is cast,
        then the update; an update that casts is applied to the matching document,
        which is returned, and a filter that matches nothing yields `null`. */
    method FindByIdAndUpdate(id: Option<Value>, update: Body, now: int) returns (r: Outcome<Option<Meeting>>)
      requires Valid()
      modifies this
      ensures Valid()
      ensures meetings.Keys == old(meetings).Keys
      ensures CastIdFilter(id).Threw? ==> r == Threw(CastIdFilter(id).error) && meetings == old(meetings)
      ensures CastIdFilter(id).Ok? && UpdateErrors(update) != [] ==> r.Threw? && r.error.name == "CastError" && meetings == old(meetings)
      ensures CastIdFilter(id).Ok? && UpdateErrors(update) == [] ==>
        var key := CastIdFilter(id).value;
        if key.Some? && key.value in old(meetings) then
          var m' := ApplyUpdate(old(meetings)[key.value], update, now);
          r == Ok(Some(m')) && meetings == old(meetings)[key.value := m']
        else
          r == Ok(None) && meetings == old(meetings)
    {
      var key := CastIdFilter(id);
      if key.Threw? {
        return Threw(key.error);
      }
      var errs := UpdateErrors(update);
      if errs != [] {
        return Threw(JsError("CastError", JoinErrors(errs)));
      }
      if key.value.None? || key.value.value !in meetings {
        return Ok(None);
      }
      var k := key.value.value;
      var m' := ApplyUpdate(meetings[k], update, now);
      ApplyUpdateKeeps(meetings[k], update, now);
      meetings := meetings[k := m'];
      r := Ok(Some(m'));
    }
  }

  /** `OPTIONS`: an empty object with the CORS headers. */
  function Options(): (r: Response)
    ensures r.status == 200 && r.payload == EmptyObject && r.headers == CorsHeaders
  {
    Reply(200, EmptyObject)
  }

  /** `POST /api/meetings`. After the connection and the JSON body, a missing or empty
      `userId` or `title` is refused with 400 and nothing is stored; any other body
      goes to `Meeting.create`, whose document is stored and returned, and whose
      rejection (a missing startTime, say) is reported as 500. */
  method Post(db: Db.ConnectionCache, coll: MeetingCollection, connect: Outcome<Db.Connection>,
              body: Outcome<Body>, freshId: string, now: int) returns (r: Response)
    requires db.Valid() && coll.Valid()
    requires IsStoredId(freshId) && freshId !in coll.meetings
    modifies db, coll
    ensures db.Valid() && coll.Valid()
    ensures r.headers == CorsHeaders
    ensures (db.conn, db.promise) == Db.Settled(old(db.conn), old(db.promise), connect)
    ensures
      var a := Db.Awaited(old(db.conn), old(db.promise), connect);
      if a.Threw? then r == Reply(500, Failed(a.error.message)) && coll.meetings == old(coll.meetings)
      else if body.Threw? then r == Reply(500, Failed(body.error.message)) && coll.meetings == old(coll.meetings)
      else if !Truthy(body.value, Field(UserId)) || !Truthy(body.value, Field(Title)) then
        r == Reply(400, Failed("Missing fields")) && coll.meetings == old(coll.meetings)
      else match MeetingSchema.Create(body.value, freshId, now)
        case Ok(m) => r == Reply(200, Succeeded(One(m))) && coll.meetings == old(coll.meetings)[freshId := m]
        case Threw(e) => r == Reply(500, Failed(e.message)) && coll.meetings == old(coll.meetings)
  {
    var c, _ := db.Connect(connect);
    if c.Threw? {
      return Reply(500, Failed(c.error.message));
    }
    if body.Threw? {
      return Reply(500, Failed(body.error.message));
    }
    var b := body.value;
    if !Truthy(b, Field(UserId)) || !Truthy(b, Field(Title)) {
      return Reply(400, Failed("Missing fields"));
    }
    var created := coll.Create(b, freshId, now);
    match created
    case Ok(m) =>
      r := Reply(200, Succeeded(One(m)));
    case Threw(e) =>
      r := Reply(500, Failed(e.message));
  }

  /** `GET /api/meetings?userId=...`. After the connection, a missing or empty
      `userId` is refused with 400; otherwise the user's meetings, newest first. */
  method Get(db: Db.ConnectionCache, coll: MeetingCollection, connect: Outcome<Db.Connection>,
             userId: Option<string>) returns (r: Response)
    requires db.Valid() && coll.Valid()
    modifies db
    ensures db.Valid()
    ensures r.headers == CorsHeaders
    ensures (db.conn, db.promise) == Db.Settled(old(db.conn), old(db.promise), connect)
    ensures
      var a := Db.Awaited(old(db.conn), old(db.promise), connect);
      if a.Threw? then r == Reply(500, Failed(a.error.message))
      else if userId.None? || userId.value == "" then r == Reply(400, Failed("No User ID"))
      else
        && r.status == 200 && r.payload.Succeeded? && r.payload.data.Many?
        && IsListing(coll.meetings, userId.value, r.payload.data.meetings)
  {
    var c, _ := db.Connect(connect);
    if c.Threw? {
      return Reply(500, Failed(c.error.message));
    }
    if userId.None? || userId.value == "" {
      return Reply(400, Failed("No User ID"));
    }
    var ms := coll.FindByUser(userId.value);
    r := Reply(200, Succeeded(Many(ms)));
  }

  /** `PUT /api/meetings`. After the connection and the JSON body, the body's `id`
      is taken out and the remaining fields are applied to the meeting with that id.
      The reply is `success: true` with the updated meeting, or with `data: null`
      when no meeting has that id; a cast error is reported as 500. */
  method Put(db: Db.ConnectionCache, coll: MeetingCollection, connect: Outcome<Db.Connection>,
             body: Outcome<Body>, now: int) returns (r: Response)
    requires db.Valid() && coll.Valid()
    modifies db, coll
    ensures db.Valid() && coll.Valid()
    ensures r.headers == CorsHeaders
    ensures (db.conn, db.promise) == Db.Settled(old(db.conn), old(db.promise), connect)
    ensures coll.meetings.Keys == old(coll.meetings).Keys
    ensures
      var a := Db.Awaited(old(db.conn), old(db.promise), connect);
      if a.Threw? then r == Reply(500, Failed(a.error.message)) && coll.meetings == old(coll.meetings)
      else if body.Threw? then r == Reply(500, Failed(body.error.message)) && coll.meetings == old(coll.meetings)
      else
        var b := body.value;
        var filter := CastIdFilter(if Other("id") in b then Some(b[Other("id")]) else None);
        var update := b - {Other("id")};
        if filter.Threw? then r == Reply(500, Failed(filter.error.message)) && coll.meetings == old(coll.meetings)
        else if UpdateErrors(update) != [] then r.status == 500 && r.payload.Failed? && coll.meetings == old(coll.meetings)
        else if filter.value.Some? && filter.value.value in old(coll.meetings) then
          var k := filter.value.value;
          var m' := ApplyUpdate(old(coll.meetings)[k], update, now);
          r == Reply(200, Succeeded(One(m'))) && coll.meetings == old(coll.meetings)[k := m']
        else r == Reply(200, Succeeded(NoMeeting)) && coll.meetings == old(coll.meetings)
  {
    var c, _ := db.Connect(connect);
    if c.Threw? {
      return Reply(500, Failed(c.error.message));
    }
    if body.Threw? {
      return Reply(500, Failed(body.error.message));
    }
    var b := body.value;
    var id := if Other("id") in b then Some(b[Other("id")]) else None;
    var update := b - {Other("id")};
    var res := coll.FindByIdAndUpdate(id, update, now);
    match res
    case Ok(found) =>
      r := Reply(200, Succeeded(if found.Some? then One(found.value) else NoMeeting));
    case Threw(e) =>
      r := Reply(500, Failed(e.message));
  }

  /** The route's guard is weaker than the schema: a body with a userId and a title
      but no startTime passes the 400 check and is then refused by `Meeting.create`. */
  lemma GuardWeakerThanSchema(b: Body, id: string, now: int)
    requires Truthy(b, Field(UserId)) && Truthy(b, Field(Title)) && !Truthy(b, Field(StartTime))
    ensures MeetingSchema.Create(b, id, now).Threw?
  {
    CreateSucceedsIff(b, id, now);
    assert Required(StartTime);
  }
}
