/**
 * The request handlers of the academy API: listing courses and instructors
 * (with the record cleaning and the static fallback lists), acknowledging
 * enrollment applications, the health snapshot and the root ping.
 *
 * The document store is an outside collaborator. Each call to it is a
 * parameter standing for what it did: a fetch either failed or handed over
 * records, and an insert either stored the payload or failed.
 */
module Main {
  import opened Values
  import opened Schemas

  // ---------------------------------------------------------------------
  // Root ping

  const RootMessage := "Academy API is running"

  /** `GET /`: a fixed payload. */
  function ReadRoot(): (r: Document)
    ensures r.Keys == {"message"}
    ensures r["message"] == Str(RootMessage)
  {
    map["message" := Str(RootMessage)]
  }

  // ---------------------------------------------------------------------
  // Record cleaning

  /** The keys the store adds to each record and the public schemas omit. */
  const StoreKeys: set<string> := {"_id", "created_at", "updated_at"}

  /** A record fetched from the store: a dict the handler changes in place. */
  class Doc {
    var fields: Document

    constructor (fields: Document)
      ensures this.fields == fields
    {
      this.fields := fields;
    }

    /** `d.pop(key, None)`: removes `key` and gives back what it held. */
    method Pop(key: string) returns (removed: Option<Value>)
      modifies this
      ensures fields == old(fields) - {key}
      ensures removed == if key in old(fields) then Some(old(fields)[key]) else None
    {
      removed := if key in fields then Some(fields[key]) else None;
      fields := fields - {key};
    }
  }

  /** A record with the store's keys taken out. */
  function Strip(d: Document): Document
  {
    d - StoreKeys
  }

  /** Stripping removes exactly the store's keys and keeps every other
      key with its value. */
  lemma StripKeepsOthers(d: Document)
    ensures Strip(d).Keys == d.Keys - StoreKeys
    ensures forall k :: k in Strip(d) ==> Strip(d)[k] == d[k]
    ensures Strip(d).Keys !! StoreKeys
  {
  }

  /** Stripping a stripped record changes nothing. */
  lemma StripIdempotent(d: Document)
    ensures Strip(Strip(d)) == Strip(d)
  {
    assert Strip(Strip(d)).Keys == Strip(d).Keys;
  }

  /** The three pops of the handlers' loop remove the store's keys. */
  lemma ThreePopsStrip(d: Document)
    ensures d - {"_id"} - {"created_at"} - {"updated_at"} == Strip(d)
  {
    assert (d - {"_id"} - {"created_at"} - {"updated_at"}).Keys == Strip(d).Keys;
  }

  /** The response of a successful listing: every record stripped, in order. */
  function CleanAll(ds: seq<Document>): (r: seq<Document>)
    ensures |r| == |ds|
    ensures forall i :: 0 <= i < |ds| ==> r[i] == Strip(ds[i])
  {
    if ds == [] then [] else [Strip(ds[0])] + CleanAll(ds[1..])
  }

  /** No cleaned record holds a store key, and each keeps all its other
      entries unchanged. */
  lemma CleanedRecords(ds: seq<Document>, i: nat, k: string)
    requires i < |ds|
    ensures |CleanAll(ds)| == |ds|
    ensures k in StoreKeys ==> k !in CleanAll(ds)[i]
    ensures k !in StoreKeys ==> (k in CleanAll(ds)[i] <==> k in ds[i])
    ensures k !in StoreKeys && k in ds[i] ==> CleanAll(ds)[i][k] == ds[i][k]
  {
  }

  /** Cleaning the response of a listing again gives the same response. */
  lemma {:induction false} CleanAllIdempotent(ds: seq<Document>)
    ensures CleanAll(CleanAll(ds)) == CleanAll(ds)
  {
    if ds != [] {
      StripIdempotent(ds[0]);
      CleanAllIdempotent(ds[1..]);
      assert CleanAll(ds)[1..] == CleanAll(ds[1..]);
    }
  }

  /** Cleaning never changes whether a record is a valid Course: the keys it
      removes are not Course fields. */
  lemma StripKeepsCourseValidation(d: Document, isUrl: string -> bool)
    ensures ValidateCourse(Strip(d), isUrl) == ValidateCourse(d, isUrl)
  {
    forall k | k in CourseKeys ensures (k in Strip(d) <==> k in d) && (k in d ==> Strip(d)[k] == d[k]) {
      assert k !in StoreKeys;
    }
    CourseIgnoresOtherKeys(Strip(d), d, isUrl);
  }

  /** Cleaning never changes whether a record is a valid Instructor either. */
  lemma StripKeepsInstructorValidation(d: Document, isUrl: string -> bool)
    ensures ValidateInstructor(Strip(d), isUrl) == ValidateInstructor(d, isUrl)
  {
    forall k | k in InstructorKeys ensures (k in Strip(d) <==> k in d) && (k in d ==> Strip(d)[k] == d[k]) {
      assert k !in StoreKeys;
    }
    InstructorIgnoresOtherKeys(Strip(d), d, isUrl);
  }

  /** The current contents of a list of records. */
  function Snapshot(docs: seq<Doc>): (r: seq<Document>)
    reads docs
    ensures |r| == |docs|
    ensures forall i :: 0 <= i < |docs| ==> r[i] == docs[i].fields
  {
    if docs == [] then [] else [docs[0].fields] + Snapshot(docs[1..])
  }

  /** The loop shared by both list handlers: pops `_id`, `created_at` and
      `updated_at` from each fetched record in place and collects the same
      records, in order. A record listed twice is simply cleaned twice. */
  method CleanInPlace(docs: seq<Doc>) returns (clean: seq<Doc>)
    modifies docs
    ensures clean == docs
    ensures forall i :: 0 <= i < |docs| ==> docs[i].fields == Strip(old(docs[i].fields))
    ensures Snapshot(clean) == CleanAll(old(Snapshot(docs)))
  {
    clean := [];
    var i := 0;
    while i < |docs|
      invariant 0 <= i <= |docs|
      invariant clean == docs[..i]
      invariant forall k :: 0 <= k < i ==> docs[k].fields == Strip(old(docs[k].fields))
      invariant forall k :: i <= k < |docs| ==>
        docs[k].fields == old(docs[k].fields) || docs[k].fields == Strip(old(docs[k].fields))
    {
      var d := docs[i];
      ghost var before := d.fields;
      var _ := d.Pop("_id");
      var _ := d.Pop("created_at");
      var _ := d.Pop("updated_at");
      ThreePopsStrip(before);
      StripIdempotent(old(d.fields));
      clean := clean + [d];
      i := i + 1;
    }
  }

  // ---------------------------------------------------------------------
  // Listing handlers

  /** What `get_documents(collection, limit=50)` did: it raised, or it
      handed over the records. */
  datatype Fetch = FetchFailed | Fetched(records: seq<Doc>)
  {
    /** The records the handler may change. */
    function Records(): seq<Doc>
    {
      if Fetched? then records else []
    }
  }

  /** The courses shown when the store cannot be read. */
  const FallbackCourses: seq<Document> := [
    map[
      "title" := Str("Full-Stack Web Development"),
      "summary" := Str("Learn React, FastAPI, databases, and deployment."),
      "duration_weeks" := Int(12),
      "level" := Str("Beginner"),
      "tags" := List([Str("react"), Str("python"), Str("api")]),
      "thumbnail" := Null
    ],
    map[
      "title" := Str("Data Science Fundamentals"),
      "summary" := Str("Statistics, Python, Pandas, and visualization."),
      "duration_weeks" := Int(10),
      "level" := Str("Intermediate"),
      "tags" := List([Str("pandas"), Str("numpy"), Str("viz")]),
      "thumbnail" := Null
    ]
  ]

  /** The instructors shown when the store cannot be read. */
  const FallbackInstructors: seq<Document> := [
    map[
      "name" := Str("Alex Rivera"),
      "title" := Str("Senior Software Engineer"),
      "bio" := Str("10+ years building scalable web apps."),
      "avatar" := Null,
      "specialties" := List([Str("React"), Str("FastAPI"), Str("DevOps")])
    ],
    map[
      "name" := Str("Maya Chen"),
      "title" := Str("Data Scientist"),
      "bio" := Str("Data wrangler and storyteller."),
      "avatar" := Null,
      "specialties" := List([Str("Pandas"), Str("ML"), Str("Visualization")])
    ]
  ]

  /** `GET /api/courses`: the fetched course records cleaned in place, or the
      fallback courses when the fetch failed. */
  method ListCourses(fetch: Fetch) returns (body: seq<Document>)
    modifies fetch.Records()
    ensures fetch.FetchFailed? ==> body == FallbackCourses
    ensures fetch.Fetched? ==> body == CleanAll(old(Snapshot(fetch.records)))
    ensures fetch.Fetched? ==> Snapshot(fetch.records) == body
  {
    match fetch
    case FetchFailed =>
      body := FallbackCourses;
    case Fetched(docs) =>
      var clean := CleanInPlace(docs);
      body := Snapshot(clean);
  }

  /** `GET /api/instructors`: the fetched instructor records cleaned in
      place, or the fallback instructors when the fetch failed. */
  method ListInstructors(fetch: Fetch) returns (body: seq<Document>)
    modifies fetch.Records()
    ensures fetch.FetchFailed? ==> body == FallbackInstructors
    ensures fetch.Fetched? ==> body == CleanAll(old(Snapshot(fetch.records)))
    ensures fetch.Fetched? ==> Snapshot(fetch.records) == body
  {
    match fetch
    case FetchFailed =>
      body := FallbackInstructors;
    case Fetched(docs) =>
      var clean := CleanInPlace(docs);
      body := Snapshot(clean);
  }

  /** Both fallback courses are valid Courses, whatever URL check is used,
      and validate to exactly the literal values. */
  lemma FallbackCoursesAreValid(isUrl: string -> bool)
    ensures |FallbackCourses| == 2
    ensures ValidateCourse(FallbackCourses[0], isUrl) == Ok(Course(
      "Full-Stack Web Development", "Learn React, FastAPI, databases, and deployment.",
      12, "Beginner", ["react", "python", "api"], None))
    ensures ValidateCourse(FallbackCourses[1], isUrl) == Ok(Course(
      "Data Science Fundamentals", "Statistics, Python, Pandas, and visualization.",
      10, "Intermediate", ["pandas", "numpy", "viz"], None))
  {
    var c0 := Course("Full-Stack Web Development", "Learn React, FastAPI, databases, and deployment.",
      12, "Beginner", ["react", "python", "api"], None);
    var c1 := Course("Data Science Fundamentals", "Statistics, Python, Pandas, and visualization.",
      10, "Intermediate", ["pandas", "numpy", "viz"], None);
    assert StringList(c0.tags).items == [Str("react"), Str("python"), Str("api")];
    assert c0.ToDocument() == FallbackCourses[0];
    assert StringList(c1.tags).items == [Str("pandas"), Str("numpy"), Str("viz")];
    assert c1.ToDocument() == FallbackCourses[1];
    CourseRoundTrip(c0, isUrl);
    CourseRoundTrip(c1, isUrl);
  }

  /** Both fallback instructors are valid Instructors. */
  lemma FallbackInstructorsAreValid(isUrl: string -> bool)
    ensures |FallbackInstructors| == 2
    ensures ValidateInstructor(FallbackInstructors[0], isUrl) == Ok(Instructor(
      "Alex Rivera", "Senior Software Engineer", "10+ years building scalable web apps.",
      None, ["React", "FastAPI", "DevOps"]))
    ensures ValidateInstructor(FallbackInstructors[1], isUrl) == Ok(Instructor(
      "Maya Chen", "Data Scientist", "Data wrangler and storyteller.",
      None, ["Pandas", "ML", "Visualization"]))
  {
    var i0 := Instructor("Alex Rivera", "Senior Software Engineer", "10+ years building scalable web apps.",
      None, ["React", "FastAPI", "DevOps"]);
    var i1 := Instructor("Maya Chen", "Data Scientist", "Data wrangler and storyteller.",
      None, ["Pandas", "ML", "Visualization"]);
    assert StringList(i0.specialties).items == [Str("React"), Str("FastAPI"), Str("DevOps")];
    assert i0.ToDocument() == FallbackInstructors[0];
    assert StringList(i1.specialties).items == [Str("Pandas"), Str("ML"), Str("Visualization")];
    assert i1.ToDocument() == FallbackInstructors[1];
    InstructorRoundTrip(i0, isUrl);
    InstructorRoundTrip(i1, isUrl);
  }

  // ---------------------------------------------------------------------
  // Enrollment

  /** The reply to an enrollment application. */
  datatype Ack = Ack(ok: bool, message: string)

  const Received := "Application received. We'll reach out soon!"
  const TemporaryMode := "Application received! (temporary mode)"

  /** `POST /api/enroll` once the body is a valid Enrollment: hands the
      payload to the store's insert (`insert(collection, record)` tells
      whether it was stored) and always acknowledges. */
  function ApplyEnrollment(payload: Enrollment, insert: (string, Document) -> bool): (r: Ack)
    ensures r.ok
    ensures r.message == Received <==> insert(CollectionName("Enrollment"), payload.ToDocument())
    ensures r.message == TemporaryMode <==> !insert(CollectionName("Enrollment"), payload.ToDocument())
  {
    EnrollmentCollection();
    if insert("enrollment", payload.ToDocument()) then Ack(true, Received) else Ack(true, TemporaryMode)
  }

  /** `POST /api/enroll` from the raw body: an invalid body is refused with
      every violated field before the store is called; a valid one is
      always acknowledged. */
  function SubmitEnrollment(body: Document, isEmail: string -> bool, insert: (string, Document) -> bool)
    : (r: Result<Ack, seq<Violation>>)
    ensures r.Err? <==> EnrollmentFailures(body, isEmail) != {}
    ensures r.Err? ==> Fields(r.error) == EnrollmentFailures(body, isEmail)
    ensures r.Ok? ==> r.value.ok
    ensures r.Ok? ==> (r.value.message == Received <==>
      insert("enrollment", ValidateEnrollment(body, isEmail).value.ToDocument()))
    ensures r.Ok? ==> (r.value.message == TemporaryMode <==>
      !insert("enrollment", ValidateEnrollment(body, isEmail).value.ToDocument()))
  {
    match ValidateEnrollment(body, isEmail)
    case Ok(payload) => Ok(ApplyEnrollment(payload, insert))
    case Err(errs) => Err(errs)
  }

  /** A refused body gets the same reply whatever the store would have
      done: the store is never reached. */
  lemma RefusedBeforeStorage(body: Document, isEmail: string -> bool,
                             insert1: (string, Document) -> bool, insert2: (string, Document) -> bool)
    requires EnrollmentFailures(body, isEmail) != {}
    ensures SubmitEnrollment(body, isEmail, insert1) == SubmitEnrollment(body, isEmail, insert2)
  {
  }

  /** A body whose email is malformed is refused, and the email is named. */
  lemma MalformedEmailRefused(body: Document, isEmail: string -> bool, insert: (string, Document) -> bool)
    requires "email" in body && body["email"].Str? && !isEmail(body["email"].s)
    ensures SubmitEnrollment(body, isEmail, insert).Err?
    ensures "email" in Fields(SubmitEnrollment(body, isEmail, insert).error)
  {
    assert "email" in EnrollmentFailures(body, isEmail);
  }

  /** With the store down, a valid application is still accepted, in
      temporary mode. */
  lemma AcceptedInTemporaryMode(e: Enrollment, isEmail: string -> bool, insert: (string, Document) -> bool)
    requires e.Valid(isEmail)
    requires !insert("enrollment", e.ToDocument())
    ensures SubmitEnrollment(e.ToDocument(), isEmail, insert) == Ok(Ack(true, TemporaryMode))
  {
    EnrollmentRoundTrip(e, isEmail);
  }

  // ---------------------------------------------------------------------
  // Health snapshot

  /** What `db.list_collection_names()` did. */
  datatype Listing = Listed(names: seq<string>) | ListingFailed(error: string)

  /** What probing the database module found. */
  datatype Probe =
    | ModuleMissing                                 // importing it raised ImportError
    | ProbeFailed(error: string)                    // importing it raised anything else
    | NoDatabase                                    // `db` is None
    | Database(name: Option<string>, listing: Listing) // `db` is set; `name` if it has one

  /** The snapshot `GET /test` reports. `None` is a null field. */
  datatype Status = Status(
    backend: string,
    database: string,
    databaseUrl: Option<string>,
    databaseName: Option<string>,
    connectionStatus: string,
    collections: seq<string>)

  const Running := "✅ Running"
  const NotAvailable := "❌ Not Available"
  const ModuleNotFound := "❌ Database module not found (run enable-database first)"
  const FailedPrefix := "❌ Error: "
  const NotInitialized := "⚠️  Available but not initialized"
  const Working := "✅ Connected & Working"
  const ListingFailedPrefix := "⚠️  Connected but Error: "

  /** How a configuration variable's presence is reported. */
  function Presence(isSet: bool): string
  {
    if isSet then "✅ Set" else "❌ Not Set"
  }

  /** The `database` line takes one of the documented shapes, and any error
      text it embeds is at most 50 characters. */
  ghost predicate DocumentedDatabaseLine(line: string)
  {
    || line in {ModuleNotFound, NotInitialized, Working}
    || (exists e: string :: |e| <= 50 && line == FailedPrefix + e)
    || (exists e: string :: |e| <= 50 && line == ListingFailedPrefix + e)
  }

  /** `GET /test`: builds the snapshot field by field as the probe proceeds;
      it never fails. The two configuration fields are overwritten last, so
      they depend on nothing but the two flags. */
  method TestDatabase(probe: Probe, urlSet: bool, nameSet: bool) returns (response: Status)
    ensures response.backend == Running
    ensures response.databaseUrl == Some(Presence(urlSet))
    ensures response.databaseName == Some(Presence(nameSet))
    ensures DocumentedDatabaseLine(response.database)
    ensures probe.ModuleMissing? ==> response.database == ModuleNotFound
    ensures probe.ProbeFailed? ==> response.database == FailedPrefix + Truncate(probe.error, 50)
    ensures probe.NoDatabase? ==> response.database == NotInitialized
    ensures probe.Database? && probe.listing.Listed? ==> response.database == Working
    ensures probe.Database? && probe.listing.ListingFailed? ==>
      response.database == ListingFailedPrefix + Truncate(probe.listing.error, 50)
    ensures response.connectionStatus == (if probe.Database? then "Connected" else "Not Connected")
    ensures |response.collections| <= 10
    ensures probe.Database? && probe.listing.Listed? ==>
      response.collections <= probe.listing.names &&
      |response.collections| == (if |probe.listing.names| < 10 then |probe.listing.names| else 10)
    ensures !(probe.Database? && probe.listing.Listed?) ==> response.collections == []
  {
    response := Status(Running, NotAvailable, None, None, "Not Connected", []);
    match probe {
      case ModuleMissing =>
        response := response.(database := ModuleNotFound);
      case ProbeFailed(e) =>
        response := response.(database := FailedPrefix + Truncate(e, 50));
      case NoDatabase =>
        response := response.(database := NotInitialized);
      case Database(name, listing) =>
        response := response.(database := "✅ Available");
        response := response.(databaseUrl := Some("✅ Configured"));
        response := response.(databaseName := Some(if name.Some? then name.value else "✅ Connected"));
        response := response.(connectionStatus := "Connected");
        match listing {
          case Listed(names) =>
            response := response.(collections := Truncate(names, 10));
            response := response.(database := Working);
          case ListingFailed(e) =>
            response := response.(database := ListingFailedPrefix + Truncate(e, 50));
        }
    }
    response := response.(databaseUrl := Some(Presence(urlSet)));
    response := response.(databaseName := Some(Presence(nameSet)));
  }
}
