/**
 * The schema layer: one datatype per model class, and for each a validator
 * that turns a raw document (a request body or a stored record) into the
 * typed value or into the list of every violated field constraint.
 *
 * Email and URL well-formedness belong to the validation library; they are
 * parameters here (`isEmail`, `isUrl`), so every result holds whatever those
 * predicates are.
 */
module Schemas {
  import opened Values

  /** What is wrong with one field. */
  datatype Problem =
    | Missing                  // a required field is absent
    | WrongType                // present, but not of the declared type
    | TooShort(minLength: nat) // `min_length`
    | TooLong(maxLength: nat)  // `max_length`
    | TooSmall(ge: int)        // `ge`
    | TooLarge(le: int)        // `le`
    | NotUrl                   // `HttpUrl`
    | NotEmail                 // `EmailStr`

  datatype Violation = Violation(field: string, problem: Problem)

  /** The names of the fields a list of violations blames. */
  function Fields(errs: seq<Violation>): set<string>
  {
    set v | v in errs :: v.field
  }

  /** The outcome of checking one field. */
  datatype Checked<+T> = Valid(v: T) | Invalid(problem: Problem)

  /** The field named `key` is failing exactly when `ok` is false. */
  function FailsUnless(key: string, ok: bool): set<string>
  {
    if ok then {} else {key}
  }

  /** The violation a field check reports, if any. */
  function Blame<T>(field: string, c: Checked<T>): (r: seq<Violation>)
    ensures Fields(r) == FailsUnless(field, c.Valid?)
    ensures r == [] <==> c.Valid?
  {
    if c.Valid? then [] else [Violation(field, c.problem)]
  }

  lemma FieldsAppend(a: seq<Violation>, b: seq<Violation>)
    ensures Fields(a + b) == Fields(a) + Fields(b)
  {
    assert forall v :: v in a + b <==> v in a || v in b;
  }

  // ---------------------------------------------------------------------
  // Declarative statement of the field rules.

  predicate StringAtLeast(doc: Document, key: string, n: nat)
  {
    key in doc && doc[key].Str? && |doc[key].s| >= n
  }

  predicate StringWhere(doc: Document, key: string, p: string -> bool)
  {
    key in doc && doc[key].Str? && p(doc[key].s)
  }

  predicate AbsentOrNull(doc: Document, key: string)
  {
    key !in doc || doc[key] == Null
  }

  predicate OptionalStringAtMost(doc: Document, key: string, n: nat)
  {
    AbsentOrNull(doc, key) || (doc[key].Str? && |doc[key].s| <= n)
  }

  predicate OptionalStringWhere(doc: Document, key: string, p: string -> bool)
  {
    AbsentOrNull(doc, key) || (doc[key].Str? && p(doc[key].s))
  }

  predicate IntWithin(doc: Document, key: string, lo: int, hi: int)
  {
    key in doc && doc[key].Int? && lo <= doc[key].i <= hi
  }

  predicate OptionalIntWithin(doc: Document, key: string, lo: int, hi: int)
  {
    AbsentOrNull(doc, key) || (doc[key].Int? && lo <= doc[key].i <= hi)
  }

  predicate StringsOrAbsent(doc: Document, key: string)
  {
    key !in doc || (doc[key].List? && AllStrings(doc[key].items))
  }

  predicate BoolOrAbsent(doc: Document, key: string)
  {
    key !in doc || doc[key].Bool?
  }

  // ---------------------------------------------------------------------
  // Field checks: how each declared field type and constraint treats a raw
  // value. Each is tied to the declarative rule above. Keys the schema does
  // not declare are ignored.

  /** A required `str` field with `min_length=n` (n = 0: no length bound). */
  function TextAtLeast(doc: Document, key: string, n: nat): (r: Checked<string>)
    ensures r.Valid? <==> StringAtLeast(doc, key, n)
    ensures r.Valid? ==> doc[key] == Str(r.v)
    ensures r.Invalid? ==> r.problem == (if key !in doc then Missing else if doc[key].Str? then TooShort(n) else WrongType)
  {
    if key !in doc then Invalid(Missing)
    else if !doc[key].Str? then Invalid(WrongType)
    else if |doc[key].s| < n then Invalid(TooShort(n))
    else Valid(doc[key].s)
  }

  /** A required `str` field checked by a library predicate (`EmailStr`). */
  function TextWhere(doc: Document, key: string, p: string -> bool, why: Problem): (r: Checked<string>)
    ensures r.Valid? <==> StringWhere(doc, key, p)
    ensures r.Valid? ==> doc[key] == Str(r.v)
    ensures r.Invalid? ==> r.problem == (if key !in doc then Missing else if doc[key].Str? then why else WrongType)
  {
    if key !in doc then Invalid(Missing)
    else if !doc[key].Str? then Invalid(WrongType)
    else if !p(doc[key].s) then Invalid(why)
    else Valid(doc[key].s)
  }

  /** An `Optional[str]` field with `max_length=n`, defaulting to None; null is None. */
  function OptionalTextAtMost(doc: Document, key: string, n: nat): (r: Checked<Option<string>>)
    ensures r.Valid? <==> OptionalStringAtMost(doc, key, n)
    ensures r.Valid? ==> (r.v.None? <==> AbsentOrNull(doc, key))
    ensures r.Valid? && r.v.Some? ==> doc[key] == Str(r.v.value)
    ensures r.Invalid? ==> r.problem == (if doc[key].Str? then TooLong(n) else WrongType)
  {
    if AbsentOrNull(doc, key) then Valid(None)
    else if !doc[key].Str? then Invalid(WrongType)
    else if |doc[key].s| > n then Invalid(TooLong(n))
    else Valid(Some(doc[key].s))
  }

  /** An `Optional[str]` field checked by a library predicate (`HttpUrl`), defaulting to None. */
  function OptionalTextWhere(doc: Document, key: string, p: string -> bool, why: Problem): (r: Checked<Option<string>>)
    ensures r.Valid? <==> OptionalStringWhere(doc, key, p)
    ensures r.Valid? ==> (r.v.None? <==> AbsentOrNull(doc, key))
    ensures r.Valid? && r.v.Some? ==> doc[key] == Str(r.v.value)
    ensures r.Invalid? ==> r.problem == (if doc[key].Str? then why else WrongType)
  {
    if AbsentOrNull(doc, key) then Valid(None)
    else if !doc[key].Str? then Invalid(WrongType)
    else if !p(doc[key].s) then Invalid(why)
    else Valid(Some(doc[key].s))
  }

  /** A required `int` field with `ge=lo, le=hi`. */
  function IntBetween(doc: Document, key: string, lo: int, hi: int): (r: Checked<int>)
    ensures r.Valid? <==> IntWithin(doc, key, lo, hi)
    ensures r.Valid? ==> doc[key] == Int(r.v)
    ensures r.Invalid? ==> r.problem == (if key !in doc then Missing else if !doc[key].Int? then WrongType
                                         else if doc[key].i < lo then TooSmall(lo) else TooLarge(hi))
  {
    if key !in doc then Invalid(Missing)
    else if !doc[key].Int? then Invalid(WrongType)
    else if doc[key].i < lo then Invalid(TooSmall(lo))
    else if doc[key].i > hi then Invalid(TooLarge(hi))
    else Valid(doc[key].i)
  }

  /** An `Optional[int]` field with `ge=lo, le=hi`, defaulting to None. */
  function OptionalIntBetween(doc: Document, key: string, lo: int, hi: int): (r: Checked<Option<int>>)
    ensures r.Valid? <==> OptionalIntWithin(doc, key, lo, hi)
    ensures r.Valid? ==> (r.v.None? <==> AbsentOrNull(doc, key))
    ensures r.Valid? && r.v.Some? ==> doc[key] == Int(r.v.value)
    ensures r.Invalid? ==> r.problem == (if !doc[key].Int? then WrongType
                                         else if doc[key].i < lo then TooSmall(lo) else TooLarge(hi))
  {
    if AbsentOrNull(doc, key) then Valid(None)
    else if !doc[key].Int? then Invalid(WrongType)
    else if doc[key].i < lo then Invalid(TooSmall(lo))
    else if doc[key].i > hi then Invalid(TooLarge(hi))
    else Valid(Some(doc[key].i))
  }

  /** A `bool` field with a default; null is not a bool. */
  function BoolOr(doc: Document, key: string, default: bool): (r: Checked<bool>)
    ensures r.Valid? <==> BoolOrAbsent(doc, key)
    ensures r.Valid? ==> if key in doc then doc[key] == Bool(r.v) else r.v == default
    ensures r.Invalid? ==> r.problem == WrongType
  {
    if key !in doc then Valid(default)
    else if doc[key].Bool? then Valid(doc[key].b)
    else Invalid(WrongType)
  }

  /** A `List[str]` field whose default factory is `list`. */
  function StringsOrEmpty(doc: Document, key: string): (r: Checked<seq<string>>)
    ensures r.Valid? <==> StringsOrAbsent(doc, key)
    ensures r.Valid? ==> if key in doc then doc[key] == StringList(r.v) else r.v == []
    ensures r.Invalid? ==> r.problem == WrongType
  {
    if key !in doc then Valid([])
    else if doc[key].List? && AllStrings(doc[key].items) then
      StringListOfStrings(doc[key].items);
      Valid(Strings(doc[key].items))
    else Invalid(WrongType)
  }

  /** True when every declared key present in `doc` holds the value `out` gives it. */
  predicate Agrees(out: Document, doc: Document)
  {
    forall key :: key in out && key in doc ==> out[key] == doc[key]
  }

  // ---------------------------------------------------------------------
  // Course

  datatype Course = Course(
    title: string,
    summary: string,
    durationWeeks: int,
    level: string,
    tags: seq<string>,
    thumbnail: Option<string>)
  {
    /** The field constraints of the Course model. */
    predicate Valid(isUrl: string -> bool)
    {
      && |title| >= 2
      && |summary| >= 10
      && 1 <= durationWeeks <= 104
      && (thumbnail.Some? ==> isUrl(thumbnail.value))
    }

    /** The record form of a Course, every declared field present. */
    function ToDocument(): Document
    {
      map[
        "title" := Str(title),
        "summary" := Str(summary),
        "duration_weeks" := Int(durationWeeks),
        "level" := Str(level),
        "tags" := StringList(tags),
        "thumbnail" := if thumbnail.Some? then Str(thumbnail.value) else Null
      ]
    }
  }

  /** The fields of `doc` that break a Course constraint. */
  function CourseFailures(doc: Document, isUrl: string -> bool): set<string>
  {
    FailsUnless("title", StringAtLeast(doc, "title", 2))
    + FailsUnless("summary", StringAtLeast(doc, "summary", 10))
    + FailsUnless("duration_weeks", IntWithin(doc, "duration_weeks", 1, 104))
    + FailsUnless("level", StringAtLeast(doc, "level", 0))
    + FailsUnless("tags", StringsOrAbsent(doc, "tags"))
    + FailsUnless("thumbnail", OptionalStringWhere(doc, "thumbnail", isUrl))
  }

  /** Every violation of a Course constraint in `doc`, in field order. */
  function CourseErrors(doc: Document, isUrl: string -> bool): (errs: seq<Violation>)
    ensures Fields(errs) == CourseFailures(doc, isUrl)
    ensures errs == [] <==> CourseFailures(doc, isUrl) == {}
  {
    var e1 := Blame("title", TextAtLeast(doc, "title", 2));
    var e2 := Blame("summary", TextAtLeast(doc, "summary", 10));
    var e3 := Blame("duration_weeks", IntBetween(doc, "duration_weeks", 1, 104));
    var e4 := Blame("level", TextAtLeast(doc, "level", 0));
    var e5 := Blame("tags", StringsOrEmpty(doc, "tags"));
    var e6 := Blame("thumbnail", OptionalTextWhere(doc, "thumbnail", isUrl, NotUrl));
    FieldsAppend(e1, e2);
    FieldsAppend(e1 + e2, e3);
    FieldsAppend(e1 + e2 + e3, e4);
    FieldsAppend(e1 + e2 + e3 + e4, e5);
    FieldsAppend(e1 + e2 + e3 + e4 + e5, e6);
    e1 + e2 + e3 + e4 + e5 + e6
  }

  /** Builds a Course from `doc`, or reports every field that breaks a constraint. */
  function ValidateCourse(doc: Document, isUrl: string -> bool): (r: Result<Course, seq<Violation>>)
    ensures r.Ok? <==> CourseFailures(doc, isUrl) == {}
    ensures r.Err? ==> r.error != [] && Fields(r.error) == CourseFailures(doc, isUrl)
    ensures r.Ok? ==> r.value.Valid(isUrl)
    ensures r.Ok? ==> doc["title"] == Str(r.value.title) && doc["summary"] == Str(r.value.summary)
    ensures r.Ok? ==> doc["duration_weeks"] == Int(r.value.durationWeeks) && doc["level"] == Str(r.value.level)
    ensures r.Ok? && "tags" in doc ==> doc["tags"] == StringList(r.value.tags)
    ensures r.Ok? && "tags" !in doc ==> r.value.tags == []
    ensures r.Ok? ==> (r.value.thumbnail == None <==> AbsentOrNull(doc, "thumbnail"))
    ensures r.Ok? && r.value.thumbnail.Some? ==> doc["thumbnail"] == Str(r.value.thumbnail.value)
  {
    var errs := CourseErrors(doc, isUrl);
    if errs == [] then
      Ok(Course(
        TextAtLeast(doc, "title", 2).v,
        TextAtLeast(doc, "summary", 10).v,
        IntBetween(doc, "duration_weeks", 1, 104).v,
        TextAtLeast(doc, "level", 0).v,
        StringsOrEmpty(doc, "tags").v,
        OptionalTextWhere(doc, "thumbnail", isUrl, NotUrl).v))
    else
      Err(errs)
  }

  /** The keys the Course model declares. */
  const CourseKeys: set<string> := {"title", "summary", "duration_weeks", "level", "tags", "thumbnail"}

  /** True when `a` and `b` hold the same entries under every key in `keys`. */
  predicate SameOn(a: Document, b: Document, keys: set<string>)
  {
    forall k :: k in keys ==> (k in a <==> k in b) && (k in a ==> a[k] == b[k])
  }

  /** A valid Course survives a trip through its record form unchanged. */
  lemma CourseRoundTrip(c: Course, isUrl: string -> bool)
    requires c.Valid(isUrl)
    ensures ValidateCourse(c.ToDocument(), isUrl) == Ok(c)
  {
    var d := c.ToDocument();
    StringsOfStringList(c.tags);
    assert TextAtLeast(d, "title", 2) == Valid(c.title);
    assert TextAtLeast(d, "summary", 10) == Valid(c.summary);
    assert IntBetween(d, "duration_weeks", 1, 104) == Valid(c.durationWeeks);
    assert TextAtLeast(d, "level", 0) == Valid(c.level);
    assert StringsOrEmpty(d, "tags") == Valid(c.tags);
    assert OptionalTextWhere(d, "thumbnail", isUrl, NotUrl) == Valid(c.thumbnail);
  }

  /** A validated Course holds exactly what the document gives each declared
      field: its record form agrees with the document on every key both have. */
  lemma ValidatedCourseAgrees(doc: Document, isUrl: string -> bool)
    requires ValidateCourse(doc, isUrl).Ok?
    ensures Agrees(ValidateCourse(doc, isUrl).value.ToDocument(), doc)
  {
    var out := ValidateCourse(doc, isUrl).value.ToDocument();
    forall key | key in out && key in doc ensures out[key] == doc[key] {
      assert key in CourseKeys;
    }
  }

  /** Validation looks only at the declared keys: any other key, such as a
      store-assigned `_id` or timestamp, changes nothing. */
  lemma CourseIgnoresOtherKeys(a: Document, b: Document, isUrl: string -> bool)
    requires SameOn(a, b, CourseKeys)
    ensures ValidateCourse(a, isUrl) == ValidateCourse(b, isUrl)
  {
    assert "title" in CourseKeys && "summary" in CourseKeys && "duration_weeks" in CourseKeys;
    assert "level" in CourseKeys && "tags" in CourseKeys && "thumbnail" in CourseKeys;
    assert TextAtLeast(a, "title", 2) == TextAtLeast(b, "title", 2);
    assert TextAtLeast(a, "summary", 10) == TextAtLeast(b, "summary", 10);
    assert IntBetween(a, "duration_weeks", 1, 104) == IntBetween(b, "duration_weeks", 1, 104);
    assert TextAtLeast(a, "level", 0) == TextAtLeast(b, "level", 0);
    assert StringsOrEmpty(a, "tags") == StringsOrEmpty(b, "tags");
    assert OptionalTextWhere(a, "thumbnail", isUrl, NotUrl) == OptionalTextWhere(b, "thumbnail", isUrl, NotUrl);
    assert CourseErrors(a, isUrl) == CourseErrors(b, isUrl);
  }

  /** The result names each of the three constrained fields exactly when it
      breaks its bound, whichever others fail beside it. */
  lemma CourseBlamesEachBound(doc: Document, isUrl: string -> bool)
    ensures var r := ValidateCourse(doc, isUrl);
      && (r.Ok? ==> |doc["title"].s| >= 2 && |doc["summary"].s| >= 10 && 1 <= doc["duration_weeks"].i <= 104)
      && (r.Err? ==> ("title" in Fields(r.error) <==> !StringAtLeast(doc, "title", 2)))
      && (r.Err? ==> ("summary" in Fields(r.error) <==> !StringAtLeast(doc, "summary", 10)))
      && (r.Err? ==> ("duration_weeks" in Fields(r.error) <==> !IntWithin(doc, "duration_weeks", 1, 104)))
  {
    var f := CourseFailures(doc, isUrl);
    assert "title"[0] != "level"[0] && "title"[0] != "thumbnail"[1];
    assert "title" in f <==> !StringAtLeast(doc, "title", 2);
    assert "summary" in f <==> !StringAtLeast(doc, "summary", 10);
    assert "duration_weeks" in f <==> !IntWithin(doc, "duration_weeks", 1, 104);
  }

  /** A duration outside 1..104 weeks (0 or 200, say) is refused with the
      bound it breaks. */
  lemma CourseDurationOutOfRange(doc: Document, isUrl: string -> bool)
    requires "duration_weeks" in doc && doc["duration_weeks"].Int?
    requires !(1 <= doc["duration_weeks"].i <= 104)
    ensures ValidateCourse(doc, isUrl).Err?
    ensures var why := if doc["duration_weeks"].i < 1 then TooSmall(1) else TooLarge(104);
      Violation("duration_weeks", why) in ValidateCourse(doc, isUrl).error
  {
    var why := if doc["duration_weeks"].i < 1 then TooSmall(1) else TooLarge(104);
    var e3 := Blame("duration_weeks", IntBetween(doc, "duration_weeks", 1, 104));
    assert e3 == [Violation("duration_weeks", why)];
    assert Violation("duration_weeks", why) in CourseErrors(doc, isUrl);
  }

  // ---------------------------------------------------------------------
  // Instructor

  datatype Instructor = Instructor(
    name: string,
    title: string,
    bio: string,
    avatar: Option<string>,
    specialties: seq<string>)
  {
    predicate Valid(isUrl: string -> bool)
    {
      avatar.Some? ==> isUrl(avatar.value)
    }

    function ToDocument(): Document
    {
      map[
        "name" := Str(name),
        "title" := Str(title),
        "bio" := Str(bio),
        "avatar" := if avatar.Some? then Str(avatar.value) else Null,
        "specialties" := StringList(specialties)
      ]
    }
  }

  function InstructorFailures(doc: Document, isUrl: string -> bool): set<string>
  {
    FailsUnless("name", StringAtLeast(doc, "name", 0))
    + FailsUnless("title", StringAtLeast(doc, "title", 0))
    + FailsUnless("bio", StringAtLeast(doc, "bio", 0))
    + FailsUnless("avatar", OptionalStringWhere(doc, "avatar", isUrl))
    + FailsUnless("specialties", StringsOrAbsent(doc, "specialties"))
  }

  function InstructorErrors(doc: Document, isUrl: string -> bool): (errs: seq<Violation>)
    ensures Fields(errs) == InstructorFailures(doc, isUrl)
    ensures errs == [] <==> InstructorFailures(doc, isUrl) == {}
  {
    var e1 := Blame("name", TextAtLeast(doc, "name", 0));
    var e2 := Blame("title", TextAtLeast(doc, "title", 0));
    var e3 := Blame("bio", TextAtLeast(doc, "bio", 0));
    var e4 := Blame("avatar", OptionalTextWhere(doc, "avatar", isUrl, NotUrl));
    var e5 := Blame("specialties", StringsOrEmpty(doc, "specialties"));
    FieldsAppend(e1, e2);
    FieldsAppend(e1 + e2, e3);
    FieldsAppend(e1 + e2 + e3, e4);
    FieldsAppend(e1 + e2 + e3 + e4, e5);
    e1 + e2 + e3 + e4 + e5
  }

  /** Builds an Instructor from `doc`, or reports every field that breaks a constraint. */
  function ValidateInstructor(doc: Document, isUrl: string -> bool): (r: Result<Instructor, seq<Violation>>)
    ensures r.Ok? <==> InstructorFailures(doc, isUrl) == {}
    ensures r.Err? ==> r.error != [] && Fields(r.error) == InstructorFailures(doc, isUrl)
    ensures r.Ok? ==> r.value.Valid(isUrl)
    ensures r.Ok? ==> Agrees(r.value.ToDocument(), doc)
    ensures r.Ok? && "specialties" !in doc ==> r.value.specialties == []
    ensures r.Ok? && AbsentOrNull(doc, "avatar") ==> r.value.avatar == None
  {
    var errs := InstructorErrors(doc, isUrl);
    if errs == [] then
      Ok(Instructor(
        TextAtLeast(doc, "name", 0).v,
        TextAtLeast(doc, "title", 0).v,
        TextAtLeast(doc, "bio", 0).v,
        OptionalTextWhere(doc, "avatar", isUrl, NotUrl).v,
        StringsOrEmpty(doc, "specialties").v))
    else
      Err(errs)
  }

  /** Every string field of an Instructor is required. */
  lemma InstructorRequiresStrings(doc: Document, isUrl: string -> bool)
    ensures ValidateInstructor(doc, isUrl).Ok? ==>
      StringAtLeast(doc, "name", 0) && StringAtLeast(doc, "title", 0) && StringAtLeast(doc, "bio", 0)
    ensures "name" !in doc ==>
      (ValidateInstructor(doc, isUrl).Err? && Violation("name", Missing) in ValidateInstructor(doc, isUrl).error)
  {
  }

  /** The keys an Instructor document is read from. */
  const InstructorKeys: set<string> := {"name", "title", "bio", "avatar", "specialties"}

  /** Validation looks only at the declared keys: any other key changes nothing. */
  lemma InstructorIgnoresOtherKeys(a: Document, b: Document, isUrl: string -> bool)
    requires SameOn(a, b, InstructorKeys)
    ensures ValidateInstructor(a, isUrl) == ValidateInstructor(b, isUrl)
  {
    assert "name" in InstructorKeys && "title" in InstructorKeys && "bio" in InstructorKeys;
    assert "avatar" in InstructorKeys && "specialties" in InstructorKeys;
    assert TextAtLeast(a, "name", 0) == TextAtLeast(b, "name", 0);
    assert TextAtLeast(a, "title", 0) == TextAtLeast(b, "title", 0);
    assert TextAtLeast(a, "bio", 0) == TextAtLeast(b, "bio", 0);
    assert OptionalTextWhere(a, "avatar", isUrl, NotUrl) == OptionalTextWhere(b, "avatar", isUrl, NotUrl);
    assert StringsOrEmpty(a, "specialties") == StringsOrEmpty(b, "specialties");
    assert InstructorErrors(a, isUrl) == InstructorErrors(b, isUrl);
  }

  lemma InstructorRoundTrip(i: Instructor, isUrl: string -> bool)
    requires i.Valid(isUrl)
    ensures ValidateInstructor(i.ToDocument(), isUrl) == Ok(i)
  {
    StringsOfStringList(i.specialties);
  }

  // ---------------------------------------------------------------------
  // Enrollment

  datatype Enrollment = Enrollment(
    name: string,
    email: string,
    courseTitle: string,
    message: Option<string>)
  {
    predicate Valid(isEmail: string -> bool)
    {
      && |name| >= 2
      && isEmail(email)
      && (message.Some? ==> |message.value| <= 1000)
    }

    function ToDocument(): Document
    {
      map[
        "name" := Str(name),
        "email" := Str(email),
        "course_title" := Str(courseTitle),
        "message" := if message.Some? then Str(message.value) else Null
      ]
    }
  }

  function EnrollmentFailures(doc: Document, isEmail: string -> bool): set<string>
  {
    FailsUnless("name", StringAtLeast(doc, "name", 2))
    + FailsUnless("email", StringWhere(doc, "email", isEmail))
    + FailsUnless("course_title", StringAtLeast(doc, "course_title", 0))
    + FailsUnless("message", OptionalStringAtMost(doc, "message", 1000))
  }

  function EnrollmentErrors(doc: Document, isEmail: string -> bool): (errs: seq<Violation>)
    ensures Fields(errs) == EnrollmentFailures(doc, isEmail)
    ensures errs == [] <==> EnrollmentFailures(doc, isEmail) == {}
  {
    var e1 := Blame("name", TextAtLeast(doc, "name", 2));
    var e2 := Blame("email", TextWhere(doc, "email", isEmail, NotEmail));
    var e3 := Blame("course_title", TextAtLeast(doc, "course_title", 0));
    var e4 := Blame("message", OptionalTextAtMost(doc, "message", 1000));
    FieldsAppend(e1, e2);
    FieldsAppend(e1 + e2, e3);
    FieldsAppend(e1 + e2 + e3, e4);
    e1 + e2 + e3 + e4
  }

  /** Builds an Enrollment from a request body, or reports every field that
      breaks a constraint. `course_title` is any string: it is not checked
      against the courses that exist. */
  function ValidateEnrollment(doc: Document, isEmail: string -> bool): (r: Result<Enrollment, seq<Violation>>)
    ensures r.Ok? <==> EnrollmentFailures(doc, isEmail) == {}
    ensures r.Err? ==> r.error != [] && Fields(r.error) == EnrollmentFailures(doc, isEmail)
    ensures r.Ok? ==> r.value.Valid(isEmail)
    ensures r.Ok? ==> Agrees(r.value.ToDocument(), doc)
    ensures r.Ok? && AbsentOrNull(doc, "message") ==> r.value.message == None
  {
    var errs := EnrollmentErrors(doc, isEmail);
    if errs == [] then
      Ok(Enrollment(
        TextAtLeast(doc, "name", 2).v,
        TextWhere(doc, "email", isEmail, NotEmail).v,
        TextAtLeast(doc, "course_title", 0).v,
        OptionalTextAtMost(doc, "message", 1000).v))
    else
      Err(errs)
  }

  /** An Enrollment is accepted exactly when the name has at least two
      characters, the email is well formed, a course title string is present
      and the message is absent or at most 1000 characters. */
  lemma EnrollmentAcceptance(doc: Document, isEmail: string -> bool)
    ensures ValidateEnrollment(doc, isEmail).Ok? <==>
      && StringAtLeast(doc, "name", 2)
      && StringWhere(doc, "email", isEmail)
      && StringAtLeast(doc, "course_title", 0)
      && OptionalStringAtMost(doc, "message", 1000)
  {
    var f := EnrollmentFailures(doc, isEmail);
    assert "name" in f <==> !StringAtLeast(doc, "name", 2);
    assert "email" in f <==> !StringWhere(doc, "email", isEmail);
    assert "course_title" in f <==> !StringAtLeast(doc, "course_title", 0);
    assert "message" in f <==> !OptionalStringAtMost(doc, "message", 1000);
  }

  lemma EnrollmentRoundTrip(e: Enrollment, isEmail: string -> bool)
    requires e.Valid(isEmail)
    ensures ValidateEnrollment(e.ToDocument(), isEmail) == Ok(e)
  {
  }

  // ---------------------------------------------------------------------
  // User (a reference schema that no endpoint uses)

  datatype User = User(
    name: string,
    email: string,
    address: string,
    age: Option<int>,
    isActive: bool)
  {
    predicate Valid()
    {
      age.Some? ==> 0 <= age.value <= 120
    }

    function ToDocument(): Document
    {
      map[
        "name" := Str(name),
        "email" := Str(email),
        "address" := Str(address),
        "age" := if age.Some? then Int(age.value) else Null,
        "is_active" := Bool(isActive)
      ]
    }
  }

  function UserFailures(doc: Document): set<string>
  {
    FailsUnless("name", StringAtLeast(doc, "name", 0))
    + FailsUnless("email", StringAtLeast(doc, "email", 0))
    + FailsUnless("address", StringAtLeast(doc, "address", 0))
    + FailsUnless("age", OptionalIntWithin(doc, "age", 0, 120))
    + FailsUnless("is_active", BoolOrAbsent(doc, "is_active"))
  }

  function UserErrors(doc: Document): (errs: seq<Violation>)
    ensures Fields(errs) == UserFailures(doc)
    ensures errs == [] <==> UserFailures(doc) == {}
  {
    var e1 := Blame("name", TextAtLeast(doc, "name", 0));
    var e2 := Blame("email", TextAtLeast(doc, "email", 0));
    var e3 := Blame("address", TextAtLeast(doc, "address", 0));
    var e4 := Blame("age", OptionalIntBetween(doc, "age", 0, 120));
    var e5 := Blame("is_active", BoolOr(doc, "is_active", true));
    FieldsAppend(e1, e2);
    FieldsAppend(e1 + e2, e3);
    FieldsAppend(e1 + e2 + e3, e4);
    FieldsAppend(e1 + e2 + e3 + e4, e5);
    e1 + e2 + e3 + e4 + e5
  }

  /** Builds a User from `doc`, or reports every field that breaks a constraint. */
  function ValidateUser(doc: Document): (r: Result<User, seq<Violation>>)
    ensures r.Ok? <==> UserFailures(doc) == {}
    ensures r.Err? ==> r.error != [] && Fields(r.error) == UserFailures(doc)
    ensures r.Ok? ==> r.value.Valid()
    ensures r.Ok? ==> Agrees(r.value.ToDocument(), doc)
    ensures r.Ok? && "is_active" !in doc ==> r.value.isActive
    ensures r.Ok? && AbsentOrNull(doc, "age") ==> r.value.age == None
  {
    var errs := UserErrors(doc);
    if errs == [] then
      Ok(User(
        TextAtLeast(doc, "name", 0).v,
        TextAtLeast(doc, "email", 0).v,
        TextAtLeast(doc, "address", 0).v,
        OptionalIntBetween(doc, "age", 0, 120).v,
        BoolOr(doc, "is_active", true).v))
    else
      Err(errs)
  }

  lemma UserRoundTrip(u: User)
    requires u.Valid()
    ensures ValidateUser(u.ToDocument()) == Ok(u)
  {
  }

  // ---------------------------------------------------------------------
  // Collection names

  /** ASCII lower-casing of one character. */
  function LowerChar(c: char): char
  {
    if 'A' <= c <= 'Z' then (c as int + 32) as char else c
  }

  /** ASCII lower-casing of a model name. */
  function Lower(s: string): (r: string)
    ensures |r| == |s|
    ensures forall k :: 0 <= k < |s| ==> r[k] == LowerChar(s[k])
  {
    if s == [] then [] else [LowerChar(s[0])] + Lower(s[1..])
  }

  /** The collection a model class is stored in: the class name in lower
      case, with the documented irregular plural BlogPost -> "blogs". */
  function CollectionName(model: string): (r: string)
    ensures model != "BlogPost" ==> |r| == |model|
    ensures model != "BlogPost" ==> forall k :: 0 <= k < |model| ==> r[k] == LowerChar(model[k])
    ensures forall k :: 0 <= k < |r| ==> !('A' <= r[k] <= 'Z')
  {
    if model == "BlogPost" then "blogs" else Lower(model)
  }

  /** Lower-casing a collection name again changes nothing. */
  lemma CollectionNameIsLowerCase(model: string)
    ensures Lower(CollectionName(model)) == CollectionName(model)
  {
    var r := CollectionName(model);
    assert forall k :: 0 <= k < |r| ==> LowerChar(r[k]) == r[k];
  }

  /** A model name other than BlogPost names the collection spelled as its
      character-by-character lower-casing. */
  lemma CollectionNameIs(model: string, name: string)
    requires model != "BlogPost" && |model| == |name|
    requires forall k :: 0 <= k < |model| ==> LowerChar(model[k]) == name[k]
    ensures CollectionName(model) == name
  {
  }

  /** The names the schema's documentation lists. */
  lemma DocumentedCollectionNames()
    ensures CollectionName("User") == "user"
    ensures CollectionName("Product") == "product"
    ensures CollectionName("BlogPost") == "blogs"
  {
    CollectionNameIs("User", "user");
    CollectionNameIs("Product", "product");
  }

  /** The collection the course list is read from. */
  lemma CourseCollection()
    ensures CollectionName("Course") == "course"
  {
    CollectionNameIs("Course", "course");
  }

  /** The collection the instructor list is read from. */
  lemma InstructorCollection()
    ensures CollectionName("Instructor") == "instructor"
  {
    CollectionNameIs("Instructor", "instructor");
  }

  /** The collection enrollment applications are written to. */
  lemma EnrollmentCollection()
    ensures CollectionName("Enrollment") == "enrollment"
  {
    CollectionNameIs("Enrollment", "enrollment");
  }
}
