# Academy API — verified model

A Dafny model of the request-handling and validation core of a small academy
content API (a FastAPI service over a document store). The model covers:

- the Pydantic schemas `Course`, `Instructor`, `Enrollment` and `User`: their
  field types, required and optional fields, defaults, and length and range
  bounds. Each schema has a validator that returns the typed value or the list
  of every violated field (`values.dfy`, `schemas.dfy`);
- the collection-naming convention (model class name in lower case, with the
  documented BlogPost → `blogs` exception);
- the list handlers `list_courses` and `list_instructors`. Each pops `_id`,
  `created_at` and `updated_at` from every fetched record in place. When the
  store cannot be read, each returns its literal two-record fallback list;
- the enrollment handler. It always acknowledges, and its message says whether
  the insert succeeded;
- the `/test` health snapshot, built field by field from a probe outcome and
  two environment-variable presence flags;
- the root ping.

Documents are `map<string, Value>`, where `Value` is a JSON-like datatype that
also has the store's `ObjectId` and `DateTime` values. The store is an outside
collaborator. A fetch is a `Fetch` value: it failed, or it handed over records
as `Doc` objects that the handler may change. An insert is a function that says
whether the record was stored. Email and URL well-formedness come from the
validation library and are `string -> bool` parameters. Environment lookups are
booleans.

`list_courses`/`list_instructors` and `test_database` change state step by step,
so they are methods. `CleanInPlace` changes the fetched `Doc` objects in place,
including when the same object appears more than once. `TestDatabase` rewrites a
local `Status` record branch by branch. Every schema member is a pure function
or a lemma.

The database name the health handler writes when connected (main.py:118)
never reaches the response. The handler overwrites `database_name` and
`database_url` at the end with the presence of the two environment variables
(main.py:136-137), and `TestDatabase` states that final state.

## Model

| member | source | states |
|---|---|---|
| `Values.Truncate` | main.py:123 | Python slicing `s[:n]`: the result is a prefix of `s` of length at most `n`, all of `s` when it is short enough, and exactly `n` items otherwise |
| `Schemas.ValidateCourse` | schemas.py:43-50 | a document is accepted exactly when no Course field breaks its rule. A rejection is non-empty and names exactly the failing fields, not only the first. An accepted Course meets the constraints (title ≥ 2, summary ≥ 10, weeks in 1..104, URL thumbnail), and each field holds the input's value. `tags` defaults to [] and `thumbnail` to None |
| `Schemas.ValidatedCourseAgrees` | schemas.py:43-50 | the record form of a validated Course agrees with the input document on every key both have |
| `Schemas.CourseRoundTrip` | schemas.py:43-50 | every valid Course validates from its own record form to itself, with every field unchanged |
| `Schemas.CourseIgnoresOtherKeys` | schemas.py:43-50 | two documents that agree on the six declared keys validate alike, so undeclared keys are ignored |
| `Schemas.CourseBlamesEachBound` | schemas.py:45-47 | accepted means title length ≥ 2, summary length ≥ 10 and 1 ≤ weeks ≤ 104. On rejection, each of these three fields is named if and only if it breaks its bound |
| `Schemas.CourseDurationOutOfRange` | schemas.py:47 | an integer duration outside 1..104 (0 or 200, say) is rejected with `TooSmall(1)` or `TooLarge(104)` for `duration_weeks` |
| `Schemas.ValidateInstructor` | schemas.py:52-58 | accepted exactly when name, title and bio are strings, avatar is absent, null or a URL, and specialties is absent or a list of strings. A rejection names exactly the failing fields. `specialties` defaults to [] and `avatar` to None |
| `Schemas.InstructorRequiresStrings` | schemas.py:54-56 | an accepted Instructor has string name, title and bio, and a document without `name` is rejected with `Missing` for it |
| `Schemas.InstructorIgnoresOtherKeys` | schemas.py:52-58 | two documents that agree on the five declared Instructor keys validate alike, so undeclared keys are ignored |
| `Schemas.InstructorRoundTrip` | schemas.py:52-58 | every valid Instructor validates from its record form to itself |
| `Schemas.ValidateEnrollment` | schemas.py:60-65 | accepted exactly when no Enrollment field breaks its rule. A rejection names exactly the failing fields. An accepted Enrollment has a name of ≥ 2 characters, a well-formed email and a message that is absent or ≤ 1000 characters. `course_title` is any string |
| `Schemas.EnrollmentAcceptance` | schemas.py:62-65 | Enrollment acceptance, stated both ways, as the four field rules: name ≥ 2, email well formed, course_title a string (not checked against existing courses), message absent/null or ≤ 1000 |
| `Schemas.EnrollmentRoundTrip` | schemas.py:60-65 | every valid Enrollment validates from its record form to itself |
| `Schemas.ValidateUser` | schemas.py:19-28 | accepted exactly when no User field breaks its rule. An accepted User's age is absent or in 0..120. `is_active` defaults to true and `age` to None. A rejection names exactly the failing fields |
| `Schemas.UserRoundTrip` | schemas.py:19-28 | every valid User validates from its record form to itself |
| `Schemas.Lower` | schemas.py:8 | lower-casing keeps the length and lower-cases each character in place |
| `Schemas.CollectionName` | schemas.py:7-11 | BlogPost maps to "blogs"; every other class name maps to its character-by-character lower-casing, of the same length. No collection name has an upper-case letter |
| `Schemas.CollectionNameIsLowerCase` | schemas.py:8 | lower-casing a collection name again leaves it unchanged |
| `Schemas.DocumentedCollectionNames` | schemas.py:9-11 | User → "user", Product → "product", BlogPost → "blogs" |
| `Schemas.CourseCollection` | main.py:29 | the collection the course list reads, "course", is the convention's name for Course |
| `Schemas.InstructorCollection` | main.py:62 | the collection the instructor list reads, "instructor", is the convention's name for Instructor |
| `Schemas.EnrollmentCollection` | main.py:93 | the collection enrollments are written to, "enrollment", is the convention's name for Enrollment |
| `Main.ReadRoot` | main.py:20-22 | the root payload has the single key `message`, holding "Academy API is running" |
| `Main.Doc.Pop` | main.py:33 | `dict.pop(key, None)` removes only `key` and returns its old value, or None if it was absent |
| `Main.ThreePopsStrip` | main.py:33-35 | the three pops in a row remove exactly the store's keys |
| `Main.StripKeepsOthers` | main.py:33-35 | stripping leaves none of `_id`, `created_at`, `updated_at`, and keeps every other key with its value |
| `Main.StripIdempotent` | main.py:33-35 | popping the store keys from an already stripped record changes nothing |
| `Main.CleanAll` | main.py:31-37 | the cleaned list is as long as the fetched one, and its i-th record is the i-th fetched record stripped, so order is kept |
| `Main.CleanedRecords` | main.py:32-36 | no cleaned record holds a store key, and each other key is present exactly when it was, with the same value |
| `Main.CleanAllIdempotent` | main.py:31-37 | cleaning a cleaned listing again gives the same listing |
| `Main.StripKeepsCourseValidation` | main.py:30-36 | removing the store keys never changes how a record validates as a Course |
| `Main.StripKeepsInstructorValidation` | main.py:59-68 | removing the store keys never changes how a record validates as an Instructor |
| `Main.CleanInPlace` | main.py:31-37 | the loop returns the same record objects, in order, and leaves each one stripped of the store keys in place. Its contents equal `CleanAll` of the records' contents before the loop |
| `Main.ListCourses` | main.py:26-57 | a failed fetch gives exactly the two literal fallback courses. A successful fetch gives the fetched records cleaned, and those records are changed in place to match |
| `Main.ListInstructors` | main.py:59-86 | a failed fetch gives exactly the two literal fallback instructors. A successful fetch gives the fetched records cleaned in place |
| `Main.FallbackCoursesAreValid` | main.py:40-57 | both fallback courses pass the Course schema and validate to the literal values "Full-Stack Web Development" (12 weeks, Beginner, react/python/api) and "Data Science Fundamentals" (10 weeks, Intermediate, pandas/numpy/viz) |
| `Main.FallbackInstructorsAreValid` | main.py:71-86 | both fallback instructors, Alex Rivera and Maya Chen, pass the Instructor schema with their literal fields |
| `Main.ApplyEnrollment` | main.py:90-97 | `ok` is always true. The message is "Application received. We'll reach out soon!" exactly when the insert into the Enrollment collection succeeded, and "Application received! (temporary mode)" exactly when it failed |
| `Main.SubmitEnrollment` | main.py:90-97 | a body is refused exactly when an Enrollment field fails, and the refusal names exactly those fields. Every accepted body is acknowledged with `ok`: "Application received. We'll reach out soon!" exactly when the insert of the validated record succeeded, and the temporary-mode message exactly when it failed |
| `Main.RefusedBeforeStorage` | main.py:90-93 | a refused body gets the same reply whatever the store would do: the store is never reached |
| `Main.MalformedEmailRefused` | main.py:91 | a body with a malformed email is refused, and `email` is among the named fields |
| `Main.AcceptedInTemporaryMode` | main.py:95-97 | with the store down, a valid application is answered `{ok: true, "…(temporary mode)"}` |
| `Main.TestDatabase` | main.py:100-139 | never fails, and `backend` is always "✅ Running". `database_url` and `database_name` report only the two environment flags. `database` takes one of the documented shapes, and any embedded error text is at most 50 characters. `connection_status` is "Connected" exactly when a database object exists. `collections` is a prefix of the listed names with at most 10 entries, and empty when no listing succeeded |

## Left out

- FastAPI routing, CORS middleware and uvicorn start-up with its port parsing (main.py:10-18, 142-145): framework and process plumbing.
- The `database` module (`get_documents`, `create_document`, `db`): an outside collaborator. It is modelled only by its outcome (`Fetch`, the `insert` function, `Probe`). The `limit=50` argument and the store's record order are its own concerns.
- The framework's re-validation and filtering of list responses through `response_model=List[Course]`/`List[Instructor]`. `FallbackCoursesAreValid`, `FallbackInstructorsAreValid`, `StripKeepsCourseValidation` and `StripKeepsInstructorValidation` state the facts that step relies on.
- Email (`EmailStr`) and URL (`HttpUrl`) well-formedness, and the library's normalisation of accepted values (such as a trailing slash added to a URL): `isEmail`/`isUrl` are parameters, and an accepted string is kept exactly as given.
- The validation library's lax coercions (numeric strings or integral floats for `int`, strings such as "true" for `bool`): each field accepts only a value of its declared JSON type. Error locations inside lists and the library's message texts are reduced to the field name and a `Problem`.
- The `Product` schema (schemas.py:30-39): no endpoint uses it, and its one constraint is on the float `price`. Only its collection name is modelled.
- `Schemas.Lower`: lower-cases ASCII letters only, because every model name is ASCII.
- `Schemas.CollectionName`: the BlogPost → "blogs" exception comes from the schema module's documentation. The code that maps class names to collections lives in the database module, which is not part of this model.
- Dict key order: records are maps, so the order of keys in a response is not modelled.
- `Main.TestDatabase`: an exception is assumed to arise only where the source catches it. For other probe errors, that is before any field is written. For the listing, it is `list_collection_names`. The text of `str(e)` is the probe's `error` string. `hasattr(db, 'name')` is an optional `name`.
- `os.getenv` lookups: they are the booleans `urlSet` and `nameSet`, which say whether each variable is set.
