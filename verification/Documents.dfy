/**
 The progress document as a map from member name to raw JSON value
 (internal/modules/progress/document.go): parsing, the typed readers, and the
 mutable document the service rewrites in place.
 */
module Documents {
  import opened Wrappers
  import opened Scoring
  import opened Codec
  import opened Text

  const SUPPORTED_SCHEMA_VERSION := 2
  const MIN_SUPPORTED_SCHEMA_VERSION := 1
  const MAX_RECENT_ATTEMPTS := 200
  const MAX_DATA_SIZE := 256 * 1024

  const FIELD_SCHEMA_VERSION := "schemaVersion"
  const FIELD_MASTERY := "masteryByKana"
  const FIELD_SKILLS := "skillsByKana"
  const FIELD_LESSONS := "completedLessonIds"
  const FIELD_ATTEMPTS := "recentAttempts"

  /** The members a patch may not carry. The lessons are deliberately not among them. */
  const PROTECTED_FIELDS := {FIELD_SCHEMA_VERSION, FIELD_MASTERY, FIELD_SKILLS, FIELD_ATTEMPTS}

  /** NilMapPanic is Go's panic on assigning into a nil map, which the server turns into a 500. */
  datatype Error =
    | EmptyPatch
    | ProtectedField
    | UnreadablePatch
    | UnreadableDocument
    | UnsupportedSchema
    | InvalidAnswer
    | InvalidLesson
    | InvalidData
    | NilMapPanic
    | ProgressNotFound
    | DatabaseFailure

  lemma FieldsAreDistinct()
    ensures |PROTECTED_FIELDS + {FIELD_LESSONS}| == 5
    ensures FIELD_LESSONS !in PROTECTED_FIELDS
  {
    assert FIELD_LESSONS !in PROTECTED_FIELDS;
    assert PROTECTED_FIELDS == {FIELD_SCHEMA_VERSION} + {FIELD_MASTERY} + {FIELD_SKILLS} + {FIELD_ATTEMPTS};
  }

  function Lookup(m: Members, field: string): Option<Json> {
    if field in m then Some(m[field]) else None
  }

  // ---- Reading ----

  function SchemaVersion(m: Members): Result<Int64, Error> {
    if FIELD_SCHEMA_VERSION !in m then Ok(MIN_SUPPORTED_SCHEMA_VERSION)
    else
      match DecodeInt(m[FIELD_SCHEMA_VERSION])
      case Some(version) => Ok(version)
      case None => Err(UnreadableDocument)
  }

  /** The stored row as members; no row at all is a fresh document. */
  function Parse(stored: Option<Json>): Result<Members, Error> {
    match stored
    case None => Ok(map[])
    case Some(JObject(m)) =>
      var version :- SchemaVersion(m);
      if version < MIN_SUPPORTED_SCHEMA_VERSION || version > SUPPORTED_SCHEMA_VERSION then Err(UnsupportedSchema)
      else Ok(m)
    case Some(_) => Err(UnreadableDocument)
  }

  /** A typed reader: an absent member has a default, a malformed one is an error. */
  function Read<T>(m: Members, field: string, absent: T, decode: Json -> Option<T>): Result<T, Error> {
    if field !in m then Ok(absent)
    else
      match decode(m[field])
      case Some(value) => Ok(value)
      case None => Err(UnreadableDocument)
  }

  function ReadSkills(m: Members): Result<GoMap<Skills>, Error> {
    Read(m, FIELD_SKILLS, Made(map[]), DecodeSkillsByKana)
  }

  function ReadMastery(m: Members): Result<GoMap<string>, Error> {
    Read(m, FIELD_MASTERY, Made(map[]), DecodeMasteryByKana)
  }

  function ReadLessons(m: Members): Result<seq<string>, Error> {
    Read(m, FIELD_LESSONS, [], DecodeLessons)
  }

  function ReadAttempts(lib: Library, m: Members): Result<seq<Attempt>, Error> {
    Read(m, FIELD_ATTEMPTS, [], (value: Json) => DecodeAttempts(lib, value))
  }

  /** The newest entries that fit the window. */
  function Newest(attempts: seq<Attempt>): seq<Attempt> {
    if |attempts| > MAX_RECENT_ATTEMPTS then attempts[|attempts| - MAX_RECENT_ATTEMPTS..] else attempts
  }

  // ---- What each rewrite makes of the members ----

  function Merged(m: Members, patch: Members): Result<Members, Error> {
    if patch == map[] then Err(EmptyPatch)
    else if patch.Keys !! PROTECTED_FIELDS then Ok(m + patch)
    else Err(ProtectedField)
  }

  function WithAttempt(lib: Library, m: Members, attempt: Attempt): Result<Members, Error> {
    var attempts :- ReadAttempts(lib, m);
    Ok(m[FIELD_ATTEMPTS := EncodeAttempts(lib, Newest(attempts + [attempt]))])
  }

  function Stamped(m: Members): Members {
    m[FIELD_SCHEMA_VERSION := JInt(SUPPORTED_SCHEMA_VERSION)]
  }

  /** Whatever the server writes it can read back, every member included. */
  lemma ParseStampedRoundTrip(m: Members)
    ensures Parse(Some(JObject(Stamped(m)))) == Ok(Stamped(m))
    ensures SchemaVersion(Stamped(m)) == Ok(SUPPORTED_SCHEMA_VERSION)
    ensures forall field :: field != FIELD_SCHEMA_VERSION ==> Lookup(Stamped(m), field) == Lookup(m, field)
  {
    assert Stamped(m)[FIELD_SCHEMA_VERSION] == JInt(2);
  }

  /** Which stored rows are refused, and how. */
  lemma ParseRefusals(stored: Option<Json>)
    ensures Parse(stored).Ok? <==>
            stored.None? || (stored.value.JObject? &&
              (FIELD_SCHEMA_VERSION in stored.value.members ==>
                stored.value.members[FIELD_SCHEMA_VERSION] in {JInt(1), JInt(2)}))
    ensures Parse(stored) == Err(UnsupportedSchema) <==>
            stored.Some? && stored.value.JObject? && FIELD_SCHEMA_VERSION in stored.value.members &&
            (stored.value.members[FIELD_SCHEMA_VERSION] == JNull ||
             exists n: Int64 :: n !in {1, 2} && stored.value.members[FIELD_SCHEMA_VERSION] == JInt(n))
  {
    if stored.Some? && stored.value.JObject? && FIELD_SCHEMA_VERSION in stored.value.members {
      var raw := stored.value.members[FIELD_SCHEMA_VERSION];
      if raw.JInt? && IsInt64(raw.n) && raw.n !in {1, 2} {
        var n: Int64 := raw.n;
        assert n !in {1, 2} && raw == JInt(n);
      }
    }
  }

  // ---- The document that is rewritten in place ----

  class Document {
    var members: Members

    constructor (members: Members)
      ensures this.members == members
    {
      this.members := members;
    }

    /** Replaces one member and leaves every other one alone. */
    method Set(field: string, value: Json)
      modifies this
      ensures members == old(members)[field := value]
    {
      members := members[field := value];
    }

    /** All or nothing, and the same result for every order of the map iterations. */
    method Merge(patch: Members) returns (outcome: Result<(), Error>)
      modifies this
      ensures patch == map[] ==> outcome == Err(EmptyPatch)
      ensures patch != map[] && !(patch.Keys !! PROTECTED_FIELDS) ==> outcome == Err(ProtectedField)
      ensures patch != map[] && patch.Keys !! PROTECTED_FIELDS ==> outcome.Ok? && members == old(members) + patch
      ensures outcome.Err? ==> members == old(members)
    {
      if |patch| == 0 {
        return Err(EmptyPatch);
      }
      var protected := CarriesAny(patch, PROTECTED_FIELDS);
      if protected {
        return Err(ProtectedField);
      }
      Overwrite(patch);
      return Ok(());
    }

    /** The loop of merge that looks for a protected field. */
    static method CarriesAny(patch: Members, fields: set<string>) returns (found: bool)
      ensures found <==> !(patch.Keys !! fields)
    {
      var pending := patch.Keys;
      while pending != {}
        invariant pending <= patch.Keys
        invariant (patch.Keys - pending) !! fields
        decreases |pending|
      {
        var field :| field in pending;
        if field in fields {
          return true;
        }
        pending := pending - {field};
      }
      return false;
    }

    /** The loop of merge that replaces the members. */
    method Overwrite(patch: Members)
      modifies this
      ensures members == old(members) + patch
    {
      var pending := patch.Keys;
      while pending != {}
        invariant pending <= patch.Keys
        invariant members.Keys == old(members).Keys + (patch.Keys - pending)
        invariant forall f :: f in members ==>
                    members[f] == if f in patch.Keys - pending then patch[f] else old(members)[f]
        decreases |pending|
      {
        var field :| field in pending;
        members := members[field := patch[field]];
        pending := pending - {field};
      }
      assert members == old(members) + patch;
    }

    /** Pushes one attempt and trims the window. */
    method AppendAttempt(lib: Library, attempt: Attempt) returns (outcome: Result<(), Error>)
      modifies this
      ensures outcome.Ok? ==> WithAttempt(lib, old(members), attempt) == Ok(members)
      ensures outcome.Err? ==> WithAttempt(lib, old(members), attempt) == Err(outcome.error) && members == old(members)
    {
      var attempts :- ReadAttempts(lib, members);
      attempts := attempts + [attempt];
      if |attempts| > MAX_RECENT_ATTEMPTS {
        attempts := attempts[|attempts| - MAX_RECENT_ATTEMPTS..];
      }
      Set(FIELD_ATTEMPTS, EncodeAttempts(lib, attempts));
      return Ok(());
    }

    /** Stamps the newest version and renders the object. */
    method Marshal() returns (encoded: Json)
      modifies this
      ensures members == Stamped(old(members))
      ensures encoded == JObject(members)
    {
      Set(FIELD_SCHEMA_VERSION, JInt(SUPPORTED_SCHEMA_VERSION));
      encoded := JObject(members);
    }
  }

  /** Free of duplicates and in a stable order. */
  method SortedUnique(values: seq<string>) returns (unique: seq<string>)
    ensures StrictlySorted(unique)
    ensures Elements(unique) == Elements(values)
    ensures unique == SortedUniqueOf(values)
  {
    var seen: set<string> := {};
    unique := [];
    for n := 0 to |values|
      invariant seen == Elements(unique) == Elements(values[..n])
      invariant forall i, j :: 0 <= i < j < |unique| ==> unique[i] != unique[j]
    {
      assert values[..n + 1] == values[..n] + [values[n]];
      if values[n] in seen {
        continue;
      }
      assert forall i :: 0 <= i < |unique| ==> unique[i] in Elements(unique);
      seen := seen + {values[n]};
      unique := unique + [values[n]];
    }
    assert values[..|values|] == values;
    unique := SortStrings(unique);
    StrictlySortedIsUnique(unique, SortedUniqueOf(values));
  }
}
