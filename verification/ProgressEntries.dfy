/**
 What an answer does to the entries it is not about. The document keeps its
 members as raw JSON, but the entries inside skillsByKana, masteryByKana and
 recentAttempts pass through typed values
 (internal/modules/progress/document.go), so only what those can hold survives.
 */
module ProgressEntries {
  import opened Wrappers
  import opened Codec
  import opened Documents
  import opened ProgressRules
  import opened Scoring

  /** The members of a document after an answer that it can take. */
  function AfterAnswer(lib: Library, m: Members, graded: Graded): Members
    requires ViewOf(lib, m).Ok?
  {
    Stamped(WithView(lib, m, GradeView(ViewOf(lib, m).value, graded)))
  }

  /** A successful answer leaves exactly those members in the row. */
  lemma AnswersLeaveTheseMembers(lib: Library, stored: Option<Json>, graded: Graded)
    requires Effect(lib, stored, Grade(graded)).Ok?
    ensures Parse(stored).Ok? && ViewOf(lib, Parse(stored).value).Ok?
    ensures Effect(lib, stored, Grade(graded)) == Ok(JObject(AfterAnswer(lib, Parse(stored).value, graded)))
  {
  }

  /** The entries of a raw object. */
  function Entries(m: Members, field: string): Members {
    if field in m && m[field].JObject? then m[field].members else map[]
  }

  /** Every member but the three it rewrites and the version comes through an answer as it was. */
  lemma AnswersKeepOtherMembers(lib: Library, stored: Option<Json>, m: Members, graded: Graded, field: string)
    requires Parse(stored) == Ok(m) && Effect(lib, stored, Grade(graded)).Ok?
    requires field !in PROTECTED_FIELDS
    ensures Effect(lib, stored, Grade(graded)).value.JObject?
    ensures Lookup(Effect(lib, stored, Grade(graded)).value.members, field) == Lookup(m, field)
  {
    AnswersLeaveTheseMembers(lib, stored, graded);
    FieldsAreDistinct();
  }

  lemma MembersAfterAnswer(lib: Library, m: Members, graded: Graded)
    requires ViewOf(lib, m).Ok?
    ensures var view := GradeView(ViewOf(lib, m).value, graded);
            var after := AfterAnswer(lib, m, graded);
            && Lookup(after, FIELD_SKILLS) == Some(EncodeSkillsByKana(view.skills))
            && Lookup(after, FIELD_MASTERY) == Some(EncodeMasteryByKana(view.mastery))
            && Lookup(after, FIELD_ATTEMPTS) == Some(EncodeAttempts(lib, view.attempts))
  {
    FieldsAreDistinct();
  }

  lemma ScoresAreRewritten(lib: Library, m: Members, graded: Graded, kana: string)
    requires ViewOf(lib, m).Ok? && kana != graded.kana && kana in Entries(m, FIELD_SKILLS)
    ensures var after := Entries(AfterAnswer(lib, m, graded), FIELD_SKILLS);
            && kana in after && DecodeSkills(Entries(m, FIELD_SKILLS)[kana]).Some?
            && after[kana] == EncodeSkills(DecodeSkills(Entries(m, FIELD_SKILLS)[kana]).value)
  {
    MembersAfterAnswer(lib, m, graded);
  }

  /** The scores of another kana are rewritten through four typed scores: unchanged exactly when written that way. */
  lemma GradingKeepsWrittenScores(lib: Library, stored: Option<Json>, m: Members, graded: Graded, kana: string)
    requires Parse(stored) == Ok(m) && Effect(lib, stored, Grade(graded)).Ok?
    requires kana != graded.kana && kana in Entries(m, FIELD_SKILLS)
    ensures var before := Entries(m, FIELD_SKILLS)[kana];
            var after := Entries(Effect(lib, stored, Grade(graded)).value.members, FIELD_SKILLS);
            kana in after && (after[kana] == before <==> IsWrittenSkills(before))
  {
    AnswersLeaveTheseMembers(lib, stored, graded);
    ScoresAreRewritten(lib, m, graded, kana);
    SkillsEntryIsKeptIffWritten(Entries(m, FIELD_SKILLS)[kana]);
  }

  /** The scores that an answer finds for its kana. */
  function ScoresFound(m: Members, kana: string): Option<Skills> {
    if kana in Entries(m, FIELD_SKILLS) then DecodeSkills(Entries(m, FIELD_SKILLS)[kana]) else Some(UNSEEN)
  }

  /** after has the moved scores of the kana answered, and the mastery they give; nothing else is in its entry. */
  ghost predicate HasOwnEntry(m: Members, after: Members, graded: Graded) {
    && ScoresFound(m, graded.kana).Some?
    && graded.kana in Entries(after, FIELD_SKILLS) && graded.kana in Entries(after, FIELD_MASTERY)
    && var moved := graded.Move(ScoresFound(m, graded.kana).value);
       && Entries(after, FIELD_SKILLS)[graded.kana] == EncodeSkills(moved)
       && Entries(after, FIELD_MASTERY)[graded.kana] == JString(MasteryFor(moved).Name())
  }

  lemma OwnEntryIsWritten(lib: Library, m: Members, graded: Graded)
    requires ViewOf(lib, m).Ok?
    ensures HasOwnEntry(m, AfterAnswer(lib, m, graded), graded)
  {
    MembersAfterAnswer(lib, m, graded);
  }

  /** The entry of the kana answered is written afresh: its four moved scores, and the mastery they give. */
  lemma GradingWritesItsOwnEntry(lib: Library, stored: Option<Json>, m: Members, graded: Graded)
    requires Parse(stored) == Ok(m) && Effect(lib, stored, Grade(graded)).Ok?
    ensures HasOwnEntry(m, Effect(lib, stored, Grade(graded)).value.members, graded)
  {
    AnswersLeaveTheseMembers(lib, stored, graded);
    OwnEntryIsWritten(lib, m, graded);
  }

  /** What reading and rewriting a mastery text makes of it. */
  function RewrittenMastery(j: Json): Json {
    if j == JNull then JString("") else j
  }

  lemma MasteryTexts(m: Members, kana: string)
    requires ReadMastery(m).Ok? && ReadMastery(m).value.Made? && kana in Entries(m, FIELD_MASTERY)
    ensures var entries := ReadMastery(m).value.entries;
            kana in entries && JString(entries[kana]) == RewrittenMastery(Entries(m, FIELD_MASTERY)[kana])
  {
  }

  lemma MasteryIsRewritten(lib: Library, m: Members, graded: Graded, kana: string)
    requires ViewOf(lib, m).Ok? && kana != graded.kana && kana in Entries(m, FIELD_MASTERY)
    ensures var after := Entries(AfterAnswer(lib, m, graded), FIELD_MASTERY);
            kana in after && after[kana] == RewrittenMastery(Entries(m, FIELD_MASTERY)[kana])
  {
    MasteryTexts(m, kana);
    MembersAfterAnswer(lib, m, graded);
  }

  /** The mastery of another kana stays, unless it was null: that becomes the empty string. */
  lemma GradingKeepsMasteryTexts(lib: Library, stored: Option<Json>, m: Members, graded: Graded, kana: string)
    requires Parse(stored) == Ok(m) && Effect(lib, stored, Grade(graded)).Ok?
    requires kana != graded.kana && kana in Entries(m, FIELD_MASTERY)
    ensures var before := Entries(m, FIELD_MASTERY)[kana];
            var after := Entries(Effect(lib, stored, Grade(graded)).value.members, FIELD_MASTERY);
            kana in after && (after[kana] == before <==> before != JNull) &&
                (before == JNull ==> after[kana] == JString(""))
  {
    AnswersLeaveTheseMembers(lib, stored, graded);
    MasteryIsRewritten(lib, m, graded, kana);
  }

  /** The raw items of the attempt window. */
  function Items(m: Members): seq<Json> {
    if FIELD_ATTEMPTS in m && m[FIELD_ATTEMPTS].JArray? then m[FIELD_ATTEMPTS].items else []
  }

  /** How many of the oldest items an answer pushes out. */
  function PushedOut(items: seq<Json>): nat {
    if |items| < MAX_RECENT_ATTEMPTS then 0 else |items| + 1 - MAX_RECENT_ATTEMPTS
  }

  lemma ItemsAreDecoded(lib: Library, m: Members)
    requires ReadAttempts(lib, m).Ok?
    ensures |ReadAttempts(lib, m).value| == |Items(m)|
    ensures forall i :: 0 <= i < |Items(m)| ==>
              DecodeAttempt(lib, Items(m)[i]) == Some(ReadAttempts(lib, m).value[i])
  {
  }

  lemma NewestAt(attempts: seq<Attempt>, attempt: Attempt, i: nat)
    requires |attempts| >= MAX_RECENT_ATTEMPTS ==> |attempts| + 1 - MAX_RECENT_ATTEMPTS <= i
    requires i < |attempts|
    ensures var window := Newest(attempts + [attempt]);
            var pushed := if |attempts| < MAX_RECENT_ATTEMPTS then 0 else |attempts| + 1 - MAX_RECENT_ATTEMPTS;
            |window| == |attempts| + 1 - pushed && window[i - pushed] == attempts[i]
  {
  }

  lemma EncodedNewestAt(lib: Library, attempts: seq<Attempt>, attempt: Attempt, i: nat)
    requires |attempts| >= MAX_RECENT_ATTEMPTS ==> |attempts| + 1 - MAX_RECENT_ATTEMPTS <= i
    requires i < |attempts|
    ensures var items := EncodeAttempts(lib, Newest(attempts + [attempt])).items;
            var pushed := if |attempts| < MAX_RECENT_ATTEMPTS then 0 else |attempts| + 1 - MAX_RECENT_ATTEMPTS;
            |items| == |attempts| + 1 - pushed && items[i - pushed] == EncodeAttempt(lib, attempts[i])
  {
    NewestAt(attempts, attempt, i);
  }

  lemma WindowIsRewritten(lib: Library, m: Members, attempt: Attempt, after: seq<Json>, i: nat)
    requires ReadAttempts(lib, m).Ok?
    requires after == EncodeAttempts(lib, Newest(ReadAttempts(lib, m).value + [attempt])).items
    requires PushedOut(Items(m)) <= i < |Items(m)|
    ensures |after| == |Items(m)| + 1 - PushedOut(Items(m))
    ensures DecodeAttempt(lib, Items(m)[i]).Some?
    ensures after[i - PushedOut(Items(m))] == EncodeAttempt(lib, DecodeAttempt(lib, Items(m)[i]).value)
  {
    ItemsAreDecoded(lib, m);
    EncodedNewestAt(lib, ReadAttempts(lib, m).value, attempt, i);
  }

  lemma ItemIsRewritten(lib: Library, m: Members, graded: Graded, i: nat)
    requires ViewOf(lib, m).Ok? && PushedOut(Items(m)) <= i < |Items(m)|
    ensures var after := Items(AfterAnswer(lib, m, graded));
            && |after| == |Items(m)| + 1 - PushedOut(Items(m))
            && DecodeAttempt(lib, Items(m)[i]).Some?
            && after[i - PushedOut(Items(m))] == EncodeAttempt(lib, DecodeAttempt(lib, Items(m)[i]).value)
  {
    MembersAfterAnswer(lib, m, graded);
    WindowIsRewritten(lib, m, graded.Stored(), Items(AfterAnswer(lib, m, graded)), i);
  }

  lemma ItemIsKeptIffWritten(lib: Library, m: Members, graded: Graded, i: nat)
    requires lib.Valid() && ViewOf(lib, m).Ok? && PushedOut(Items(m)) <= i < |Items(m)|
    ensures var after := Items(AfterAnswer(lib, m, graded));
            && |after| == |Items(m)| + 1 - PushedOut(Items(m))
            && (after[i - PushedOut(Items(m))] == Items(m)[i] <==> IsWrittenEntry(lib, Items(m)[i]))
  {
    ItemIsRewritten(lib, m, graded, i);
    EntryIsKeptIffWritten(lib, Items(m)[i]);
  }

  /**
   Every older attempt that stays in the window comes back as it was exactly when the server could
   have written it.
   */
  lemma GradingKeepsWrittenAttempts(lib: Library, stored: Option<Json>, m: Members, graded: Graded, i: nat)
    requires lib.Valid() && Parse(stored) == Ok(m) && Effect(lib, stored, Grade(graded)).Ok?
    requires PushedOut(Items(m)) <= i < |Items(m)|
    ensures var before := Items(m);
            var after := Items(Effect(lib, stored, Grade(graded)).value.members);
            && |after| == |before| + 1 - PushedOut(before)
            && (after[i - PushedOut(before)] == before[i] <==> IsWrittenEntry(lib, before[i]))
  {
    AnswersLeaveTheseMembers(lib, stored, graded);
    ItemIsKeptIffWritten(lib, m, graded, i);
  }

  // ---- Rows that lose something ----

  /** An answer to a readable row without a version fails only by size. */
  lemma ReadableRowsAreGraded(lib: Library, m: Members, graded: Graded)
    requires FIELD_SCHEMA_VERSION !in m && ViewOf(lib, m).Ok?
    ensures Parse(Some(JObject(m))) == Ok(m)
    ensures var effect := Effect(lib, Some(JObject(m)), Grade(graded)); effect.Ok? || effect == Err(InvalidData)
  {
  }

  /** A row that PUT may store: the scores of one kana, with a member of the client's own. */
  function ScoresWithNote(kana: string): Json {
    JObject(map[FIELD_SKILLS := JObject(map[kana := JObject(
      EncodeSkills(UNSEEN).members["note" := JString("mine")])])])
  }

  lemma NotedScoresAreRead(lib: Library, kana: string)
    ensures var row := ScoresWithNote(kana);
            && DecodeSkills(row.members[FIELD_SKILLS].members[kana]) == Some(UNSEEN)
            && ViewOf(lib, row.members).Ok? && FIELD_SCHEMA_VERSION !in row.members
            && kana in Entries(row.members, FIELD_SKILLS)
  {
    FieldsAreDistinct();
    var raw := ScoresWithNote(kana).members[FIELD_SKILLS].members[kana];
    assert DecodeSkills(raw) == Some(UNSEEN);
  }

  /** An answer about any other kana drops that member, unless the result is too large to be stored at all. */
  lemma GradingLosesAScoreNote(lib: Library, graded: Graded, kana: string)
    requires kana != graded.kana
    requires Effect(lib, Some(ScoresWithNote(kana)), Grade(graded)) != Err(InvalidData)
    ensures var row := ScoresWithNote(kana);
            && Effect(lib, Some(row), Grade(graded)).Ok?
            && Entries(row.members, FIELD_SKILLS)[kana].members["note"] == JString("mine")
            && var after := Entries(Effect(lib, Some(row), Grade(graded)).value.members, FIELD_SKILLS);
               kana in after && after[kana] == EncodeSkills(UNSEEN) && "note" !in after[kana].members
  {
    var row := ScoresWithNote(kana);
    FieldsAreDistinct();
    NotedScoresAreRead(lib, kana);
    ReadableRowsAreGraded(lib, row.members, graded);
    AnswersLeaveTheseMembers(lib, Some(row), graded);
    ScoresAreRewritten(lib, row.members, graded, kana);
  }

  /** A row that PUT may store: one v1 attempt, with a member of the client's own. */
  function AttemptWithNote(lib: Library): Json {
    JObject(map[FIELD_ATTEMPTS := JArray([JObject(
      map["correct" := JBool(true), "at" := JString(lib.writeTime(lib.zeroTime)), "note" := JString("mine")])])])
  }

  lemma NotedAttemptIsRead(lib: Library)
    requires lib.Valid()
    ensures var row := AttemptWithNote(lib);
            && |Items(row.members)| == 1
            && DecodeAttempt(lib, Items(row.members)[0]) == Some(Attempt("", "", true, "", lib.zeroTime))
            && ViewOf(lib, row.members).Ok? && FIELD_SCHEMA_VERSION !in row.members
  {
    FieldsAreDistinct();
    var item := AttemptWithNote(lib).members[FIELD_ATTEMPTS].items[0];
    assert DecodeAttempt(lib, item) == Some(Attempt("", "", true, "", lib.zeroTime));
  }

  /** Any answer drops that member, unless the result is too large to be stored at all. */
  lemma GradingLosesAnAttemptNote(lib: Library, graded: Graded)
    requires lib.Valid() && Effect(lib, Some(AttemptWithNote(lib)), Grade(graded)) != Err(InvalidData)
    ensures var row := AttemptWithNote(lib);
            && Effect(lib, Some(row), Grade(graded)).Ok?
            && Items(row.members)[0].members["note"] == JString("mine")
            && var after := Items(Effect(lib, Some(row), Grade(graded)).value.members);
               |after| == 2 && after[0].JObject? && "note" !in after[0].members
  {
    var row := AttemptWithNote(lib);
    NotedAttemptIsRead(lib);
    ReadableRowsAreGraded(lib, row.members, graded);
    AnswersLeaveTheseMembers(lib, Some(row), graded);
    ItemIsRewritten(lib, row.members, graded, 0);
    EncodedMembers(lib, Attempt("", "", true, "", lib.zeroTime));
  }
}
