/**
 What one accepted change does to a stored document
 (internal/modules/progress/service.go): the closures of RecordAnswer,
 CompleteLesson and Merge inside mutate, and the checks in front of them.
 */
module ProgressRules {
  import opened Wrappers
  import opened Scoring
  import opened Codec
  import opened Documents
  import opened Text
  import opened Kana

  const MAX_LESSON_ID_LENGTH := 64
  const MAX_CHOSEN_LENGTH := 32

  /** One validated attempt. */
  datatype Graded = Graded(kana: string, skill: Skill, correct: bool, chosen: string, at: Time) {
    function Stored(): Attempt {
      Attempt(kana, skill.Name(), correct, chosen, at)
    }

    /** The scores of this kana after the answer. */
    function Move(scores: Skills): Skills {
      scores.SetScore(skill, ApplyAnswer(scores.Score(skill), correct))
    }
  }

  /** A validated change of one stored document. Replace is PUT. */
  datatype Change =
    | Grade(graded: Graded)
    | Complete(lessonId: string)
    | Patch(members: Members)
    | Replace(data: Json)

  // ---- The server-owned members as one value ----

  datatype View = View(skills: map<string, Skills>, mastery: map<string, string>, attempts: seq<Attempt>)

  /** What RecordAnswer reads, failing in the order in which it reads. */
  function ViewOf(lib: Library, m: Members): Result<View, Error> {
    var skills :- ReadSkills(m);
    var mastery :- ReadMastery(m);
    if skills.Nil? || mastery.Nil? then Err(NilMapPanic)
    else
      var attempts :- ReadAttempts(lib, m);
      Ok(View(skills.entries, mastery.entries, attempts))
  }

  function WithView(lib: Library, m: Members, view: View): Members {
    m[FIELD_SKILLS := EncodeSkillsByKana(view.skills)]
     [FIELD_MASTERY := EncodeMasteryByKana(view.mastery)]
     [FIELD_ATTEMPTS := EncodeAttempts(lib, view.attempts)]
  }

  function SkillsOf(skills: map<string, Skills>, kana: string): Skills {
    if kana in skills then skills[kana] else UNSEEN
  }

  /** One answer: move the score, recompute the mastery, push the attempt. */
  function GradeView(view: View, graded: Graded): View {
    var updated := graded.Move(SkillsOf(view.skills, graded.kana));
    View(view.skills[graded.kana := updated],
         view.mastery[graded.kana := MasteryFor(updated).Name()],
         Newest(view.attempts + [graded.Stored()]))
  }

  /** The view written into a document is the view read from it. */
  lemma ViewRoundTrip(lib: Library, m: Members, view: View)
    requires lib.Valid()
    ensures ViewOf(lib, WithView(lib, m, view)) == Ok(view)
  {
    SkillsByKanaRoundTrip(view.skills);
    MasteryByKanaRoundTrip(view.mastery);
    AttemptsRoundTrip(lib, view.attempts);
    var w := WithView(lib, m, view);
    assert w[FIELD_SKILLS] == EncodeSkillsByKana(view.skills);
    assert w[FIELD_MASTERY] == EncodeMasteryByKana(view.mastery);
  }

  /** Only the three members matter to the view. */
  lemma ViewDependsOnItsMembers(lib: Library, m: Members, n: Members)
    requires Lookup(m, FIELD_SKILLS) == Lookup(n, FIELD_SKILLS)
    requires Lookup(m, FIELD_MASTERY) == Lookup(n, FIELD_MASTERY)
    requires Lookup(m, FIELD_ATTEMPTS) == Lookup(n, FIELD_ATTEMPTS)
    ensures ViewOf(lib, m) == ViewOf(lib, n)
  {
  }

  // ---- One change inside the transaction ----

  function ApplyChange(lib: Library, m: Members, change: Change): Result<Members, Error>
    requires !change.Replace?
  {
    match change
    case Grade(graded) =>
      var view :- ViewOf(lib, m);
      Ok(WithView(lib, m, GradeView(view, graded)))
    case Complete(lessonId) =>
      var lessons :- ReadLessons(m);
      Ok(m[FIELD_LESSONS := EncodeLessons(SortedUniqueOf(lessons + [lessonId]))])
    case Patch(members) => Merged(m, members)
  }

  /**
   The whole effect of one change on the stored row: mutate's parse, apply,
   stamp and size check, or the plain overwrite of PUT.
   */
  function Effect(lib: Library, stored: Option<Json>, change: Change): Result<Json, Error> {
    if change.Replace? then Ok(change.data)
    else
      var m :- Parse(stored);
      var changed :- ApplyChange(lib, m, change);
      var updated := JObject(Stamped(changed));
      if lib.size(updated) > MAX_DATA_SIZE then Err(InvalidData) else Ok(updated)
  }

  /** The stored row after a sequence of changes that all succeed. */
  function Replay(lib: Library, stored: Option<Json>, changes: seq<Change>): Result<Option<Json>, Error> {
    if changes == [] then Ok(stored)
    else
      var before :- Replay(lib, stored, changes[..|changes| - 1]);
      var updated :- Effect(lib, before, changes[|changes| - 1]);
      Ok(Some(updated))
  }

  lemma ReplaySnoc(lib: Library, stored: Option<Json>, changes: seq<Change>, last: Change)
    ensures Replay(lib, stored, changes + [last]) ==
            (var before :- Replay(lib, stored, changes);
             var updated :- Effect(lib, before, last);
             Ok(Some(updated)))
  {
    assert (changes + [last])[..|changes|] == changes;
  }

  // ---- Requests and the checks in front of the repository ----

  datatype Answer = Answer(kana: string, skill: string, correct: bool, chosen: string)

  /** A request body: its length, and its value when it is valid JSON. */
  datatype Body = Body(length: nat, parsed: Option<Json>)

  function SkillNamed(name: string): (r: Option<Skill>)
    ensures r.Some? <==> exists skill: Skill :: skill.Name() == name
    ensures r.Some? ==> r.value.Name() == name
  {
    if name == Recognition.Name() then Some(Recognition)
    else if name == Writing.Name() then Some(Writing)
    else if name == Listening.Name() then Some(Listening)
    else if name == Reading.Name() then Some(Reading)
    else None
  }

  ghost function CheckedAnswer(answer: Answer, at: Time): Result<Change, Error> {
    var skill := SkillNamed(answer.skill);
    if skill.None? || !IsKanaUnit(answer.kana) || ByteLength(answer.chosen) > MAX_CHOSEN_LENGTH then Err(InvalidAnswer)
    else Ok(Grade(Graded(answer.kana, skill.value, answer.correct, answer.chosen, at)))
  }

  predicate IsLessonRune(r: char) {
    || r == '-' || r == '_' || r == '.'
    || '0' <= r <= '9' || 'a' <= r <= 'z' || 'A' <= r <= 'Z'
  }

  ghost predicate IsLessonId(lessonId: string) {
    lessonId != "" && ByteLength(lessonId) <= MAX_LESSON_ID_LENGTH && forall r :: r in lessonId ==> IsLessonRune(r)
  }

  ghost function CheckedLesson(raw: string): Result<Change, Error> {
    if IsLessonId(TrimSpace(raw)) then Ok(Complete(TrimSpace(raw))) else Err(InvalidLesson)
  }

  function CheckedPatch(patch: Body): Result<Change, Error> {
    if patch.length == 0 then Err(EmptyPatch)
    else if patch.length > MAX_DATA_SIZE then Err(InvalidData)
    else
      match patch.parsed
      case Some(JObject(members)) => if members == map[] then Err(EmptyPatch) else Ok(Patch(members))
      case _ => Err(UnreadablePatch)
  }

  function CheckedSave(data: Body): Result<Change, Error> {
    if data.length == 0 || data.length > MAX_DATA_SIZE || data.parsed.None? then Err(InvalidData)
    else Ok(Replace(data.parsed.value))
  }

  datatype Request =
    | AnswerRequest(answer: Answer, at: Time)
    | LessonRequest(lessonId: string)
    | PatchRequest(patch: Body)
    | SaveRequest(data: Body)

  ghost function Checked(request: Request): Result<Change, Error> {
    match request
    case AnswerRequest(answer, at) => CheckedAnswer(answer, at)
    case LessonRequest(lessonId) => CheckedLesson(lessonId)
    case PatchRequest(patch) => CheckedPatch(patch)
    case SaveRequest(data) => CheckedSave(data)
  }

  /** A request's change, or the error that leaves everything as it was. */
  ghost function Handle(lib: Library, stored: Option<Json>, request: Request): Result<Json, Error> {
    var change :- Checked(request);
    Effect(lib, stored, change)
  }
}
