/**
 The stored document as a function of the whole history: the incrementally
 maintained members against the simple definition over the full answer log.
 */
module ProgressHistory {
  import opened Wrappers
  import opened Scoring
  import opened Codec
  import opened Documents
  import opened ProgressRules
  import opened Text

  // ---- The simple definition: everything from the log, nothing incremental ----

  /** The answers to one kana in one skill, in order. */
  function AnswersTo(log: seq<Graded>, kana: string, skill: Skill): seq<bool> {
    if log == [] then []
    else
      var last := log[|log| - 1];
      var before := AnswersTo(log[..|log| - 1], kana, skill);
      if last.kana == kana && last.skill == skill then before + [last.correct] else before
  }

  function KanaIn(log: seq<Graded>): set<string> {
    set i | 0 <= i < |log| :: log[i].kana
  }

  function StoredAttempts(log: seq<Graded>): seq<Attempt> {
    seq(|log|, i requires 0 <= i < |log| => log[i].Stored())
  }

  function SkillsFromLog(start: Skills, log: seq<Graded>, kana: string): Skills {
    Skills(FoldScore(start.recognition, AnswersTo(log, kana, Recognition)),
           FoldScore(start.writing, AnswersTo(log, kana, Writing)),
           FoldScore(start.listening, AnswersTo(log, kana, Listening)),
           FoldScore(start.reading, AnswersTo(log, kana, Reading)))
  }

  function SkillsAfter(skills: map<string, Skills>, log: seq<Graded>): map<string, Skills> {
    map kana | kana in skills.Keys + KanaIn(log) :: SkillsFromLog(SkillsOf(skills, kana), log, kana)
  }

  function MasteryAfter(view: View, log: seq<Graded>): map<string, string> {
    map kana | kana in view.mastery.Keys + KanaIn(log) ::
      if kana in KanaIn(log) then MasteryFor(SkillsFromLog(SkillsOf(view.skills, kana), log, kana)).Name()
      else view.mastery[kana]
  }

  /** The view after the whole log, each part computed from scratch. */
  function ViewAfter(view: View, log: seq<Graded>): View {
    View(SkillsAfter(view.skills, log),
         MasteryAfter(view, log),
         if log == [] then view.attempts else Newest(view.attempts + StoredAttempts(log)))
  }

  const FRESH_VIEW := View(map[], map[], [])

  // ---- One more answer agrees with the simple definition ----

  lemma SameScores(a: Skills, b: Skills)
    requires forall skill: Skill :: a.Score(skill) == b.Score(skill)
    ensures a == b
  {
    assert a.Score(Recognition) == b.Score(Recognition) && a.Score(Writing) == b.Score(Writing);
    assert a.Score(Listening) == b.Score(Listening) && a.Score(Reading) == b.Score(Reading);
  }

  lemma AnswersToSnoc(log: seq<Graded>, graded: Graded, kana: string, skill: Skill)
    ensures AnswersTo(log + [graded], kana, skill) ==
            if graded.kana == kana && graded.skill == skill
            then AnswersTo(log, kana, skill) + [graded.correct] else AnswersTo(log, kana, skill)
  {
    assert (log + [graded])[..|log|] == log;
  }

  /** Every score is the fold of its own answers, whatever else the log holds. */
  lemma ScoreFromLog(start: Skills, log: seq<Graded>, kana: string, skill: Skill)
    ensures SkillsFromLog(start, log, kana).Score(skill) == FoldScore(start.Score(skill), AnswersTo(log, kana, skill))
  {
    match skill
    case Recognition | Writing | Listening | Reading =>
  }

  lemma SkillsFromLogSnoc(start: Skills, log: seq<Graded>, graded: Graded, kana: string)
    ensures var before := SkillsFromLog(start, log, kana);
            SkillsFromLog(start, log + [graded], kana) == if graded.kana == kana then graded.Move(before) else before
  {
    var before, after := SkillsFromLog(start, log, kana), SkillsFromLog(start, log + [graded], kana);
    var stepped := if graded.kana == kana then graded.Move(before) else before;
    forall skill: Skill ensures after.Score(skill) == stepped.Score(skill) {
      AnswersToSnoc(log, graded, kana, skill);
      ScoreFromLog(start, log, kana, skill);
      ScoreFromLog(start, log + [graded], kana, skill);
      FoldScoreSnoc(start.Score(skill), AnswersTo(log, kana, skill), graded.correct);
    }
    SameScores(after, stepped);
  }

  lemma KanaInSnoc(log: seq<Graded>, graded: Graded)
    ensures KanaIn(log + [graded]) == KanaIn(log) + {graded.kana}
  {
    var longer := log + [graded];
    assert longer[|log|] == graded;
    assert forall i :: 0 <= i < |log| ==> longer[i] == log[i];
  }

  lemma NoAnswersOutsideTheLog(log: seq<Graded>, kana: string, skill: Skill)
    requires kana !in KanaIn(log)
    ensures AnswersTo(log, kana, skill) == []
  {
    if log != [] {
      assert log[|log| - 1].kana in KanaIn(log);
      assert KanaIn(log[..|log| - 1]) <= KanaIn(log);
      NoAnswersOutsideTheLog(log[..|log| - 1], kana, skill);
    }
  }

  lemma UntouchedKanaKeepsItsSkills(start: Skills, log: seq<Graded>, kana: string)
    requires kana !in KanaIn(log)
    ensures SkillsFromLog(start, log, kana) == start
  {
    forall skill: Skill ensures AnswersTo(log, kana, skill) == [] {
      NoAnswersOutsideTheLog(log, kana, skill);
    }
  }

  /** Trimming after every answer keeps the same window as trimming once at the end. */
  lemma TrimmingCommutes(attempts: seq<Attempt>, attempt: Attempt)
    ensures Newest(Newest(attempts) + [attempt]) == Newest(attempts + [attempt])
  {
  }

  lemma EmptyLogKeepsTheView(view: View)
    ensures ViewAfter(view, []) == view
  {
    assert KanaIn([]) == {};
    assert SkillsAfter(view.skills, []) == view.skills;
    assert MasteryAfter(view, []) == view.mastery;
  }

  lemma SkillsAfterAt(skills: map<string, Skills>, log: seq<Graded>, kana: string)
    ensures SkillsOf(SkillsAfter(skills, log), kana) == SkillsFromLog(SkillsOf(skills, kana), log, kana)
  {
    if kana !in skills.Keys + KanaIn(log) {
      UntouchedKanaKeepsItsSkills(UNSEEN, log, kana);
    }
  }

  lemma GradingSkillsAt(skills: map<string, Skills>, log: seq<Graded>, graded: Graded, kana: string)
    ensures SkillsOf(SkillsAfter(skills, log + [graded]), kana) ==
            if graded.kana == kana then graded.Move(SkillsOf(SkillsAfter(skills, log), kana))
            else SkillsOf(SkillsAfter(skills, log), kana)
  {
    SkillsAfterAt(skills, log, kana);
    SkillsAfterAt(skills, log + [graded], kana);
    SkillsFromLogSnoc(SkillsOf(skills, kana), log, graded, kana);
  }

  lemma OneEntryMoved(before: map<string, Skills>, after: map<string, Skills>, kana: string, moved: Skills)
    requires after.Keys == before.Keys + {kana}
    requires forall other: string :: SkillsOf(after, other) == if other == kana then moved else SkillsOf(before, other)
    ensures before[kana := moved] == after
  {
    forall other | other in after ensures after[other] == before[kana := moved][other] {
      assert SkillsOf(after, other) == after[other];
    }
  }

  lemma GradingSkills(skills: map<string, Skills>, log: seq<Graded>, graded: Graded)
    ensures var before := SkillsAfter(skills, log);
            before[graded.kana := graded.Move(SkillsOf(before, graded.kana))] == SkillsAfter(skills, log + [graded])
  {
    var before, after := SkillsAfter(skills, log), SkillsAfter(skills, log + [graded]);
    assert after.Keys == before.Keys + {graded.kana} by {
      KanaInSnoc(log, graded);
    }
    forall other: string
      ensures SkillsOf(after, other) ==
              if other == graded.kana then graded.Move(SkillsOf(before, graded.kana)) else SkillsOf(before, other)
    {
      GradingSkillsAt(skills, log, graded, other);
    }
    OneEntryMoved(before, after, graded.kana, graded.Move(SkillsOf(before, graded.kana)));
  }

  lemma MasteryAfterAt(view: View, log: seq<Graded>, kana: string)
    requires kana in KanaIn(log)
    ensures kana in MasteryAfter(view, log)
    ensures MasteryAfter(view, log)[kana] == MasteryFor(SkillsOf(SkillsAfter(view.skills, log), kana)).Name()
  {
    SkillsAfterAt(view.skills, log, kana);
  }

  lemma GradingMasteryAt(view: View, log: seq<Graded>, graded: Graded, moved: Skills, kana: string)
    requires moved == graded.Move(SkillsOf(SkillsAfter(view.skills, log), graded.kana))
    ensures kana in MasteryAfter(view, log + [graded]) ==>
              && (graded.kana == kana || kana in MasteryAfter(view, log))
              && MasteryAfter(view, log + [graded])[kana] ==
                 if graded.kana == kana then MasteryFor(moved).Name() else MasteryAfter(view, log)[kana]
  {
    KanaInSnoc(log, graded);
    GradingSkillsAt(view.skills, log, graded, kana);
    if kana in KanaIn(log + [graded]) {
      MasteryAfterAt(view, log + [graded], kana);
    }
    if kana in KanaIn(log) {
      MasteryAfterAt(view, log, kana);
    }
  }

  lemma MasteryKeysGrow(view: View, log: seq<Graded>, graded: Graded)
    ensures MasteryAfter(view, log + [graded]).Keys == MasteryAfter(view, log).Keys + {graded.kana}
  {
    KanaInSnoc(log, graded);
  }

  lemma OneTextMoved(before: map<string, string>, after: map<string, string>, kana: string, text: string)
    requires after.Keys == before.Keys + {kana}
    requires forall other :: other in after ==> after[other] == if kana == other then text else before[other]
    ensures before[kana := text] == after
  {
  }

  lemma GradingMastery(view: View, log: seq<Graded>, graded: Graded, moved: Skills)
    requires moved == graded.Move(SkillsOf(SkillsAfter(view.skills, log), graded.kana))
    ensures MasteryAfter(view, log)[graded.kana := MasteryFor(moved).Name()] == MasteryAfter(view, log + [graded])
  {
    var before, after, text := MasteryAfter(view, log), MasteryAfter(view, log + [graded]), MasteryFor(moved).Name();
    MasteryKeysGrow(view, log, graded);
    forall kana | kana in after
      ensures after[kana] == if graded.kana == kana then text else before[kana]
    {
      GradingMasteryAt(view, log, graded, moved, kana);
    }
    OneTextMoved(before, after, graded.kana, text);
  }

  lemma GradingAttempts(view: View, log: seq<Graded>, graded: Graded)
    ensures GradeView(ViewAfter(view, log), graded).attempts == ViewAfter(view, log + [graded]).attempts
  {
    assert StoredAttempts(log + [graded]) == StoredAttempts(log) + [graded.Stored()];
    assert view.attempts + StoredAttempts(log + [graded]) == (view.attempts + StoredAttempts(log)) + [graded.Stored()];
    if log == [] {
      assert view.attempts + StoredAttempts(log) == view.attempts;
    } else {
      TrimmingCommutes(view.attempts + StoredAttempts(log), graded.Stored());
    }
  }

  /** The incremental step of RecordAnswer keeps the simple definition. */
  lemma GradingIsOneMoreLogEntry(view: View, log: seq<Graded>, graded: Graded)
    ensures GradeView(ViewAfter(view, log), graded) == ViewAfter(view, log + [graded])
  {
    GradingSkills(view.skills, log, graded);
    GradingMastery(view, log, graded, graded.Move(SkillsOf(SkillsAfter(view.skills, log), graded.kana)));
    GradingAttempts(view, log, graded);
  }

  // ---- Every member of the document, from the sequence of committed changes ----

  function Grades(changes: seq<Change>): seq<Graded> {
    if changes == [] then []
    else
      var before, last := Grades(changes[..|changes| - 1]), changes[|changes| - 1];
      if last.Grade? then before + [last.graded] else before
  }

  /** The values patches gave to one member, in order. */
  function PatchedValues(changes: seq<Change>, field: string): seq<Json> {
    if changes == [] then []
    else
      var before, last := PatchedValues(changes[..|changes| - 1], field), changes[|changes| - 1];
      if last.Patch? && field in last.members then before + [last.members[field]] else before
  }

  /** The lessons completed since the last patch that carried the list. */
  function LessonsSincePatch(changes: seq<Change>): seq<string> {
    if changes == [] then []
    else
      var before, last := LessonsSincePatch(changes[..|changes| - 1]), changes[|changes| - 1];
      if last.Complete? then before + [last.lessonId]
      else if last.Patch? && FIELD_LESSONS in last.members then []
      else before
  }

  /** The value of a member nobody but the client writes. */
  function ClientMember(m: Members, changes: seq<Change>, field: string): Option<Json> {
    var values := PatchedValues(changes, field);
    if values != [] then Some(values[|values| - 1]) else Lookup(m, field)
  }

  function LessonsOfMember(member: Option<Json>): seq<string> {
    if member.Some? && DecodeLessons(member.value).Some? then DecodeLessons(member.value).value else []
  }

  function LessonList(listed: seq<string>, ids: seq<string>): Json {
    EncodeLessons(SortedUniqueOf(listed + ids))
  }

  function LessonsMember(m: Members, changes: seq<Change>): Option<Json> {
    var base, ids := ClientMember(m, changes, FIELD_LESSONS), LessonsSincePatch(changes);
    if ids == [] then base else Some(LessonList(LessonsOfMember(base), ids))
  }

  function ViewMember(lib: Library, m: Members, log: seq<Graded>, field: string, encode: View -> Json): Option<Json> {
    if log == [] || ViewOf(lib, m).Err? then Lookup(m, field)
    else Some(encode(ViewAfter(ViewOf(lib, m).value, log)))
  }

  /** The closed form of one member after at least one change. */
  function FinalMember(lib: Library, m: Members, changes: seq<Change>, field: string): Option<Json> {
    var log := Grades(changes);
    if field == FIELD_SCHEMA_VERSION then Some(JInt(SUPPORTED_SCHEMA_VERSION))
    else if field == FIELD_SKILLS then ViewMember(lib, m, log, field, (view: View) => EncodeSkillsByKana(view.skills))
    else if field == FIELD_MASTERY then ViewMember(lib, m, log, field,
        (view: View) => EncodeMasteryByKana(view.mastery))
    else if field == FIELD_ATTEMPTS then ViewMember(lib, m, log, field,
        (view: View) => EncodeAttempts(lib, view.attempts))
    else if field == FIELD_LESSONS then LessonsMember(m, changes)
    else ClientMember(m, changes, field)
  }

  ghost predicate NoReplace(changes: seq<Change>) {
    changes != [] ==> NoReplace(changes[..|changes| - 1]) && !changes[|changes| - 1].Replace?
  }

  lemma {:induction false} NoReplaceAnywhere(changes: seq<Change>)
    requires forall i :: 0 <= i < |changes| ==> !changes[i].Replace?
    ensures NoReplace(changes)
  {
    if changes != [] {
      NoReplaceAnywhere(changes[..|changes| - 1]);
    }
  }

  /** The members m after the changes: the start itself, or the closed form of every member. */
  ghost predicate IsFinal(lib: Library, m: Members, changes: seq<Change>, final: Members) {
    && (changes == [] ==> final == m)
    && (changes != [] ==> forall field :: Lookup(final, field) == FinalMember(lib, m, changes, field))
  }

  lemma FinalView(lib: Library, m: Members, changes: seq<Change>, final: Members)
    requires lib.Valid()
    requires IsFinal(lib, m, changes, final)
    ensures Grades(changes) == [] || ViewOf(lib, m).Err? ==> ViewOf(lib, final) == ViewOf(lib, m)
    ensures ViewOf(lib, m).Ok? ==> ViewOf(lib, final) == Ok(ViewAfter(ViewOf(lib, m).value, Grades(changes)))
  {
    FieldsAreDistinct();
    var log := Grades(changes);
    if ViewOf(lib, m).Ok? {
      EmptyLogKeepsTheView(ViewOf(lib, m).value);
    }
    if changes != [] {
      assert Lookup(final, FIELD_SKILLS) == FinalMember(lib, m, changes, FIELD_SKILLS);
      assert Lookup(final, FIELD_MASTERY) == FinalMember(lib, m, changes, FIELD_MASTERY);
      assert Lookup(final, FIELD_ATTEMPTS) == FinalMember(lib, m, changes, FIELD_ATTEMPTS);
      if log == [] || ViewOf(lib, m).Err? {
        ViewDependsOnItsMembers(lib, m, final);
      } else {
        var view := ViewAfter(ViewOf(lib, m).value, log);
        ViewRoundTrip(lib, m, view);
        ViewDependsOnItsMembers(lib, WithView(lib, m, view), final);
      }
    }
  }

  // ---- The closed form is what the changes leave, one change at a time ----

  lemma HistorySnoc(changes: seq<Change>, last: Change, field: string)
    ensures Grades(changes + [last]) == if last.Grade? then Grades(changes) + [last.graded] else Grades(changes)
    ensures PatchedValues(changes + [last], field) ==
            if last.Patch? && field in last.members then PatchedValues(changes, field) + [last.members[field]]
            else PatchedValues(changes, field)
    ensures LessonsSincePatch(changes + [last]) ==
            if last.Complete? then LessonsSincePatch(changes) + [last.lessonId]
            else if last.Patch? && FIELD_LESSONS in last.members then []
            else LessonsSincePatch(changes)
  {
    assert (changes + [last])[..|changes|] == changes;
  }

  /** Before the first change the closed form is the member itself, except for the version stamp. */
  lemma FinalMembers(lib: Library, m: Members, changes: seq<Change>, final: Members, field: string)
    requires IsFinal(lib, m, changes, final)
    requires field != FIELD_SCHEMA_VERSION
    ensures Lookup(final, field) == FinalMember(lib, m, changes, field)
  {
  }

  lemma WithViewMembers(lib: Library, m: Members, view: View, field: string)
    ensures Lookup(Stamped(WithView(lib, m, view)), field) ==
            if field == FIELD_SCHEMA_VERSION then Some(JInt(SUPPORTED_SCHEMA_VERSION))
            else if field == FIELD_SKILLS then Some(EncodeSkillsByKana(view.skills))
            else if field == FIELD_MASTERY then Some(EncodeMasteryByKana(view.mastery))
            else if field == FIELD_ATTEMPTS then Some(EncodeAttempts(lib, view.attempts))
            else Lookup(m, field)
  {
    FieldsAreDistinct();
  }

  lemma GradeOwnsThree(lib: Library, m: Members, changes: seq<Change>, graded: Graded, field: string)
    requires field !in {FIELD_SCHEMA_VERSION, FIELD_SKILLS, FIELD_MASTERY, FIELD_ATTEMPTS}
    ensures FinalMember(lib, m, changes + [Grade(graded)], field) == FinalMember(lib, m, changes, field)
  {
    HistorySnoc(changes, Grade(graded), field);
    HistorySnoc(changes, Grade(graded), FIELD_LESSONS);
  }

  lemma ViewMembersAfterAll(lib: Library, m: Members, changes: seq<Change>, view: View, field: string)
    requires ViewOf(lib, m).Ok? && Grades(changes) != [] && view == ViewAfter(ViewOf(lib, m).value, Grades(changes))
    requires field in {FIELD_SKILLS, FIELD_MASTERY, FIELD_ATTEMPTS}
    ensures FinalMember(lib, m, changes, field) ==
            Some(if field == FIELD_SKILLS then EncodeSkillsByKana(view.skills)
                 else if field == FIELD_MASTERY then EncodeMasteryByKana(view.mastery)
                 else EncodeAttempts(lib, view.attempts))
  {
    FieldsAreDistinct();
  }

  lemma GradeMovesTheView(lib: Library, m: Members, changes: seq<Change>, graded: Graded, field: string)
    requires ViewOf(lib, m).Ok?
    requires field in {FIELD_SKILLS, FIELD_MASTERY, FIELD_ATTEMPTS}
    ensures var view := GradeView(ViewAfter(ViewOf(lib, m).value, Grades(changes)), graded);
            FinalMember(lib, m, changes + [Grade(graded)], field) ==
            Some(if field == FIELD_SKILLS then EncodeSkillsByKana(view.skills)
                 else if field == FIELD_MASTERY then EncodeMasteryByKana(view.mastery)
                 else EncodeAttempts(lib, view.attempts))
  {
    assert Grades(changes + [Grade(graded)]) == Grades(changes) + [graded] by {
      HistorySnoc(changes, Grade(graded), field);
    }
    var view := GradeView(ViewAfter(ViewOf(lib, m).value, Grades(changes)), graded);
    assert view == ViewAfter(ViewOf(lib, m).value, Grades(changes) + [graded]) by {
      GradingIsOneMoreLogEntry(ViewOf(lib, m).value, Grades(changes), graded);
    }
    ViewMembersAfterAll(lib, m, changes + [Grade(graded)], view, field);
  }

  lemma FinalAfterGrade(lib: Library, m: Members, changes: seq<Change>, final: Members, graded: Graded, field: string)
    requires lib.Valid()
    requires IsFinal(lib, m, changes, final)
    requires ViewOf(lib, final).Ok?
    ensures Lookup(Stamped(WithView(lib, final, GradeView(ViewOf(lib, final).value, graded))), field) ==
            FinalMember(lib, m, changes + [Grade(graded)], field)
  {
    WithViewMembers(lib, final, GradeView(ViewOf(lib, final).value, graded), field);
    if field in {FIELD_SKILLS, FIELD_MASTERY, FIELD_ATTEMPTS} {
      FinalView(lib, m, changes, final);
      GradeMovesTheView(lib, m, changes, graded, field);
    } else if field != FIELD_SCHEMA_VERSION {
      GradeOwnsThree(lib, m, changes, graded, field);
      FinalMembers(lib, m, changes, final, field);
    }
  }

  lemma SortingAgainAddsOne(listed: seq<string>, ids: seq<string>, lessonId: string)
    ensures SortedUniqueOf(SortedUniqueOf(listed + ids) + [lessonId]) == SortedUniqueOf(listed + (ids + [lessonId]))
  {
    var sorted := SortedUniqueOf(listed + ids);
    assert Elements(sorted + [lessonId]) == Elements(listed + ids) + Elements([lessonId]) by {
      ElementsOfConcat(sorted, [lessonId]);
    }
    assert Elements((listed + ids) + [lessonId]) == Elements(listed + ids) + Elements([lessonId]) by {
      ElementsOfConcat(listed + ids, [lessonId]);
    }
    assert (listed + ids) + [lessonId] == listed + (ids + [lessonId]);
    SameElementsSameList(sorted + [lessonId], listed + (ids + [lessonId]));
  }

  lemma ListedLessons(listed: seq<string>, ids: seq<string>)
    ensures LessonsOfMember(Some(LessonList(listed, ids))) == SortedUniqueOf(listed + ids)
  {
    LessonsRoundTrip(SortedUniqueOf(listed + ids));
  }

  /** Sorting after every lesson gives the same list as sorting once at the end. */
  lemma OneMoreLesson(listed: seq<string>, ids: seq<string>, lessonId: string)
    ensures LessonList(LessonsOfMember(Some(LessonList(listed, ids))), [lessonId]) ==
            LessonList(listed, ids + [lessonId])
  {
    ListedLessons(listed, ids);
    SortingAgainAddsOne(listed, ids, lessonId);
  }

  lemma OneLessonMore(m: Members, changes: seq<Change>, lessonId: string)
    ensures LessonsSincePatch(changes + [Complete(lessonId)]) == LessonsSincePatch(changes) + [lessonId]
    ensures ClientMember(m, changes + [Complete(lessonId)], FIELD_LESSONS) == ClientMember(m, changes, FIELD_LESSONS)
  {
    HistorySnoc(changes, Complete(lessonId), FIELD_LESSONS);
  }

  lemma SomeLessonsListed(m: Members, changes: seq<Change>, base: Option<Json>, ids: seq<string>)
    requires base == ClientMember(m, changes, FIELD_LESSONS) && ids == LessonsSincePatch(changes)
    ensures LessonsMember(m, changes) == if ids == [] then base else Some(LessonList(LessonsOfMember(base), ids))
  {
  }

  lemma LessonsMemberGrows(m: Members, changes: seq<Change>, lessonId: string)
    ensures LessonsMember(m, changes + [Complete(lessonId)]) ==
            Some(LessonList(LessonsOfMember(LessonsMember(m, changes)), [lessonId]))
  {
    var base, ids := ClientMember(m, changes, FIELD_LESSONS), LessonsSincePatch(changes);
    OneLessonMore(m, changes, lessonId);
    SomeLessonsListed(m, changes, base, ids);
    SomeLessonsListed(m, changes + [Complete(lessonId)], base, ids + [lessonId]);
    if ids == [] {
      assert ids + [lessonId] == [lessonId];
    } else {
      OneMoreLesson(LessonsOfMember(base), ids, lessonId);
    }
  }

  lemma StampedMember(m: Members, field: string)
    ensures Lookup(Stamped(m), field) ==
            if field == FIELD_SCHEMA_VERSION then Some(JInt(SUPPORTED_SCHEMA_VERSION)) else Lookup(m, field)
  {
  }

  lemma CompleteOwnsOne(lib: Library, m: Members, changes: seq<Change>, lessonId: string, field: string)
    requires field != FIELD_LESSONS
    ensures FinalMember(lib, m, changes + [Complete(lessonId)], field) == FinalMember(lib, m, changes, field)
  {
    HistorySnoc(changes, Complete(lessonId), field);
  }

  lemma LessonsAfterComplete(lib: Library, m: Members, changes: seq<Change>, final: Members, lessonId: string)
    requires IsFinal(lib, m, changes, final)
    requires ReadLessons(final).Ok?
    ensures Some(LessonList(ReadLessons(final).value, [lessonId])) ==
            FinalMember(lib, m, changes + [Complete(lessonId)], FIELD_LESSONS)
  {
    FinalMembers(lib, m, changes, final, FIELD_LESSONS);
    LessonsMemberGrows(m, changes, lessonId);
  }

  lemma FinalAfterComplete(lib: Library, m: Members, changes: seq<Change>, final: Members, lessonId: string,
      field: string)
    requires IsFinal(lib, m, changes, final)
    requires ReadLessons(final).Ok?
    ensures Lookup(Stamped(final[FIELD_LESSONS := LessonList(ReadLessons(final).value, [lessonId])]), field) ==
            FinalMember(lib, m, changes + [Complete(lessonId)], field)
  {
    FieldsAreDistinct();
    StampedMember(final[FIELD_LESSONS := LessonList(ReadLessons(final).value, [lessonId])], field);
    if field == FIELD_LESSONS {
      LessonsAfterComplete(lib, m, changes, final, lessonId);
    } else if field != FIELD_SCHEMA_VERSION {
      CompleteOwnsOne(lib, m, changes, lessonId, field);
      FinalMembers(lib, m, changes, final, field);
    }
  }

  lemma PatchOverrides(lib: Library, m: Members, changes: seq<Change>, patch: Members, field: string)
    requires field !in {FIELD_SCHEMA_VERSION, FIELD_SKILLS, FIELD_MASTERY, FIELD_ATTEMPTS}
    ensures FinalMember(lib, m, changes + [Patch(patch)], field) ==
            if field in patch then Some(patch[field]) else FinalMember(lib, m, changes, field)
  {
    HistorySnoc(changes, Patch(patch), field);
    if field == FIELD_LESSONS {
      HistorySnoc(changes, Patch(patch), FIELD_LESSONS);
    }
  }

  lemma PatchLeavesServerMembers(lib: Library, m: Members, changes: seq<Change>, patch: Members, field: string)
    requires field in {FIELD_SCHEMA_VERSION, FIELD_SKILLS, FIELD_MASTERY, FIELD_ATTEMPTS}
    ensures FinalMember(lib, m, changes + [Patch(patch)], field) == FinalMember(lib, m, changes, field)
  {
    HistorySnoc(changes, Patch(patch), field);
  }

  lemma FinalAfterPatch(lib: Library, m: Members, changes: seq<Change>, final: Members, patch: Members, field: string)
    requires IsFinal(lib, m, changes, final)
    requires Merged(final, patch).Ok?
    ensures Lookup(Stamped(final + patch), field) == FinalMember(lib, m, changes + [Patch(patch)], field)
  {
    FieldsAreDistinct();
    StampedMember(final + patch, field);
    if field != FIELD_SCHEMA_VERSION {
      FinalMembers(lib, m, changes, final, field);
      if field in {FIELD_SKILLS, FIELD_MASTERY, FIELD_ATTEMPTS} {
        PatchLeavesServerMembers(lib, m, changes, patch, field);
      } else {
        PatchOverrides(lib, m, changes, patch, field);
      }
    }
  }

  lemma FinalAfterChange(lib: Library, m: Members, changes: seq<Change>, final: Members, change: Change)
    requires lib.Valid()
    requires IsFinal(lib, m, changes, final)
    requires !change.Replace? && ApplyChange(lib, final, change).Ok?
    ensures IsFinal(lib, m, changes + [change], Stamped(ApplyChange(lib, final, change).value))
  {
    forall field ensures Lookup(Stamped(ApplyChange(lib, final, change).value), field) ==
                         FinalMember(lib, m, changes + [change], field) {
      match change
      case Grade(graded) => FinalAfterGrade(lib, m, changes, final, graded, field);
      case Complete(lessonId) => FinalAfterComplete(lib, m, changes, final, lessonId, field);
      case Patch(patch) => FinalAfterPatch(lib, m, changes, final, patch, field);
    }
  }

  lemma OneChangeMore(lib: Library, m: Members, stored: Option<Json>, changes: seq<Change>, last: Change)
    requires lib.Valid()
    requires Parse(stored).Ok? && IsFinal(lib, m, changes, Parse(stored).value)
    requires !last.Replace? && Effect(lib, stored, last).Ok?
    ensures Parse(Some(Effect(lib, stored, last).value)).Ok?
    ensures IsFinal(lib, m, changes + [last], Parse(Some(Effect(lib, stored, last).value)).value)
  {
    FinalAfterChange(lib, m, changes, Parse(stored).value, last);
    ParseStampedRoundTrip(ApplyChange(lib, Parse(stored).value, last).value);
  }

  lemma ReplayEnds(lib: Library, stored: Option<Json>, changes: seq<Change>, last: Change)
    ensures NoReplace(changes + [last]) ==> NoReplace(changes) && !last.Replace?
    ensures Replay(lib, stored, changes + [last]).Ok? ==>
              && Replay(lib, stored, changes).Ok?
              && var before := Replay(lib, stored, changes).value;
                 Effect(lib, before, last).Ok? &&
                 Replay(lib, stored, changes + [last]).value == Some(Effect(lib, before, last).value)
  {
    assert (changes + [last])[..|changes|] == changes;
  }

  /**
   From any readable row, after any sequence of successful answers, lessons
   and patches, every member is its closed form over the whole sequence; and
   the row stays readable.
   */
  lemma {:induction false} DocumentIsItsHistory(lib: Library, stored: Option<Json>, changes: seq<Change>)
    requires lib.Valid()
    requires NoReplace(changes) && Replay(lib, stored, changes).Ok? && Parse(stored).Ok?
    ensures Parse(Replay(lib, stored, changes).value).Ok?
    ensures IsFinal(lib, Parse(stored).value, changes, Parse(Replay(lib, stored, changes).value).value)
  {
    if changes != [] {
      var init, last := changes[..|changes| - 1], changes[|changes| - 1];
      assert changes == init + [last];
      ReplayEnds(lib, stored, init, last);
      DocumentIsItsHistory(lib, stored, init);
      OneChangeMore(lib, Parse(stored).value, Replay(lib, stored, init).value, init, last);
    }
  }
}
