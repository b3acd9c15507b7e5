/**
 What the closed form means for accounts: fresh accounts, frames, order
 independence, mastery, and runs of whole requests.
 */
module ProgressTheorems {
  import opened Wrappers
  import opened Scoring
  import opened Codec
  import opened Documents
  import opened ProgressRules
  import opened ProgressHistory
  import opened Text
  import opened Kana

  /** The members stored after successful changes that are not PUT. */
  ghost function Stored(lib: Library, stored: Option<Json>, changes: seq<Change>): Members
    requires lib.Valid()
    requires NoReplace(changes) && Replay(lib, stored, changes).Ok? && Parse(stored).Ok?
  {
    DocumentIsItsHistory(lib, stored, changes);
    Parse(Replay(lib, stored, changes).value).value
  }

  // ---- Fresh accounts ----

  /** The server-owned members hold exactly what the full answer log says. */
  lemma FreshAccountView(lib: Library, changes: seq<Change>)
    requires lib.Valid()
    requires NoReplace(changes) && Replay(lib, None, changes).Ok?
    ensures ViewOf(lib, Stored(lib, None, changes)) == Ok(ViewAfter(FRESH_VIEW, Grades(changes)))
  {
    DocumentIsItsHistory(lib, None, changes);
    FinalView(lib, map[], changes, Stored(lib, None, changes));
  }

  /** The keys are the kana answered; every score is the fold of its own answers. */
  lemma FreshScores(log: seq<Graded>, kana: string, skill: Skill)
    ensures var view := ViewAfter(FRESH_VIEW, log);
            && view.skills.Keys == view.mastery.Keys == KanaIn(log)
            && (kana in KanaIn(log) ==>
                  && view.skills[kana].Score(skill) == FoldScore(0, AnswersTo(log, kana, skill))
                  && MIN_SCORE <= view.skills[kana].Score(skill) <= MAX_SCORE
                  && view.mastery[kana] == MasteryFor(view.skills[kana]).Name())
  {
    ScoreFromLog(UNSEEN, log, kana, skill);
  }

  /** An answer to an account the server has always written can only fail by growing too large. */
  lemma FreshAccountAnswersSucceed(lib: Library, changes: seq<Change>, graded: Graded)
    requires lib.Valid()
    requires NoReplace(changes) && Replay(lib, None, changes).Ok?
    ensures var row := Replay(lib, None, changes).value;
            Effect(lib, row, Grade(graded)).Ok? || Effect(lib, row, Grade(graded)) == Err(InvalidData)
  {
    DocumentIsItsHistory(lib, None, changes);
    FreshAccountView(lib, changes);
  }

  // ---- Rows written by PUT that the server cannot grade ----

  /** Exactly which rows make an answer panic on a nil map. */
  lemma NilMapPanics(lib: Library, stored: Option<Json>, graded: Graded)
    ensures Effect(lib, stored, Grade(graded)) == Err(NilMapPanic) <==>
            && Parse(stored).Ok?
            && ReadSkills(Parse(stored).value).Ok? && ReadMastery(Parse(stored).value).Ok?
            && (Lookup(Parse(stored).value, FIELD_SKILLS) == Some(JNull) ||
                Lookup(Parse(stored).value, FIELD_MASTERY) == Some(JNull))
  {
    if Parse(stored).Ok? {
      var m := Parse(stored).value;
      assert ReadSkills(m) == Ok(Nil) <==> Lookup(m, FIELD_SKILLS) == Some(JNull);
      assert ReadMastery(m) == Ok(Nil) <==> Lookup(m, FIELD_MASTERY) == Some(JNull);
    }
  }

  /** Once a row cannot be graded, nothing but another PUT makes it gradable. */
  lemma {:induction false} UngradableUntilReplaced(lib: Library, stored: Option<Json>, changes: seq<Change>)
    requires lib.Valid()
    requires NoReplace(changes) && Replay(lib, stored, changes).Ok?
    requires Parse(stored).Ok? && ViewOf(lib, Parse(stored).value).Err?
    ensures Grades(changes) == []
    ensures ViewOf(lib, Stored(lib, stored, changes)) == ViewOf(lib, Parse(stored).value)
  {
    DocumentIsItsHistory(lib, stored, changes);
    FinalView(lib, Parse(stored).value, changes, Stored(lib, stored, changes));
    if changes != [] {
      var init := changes[..|changes| - 1];
      assert NoReplace(init);
      UngradableUntilReplaced(lib, stored, init);
      DocumentIsItsHistory(lib, stored, init);
    }
  }

  // ---- Frames over whole runs ----

  /** A member no patch carried and the server does not own keeps its value over any run. */
  lemma ClientMembersAreFramed(lib: Library, stored: Option<Json>, changes: seq<Change>, field: string)
    requires lib.Valid()
    requires NoReplace(changes) && Replay(lib, stored, changes).Ok? && Parse(stored).Ok?
    requires field !in PROTECTED_FIELDS + {FIELD_LESSONS}
    requires PatchedValues(changes, field) == []
    ensures Lookup(Stored(lib, stored, changes), field) == Lookup(Parse(stored).value, field)
  {
    DocumentIsItsHistory(lib, stored, changes);
    FinalMembers(lib, Parse(stored).value, changes, Stored(lib, stored, changes), field);
  }

  lemma {:induction false} ReadableStart(lib: Library, stored: Option<Json>, changes: seq<Change>)
    requires NoReplace(changes) && Replay(lib, stored, changes).Ok? && changes != []
    ensures Parse(stored).Ok?
  {
    if |changes| > 1 {
      ReadableStart(lib, stored, changes[..|changes| - 1]);
    } else {
      assert Replay(lib, stored, changes[..0]) == Ok(stored);
    }
  }

  /** Every row the server has written carries version 2 and stays readable. */
  lemma ServerRowsAreSupported(lib: Library, stored: Option<Json>, changes: seq<Change>)
    requires lib.Valid()
    requires NoReplace(changes) && Replay(lib, stored, changes).Ok? && changes != []
    ensures var row := Replay(lib, stored, changes).value;
            Parse(row).Ok? && SchemaVersion(Parse(row).value) == Ok(SUPPORTED_SCHEMA_VERSION)
  {
    ReadableStart(lib, stored, changes);
    DocumentIsItsHistory(lib, stored, changes);
    var m := Stored(lib, stored, changes);
    assert Lookup(m, FIELD_SCHEMA_VERSION) == FinalMember(lib, Parse(stored).value, changes, FIELD_SCHEMA_VERSION);
  }

  lemma ViewHasTheAttempts(lib: Library, m: Members)
    requires ViewOf(lib, m).Ok?
    ensures ReadAttempts(lib, m) == Ok(ViewOf(lib, m).value.attempts)
  {
  }

  /** Iterated trimming is one trim: the newest entries of what was there plus the whole log. */
  lemma WindowIsTheNewest(lib: Library, stored: Option<Json>, changes: seq<Change>)
    requires lib.Valid()
    requires NoReplace(changes) && Replay(lib, stored, changes).Ok? && Parse(stored).Ok?
    requires Grades(changes) != []
    ensures ReadAttempts(lib, Parse(stored).value).Ok?
    ensures ReadAttempts(lib, Stored(lib, stored, changes)) ==
            Ok(Newest(ReadAttempts(lib, Parse(stored).value).value + StoredAttempts(Grades(changes))))
  {
    var m := Parse(stored).value;
    assert ViewOf(lib, m).Ok? by {
      if ViewOf(lib, m).Err? {
        UngradableUntilReplaced(lib, stored, changes);
      }
    }
    var final := Stored(lib, stored, changes);
    assert ViewOf(lib, final) == Ok(ViewAfter(ViewOf(lib, m).value, Grades(changes))) by {
      DocumentIsItsHistory(lib, stored, changes);
      FinalView(lib, m, changes, final);
    }
    ViewHasTheAttempts(lib, m);
    ViewHasTheAttempts(lib, final);
  }

  // ---- Lessons ----

  function CompletedIn(changes: seq<Change>): set<string> {
    set i | 0 <= i < |changes| && changes[i].Complete? :: changes[i].lessonId
  }

  lemma {:induction false} LessonsWithoutPatches(changes: seq<Change>)
    requires PatchedValues(changes, FIELD_LESSONS) == []
    ensures Elements(LessonsSincePatch(changes)) == CompletedIn(changes)
  {
    if changes != [] {
      var init, last := changes[..|changes| - 1], changes[|changes| - 1];
      LessonsWithoutPatches(init);
      assert CompletedIn(changes) == CompletedIn(init) + if last.Complete? then {last.lessonId} else {};
      if last.Complete? {
        ElementsOfConcat(LessonsSincePatch(init), [last.lessonId]);
      }
    }
  }

  /** Whatever the order or repetition, the list is the sorted set of the lessons completed. */
  lemma FreshLessons(lib: Library, changes: seq<Change>, canonical: seq<string>)
    requires lib.Valid()
    requires NoReplace(changes) && Replay(lib, None, changes).Ok?
    requires PatchedValues(changes, FIELD_LESSONS) == []
    requires StrictlySorted(canonical) && Elements(canonical) == CompletedIn(changes)
    ensures ReadLessons(Stored(lib, None, changes)) == Ok(canonical)
  {
    DocumentIsItsHistory(lib, None, changes);
    FinalMembers(lib, map[], changes, Stored(lib, None, changes), FIELD_LESSONS);
    LessonsWithoutPatches(changes);
    var ids := LessonsSincePatch(changes);
    NoElements(ids);
    NoElements(canonical);
    assert [] + ids == ids;
    StrictlySortedIsUnique(canonical, SortedUniqueOf(ids));
    LessonsRoundTrip(canonical);
  }

  lemma SortedListReplays(listed: seq<string>, lessonId: string, replayed: string)
    ensures var sorted := SortedUniqueOf(listed + [lessonId]);
            && lessonId in sorted
            && (replayed in sorted ==> SortedUniqueOf(sorted + [replayed]) == sorted)
  {
    var sorted := SortedUniqueOf(listed + [lessonId]);
    ElementsOfConcat(listed, [lessonId]);
    assert lessonId in Elements(sorted);
    if replayed in sorted {
      ElementsOfConcat(sorted, [replayed]);
      assert Elements(sorted + [replayed]) == Elements(sorted);
      StrictlySortedIsUnique(sorted, SortedUniqueOf(sorted + [replayed]));
    }
  }

  lemma CompletingLists(lib: Library, m: Members, lessonId: string, sorted: seq<string>)
    requires ReadLessons(m).Ok? && sorted == SortedUniqueOf(ReadLessons(m).value + [lessonId])
    ensures ApplyChange(lib, m, Complete(lessonId)) == Ok(m[FIELD_LESSONS := EncodeLessons(sorted)])
    ensures ReadLessons(m[FIELD_LESSONS := EncodeLessons(sorted)]) == Ok(sorted)
  {
    LessonsRoundTrip(sorted);
  }

  lemma CompletingAgain(lib: Library, once: Members, replayed: string, sorted: seq<string>)
    requires ReadLessons(once) == Ok(sorted) && Lookup(once, FIELD_LESSONS) == Some(EncodeLessons(sorted))
    requires SortedUniqueOf(sorted + [replayed]) == sorted
    ensures ApplyChange(lib, once, Complete(replayed)) == Ok(once)
  {
    CompletingLists(lib, once, replayed, sorted);
    assert once[FIELD_LESSONS := EncodeLessons(sorted)] == once;
  }

  /** Completing a listed lesson again leaves the whole document as it was. */
  lemma ReplayingALessonChangesNothing(lib: Library, m: Members, lessonId: string, replayed: string)
    requires ReadLessons(m).Ok?
    ensures ApplyChange(lib, m, Complete(lessonId)).Ok?
    ensures var once := ApplyChange(lib, m, Complete(lessonId)).value;
            && ReadLessons(once).Ok? && lessonId in ReadLessons(once).value
            && (replayed in ReadLessons(once).value ==> ApplyChange(lib, once, Complete(replayed)) == Ok(once))
  {
    var sorted := SortedUniqueOf(ReadLessons(m).value + [lessonId]);
    CompletingLists(lib, m, lessonId, sorted);
    SortedListReplays(ReadLessons(m).value, lessonId, replayed);
    if replayed in sorted {
      CompletingAgain(lib, m[FIELD_LESSONS := EncodeLessons(sorted)], replayed, sorted);
    }
  }

  // ---- Order independence ----

  ghost predicate SameAnswers(first: seq<Graded>, second: seq<Graded>) {
    forall kana, skill :: AnswersTo(first, kana, skill) == AnswersTo(second, kana, skill)
  }

  /** Same order within each (kana, skill) and within each patched member; lessons in any order. */
  ghost predicate SameProjections(first: seq<Change>, second: seq<Change>) {
    && SameAnswers(Grades(first), Grades(second))
    && (forall field :: PatchedValues(first, field) == PatchedValues(second, field))
    && Elements(LessonsSincePatch(first)) == Elements(LessonsSincePatch(second))
  }

  lemma {:induction false} AnsweredKana(log: seq<Graded>, kana: string)
    ensures kana in KanaIn(log) <==> exists skill: Skill :: AnswersTo(log, kana, skill) != []
  {
    if kana in KanaIn(log) {
      var n := |log| - 1;
      assert log == log[..n] + [log[n]];
      KanaInSnoc(log[..n], log[n]);
      if log[n].kana == kana {
        assert AnswersTo(log, kana, log[n].skill) != [];
      } else {
        AnsweredKana(log[..n], kana);
        var skill :| AnswersTo(log[..n], kana, skill) != [];
        assert AnswersTo(log, kana, skill) != [];
      }
    } else {
      forall skill: Skill ensures AnswersTo(log, kana, skill) == [] {
        NoAnswersOutsideTheLog(log, kana, skill);
      }
    }
  }

  lemma AnsweredMeansKana(log: seq<Graded>, kana: string, skill: Skill)
    requires AnswersTo(log, kana, skill) != []
    ensures kana in KanaIn(log)
  {
    if kana !in KanaIn(log) {
      NoAnswersOutsideTheLog(log, kana, skill);
    }
  }

  lemma SameAnswersKeepKana(first: seq<Graded>, second: seq<Graded>, kana: string)
    requires SameAnswers(first, second) && kana in KanaIn(first)
    ensures kana in KanaIn(second)
  {
    AnsweredKana(first, kana);
    var skill: Skill :| AnswersTo(first, kana, skill) != [];
    assert AnswersTo(second, kana, skill) == AnswersTo(first, kana, skill);
    AnsweredMeansKana(second, kana, skill);
  }

  lemma SameAnswersSameKana(first: seq<Graded>, second: seq<Graded>)
    requires SameAnswers(first, second)
    ensures KanaIn(first) == KanaIn(second)
    ensures first == [] <==> second == []
  {
    forall kana ensures kana in KanaIn(first) <==> kana in KanaIn(second) {
      if kana in KanaIn(first) {
        SameAnswersKeepKana(first, second, kana);
      } else if kana in KanaIn(second) {
        SameAnswersKeepKana(second, first, kana);
      }
    }
    assert first != [] ==> first[0].kana in KanaIn(first);
    assert second != [] ==> second[0].kana in KanaIn(second);
  }

  lemma SameAnswersSameScores(start: Skills, first: seq<Graded>, second: seq<Graded>, kana: string)
    requires SameAnswers(first, second)
    ensures SkillsFromLog(start, first, kana) == SkillsFromLog(start, second, kana)
  {
    forall skill: Skill
      ensures SkillsFromLog(start, first, kana).Score(skill) == SkillsFromLog(start, second, kana).Score(skill)
    {
      ScoreFromLog(start, first, kana, skill);
      ScoreFromLog(start, second, kana, skill);
    }
    SameScores(SkillsFromLog(start, first, kana), SkillsFromLog(start, second, kana));
  }

  lemma SameAnswersSameSkills(skills: map<string, Skills>, first: seq<Graded>, second: seq<Graded>)
    requires SameAnswers(first, second)
    ensures SkillsAfter(skills, first) == SkillsAfter(skills, second)
  {
    var one, two := SkillsAfter(skills, first), SkillsAfter(skills, second);
    assert one.Keys == two.Keys by {
      SameAnswersSameKana(first, second);
    }
    forall kana | kana in one ensures one[kana] == two[kana] {
      SameAnswersSameScores(SkillsOf(skills, kana), first, second, kana);
    }
  }

  lemma SameAnswersSameMastery(view: View, first: seq<Graded>, second: seq<Graded>)
    requires SameAnswers(first, second)
    ensures MasteryAfter(view, first) == MasteryAfter(view, second)
  {
    var one, two := MasteryAfter(view, first), MasteryAfter(view, second);
    assert KanaIn(first) == KanaIn(second) by {
      SameAnswersSameKana(first, second);
    }
    forall kana | kana in one ensures one[kana] == two[kana] {
      SameAnswersSameScores(SkillsOf(view.skills, kana), first, second, kana);
    }
  }

  lemma SameAnswersSameView(view: View, first: seq<Graded>, second: seq<Graded>)
    requires SameAnswers(first, second)
    ensures SkillsAfter(view.skills, first) == SkillsAfter(view.skills, second)
    ensures MasteryAfter(view, first) == MasteryAfter(view, second)
  {
    SameAnswersSameSkills(view.skills, first, second);
    SameAnswersSameMastery(view, first, second);
  }

  lemma LastGradeShows(changes: seq<Change>)
    requires changes != [] && changes[|changes| - 1].Grade?
    ensures exists kana, skill :: AnswersTo(Grades(changes), kana, skill) != []
  {
    var graded := changes[|changes| - 1].graded;
    var log := Grades(changes);
    assert log != [] && log[|log| - 1] == graded;
    assert AnswersTo(log, graded.kana, graded.skill) != [];
  }

  lemma LastPatchShows(lib: Library, stored: Option<Json>, changes: seq<Change>)
    requires changes != [] && Replay(lib, stored, changes).Ok? && changes[|changes| - 1].Patch?
    ensures exists field :: PatchedValues(changes, field) != []
  {
    var members := changes[|changes| - 1].members;
    var field :| field in members;
    assert PatchedValues(changes, field) != [];
  }

  /** Successful changes leave a trace in some projection. */
  lemma ChangesShow(lib: Library, stored: Option<Json>, changes: seq<Change>)
    requires NoReplace(changes) && Replay(lib, stored, changes).Ok? && changes != []
    ensures !SameProjections(changes, [])
  {
    match changes[|changes| - 1]
    case Grade(graded) => LastGradeShows(changes);
    case Complete(lessonId) => assert lessonId in Elements(LessonsSincePatch(changes));
    case Patch(members) => LastPatchShows(lib, stored, changes);
  }

  lemma SameLessonsSameList(listed: seq<string>, ids: seq<string>, others: seq<string>)
    requires Elements(ids) == Elements(others)
    ensures LessonList(listed, ids) == LessonList(listed, others)
    ensures ids == [] <==> others == []
  {
    NoElements(ids);
    NoElements(others);
    ElementsOfConcat(listed, ids);
    ElementsOfConcat(listed, others);
    SameElementsSameList(listed + ids, listed + others);
  }

  lemma SameLessonsSameMember(m: Members, first: seq<Change>, second: seq<Change>)
    requires PatchedValues(first, FIELD_LESSONS) == PatchedValues(second, FIELD_LESSONS)
    requires Elements(LessonsSincePatch(first)) == Elements(LessonsSincePatch(second))
    ensures LessonsMember(m, first) == LessonsMember(m, second)
  {
    var ids, others := LessonsSincePatch(first), LessonsSincePatch(second);
    assert ClientMember(m, first, FIELD_LESSONS) == ClientMember(m, second, FIELD_LESSONS);
    SameLessonsSameList(LessonsOfMember(ClientMember(m, first, FIELD_LESSONS)), ids, others);
  }

  lemma SameAnswersSameMember(lib: Library, m: Members, first: seq<Change>, second: seq<Change>, field: string)
    requires SameAnswers(Grades(first), Grades(second)) && field in {FIELD_SKILLS, FIELD_MASTERY}
    ensures FinalMember(lib, m, first, field) == FinalMember(lib, m, second, field)
  {
    FieldsAreDistinct();
    SameAnswersSameKana(Grades(first), Grades(second));
    SameAnswersSameView(if ViewOf(lib, m).Ok? then ViewOf(lib, m).value else FRESH_VIEW, Grades(first), Grades(second));
  }

  lemma SameProjectionsSameMember(lib: Library, m: Members, first: seq<Change>, second: seq<Change>, field: string)
    requires SameProjections(first, second) && field != FIELD_ATTEMPTS
    ensures FinalMember(lib, m, first, field) == FinalMember(lib, m, second, field)
  {
    FieldsAreDistinct();
    assert PatchedValues(first, field) == PatchedValues(second, field);
    if field == FIELD_LESSONS {
      SameLessonsSameMember(m, first, second);
    } else if field == FIELD_SKILLS || field == FIELD_MASTERY {
      SameAnswersSameMember(lib, m, first, second, field);
    }
  }

  lemma SameMembersButOne(a: Members, b: Members, except: string)
    requires forall field :: field != except ==> Lookup(a, field) == Lookup(b, field)
    ensures a - {except} == b - {except}
  {
    forall field | field != except
      ensures field in a <==> field in b
      ensures field in a ==> a[field] == b[field]
    {
      assert Lookup(a, field) == Lookup(b, field);
    }
  }

  /**
   Serialisation independence: however the same requests were ordered against
   each other, the documents agree on every member but the attempt window.
   */
  lemma OrderIndependence(lib: Library, stored: Option<Json>, first: seq<Change>, second: seq<Change>)
    requires lib.Valid()
    requires NoReplace(first) && NoReplace(second) && Parse(stored).Ok?
    requires Replay(lib, stored, first).Ok? && Replay(lib, stored, second).Ok?
    requires SameProjections(first, second)
    ensures Stored(lib, stored, first) - {FIELD_ATTEMPTS} == Stored(lib, stored, second) - {FIELD_ATTEMPTS}
  {
    var m := Parse(stored).value;
    DocumentIsItsHistory(lib, stored, first);
    DocumentIsItsHistory(lib, stored, second);
    if first == [] && second != [] {
      ChangesShow(lib, stored, second);
    } else if first != [] && second == [] {
      ChangesShow(lib, stored, first);
    } else if first != [] {
      var a, b := Stored(lib, stored, first), Stored(lib, stored, second);
      forall field | field != FIELD_ATTEMPTS ensures Lookup(a, field) == Lookup(b, field) {
        SameProjectionsSameMember(lib, m, first, second, field);
        assert Lookup(a, field) == FinalMember(lib, m, first, field);
        assert Lookup(b, field) == FinalMember(lib, m, second, field);
      }
      SameMembersButOne(a, b, FIELD_ATTEMPTS);
    }
  }

  // ---- Mastery over whole histories ----

  function HistoryOf(log: seq<Graded>, kana: string): Skill -> seq<bool> {
    (skill: Skill) => AnswersTo(log, kana, skill)
  }

  lemma MasteryOfKana(log: seq<Graded>, kana: string)
    requires kana in KanaIn(log)
    ensures ViewAfter(FRESH_VIEW, log).mastery[kana] == MasteryFor(SkillsFrom(HistoryOf(log, kana))).Name()
  {
  }

  lemma MasteredHistory(history: Skill -> seq<bool>)
    requires MasteryFor(SkillsFrom(history)).Name() == Mastered.Name()
    ensures TotalUsefulHits(history) >= 16
    ensures forall skill: Skill :: Hits(history(skill)) >= 1
  {
    MasteryNamesAreDistinct(MasteryFor(SkillsFrom(history)), Mastered);
    MasteredNeedsSixteenHits(history);
  }

  lemma MasteredInTheLog(log: seq<Graded>, kana: string)
    requires kana in KanaIn(log) && MasteryFor(SkillsFrom(HistoryOf(log, kana))).Name() == Mastered.Name()
    ensures TotalUsefulHits(HistoryOf(log, kana)) >= 16
    ensures forall skill: Skill :: Hits(HistoryOf(log, kana)(skill)) >= 1
  {
    MasteredHistory(HistoryOf(log, kana));
  }

  /** The mastery that the row of a fresh account stores for one kana. */
  ghost function StoredMastery(lib: Library, changes: seq<Change>): map<string, string>
    requires lib.Valid() && NoReplace(changes) && Replay(lib, None, changes).Ok?
  {
    FreshAccountView(lib, changes);
    ViewOf(lib, Stored(lib, None, changes)).value.mastery
  }

  lemma StoredMasteryOf(lib: Library, changes: seq<Change>, kana: string)
    requires lib.Valid() && NoReplace(changes) && Replay(lib, None, changes).Ok?
    ensures kana in StoredMastery(lib, changes) <==> kana in KanaIn(Grades(changes))
    ensures kana in StoredMastery(lib, changes) ==>
              StoredMastery(lib, changes)[kana] == MasteryFor(SkillsFrom(HistoryOf(Grades(changes), kana))).Name()
  {
    FreshAccountView(lib, changes);
    if kana in KanaIn(Grades(changes)) {
      MasteryOfKana(Grades(changes), kana);
    }
  }

  /** In every run from a fresh account, a kana stored as mastered has sixteen useful hits, one in every skill. */
  lemma MasteredKana(lib: Library, changes: seq<Change>, kana: string)
    requires lib.Valid() && NoReplace(changes) && Replay(lib, None, changes).Ok?
    ensures var stored, history := StoredMastery(lib, changes), HistoryOf(Grades(changes), kana);
            kana in stored && stored[kana] == Mastered.Name() ==>
              TotalUsefulHits(history) >= 16 && forall skill: Skill :: Hits(history(skill)) >= 1
  {
    StoredMasteryOf(lib, changes, kana);
    var stored := StoredMastery(lib, changes);
    if kana in stored && stored[kana] == Mastered.Name() {
      MasteredInTheLog(Grades(changes), kana);
    }
  }

  /** In every run from a fresh account, one skill never takes a stored kana past learning, two never past familiar. */
  lemma FewSkillsKana(lib: Library, changes: seq<Change>, kana: string, one: Skill, two: Skill)
    requires lib.Valid() && NoReplace(changes) && Replay(lib, None, changes).Ok?
    requires PractisedOnlyIn(HistoryOf(Grades(changes), kana), {one, two})
    ensures var stored := StoredMastery(lib, changes);
            kana in stored ==>
              exists state: Mastery :: stored[kana] == state.Name() &&
                                       state.Rank() <= (if one == two then Learning else Familiar).Rank()
  {
    var history := HistoryOf(Grades(changes), kana);
    StoredMasteryOf(lib, changes, kana);
    FewSkillsCapMastery(history, one, two);
    assert one == two ==> {one, two} == {one};
    assert kana in StoredMastery(lib, changes) ==>
             StoredMastery(lib, changes)[kana] == MasteryFor(SkillsFrom(history)).Name();
  }

  /** The same log except that some mistakes became hits. */
  ghost predicate BetterLog(log: seq<Graded>, better: seq<Graded>) {
    |log| == |better| &&
    forall i :: 0 <= i < |log| ==> better[i].kana == log[i].kana && better[i].skill == log[i].skill &&
                                   (log[i].correct ==> better[i].correct)
  }

  lemma {:induction false} BetterAnswers(log: seq<Graded>, better: seq<Graded>, kana: string, skill: Skill)
    requires BetterLog(log, better)
    ensures NoWorse(AnswersTo(log, kana, skill), AnswersTo(better, kana, skill))
  {
    if log != [] {
      var n := |log| - 1;
      assert BetterLog(log[..n], better[..n]);
      BetterAnswers(log[..n], better[..n], kana, skill);
    }
  }

  lemma BetterLogSameKana(log: seq<Graded>, better: seq<Graded>)
    requires BetterLog(log, better)
    ensures KanaIn(better) == KanaIn(log)
  {
    assert forall i :: 0 <= i < |log| ==> log[i].kana == better[i].kana;
  }

  /** Turning mistakes of a history into hits never lowers any final mastery state. */
  lemma BetterLogNeverLowersMastery(log: seq<Graded>, better: seq<Graded>, kana: string)
    requires BetterLog(log, better)
    ensures KanaIn(better) == KanaIn(log)
    ensures MasteryFor(SkillsFromLog(UNSEEN, log, kana)).Rank() <=
            MasteryFor(SkillsFromLog(UNSEEN, better, kana)).Rank()
  {
    BetterLogSameKana(log, better);
    var low, high := SkillsFromLog(UNSEEN, log, kana), SkillsFromLog(UNSEEN, better, kana);
    forall skill: Skill ensures MIN_SCORE <= low.Score(skill) <= high.Score(skill) <= MAX_SCORE {
      ScoreFromLog(UNSEEN, log, kana, skill);
      ScoreFromLog(UNSEEN, better, kana, skill);
      BetterAnswers(log, better, kana, skill);
      HitsInsteadOfMistakesNeverLowerTheScore(0, AnswersTo(log, kana, skill), AnswersTo(better, kana, skill));
    }
    MasteryIsMonotone(low, high);
  }

  // ---- Runs of whole requests, refused ones included ----

  /** The row after a run of requests: a refused request leaves it alone. */
  ghost function Run(lib: Library, stored: Option<Json>, requests: seq<Request>): Option<Json> {
    if requests == [] then stored
    else
      var before := Run(lib, stored, requests[..|requests| - 1]);
      match Handle(lib, before, requests[|requests| - 1])
      case Ok(updated) => Some(updated)
      case Err(_) => before
  }

  /** The failing input: a PUT of one null map is accepted, and every valid answer after it panics. */
  lemma NullMapsPanic(lib: Library, length: nat, field: string, answer: Answer, at: Time)
    requires field == FIELD_SKILLS || field == FIELD_MASTERY
    requires 0 < length <= MAX_DATA_SIZE && CheckedAnswer(answer, at).Ok?
    ensures var data := JObject(map[field := JNull]);
            && Run(lib, None, [SaveRequest(Body(length, Some(data)))]) == Some(data)
            && Handle(lib, Some(data), AnswerRequest(answer, at)) == Err(NilMapPanic)
  {
    FieldsAreDistinct();
    var data := JObject(map[field := JNull]);
    var save := [SaveRequest(Body(length, Some(data)))];
    assert save[..0] == [] && Run(lib, None, save[..0]) == None;
    NilMapPanics(lib, Some(data), CheckedAnswer(answer, at).value.graded);
  }

  /** The changes of the requests that succeeded. */
  ghost function Committed(lib: Library, stored: Option<Json>, requests: seq<Request>): seq<Change> {
    if requests == [] then []
    else
      var init, last := requests[..|requests| - 1], requests[|requests| - 1];
      var before := Committed(lib, stored, init);
      if Handle(lib, Run(lib, stored, init), last).Ok? then before + [Checked(last).value] else before
  }

  ghost predicate IsValid(change: Change) {
    change.Grade? ==> IsKanaUnit(change.graded.kana) && ByteLength(change.graded.chosen) <= MAX_CHOSEN_LENGTH
  }

  lemma CheckedIsValid(request: Request)
    requires Checked(request).Ok?
    ensures IsValid(Checked(request).value)
    ensures Checked(request).value.Replace? <==> request.SaveRequest?
  {
  }

  lemma HandleIsTheEffect(lib: Library, stored: Option<Json>, request: Request)
    requires Checked(request).Ok?
    ensures Handle(lib, stored, request) == Effect(lib, stored, Checked(request).value)
  {
  }

  /** A run is the replay of its successful requests: refused ones contribute nothing. */
  lemma {:induction false} RunIsReplayOfCommitted(lib: Library, stored: Option<Json>, requests: seq<Request>)
    ensures Replay(lib, stored, Committed(lib, stored, requests)) == Ok(Run(lib, stored, requests))
  {
    if requests != [] {
      var init, last := requests[..|requests| - 1], requests[|requests| - 1];
      RunIsReplayOfCommitted(lib, stored, init);
      var before := Run(lib, stored, init);
      if Checked(last).Ok? {
        HandleIsTheEffect(lib, before, last);
        ReplaySnoc(lib, stored, Committed(lib, stored, init), Checked(last).value);
      }
    }
  }

  lemma {:induction false} CommittedAreValid(lib: Library, stored: Option<Json>, requests: seq<Request>)
    ensures forall i :: 0 <= i < |Committed(lib, stored, requests)| ==> IsValid(Committed(lib, stored, requests)[i])
    ensures (forall i :: 0 <= i < |requests| ==> !requests[i].SaveRequest?) ==>
              NoReplace(Committed(lib, stored, requests))
  {
    if requests != [] {
      var init, last := requests[..|requests| - 1], requests[|requests| - 1];
      CommittedAreValid(lib, stored, init);
      if Checked(last).Ok? {
        CheckedIsValid(last);
      }
    }
  }

  lemma {:induction false} GradedKanaAreUnits(changes: seq<Change>)
    requires forall i :: 0 <= i < |changes| ==> IsValid(changes[i])
    ensures forall kana :: kana in KanaIn(Grades(changes)) ==> IsKanaUnit(kana)
  {
    if changes != [] {
      var init, last := changes[..|changes| - 1], changes[|changes| - 1];
      GradedKanaAreUnits(init);
      if last.Grade? {
        KanaInSnoc(Grades(init), last.graded);
      }
    }
  }

  lemma SubsetSize<T>(small: set<T>, large: set<T>)
    requires small <= large
    ensures |small| <= |large|
  {
    assert large == small + (large - small);
  }

  /** No run of requests ever keys the maps on more than the 2387 characters there are. */
  lemma AtMost2387Kana(lib: Library, requests: seq<Request>)
    requires lib.Valid()
    requires forall i :: 0 <= i < |requests| ==> !requests[i].SaveRequest?
    ensures var row := Run(lib, None, requests);
            && Parse(row).Ok? && ViewOf(lib, Parse(row).value).Ok?
            && var view := ViewOf(lib, Parse(row).value).value;
               |view.skills| <= 2387 && |view.mastery| <= 2387
  {
    var changes := Committed(lib, None, requests);
    RunIsReplayOfCommitted(lib, None, requests);
    CommittedAreValid(lib, None, requests);
    DocumentIsItsHistory(lib, None, changes);
    FreshAccountView(lib, changes);
    GradedKanaAreUnits(changes);
    KanaUnitsAreCounted();
    var log := Grades(changes);
    FreshScores(log, "", Recognition);
    SubsetSize(KanaIn(log), KanaUnits());
    var view := ViewAfter(FRESH_VIEW, log);
    assert |view.skills| == |view.skills.Keys| && |view.mastery| == |view.mastery.Keys|;
  }
}
