/**
 The progress use cases as they run (internal/modules/progress/service.go on
 top of repository_mysql.go): a document rewritten in place inside a
 transaction, with database calls that may fail at every point.
 */
module ProgressService {
  import opened Wrappers
  import opened Scoring
  import opened Codec
  import opened Documents
  import opened ProgressRules
  import opened Text
  import opened Kana
  import opened Activity

  /** Which database calls of one request fail; unheard is a commit that succeeds while its answer is lost. */
  datatype Faults = Faults(begin: bool, lock: bool, write: bool, commit: bool, unheard: bool, readBack: bool,
      touch: bool)
  {
    /** Some call fails before the change is committed. */
    predicate BeforeCommit() {
      begin || lock || write || commit
    }

    /** The change is committed, and the request ends with an error all the same. */
    predicate AfterCommit() {
      unheard || readBack
    }
  }

  /** The progress row of one user, and the transaction that is changing it. */
  class ProgressTable {
    var row: Option<Json>
    var open: bool
    var pending: Option<Json>

    constructor (row: Option<Json>)
      ensures this.row == row && !open
    {
      this.row, this.open, this.pending := row, false, None;
    }

    method Begin()
      requires !open
      modifies this
      ensures open && pending == None && row == old(row)
    {
      open, pending := true, None;
    }

    method Write(data: Json)
      requires open
      modifies this
      ensures open && pending == Some(data) && row == old(row)
    {
      pending := Some(data);
    }

    method Commit()
      requires open && pending.Some?
      modifies this
      ensures !open && row == old(pending)
    {
      row, open, pending := pending, false, None;
    }

    /** Rolled back unless the commit succeeded first. */
    method Rollback()
      modifies this
      ensures !open && row == old(row)
    {
      open, pending := false, None;
    }

    /** PUT's own statement, outside any transaction of the service. */
    method Upsert(data: Json)
      requires !open
      modifies this
      ensures !open && row == Some(data)
    {
      row := Some(data);
    }

    method FindByUserID(fails: bool) returns (found: Result<Json, Error>)
      ensures found == if fails then Err(DatabaseFailure)
                       else if row.None? then Err(ProgressNotFound) else Ok(row.value)
    {
      if fails {
        return Err(DatabaseFailure);
      }
      if row.None? {
        return Err(ProgressNotFound);
      }
      return Ok(row.value);
    }
  }

  // ---- The checks in front of the repository ----

  method ValidateAnswer(answer: Answer, at: Time) returns (outcome: Result<Change, Error>)
    ensures outcome == CheckedAnswer(answer, at)
  {
    var skill := SkillNamed(answer.skill);
    if skill.None? {
      return Err(InvalidAnswer);
    }
    var valid := ValidKana(answer.kana);
    if !valid {
      return Err(InvalidAnswer);
    }
    if ByteLength(answer.chosen) > MAX_CHOSEN_LENGTH {
      return Err(InvalidAnswer);
    }
    return Ok(Grade(Graded(answer.kana, skill.value, answer.correct, answer.chosen, at)));
  }

  method ValidateLessonID(lessonId: string) returns (valid: bool)
    ensures valid <==> IsLessonId(lessonId)
  {
    if lessonId == "" || ByteLength(lessonId) > MAX_LESSON_ID_LENGTH {
      return false;
    }
    for i := 0 to |lessonId|
      invariant forall r :: r in lessonId[..i] ==> IsLessonRune(r)
    {
      if !IsLessonRune(lessonId[i]) {
        return false;
      }
    }
    assert lessonId[..|lessonId|] == lessonId;
    return true;
  }

  // ---- The closures that rewrite the parsed document ----

  /** RecordAnswer's closure. On an error the document may be left half rewritten. */
  method GradeDocument(lib: Library, doc: Document, graded: Graded) returns (outcome: Result<(), Error>)
    modifies doc
    ensures outcome.Ok? ==> ApplyChange(lib, old(doc.members), Grade(graded)) == Ok(doc.members)
    ensures outcome.Err? ==> ApplyChange(lib, old(doc.members), Grade(graded)) == Err(outcome.error)
  {
    var skills :- ReadSkills(doc.members);
    var mastery :- ReadMastery(doc.members);
    if skills.Nil? || mastery.Nil? {
      return Err(NilMapPanic);
    }
    var current := SkillsOf(skills.entries, graded.kana);
    current := current.SetScore(graded.skill, ApplyAnswer(current.Score(graded.skill), graded.correct));
    doc.Set(FIELD_SKILLS, EncodeSkillsByKana(skills.entries[graded.kana := current]));
    doc.Set(FIELD_MASTERY, EncodeMasteryByKana(mastery.entries[graded.kana := MasteryFor(current).Name()]));
    assert ReadAttempts(lib, doc.members) == ReadAttempts(lib, old(doc.members));
    outcome := doc.AppendAttempt(lib, graded.Stored());
  }

  method CompleteInDocument(lib: Library, doc: Document, lessonId: string) returns (outcome: Result<(), Error>)
    modifies doc
    ensures outcome.Ok? ==> ApplyChange(lib, old(doc.members), Complete(lessonId)) == Ok(doc.members)
    ensures outcome.Err? ==> ApplyChange(lib, old(doc.members), Complete(lessonId)) == Err(outcome.error)
  {
    var lessons :- ReadLessons(doc.members);
    var unique := SortedUnique(lessons + [lessonId]);
    doc.Set(FIELD_LESSONS, EncodeLessons(unique));
    return Ok(());
  }

  method ChangeDocument(lib: Library, doc: Document, change: Change) returns (outcome: Result<(), Error>)
    requires !change.Replace?
    modifies doc
    ensures outcome.Ok? ==> ApplyChange(lib, old(doc.members), change) == Ok(doc.members)
    ensures outcome.Err? ==> ApplyChange(lib, old(doc.members), change) == Err(outcome.error)
  {
    match change
    case Grade(graded) => outcome := GradeDocument(lib, doc, graded);
    case Complete(lessonId) => outcome := CompleteInDocument(lib, doc, lessonId);
    case Patch(members) => outcome := doc.Merge(members);
  }

  // ---- The use cases ----

  class Service {
    const table: ProgressTable
    const activity: ActivityRow
    const lib: Library

    constructor (table: ProgressTable, activity: ActivityRow, lib: Library)
      ensures this.table == table && this.activity == activity && this.lib == lib
    {
      this.table, this.activity, this.lib := table, activity, lib;
    }

    /** The closure mutate hands to the repository: raw document in, raw document out. */
    method Transform(stored: Option<Json>, change: Change) returns (updated: Result<Json, Error>)
      requires !change.Replace?
      ensures updated == Effect(lib, stored, change)
    {
      var members :- Parse(stored);
      var doc := new Document(members);
      var _ :- ChangeDocument(lib, doc, change);
      var encoded := doc.Marshal();
      if lib.size(encoded) > MAX_DATA_SIZE {
        return Err(InvalidData);
      }
      return Ok(encoded);
    }

    /** The repository transaction: begin, lock and read, transform, write, commit, read back. */
    method Mutate(change: Change, faults: Faults) returns (saved: Result<Json, Error>)
      requires !table.open && !change.Replace?
      modifies table
      ensures !table.open
      ensures var effect := Effect(lib, old(table.row), change);
              && (faults.BeforeCommit() || effect.Err? ==> saved.Err? && table.row == old(table.row))
              && (!faults.BeforeCommit() && effect.Err? ==> saved == effect)
              && (!faults.BeforeCommit() && effect.Ok? ==>
                    && table.row == Some(effect.value)
                    && saved == if faults.AfterCommit() then Err(DatabaseFailure) else effect)
    {
      if faults.begin {
        return Err(DatabaseFailure);
      }
      table.Begin();
      if faults.lock {
        table.Rollback();
        return Err(DatabaseFailure);
      }
      var updated := Transform(table.row, change);
      if updated.Err? {
        table.Rollback();
        return updated;
      }
      if faults.write {
        table.Rollback();
        return Err(DatabaseFailure);
      }
      table.Write(updated.value);
      if faults.commit {
        table.Rollback();
        return Err(DatabaseFailure);
      }
      table.Commit();
      if faults.unheard {
        return Err(DatabaseFailure);
      }
      saved := table.FindByUserID(faults.readBack);
    }

    /** Best effort: a failure is logged and the saved document stands. */
    method RecordActivity(today: int, fails: bool)
      modifies activity
      ensures activity.State() == if fails then old(activity.State()) else Touch(old(activity.State()), today)
    {
      if !fails {
        activity.TouchActivity(today);
      }
    }

    method RecordAnswer(answer: Answer, at: Time, today: int, faults: Faults) returns (saved: Result<Json, Error>)
      requires !table.open
      modifies table, activity
      ensures !table.open
      ensures Outcome(old(table.row), old(activity.State()), AnswerRequest(answer, at), today, faults, saved)
    {
      var change :- ValidateAnswer(answer, at);
      saved := Mutate(change, faults);
      if saved.Ok? {
        RecordActivity(today, faults.touch);
      }
    }

    method CompleteLesson(lessonId: string, today: int, faults: Faults) returns (saved: Result<Json, Error>)
      requires !table.open
      modifies table, activity
      ensures !table.open
      ensures Outcome(old(table.row), old(activity.State()), LessonRequest(lessonId), today, faults, saved)
    {
      var trimmed := TrimSpace(lessonId);
      var valid := ValidateLessonID(trimmed);
      if !valid {
        return Err(InvalidLesson);
      }
      saved := Mutate(Complete(trimmed), faults);
      if saved.Ok? {
        RecordActivity(today, faults.touch);
      }
    }

    /** A patch is a background sync: it does not count as activity. */
    method Merge(patch: Body, faults: Faults) returns (saved: Result<Json, Error>)
      requires !table.open
      modifies table
      ensures !table.open
      ensures Outcome(old(table.row), old(activity.State()), PatchRequest(patch), 0, faults, saved)
    {
      var change :- CheckedPatch(patch);
      saved := Mutate(change, faults);
    }

    method Save(data: Body, today: int, faults: Faults) returns (saved: Result<Json, Error>)
      requires !table.open
      modifies table, activity
      ensures !table.open
      ensures Outcome(old(table.row), old(activity.State()), SaveRequest(data), today, faults, saved)
    {
      var change :- CheckedSave(data);
      if faults.BeforeCommit() {
        return Err(DatabaseFailure);
      }
      table.Upsert(change.data);
      if faults.unheard {
        return Err(DatabaseFailure);
      }
      saved := table.FindByUserID(faults.readBack);
      if saved.Ok? {
        RecordActivity(today, faults.touch);
      }
    }

    /**
     What a finished request leaves. A request that fails before its commit
     leaves the document and the counters exactly as they were, whatever the
     parsed copy had become. After the commit a lost answer or the read-back
     can still turn the response into an error: the document has then changed
     and the counters have not.
     */
    ghost predicate Outcome(row: Option<Json>, counters: Counters, request: Request, today: int, faults: Faults,
                            saved: Result<Json, Error>)
      reads this, table, activity
    {
      var effect := Handle(lib, row, request);
      if faults.BeforeCommit() || effect.Err? then
        && saved.Err? && table.row == row && activity.State() == counters
        && (effect.Err? && !faults.BeforeCommit() ==> saved.error == effect.error)
      else
        && table.row == Some(effect.value)
        && saved == (if faults.AfterCommit() then Err(DatabaseFailure) else effect)
        && activity.State() == if faults.AfterCommit() || faults.touch || request.PatchRequest? then counters
                               else Touch(counters, today)
    }
  }
}
