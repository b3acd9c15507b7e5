/**
 What the four requests do to the raw JSON of a document, in the tokens and the
 member names that clients and rows use (internal/modules/progress/service.go,
 mastery.go and document.go).
 */
module ProgressRequests {
  import opened Wrappers
  import opened Scoring
  import opened Codec
  import opened Documents
  import opened ProgressRules
  import opened ProgressEntries
  import opened Text
  import opened Kana

  // ---- Raw values ----

  /** The member of an object, if the value is one and has it. */
  function At(value: Option<Json>, name: string): Option<Json> {
    if value.Some? && value.value.JObject? && name in value.value.members then Some(value.value.members[name]) else None
  }

  /** The integer there; nothing, null and anything else count as 0. */
  function Number(value: Option<Json>): Int64 {
    if value.Some? && value.value.JInt? && IsInt64(value.value.n) then value.value.n else 0
  }

  function TextAt(value: Option<Json>): string {
    if value.Some? && value.value.JString? then value.value.text else ""
  }

  function ItemsAt(value: Option<Json>): seq<Json> {
    if value.Some? && value.value.JArray? then value.value.items else []
  }

  /** One stored score. */
  function ScoreAt(document: Option<Json>, kana: string, skill: string): Int64 {
    Number(At(At(At(document, "skillsByKana"), kana), skill))
  }

  // ---- The scores of one kana ----

  function ScoreNamed(s: Skills, name: string): Int64 {
    if name == "recognition" then s.recognition
    else if name == "writing" then s.writing
    else if name == "listening" then s.listening
    else s.reading
  }

  lemma NumbersAreDecoded(m: Members, name: string)
    requires Member(m, name, 0, DecodeInt).Some?
    ensures Member(m, name, 0, DecodeInt).value == Number(At(Some(JObject(m)), name))
  {
  }

  lemma ScoresAreDecoded(j: Json, name: string)
    requires DecodeSkills(j).Some? && name in {"recognition", "writing", "listening", "reading"}
    ensures ScoreNamed(DecodeSkills(j).value, name) == Number(At(Some(j), name))
  {
    if j.JObject? {
      NumbersAreDecoded(j.members, name);
    }
  }

  lemma ScoresAreEncoded(s: Skills, name: string)
    requires name in {"recognition", "writing", "listening", "reading"}
    ensures At(Some(EncodeSkills(s)), name) == Some(JInt(ScoreNamed(s, name)))
  {
  }

  lemma ScoresAreRead(lib: Library, stored: Option<Json>, m: Members, kana: string, name: string)
    requires Parse(stored) == Ok(m) && ViewOf(lib, m).Ok? && name in {"recognition", "writing", "listening", "reading"}
    ensures ScoreNamed(SkillsOf(ViewOf(lib, m).value.skills, kana), name) == ScoreAt(stored, kana, name)
  {
    var skills := ViewOf(lib, m).value.skills;
    assert stored.Some? ==> stored.value == JObject(m);
    if kana in skills {
      assert At(stored, "skillsByKana") == Some(m[FIELD_SKILLS]);
      var raw := m[FIELD_SKILLS].members[kana];
      assert DecodeSkills(raw) == Some(skills[kana]);
      ScoresAreDecoded(raw, name);
    }
  }

  lemma NamedSkillsMove(graded: Graded, scores: Skills, name: string)
    requires name in {"recognition", "writing", "listening", "reading"}
    ensures graded.skill.Name() in {"recognition", "writing", "listening", "reading"}
    ensures ScoreNamed(graded.Move(scores), name) ==
            if graded.skill.Name() == name then ApplyAnswer(ScoreNamed(scores, name), graded.correct)
            else ScoreNamed(scores, name)
  {
  }

  /** The values under the three members that an answer rewrites. */
  ghost predicate Shows(lib: Library, document: Option<Json>, view: View) {
    && At(document, "skillsByKana") == Some(EncodeSkillsByKana(view.skills))
    && At(document, "masteryByKana") == Some(EncodeMasteryByKana(view.mastery))
    && At(document, "recentAttempts") == Some(EncodeAttempts(lib, view.attempts))
  }

  /** The answer, as it was graded. */
  ghost predicate Grades(graded: Graded, answer: Answer, at: Time) {
    && graded.kana == answer.kana && graded.skill.Name() == answer.skill && graded.correct == answer.correct
    && graded.chosen == answer.chosen && graded.at == at
  }

  lemma CheckedAnswersAreGraded(answer: Answer, at: Time) returns (graded: Graded)
    requires CheckedAnswer(answer, at).Ok?
    ensures CheckedAnswer(answer, at) == Ok(Grade(graded)) && Grades(graded, answer, at)
    ensures answer.kana != "" && answer.skill != ""
  {
    graded := CheckedAnswer(answer, at).value.graded;
    assert IsKanaUnit(answer.kana);
  }

  lemma GradedRowsShow(lib: Library, m: Members, graded: Graded)
    requires ViewOf(lib, m).Ok?
    ensures Shows(lib, Some(JObject(AfterAnswer(lib, m, graded))), GradeView(ViewOf(lib, m).value, graded))
  {
    MembersAfterAnswer(lib, m, graded);
  }

  /** The row that an answer finds, what it makes of it, and the row that it leaves. */
  lemma AnswersAreGraded(lib: Library, stored: Option<Json>, answer: Answer, at: Time, saved: Json)
    returns (m: Members, graded: Graded)
    requires Handle(lib, stored, AnswerRequest(answer, at)) == Ok(saved)
    ensures Parse(stored) == Ok(m) && ViewOf(lib, m).Ok? && Effect(lib, stored, Grade(graded)) == Ok(saved)
    ensures Grades(graded, answer, at) && answer.kana != "" && answer.skill != ""
    ensures Shows(lib, Some(saved), GradeView(ViewOf(lib, m).value, graded))
  {
    graded := CheckedAnswersAreGraded(answer, at);
    AnswersLeaveTheseMembers(lib, stored, graded);
    m := Parse(stored).value;
    GradedRowsShow(lib, m, graded);
  }

  /** The entry of this kana has the moved score under the client's token, and the scores read elsewhere. */
  ghost predicate MovesTheNamedScore(before: Option<Json>, after: Option<Json>, answer: Answer, name: string) {
    var entry, score := At(At(after, "skillsByKana"), answer.kana), ScoreAt(before, answer.kana, name);
    && At(entry, name) == Some(JInt(if name == answer.skill then ApplyAnswer(score, answer.correct) else score))
    && entry.value.members.Keys == {"recognition", "writing", "listening", "reading"}
  }

  lemma MovedEntriesShow(before: Option<Json>, after: Option<Json>, answer: Answer, at: Time, graded: Graded,
                         scores: Skills, name: string)
    requires Grades(graded, answer, at) && name in {"recognition", "writing", "listening", "reading"}
    requires ScoreNamed(scores, name) == ScoreAt(before, answer.kana, name)
    requires At(At(after, "skillsByKana"), answer.kana) == Some(EncodeSkills(graded.Move(scores)))
    ensures answer.skill in {"recognition", "writing", "listening", "reading"}
    ensures MovesTheNamedScore(before, after, answer, name)
  {
    NamedSkillsMove(graded, scores, name);
    ScoresAreEncoded(graded.Move(scores), name);
  }

  lemma KanaAreEncoded(skills: map<string, Skills>, kana: string)
    requires kana in skills
    ensures At(Some(EncodeSkillsByKana(skills)), kana) == Some(EncodeSkills(skills[kana]))
  {
  }

  /**
   The score that moves is the member with the client's token, whatever was
   stored; the three others are those read, and the entry has nothing else.
   */
  lemma AnswersMoveTheNamedScore(lib: Library, stored: Option<Json>, answer: Answer, at: Time, saved: Json,
                                 name: string)
    requires Handle(lib, stored, AnswerRequest(answer, at)) == Ok(saved)
    requires name in {"recognition", "writing", "listening", "reading"}
    ensures answer.skill in {"recognition", "writing", "listening", "reading"}
    ensures MovesTheNamedScore(stored, Some(saved), answer, name)
  {
    var m, graded := AnswersAreGraded(lib, stored, answer, at, saved);
    var skills := ViewOf(lib, m).value.skills;
    var scores := SkillsOf(skills, answer.kana);
    ScoresAreRead(lib, stored, m, answer.kana, name);
    KanaAreEncoded(skills[answer.kana := graded.Move(scores)], answer.kana);
    MovedEntriesShow(stored, Some(saved), answer, at, graded, scores, name);
  }

  lemma ScoredKanaAreRead(lib: Library, stored: Option<Json>, m: Members, kana: string)
    requires Parse(stored) == Ok(m) && ViewOf(lib, m).Ok? && At(At(stored, "skillsByKana"), kana).Some?
    ensures kana in ViewOf(lib, m).value.skills
  {
  }

  /** The scores of every other kana are those read, whatever else their entries had. */
  lemma AnswersLeaveOtherScores(lib: Library, stored: Option<Json>, answer: Answer, at: Time, saved: Json,
                                kana: string, name: string)
    requires Handle(lib, stored, AnswerRequest(answer, at)) == Ok(saved)
    requires kana != answer.kana && At(At(stored, "skillsByKana"), kana).Some?
    requires name in {"recognition", "writing", "listening", "reading"}
    ensures At(At(At(Some(saved), "skillsByKana"), kana), name) == Some(JInt(ScoreAt(stored, kana, name)))
  {
    var m, graded := AnswersAreGraded(lib, stored, answer, at, saved);
    var skills := ViewOf(lib, m).value.skills;
    ScoredKanaAreRead(lib, stored, m, kana);
    ScoresAreRead(lib, stored, m, kana, name);
    KanaAreEncoded(skills[answer.kana := graded.Move(SkillsOf(skills, answer.kana))], kana);
    ScoresAreEncoded(skills[kana], name);
  }

  /** What the four scores of a kana add up to. */
  function TotalAt(document: Option<Json>, kana: string): int {
    ScoreAt(document, kana, "recognition") + ScoreAt(document, kana, "writing") +
    ScoreAt(document, kana, "listening") + ScoreAt(document, kana, "reading")
  }

  lemma TotalsAdd(document: Option<Json>, kana: string, scores: Skills)
    requires At(At(document, "skillsByKana"), kana) == Some(EncodeSkills(scores))
    ensures TotalAt(document, kana) == scores.recognition + scores.writing + scores.listening + scores.reading
  {
    ScoresAreEncoded(scores, "recognition");
    ScoresAreEncoded(scores, "writing");
    ScoresAreEncoded(scores, "listening");
    ScoresAreEncoded(scores, "reading");
  }

  /** The stored mastery follows from the four scores stored: 320, 200 and 100 points are the thresholds. */
  ghost predicate MasteryFollows(document: Option<Json>, kana: string) {
    var total := TotalAt(document, kana);
    -0x8000_0000_0000_0000 <= total <= 0x7FFF_FFFF_FFFF_FFFF ==>
      At(At(document, "masteryByKana"), kana) ==
      Some(JString(if 320 <= total then "mastered" else if 200 <= total then "familiar"
                   else if 100 <= total then "learning" else "discovered"))
  }

  lemma ShownMasteryFollows(document: Option<Json>, kana: string, scores: Skills)
    requires At(At(document, "skillsByKana"), kana) == Some(EncodeSkills(scores))
    requires At(At(document, "masteryByKana"), kana) == Some(JString(MasteryFor(scores).Name()))
    ensures MasteryFollows(document, kana)
  {
    TotalsAdd(document, kana, scores);
    var total := TotalAt(document, kana);
    if -0x8000_0000_0000_0000 <= total <= 0x7FFF_FFFF_FFFF_FFFF {
      MasteryFollowsTheSum(scores, total);
    }
  }

  lemma AnswersStoreTheMastery(lib: Library, stored: Option<Json>, answer: Answer, at: Time, saved: Json)
    requires Handle(lib, stored, AnswerRequest(answer, at)) == Ok(saved)
    ensures MasteryFollows(Some(saved), answer.kana)
  {
    var m, graded := AnswersAreGraded(lib, stored, answer, at, saved);
    var view := GradeView(ViewOf(lib, m).value, graded);
    KanaAreEncoded(view.skills, answer.kana);
    ShownMasteryFollows(Some(saved), answer.kana, view.skills[answer.kana]);
  }

  // ---- The window of attempts ----

  function OmittedIfEmpty(text: string): Option<Json> {
    if text == "" then None else Some(JString(text))
  }

  /** The instant there; nothing and null count as the zero instant. */
  function InstantAt(lib: Library, value: Option<Json>): Time {
    if value.Some? && value.value.JString? && lib.parseTime(value.value.text).Some?
    then lib.parseTime(value.value.text).value else lib.zeroTime
  }

  /** What the server makes of one stored attempt that it can read. */
  ghost predicate Rewrites(lib: Library, before: Json, after: Json) {
    && after.JObject? && after.members.Keys <= {"kana", "skill", "correct", "chosen", "at"}
    && At(Some(after), "kana") == OmittedIfEmpty(TextAt(At(Some(before), "kana")))
    && At(Some(after), "skill") == OmittedIfEmpty(TextAt(At(Some(before), "skill")))
    && At(Some(after), "chosen") == OmittedIfEmpty(TextAt(At(Some(before), "chosen")))
    && At(Some(after), "correct") == Some(JBool(At(Some(before), "correct") == Some(JBool(true))))
    && At(Some(after), "at") == Some(JString(lib.writeTime(InstantAt(lib, At(Some(before), "at")))))
  }

  lemma AttemptsAreDecoded(lib: Library, j: Json)
    requires DecodeAttempt(lib, j).Some?
    ensures var a := DecodeAttempt(lib, j).value;
            && a.kana == TextAt(At(Some(j), "kana")) && a.skill == TextAt(At(Some(j), "skill"))
            && a.chosen == TextAt(At(Some(j), "chosen")) && a.correct == (At(Some(j), "correct") == Some(JBool(true)))
            && a.at == InstantAt(lib, At(Some(j), "at"))
  {
  }

  lemma AttemptsAreRewritten(lib: Library, j: Json)
    requires DecodeAttempt(lib, j).Some?
    ensures Rewrites(lib, j, EncodeAttempt(lib, DecodeAttempt(lib, j).value))
  {
    AttemptsAreDecoded(lib, j);
    EncodedMembers(lib, DecodeAttempt(lib, j).value);
  }

  /** This attempt as the answer gave it; an option that is empty is left out. */
  ghost predicate Records(lib: Library, answer: Answer, at: Time, item: Json) {
    && item.JObject?
    && At(Some(item), "kana") == Some(JString(answer.kana)) && At(Some(item), "skill") == Some(JString(answer.skill))
    && At(Some(item), "correct") == Some(JBool(answer.correct))
    && At(Some(item), "chosen") == OmittedIfEmpty(answer.chosen)
    && At(Some(item), "at") == Some(JString(lib.writeTime(at)))
    && item.members.Keys <= {"kana", "skill", "correct", "chosen", "at"}
  }

  lemma GradedAttemptsRecord(lib: Library, answer: Answer, at: Time, graded: Graded)
    requires Grades(graded, answer, at) && answer.kana != "" && answer.skill != ""
    ensures Records(lib, answer, at, EncodeAttempt(lib, graded.Stored()))
  {
    EncodedMembers(lib, graded.Stored());
  }

  lemma WindowEndsWith(lib: Library, attempts: seq<Attempt>, attempt: Attempt)
    ensures var window := EncodeAttempts(lib, Newest(attempts + [attempt])).items;
            && |window| == (if |attempts| < 200 then |attempts| + 1 else 200)
            && window[|window| - 1] == EncodeAttempt(lib, attempt)
  {
  }

  lemma ItemsAreRead(lib: Library, stored: Option<Json>, m: Members)
    requires Parse(stored) == Ok(m) && ViewOf(lib, m).Ok?
    ensures ItemsAt(At(stored, "recentAttempts")) == Items(m) && |Items(m)| == |ViewOf(lib, m).value.attempts|
    ensures forall place :: 0 <= place < |Items(m)| ==>
              DecodeAttempt(lib, Items(m)[place]) == Some(ViewOf(lib, m).value.attempts[place])
  {
    ItemsAreDecoded(lib, m);
  }

  /** The window has one item more, or 200, and the last one records this answer. */
  ghost predicate EndsWith(lib: Library, items: seq<Json>, window: seq<Json>, answer: Answer, at: Time) {
    && |window| == (if |items| < 200 then |items| + 1 else 200)
    && Records(lib, answer, at, window[|window| - 1])
  }

  lemma RecordedWindowsEndWith(lib: Library, items: seq<Json>, attempts: seq<Attempt>, attempt: Attempt, answer: Answer,
                               at: Time)
    requires |items| == |attempts| && Records(lib, answer, at, EncodeAttempt(lib, attempt))
    ensures EndsWith(lib, items, EncodeAttempts(lib, Newest(attempts + [attempt])).items, answer, at)
  {
    WindowEndsWith(lib, attempts, attempt);
  }

  /** The answer is the last item of the window, which holds 200 at most. */
  lemma AnswersAreRecordedLast(lib: Library, stored: Option<Json>, answer: Answer, at: Time, saved: Json)
    requires Handle(lib, stored, AnswerRequest(answer, at)) == Ok(saved)
    ensures EndsWith(lib, ItemsAt(At(stored, "recentAttempts")), ItemsAt(At(Some(saved), "recentAttempts")), answer, at)
  {
    var m, graded := AnswersAreGraded(lib, stored, answer, at, saved);
    ItemsAreRead(lib, stored, m);
    GradedAttemptsRecord(lib, answer, at, graded);
    RecordedWindowsEndWith(lib, Items(m), ViewOf(lib, m).value.attempts, graded.Stored(), answer, at);
  }

  /** Only the oldest items make room, and only beyond 200; an item that stays is rewritten in its place. */
  ghost predicate RewritesInPlace(lib: Library, items: seq<Json>, window: seq<Json>, place: nat) {
    var pushed := if |items| < 200 then 0 else |items| - 199;
    |window| == |items| - pushed + 1 &&
    (pushed <= place < |items| ==> Rewrites(lib, items[place], window[place - pushed]))
  }

  lemma ReadAttemptsAreRewritten(lib: Library, items: seq<Json>, attempts: seq<Attempt>, attempt: Attempt, place: nat)
    requires |items| == |attempts|
    requires place < |items| ==> DecodeAttempt(lib, items[place]) == Some(attempts[place])
    ensures RewritesInPlace(lib, items, EncodeAttempts(lib, Newest(attempts + [attempt])).items, place)
  {
    WindowEndsWith(lib, attempts, attempt);
    if place < |items| && (|items| >= 200 ==> |items| - 199 <= place) {
      EncodedNewestAt(lib, attempts, attempt, place);
      AttemptsAreRewritten(lib, items[place]);
    }
  }

  lemma AnswersRewriteTheWindow(lib: Library, stored: Option<Json>, answer: Answer, at: Time, saved: Json, place: nat)
    requires Handle(lib, stored, AnswerRequest(answer, at)) == Ok(saved)
    ensures RewritesInPlace(lib, ItemsAt(At(stored, "recentAttempts")), ItemsAt(At(Some(saved), "recentAttempts")),
                            place)
  {
    var m, graded := AnswersAreGraded(lib, stored, answer, at, saved);
    ItemsAreRead(lib, stored, m);
    ReadAttemptsAreRewritten(lib, Items(m), ViewOf(lib, m).value.attempts, graded.Stored(), place);
  }

  /** What every change but PUT leaves: a document stamped as version 2, of 256 KiB at most. */
  lemma ChangesAreStamped(lib: Library, stored: Option<Json>, change: Change, saved: Json)
    requires !change.Replace? && Effect(lib, stored, change) == Ok(saved)
    ensures At(Some(saved), "schemaVersion") == Some(JInt(2)) && lib.size(saved) <= 262144
  {
  }

  lemma MembersAt(stored: Option<Json>, m: Members, name: string)
    requires Parse(stored) == Ok(m)
    ensures At(stored, name) == Lookup(m, name)
  {
  }

  lemma AnswersKeepUnprotectedMembers(lib: Library, stored: Option<Json>, graded: Graded, saved: Json, name: string)
    requires Effect(lib, stored, Grade(graded)) == Ok(saved)
    requires name !in {"schemaVersion", "skillsByKana", "masteryByKana", "recentAttempts"}
    ensures At(Some(saved), name) == At(stored, name)
  {
    var m := Parse(stored).value;
    MembersAt(stored, m, name);
    assert name !in PROTECTED_FIELDS;
    AnswersKeepOtherMembers(lib, stored, m, graded, name);
  }

  /** Everything else stays. */
  lemma AnswersLeaveTheRest(lib: Library, stored: Option<Json>, answer: Answer, at: Time, saved: Json, name: string)
    requires Handle(lib, stored, AnswerRequest(answer, at)) == Ok(saved)
    requires name !in {"schemaVersion", "skillsByKana", "masteryByKana", "recentAttempts"}
    ensures At(Some(saved), name) == At(stored, name)
  {
    var graded := CheckedAnswersAreGraded(answer, at);
    AnswersKeepUnprotectedMembers(lib, stored, graded, saved, name);
  }

  // ---- Which answers are accepted ----

  /** Exactly the four tokens, one character of the syllabary, and an option of at most 32 bytes. */
  lemma WhichAnswersAreAccepted(answer: Answer, at: Time)
    ensures Checked(AnswerRequest(answer, at)).Ok? <==>
            && answer.skill in {"recognition", "writing", "listening", "reading"}
            && IsKanaUnit(answer.kana) && ByteLength(answer.chosen) <= 32
    ensures Checked(AnswerRequest(answer, at)).Err? ==> Checked(AnswerRequest(answer, at)) == Err(InvalidAnswer)
  {
    assert Recognition.Name() == "recognition" && Writing.Name() == "writing";
    assert Listening.Name() == "listening" && Reading.Name() == "reading";
  }

  ghost predicate ReadableNumber(value: Option<Json>) {
    value.None? || value.value == JNull ||
    (value.value.JInt? && -0x8000_0000_0000_0000 <= value.value.n <= 0x7FFF_FFFF_FFFF_FFFF)
  }

  ghost predicate ReadableText(value: Option<Json>) {
    value.None? || value.value == JNull || value.value.JString?
  }

  ghost predicate ReadableScores(entry: Json) {
    || entry == JNull
    || (&& entry.JObject?
        && ReadableNumber(At(Some(entry), "recognition")) && ReadableNumber(At(Some(entry), "writing"))
        && ReadableNumber(At(Some(entry), "listening")) && ReadableNumber(At(Some(entry), "reading")))
  }

  ghost predicate ReadableAttempt(lib: Library, item: Json) {
    || item == JNull
    || (&& item.JObject?
        && ReadableText(At(Some(item), "kana")) && ReadableText(At(Some(item), "skill"))
        && ReadableText(At(Some(item), "chosen")) && ReadableText(At(Some(item), "at"))
        && (At(Some(item), "correct").None? || At(Some(item), "correct").value == JNull ||
            At(Some(item), "correct").value.JBool?)
        && (At(Some(item), "at").Some? && At(Some(item), "at").value.JString? ==>
              lib.parseTime(At(Some(item), "at").value.text).Some?))
  }

  lemma ReadableScoresDecode(entry: Json)
    ensures DecodeSkills(entry).Some? <==> ReadableScores(entry)
  {
  }

  lemma ReadableAttemptsDecode(lib: Library, item: Json)
    ensures DecodeAttempt(lib, item).Some? <==> ReadableAttempt(lib, item)
  {
  }

  ghost predicate ReadableScoreMap(value: Option<Json>) {
    value.None? ||
    (value.value.JObject? &&
     var entries := value.value.members; forall kana :: kana in entries ==> ReadableScores(entries[kana]))
  }

  ghost predicate ReadableTextMap(value: Option<Json>) {
    value.None? ||
    (value.value.JObject? &&
     var texts := value.value.members; forall kana :: kana in texts ==> ReadableText(Some(texts[kana])))
  }

  ghost predicate ReadableWindow(lib: Library, value: Option<Json>) {
    value.None? || value.value == JNull ||
    (value.value.JArray? &&
     var items := value.value.items; forall i :: 0 <= i < |items| ==> ReadableAttempt(lib, items[i]))
  }

  /** Both maps are objects if they are there at all, null not among them; every entry and attempt can be read. */
  ghost predicate Gradable(lib: Library, m: Members) {
    && ReadableScoreMap(Lookup(m, "skillsByKana")) && ReadableTextMap(Lookup(m, "masteryByKana"))
    && ReadableWindow(lib, Lookup(m, "recentAttempts"))
  }

  lemma GradableScores(m: Members)
    ensures ReadSkills(m).Ok? && ReadSkills(m).value.Made? <==> ReadableScoreMap(Lookup(m, "skillsByKana"))
  {
    forall entry ensures DecodeSkills(entry).Some? <==> ReadableScores(entry) {
      ReadableScoresDecode(entry);
    }
  }

  lemma GradableTexts(m: Members)
    ensures ReadMastery(m).Ok? && ReadMastery(m).value.Made? <==> ReadableTextMap(Lookup(m, "masteryByKana"))
  {
  }

  lemma GradableAttempts(lib: Library, m: Members)
    ensures ReadAttempts(lib, m).Ok? <==> ReadableWindow(lib, Lookup(m, "recentAttempts"))
  {
    forall item ensures DecodeAttempt(lib, item).Some? <==> ReadableAttempt(lib, item) {
      ReadableAttemptsDecode(lib, item);
    }
  }

  /** Exactly which documents an answer can be recorded in, up to the size of the result. */
  lemma WhichDocumentsAreGraded(lib: Library, m: Members, graded: Graded)
    ensures Gradable(lib, m) <==> ApplyChange(lib, m, Grade(graded)).Ok?
  {
    GradableScores(m);
    GradableTexts(m);
    GradableAttempts(lib, m);
  }

  /** The size of the result is all that is left to fail by: more than 256 KiB. */
  lemma WhenChangesFailBySize(lib: Library, stored: Option<Json>, m: Members, change: Change)
    requires Parse(stored) == Ok(m) && !change.Replace? && ApplyChange(lib, m, change).Ok?
    ensures var after := JObject(ApplyChange(lib, m, change).value["schemaVersion" := JInt(2)]);
            Effect(lib, stored, change) == if lib.size(after) <= 262144 then Ok(after) else Err(InvalidData)
  {
  }

  // ---- Lessons ----

  lemma {:induction false} AsciiIsOneByteEach(s: string)
    requires forall c :: c in s ==> c as int < 128
    ensures ByteLength(s) == |s|
  {
    if s != "" {
      assert s[0] in s && forall c :: c in s[1..] ==> c in s;
      AsciiIsOneByteEach(s[1..]);
    }
  }

  /** A hyphen, a full stop, an underscore, a digit or a letter, by its code. */
  ghost predicate IsLessonCode(code: int) {
    code == 45 || code == 46 || code == 95 || 48 <= code <= 57 || 65 <= code <= 90 || 97 <= code <= 122
  }

  lemma LessonIdsAreShort(id: string)
    ensures IsLessonId(id) <==> 1 <= |id| <= 64 && forall c :: c in id ==> IsLessonCode(c as int)
  {
    assert forall c: char :: IsLessonRune(c) <==> IsLessonCode(c as int);
    if forall c :: c in id ==> IsLessonCode(c as int) {
      AsciiIsOneByteEach(id);
    }
  }

  /** Exactly the trimmed identifiers of 1 to 64 such characters. */
  lemma WhichLessonsAreAccepted(raw: string)
    ensures Checked(LessonRequest(raw)) ==
            if 1 <= |TrimSpace(raw)| <= 64 && forall c :: c in TrimSpace(raw) ==> IsLessonCode(c as int)
            then Ok(Complete(TrimSpace(raw))) else Err(InvalidLesson)
  {
    LessonIdsAreShort(TrimSpace(raw));
  }

  ghost function TextsAt(list: Option<Json>): set<string> {
    set i | 0 <= i < |ItemsAt(list)| :: TextAt(Some(ItemsAt(list)[i]))
  }

  /** A list of texts in increasing order. */
  ghost predicate IsSortedList(list: Option<Json>) {
    && list.Some? && list.value.JArray?
    && (forall i :: 0 <= i < |list.value.items| ==> list.value.items[i].JString?)
    && (forall i, j :: 0 <= i < j < |list.value.items| ==> Less(list.value.items[i].text, list.value.items[j].text))
  }

  lemma TextsOfLessons(list: Option<Json>, lessons: seq<string>)
    requires |ItemsAt(list)| == |lessons|
    requires forall i :: 0 <= i < |lessons| ==> TextAt(Some(ItemsAt(list)[i])) == lessons[i]
    ensures TextsAt(list) == Elements(lessons)
  {
    forall text | text in Elements(lessons) ensures text in TextsAt(list) {
      var i :| 0 <= i < |lessons| && lessons[i] == text;
      assert TextAt(Some(ItemsAt(list)[i])) == text;
    }
  }

  lemma EncodedLessonsAreSorted(lessons: seq<string>)
    requires StrictlySorted(lessons)
    ensures IsSortedList(Some(EncodeLessons(lessons))) && TextsAt(Some(EncodeLessons(lessons))) == Elements(lessons)
  {
    TextsOfLessons(Some(EncodeLessons(lessons)), lessons);
  }

  lemma LessonsAreRead(m: Members)
    requires ReadLessons(m).Ok?
    ensures TextsAt(Lookup(m, "completedLessonIds")) == Elements(ReadLessons(m).value)
  {
    TextsOfLessons(Lookup(m, "completedLessonIds"), ReadLessons(m).value);
  }

  lemma StampedAt(m: Members, field: string, value: Json, name: string)
    requires field != "schemaVersion"
    ensures At(Some(JObject(Stamped(m[field := value]))), name) ==
            if name == "schemaVersion" then Some(JInt(2)) else if name == field then Some(value) else Lookup(m, name)
  {
  }

  lemma CompletingStamps(lib: Library, stored: Option<Json>, id: string, saved: Json)
    returns (m: Members, lessons: seq<string>)
    requires Effect(lib, stored, Complete(id)) == Ok(saved)
    ensures Parse(stored) == Ok(m) && ReadLessons(m) == Ok(lessons)
    ensures saved == JObject(Stamped(m["completedLessonIds" := EncodeLessons(SortedUniqueOf(lessons + [id]))]))
  {
    m := Parse(stored).value;
    lessons := ReadLessons(m).value;
  }

  lemma CompletedListsAreSorted(m: Members, lessons: seq<string>, id: string)
    requires ReadLessons(m) == Ok(lessons)
    ensures var list := Some(EncodeLessons(SortedUniqueOf(lessons + [id])));
            IsSortedList(list) && TextsAt(list) == TextsAt(Lookup(m, "completedLessonIds")) + {id}
  {
    LessonsAreRead(m);
    ElementsOfConcat(lessons, [id]);
    EncodedLessonsAreSorted(SortedUniqueOf(lessons + [id]));
  }

  /** The list becomes the sorted list of what it had and the lesson; every other member stays, under the stamp. */
  ghost predicate ListsTheLesson(before: Option<Json>, after: Option<Json>, id: string, name: string) {
    && IsSortedList(At(after, "completedLessonIds"))
    && TextsAt(At(after, "completedLessonIds")) == TextsAt(At(before, "completedLessonIds")) + {id}
    && (name != "completedLessonIds" ==>
          At(after, name) == if name == "schemaVersion" then Some(JInt(2)) else At(before, name))
  }

  lemma CompletingLists(lib: Library, stored: Option<Json>, id: string, saved: Json, name: string)
    requires Effect(lib, stored, Complete(id)) == Ok(saved)
    ensures ListsTheLesson(stored, Some(saved), id, name)
  {
    var m, lessons := CompletingStamps(lib, stored, id, saved);
    var list := EncodeLessons(SortedUniqueOf(lessons + [id]));
    MembersAt(stored, m, "completedLessonIds");
    MembersAt(stored, m, name);
    CompletedListsAreSorted(m, lessons, id);
    StampedAt(m, "completedLessonIds", list, "completedLessonIds");
    StampedAt(m, "completedLessonIds", list, name);
  }

  lemma LessonsAreListed(lib: Library, stored: Option<Json>, raw: string, saved: Json, name: string)
    requires Handle(lib, stored, LessonRequest(raw)) == Ok(saved)
    ensures ListsTheLesson(stored, Some(saved), TrimSpace(raw), name)
  {
    CompletingLists(lib, stored, TrimSpace(raw), saved, name);
  }

  // ---- Patches and PUT ----

  /** Exactly the objects with a member, of 1 to 262144 bytes; what is wrong with the others, in the order checked. */
  lemma WhichPatchesAreAccepted(body: Body)
    ensures Checked(PatchRequest(body)) ==
            if body.length == 0 then Err(EmptyPatch) else if body.length > 262144 then Err(InvalidData)
            else if body.parsed.None? || !body.parsed.value.JObject? then Err(UnreadablePatch)
            else if body.parsed.value.members == map[] then Err(EmptyPatch) else Ok(Patch(body.parsed.value.members))
  {
  }

  /** The patch carries none of the four server members, and every member of it is in the row; the others stay. */
  lemma PatchesOverride(lib: Library, stored: Option<Json>, body: Body, saved: Json, name: string)
    requires Handle(lib, stored, PatchRequest(body)) == Ok(saved)
    ensures var patch := body.parsed;
            && At(patch, "schemaVersion").None? && At(patch, "skillsByKana").None?
            && At(patch, "masteryByKana").None? && At(patch, "recentAttempts").None?
            && At(Some(saved), name) == if name == "schemaVersion" then Some(JInt(2))
                                        else if At(patch, name).Some? then At(patch, name) else At(stored, name)
  {
    var m := Parse(stored).value;
    MembersAt(stored, m, name);
    assert PROTECTED_FIELDS == {"schemaVersion", "skillsByKana", "masteryByKana", "recentAttempts"};
  }

  /** Any other patch applies to every readable document. */
  lemma UnprotectedPatchesApply(lib: Library, m: Members, patch: Members)
    requires patch != map[]
    requires forall name :: name in {"schemaVersion", "skillsByKana", "masteryByKana", "recentAttempts"} ==>
               name !in patch
    ensures ApplyChange(lib, m, Patch(patch)) == Ok(m + patch)
  {
    assert PROTECTED_FIELDS == {"schemaVersion", "skillsByKana", "masteryByKana", "recentAttempts"};
  }

  /** A patch that carries one of them is refused, whatever else it carries. */
  lemma ProtectedPatchesAreRefused(lib: Library, stored: Option<Json>, body: Body, name: string)
    requires Checked(PatchRequest(body)).Ok? && Parse(stored).Ok? && At(body.parsed, name).Some?
    requires name in {"schemaVersion", "skillsByKana", "masteryByKana", "recentAttempts"}
    ensures Handle(lib, stored, PatchRequest(body)) == Err(ProtectedField)
  {
    assert name in PROTECTED_FIELDS;
  }

  /** PUT stores any valid JSON of 1 to 262144 bytes as it is. */
  lemma PutsAreStored(lib: Library, stored: Option<Json>, body: Body)
    ensures Handle(lib, stored, SaveRequest(body)) ==
            if 1 <= body.length <= 262144 && body.parsed.Some? then Ok(body.parsed.value) else Err(InvalidData)
  {
  }
}
