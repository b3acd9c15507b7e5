/**
 JSON values without their bytes, and the typed decoders and encoders that
 internal/modules/progress/document.go applies to the members it understands.
 */
module Codec {
  import opened Wrappers
  import opened Scoring

  /** An instant that the server can write. */
  type Time(==, 0, !new)

  /** JInt is a number written as an integer literal, JNumber any other number. */
  datatype Json =
    | JNull
    | JBool(flag: bool)
    | JInt(n: int)
    | JNumber(lexeme: string)
    | JString(text: string)
    | JArray(items: seq<Json>)
    | JObject(members: map<string, Json>)

  type Members = map<string, Json>

  /**
   What the standard library decides: the length of an encoding, and which texts
   are timestamps. An instant is written as one text; other texts may name it
   too, such as one with zeros at the end of its fraction.
   */
  datatype Library = Library(size: Json -> nat, parseTime: string -> Option<Time>, writeTime: Time -> string,
      zeroTime: Time)
  {
    ghost predicate Valid() {
      forall at: Time :: parseTime(writeTime(at)) == Some(at)
    }

    /** A timestamp that the server would write in the same way. */
    predicate IsWrittenTime(text: string) {
      parseTime(text).Some? && writeTime(parseTime(text).value) == text
    }
  }

  /** One answer as stored in the rolling window. */
  datatype Attempt = Attempt(kana: string, skill: string, correct: bool, chosen: string, at: Time)

  /** A Go map that may be nil: json.Unmarshal of null sets a map to nil. */
  datatype GoMap<+T> = Nil | Made(entries: map<string, T>)

  // ---- Scalars. A JSON null leaves the Go value as it was, which is zero ----

  function DecodeInt(j: Json): Option<Int64> {
    match j
    case JNull => Some(0)
    case JInt(n) => if IsInt64(n) then Some(n) else None
    case _ => None
  }

  function DecodeString(j: Json): Option<string> {
    match j
    case JNull => Some("")
    case JString(text) => Some(text)
    case _ => None
  }

  function DecodeBool(j: Json): Option<bool> {
    match j
    case JNull => Some(false)
    case JBool(flag) => Some(flag)
    case _ => None
  }

  function DecodeTime(lib: Library, j: Json): Option<Time> {
    match j
    case JNull => Some(lib.zeroTime)
    case JString(text) => lib.parseTime(text)
    case _ => None
  }

  /** One struct member; an absent one keeps the zero value. */
  function Member<T>(m: Members, name: string, zero: T, decode: Json -> Option<T>): Option<T> {
    if name in m then decode(m[name]) else Some(zero)
  }

  // ---- Containers ----

  /** Every entry of an object; one bad entry spoils them all. */
  function DecodeEntries<T>(m: Members, decode: Json -> Option<T>): (r: Option<map<string, T>>)
    ensures r.Some? <==> forall k :: k in m ==> decode(m[k]).Some?
    ensures r.Some? ==> r.value.Keys == m.Keys && forall k :: k in m ==> Some(r.value[k]) == decode(m[k])
  {
    if forall k | k in m :: decode(m[k]).Some? then Some(map k | k in m :: decode(m[k]).value) else None
  }

  function DecodeMap<T>(j: Json, decode: Json -> Option<T>): Option<GoMap<T>> {
    match j
    case JNull => Some(Nil)
    case JObject(m) => var entries :- DecodeEntries(m, decode); Some(Made(entries))
    case _ => None
  }

  /** Every item of an array; null is the nil slice, which has no items. */
  function DecodeList<T>(j: Json, decode: Json -> Option<T>): Option<seq<T>> {
    match j
    case JNull => Some([])
    case JArray(items) =>
      if forall i | 0 <= i < |items| :: decode(items[i]).Some? then
        Some(seq(|items|, i requires 0 <= i < |items| => decode(items[i]).value))
      else None
    case _ => None
  }

  // ---- The scores of one kana ----

  function DecodeSkills(j: Json): Option<Skills> {
    match j
    case JNull => Some(UNSEEN)
    case JObject(m) =>
      var recognition :- Member(m, "recognition", 0, DecodeInt);
      var writing :- Member(m, "writing", 0, DecodeInt);
      var listening :- Member(m, "listening", 0, DecodeInt);
      var reading :- Member(m, "reading", 0, DecodeInt);
      Some(Skills(recognition, writing, listening, reading))
    case _ => None
  }

  function EncodeSkills(s: Skills): Json {
    JObject(map["recognition" := JInt(s.recognition), "writing" := JInt(s.writing),
                "listening" := JInt(s.listening), "reading" := JInt(s.reading)])
  }

  function DecodeSkillsByKana(j: Json): Option<GoMap<Skills>> {
    DecodeMap(j, DecodeSkills)
  }

  function EncodeSkillsByKana(m: map<string, Skills>): Json {
    JObject(map k | k in m :: EncodeSkills(m[k]))
  }

  lemma SkillsRoundTrip(s: Skills)
    ensures DecodeSkills(EncodeSkills(s)) == Some(s)
  {
  }

  /** The scores the server itself would have written: all four, each an integer it can hold. */
  ghost predicate IsWrittenSkills(j: Json) {
    && j.JObject?
    && j.members.Keys == {"recognition", "writing", "listening", "reading"}
    && forall name :: name in j.members ==> j.members[name].JInt? && IsInt64(j.members[name].n)
  }

  lemma WrittenSkillsAreKept(j: Json)
    requires IsWrittenSkills(j)
    ensures DecodeSkills(j).Some? && EncodeSkills(DecodeSkills(j).value) == j
  {
    var m := j.members;
    assert "recognition" in m && "writing" in m && "listening" in m && "reading" in m;
    assert EncodeSkills(DecodeSkills(j).value).members == m;
  }

  /** The scores of one kana come back as they were exactly when the server could have written them. */
  lemma SkillsEntryIsKeptIffWritten(j: Json)
    ensures IsWrittenSkills(j) <==> DecodeSkills(j).Some? && EncodeSkills(DecodeSkills(j).value) == j
  {
    if IsWrittenSkills(j) {
      WrittenSkillsAreKept(j);
    }
  }

  lemma SkillsByKanaRoundTrip(m: map<string, Skills>)
    ensures DecodeSkillsByKana(EncodeSkillsByKana(m)) == Some(Made(m))
  {
    var encoded := EncodeSkillsByKana(m).members;
    forall k | k in m ensures DecodeSkills(encoded[k]) == Some(m[k]) {
      SkillsRoundTrip(m[k]);
    }
    assert DecodeEntries(encoded, DecodeSkills).value == m;
  }

  // ---- The mastery state of every kana ----

  function DecodeMasteryByKana(j: Json): Option<GoMap<string>> {
    DecodeMap(j, DecodeString)
  }

  function EncodeMasteryByKana(m: map<string, string>): Json {
    JObject(map k | k in m :: JString(m[k]))
  }

  lemma MasteryByKanaRoundTrip(m: map<string, string>)
    ensures DecodeMasteryByKana(EncodeMasteryByKana(m)) == Some(Made(m))
  {
    assert DecodeEntries(EncodeMasteryByKana(m).members, DecodeString).value == m;
  }

  // ---- The completed lessons ----

  function DecodeLessons(j: Json): Option<seq<string>> {
    DecodeList(j, DecodeString)
  }

  function EncodeLessons(lessons: seq<string>): Json {
    JArray(seq(|lessons|, i requires 0 <= i < |lessons| => JString(lessons[i])))
  }

  lemma LessonsRoundTrip(lessons: seq<string>)
    ensures DecodeLessons(EncodeLessons(lessons)) == Some(lessons)
  {
    assert DecodeLessons(EncodeLessons(lessons)).value == lessons;
  }

  // ---- The rolling window of attempts ----

  function DecodeAttempt(lib: Library, j: Json): Option<Attempt> {
    match j
    case JNull => Some(Attempt("", "", false, "", lib.zeroTime))
    case JObject(m) =>
      var kana :- Member(m, "kana", "", DecodeString);
      var skill :- Member(m, "skill", "", DecodeString);
      var correct :- Member(m, "correct", false, DecodeBool);
      var chosen :- Member(m, "chosen", "", DecodeString);
      var at :- Member(m, "at", lib.zeroTime, (value: Json) => DecodeTime(lib, value));
      Some(Attempt(kana, skill, correct, chosen, at))
    case _ => None
  }

  /** A string member tagged omitempty. */
  function OmitEmpty(name: string, text: string): Members {
    if text == "" then map[] else map[name := JString(text)]
  }

  function EncodeAttempt(lib: Library, a: Attempt): Json {
    JObject(OmitEmpty("kana", a.kana) + OmitEmpty("skill", a.skill) + map["correct" := JBool(a.correct)] +
            OmitEmpty("chosen", a.chosen) + map["at" := JString(lib.writeTime(a.at))])
  }

  function DecodeAttempts(lib: Library, j: Json): Option<seq<Attempt>> {
    DecodeList(j, (item: Json) => DecodeAttempt(lib, item))
  }

  function EncodeAttempts(lib: Library, attempts: seq<Attempt>): Json {
    JArray(seq(|attempts|, i requires 0 <= i < |attempts| => EncodeAttempt(lib, attempts[i])))
  }

  lemma EncodedMembers(lib: Library, a: Attempt)
    ensures var m := EncodeAttempt(lib, a).members;
            && ("kana" in m <==> a.kana != "") && ("kana" in m ==> m["kana"] == JString(a.kana))
            && ("skill" in m <==> a.skill != "") && ("skill" in m ==> m["skill"] == JString(a.skill))
            && ("chosen" in m <==> a.chosen != "") && ("chosen" in m ==> m["chosen"] == JString(a.chosen))
            && "correct" in m && m["correct"] == JBool(a.correct)
            && "at" in m && m["at"] == JString(lib.writeTime(a.at))
            && m.Keys <= {"kana", "skill", "correct", "chosen", "at"}
  {
  }

  lemma AttemptRoundTrip(lib: Library, a: Attempt)
    requires lib.Valid()
    ensures DecodeAttempt(lib, EncodeAttempt(lib, a)) == Some(a)
  {
    EncodedMembers(lib, a);
    var j := EncodeAttempt(lib, a);
    assert Member(j.members, "kana", "", DecodeString) == Some(a.kana);
    assert Member(j.members, "skill", "", DecodeString) == Some(a.skill);
    assert Member(j.members, "chosen", "", DecodeString) == Some(a.chosen);
  }

  lemma AttemptsRoundTrip(lib: Library, attempts: seq<Attempt>)
    requires lib.Valid()
    ensures DecodeAttempts(lib, EncodeAttempts(lib, attempts)) == Some(attempts)
  {
    var items := EncodeAttempts(lib, attempts).items;
    forall i | 0 <= i < |attempts| ensures DecodeAttempt(lib, items[i]) == Some(attempts[i]) {
      AttemptRoundTrip(lib, attempts[i]);
    }
    assert DecodeAttempts(lib, EncodeAttempts(lib, attempts)).value == attempts;
  }

  ghost predicate IsOmitEmptyMember(m: Members, name: string) {
    name in m ==> m[name].JString? && m[name].text != ""
  }

  /** The entries the server itself would have written: v1's {correct, at}, or v2's with all they know. */
  ghost predicate IsWrittenEntry(lib: Library, j: Json) {
    && j.JObject?
    && j.members.Keys <= {"kana", "skill", "correct", "chosen", "at"}
    && "correct" in j.members && j.members["correct"].JBool?
    && "at" in j.members && j.members["at"].JString? && lib.IsWrittenTime(j.members["at"].text)
    && IsOmitEmptyMember(j.members, "kana")
    && IsOmitEmptyMember(j.members, "skill")
    && IsOmitEmptyMember(j.members, "chosen")
  }

  function OnlyMember(m: Members, name: string): Members {
    if name in m then map[name := m[name]] else map[]
  }

  lemma WrittenEntryDecodes(lib: Library, j: Json)
    requires IsWrittenEntry(lib, j)
    ensures DecodeAttempt(lib, j).Some?
    ensures var m, a := j.members, DecodeAttempt(lib, j).value;
            && m["correct"] == JBool(a.correct) && m["at"] == JString(lib.writeTime(a.at))
            && OmitEmpty("kana", a.kana) == OnlyMember(m, "kana")
            && OmitEmpty("skill", a.skill) == OnlyMember(m, "skill")
            && OmitEmpty("chosen", a.chosen) == OnlyMember(m, "chosen")
  {
  }

  lemma FiveMembersAreAll(m: Members)
    requires m.Keys <= {"kana", "skill", "correct", "chosen", "at"}
    ensures OnlyMember(m, "kana") + OnlyMember(m, "skill") + OnlyMember(m, "correct") +
            OnlyMember(m, "chosen") + OnlyMember(m, "at") == m
  {
  }

  lemma WrittenEntryIsKept(lib: Library, j: Json)
    requires IsWrittenEntry(lib, j)
    ensures DecodeAttempt(lib, j).Some? && EncodeAttempt(lib, DecodeAttempt(lib, j).value) == j
  {
    WrittenEntryDecodes(lib, j);
    FiveMembersAreAll(j.members);
  }

  lemma EncodedEntryIsWritten(lib: Library, a: Attempt)
    requires lib.Valid()
    ensures IsWrittenEntry(lib, EncodeAttempt(lib, a))
  {
    EncodedMembers(lib, a);
  }

  /** An entry read and written back comes back as it was exactly when the server could have written it. */
  lemma EntryIsKeptIffWritten(lib: Library, j: Json)
    requires lib.Valid()
    ensures IsWrittenEntry(lib, j) <==>
            DecodeAttempt(lib, j).Some? && EncodeAttempt(lib, DecodeAttempt(lib, j).value) == j
  {
    if IsWrittenEntry(lib, j) {
      WrittenEntryIsKept(lib, j);
    } else if DecodeAttempt(lib, j).Some? {
      EncodedEntryIsWritten(lib, DecodeAttempt(lib, j).value);
    }
  }

  /** In particular a v1 entry does not sprout keys: it comes back exactly when its timestamp does. */
  lemma VersionOneEntryIsKept(lib: Library, correct: bool, at: string)
    requires lib.Valid()
    ensures var j := JObject(map["correct" := JBool(correct), "at" := JString(at)]);
            && (DecodeAttempt(lib, j).Some? <==> lib.parseTime(at).Some?)
            && (DecodeAttempt(lib, j).Some? && EncodeAttempt(lib, DecodeAttempt(lib, j).value) == j <==>
                lib.IsWrittenTime(at))
  {
    EntryIsKeptIffWritten(lib, JObject(map["correct" := JBool(correct), "at" := JString(at)]));
  }
}
