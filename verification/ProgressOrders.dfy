/**
 The same successful requests in two orders. Serialisation may reorder answers
 to different kana or skills, lessons and patches, and each order reads the
 clock at its own instants; here that is said of the requests themselves, as
 permutations, and of two runs of the row protocol.
 */
module ProgressOrders {
  import opened Wrappers
  import opened Codec
  import opened Documents
  import opened ProgressRules
  import opened ProgressHistory
  import opened ProgressTheorems
  import opened Scoring
  import RowProtocol

  /** The changes without the one at position i. */
  function Without(changes: seq<Change>, i: nat): seq<Change>
    requires i < |changes|
  {
    changes[..i] + changes[i + 1..]
  }

  lemma {:induction false} PatchedValuesOfConcat(first: seq<Change>, second: seq<Change>, field: string)
    ensures PatchedValues(first + second, field) == PatchedValues(first, field) + PatchedValues(second, field)
  {
    if second == [] {
      assert first + second == first;
    } else {
      var init, last := second[..|second| - 1], second[|second| - 1];
      assert first + second == (first + init) + [last] && second == init + [last];
      PatchedValuesOfConcat(first, init, field);
      HistorySnoc(first + init, last, field);
      HistorySnoc(init, last, field);
    }
  }

  /** What one change adds to the values of a member. */
  function PatchedBy(change: Change, field: string): seq<Json> {
    if change.Patch? && field in change.members then [change.members[field]] else []
  }

  lemma PatchedValuesWithout(changes: seq<Change>, i: nat, field: string)
    requires i < |changes|
    ensures multiset(PatchedValues(changes, field)) ==
            multiset(PatchedValues(Without(changes, i), field)) + multiset(PatchedBy(changes[i], field))
  {
    var one := [changes[i]];
    assert changes == changes[..i] + one + changes[i + 1..];
    PatchedValuesOfConcat(changes[..i] + one, changes[i + 1..], field);
    PatchedValuesOfConcat(changes[..i], one, field);
    PatchedValuesOfConcat(changes[..i], changes[i + 1..], field);
    HistorySnoc([], changes[i], field);
    assert [] + one == one;
  }

  lemma SumsCancel(a: multiset<Change>, b: multiset<Change>, c: multiset<Change>)
    requires a + c == b + c
    ensures a == b
  {
    assert a == (a + c) - c && b == (b + c) - c;
  }

  lemma RemovedFromBoth(first: seq<Change>, second: seq<Change>, i: nat)
    requires first != [] && i < |second| && second[i] == first[|first| - 1]
    requires multiset(first) == multiset(second)
    ensures multiset(first[..|first| - 1]) == multiset(Without(second, i))
  {
    var init, x := first[..|first| - 1], first[|first| - 1];
    assert first == init + [x] && second == second[..i] + [x] + second[i + 1..];
    assert multiset(init) + multiset{x} == multiset(Without(second, i)) + multiset{x};
    SumsCancel(multiset(init), multiset(Without(second, i)), multiset{x});
  }

  /** Reordered patches give a member the same values, in some order. */
  lemma {:induction false} SamePatchesSameValues(first: seq<Change>, second: seq<Change>, field: string)
    requires multiset(first) == multiset(second)
    ensures multiset(PatchedValues(first, field)) == multiset(PatchedValues(second, field))
    decreases |first|
  {
    if first == [] {
      assert |multiset(second)| == 0;
    } else {
      var last := first[|first| - 1];
      assert last in multiset(second);
      var i: nat :| i < |second| && second[i] == last;
      RemovedFromBoth(first, second, i);
      SamePatchesSameValues(first[..|first| - 1], Without(second, i), field);
      PatchedValuesWithout(second, i, field);
      PatchedValuesWithout(first, |first| - 1, field);
      assert Without(first, |first| - 1) == first[..|first| - 1];
    }
  }

  lemma CompletedLessons(changes: seq<Change>, id: string)
    ensures id in CompletedIn(changes) <==> Complete(id) in multiset(changes)
  {
  }

  /** No member is patched twice, and the lesson list is not patched at all. */
  ghost predicate PatchesAreApart(changes: seq<Change>) {
    && (forall field :: |PatchedValues(changes, field)| <= 1)
    && PatchedValues(changes, FIELD_LESSONS) == []
  }

  lemma SingletonsAgree(a: seq<Json>, b: seq<Json>)
    requires multiset(a) == multiset(b) && |a| <= 1
    ensures a == b
  {
    assert |a| == |multiset(a)| == |multiset(b)| == |b|;
    if |a| == 1 {
      assert a[0] in multiset(b);
    }
  }

  lemma PermutationsHaveSameProjections(first: seq<Change>, second: seq<Change>)
    requires multiset(first) == multiset(second) && PatchesAreApart(first)
    requires SameAnswers(Grades(first), Grades(second))
    ensures SameProjections(first, second)
  {
    forall field ensures PatchedValues(first, field) == PatchedValues(second, field) {
      SamePatchesSameValues(first, second, field);
      SingletonsAgree(PatchedValues(first, field), PatchedValues(second, field));
    }
    LessonsWithoutPatches(first);
    LessonsWithoutPatches(second);
    forall id ensures id in CompletedIn(first) <==> id in CompletedIn(second) {
      CompletedLessons(first, id);
      CompletedLessons(second, id);
    }
  }

  // ---- Whatever the clock said ----

  /** The change as requested: with one and the same instant for every answer. */
  function Timeless(change: Change, at: Time): Change {
    if change.Grade? then Grade(change.graded.(at := at)) else change
  }

  function AllTimeless(changes: seq<Change>, at: Time): (r: seq<Change>)
    ensures |r| == |changes|
  {
    seq(|changes|, i requires 0 <= i < |changes| => Timeless(changes[i], at))
  }

  lemma TimelessSnoc(changes: seq<Change>, last: Change, at: Time)
    ensures AllTimeless(changes + [last], at) == AllTimeless(changes, at) + [Timeless(last, at)]
  {
  }

  lemma {:induction false} TimelessAnswers(changes: seq<Change>, at: Time, kana: string, skill: Skill)
    ensures AnswersTo(Grades(AllTimeless(changes, at)), kana, skill) == AnswersTo(Grades(changes), kana, skill)
  {
    if changes != [] {
      var init, last := changes[..|changes| - 1], changes[|changes| - 1];
      assert changes == init + [last];
      TimelessAnswers(init, at, kana, skill);
      TimelessSnoc(init, last, at);
      HistorySnoc(init, last, "");
      HistorySnoc(AllTimeless(init, at), Timeless(last, at), "");
      if last.Grade? {
        AnswersToSnoc(Grades(init), last.graded, kana, skill);
        AnswersToSnoc(Grades(AllTimeless(init, at)), Timeless(last, at).graded, kana, skill);
      }
    }
  }

  lemma {:induction false} TimelessPatchesAndLessons(changes: seq<Change>, at: Time, field: string)
    ensures PatchedValues(AllTimeless(changes, at), field) == PatchedValues(changes, field)
    ensures LessonsSincePatch(AllTimeless(changes, at)) == LessonsSincePatch(changes)
  {
    if changes != [] {
      var init, last := changes[..|changes| - 1], changes[|changes| - 1];
      assert changes == init + [last];
      TimelessPatchesAndLessons(init, at, field);
      TimelessSnoc(init, last, at);
      HistorySnoc(init, last, field);
      HistorySnoc(AllTimeless(init, at), Timeless(last, at), field);
    }
  }

  /** The same requests, each answer at any instant. */
  ghost predicate SameRequests(first: seq<Change>, second: seq<Change>, at: Time) {
    multiset(AllTimeless(first, at)) == multiset(AllTimeless(second, at))
  }

  lemma SameRequestsSameProjections(first: seq<Change>, second: seq<Change>, at: Time)
    requires SameRequests(first, second, at) && PatchesAreApart(first)
    requires SameAnswers(Grades(first), Grades(second))
    ensures SameProjections(first, second)
  {
    var one, two := AllTimeless(first, at), AllTimeless(second, at);
    forall field
      ensures PatchedValues(one, field) == PatchedValues(first, field)
      ensures PatchedValues(two, field) == PatchedValues(second, field)
    {
      TimelessPatchesAndLessons(first, at, field);
      TimelessPatchesAndLessons(second, at, field);
    }
    TimelessPatchesAndLessons(first, at, "");
    TimelessPatchesAndLessons(second, at, "");
    forall kana, skill ensures AnswersTo(Grades(one), kana, skill) == AnswersTo(Grades(two), kana, skill) {
      TimelessAnswers(first, at, kana, skill);
      TimelessAnswers(second, at, kana, skill);
      assert AnswersTo(Grades(first), kana, skill) == AnswersTo(Grades(second), kana, skill);
    }
    PermutationsHaveSameProjections(one, two);
    assert forall field :: PatchedValues(one, field) == PatchedValues(two, field);
  }

  /**
   Any two successful orders of the same requests, whatever the clock said, end
   with the same document, the attempt window aside, when the answers to each
   (kana, skill) keep their order, no member is patched twice and no patch
   carries the lesson list.
   */
  lemma PermutationsAgree(lib: Library, stored: Option<Json>, first: seq<Change>, second: seq<Change>)
    requires lib.Valid() && NoReplace(first) && NoReplace(second) && Parse(stored).Ok?
    requires Replay(lib, stored, first).Ok? && Replay(lib, stored, second).Ok?
    requires SameRequests(first, second, lib.zeroTime) && PatchesAreApart(first)
    requires SameAnswers(Grades(first), Grades(second))
    ensures Stored(lib, stored, first) - {FIELD_ATTEMPTS} == Stored(lib, stored, second) - {FIELD_ATTEMPTS}
  {
    SameRequestsSameProjections(first, second, lib.zeroTime);
    OrderIndependence(lib, stored, first, second);
  }

  /** The changes that a run of the row protocol has committed, in order, and the row it leaves. */
  ghost function CommittedIn(env: RowProtocol.Env, initial: Option<Json>, steps: seq<RowProtocol.Step>): seq<Change> {
    RowProtocol.ChangesOf(env, RowProtocol.RunSteps(env, RowProtocol.Start(initial), steps).history)
  }

  ghost function RowAfter(env: RowProtocol.Env, initial: Option<Json>, steps: seq<RowProtocol.Step>): Option<Json> {
    RowProtocol.RunSteps(env, RowProtocol.Start(initial), steps).row
  }

  lemma RowIsTheReplay(env: RowProtocol.Env, initial: Option<Json>, steps: seq<RowProtocol.Step>)
    ensures Replay(env.lib, initial, CommittedIn(env, initial, steps)) == Ok(RowAfter(env, initial, steps))
  {
    RowProtocol.StoredIsTheCommittedReplay(env, initial, steps);
  }

  /**
   Two interleavings on the same row that commit the same requests, under those
   conditions, leave the same document, the attempt window aside.
   */
  lemma InterleavingsAgree(one: RowProtocol.Env, two: RowProtocol.Env, initial: Option<Json>,
                           steps: seq<RowProtocol.Step>, others: seq<RowProtocol.Step>)
    requires one.lib == two.lib && one.lib.Valid() && Parse(initial).Ok?
    requires NoReplace(CommittedIn(one, initial, steps)) && NoReplace(CommittedIn(two, initial, others))
    requires SameRequests(CommittedIn(one, initial, steps), CommittedIn(two, initial, others), one.lib.zeroTime)
    requires PatchesAreApart(CommittedIn(one, initial, steps))
    requires SameAnswers(Grades(CommittedIn(one, initial, steps)), Grades(CommittedIn(two, initial, others)))
    ensures Parse(RowAfter(one, initial, steps)).Ok? && Parse(RowAfter(two, initial, others)).Ok?
    ensures Parse(RowAfter(one, initial, steps)).value - {FIELD_ATTEMPTS} ==
            Parse(RowAfter(two, initial, others)).value - {FIELD_ATTEMPTS}
  {
    RowIsTheReplay(one, initial, steps);
    RowIsTheReplay(two, initial, others);
    DocumentIsItsHistory(one.lib, initial, CommittedIn(one, initial, steps));
    DocumentIsItsHistory(one.lib, initial, CommittedIn(two, initial, others));
    PermutationsAgree(one.lib, initial, CommittedIn(one, initial, steps), CommittedIn(two, initial, others));
  }
}
