/**
 The scoring rules (internal/modules/progress/mastery.go): how one answer moves
 one score, how four scores give a mastery state, and what whole histories of
 answers do to a score.
 */
module Scoring {

  const INT64_MODULUS := 0x1_0000_0000_0000_0000
  const INT64_MIN := -0x8000_0000_0000_0000
  const INT64_MAX := 0x7FFF_FFFF_FFFF_FFFF

  predicate IsInt64(x: int) {
    INT64_MIN <= x <= INT64_MAX
  }

  /** Go's int on the 64-bit targets the server runs on. */
  type Int64 = x: int | IsInt64(x)

  /** Two's complement wrap-around: what Go's int addition does on overflow. */
  function Wrap64(x: int): (r: Int64)
    ensures IsInt64(x) ==> r == x
    ensures (r - x) % INT64_MODULUS == 0
  {
    (x - INT64_MIN) % INT64_MODULUS + INT64_MIN
  }

  lemma WrapsOnce(x: int)
    requires -INT64_MODULUS <= x - INT64_MIN < 2 * INT64_MODULUS
    ensures Wrap64(x) == if x < INT64_MIN then x + INT64_MODULUS else if INT64_MAX < x then x - INT64_MODULUS else x
  {
    assert x - INT64_MIN >= INT64_MODULUS ==> (x - INT64_MIN) % INT64_MODULUS == x - INT64_MIN - INT64_MODULUS;
    assert x < INT64_MIN ==> (x - INT64_MIN) % INT64_MODULUS == x - INT64_MIN + INT64_MODULUS;
  }

  /** Go's integer division by a positive divisor: it truncates toward zero. */
  function TruncatingDiv(a: int, b: int): int
    requires 0 < b
  {
    if a >= 0 then a / b else -((-a) / b)
  }

  datatype Skill = Recognition | Writing | Listening | Reading {
    /** The token the client sends and the document stores. */
    function Name(): string {
      match this
      case Recognition => "recognition"
      case Writing => "writing"
      case Listening => "listening"
      case Reading => "reading"
    }
  }

  datatype Mastery = Discovered | Learning | Familiar | Mastered {
    function Name(): string {
      match this
      case Discovered => "discovered"
      case Learning => "learning"
      case Familiar => "familiar"
      case Mastered => "mastered"
    }

    function Rank(): nat {
      match this
      case Discovered => 1
      case Learning => 2
      case Familiar => 3
      case Mastered => 4
    }
  }

  lemma MasteryNamesAreDistinct(a: Mastery, b: Mastery)
    requires a.Name() == b.Name()
    ensures a == b
  {
    assert a.Name()[0] == b.Name()[0];
  }

  lemma RanksAreOrdered()
    ensures Discovered.Rank() < Learning.Rank() < Familiar.Rank() < Mastered.Rank()
  {
  }

  const SCORE_ON_CORRECT := 20
  const SCORE_ON_MISTAKE := -30
  const MIN_SCORE := 0
  const MAX_SCORE := 100

  const THRESHOLD_LEARNING := 25
  const THRESHOLD_FAMILIAR := 50
  const THRESHOLD_MASTERED := 80

  /** The scores of one kana, one per skill. */
  datatype Skills = Skills(recognition: Int64, writing: Int64, listening: Int64, reading: Int64) {
    function Score(skill: Skill): Int64 {
      match skill
      case Recognition => recognition
      case Writing => writing
      case Listening => listening
      case Reading => reading
    }

    function SetScore(skill: Skill, score: Int64): (r: Skills)
      ensures r.Score(skill) == score
      ensures forall other: Skill :: other != skill ==> r.Score(other) == Score(other)
    {
      match skill
      case Recognition => this.(recognition := score)
      case Writing => this.(writing := score)
      case Listening => this.(listening := score)
      case Reading => this.(reading := score)
    }

    function Average(): int {
      TruncatingDiv(Wrap64(recognition + writing + listening + reading), 4)
    }
  }

  const UNSEEN := Skills(0, 0, 0, 0)

  function Clamp(score: int): int {
    if score < MIN_SCORE then MIN_SCORE
    else if score > MAX_SCORE then MAX_SCORE
    else score
  }

  function ApplyAnswer(current: Int64, correct: bool): (r: Int64)
    ensures MIN_SCORE <= r <= MAX_SCORE
    ensures MIN_SCORE <= current <= MAX_SCORE && correct ==>
              current <= r <= current + SCORE_ON_CORRECT && (r == current + SCORE_ON_CORRECT || r == MAX_SCORE)
    ensures MIN_SCORE <= current <= MAX_SCORE && !correct ==>
              current + SCORE_ON_MISTAKE <= r <= current && (r == current + SCORE_ON_MISTAKE || r == MIN_SCORE)
  {
    Clamp(Wrap64(current + (if correct then SCORE_ON_CORRECT else SCORE_ON_MISTAKE)))
  }

  /** Every stored score and every answer: 20 up or 30 down within 0..100, and what a 64-bit sum makes of the ends. */
  lemma OneAnswerMovesTheScore(current: Int64)
    ensures ApplyAnswer(current, true) == (if current <= -20 || 0x7FFF_FFFF_FFFF_FFEB < current then 0
                                           else if current < 80 then current + 20 else 100)
    ensures ApplyAnswer(current, false) == (if current < -0x7FFF_FFFF_FFFF_FFE2 || 130 < current then 100
                                            else if 30 < current then current - 30 else 0)
  {
    assert IsInt64(current);
    WrapsOnce(current + 20);
    WrapsOnce(current - 30);
  }

  function MasteryFor(skills: Skills): Mastery {
    var average := skills.Average();
    if average >= THRESHOLD_MASTERED then Mastered
    else if average >= THRESHOLD_FAMILIAR then Familiar
    else if average >= THRESHOLD_LEARNING then Learning
    else Discovered
  }

  /** The state in terms of the sum of the four scores, as a 64-bit sum: 80, 50 and 25 are their averages. */
  lemma MasteryFollowsTheSum(skills: Skills, sum: int)
    requires -0x8000_0000_0000_0000 <= sum <= 0x7FFF_FFFF_FFFF_FFFF
    requires (skills.recognition + skills.writing + skills.listening + skills.reading - sum) %
             0x1_0000_0000_0000_0000 == 0
    ensures MasteryFor(skills).Name() ==
            if 320 <= sum then "mastered" else if 200 <= sum then "familiar"
            else if 100 <= sum then "learning" else "discovered"
  {
    assert Wrap64(skills.recognition + skills.writing + skills.listening + skills.reading) == sum;
  }

  /** The simple definition of a score: every answer of its history, in order. */
  function FoldScore(start: Int64, history: seq<bool>): (r: Int64)
    ensures history != [] ==> MIN_SCORE <= r <= MAX_SCORE
    ensures MIN_SCORE <= start <= MAX_SCORE ==> MIN_SCORE <= r <= MAX_SCORE
  {
    if history == [] then start
    else ApplyAnswer(FoldScore(start, history[..|history| - 1]), history[|history| - 1])
  }

  lemma FoldScoreSnoc(start: Int64, history: seq<bool>, correct: bool)
    ensures FoldScore(start, history + [correct]) == ApplyAnswer(FoldScore(start, history), correct)
  {
    assert (history + [correct])[..|history|] == history;
  }

  lemma {:induction false} FoldScoreConcat(start: Int64, first: seq<bool>, second: seq<bool>)
    ensures FoldScore(start, first + second) == FoldScore(FoldScore(start, first), second)
  {
    if second == [] {
      assert first + second == first;
    } else {
      var init, last := second[..|second| - 1], second[|second| - 1];
      assert first + second == (first + init) + [last];
      FoldScoreSnoc(start, first + init, last);
      FoldScoreConcat(start, first, init);
    }
  }

  // ---- Summaries: a whole history acts on a score as one clamped shift ----

  /** The function x -> max(lo, min(hi, x + shift)). */
  datatype Summary = Summary(lo: int, hi: int, shift: int) {
    function Act(x: int): int {
      var moved := if x + shift < hi then x + shift else hi;
      if moved < lo then lo else moved
    }

    /** This summary first, then the next one, again as a single summary. */
    function Then(next: Summary): (r: Summary)
      requires lo <= hi && next.lo <= next.hi
      ensures r.lo <= r.hi
    {
      Summary(next.Act(lo), next.Act(hi), shift + next.shift)
    }
  }

  lemma ThenActsInOrder(a: Summary, b: Summary, x: int)
    requires a.lo <= a.hi && b.lo <= b.hi
    ensures a.Then(b).Act(x) == b.Act(a.Act(x))
  {
  }

  lemma ThenIsAssociative(a: Summary, b: Summary, c: Summary)
    requires a.lo <= a.hi && b.lo <= b.hi && c.lo <= c.hi
    ensures a.Then(b).Then(c) == a.Then(b.Then(c))
  {
    ThenActsInOrder(b, c, a.lo);
    ThenActsInOrder(b, c, a.hi);
  }

  function AnswerSummary(correct: bool): Summary {
    Summary(MIN_SCORE, MAX_SCORE, if correct then SCORE_ON_CORRECT else SCORE_ON_MISTAKE)
  }

  function SummaryOf(history: seq<bool>): (r: Summary)
    ensures MIN_SCORE <= r.lo <= r.hi <= MAX_SCORE
  {
    if history == [] then Summary(MIN_SCORE, MAX_SCORE, 0)
    else SummaryOf(history[..|history| - 1]).Then(AnswerSummary(history[|history| - 1]))
  }

  /** Every history acts on every legal score as its summary. */
  lemma {:induction false} HistoryActsAsItsSummary(start: Int64, history: seq<bool>)
    requires MIN_SCORE <= start <= MAX_SCORE
    ensures FoldScore(start, history) == SummaryOf(history).Act(start)
  {
    if history != [] {
      var init, last := history[..|history| - 1], history[|history| - 1];
      HistoryActsAsItsSummary(start, init);
      ThenActsInOrder(SummaryOf(init), AnswerSummary(last), start);
    }
  }

  lemma SummaryOfSnoc(history: seq<bool>, correct: bool)
    ensures SummaryOf(history + [correct]) == SummaryOf(history).Then(AnswerSummary(correct))
  {
    assert (history + [correct])[..|history|] == history;
  }

  /** Summaries of consecutive histories compose into the summary of the whole. */
  lemma {:induction false} SummariesCompose(first: seq<bool>, second: seq<bool>)
    ensures SummaryOf(first + second) == SummaryOf(first).Then(SummaryOf(second))
  {
    if second == [] {
      assert first + second == first;
    } else {
      var init, last := second[..|second| - 1], second[|second| - 1];
      assert first + second == (first + init) + [last] && second == init + [last];
      SummaryOfSnoc(first + init, last);
      SummaryOfSnoc(init, last);
      SummariesCompose(first, init);
      ThenIsAssociative(SummaryOf(first), SummaryOf(init), AnswerSummary(last));
    }
  }

  /** The final score is monotone and 1-Lipschitz in the starting score. */
  lemma FoldScoreMonotoneAndLipschitz(low: Int64, high: Int64, history: seq<bool>)
    requires MIN_SCORE <= low <= high <= MAX_SCORE
    ensures FoldScore(low, history) <= FoldScore(high, history) <= FoldScore(low, history) + (high - low)
  {
    HistoryActsAsItsSummary(low, history);
    HistoryActsAsItsSummary(high, history);
  }

  /** The second history has the same answers except that some mistakes became hits. */
  ghost predicate NoWorse(history: seq<bool>, better: seq<bool>) {
    |history| == |better| && forall i :: 0 <= i < |history| && history[i] ==> better[i]
  }

  lemma {:induction false} HitsInsteadOfMistakesNeverLowerTheScore(start: Int64, history: seq<bool>, better: seq<bool>)
    requires MIN_SCORE <= start <= MAX_SCORE
    requires NoWorse(history, better)
    ensures FoldScore(start, history) <= FoldScore(start, better)
  {
    if history != [] {
      var n := |history| - 1;
      HitsInsteadOfMistakesNeverLowerTheScore(start, history[..n], better[..n]);
    }
  }

  // ---- Bounds from the number of hits and mistakes alone ----

  function Min(a: int, b: int): int {
    if a < b then a else b
  }

  function Max(a: int, b: int): int {
    if a > b then a else b
  }

  function Hits(history: seq<bool>): nat {
    if history == [] then 0
    else Hits(history[..|history| - 1]) + (if history[|history| - 1] then 1 else 0)
  }

  function Mistakes(history: seq<bool>): nat {
    if history == [] then 0
    else Mistakes(history[..|history| - 1]) + (if history[|history| - 1] then 0 else 1)
  }

  function BestScore(hits: nat): int {
    Min(MAX_SCORE, SCORE_ON_CORRECT * hits)
  }

  function WorstScore(hits: nat, mistakes: nat): int {
    Max(MIN_SCORE, BestScore(hits) + SCORE_ON_MISTAKE * mistakes)
  }

  /** Whatever the order, c hits and w mistakes keep the score within these bounds. */
  lemma {:induction false} ScoreBounds(history: seq<bool>)
    ensures WorstScore(Hits(history), Mistakes(history)) <= FoldScore(0, history) <= BestScore(Hits(history))
  {
    if history != [] {
      ScoreBounds(history[..|history| - 1]);
    }
  }

  function Repeated(correct: bool, times: nat): (r: seq<bool>)
    ensures |r| == times
  {
    seq(times, _ => correct)
  }

  /** Hits only: the score climbs to its cap. */
  lemma {:induction false} HitsOnly(times: nat)
    ensures FoldScore(0, Repeated(true, times)) == BestScore(times)
    ensures Hits(Repeated(true, times)) == times && Mistakes(Repeated(true, times)) == 0
  {
    if times > 0 {
      HitsOnly(times - 1);
      assert Repeated(true, times)[..times - 1] == Repeated(true, times - 1);
    }
  }

  lemma {:induction false} ThenMistakes(history: seq<bool>, times: nat)
    requires 0 <= FoldScore(0, history)
    ensures var all := history + Repeated(false, times);
            && FoldScore(0, all) == Max(MIN_SCORE, FoldScore(0, history) + SCORE_ON_MISTAKE * times)
            && Hits(all) == Hits(history) && Mistakes(all) == Mistakes(history) + times
  {
    if times == 0 {
      assert history + Repeated(false, 0) == history;
    } else {
      ThenMistakes(history, times - 1);
      var all := history + Repeated(false, times);
      assert all[..|all| - 1] == history + Repeated(false, times - 1);
    }
  }

  lemma {:induction false} ThenHits(history: seq<bool>, times: nat)
    requires FoldScore(0, history) == 0
    ensures var all := history + Repeated(true, times);
            && FoldScore(0, all) == BestScore(times)
            && Hits(all) == Hits(history) + times && Mistakes(all) == Mistakes(history)
  {
    if times == 0 {
      assert history + Repeated(true, 0) == history;
    } else {
      ThenHits(history, times - 1);
      var all := history + Repeated(true, times);
      assert all[..|all| - 1] == history + Repeated(true, times - 1);
    }
  }

  /** Both bounds are attained, by hits first and by mistakes first respectively. */
  lemma BoundsAreAttained(hits: nat, mistakes: nat)
    ensures exists worst: seq<bool> ::
              Hits(worst) == hits && Mistakes(worst) == mistakes && FoldScore(0, worst) == WorstScore(hits, mistakes)
    ensures exists best: seq<bool> ::
              Hits(best) == hits && Mistakes(best) == mistakes && FoldScore(0, best) == BestScore(hits)
  {
    HitsOnly(hits);
    ThenMistakes(Repeated(true, hits), mistakes);
    var worst := Repeated(true, hits) + Repeated(false, mistakes);
    assert Hits(worst) == hits && Mistakes(worst) == mistakes && FoldScore(0, worst) == WorstScore(hits, mistakes);
    ThenMistakes([], mistakes);
    ThenHits([] + Repeated(false, mistakes), hits);
    var best := [] + Repeated(false, mistakes) + Repeated(true, hits);
    assert Hits(best) == hits && Mistakes(best) == mistakes && FoldScore(0, best) == BestScore(hits);
  }

  // ---- What a mastery state says about the history behind it ----

  /** The scores that four histories give a kana nobody had practised before. */
  function SkillsFrom(history: Skill -> seq<bool>): Skills {
    Skills(FoldScore(0, history(Recognition)), FoldScore(0, history(Writing)),
           FoldScore(0, history(Listening)), FoldScore(0, history(Reading)))
  }

  /** Hits that can still raise a score: the fifth one reaches the cap. */
  function UsefulHits(history: seq<bool>): nat {
    Min(5, Hits(history))
  }

  function TotalUsefulHits(history: Skill -> seq<bool>): nat {
    UsefulHits(history(Recognition)) + UsefulHits(history(Writing)) +
    UsefulHits(history(Listening)) + UsefulHits(history(Reading))
  }

  lemma FourScoreBounds(history: Skill -> seq<bool>)
    ensures forall skill: Skill :: 0 <= FoldScore(0, history(skill)) <= 20 * UsefulHits(history(skill))
  {
    forall skill: Skill ensures 0 <= FoldScore(0, history(skill)) <= 20 * UsefulHits(history(skill)) {
      ScoreBounds(history(skill));
    }
  }

  /** Mastered takes sixteen useful hits and at least one in every skill. */
  lemma MasteredNeedsSixteenHits(history: Skill -> seq<bool>)
    requires MasteryFor(SkillsFrom(history)) == Mastered
    ensures TotalUsefulHits(history) >= 16
    ensures forall skill: Skill :: Hits(history(skill)) >= 1
  {
    FourScoreBounds(history);
    forall skill: Skill ensures Hits(history(skill)) >= 1 {
      match skill
      case Recognition | Writing | Listening | Reading => assert UsefulHits(history(skill)) >= 1;
    }
  }

  /** Without mistakes the average is five points for every useful hit. */
  lemma MasteryWithoutMistakes(history: Skill -> seq<bool>)
    requires forall skill: Skill :: Mistakes(history(skill)) == 0
    ensures SkillsFrom(history).Average() == 5 * TotalUsefulHits(history)
  {
    forall skill: Skill ensures FoldScore(0, history(skill)) == 20 * UsefulHits(history(skill)) {
      ScoreBounds(history(skill));
    }
  }

  /** Without mistakes, sixteen useful hits are also enough. */
  lemma MasteredWithoutMistakes(history: Skill -> seq<bool>)
    requires forall skill: Skill :: Mistakes(history(skill)) == 0
    ensures MasteryFor(SkillsFrom(history)) == Mastered <==> TotalUsefulHits(history) >= 16
  {
    var average := SkillsFrom(history).Average();
    assert average == 5 * TotalUsefulHits(history) by {
      MasteryWithoutMistakes(history);
    }
    assert MasteryFor(SkillsFrom(history)) == Mastered <==> average >= THRESHOLD_MASTERED;
  }

  ghost predicate PractisedOnlyIn(history: Skill -> seq<bool>, practised: set<Skill>) {
    forall skill: Skill :: skill !in practised ==> history(skill) == []
  }

  /** One skill alone never passes learning, two never pass familiar. */
  lemma FewSkillsCapMastery(history: Skill -> seq<bool>, one: Skill, two: Skill)
    ensures PractisedOnlyIn(history, {one}) ==> MasteryFor(SkillsFrom(history)).Rank() <= Learning.Rank()
    ensures PractisedOnlyIn(history, {one, two}) ==> MasteryFor(SkillsFrom(history)).Rank() <= Familiar.Rank()
  {
    FourScoreBounds(history);
  }

  lemma UsefulHitsOfTwo(history: Skill -> seq<bool>, one: Skill, two: Skill)
    requires one != two && PractisedOnlyIn(history, {one, two})
    ensures TotalUsefulHits(history) == UsefulHits(history(one)) + UsefulHits(history(two))
  {
    forall skill: Skill | skill != one && skill != two ensures UsefulHits(history(skill)) == 0 {
      assert history(skill) == [];
    }
  }

  /** Without mistakes, one skill reaches learning with its fifth hit and two reach familiar with five each. */
  lemma FewSkillsReachTheirCap(history: Skill -> seq<bool>, one: Skill, two: Skill)
    requires forall skill: Skill :: Mistakes(history(skill)) == 0
    requires one != two && PractisedOnlyIn(history, {one, two})
    ensures MasteryFor(SkillsFrom(history)) == Familiar <==> Hits(history(one)) >= 5 && Hits(history(two)) >= 5
    ensures history(two) == [] ==> (MasteryFor(SkillsFrom(history)) == Learning <==> Hits(history(one)) >= 5)
  {
    MasteryWithoutMistakes(history);
    UsefulHitsOfTwo(history, one, two);
  }

  lemma MasteryIsMonotone(low: Skills, high: Skills)
    requires forall skill: Skill :: MIN_SCORE <= low.Score(skill) <= high.Score(skill) <= MAX_SCORE
    ensures MasteryFor(low).Rank() <= MasteryFor(high).Rank()
  {
    assert low.Score(Recognition) <= high.Score(Recognition) && low.Score(Writing) <= high.Score(Writing);
    assert low.Score(Listening) <= high.Score(Listening) && low.Score(Reading) <= high.Score(Reading);
  }
}
