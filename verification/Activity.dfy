/**
 The activity counters of an account: touchActivityQuery of
 internal/modules/auth/repository_mysql.go and the calendar days of
 internal/modules/auth/domain.go. A calendar day is an integer, an instant a
 number of seconds, and a time zone an offset shorter than a day.
 */
module Activity {
  import opened Wrappers

  const DAY := 86400

  datatype Counters = Counters(last: Option<int>, distinct: nat, streak: nat)

  /** The account that has never been seen. */
  const NEVER := Counters(None, 0, 0)

  /** What the update means, as one simultaneous assignment. */
  function Touch(c: Counters, today: int): (r: Counters)
    ensures r.last.Some? && r.last.value >= today
    ensures c.last.Some? ==> r.last.value >= c.last.value
  {
    if c.last.Some? && c.last.value >= today then c
    else Counters(Some(today), c.distinct + 1, if c.last == Some(today - 1) then c.streak + 1 else 1)
  }

  function TouchAll(c: Counters, days: seq<int>): Counters {
    if days == [] then c
    else Touch(TouchAll(c, days[..|days| - 1]), days[|days| - 1])
  }

  /** The three columns, which one UPDATE assigns from left to right. */
  class ActivityRow {
    var last: Option<int>
    var distinct: nat
    var streak: nat

    ghost function State(): Counters
      reads this
    {
      Counters(last, distinct, streak)
    }

    constructor From(c: Counters)
      ensures State() == c
    {
      last, distinct, streak := c.last, c.distinct, c.streak;
    }

    method TouchActivity(today: int)
      modifies this
      ensures State() == Touch(old(State()), today)
    {
      distinct := distinct + (if last.Some? && last.value >= today then 0 else 1);
      streak := if last.Some? && last.value >= today then streak
                else if last == Some(today - 1) then streak + 1
                else 1;
      last := Some(var coalesced := if last.Some? then last.value else today;
                   if coalesced > today then coalesced else today);
    }
  }

  // ---- The meaning of the counters over any sequence of days ----

  /** The maxima after one more day. */
  function WithDay(maxima: seq<int>, today: int): seq<int> {
    if maxima == [] || maxima[|maxima| - 1] < today then maxima + [today] else maxima
  }

  /** The days later than every day before them: the left-to-right maxima. */
  function Maxima(days: seq<int>): seq<int> {
    if days == [] then [] else WithDay(Maxima(days[..|days| - 1]), days[|days| - 1])
  }

  ghost predicate Increasing(days: seq<int>) {
    forall i, j :: 0 <= i < j < |days| ==> days[i] < days[j]
  }

  /** The last n entries are consecutive days and no longer block of them is. */
  ghost predicate IsTrailingRun(days: seq<int>, n: nat) {
    && 1 <= n <= |days|
    && (forall i :: |days| - n <= i < |days| ==> days[i] == days[|days| - 1] - (|days| - 1 - i))
    && (n < |days| ==> days[|days| - n - 1] != days[|days| - n] - 1)
  }

  lemma TrailingRunIsUnique(days: seq<int>, n: nat, k: nat)
    requires IsTrailingRun(days, n) && IsTrailingRun(days, k)
    ensures n == k
  {
  }

  lemma ARecordMore(days: seq<int>, maxima: seq<int>, today: int)
    requires Increasing(maxima) && (days != [] ==> maxima != [])
    requires forall d :: d in maxima ==> d in days
    requires forall d :: d in days ==> d <= maxima[|maxima| - 1]
    ensures var all, next := days + [today], WithDay(maxima, today);
            && Increasing(next) && next != []
            && (forall d :: d in next ==> d in all)
            && (forall d :: d in all ==> d <= next[|next| - 1])
  {
  }

  lemma {:induction false} MaximaAreTheRecords(days: seq<int>)
    ensures Increasing(Maxima(days))
    ensures days != [] ==> Maxima(days) != []
    ensures forall d :: d in Maxima(days) ==> d in days
    ensures forall d :: d in days ==> d <= Maxima(days)[|Maxima(days)| - 1]
  {
    if days != [] {
      var n := |days| - 1;
      MaximaAreTheRecords(days[..n]);
      assert days == days[..n] + [days[n]];
      ARecordMore(days[..n], Maxima(days[..n]), days[n]);
      assert Maxima(days) == WithDay(Maxima(days[..n]), days[n]);
    }
  }

  /** The counters are those of these maxima. */
  ghost predicate CountersAre(c: Counters, maxima: seq<int>) {
    maxima != [] && c.last == Some(maxima[|maxima| - 1]) && c.distinct == |maxima| && IsTrailingRun(maxima, c.streak)
  }

  lemma TouchingExtendsTheRun(c: Counters, maxima: seq<int>, today: int)
    requires CountersAre(c, maxima)
    ensures CountersAre(Touch(c, today), WithDay(maxima, today))
  {
    var next := maxima + [today];
    if maxima[|maxima| - 1] < today {
      assert next[|next| - 2] == maxima[|maxima| - 1];
    }
  }

  /**
   Whatever days are touched, backwards ones included: the stored day is the
   last of the maxima, the distinct days count them, and the streak is the run
   of consecutive days that ends them.
   */
  lemma {:induction false} CountersMeanTheMaxima(days: seq<int>)
    requires days != []
    ensures CountersAre(TouchAll(NEVER, days), Maxima(days))
  {
    var n := |days| - 1;
    if n == 0 {
      assert TouchAll(NEVER, days[..0]) == NEVER && Maxima(days[..0]) == [];
    } else {
      CountersMeanTheMaxima(days[..n]);
      TouchingExtendsTheRun(TouchAll(NEVER, days[..n]), Maxima(days[..n]), days[n]);
    }
  }

  /** The stored day is the latest day ever seen. */
  lemma LastIsTheMaximum(days: seq<int>)
    requires days != []
    ensures TouchAll(NEVER, days).last.Some?
    ensures TouchAll(NEVER, days).last.value in days
    ensures forall d :: d in days ==> d <= TouchAll(NEVER, days).last.value
  {
    CountersMeanTheMaxima(days);
    MaximaAreTheRecords(days);
  }

  ghost predicate NonDecreasing(days: seq<int>) {
    forall i, j :: 0 <= i < j < |days| ==> days[i] <= days[j]
  }

  ghost function DaySet(days: seq<int>): set<int> {
    set d | d in days
  }

  lemma DaySetSnoc(days: seq<int>, day: int)
    ensures DaySet(days + [day]) == DaySet(days) + {day}
  {
    forall d | d in DaySet(days) + {day} ensures d in DaySet(days + [day]) {
      assert d in days + [day];
    }
  }

  lemma {:induction false} IncreasingSize(days: seq<int>)
    requires Increasing(days)
    ensures |DaySet(days)| == |days|
  {
    if days != [] {
      var n := |days| - 1;
      IncreasingSize(days[..n]);
      assert days == days[..n] + [days[n]];
      DaySetSnoc(days[..n], days[n]);
    }
  }

  lemma {:induction false} OrderedMaximaAreTheDays(days: seq<int>)
    requires NonDecreasing(days)
    ensures DaySet(Maxima(days)) == DaySet(days)
  {
    if days != [] {
      var n := |days| - 1;
      var before, today := Maxima(days[..n]), days[n];
      OrderedMaximaAreTheDays(days[..n]);
      assert days == days[..n] + [today];
      DaySetSnoc(days[..n], today);
      DaySetSnoc(before, today);
      if before != [] && before[|before| - 1] >= today {
        assert before[|before| - 1] in DaySet(days[..n]);
        assert before[|before| - 1] == today;
      }
    }
  }

  /** The days of a trailing run, as a block of the day set. */
  lemma TrailingRunBlock(days: seq<int>, n: nat)
    requires Increasing(days) && IsTrailingRun(days, n)
    ensures var last := days[|days| - 1];
            && (forall d :: last - n < d <= last ==> d in days)
            && last - n !in days
  {
    var last := days[|days| - 1];
    forall d | last - n < d <= last ensures d in days {
      assert days[|days| - 1 - (last - d)] == d;
    }
    if i :| 0 <= i < |days| && days[i] == last - n {
      assert days[|days| - n] == last - n + 1;
    }
  }

  /** When days never go backwards: the day set's size, and the block of days ending at the last one. */
  lemma OrderedDays(days: seq<int>)
    requires days != [] && NonDecreasing(days)
    ensures var c, last := TouchAll(NEVER, days), days[|days| - 1];
            && c.distinct == |DaySet(days)|
            && c.last == Some(last)
            && (forall d :: last - c.streak < d <= last ==> d in days)
            && last - c.streak !in days
  {
    var maxima := Maxima(days);
    CountersMeanTheMaxima(days);
    MaximaAreTheRecords(days);
    OrderedMaximaAreTheDays(days);
    IncreasingSize(maxima);
    TrailingRunBlock(maxima, TouchAll(NEVER, days).streak);
    assert days[|days| - 1] in days;
    assert maxima[|maxima| - 1] in days;
    assert forall d :: d in days <==> d in DaySet(days);
    assert forall d :: d in maxima <==> d in DaySet(maxima);
  }

  /** Touching a day that is not later changes nothing, however often and in whatever zone. */
  lemma EarlierDaysChangeNothing(c: Counters, day: int, earlier: int)
    requires earlier <= day
    ensures Touch(Touch(c, day), earlier) == Touch(c, day)
  {
  }

  // ---- Days cut in a time zone ----

  /** An offset that a zone may have: shorter than a day either way. */
  predicate IsOffset(offset: int) {
    -DAY < offset < DAY
  }

  /** The calendar day of an instant in a zone. */
  function DayIn(instant: int, offset: int): int {
    (instant + offset) / DAY
  }

  function UTCDay(instant: int): int {
    DayIn(instant, 0)
  }

  /** Days begin at local midnight, each one after the last; day 0 begins with the epoch in UTC. */
  lemma DaysBeginAtLocalMidnight(instant: int, offset: int)
    ensures DayIn(0, 0) == 0
    ensures DayIn(instant, offset) == DayIn(instant - 1, offset) + if (instant + offset) % 86400 == 0 then 1 else 0
  {
  }

  /** A zone is a clock that runs ahead by its offset. */
  lemma ZonesShiftTheClock(instant: int, offset: int, shift: int)
    ensures DayIn(instant, offset + shift) == DayIn(instant + shift, offset)
  {
  }

  /** Behind UTC no instant has a later day than in UTC, and those before local midnight have the day before. */
  lemma ZonesBehindHaveThePreviousDay(instant: int, offset: int)
    requires -86400 < offset < 0
    ensures DayIn(instant, offset) == UTCDay(instant) - if instant % 86400 < -offset then 1 else 0
    ensures exists early: int :: DayIn(early, offset) == UTCDay(early) - 1
  {
    assert DayIn(0, offset) == UTCDay(0) - 1;
  }

  /** Ahead of UTC those after local midnight have the next day already. */
  lemma ZonesAheadHaveTheNextDay(instant: int, offset: int)
    requires 0 < offset < 86400
    ensures DayIn(instant, offset) == UTCDay(instant) + if 86400 - offset <= instant % 86400 then 1 else 0
  {
  }

  lemma ZonesMoveADayAtMostOnce(instant: int, offset: int)
    requires IsOffset(offset)
    ensures UTCDay(instant) - 1 <= DayIn(instant, offset) <= UTCDay(instant) + 1
  {
  }

  lemma LaterInstantsHaveLaterDays(early: int, late: int)
    requires early <= late
    ensures UTCDay(early) <= UTCDay(late)
  {
  }

  /** One touch: when it happened and the offset the account's zone had when it was read. */
  datatype Visit = Visit(instant: int, offset: int)

  function DaysOf(visits: seq<Visit>): (r: seq<int>)
    ensures |r| == |visits|
  {
    seq(|visits|, i requires 0 <= i < |visits| => DayIn(visits[i].instant, visits[i].offset))
  }

  /** Register stores the UTC day; every later touch is cut in the zone of the moment. */
  function CountersOf(registered: int, visits: seq<Visit>): Counters {
    TouchAll(NEVER, [UTCDay(registered)] + DaysOf(visits))
  }

  lemma {:induction false} IncreasingSpan(days: seq<int>, first: int, last: int)
    requires days != [] && Increasing(days) && first <= days[0] && days[|days| - 1] <= last
    ensures |days| <= last - first + 1
  {
    if |days| > 1 {
      var n := |days| - 1;
      IncreasingSpan(days[..n], first, days[n] - 1);
    }
  }

  lemma {:induction false} FirstMaximum(days: seq<int>)
    requires days != []
    ensures Maxima(days) != [] && Maxima(days)[0] == days[0]
  {
    if |days| > 1 {
      FirstMaximum(days[..|days| - 1]);
    } else {
      assert Maxima(days[..0]) == [];
    }
  }

  /**
   With any number of timezone edits and any offsets under a day, the
   counters never exceed the UTC days elapsed by more than one day in total.
   */
  lemma ZonesGainAtMostOneDay(registered: int, visits: seq<Visit>, now: int)
    requires registered <= now
    requires forall i :: 0 <= i < |visits| ==> visits[i].instant <= now && IsOffset(visits[i].offset)
    ensures var c := CountersOf(registered, visits);
            1 <= c.streak <= c.distinct <= (UTCDay(now) - UTCDay(registered) + 1) + 1
  {
    var days := [UTCDay(registered)] + DaysOf(visits);
    var maxima := Maxima(days);
    CountersMeanTheMaxima(days);
    MaximaAreTheRecords(days);
    FirstMaximum(days);
    LaterInstantsHaveLaterDays(registered, now);
    forall d | d in days ensures d <= UTCDay(now) + 1 {
      if i :| 0 <= i < |visits| && d == DayIn(visits[i].instant, visits[i].offset) {
        ZonesMoveADayAtMostOnce(visits[i].instant, visits[i].offset);
        LaterInstantsHaveLaterDays(visits[i].instant, now);
      }
    }
    assert maxima[|maxima| - 1] in days;
    IncreasingSpan(maxima, UTCDay(registered), UTCDay(now) + 1);
  }

  lemma TwoDays(first: int, second: int)
    ensures TouchAll(NEVER, [first, second]) == Touch(Touch(NEVER, first), second)
  {
    var one, two := [first], [first, second];
    assert one[..0] == [];
    assert TouchAll(NEVER, one) == Touch(NEVER, first);
    assert two[..1] == one;
  }

  lemma OneVisit(registered: int, visit: Visit)
    ensures CountersOf(registered, [visit]).distinct ==
            if DayIn(visit.instant, visit.offset) > UTCDay(registered) then 2 else 1
  {
    TwoDays(UTCDay(registered), DayIn(visit.instant, visit.offset));
    assert [UTCDay(registered)] + DaysOf([visit]) == [UTCDay(registered), DayIn(visit.instant, visit.offset)];
  }

  /**
   With zones up to some offset, one touch in the very second of registration
   counts as a second day exactly when that second lies within the offset of
   the next UTC midnight.
   */
  lemma TheExtraDayIsAttained(registered: int, offsetLimit: int)
    requires 0 <= offsetLimit < DAY
    ensures registered % DAY >= DAY - offsetLimit <==>
            exists offset :: -offsetLimit <= offset <= offsetLimit &&
                             CountersOf(registered, [Visit(registered, offset)]).distinct == 2
  {
    forall offset | -offsetLimit <= offset <= offsetLimit
      ensures CountersOf(registered, [Visit(registered, offset)]).distinct == 2 <==>
              DayIn(registered, offset) > UTCDay(registered)
    {
      OneVisit(registered, Visit(registered, offset));
    }
    if registered % DAY >= DAY - offsetLimit {
      assert DayIn(registered, DAY - registered % DAY) > UTCDay(registered);
    }
  }

  /** Later the same UTC day any zone ahead of UTC gives it, whenever the account was registered. */
  lemma TheExtraDayCanBeHadTheSameDay(registered: int, offset: int)
    requires 0 < offset < DAY
    ensures exists instant :: instant >= registered && UTCDay(instant) == UTCDay(registered) &&
                              CountersOf(registered, [Visit(instant, offset)]).distinct == 2
  {
    var instant := UTCDay(registered) * DAY + DAY - 1;
    OneVisit(registered, Visit(instant, offset));
    assert UTCDay(instant) == UTCDay(registered) && DayIn(instant, offset) > UTCDay(registered);
  }
}
