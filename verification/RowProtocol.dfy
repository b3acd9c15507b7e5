/**
 Any number of concurrent requests on one user's row: Mutate's locked
 transaction against PUT's single statement
 (internal/modules/progress/repository_mysql.go).

 Every request moves in small steps and a run is any sequence of steps. A step
 that is not enabled leaves the state alone, so the runs are exactly the
 interleavings. A present row is locked exclusively. An absent row only has a
 gap lock, which several transactions may hold at once: an insert goes through
 only for a sole holder, and a victim of the deadlock aborts.
 */
module RowProtocol {
  import opened Wrappers
  import opened Codec
  import opened Documents
  import opened ProgressRules
  import opened ProgressHistory
  import opened ProgressTheorems

  /** Committed carries the position of the request's own commit. */
  datatype Phase =
    | Idle
    | Begun
    | Locked
    | HasRead(read: Option<Json>)
    | Computed(read: Option<Json>, updated: Json)
    | Written(read: Option<Json>, updated: Json)
    | Committed(ticket: nat)
    | Answered(ticket: nat, shown: Json)
    | Failed(lost: Option<nat>)
  {
    /** The phases in which a transaction holds its lock. */
    predicate Holds() {
      Locked? || HasRead? || Computed? || Written?
    }

    predicate Finished() {
      Answered? || Failed?
    }

    /** Where in the commit order this request stands, if it committed. */
    function Ticket(): Option<nat> {
      match this
      case Committed(ticket) => Some(ticket)
      case Answered(ticket, _) => Some(ticket)
      case Failed(lost) => lost
      case _ => None
    }
  }

  /** The committed row, where every request is, and the requests in commit order. */
  datatype State = State(row: Option<Json>, phases: map<nat, Phase>, history: seq<nat>) {
    function At(r: nat): Phase {
      if r in phases then phases[r] else Idle
    }

    function Move(r: nat, phase: Phase): State {
      this.(phases := phases[r := phase])
    }

    /** The row becomes data, as the next commit. */
    function Store(r: nat, data: Json, phase: Phase): State {
      State(Some(data), phases[r := phase], history + [r])
    }

    ghost predicate NoOtherHolder(r: nat) {
      forall other: nat :: other != r ==> !At(other).Holds()
    }

    /** FOR UPDATE waits for a record lock, and for an insert nobody has committed yet. */
    ghost predicate CanLock(r: nat) {
      if row.Some? then NoOtherHolder(r) else forall other: nat :: other != r ==> !At(other).Written?
    }
  }

  /** What each request wants, and how long an encoding is. */
  datatype Env = Env(lib: Library, work: nat -> Change)

  datatype Step =
    | Begin(r: nat)
    | Lock(r: nat)
    | Read(r: nat)
    | Compute(r: nat)
    | Write(r: nat)
    | Commit(r: nat)
    | CommitUnheard(r: nat)
    | ReadBack(r: nat)
    | ReadBackFails(r: nat)
    | Put(r: nat)
    | Abort(r: nat)

  ghost function Do(env: Env, s: State, step: Step): State {
    var r, phase := step.r, s.At(step.r);
    match step
    case Begin(_) =>
      if phase.Idle? && !env.work(r).Replace? then s.Move(r, Begun) else s
    case Lock(_) =>
      if phase.Begun? && s.CanLock(r) then s.Move(r, Locked) else s
    case Read(_) =>
      if phase.Locked? then s.Move(r, HasRead(s.row)) else s
    case Compute(_) =>
      if phase.HasRead? then
        match Effect(env.lib, phase.read, env.work(r))
        case Ok(updated) => s.Move(r, Computed(phase.read, updated))
        case Err(_) => s.Move(r, Failed(None))
      else s
    case Write(_) =>
      if phase.Computed? && (s.row.Some? || s.NoOtherHolder(r)) then
        s.Move(r, Written(phase.read, phase.updated))
      else s
    case Commit(_) =>
      if phase.Written? then s.Store(r, phase.updated, Committed(|s.history|)) else s
    case CommitUnheard(_) =>
      if phase.Written? then s.Store(r, phase.updated, Failed(Some(|s.history|))) else s
    case ReadBack(_) =>
      if phase.Committed? && s.row.Some? then s.Move(r, Answered(phase.ticket, s.row.value)) else s
    case ReadBackFails(_) =>
      if phase.Committed? then s.Move(r, Failed(Some(phase.ticket))) else s
    case Put(_) =>
      if phase.Idle? && env.work(r).Replace? && s.NoOtherHolder(r) then
        s.Store(r, env.work(r).data, Committed(|s.history|))
      else s
    case Abort(_) =>
      if phase.Ticket().None? && !phase.Failed? then s.Move(r, Failed(None)) else s
  }

  function Start(row: Option<Json>): State {
    State(row, map[], [])
  }

  ghost function RunSteps(env: Env, s: State, steps: seq<Step>): State {
    if steps == [] then s
    else Do(env, RunSteps(env, s, steps[..|steps| - 1]), steps[|steps| - 1])
  }

  function ChangesOf(env: Env, requests: seq<nat>): seq<Change> {
    seq(|requests|, i requires 0 <= i < |requests| => env.work(requests[i]))
  }

  // ---- What every step keeps ----

  /** A transaction that has read still sees the committed row, and computed from it. */
  ghost predicate ReadIsCurrent(env: Env, s: State, r: nat) {
    var phase := s.At(r);
    && (phase.HasRead? || phase.Computed? || phase.Written? ==> phase.read == s.row)
    && (phase.Computed? || phase.Written? ==> Effect(env.lib, phase.read, env.work(r)) == Ok(phase.updated))
  }

  /** Present rows have one holder at most; so does an insert in progress. */
  ghost predicate LocksExclude(s: State, r: nat) {
    s.At(r).Holds() && (s.row.Some? || s.At(r).Written?) ==> s.NoOtherHolder(r)
  }

  ghost predicate TicketIsPlace(s: State, r: nat) {
    && (s.At(r).Ticket().Some? ==> s.At(r).Ticket().value < |s.history| && s.history[s.At(r).Ticket().value] == r)
    && (r in s.history ==> s.At(r).Ticket().Some?)
  }

  /** shown is the row after some number of commits that includes commit number ticket. */
  ghost predicate ShownAfter(env: Env, initial: Option<Json>, history: seq<nat>, ticket: nat, shown: Json) {
    exists n :: ticket < n <= |history| && Replay(env.lib, initial, ChangesOf(env, history[..n])) == Ok(Some(shown))
  }

  ghost predicate ResponseIsFresh(env: Env, initial: Option<Json>, s: State, r: nat) {
    s.At(r).Answered? ==> ShownAfter(env, initial, s.history, s.At(r).ticket, s.At(r).shown)
  }

  ghost predicate Inv(env: Env, initial: Option<Json>, s: State) {
    && Replay(env.lib, initial, ChangesOf(env, s.history)) == Ok(s.row)
    && (forall r :: ReadIsCurrent(env, s, r))
    && (forall r :: LocksExclude(s, r))
    && (forall r :: TicketIsPlace(s, r))
    && (forall r :: ResponseIsFresh(env, initial, s, r))
  }

  lemma ShownStaysShown(env: Env, initial: Option<Json>, history: seq<nat>, r: nat, ticket: nat, shown: Json)
    requires ShownAfter(env, initial, history, ticket, shown)
    ensures ShownAfter(env, initial, history + [r], ticket, shown)
  {
    var n :| ticket < n <= |history| && Replay(env.lib, initial, ChangesOf(env, history[..n])) == Ok(Some(shown));
    assert (history + [r])[..n] == history[..n];
  }

  /** A request that stores the effect of its change on the current row extends the replay. */
  lemma StoreKeepsInv(env: Env, initial: Option<Json>, s: State, r: nat, data: Json, phase: Phase)
    requires Inv(env, initial, s)
    requires s.NoOtherHolder(r) && s.At(r).Ticket().None?
    requires Effect(env.lib, s.row, env.work(r)) == Ok(data)
    requires phase.Ticket() == Some(|s.history|) && !phase.Answered?
    ensures Inv(env, initial, s.Store(r, data, phase))
  {
    var t := s.Store(r, data, phase);
    assert ChangesOf(env, t.history) == ChangesOf(env, s.history) + [env.work(r)];
    ReplaySnoc(env.lib, initial, ChangesOf(env, s.history), env.work(r));
    assert !phase.Holds();
    forall other: nat
      ensures ReadIsCurrent(env, t, other) && LocksExclude(t, other) && TicketIsPlace(t, other)
      ensures ResponseIsFresh(env, initial, t, other)
    {
      assert TicketIsPlace(s, other) && ResponseIsFresh(env, initial, s, other) && TicketIsPlace(s, r);
      if other != r {
        assert t.At(other) == s.At(other) && !s.At(other).Holds();
        if s.At(other).Answered? {
          ShownStaysShown(env, initial, s.history, r, s.At(other).ticket, s.At(other).shown);
        }
      }
    }
  }

  /** A step that only moves one request, without touching the row. */
  lemma MoveKeepsInv(env: Env, initial: Option<Json>, s: State, r: nat, phase: Phase)
    requires Inv(env, initial, s)
    requires phase.Ticket() == s.At(r).Ticket()
    requires ReadIsCurrent(env, s.Move(r, phase), r)
    requires ResponseIsFresh(env, initial, s.Move(r, phase), r)
    requires phase.Holds() && !s.At(r).Holds() ==> s.CanLock(r) && !phase.Written?
    requires phase.Written? ==> s.row.Some? || s.NoOtherHolder(r)
    ensures Inv(env, initial, s.Move(r, phase))
  {
    var t := s.Move(r, phase);
    assert forall other: nat :: other != r ==> t.At(other) == s.At(other);
    forall other: nat
      ensures ReadIsCurrent(env, t, other) && LocksExclude(t, other) && TicketIsPlace(t, other)
      ensures ResponseIsFresh(env, initial, t, other)
    {
      assert ReadIsCurrent(env, s, other) && LocksExclude(s, other) && TicketIsPlace(s, other) && TicketIsPlace(s, r);
      assert ResponseIsFresh(env, initial, s, other) && LocksExclude(s, r);
    }
  }

  lemma StoringKeepsInv(env: Env, initial: Option<Json>, s: State, step: Step)
    requires Inv(env, initial, s) && Do(env, s, step) != s
    requires step.Commit? || step.CommitUnheard? || step.Put?
    ensures Inv(env, initial, Do(env, s, step))
  {
    var r, phase := step.r, s.At(step.r);
    assert ReadIsCurrent(env, s, r) && LocksExclude(s, r) && TicketIsPlace(s, r);
    if step.Put? {
      StoreKeepsInv(env, initial, s, r, env.work(r).data, Committed(|s.history|));
    } else {
      StoreKeepsInv(env, initial, s, r, phase.updated,
                    if step.Commit? then Committed(|s.history|) else Failed(Some(|s.history|)));
    }
  }

  lemma ReadingBackKeepsInv(env: Env, initial: Option<Json>, s: State, r: nat)
    requires Inv(env, initial, s) && s.At(r).Committed? && s.row.Some?
    ensures Inv(env, initial, s.Move(r, Answered(s.At(r).ticket, s.row.value)))
  {
    assert TicketIsPlace(s, r);
    assert s.history[..|s.history|] == s.history;
    assert ShownAfter(env, initial, s.history, s.At(r).ticket, s.row.value);
    MoveKeepsInv(env, initial, s, r, Answered(s.At(r).ticket, s.row.value));
  }

  lemma MovingKeepsInv(env: Env, initial: Option<Json>, s: State, step: Step)
    requires Inv(env, initial, s) && Do(env, s, step) != s
    requires !step.Commit? && !step.CommitUnheard? && !step.Put?
    ensures Inv(env, initial, Do(env, s, step))
  {
    var r, phase := step.r, s.At(step.r);
    assert ReadIsCurrent(env, s, r) && LocksExclude(s, r) && TicketIsPlace(s, r);
    match step
    case Begin(_) => MoveKeepsInv(env, initial, s, r, Begun);
    case Lock(_) => MoveKeepsInv(env, initial, s, r, Locked);
    case Read(_) => MoveKeepsInv(env, initial, s, r, HasRead(s.row));
    case Compute(_) =>
      match Effect(env.lib, phase.read, env.work(r)) {
        case Ok(updated) => MoveKeepsInv(env, initial, s, r, Computed(phase.read, updated));
        case Err(_) => MoveKeepsInv(env, initial, s, r, Failed(None));
      }
    case Write(_) => MoveKeepsInv(env, initial, s, r, Written(phase.read, phase.updated));
    case ReadBack(_) => ReadingBackKeepsInv(env, initial, s, r);
    case ReadBackFails(_) => MoveKeepsInv(env, initial, s, r, Failed(Some(phase.ticket)));
    case Abort(_) => MoveKeepsInv(env, initial, s, r, Failed(None));
  }

  lemma StepKeepsInv(env: Env, initial: Option<Json>, s: State, step: Step)
    requires Inv(env, initial, s)
    ensures Inv(env, initial, Do(env, s, step))
  {
    if Do(env, s, step) != s {
      if step.Commit? || step.CommitUnheard? || step.Put? {
        StoringKeepsInv(env, initial, s, step);
      } else {
        MovingKeepsInv(env, initial, s, step);
      }
    }
  }

  lemma {:induction false} EveryRunKeepsInv(env: Env, initial: Option<Json>, steps: seq<Step>)
    ensures Inv(env, initial, RunSteps(env, Start(initial), steps))
  {
    if steps != [] {
      EveryRunKeepsInv(env, initial, steps[..|steps| - 1]);
      StepKeepsInv(env, initial, RunSteps(env, Start(initial), steps[..|steps| - 1]), steps[|steps| - 1]);
    }
  }

  // ---- What that means for the stored document and the responses ----

  ghost predicate Distinct(history: seq<nat>) {
    forall i, j :: 0 <= i < j < |history| ==> history[i] != history[j]
  }

  lemma StepsCommitAtMostOnce(env: Env, s: State, step: Step)
    requires Distinct(s.history) && TicketIsPlace(s, step.r)
    ensures Distinct(Do(env, s, step).history)
  {
    assert Do(env, s, step).history == s.history ||
           (Do(env, s, step).history == s.history + [step.r] && step.r !in s.history);
  }

  lemma {:induction false} CommitsAreDistinct(env: Env, initial: Option<Json>, steps: seq<Step>)
    ensures Distinct(RunSteps(env, Start(initial), steps).history)
  {
    if steps != [] {
      var s, step := RunSteps(env, Start(initial), steps[..|steps| - 1]), steps[|steps| - 1];
      CommitsAreDistinct(env, initial, steps[..|steps| - 1]);
      EveryRunKeepsInv(env, initial, steps[..|steps| - 1]);
      assert TicketIsPlace(s, step.r);
      StepsCommitAtMostOnce(env, s, step);
    }
  }

  /**
   In every interleaving the stored document is the replay, in commit order, of
   exactly the committed changes over the initial row. A request commits at
   most once, and the ones that have not committed contribute nothing.
   */
  lemma StoredIsTheCommittedReplay(env: Env, initial: Option<Json>, steps: seq<Step>)
    ensures var s := RunSteps(env, Start(initial), steps);
            && Replay(env.lib, initial, ChangesOf(env, s.history)) == Ok(s.row)
            && (forall r :: r in s.history <==> s.At(r).Ticket().Some?)
            && Distinct(s.history)
  {
    EveryRunKeepsInv(env, initial, steps);
    var s := RunSteps(env, Start(initial), steps);
    forall r: nat ensures r in s.history <==> s.At(r).Ticket().Some? {
      assert TicketIsPlace(s, r);
    }
    CommitsAreDistinct(env, initial, steps);
  }

  /** Every response shows the row at or after the request's own commit, which applied its own change. */
  lemma ResponsesShowTheirOwnCommit(env: Env, initial: Option<Json>, steps: seq<Step>, r: nat)
    requires RunSteps(env, Start(initial), steps).At(r).Answered?
    ensures var s := RunSteps(env, Start(initial), steps);
            var phase := s.At(r);
            && phase.ticket < |s.history| && s.history[phase.ticket] == r
            && exists n :: phase.ticket < n <= |s.history| &&
                 Replay(env.lib, initial, ChangesOf(env, s.history[..n])) == Ok(Some(phase.shown)) &&
                 ChangesOf(env, s.history[..n])[phase.ticket] == env.work(r)
  {
    EveryRunKeepsInv(env, initial, steps);
    var s := RunSteps(env, Start(initial), steps);
    assert TicketIsPlace(s, r) && ResponseIsFresh(env, initial, s, r);
    var n :| s.At(r).ticket < n <= |s.history| &&
             Replay(env.lib, initial, ChangesOf(env, s.history[..n])) == Ok(Some(s.At(r).shown));
    assert ChangesOf(env, s.history[..n])[s.At(r).ticket] == env.work(r);
  }

  /** Everything before a PUT is forgotten: the replay may start from the document it wrote. */
  lemma {:induction false} ReplayFromTheLastPut(lib: Library, stored: Option<Json>, before: seq<Change>, data: Json,
                                                after: seq<Change>)
    requires Replay(lib, stored, before).Ok?
    ensures Replay(lib, stored, before + [Replace(data)] + after) == Replay(lib, Some(data), after)
  {
    if after == [] {
      assert before + [Replace(data)] + after == before + [Replace(data)];
      ReplaySnoc(lib, stored, before, Replace(data));
    } else {
      var init, last := after[..|after| - 1], after[|after| - 1];
      assert before + [Replace(data)] + after == (before + [Replace(data)] + init) + [last];
      ReplayFromTheLastPut(lib, stored, before, data, init);
      ReplaySnoc(lib, stored, before + [Replace(data)] + init, last);
    }
  }

  lemma {:induction false} GradesContain(changes: seq<Change>, i: nat)
    requires i < |changes| && changes[i].Grade?
    ensures changes[i].graded in Grades(changes)
  {
    if i < |changes| - 1 {
      GradesContain(changes[..|changes| - 1], i);
    }
  }

  /**
   No committed answer is lost: on a row that starts absent and sees no PUT,
   the stored view is the simple definition over all the committed answers,
   and every answer that was acknowledged is among them.
   */
  lemma NoAnswerIsLost(env: Env, steps: seq<Step>)
    requires env.lib.Valid()
    requires forall r: nat :: !env.work(r).Replace?
    ensures var s := RunSteps(env, Start(None), steps);
            var log := Grades(ChangesOf(env, s.history));
            && Parse(s.row).Ok?
            && ViewOf(env.lib, Parse(s.row).value) == Ok(ViewAfter(FRESH_VIEW, log))
            && forall r :: s.At(r).Answered? && env.work(r).Grade? ==> env.work(r).graded in log
  {
    var s := RunSteps(env, Start(None), steps);
    var changes := ChangesOf(env, s.history);
    EveryRunKeepsInv(env, None, steps);
    NoReplaceAnywhere(changes);
    DocumentIsItsHistory(env.lib, None, changes);
    FreshAccountView(env.lib, changes);
    forall r | s.At(r).Answered? && env.work(r).Grade? ensures env.work(r).graded in Grades(changes) {
      assert TicketIsPlace(s, r);
      assert changes[s.At(r).ticket] == env.work(r);
      GradesContain(changes, s.At(r).ticket);
    }
  }

  lemma {:induction false} PrefixesSucceed(lib: Library, stored: Option<Json>, before: seq<Change>, after: seq<Change>)
    requires Replay(lib, stored, before + after).Ok?
    ensures Replay(lib, stored, before).Ok?
  {
    if after == [] {
      assert before + after == before;
    } else {
      var init, last := after[..|after| - 1], after[|after| - 1];
      assert before + after == (before + init) + [last];
      ReplaySnoc(lib, stored, before + init, last);
      PrefixesSucceed(lib, stored, before, init);
    }
  }

  /** The last PUT of a run is commit number p, of a document that answers can be recorded in. */
  ghost predicate IsLastPut(env: Env, s: State, p: nat) {
    && p < |s.history| && env.work(s.history[p]).Replace?
    && (forall i :: p < i < |s.history| ==> !env.work(s.history[i]).Replace?)
    && Parse(Some(env.work(s.history[p]).data)).Ok?
    && ViewOf(env.lib, Parse(Some(env.work(s.history[p]).data)).value).Ok?
  }

  lemma SplitAtThePut(env: Env, initial: Option<Json>, history: seq<nat>, p: nat)
    requires p < |history| && env.work(history[p]).Replace?
    requires Replay(env.lib, initial, ChangesOf(env, history)).Ok?
    ensures Replay(env.lib, initial, ChangesOf(env, history)) ==
            Replay(env.lib, Some(env.work(history[p]).data), ChangesOf(env, history[p + 1..]))
  {
    var before, put, after := ChangesOf(env, history[..p]), env.work(history[p]), ChangesOf(env, history[p + 1..]);
    assert ChangesOf(env, history) == before + [put] + after == before + ([put] + after);
    PrefixesSucceed(env.lib, initial, before, [put] + after);
    ReplayFromTheLastPut(env.lib, initial, before, put.data, after);
  }

  lemma ViewSinceThePut(lib: Library, data: Json, after: seq<Change>)
    requires lib.Valid() && NoReplace(after) && Replay(lib, Some(data), after).Ok?
    requires Parse(Some(data)).Ok? && ViewOf(lib, Parse(Some(data)).value).Ok?
    ensures var row := Replay(lib, Some(data), after).value;
            Parse(row).Ok? && ViewOf(lib, Parse(row).value) ==
              Ok(ViewAfter(ViewOf(lib, Parse(Some(data)).value).value, Grades(after)))
  {
    DocumentIsItsHistory(lib, Some(data), after);
    FinalView(lib, Parse(Some(data)).value, after, Parse(Replay(lib, Some(data), after).value).value);
  }

  /**
   In every interleaving, whatever was stored at first: the view is that of the
   document the last PUT wrote and of all the answers committed after it, and
   every answer acknowledged with a later commit is among them.
   */
  lemma NoAnswerIsLostSinceThePut(env: Env, initial: Option<Json>, steps: seq<Step>, p: nat)
    requires env.lib.Valid() && IsLastPut(env, RunSteps(env, Start(initial), steps), p)
    ensures var s := RunSteps(env, Start(initial), steps);
            var written := ViewOf(env.lib, Parse(Some(env.work(s.history[p]).data)).value).value;
            var log := Grades(ChangesOf(env, s.history[p + 1..]));
            && Parse(s.row).Ok?
            && ViewOf(env.lib, Parse(s.row).value) == Ok(ViewAfter(written, log))
            && forall r :: s.At(r).Answered? && s.At(r).ticket > p && env.work(r).Grade? ==> env.work(r).graded in log
  {
    var s := RunSteps(env, Start(initial), steps);
    var data, changes := env.work(s.history[p]).data, ChangesOf(env, s.history[p + 1..]);
    EveryRunKeepsInv(env, initial, steps);
    SplitAtThePut(env, initial, s.history, p);
    NoReplaceAnywhere(changes);
    ViewSinceThePut(env.lib, data, changes);
    forall r | s.At(r).Answered? && s.At(r).ticket > p && env.work(r).Grade?
      ensures env.work(r).graded in Grades(changes)
    {
      assert TicketIsPlace(s, r);
      assert changes[s.At(r).ticket - p - 1] == env.work(r);
      GradesContain(changes, s.At(r).ticket - p - 1);
    }
  }

  // ---- Who can be stuck ----

  /** The step a request would take next when everything goes well. */
  function NextStep(env: Env, s: State, r: nat): Step {
    match s.At(r)
    case Idle => if env.work(r).Replace? then Put(r) else Begin(r)
    case Begun => Lock(r)
    case Locked => Read(r)
    case HasRead(_) => Compute(r)
    case Computed(_, _) => Write(r)
    case Written(_, _) => Commit(r)
    case _ => ReadBack(r)
  }

  ghost predicate CanMove(env: Env, s: State, r: nat) {
    Do(env, s, NextStep(env, s, r)) != s
  }

  ghost predicate Deadlocked(s: State) {
    s.row.None? && exists a, b :: a != b && s.At(a).Computed? && s.At(b).Computed?
  }

  /** Only taking the lock, inserting and PUT ever wait. */
  lemma OtherStepsNeverWait(env: Env, s: State, r: nat)
    requires !s.At(r).Finished() && (s.At(r).Committed? ==> s.row.Some?)
    requires !s.At(r).Begun? && !s.At(r).Computed? && (s.At(r).Idle? ==> !env.work(r).Replace?)
    ensures CanMove(env, s, r)
  {
    assert Do(env, s, NextStep(env, s, r)).At(r) != s.At(r);
  }

  /** An unfinished request that cannot move waits for a holder; a holder that cannot move waits to insert. */
  lemma MovesUnlessWaiting(env: Env, s: State, r: nat)
    requires !s.At(r).Finished() && !CanMove(env, s, r)
    requires s.At(r).Committed? ==> s.row.Some?
    ensures exists holder :: s.At(holder).Holds() && (s.At(r).Computed? ==> holder != r)
    ensures s.At(r).Holds() ==> s.At(r).Computed? && s.row.None?
  {
    if !s.At(r).Begun? && !s.At(r).Computed? && (s.At(r).Idle? ==> !env.work(r).Replace?) {
      OtherStepsNeverWait(env, s, r);
    } else if s.At(r).Begun? {
      assert s.Move(r, Locked).At(r) != s.At(r);
    } else if s.At(r).Computed? {
      assert s.Move(r, Written(s.At(r).read, s.At(r).updated)).At(r) != s.At(r);
    } else {
      assert s.Store(r, env.work(r).data, Committed(|s.history|)).At(r) != s.At(r);
    }
  }

  /**
   While some request is unfinished, the requests block each other in one way
   only: on an absent row, with at least two transactions that share the gap
   lock and all want to insert.
   */
  lemma OnlyGapLocksDeadlock(env: Env, initial: Option<Json>, steps: seq<Step>, r: nat)
    requires !RunSteps(env, Start(initial), steps).At(r).Finished()
    ensures var s := RunSteps(env, Start(initial), steps);
            (exists other :: CanMove(env, s, other)) || Deadlocked(s)
  {
    var s := RunSteps(env, Start(initial), steps);
    EveryRunKeepsInv(env, initial, steps);
    forall other: nat | s.At(other).Ticket().Some? ensures s.row.Some? {
      assert TicketIsPlace(s, other);
    }
    if !CanMove(env, s, r) {
      MovesUnlessWaiting(env, s, r);
      var holder :| s.At(holder).Holds() && (s.At(r).Computed? ==> holder != r);
      if !CanMove(env, s, holder) {
        MovesUnlessWaiting(env, s, holder);
        var second :| s.At(second).Holds() && second != holder;
        if !CanMove(env, s, second) {
          MovesUnlessWaiting(env, s, second);
        }
      }
    }
  }

  lemma GapDeadlockResolves(env: Env, s: State, a: nat, b: nat)
    requires s.row.None? && a != b && s.At(a).Computed? && s.At(b).Computed?
    ensures Do(env, s, Write(a)) == s && Do(env, s, Write(b)) == s
    ensures (forall other :: other != a && other != b ==> !s.At(other).Holds()) ==>
              Do(env, Do(env, s, Abort(b)), Write(a)) ==
              s.Move(b, Failed(None)).Move(a, Written(s.At(a).read, s.At(a).updated))
  {
    assert s.At(b).Holds() && s.At(a).Holds();
    assert !s.NoOtherHolder(a) && !s.NoOtherHolder(b);
    var t := Do(env, s, Abort(b));
    assert t == s.Move(b, Failed(None));
    assert forall other :: other != b ==> t.At(other) == s.At(other);
  }

  ghost predicate Reaches(env: Env, initial: Option<Json>, s: State) {
    exists steps :: RunSteps(env, Start(initial), steps) == s
  }

  lemma OneMoreStep(env: Env, initial: Option<Json>, s: State, step: Step)
    requires Reaches(env, initial, s)
    ensures Reaches(env, initial, Do(env, s, step))
  {
    var steps :| RunSteps(env, Start(initial), steps) == s;
    assert (steps + [step])[..|steps|] == steps;
    assert RunSteps(env, Start(initial), steps + [step]) == Do(env, s, step);
  }

  /** A request that would create the document, if the row were absent. */
  ghost predicate Creates(env: Env, r: nat) {
    !env.work(r).Replace? && Effect(env.lib, None, env.work(r)).Ok?
  }

  lemma LocksTheGap(env: Env, s: State, r: nat) returns (t: State)
    requires Reaches(env, None, s) && s.row.None? && s.At(r).Idle? && !env.work(r).Replace?
    requires forall other: nat :: !s.At(other).Written?
    ensures Reaches(env, None, t) && t.row.None? && t.history == s.history && t.At(r).Locked?
    ensures forall other: nat :: other != r ==> t.At(other) == s.At(other)
  {
    OneMoreStep(env, None, s, Begin(r));
    var begun := Do(env, s, Begin(r));
    assert forall other: nat :: other != r ==> begun.At(other) == s.At(other);
    assert begun.CanLock(r);
    OneMoreStep(env, None, begun, Lock(r));
    t := Do(env, begun, Lock(r));
  }

  /** It can come as far as inserting whatever the others hold, as long as none of them has inserted. */
  lemma ComesToInsert(env: Env, s: State, r: nat) returns (t: State)
    requires Reaches(env, None, s) && s.row.None? && s.At(r).Idle? && Creates(env, r)
    requires forall other: nat :: !s.At(other).Written?
    ensures Reaches(env, None, t) && t.row.None? && t.history == s.history
    ensures t.At(r) == Computed(None, Effect(env.lib, None, env.work(r)).value)
    ensures forall other: nat :: other != r ==> t.At(other) == s.At(other)
  {
    var locked := LocksTheGap(env, s, r);
    OneMoreStep(env, None, locked, Read(r));
    var read := locked.Move(r, HasRead(None));
    assert Do(env, locked, Read(r)) == read;
    OneMoreStep(env, None, read, Compute(r));
    t := read.Move(r, Computed(None, Effect(env.lib, None, env.work(r)).value));
    assert Do(env, read, Compute(r)) == t;
  }

  /** Neither of the two can insert; when b is aborted a can, and its commit leaves its own effect. */
  ghost predicate BlocksUntilOneAborts(env: Env, s: State, a: nat, b: nat) {
    && Deadlocked(s) && Do(env, s, Write(a)) == s && Do(env, s, Write(b)) == s
    && Effect(env.lib, None, env.work(a)).Ok?
    && Do(env, Do(env, Do(env, s, Abort(b)), Write(a)), Commit(a)).row == Some(Effect(env.lib, None, env.work(a)).value)
  }

  lemma ReachesTheDeadlock(env: Env, a: nat, b: nat) returns (s: State)
    requires a != b && Creates(env, a) && Creates(env, b)
    ensures Reaches(env, None, s) && s.row.None?
    ensures s.At(a) == Computed(None, Effect(env.lib, None, env.work(a)).value) && s.At(b).Computed?
    ensures forall other: nat :: other != a && other != b ==> s.At(other).Idle?
  {
    assert RunSteps(env, Start(None), []) == Start(None);
    var one := ComesToInsert(env, Start(None), a);
    s := ComesToInsert(env, one, b);
  }

  lemma CommittingStores(env: Env, s: State, r: nat)
    requires s.At(r).Written?
    ensures Do(env, s, Commit(r)).row == Some(s.At(r).updated)
  {
  }

  lemma BlockedStateResolves(env: Env, s: State, a: nat, b: nat)
    requires s.row.None? && a != b && Creates(env, a)
    requires s.At(a) == Computed(None, Effect(env.lib, None, env.work(a)).value) && s.At(b).Computed?
    requires forall other: nat :: other != a && other != b ==> s.At(other).Idle?
    ensures BlocksUntilOneAborts(env, s, a, b)
  {
    GapDeadlockResolves(env, s, a, b);
    CommittingStores(env, s.Move(b, Failed(None)).Move(a, Written(s.At(a).read, s.At(a).updated)), a);
  }

  /** The deadlock is real: any two requests that would create the document can reach it. */
  lemma GapDeadlockIsReachable(env: Env, a: nat, b: nat)
    requires a != b && Creates(env, a) && Creates(env, b)
    ensures exists steps :: BlocksUntilOneAborts(env, RunSteps(env, Start(None), steps), a, b)
  {
    var s := ReachesTheDeadlock(env, a, b);
    BlockedStateResolves(env, s, a, b);
    var steps :| RunSteps(env, Start(None), steps) == s;
    assert BlocksUntilOneAborts(env, RunSteps(env, Start(None), steps), a, b);
  }

  ghost predicate OnlyMutationsHold(env: Env, s: State) {
    forall r: nat :: s.At(r).Begun? || s.At(r).Holds() ==> !env.work(r).Replace?
  }

  lemma {:induction false} RunsOnlyHoldMutations(env: Env, initial: Option<Json>, steps: seq<Step>)
    ensures OnlyMutationsHold(env, RunSteps(env, Start(initial), steps))
  {
    if steps != [] {
      var s, step := RunSteps(env, Start(initial), steps[..|steps| - 1]), steps[|steps| - 1];
      RunsOnlyHoldMutations(env, initial, steps[..|steps| - 1]);
      assert forall r: nat :: r != step.r ==> Do(env, s, step).At(r) == s.At(r);
    }
  }

  lemma DeadlocksNeedTwoCreators(env: Env, initial: Option<Json>, steps: seq<Step>)
    requires Deadlocked(RunSteps(env, Start(initial), steps))
    ensures initial.None? && exists a, b :: a != b && Creates(env, a) && Creates(env, b)
  {
    var s := RunSteps(env, Start(initial), steps);
    EveryRunKeepsInv(env, initial, steps);
    RunsOnlyHoldMutations(env, initial, steps);
    var a, b :| a != b && s.At(a).Computed? && s.At(b).Computed?;
    assert ReadIsCurrent(env, s, a) && ReadIsCurrent(env, s, b);
    assert Creates(env, a) && Creates(env, b);
    assert ChangesOf(env, s.history) == [];
  }

  /** Exactly where requests can deadlock: on an absent row, when two of them would create the document. */
  lemma WhenRequestsDeadlock(env: Env, initial: Option<Json>)
    ensures (exists steps :: Deadlocked(RunSteps(env, Start(initial), steps))) <==>
            initial.None? && exists a, b :: a != b && Creates(env, a) && Creates(env, b)
  {
    if steps :| Deadlocked(RunSteps(env, Start(initial), steps)) {
      DeadlocksNeedTwoCreators(env, initial, steps);
    }
    if a, b :| a != b && Creates(env, a) && Creates(env, b) && initial.None? {
      GapDeadlockIsReachable(env, a, b);
      var steps :| BlocksUntilOneAborts(env, RunSteps(env, Start(None), steps), a, b);
      assert Deadlocked(RunSteps(env, Start(initial), steps));
    }
  }

  // ---- One request, undisturbed ----

  ghost predicate OwnSteps(steps: seq<Step>, r: nat) {
    forall i :: 0 <= i < |steps| ==> steps[i].r == r && !steps[i].Abort?
  }

  /** Steps of this request alone, none of them an abort, lead from s to t. */
  ghost predicate Leads(env: Env, s: State, r: nat, steps: seq<Step>, t: State) {
    OwnSteps(steps, r) && RunSteps(env, s, steps) == t
  }

  lemma OneOwnStepMore(env: Env, s: State, r: nat, steps: seq<Step>, t: State, step: Step)
    returns (longer: seq<Step>)
    requires Leads(env, s, r, steps, t) && step.r == r && !step.Abort?
    ensures longer == steps + [step] && Leads(env, s, r, longer, Do(env, t, step))
  {
    longer := steps + [step];
    assert longer[..|steps|] == steps;
  }

  /** It comes as far as having read the row, if nobody else holds a lock. */
  lemma ComesToRead(env: Env, s: State, r: nat) returns (steps: seq<Step>)
    requires s.At(r).Idle? && !env.work(r).Replace? && s.NoOtherHolder(r)
    ensures Leads(env, s, r, steps, s.Move(r, HasRead(s.row)))
  {
    var begun, locked := s.Move(r, Begun), s.Move(r, Begun).Move(r, Locked);
    steps := OneOwnStepMore(env, s, r, [], s, Begin(r));
    assert forall other: nat :: other != r ==> begun.At(other) == s.At(other);
    assert begun.CanLock(r);
    steps := OneOwnStepMore(env, s, r, steps, begun, Lock(r));
    steps := OneOwnStepMore(env, s, r, steps, locked, Read(r));
    assert locked.Move(r, HasRead(s.row)) == s.Move(r, HasRead(s.row));
  }

  lemma ComesToCompute(env: Env, s: State, r: nat, data: Json) returns (steps: seq<Step>)
    requires s.At(r).Idle? && !env.work(r).Replace? && s.NoOtherHolder(r)
    requires Effect(env.lib, s.row, env.work(r)) == Ok(data)
    ensures Leads(env, s, r, steps, s.Move(r, Computed(s.row, data)))
  {
    steps := ComesToRead(env, s, r);
    steps := OneOwnStepMore(env, s, r, steps, s.Move(r, HasRead(s.row)), Compute(r));
    assert s.Move(r, HasRead(s.row)).Move(r, Computed(s.row, data)) == s.Move(r, Computed(s.row, data));
  }

  /** And as far as having written the effect of its change, if that is no error. */
  lemma ComesToWrite(env: Env, s: State, r: nat, data: Json) returns (steps: seq<Step>)
    requires s.At(r).Idle? && !env.work(r).Replace? && s.NoOtherHolder(r)
    requires Effect(env.lib, s.row, env.work(r)) == Ok(data)
    ensures Leads(env, s, r, steps, s.Move(r, Written(s.row, data)))
  {
    var computed := s.Move(r, Computed(s.row, data));
    steps := ComesToCompute(env, s, r, data);
    assert forall other: nat :: other != r ==> computed.At(other) == s.At(other);
    steps := OneOwnStepMore(env, s, r, steps, computed, Write(r));
    assert computed.Move(r, Written(s.row, data)) == s.Move(r, Written(s.row, data));
  }

  /**
   Mutate undisturbed, whatever the row was: the effect of the change is
   committed and shown, and nothing else moves; an error leaves the row alone.
   */
  lemma MutateIsARun(env: Env, s: State, r: nat) returns (steps: seq<Step>)
    requires s.At(r).Idle? && !env.work(r).Replace? && s.NoOtherHolder(r)
    ensures OwnSteps(steps, r)
    ensures match Effect(env.lib, s.row, env.work(r))
            case Ok(data) => RunSteps(env, s, steps) == s.Store(r, data, Answered(|s.history|, data))
            case Err(_) => RunSteps(env, s, steps) == s.Move(r, Failed(None))
  {
    if Effect(env.lib, s.row, env.work(r)).Ok? {
      var data := Effect(env.lib, s.row, env.work(r)).value;
      var committed := s.Store(r, data, Committed(|s.history|));
      steps := ComesToWrite(env, s, r, data);
      steps := OneOwnStepMore(env, s, r, steps, s.Move(r, Written(s.row, data)), Commit(r));
      assert s.Move(r, Written(s.row, data)).Store(r, data, Committed(|s.history|)) == committed;
      steps := OneOwnStepMore(env, s, r, steps, committed, ReadBack(r));
      assert committed.Move(r, Answered(|s.history|, data)) == s.Store(r, data, Answered(|s.history|, data));
    } else {
      steps := ComesToRead(env, s, r);
      steps := OneOwnStepMore(env, s, r, steps, s.Move(r, HasRead(s.row)), Compute(r));
      assert s.Move(r, HasRead(s.row)).Move(r, Failed(None)) == s.Move(r, Failed(None));
    }
  }

  /** A commit whose answer is lost, or a read-back that fails, stores the effect all the same. */
  lemma LostAnswersAreCommitted(env: Env, s: State, r: nat, data: Json) returns (unheard: seq<Step>, unread: seq<Step>)
    requires s.At(r).Idle? && !env.work(r).Replace? && s.NoOtherHolder(r)
    requires Effect(env.lib, s.row, env.work(r)) == Ok(data)
    ensures CommitUnheard(r) in unheard && Leads(env, s, r, unheard, s.Store(r, data, Failed(Some(|s.history|))))
    ensures ReadBackFails(r) in unread && Leads(env, s, r, unread, s.Store(r, data, Failed(Some(|s.history|))))
  {
    var written, committed := s.Move(r, Written(s.row, data)), s.Store(r, data, Committed(|s.history|));
    var steps := ComesToWrite(env, s, r, data);
    unheard := OneOwnStepMore(env, s, r, steps, written, CommitUnheard(r));
    assert written.Store(r, data, Failed(Some(|s.history|))) == s.Store(r, data, Failed(Some(|s.history|)));
    unread := OneOwnStepMore(env, s, r, steps, written, Commit(r));
    assert written.Store(r, data, Committed(|s.history|)) == committed;
    unread := OneOwnStepMore(env, s, r, unread, committed, ReadBackFails(r));
    assert committed.Move(r, Failed(Some(|s.history|))) == s.Store(r, data, Failed(Some(|s.history|)));
  }

  /** PUT undisturbed stores its document, whatever the row was, and shows it. */
  lemma PutIsARun(env: Env, s: State, r: nat) returns (steps: seq<Step>)
    requires s.At(r).Idle? && env.work(r).Replace? && s.NoOtherHolder(r)
    ensures Leads(env, s, r, steps, s.Store(r, env.work(r).data, Answered(|s.history|, env.work(r).data)))
  {
    var data := env.work(r).data;
    var committed := s.Store(r, data, Committed(|s.history|));
    steps := OneOwnStepMore(env, s, r, [], s, Put(r));
    steps := OneOwnStepMore(env, s, r, steps, committed, ReadBack(r));
    assert committed.Move(r, Answered(|s.history|, data)) == s.Store(r, data, Answered(|s.history|, data));
  }

  /** Until its commit a request can be aborted wherever it is, and the row is left alone. */
  lemma AbortsLeaveTheRow(env: Env, s: State, r: nat)
    requires var phase := s.At(r);
             phase.Idle? || phase.Begun? || phase.Locked? || phase.HasRead? || phase.Computed? || phase.Written?
    ensures Do(env, s, Abort(r)) == State(s.row, s.phases[r := Failed(None)], s.history)
  {
  }

  // ---- Why a request fails ----

  /** At step n the request computed from the committed row, and the effect of its change on it was an error. */
  ghost predicate ComputedAnError(env: Env, initial: Option<Json>, steps: seq<Step>, r: nat, n: nat) {
    && n < |steps| && steps[n] == Compute(r)
    && var s := RunSteps(env, Start(initial), steps[..n]);
       s.At(r) == HasRead(s.row) && Effect(env.lib, s.row, env.work(r)).Err?
  }

  lemma FailingComputesAnError(env: Env, initial: Option<Json>, s: State, step: Step, r: nat)
    requires Inv(env, initial, s) && s.At(r) != Failed(None) && Do(env, s, step).At(r) == Failed(None)
    requires step != Abort(r)
    ensures step == Compute(r) && s.At(r) == HasRead(s.row) && Effect(env.lib, s.row, env.work(r)).Err?
  {
    assert ReadIsCurrent(env, s, r);
    assert step.r != r ==> Do(env, s, step).At(r) == s.At(r);
  }

  /**
   In every interleaving a request that was never aborted fails before its
   commit only when the effect of its change on the committed row is an error.
   */
  lemma {:induction false} OnlyErrorsFail(env: Env, initial: Option<Json>, steps: seq<Step>, r: nat)
    requires RunSteps(env, Start(initial), steps).At(r) == Failed(None)
    requires Abort(r) !in steps
    ensures exists n: nat :: ComputedAnError(env, initial, steps, r, n)
  {
    assert steps != [];
    var init, last := steps[..|steps| - 1], steps[|steps| - 1];
    var s := RunSteps(env, Start(initial), init);
    if s.At(r) == Failed(None) {
      OnlyErrorsFail(env, initial, init, r);
      var n: nat :| ComputedAnError(env, initial, init, r, n);
      assert steps[..n] == init[..n];
      assert ComputedAnError(env, initial, steps, r, n);
    } else {
      EveryRunKeepsInv(env, initial, init);
      FailingComputesAnError(env, initial, s, last, r);
      assert ComputedAnError(env, initial, steps, r, |steps| - 1);
    }
  }
}
