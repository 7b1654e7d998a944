/** All runs of reconcilers and forced locks. */
module RecoveryRuns {
  import opened Common
  import opened Orders
  import opened RecoveryLock
  import Reconciliation

  /** One reconciliation attempt: the account and the generation `begin` issued to it. */
  datatype Attempt = Attempt(account: Account, generation: nat)

  datatype Event =
    | Began(attempt: Attempt)
    | Forced(account: Account)
    | Compared(attempt: Attempt, local: seq<BrokerOrder>, snapshot: Reconciliation.Snapshot)
    | Completed(attempt: Attempt, codes: seq<string>)

  /** `live` holds, for each running attempt, the codes it has found, if it has compared or failed. */
  datatype System = System(rows: Locks, live: map<Attempt, Option<seq<string>>>, history: seq<Event>)

  datatype Step =
    | Read(account: Account, now: int)
    | BeginStep(account: Account, now: int)
    | ForceStep(account: Account, codes: seq<string>, now: int)
    | CompareStep(attempt: Attempt, local: seq<BrokerOrder>, snapshot: Reconciliation.Snapshot, codes: seq<string>)
    | FailStep(attempt: Attempt, code: string)
    | CompleteStep(attempt: Attempt, now: int)
    | CrashStep(attempt: Attempt)

  const Init := System(map[], map[], [])

  /** A comparison may end with these codes: none exactly when the three sides agree. */
  ghost predicate Finds(account: Account, local: seq<BrokerOrder>, snapshot: Reconciliation.Snapshot,
                        codes: seq<string>)
  {
    && Reconciliation.DistinctBrokerIds(local)
    && (codes == [] <==> Reconciliation.Agreement(account, local, snapshot))
  }

  /** An attempt compares once, may still fail while persisting what it accepted, and completes
      once; completing is refused when its generation is no longer the current one. */
  ghost function Exec(s: System, step: Step): System {
    match step
    case Read(account, now) => s.(rows := Opened(s.rows, account, now))
    case BeginStep(account, now) =>
      var attempt := Attempt(account, NextGeneration(s.rows, account));
      System(Begin(s.rows, account, now), s.live[attempt := None], s.history + [Began(attempt)])
    case ForceStep(account, codes, now) =>
      s.(rows := ForceLock(s.rows, account, codes, now), history := s.history + [Forced(account)])
    case CompareStep(attempt, local, snapshot, codes) =>
      if attempt in s.live && s.live[attempt].None? && Finds(attempt.account, local, snapshot, codes) then
        s.(live := s.live[attempt := Some(codes)], history := s.history + [Compared(attempt, local, snapshot)])
      else s
    case FailStep(attempt, code) =>
      if attempt in s.live && (s.live[attempt].None? || s.live[attempt].value == []) then
        s.(live := s.live[attempt := Some([code])])
      else s
    case CompleteStep(attempt, now) =>
      if attempt in s.live && s.live[attempt].Some? then
        var codes := s.live[attempt].value;
        var gone := s.(live := s.live - {attempt});
        if Current(s.rows, attempt.account, attempt.generation) then
          gone.(rows := Complete(s.rows, attempt.account, codes, attempt.generation, now),
                history := s.history + [Completed(attempt, codes)])
        else gone
      else s
    case CrashStep(attempt) => s.(live := s.live - {attempt})
  }

  ghost function Run(steps: seq<Step>): System {
    if steps == [] then Init else Exec(Run(steps[..|steps| - 1]), steps[|steps| - 1])
  }

  // ---------------------------------------------------------------- what READY means

  predicate Moves(event: Event, account: Account) {
    match event
    case Began(attempt) => attempt.account == account
    case Forced(locked) => locked == account
    case _ => false
  }

  ghost predicate Agreed(event: Event, attempt: Attempt) {
    && event.Compared? && event.attempt == attempt
    && Reconciliation.Agreement(attempt.account, event.local, event.snapshot)
  }

  /** The attempt began at `i` as the account's latest move, found the three sides in agreement at
      `k` and completed without issues at `j`; since `i` nothing began or forced the lock. */
  ghost predicate Released(history: seq<Event>, attempt: Attempt, i: nat, k: nat, j: nat) {
    && i < k < j < |history|
    && history[i] == Began(attempt)
    && Agreed(history[k], attempt)
    && history[j] == Completed(attempt, [])
    && forall m :: i < m < |history| ==> !Moves(history[m], attempt.account)
  }

  ghost predicate ReleasedBy(history: seq<Event>, attempt: Attempt) {
    exists i: nat, k: nat, j: nat :: Released(history, attempt, i, k, j)
  }

  /** The number of begin and force events of the account so far. */
  function Generations(history: seq<Event>, account: Account): nat {
    if history == [] then 0
    else Generations(history[..|history| - 1], account)
         + (if Moves(history[|history| - 1], account) then 1 else 0)
  }

  lemma {:induction false} GenerationsGrow(history: seq<Event>, i: nat, account: Account)
    requires i <= |history|
    ensures Generations(history[..i], account) <= Generations(history, account)
    ensures Generations(history[..i], account) == Generations(history, account) ==>
              forall m :: i <= m < |history| ==> !Moves(history[m], account)
  {
    if i < |history| {
      var front := history[..|history| - 1];
      GenerationsGrow(front, i, account);
      assert front[..i] == history[..i];
    } else {
      assert history[..i] == history;
    }
  }

  lemma AppendGenerations(history: seq<Event>, event: Event, account: Account)
    ensures Generations(history + [event], account)
            == Generations(history, account) + (if Moves(event, account) then 1 else 0)
  {
    assert (history + [event])[..|history|] == history;
  }

  /** Only a begin, a force or an issue-free completion can change whether an attempt released. */
  lemma AppendReleased(history: seq<Event>, event: Event, attempt: Attempt)
    ensures Moves(event, attempt.account) ==> !ReleasedBy(history + [event], attempt)
    ensures !Moves(event, attempt.account) && event != Completed(attempt, []) ==>
              (ReleasedBy(history + [event], attempt) <==> ReleasedBy(history, attempt))
  {
    var longer := history + [event];
    assert longer[|history|] == event;
    assert forall m :: 0 <= m < |history| ==> longer[m] == history[m];
    if !Moves(event, attempt.account) && event != Completed(attempt, []) {
      if i: nat, k: nat, j: nat :| Released(history, attempt, i, k, j) {
        assert Released(longer, attempt, i, k, j);
      }
      if i: nat, k: nat, j: nat :| Released(longer, attempt, i, k, j) {
        assert Released(history, attempt, i, k, j);
      }
    }
  }

  // ---------------------------------------------------------------- invariant

  /** A running attempt began under the generation it holds, has agreed before it can complete
      without issues, and has not completed yet. */
  ghost predicate LiveOk(history: seq<Event>, attempt: Attempt, held: Option<seq<string>>) {
    && attempt.generation <= Generations(history, attempt.account)
    && (exists i: nat ::
        BeganAt(history, attempt, i) && (held == Some([]) ==> exists k: nat :: AgreedAt(history, attempt, i, k)))
    && (forall j, codes :: 0 <= j < |history| ==> history[j] != Completed(attempt, codes))
  }

  ghost predicate BeganAt(history: seq<Event>, attempt: Attempt, i: nat) {
    && i < |history| && history[i] == Began(attempt)
    && Generations(history[..i + 1], attempt.account) == attempt.generation
  }

  ghost predicate AgreedAt(history: seq<Event>, attempt: Attempt, i: nat, k: nat) {
    i < k < |history| && Agreed(history[k], attempt)
  }

  ghost predicate RowOk(rows: Locks, history: seq<Event>, account: Account) {
    && Generations(history, account) == (if account in rows then rows[account].generation else 0)
    && (forall g: nat :: ReleasedBy(history, Attempt(account, g)) <==>
          IsReady(rows, account) && rows[account].generation == g)
    && (forall j: nat, g: nat, codes :: 0 <= j < |history| && history[j] == Completed(Attempt(account, g), codes) ==>
          g <= Generations(history, account))
  }

  ghost predicate Inv(s: System) {
    && (forall account :: RowOk(s.rows, s.history, account))
    && (forall attempt :: attempt in s.live ==> LiveOk(s.history, attempt, s.live[attempt]))
  }

  lemma LiveSurvives(history: seq<Event>, event: Event, attempt: Attempt, held: Option<seq<string>>)
    requires LiveOk(history, attempt, held)
    requires forall codes :: event != Completed(attempt, codes)
    ensures LiveOk(history + [event], attempt, held)
  {
    var longer := history + [event];
    AppendGenerations(history, event, attempt.account);
    var i: nat :| BeganAt(history, attempt, i)
      && (held == Some([]) ==> exists k: nat :: AgreedAt(history, attempt, i, k));
    assert longer[..i + 1] == history[..i + 1];
    assert BeganAt(longer, attempt, i);
    if k: nat :| AgreedAt(history, attempt, i, k) {
      assert AgreedAt(longer, attempt, i, k);
    }
  }

  /** Appending an event that leaves an account's row alone keeps what is known of that row. */
  lemma RowSurvives(rows: Locks, history: seq<Event>, event: Event, account: Account)
    requires RowOk(rows, history, account)
    requires !Moves(event, account)
    requires event.Completed? ==> event.attempt.account != account
    ensures RowOk(rows, history + [event], account)
  {
    AppendGenerations(history, event, account);
    forall g: nat
      ensures ReleasedBy(history + [event], Attempt(account, g)) <==> ReleasedBy(history, Attempt(account, g))
    {
      AppendReleased(history, event, Attempt(account, g));
    }
  }

  lemma MoveKeepsInv(s: System, account: Account, event: Event, row: LockRow)
    requires Inv(s) && Moves(event, account) && row.status != Ready
    requires row.generation == NextGeneration(s.rows, account)
    requires event.Began? ==> event.attempt.account == account
    ensures var rows, history := s.rows[account := row], s.history + [event];
            forall other :: RowOk(rows, history, other)
    ensures forall attempt :: attempt in s.live ==> LiveOk(s.history + [event], attempt, s.live[attempt])
  {
    var history := s.history + [event];
    var rows := s.rows[account := row];
    forall other ensures RowOk(rows, history, other) {
      assert RowOk(s.rows, s.history, other);
      if other != account {
        RowSurvives(s.rows, s.history, event, other);
        assert RowOk(s.rows, history, other);
        assert IsReady(rows, other) == IsReady(s.rows, other);
      } else {
        AppendGenerations(s.history, event, account);
        forall g: nat ensures !ReleasedBy(history, Attempt(account, g)) {
          AppendReleased(s.history, event, Attempt(account, g));
        }
      }
    }
    forall attempt | attempt in s.live ensures LiveOk(history, attempt, s.live[attempt]) {
      LiveSurvives(s.history, event, attempt, s.live[attempt]);
    }
  }

  lemma BeginKeepsInv(s: System, account: Account, now: int)
    requires Inv(s)
    ensures Inv(Exec(s, BeginStep(account, now)))
  {
    var attempt := Attempt(account, NextGeneration(s.rows, account));
    var after := Exec(s, BeginStep(account, now));
    MoveKeepsInv(s, account, Began(attempt), after.rows[account]);
    assert RowOk(s.rows, s.history, account);
    var n := |s.history|;
    assert after.history[..n + 1] == after.history;
    AppendGenerations(s.history, Began(attempt), account);
    assert BeganAt(after.history, attempt, n);
  }

  lemma CompareKeepsInv(s: System, step: Step)
    requires Inv(s) && step.CompareStep? && Exec(s, step) != s
    ensures Inv(Exec(s, step))
  {
    var event := Compared(step.attempt, step.local, step.snapshot);
    var after := Exec(s, step);
    forall account ensures RowOk(after.rows, after.history, account) {
      RowSurvives(s.rows, s.history, event, account);
    }
    forall attempt | attempt in after.live ensures LiveOk(after.history, attempt, after.live[attempt]) {
      LiveSurvives(s.history, event, attempt, s.live[attempt]);
      if attempt == step.attempt && step.codes == [] {
        var i: nat :| BeganAt(after.history, attempt, i);
        assert after.history[|s.history|] == event;
        assert AgreedAt(after.history, attempt, i, |s.history|);
      }
    }
  }

  lemma CompleteKeepsInv(s: System, attempt: Attempt, now: int)
    requires Inv(s) && attempt in s.live && s.live[attempt].Some?
    requires Current(s.rows, attempt.account, attempt.generation)
    ensures Inv(Exec(s, CompleteStep(attempt, now)))
  {
    var after := Exec(s, CompleteStep(attempt, now));
    var codes := s.live[attempt].value;
    var event := Completed(attempt, codes);
    forall other | other in after.live ensures LiveOk(after.history, other, after.live[other]) {
      LiveSurvives(s.history, event, other, s.live[other]);
    }
    forall account ensures RowOk(after.rows, after.history, account) {
      assert RowOk(s.rows, s.history, account);
      if account != attempt.account {
        RowSurvives(s.rows, s.history, event, account);
        assert RowOk(s.rows, after.history, account);
        assert IsReady(after.rows, account) == IsReady(s.rows, account);
      } else {
        CompletedRow(s, attempt, now);
      }
    }
  }

  /** An issue-free completion of the current generation releases; any other leaves it locked. */
  lemma CompletedRow(s: System, attempt: Attempt, now: int)
    requires Inv(s) && attempt in s.live && s.live[attempt].Some?
    requires Current(s.rows, attempt.account, attempt.generation)
    ensures var after := Exec(s, CompleteStep(attempt, now)); RowOk(after.rows, after.history, attempt.account)
  {
    var after := Exec(s, CompleteStep(attempt, now));
    var codes := s.live[attempt].value;
    var event := Completed(attempt, codes);
    var account := attempt.account;
    assert RowOk(s.rows, s.history, account) && LiveOk(s.history, attempt, s.live[attempt]);
    AppendGenerations(s.history, event, account);
    assert !ReleasedBy(s.history, attempt);
    forall g: nat ensures ReleasedBy(after.history, Attempt(account, g)) <==> codes == [] && g == attempt.generation {
      AppendReleased(s.history, event, Attempt(account, g));
      if codes == [] && g == attempt.generation {
        CompletionReleases(s.history, attempt);
      }
    }
  }

  lemma CompletionReleases(history: seq<Event>, attempt: Attempt)
    requires LiveOk(history, attempt, Some([])) && attempt.generation == Generations(history, attempt.account)
    ensures ReleasedBy(history + [Completed(attempt, [])], attempt)
  {
    var i: nat :| BeganAt(history, attempt, i) && exists k: nat :: AgreedAt(history, attempt, i, k);
    var k: nat :| AgreedAt(history, attempt, i, k);
    GenerationsGrow(history, i + 1, attempt.account);
    assert (history + [Completed(attempt, [])])[|history|] == Completed(attempt, []);
    assert Released(history + [Completed(attempt, [])], attempt, i, k, |history|);
  }

  lemma StepKeepsInv(s: System, step: Step)
    requires Inv(s)
    ensures Inv(Exec(s, step))
  {
    match step
    case Read(account, now) =>
      forall other ensures RowOk(Exec(s, step).rows, s.history, other) {
        assert RowOk(s.rows, s.history, other);
        assert IsReady(Exec(s, step).rows, other) == IsReady(s.rows, other);
      }
    case BeginStep(account, now) => BeginKeepsInv(s, account, now);
    case ForceStep(account, codes, now) =>
      MoveKeepsInv(s, account, Forced(account), Exec(s, step).rows[account]);
    case CompareStep(_, _, _, _) =>
      if Exec(s, step) != s {
        CompareKeepsInv(s, step);
      }
    case FailStep(attempt, code) =>
      var after := Exec(s, step);
      forall other | other in after.live ensures LiveOk(after.history, other, after.live[other]) {
        assert LiveOk(s.history, other, s.live[other]);
      }
    case CompleteStep(attempt, now) =>
      if attempt in s.live && s.live[attempt].Some? && Current(s.rows, attempt.account, attempt.generation) {
        CompleteKeepsInv(s, attempt, now);
      }
    case CrashStep(attempt) =>
  }

  lemma {:induction false} RunKeepsInv(steps: seq<Step>)
    ensures Inv(Run(steps))
  {
    if steps == [] {
      forall account ensures RowOk(Init.rows, Init.history, account) {
      }
    } else {
      RunKeepsInv(steps[..|steps| - 1]);
      StepKeepsInv(Run(steps[..|steps| - 1]), steps[|steps| - 1]);
    }
  }

  // ---------------------------------------------------------------- results

  /** Fencing: in every interleaving of reconcilers, crashes and forced locks, trading is READY
      exactly when the attempt that began last found the three sides in agreement and completed
      without issues, and nothing has begun or forced the lock since it began. */
  lemma ReadyIffReleased(steps: seq<Step>, account: Account)
    ensures var s := Run(steps);
            IsReady(s.rows, account) <==> exists g: nat :: ReleasedBy(s.history, Attempt(account, g))
  {
    RunKeepsInv(steps);
    var s := Run(steps);
    assert RowOk(s.rows, s.history, account);
    if IsReady(s.rows, account) {
      assert ReleasedBy(s.history, Attempt(account, s.rows[account].generation));
    }
  }

  lemma HistoryGrows(s: System, step: Step, account: Account)
    ensures Generations(s.history, account) <= Generations(Exec(s, step).history, account)
  {
    var after := Exec(s, step);
    if after.history != s.history {
      AppendGenerations(s.history, after.history[|s.history|], account);
    }
  }

  lemma {:induction false} RunGenerations(steps: seq<Step>, later: seq<Step>, account: Account)
    ensures Generations(Run(steps).history, account) <= Generations(Run(steps + later).history, account)
  {
    if later == [] {
      assert steps + later == steps;
    } else {
      var front := later[..|later| - 1];
      RunGenerations(steps, front, account);
      assert (steps + later)[..|steps + later| - 1] == steps + front;
      HistoryGrows(Run(steps + front), later[|later| - 1], account);
    }
  }

  /** How often the account's lock was begun or forced. */
  function Issued(steps: seq<Step>, account: Account): nat {
    if steps == [] then 0
    else
      var last := steps[|steps| - 1];
      Issued(steps[..|steps| - 1], account)
      + (if (last.BeginStep? || last.ForceStep?) && last.account == account then 1 else 0)
  }

  /** The stored generation; an account without a row has none yet. */
  function GenerationOf(rows: Locks, account: Account): nat {
    if account in rows then rows[account].generation else 0
  }

  /** Between any two points of a run the stored generation of an account grows by one for each begin
      and each forced lock in between, and by nothing else; its row never disappears. */
  lemma {:induction false} GenerationsNeverShrink(steps: seq<Step>, later: seq<Step>, account: Account)
    ensures account in Run(steps).rows ==> account in Run(steps + later).rows
    ensures GenerationOf(Run(steps + later).rows, account)
            == GenerationOf(Run(steps).rows, account) + Issued(later, account)
  {
    if later == [] {
      assert steps + later == steps;
    } else {
      var front := later[..|later| - 1];
      GenerationsNeverShrink(steps, front, account);
      assert (steps + later)[..|steps + later| - 1] == steps + front;
    }
  }

  /** A reconciler whose generation has been overtaken can never change the lock, at that moment
      or at any later one. */
  lemma OvertakenNeverReleases(steps: seq<Step>, later: seq<Step>, attempt: Attempt, now: int)
    requires attempt.generation < Generations(Run(steps).history, attempt.account)
    ensures var s := Run(steps + later);
            && Exec(s, CompleteStep(attempt, now)).rows == s.rows
            && Exec(s, CompleteStep(attempt, now)).history == s.history
  {
    RunGenerations(steps, later, attempt.account);
    RunKeepsInv(steps + later);
    assert RowOk(Run(steps + later).rows, Run(steps + later).history, attempt.account);
  }
}
