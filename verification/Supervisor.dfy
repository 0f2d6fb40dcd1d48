/**
 * Supervision of named tasks under one root cancellation, with a bounded drain. A run is driven by the
 * order in which things happen: tasks end, the shutdown source answers, the grace period expires.
 */
module Supervisor {
  import opened Foundation
  import opened Grammar
  import opened Text

  datatype ShutdownReason = Interrupt | Terminate | Requested

  datatype LifecycleError =
    | InvalidTaskName | SupervisorShuttingDown
    | TaskFailed(task: string) | TaskJoinFailed(task: string)
    | ShutdownTimedOut | SignalRegistration | SignalStreamClosed

  datatype TaskEnd = Finished | Failed | Panicked

  datatype Event = Shutdown(answer: Result<ShutdownReason, LifecycleError>) | Join(id: nat, how: TaskEnd) | GraceExpired

  type Names = map<nat, string>

  // ---- What a run comes to --------------------------------------------------------------------

  /** The error of a task that did not finish. */
  function JoinError(task: string, how: TaskEnd): LifecycleError {
    if how.Failed? then TaskFailed(task) else TaskJoinFailed(task)
  }

  /** A drain that has returned, or is still waiting when there is no outcome, with what it leaves registered. */
  datatype Drained = Drained(outcome: Option<Result<(), LifecycleError>>, left: Names) {
    predicate Succeeds() { outcome.Some? && outcome.value.Success? }

    predicate FailsWith(error: LifecycleError) { outcome.Some? && outcome.value == Failure(error) }
  }

  function DrainOf(names: Names, events: seq<Event>): Drained {
    if names == map[] then Drained(Some(Success(())), names)
    else if events == [] then Drained(None, names)
    else
      match events[0]
      case Join(id, how) =>
        if id !in names then DrainOf(names, events[1..])
        else if how.Finished? then DrainOf(names - {id}, events[1..])
        else Drained(Some(Failure(JoinError(names[id], how))), names - {id})
      case GraceExpired => Drained(Some(Failure(ShutdownTimedOut)), map[])
      case Shutdown(_) => DrainOf(names, events[1..])
  }

  datatype Ran = Ran(outcome: Option<Result<ShutdownReason, LifecycleError>>, left: Names, cancelled: bool)

  /** `drain(grace).await?` and then the answer. */
  function AfterDrain(drained: Drained, answer: Result<ShutdownReason, LifecycleError>): Ran {
    match drained.outcome
    case None => Ran(None, drained.left, true)
    case Some(Success(_)) => Ran(Some(answer), drained.left, true)
    case Some(Failure(error)) => Ran(Some(Failure(error)), drained.left, true)
  }

  /** A run that starts uncancelled; no deadline is set before the drain. */
  function RunOf(names: Names, events: seq<Event>): Ran {
    if events == [] then Ran(None, names, false)
    else
      match events[0]
      case Shutdown(answer) => AfterDrain(DrainOf(names, events[1..]), answer)
      case Join(id, how) =>
        if id !in names then RunOf(names, events[1..])
        else if how.Finished? then RunOf(names - {id}, events[1..])
        else AfterDrain(DrainOf(names - {id}, events[1..]), Failure(JoinError(names[id], how)))
      case GraceExpired => RunOf(names, events[1..])
  }

  // ---- The supervisor -------------------------------------------------------------------------

  const MAX_TASK_NAME_BYTES: nat := 96

  predicate ValidTaskName(name: string) {
    name != "" && Utf8Length(name) <= MAX_TASK_NAME_BYTES && forall i | 0 <= i < |name| :: !IsControl(name[i])
  }

  class TaskSupervisor {
    var cancelled: bool
    var tasks: set<nat>
    var names: Names
    var nextId: nat

    constructor ()
      ensures Valid() && !cancelled && names == map[]
    {
      cancelled, tasks, names, nextId := false, {}, map[], 0;
    }

    /** Exactly the registered tasks are named. */
    ghost predicate Valid()
      reads this
    { names.Keys == tasks && forall id | id in tasks :: id < nextId }

    /** `spawn`: the checks come before anything starts. */
    method Spawn(name: string) returns (r: Result<nat, LifecycleError>)
      requires Valid()
      modifies this`tasks, this`names, this`nextId
      ensures Valid()
      ensures cancelled ==> r == Failure(SupervisorShuttingDown)
      ensures !cancelled ==>
        (r == Failure(InvalidTaskName) <==> name == "" || Utf8Length(name) > 96 || exists c | c in name :: IsControl(c))
      ensures r.Failure? ==> names == old(names) && nextId == old(nextId)
      ensures !cancelled && r != Failure(InvalidTaskName) ==>
        r.Success? && r.value !in old(names) && names == old(names)[r.value := name]
    {
      if cancelled { return Failure(SupervisorShuttingDown); }
      assert ValidTaskName(name) <==> name != "" && Utf8Length(name) <= 96 && forall c | c in name :: !IsControl(c);
      if !ValidTaskName(name) { return Failure(InvalidTaskName); }
      var id := nextId;
      nextId := nextId + 1;
      tasks := tasks + {id};
      names := names[id := name];
      return Success(id);
    }

    /** `remove_name` of a task that was just joined. */
    method RemoveJoined(id: nat) returns (task: string)
      requires Valid() && id in tasks
      modifies this`tasks, this`names
      ensures Valid() && task == old(names)[id] && names == old(names) - {id}
    {
      tasks := tasks - {id};
      task := if id in names then names[id] else "unknown-task";
      names := names - {id};
    }

    /** `drain`: joins everything, stops at the first task that did not finish, aborts the rest at the deadline. */
    method Drain(events: seq<Event>) returns (outcome: Option<Result<(), LifecycleError>>)
      requires Valid()
      modifies this`tasks, this`names
      ensures Valid() && DrainOf(old(names), events) == Drained(outcome, names)
    {
      var i := 0;
      while i < |events| && tasks != {}
        invariant 0 <= i <= |events| && Valid()
        invariant DrainOf(old(names), events) == DrainOf(names, events[i..])
      {
        var event := events[i];
        assert events[i..][0] == event && events[i..][1..] == events[i + 1..];
        match event {
          case Shutdown(_) =>
          case GraceExpired =>
            // the aborted tasks are joined and all names go
            tasks, names := {}, map[];
            return Some(Failure(ShutdownTimedOut));
          case Join(id, how) =>
            if id in tasks {
              var task := RemoveJoined(id);
              match how
              case Finished =>
              case Failed => return Some(Failure(TaskFailed(task)));
              case Panicked => return Some(Failure(TaskJoinFailed(task)));
            }
        }
        i := i + 1;
      }
      return if tasks == {} then Some(Success(())) else None;
    }

    method FinishShutdown(answer: Result<ShutdownReason, LifecycleError>, events: seq<Event>)
      returns (outcome: Option<Result<ShutdownReason, LifecycleError>>)
      requires Valid()
      modifies this`cancelled, this`tasks, this`names
      ensures Valid() && AfterDrain(DrainOf(old(names), events), answer) == Ran(outcome, names, cancelled)
    {
      cancelled := true;
      var drained := Drain(events);
      if drained.None? { return None; }
      return Some(match drained.value case Success(_) => answer case Failure(error) => Failure(error));
    }

    /** `run_until_shutdown`; no outcome means that it is still waiting after the last event. */
    method RunUntilShutdown(events: seq<Event>) returns (outcome: Option<Result<ShutdownReason, LifecycleError>>)
      requires Valid() && !cancelled
      modifies this`cancelled, this`tasks, this`names
      ensures Valid() && RunOf(old(names), events) == Ran(outcome, names, cancelled)
    {
      var i := 0;
      while i < |events|
        invariant 0 <= i <= |events| && Valid() && !cancelled
        invariant RunOf(old(names), events) == RunOf(names, events[i..])
      {
        var event := events[i];
        assert events[i..][0] == event && events[i..][1..] == events[i + 1..];
        match event {
          case Shutdown(answer) =>
            outcome := FinishShutdown(answer, events[i + 1..]);
            return;
          case GraceExpired =>
          case Join(id, how) =>
            if id in tasks {
              var task := RemoveJoined(id);
              if !how.Finished? {
                outcome := FinishShutdown(Failure(JoinError(task, how)), events[i + 1..]);
                return;
              }
            }
        }
        i := i + 1;
      }
      return None;
    }
  }

  // ---- What the outcome says ------------------------------------------------------------------

  /** This one ends by finishing, before the grace period that is running expires. */
  predicate JoinsInTime(events: seq<Event>, task: nat) {
    events != [] &&
    match events[0]
    case Join(id, how) => if id == task then how.Finished? else JoinsInTime(events[1..], task)
    case GraceExpired => false
    case Shutdown(_) => JoinsInTime(events[1..], task)
  }

  /** This one ends by finishing, and not later than the grace period after the shutdown. */
  predicate EndsCleanly(events: seq<Event>, task: nat) {
    events != [] &&
    match events[0]
    case Join(id, how) => if id == task then how.Finished? else EndsCleanly(events[1..], task)
    case GraceExpired => EndsCleanly(events[1..], task)
    case Shutdown(_) => JoinsInTime(events[1..], task)
  }

  function FirstAnswer(events: seq<Event>): Option<Result<ShutdownReason, LifecycleError>> {
    if events == [] then None
    else if events[0].Shutdown? then Some(events[0].answer)
    else FirstAnswer(events[1..])
  }

  /** A drain succeeds exactly when every task ends in time. */
  lemma {:induction false} DrainSucceedsIff(names: Names, events: seq<Event>)
    ensures DrainOf(names, events).Succeeds() <==> forall task | task in names :: JoinsInTime(events, task)
    ensures DrainOf(names, events).Succeeds() ==> DrainOf(names, events).left == map[]
    decreases |events|
  {
    if names != map[] {
      var some :| some in names;
      if events != [] {
        var rest := events[1..];
        match events[0]
        case Join(id, how) =>
          if id !in names { DrainSucceedsIff(names, rest); }
          else if how.Finished? {
            DrainSucceedsIff(names - {id}, rest);
            assert DrainOf(names, events) == DrainOf(names - {id}, rest);
            assert JoinsInTime(events, id);
            forall task | task in names
              ensures task == id || (task in names - {id} && (JoinsInTime(events, task) <==> JoinsInTime(rest, task)))
            {}
          } else {
            assert !JoinsInTime(events, id);
          }
        case GraceExpired =>
        case Shutdown(_) => DrainSucceedsIff(names, rest);
      }
    }
  }

  /**
   * A run returns a reason exactly when the shutdown source gave that reason first and every task finished
   * without failing, panicking or overrunning the grace period; then no task is left.
   */
  lemma {:induction false} RunSucceedsIff(names: Names, events: seq<Event>, reason: ShutdownReason)
    ensures RunOf(names, events).outcome == Some(Success(reason)) <==>
      FirstAnswer(events) == Some(Success(reason)) && forall task | task in names :: EndsCleanly(events, task)
    decreases |events|
  {
    if events != [] {
      var rest := events[1..];
      match events[0]
      case Shutdown(_) =>
        DrainSucceedsIff(names, rest);
        assert forall task | task in names :: EndsCleanly(events, task) <==> JoinsInTime(rest, task);
      case Join(id, how) =>
        if id !in names {
          RunSucceedsIff(names, rest, reason);
        } else if how.Finished? {
          RunSucceedsIff(names - {id}, rest, reason);
          assert RunOf(names, events) == RunOf(names - {id}, rest) && FirstAnswer(events) == FirstAnswer(rest);
          assert EndsCleanly(events, id);
          forall task | task in names
            ensures task == id || (task in names - {id} && (EndsCleanly(events, task) <==> EndsCleanly(rest, task)))
          {}
        } else {
          assert !EndsCleanly(events, id);
        }
      case GraceExpired => RunSucceedsIff(names, rest, reason);
    }
  }

  /** An orderly end and a timeout leave no task and no name behind, under a cancelled root. */
  lemma {:induction false} EndedRunsAreEmpty(names: Names, events: seq<Event>)
    requires RunOf(names, events).outcome.Some?
    ensures RunOf(names, events).cancelled
    ensures RunOf(names, events).outcome.value.Success? || RunOf(names, events).outcome.value == Failure(ShutdownTimedOut) ==>
      RunOf(names, events).left == map[]
    decreases |events|
  {
    var rest := events[1..];
    match events[0]
    case Shutdown(_) => DrainLeaves(names, rest);
    case Join(id, how) =>
      if id !in names { EndedRunsAreEmpty(names, rest); }
      else if how.Finished? { EndedRunsAreEmpty(names - {id}, rest); }
      else { DrainLeaves(names - {id}, rest); }
    case GraceExpired => EndedRunsAreEmpty(names, rest);
  }

  /** Only a task that fails during the drain leaves others behind. */
  lemma {:induction false} DrainLeaves(names: Names, events: seq<Event>)
    ensures var d := DrainOf(names, events);
      d.Succeeds() || d.FailsWith(ShutdownTimedOut) ==> d.left == map[]
    decreases |events|
  {
    if names != map[] && events != [] {
      match events[0]
      case Join(id, how) =>
        if id !in names { DrainLeaves(names, events[1..]); }
        else if how.Finished? { DrainLeaves(names - {id}, events[1..]); }
      case GraceExpired =>
      case Shutdown(_) => DrainLeaves(names, events[1..]);
    }
  }

  /** What is registered after these events of a run that goes on. */
  function Remaining(names: Names, events: seq<Event>): (left: Names)
    ensures forall task | task in left :: task in names && left[task] == names[task]
  {
    if events == [] then names
    else if events[0].Join? && events[0].how.Finished? then Remaining(names - {events[0].id}, events[1..])
    else Remaining(names, events[1..])
  }

  /** So far nothing was shut down and nothing registered failed. */
  predicate Undisturbed(names: Names, events: seq<Event>) {
    events == [] ||
    match events[0]
    case Shutdown(_) => false
    case GraceExpired => Undisturbed(names, events[1..])
    case Join(id, how) =>
      if id !in names then Undisturbed(names, events[1..]) else how.Finished? && Undisturbed(names - {id}, events[1..])
  }

  /** Of these the first not to finish is this one, in this way, while a grace period is running. */
  predicate FailsFirst(names: Names, events: seq<Event>, task: nat, how: TaskEnd) {
    events != [] &&
    match events[0]
    case Shutdown(_) => FailsFirst(names, events[1..], task, how)
    case GraceExpired => false
    case Join(id, end) =>
      if id !in names then FailsFirst(names, events[1..], task, how)
      else if end.Finished? then FailsFirst(names - {id}, events[1..], task, how)
      else id == task && end == how
  }

  lemma {:induction false} UndisturbedRuns(names: Names, before: seq<Event>, after: seq<Event>)
    requires Undisturbed(names, before)
    ensures RunOf(names, before + after) == RunOf(Remaining(names, before), after)
    decreases |before|
  {
    if before == [] {
      assert before + after == after;
    } else {
      assert (before + after)[1..] == before[1..] + after;
      match before[0]
      case GraceExpired => UndisturbedRuns(names, before[1..], after);
      case Join(id, _) =>
        if id !in names { assert names - {id} == names; }
        UndisturbedRuns(names - {id}, before[1..], after);
    }
  }

  lemma {:induction false} DrainFailsIff(names: Names, events: seq<Event>, name: string, how: TaskEnd)
    requires !how.Finished?
    ensures DrainOf(names, events).FailsWith(JoinError(name, how)) <==>
      exists task | task in names :: names[task] == name && FailsFirst(names, events, task, how)
    decreases |events|
  {
    if names != map[] && events != [] {
      match events[0]
      case GraceExpired =>
      case Shutdown(_) => DrainFailsIff(names, events[1..], name, how);
      case Join(id, end) =>
        if id !in names {
          DrainFailsIff(names, events[1..], name, how);
        } else if end.Finished? {
          DrainFailsIff(names - {id}, events[1..], name, how);
          FinishedIsNotFirst(names - {id}, events[1..], id, how);
          assert DrainOf(names, events) == DrainOf(names - {id}, events[1..]);
          forall task | task in names
            ensures FailsFirst(names, events, task, how) <==> FailsFirst(names - {id}, events[1..], task, how)
            ensures task == id || task in names - {id}
          {}
        }
    }
  }

  lemma {:induction false} FinishedIsNotFirst(names: Names, events: seq<Event>, task: nat, how: TaskEnd)
    requires task !in names
    ensures !FailsFirst(names, events, task, how)
    decreases |events|
  {
    if events != [] {
      match events[0]
      case GraceExpired =>
      case Shutdown(_) => FinishedIsNotFirst(names, events[1..], task, how);
      case Join(id, end) =>
        if id !in names { FinishedIsNotFirst(names, events[1..], task, how); }
        else if end.Finished? { FinishedIsNotFirst(names - {id}, events[1..], task, how); }
    }
  }

  /**
   * After any undisturbed beginning, the first failure is what the run reports exactly when all others then
   * drain in time, or when the one whose failure takes its place has the same name and fails the same way.
   */
  lemma FirstFailureIsReportedIff(names: Names, before: seq<Event>, id: nat, how: TaskEnd, rest: seq<Event>)
    requires Undisturbed(names, before) && id in Remaining(names, before) && !how.Finished?
    ensures var others := Remaining(names, before) - {id};
      RunOf(names, before + ([Join(id, how)] + rest)).outcome == Some(Failure(JoinError(names[id], how))) <==>
        || (forall task | task in others :: JoinsInTime(rest, task))
        || (exists task | task in others :: names[task] == names[id] && FailsFirst(others, rest, task, how))
  {
    var (registered, events) := (Remaining(names, before), [Join(id, how)] + rest);
    UndisturbedRuns(names, before, events);
    assert events[0] == Join(id, how) && events[1..] == rest;
    DrainSucceedsIff(registered - {id}, rest);
    DrainFailsIff(registered - {id}, rest, names[id], how);
  }

  /** The grace period expires while one of these is registered and none of them failed before. */
  ghost predicate Overruns(names: Names, events: seq<Event>) {
    exists k | 0 <= k < |events| :: events[k].GraceExpired? && NoneFails(names, events[..k]) && Remaining(names, events[..k]) != map[]
  }

  /** Every one of these that ends finishes. */
  predicate NoneFails(names: Names, events: seq<Event>) {
    forall i | 0 <= i < |events| && events[i].Join? && !events[i].how.Finished? :: events[i].id !in Remaining(names, events[..i])
  }

  /** Without the first event, and what it takes with it, all is said of the later ones alone. */
  lemma ShiftBy(names: Names, left: Names, events: seq<Event>, k: nat)
    requires 1 <= k <= |events|
    requires left == if events[0].Join? && events[0].how.Finished? then names - {events[0].id} else names
    ensures Remaining(names, events[..k]) == Remaining(left, events[1..][..k - 1])
    ensures NoneFails(names, events[..k]) <==>
      !(events[0].Join? && !events[0].how.Finished? && events[0].id in names) && NoneFails(left, events[1..][..k - 1])
  {
    var (all, rest) := (events[..k], events[1..][..k - 1]);
    assert all[1..] == rest && all[0] == events[0];
    forall i | 1 <= i <= k ensures Remaining(names, all[..i]) == Remaining(left, rest[..i - 1]) {
      assert all[..i][1..] == rest[..i - 1] && all[..i][0] == events[0];
    }
    assert all[..k] == all && rest[..k - 1] == rest && all[..0] == [];
    if NoneFails(left, rest) {
      forall i | 1 <= i < k && all[i].Join? && !all[i].how.Finished? ensures all[i].id !in Remaining(names, all[..i]) {
        assert rest[i - 1] == all[i];
      }
    }
    if NoneFails(names, all) {
      forall i | 0 <= i < k - 1 && rest[i].Join? && !rest[i].how.Finished? ensures rest[i].id !in Remaining(left, rest[..i]) {
        assert rest[i] == all[i + 1];
      }
    }
  }

  lemma OverrunsShift(names: Names, left: Names, events: seq<Event>)
    requires events != [] && !events[0].GraceExpired?
    requires left == if events[0].Join? && events[0].how.Finished? then names - {events[0].id} else names
    ensures Overruns(names, events) <==>
      !(events[0].Join? && !events[0].how.Finished? && events[0].id in names) && Overruns(left, events[1..])
  {
    hide NoneFails, Remaining;
    var rest := events[1..];
    if Overruns(names, events) {
      var k :| 0 <= k < |events| && events[k].GraceExpired? && NoneFails(names, events[..k]) && Remaining(names, events[..k]) != map[];
      ShiftBy(names, left, events, k);
      assert rest[k - 1] == events[k];
    }
    if Overruns(left, rest) {
      var k :| 0 <= k < |rest| && rest[k].GraceExpired? && NoneFails(left, rest[..k]) && Remaining(left, rest[..k]) != map[];
      ShiftBy(names, left, events, k + 1);
      assert events[k + 1] == rest[k];
    }
  }

  lemma {:induction false} DrainTimesOutIff(names: Names, events: seq<Event>)
    ensures DrainOf(names, events).FailsWith(ShutdownTimedOut) <==> Overruns(names, events)
    decreases |events|
  {
    if names == map[] || events == [] {
    } else if events[0].GraceExpired? {
      assert events[..0] == [];
    } else {
      var left := if events[0].Join? && events[0].how.Finished? then names - {events[0].id} else names;
      OverrunsShift(names, left, events);
      DrainTimesOutIff(left, events[1..]);
      if events[0].Join? && events[0].id !in names { assert left == names; }
    }
  }

  /**
   * After any undisturbed beginning, what starts the shutdown is an answer of the source or a failure; the run
   * then reports a timeout exactly when the grace period expires before a failure and with a task still
   * registered, or when that is the source's own answer and everything drains in time.
   */
  lemma TimeoutIsReportedIff(names: Names, before: seq<Event>, trigger: Event, rest: seq<Event>)
    requires Undisturbed(names, before)
    requires trigger.Shutdown? || (trigger.Join? && !trigger.how.Finished? && trigger.id in Remaining(names, before))
    ensures var left := if trigger.Join? then Remaining(names, before) - {trigger.id} else Remaining(names, before);
      RunOf(names, before + ([trigger] + rest)).outcome == Some(Failure(ShutdownTimedOut)) <==>
        || Overruns(left, rest)
        || (trigger == Shutdown(Failure(ShutdownTimedOut)) && forall task | task in left :: JoinsInTime(rest, task))
  {
    hide Overruns;
    var (registered, events) := (Remaining(names, before), [trigger] + rest);
    var left := if trigger.Join? then registered - {trigger.id} else registered;
    UndisturbedRuns(names, before, events);
    assert events[0] == trigger && events[1..] == rest;
    DrainSucceedsIff(left, rest);
    DrainTimesOutIff(left, rest);
  }

  /** Before a shutdown or a failure a run has no outcome, whatever grace period is imagined. */
  lemma UndisturbedRunsGoOn(names: Names, events: seq<Event>)
    requires Undisturbed(names, events)
    ensures RunOf(names, events) == Ran(None, Remaining(names, events), false)
  {
    UndisturbedRuns(names, events, []);
    assert events + [] == events;
  }

  /** Two failures of three tasks: the second is reported, and the third task stays registered. */
  lemma SecondFailureMasksFirst()
    ensures var names := map[0 := "publisher", 1 := "consumer", 2 := "health"];
      RunOf(names, [Join(0, Failed), Join(1, Failed)]) == Ran(Some(Failure(TaskFailed("consumer"))), map[2 := "health"], true)
  {
    var names := map[0 := "publisher", 1 := "consumer", 2 := "health"];
    var others := map[1 := "consumer", 2 := "health"];
    var events := [Join(0, Failed), Join(1, Failed)];
    var rest := [Join(1, Failed)];
    assert events[1..] == rest;
    assert names - {0} == others && others - {1} == map[2 := "health"];
    assert 1 in others && rest[0] == Join(1, Failed);
    assert DrainOf(others, rest) == Drained(Some(Failure(TaskFailed("consumer"))), others - {1});
  }
}
