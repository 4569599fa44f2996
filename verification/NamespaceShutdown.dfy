/** Shutting a namespace down while upgrade requests keep coming: one task per request, the task set behind its mutex,
    and the status that each task checks before it creates a connection. A task's number is also its connection's. */
module NamespaceShutdown {
  datatype Status = Running | Stopping | Stopped

  /** `TServing` covers everything from the creation of the connection up to its cleanup. */
  datatype Task = TUpgrading | TUpgraded | TRefused | TServing | TCleaning | TDone

  datatype Shutdown = Idle | CloseAll | LockTasks | Joining

  /** `accepted` and `cleaned` are history: connections created, and cleaned up, so far; and so is `dropped`: the caller of
      a `shutdown` has dropped it after it stored Stopping. */
  datatype State = State(status: Status, shutdown: Shutdown, tasks: map<nat, Task>, next: nat,
                         indexed: set<nat>, accepted: set<nat>, cleaned: set<nat>, dropped: bool)

  const NEW_STATE := State(Running, Idle, map[], 0, {}, {}, {}, false)

  datatype Step =
    | Request
    | Upgrade(t: nat, ok: bool) | Check(t: nat, runtimeRunning: bool) | Refuse(t: nat)
    | Ready(t: nat) | CleanupStart(t: nat) | CleanupEnd(t: nat)
    | ShutdownBegin | AllClosed | Locked | JoinNext(t: nat) | ShutdownEnd | ShutdownDrop

  predicate At(s: State, t: nat, task: Task)
  {
    t in s.tasks && s.tasks[t] == task
  }

  /** Spawning needs the mutex of the task set, which the draining `shutdown` holds. Two shutdowns never overlap. */
  predicate Can(s: State, step: Step)
  {
    match step
    case Request => !s.shutdown.Joining?
    case Upgrade(t, _) => At(s, t, TUpgrading)
    case Check(t, _) => At(s, t, TUpgraded)
    case Refuse(t) => At(s, t, TRefused)
    case Ready(t) => At(s, t, TServing)
    case CleanupStart(t) => At(s, t, TServing)
    case CleanupEnd(t) => At(s, t, TCleaning)
    case ShutdownBegin => s.shutdown.Idle?
    case AllClosed => s.shutdown.CloseAll?
    case Locked => s.shutdown.LockTasks?
    case JoinNext(t) => s.shutdown.Joining? && At(s, t, TDone)
    case ShutdownEnd => s.shutdown.Joining? && s.tasks == map[]
    case ShutdownDrop => !s.shutdown.Idle?
  }

  function Do(s: State, step: Step): State
    requires Can(s, step)
  {
    match step
    case Request => s.(tasks := s.tasks[s.next := TUpgrading], next := s.next + 1)
    case Upgrade(t, ok) => s.(tasks := s.tasks[t := if ok then TUpgraded else TDone])
    case Check(t, runtimeRunning) =>
      if runtimeRunning && s.status == Running then s.(tasks := s.tasks[t := TServing], accepted := s.accepted + {t})
      else s.(tasks := s.tasks[t := TRefused])
    case Refuse(t) => s.(tasks := s.tasks[t := TDone])
    case Ready(t) => s.(indexed := s.indexed + {t})
    case CleanupStart(t) => s.(tasks := s.tasks[t := TCleaning], indexed := s.indexed - {t})
    case CleanupEnd(t) => s.(tasks := s.tasks[t := TDone], cleaned := s.cleaned + {t})
    case ShutdownBegin => if s.status == Running then s.(status := Stopping, shutdown := CloseAll) else s
    case AllClosed => s.(shutdown := LockTasks)
    case Locked => s.(shutdown := Joining)
    case JoinNext(t) => s.(tasks := s.tasks - {t})
    case ShutdownEnd => s.(status := Stopped, shutdown := Idle)
    case ShutdownDrop => s.(shutdown := Idle, dropped := true)  // the mutex is released, the status stays Stopping
  }

  predicate Run(s: State, steps: seq<Step>, s': State)
    decreases |steps|
  {
    if steps == [] then s == s' else Can(s, steps[0]) && Run(Do(s, steps[0]), steps[1..], s')
  }

  ghost predicate Inv(s: State)
  {
    && (s.status == Stopping <==> !s.shutdown.Idle? || s.dropped)
    && (s.dropped ==> s.shutdown.Idle?)
    && (forall t :: t in s.tasks ==> t < s.next)
    && (forall t :: t in s.accepted ==> t < s.next)
    && (forall t :: t in s.indexed ==> At(s, t, TServing))
    && s.cleaned <= s.accepted
    && (forall t :: t in s.accepted ==> !At(s, t, TUpgrading) && !At(s, t, TUpgraded) && !At(s, t, TRefused))
    && (forall t :: t in s.accepted && t !in s.cleaned ==> At(s, t, TServing) || At(s, t, TCleaning))
    && (forall t :: t in s.tasks && (s.tasks[t] == TServing || s.tasks[t] == TCleaning) ==> t in s.accepted - s.cleaned)
    && (s.status == Stopped ==> forall t :: t in s.tasks ==> s.tasks[t] != TServing && s.tasks[t] != TCleaning)
  }

  lemma InvStep(s: State, step: Step)
    requires Inv(s) && Can(s, step)
    ensures Inv(Do(s, step))
  {
    if OfShutdown(step) {
      ShutdownStep(s, step);
    } else if step.Request? || step.Upgrade? || step.Check? || step.Refuse? {
      EntryStep(s, step);
    } else {
      ServingStep(s, step);
    }
  }

  predicate OfShutdown(step: Step)
  {
    step.ShutdownBegin? || step.AllClosed? || step.Locked? || step.JoinNext? || step.ShutdownEnd? || step.ShutdownDrop?
  }

  lemma ShutdownStep(s: State, step: Step)
    requires Inv(s) && Can(s, step) && OfShutdown(step)
    ensures Inv(Do(s, step))
  {
  }

  lemma EntryStep(s: State, step: Step)
    requires Inv(s) && Can(s, step) && (step.Request? || step.Upgrade? || step.Check? || step.Refuse?)
    ensures Inv(Do(s, step))
  {
  }

  lemma ServingStep(s: State, step: Step)
    requires Inv(s) && Can(s, step) && (step.Ready? || step.CleanupStart? || step.CleanupEnd?)
    ensures Inv(Do(s, step))
  {
  }

  lemma {:induction false} InvRun(s: State, steps: seq<Step>, s': State)
    requires Inv(s) && Run(s, steps, s')
    ensures Inv(s')
    decreases |steps|
  {
    if steps != [] {
      InvStep(s, steps[0]);
      InvRun(Do(s, steps[0]), steps[1..], s');
    }
  }

  /** The `unreachable!` arm of a `shutdown` that does not overlap another is reached if and only if the caller of an
      earlier one dropped it after it had stored Stopping. */
  lemma ArmReachedIffDropped(steps: seq<Step>, s: State)
    requires Run(NEW_STATE, steps, s) && Can(s, ShutdownBegin)
    ensures s.status == Stopping <==> s.dropped
  {
    InvRun(NEW_STATE, steps, s);
  }

  lemma DroppedFollows(s: State, step: Step)
    requires Can(s, step)
    ensures Do(s, step).dropped == (s.dropped || step.ShutdownDrop?)
  {
  }

  lemma {:induction false} NeverDropped(s: State, steps: seq<Step>, s': State)
    requires Run(s, steps, s') && !s.dropped && forall i :: 0 <= i < |steps| ==> !steps[i].ShutdownDrop?
    ensures !s'.dropped
    decreases |steps|
  {
    if steps != [] {
      assert !steps[0].ShutdownDrop?;
      DroppedFollows(s, steps[0]);
      NeverDropped(Do(s, steps[0]), steps[1..], s');
    }
  }

  /** So it is never reached while every `shutdown` runs to completion. */
  lemma ShutdownFindsRunningOrStopped(steps: seq<Step>, s: State)
    requires Run(NEW_STATE, steps, s) && Can(s, ShutdownBegin) && forall i :: 0 <= i < |steps| ==> !steps[i].ShutdownDrop?
    ensures s.status == Running || s.status == Stopped
  {
    NeverDropped(NEW_STATE, steps, s);
    ArmReachedIffDropped(steps, s);
  }

  /** And once it has been reached it always will be, and no connection is accepted any more. */
  lemma {:induction false} DroppedForGood(s: State, steps: seq<Step>, s': State)
    requires Inv(s) && s.dropped && Run(s, steps, s')
    ensures s'.dropped && s'.shutdown.Idle? && s'.status == Stopping && s'.accepted == s.accepted
    decreases |steps|
  {
    if steps != [] {
      InvStep(s, steps[0]);
      DroppedFollows(s, steps[0]);
      DroppedForGood(Do(s, steps[0]), steps[1..], s');
    }
  }

  /** When the status becomes Stopped, every connection ever accepted has been cleaned up and none is indexed. */
  lemma StoppedMeansCleanedUp(steps: seq<Step>, s: State)
    requires Run(NEW_STATE, steps, s) && s.status == Stopped
    ensures s.accepted == s.cleaned && s.indexed == {}
  {
    InvRun(NEW_STATE, steps, s);
    assert forall t :: t in s.accepted ==> t in s.cleaned;
    assert forall t :: t in s.indexed ==> At(s, t, TServing);
    assert s.indexed == {};
  }

  /** And so it stays: whatever requests are spawned later, no further connection is accepted or indexed. */
  lemma {:induction false} StoppedForGood(s: State, steps: seq<Step>, s': State)
    requires Inv(s) && s.status == Stopped && Run(s, steps, s')
    ensures s'.status == Stopped && s'.accepted == s.accepted && s'.indexed == {}
    decreases |steps|
  {
    if steps != [] {
      InvStep(s, steps[0]);
      StoppedForGood(Do(s, steps[0]), steps[1..], s');
    } else {
      assert forall t :: t in s.indexed ==> At(s, t, TServing);
      assert s.indexed == {};
    }
  }

  /** Once the drain has begun, the set of tasks only shrinks, and it can end only by joining every one of them. */
  lemma {:induction false} DrainJoinsEveryTask(s: State, steps: seq<Step>, s': State)
    requires Inv(s) && s.shutdown.Joining? && Run(s, steps, s') && s'.shutdown.Joining?
    requires forall i :: 0 <= i < |steps| ==> !steps[i].ShutdownEnd?
    ensures s'.tasks.Keys <= s.tasks.Keys && s'.accepted - s.accepted <= s.tasks.Keys
    decreases |steps|
  {
    if steps != [] {
      InvStep(s, steps[0]);
      if steps[0].ShutdownDrop? {
        DroppedForGood(Do(s, steps[0]), steps[1..], s');
      } else {
        DrainJoinsEveryTask(Do(s, steps[0]), steps[1..], s');
      }
    }
  }

  // ---- The namespace's status and task set as the source updates them ----

  ghost predicate Reachable(s: State)
  {
    exists steps :: Run(NEW_STATE, steps, s)
  }

  lemma {:induction false} RunAppend(s: State, steps: seq<Step>, s': State, step: Step)
    requires Run(s, steps, s') && Can(s', step)
    ensures Run(s, steps + [step], Do(s', step))
    decreases |steps|
  {
    if steps == [] {
      assert Run(Do(s, step), [], Do(s, step));
    } else {
      RunAppend(Do(s, steps[0]), steps[1..], s', step);
      assert (steps + [step])[1..] == steps[1..] + [step];
    }
  }

  lemma StatusHolds(s: State)
    requires Reachable(s)
    ensures s.status == Stopping <==> !s.shutdown.Idle? || s.dropped
    ensures s.dropped ==> s.shutdown.Idle?
    ensures s.status == Stopped ==> s.accepted == s.cleaned && s.indexed == {}
  {
    var steps :| Run(NEW_STATE, steps, s);
    InvRun(NEW_STATE, steps, s);
    if s.status == Stopped {
      StoppedMeansCleanedUp(steps, s);
    }
  }

  /** The part of the namespace that `shutdown` works on; a ghost `view` carries the state of the machine, and other
      tasks may act wherever `shutdown` awaits. */
  class WsIoServerNamespaceTasks {
    var status: Status
    var connectionTaskSet: set<nat>
    var nextTask: nat
    ghost var view: State

    ghost predicate Valid()
      reads this
    {
      Reachable(view) && status == view.status && connectionTaskSet == view.tasks.Keys && nextTask == view.next
    }

    constructor ()
      ensures Valid() && view == NEW_STATE
    {
      status := Running;
      connectionTaskSet := {};
      nextTask := 0;
      view := NEW_STATE;
      new;
      assert Run(NEW_STATE, [], NEW_STATE);
    }

    ghost method Act(step: Step)
      requires Reachable(view) && Can(view, step)
      modifies this`view
      ensures view == Do(old(view), step) && Reachable(view)
    {
      var steps :| Run(NEW_STATE, steps, view);
      RunAppend(NEW_STATE, steps, view, step);
      view := Do(view, step);
    }

    method OthersAct()
      requires Valid()
      modifies this
      ensures Valid() && view.shutdown == old(view.shutdown)
    {
    }

    /** One task per upgrade request; the mutex of the task set is free unless a `shutdown` drains it. */
    method HandleOnUpgradeRequest()
      requires Valid() && !view.shutdown.Joining?
      modifies this`connectionTaskSet, this`nextTask, this`view
      ensures Valid() && connectionTaskSet == old(connectionTaskSet) + {old(nextTask)}
      ensures view == Do(old(view), Request)
    {
      connectionTaskSet := connectionTaskSet + {nextTask};
      nextTask := nextTask + 1;
      Act(Request);
    }

    /** Returns with every connection ever accepted cleaned up and none indexed; it panics, in the `unreachable!` arm,
        exactly if an earlier one was dropped on the way. */
    method Shutdown() returns (panicked: bool)
      requires Valid() && view.shutdown.Idle?
      modifies this
      ensures Valid() && view.shutdown.Idle? && panicked == old(view.dropped)
      ensures panicked ==> view == old(view)
      ensures !panicked ==> status == Stopped && view.accepted == view.cleaned && view.indexed == {}
    {
      StatusHolds(view);
      panicked := status == Stopping;
      if status == Running {
        Act(ShutdownBegin);
        status := Stopping;
        OthersAct();
        Act(AllClosed);
        OthersAct();
        Act(Locked);
        Drain();
        StatusHolds(view);
      }
    }

    /** The loop over `join_next`, with the task set locked. */
    method Drain()
      requires Valid() && view.shutdown.Joining?
      modifies this
      ensures Valid() && status == Stopped && view.shutdown.Idle? && connectionTaskSet == {}
    {
      while connectionTaskSet != {}
        invariant Valid() && view.shutdown.Joining?
        decreases |connectionTaskSet|
      {
        var t := AwaitEnd();
        connectionTaskSet := connectionTaskSet - {t};
        Act(JoinNext(t));
      }
      Act(ShutdownEnd);
      status := Stopped;
    }

    /** Some task of the set ends; others may have moved on. */
    method AwaitEnd() returns (t: nat)
      requires Valid() && view.shutdown.Joining? && connectionTaskSet != {}
      modifies this`view
      ensures Valid() && view.shutdown.Joining? && At(view, t, TDone)
    {
      t :| t in connectionTaskSet;
      Finish(t);
    }

    /** From wherever a task stands it can run to its end. */
    ghost method Finish(t: nat)
      requires Reachable(view) && t in view.tasks
      modifies this`view
      ensures Reachable(view) && At(view, t, TDone) && view.tasks.Keys == old(view.tasks.Keys)
      ensures view.shutdown == old(view.shutdown) && view.status == old(view.status) && view.next == old(view.next)
    {
      match view.tasks[t] {
        case TUpgrading => Act(Upgrade(t, false));
        case TUpgraded => Act(Check(t, false)); Act(Refuse(t));
        case TRefused => Act(Refuse(t));
        case TServing => Act(CleanupStart(t)); Act(CleanupEnd(t));
        case TCleaning => Act(CleanupEnd(t));
        case TDone =>
      }
    }
  }
}
