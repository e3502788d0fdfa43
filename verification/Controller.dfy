/** The process-wide remote controller under any interleaving of session streams, setting changes
    and reloads (crates/node-agent/src/remote_control.rs:267-500, 961-1011). */
module Controller {
  import opened Basics

  type TaskId = nat

  /** The mutex-protected part. */
  datatype ControllerState = ControllerState(
    reloadInProgress: bool,
    reloadOperation: Option<Name>,
    enabled: bool,
    interval: nat,
    lastAttempt: Option<int>,
    lastSuccess: Option<int>,
    nextAttempt: Option<int>,
    lastError: Option<Name>,
    attempt: Option<nat>)

  const Initial := ControllerState(false, None, false, 0, None, None, None, None, None)

  /** A scheduler loop between two of its atomic steps. `seen` is the wake-up count at the moment it
      registered for wake-ups. */
  datatype StreamPhase =
    | Looping
    | Registered(seen: nat)
    | AwaitSetting(seen: nat)
    | Sleeping(seen: nat)
    | Trying(seen: nat)
    | AwaitSlot(seen: nat)
    | Pulling(token: nat)
    | Notifying

  datatype LeasePhase = Gated | Marked | Cleared

  datatype Task = Stream(phase: StreamPhase) | SettingChanged | Reload(lease: LeasePhase) | Gone

  // ---------------------------------------------------------------- effects under the mutex

  function Configured(s: ControllerState, enabled: bool, interval: nat, now: int): ControllerState {
    if enabled then s.(enabled := true, interval := interval, nextAttempt := Some(now), lastError := None)
    else s.(enabled := false, interval := 0, nextAttempt := None)
  }

  function Begun(s: ControllerState, token: nat, now: int): ControllerState {
    s.(attempt := Some(token), lastAttempt := Some(now), nextAttempt := None)
  }

  /** `finish_periodic_attempt` empties the slot without asking who filled it. */
  function Ended(s: ControllerState, error: Option<Name>, cancelled: bool, now: int): ControllerState {
    var noted :=
      if error.None? then s.(lastSuccess := Some(now), lastError := None)
      else if !s.enabled || cancelled then s.(lastError := None)
      else s.(lastError := error);
    var due := s.enabled && s.nextAttempt.None?;
    noted.(attempt := None, nextAttempt := if due then Some(now + s.interval) else s.nextAttempt)
  }

  // ---------------------------------------------------------------- invariants

  /** Enabled with no attempt has a next attempt; disabled has none. */
  predicate Scheduled(s: ControllerState) {
    && (s.enabled && s.attempt.None? ==> s.nextAttempt.Some?)
    && (!s.enabled ==> s.nextAttempt.None?)
  }

  predicate IsPulling(t: Task) {
    t.Stream? && t.phase.Pulling?
  }

  /** At most one unfinished attempt exists, and it is the one in the slot. */
  ghost predicate Slot(s: ControllerState, tasks: seq<Task>, owner: Option<TaskId>) {
    && (owner.Some? <==> s.attempt.Some?)
    && (owner.Some? ==> owner.value < |tasks| && tasks[owner.value] == Stream(Pulling(s.attempt.value)))
    && (forall i | 0 <= i < |tasks| && IsPulling(tasks[i]) :: owner == Some(i))
  }

  /** Only the holder of the gate is a live lease, and the flag is up only while it is marked. */
  ghost predicate Leases(s: ControllerState, tasks: seq<Task>, gate: Option<TaskId>) {
    && (gate.Some? ==> gate.value < |tasks| && tasks[gate.value].Reload?)
    && (forall i | 0 <= i < |tasks| && tasks[i].Reload? :: gate == Some(i))
    && (s.reloadInProgress <==> gate.Some? && tasks[gate.value] == Reload(Marked))
    && (s.reloadOperation.Some? ==> s.reloadInProgress)
  }

  /** A wake-up that was decided on and not yet delivered. */
  predicate Owes(t: Task) {
    t.SettingChanged? || t == Stream(Notifying)
  }

  ghost predicate Owing(tasks: seq<Task>) {
    exists i :: 0 <= i < |tasks| && Owes(tasks[i])
  }

  predicate SeenBy(t: Task, epoch: nat) {
    t.Stream? && (t.phase.Registered? || t.phase.AwaitSetting? || t.phase.Sleeping? || t.phase.Trying?
      || t.phase.AwaitSlot?) ==>
      t.phase.seen <= epoch
  }

  /** A stream waits without a timer only while there is nothing for it to do, or its wake-up is on
      the way. */
  ghost predicate Awake(s: ControllerState, tasks: seq<Task>, epoch: nat) {
    forall i | 0 <= i < |tasks| ::
      && SeenBy(tasks[i], epoch)
      && (tasks[i] == Stream(AwaitSetting(epoch)) ==> !s.enabled || Owing(tasks))
      && (tasks[i] == Stream(AwaitSlot(epoch)) ==> !s.enabled || s.attempt.Some? || Owing(tasks))
  }

  lemma OwingKept(tasks: seq<Task>, id: TaskId, t: Task)
    requires id < |tasks| && (Owes(tasks[id]) ==> Owes(t))
    ensures Owing(tasks) ==> Owing(tasks[id := t])
    ensures Owes(t) ==> Owing(tasks[id := t])
  {
    if Owing(tasks) {
      var i :| 0 <= i < |tasks| && Owes(tasks[i]);
      assert Owes(tasks[id := t][i]);
    }
    if Owes(t) {
      assert Owes(tasks[id := t][id]);
    }
  }

  lemma OwingMore(tasks: seq<Task>, t: Task)
    ensures Owing(tasks) || Owes(t) ==> Owing(tasks + [t])
  {
    if Owing(tasks) {
      var i :| 0 <= i < |tasks| && Owes(tasks[i]);
      assert Owes((tasks + [t])[i]);
    } else if Owes(t) {
      assert Owes((tasks + [t])[|tasks|]);
    }
  }

  datatype Step =
    | OpenStream
    | SetPeriodic(enabled: bool, interval: nat)
    | TakeGate
    | Advance(task: TaskId, error: Option<Name>, cancelled: bool, operation: Name)
    | Abort(task: TaskId)

  class RemoteController {
    var state: ControllerState
    var gate: Option<TaskId>
    var epoch: nat
    var tasks: seq<Task>
    var tokens: nat
    ghost var owner: Option<TaskId>

    ghost predicate Valid() reads this {
      Scheduled(state) && Slot(state, tasks, owner) && Leases(state, tasks, gate) && Awake(state, tasks, epoch)
    }

    constructor ()
      ensures Valid() && state == Initial && tasks == []
    {
      state, gate, epoch, tasks, tokens, owner := Initial, None, 0, [], 0, None;
    }

    /** A task moves on without touching anything shared. */
    method Move(id: TaskId, t: Task)
      requires Valid() && id < |tasks| && tasks[id].Stream? && !IsPulling(tasks[id]) && !IsPulling(t) && !t.Reload?
      requires !Owes(tasks[id])
      requires SeenBy(t, epoch)
      requires t == Stream(AwaitSetting(epoch)) ==> !state.enabled
      requires t == Stream(AwaitSlot(epoch)) ==> !state.enabled || state.attempt.Some?
      modifies this`tasks
      ensures Valid() && tasks == old(tasks)[id := t]
    {
      OwingKept(tasks, id, t);
      tasks := tasks[id := t];
    }

    method Arrive(t: Task)
      requires Valid() && t == Stream(Looping)
      modifies this`tasks
      ensures Valid() && tasks == old(tasks) + [t]
    {
      OwingMore(tasks, t);
      tasks := tasks + [t];
    }

    /** `set_periodic`; the wake-up follows once the mutex is free. */
    method SetPeriodic(enabled: bool, interval: nat, now: int)
      requires Valid()
      modifies this`state, this`tasks
      ensures Valid() && state == Configured(old(state), enabled, interval, now)
      ensures tasks == old(tasks) + [SettingChanged]
    {
      state := Configured(state, enabled, interval, now);
      OwingMore(tasks, SettingChanged);
      tasks := tasks + [SettingChanged];
    }

    /** `notify_waiters`: every registered stream sees it. */
    method Notify(id: TaskId)
      requires Valid() && id < |tasks| && Owes(tasks[id])
      modifies this`tasks, this`epoch
      ensures Valid() && epoch == old(epoch) + 1
      ensures tasks == old(tasks)[id := if old(tasks)[id].SettingChanged? then Gone else Stream(Looping)]
    {
      epoch := epoch + 1;
      tasks := tasks[id := if tasks[id].SettingChanged? then Gone else Stream(Looping)];
    }

    /** `begin_periodic_attempt`. */
    method Begin(id: TaskId, now: int)
      requires Valid() && id < |tasks| && tasks[id].Stream? && tasks[id].phase.Trying?
      modifies this`state, this`tasks, this`tokens, this`owner
      ensures Valid() && id < |tasks| && tasks == old(tasks)[id := tasks[id]]
      ensures if old(state).enabled && old(state).attempt.None? then IsPulling(tasks[id])
        && state == Begun(old(state), tasks[id].phase.token, now)
              else tasks[id] == Stream(AwaitSlot(old(tasks)[id].phase.seen)) && state == old(state)
    {
      if !state.enabled || state.attempt.Some? {
        Move(id, Stream(AwaitSlot(tasks[id].phase.seen)));
        return;
      }
      var token := tokens;
      tokens := tokens + 1;
      OwingKept(tasks, id, Stream(Pulling(token)));
      state := Begun(state, token, now);
      tasks := tasks[id := Stream(Pulling(token))];
      owner := Some(id);
    }

    /** `PeriodicAttempt::finish`, and its drop guard with an error and `cancelled`. The slot it
        empties is its own. */
    method Finish(id: TaskId, error: Option<Name>, cancelled: bool, now: int)
      requires Valid() && id < |tasks| && IsPulling(tasks[id])
      modifies this`state, this`tasks, this`owner
      ensures Valid() && old(state).attempt == Some(old(tasks)[id].phase.token)
      ensures state == Ended(old(state), error, cancelled, now) && tasks == old(tasks)[id := Stream(Notifying)]
    {
      OwingKept(tasks, id, Stream(Notifying));
      state := Ended(state, error, cancelled, now);
      tasks := tasks[id := Stream(Notifying)];
      owner := None;
    }

    /** `begin_reload`: the gate first, then the flag. */
    method TryGate() returns (ok: bool)
      requires Valid()
      modifies this`gate, this`tasks
      ensures Valid() && ok == old(gate).None?
      ensures tasks == if ok then old(tasks) + [Reload(Gated)] else old(tasks)
    {
      ok := gate.None?;
      if ok {
        OwingMore(tasks, Reload(Gated));
        gate := Some(|tasks|);
        tasks := tasks + [Reload(Gated)];
      }
    }

    /** The lease's own steps: raise the flag, lower it, and only then free the gate. */
    method StepLease(id: TaskId, operation: Name)
      requires Valid() && id < |tasks| && tasks[id].Reload?
      modifies this`state, this`gate, this`tasks
      ensures Valid() && old(gate) == Some(id)
      ensures state.reloadInProgress <==> old(tasks)[id].lease.Gated?
      ensures gate == if old(tasks)[id].lease.Cleared? then None else old(gate)
    {
      match tasks[id].lease {
        case Gated =>
          OwingKept(tasks, id, Reload(Marked));
          state := state.(reloadInProgress := true, reloadOperation := Some(operation));
          tasks := tasks[id := Reload(Marked)];
        case Marked =>
          OwingKept(tasks, id, Reload(Cleared));
          state := state.(reloadInProgress := false, reloadOperation := None);
          tasks := tasks[id := Reload(Cleared)];
        case Cleared =>
          OwingKept(tasks, id, Gone);
          gate := None;
          tasks := tasks[id := Gone];
      }
    }

    /** One step of a scheduler loop (`run_periodic_user_pull`). */
    method StepStream(id: TaskId, error: Option<Name>, cancelled: bool, now: int)
      requires Valid() && id < |tasks| && tasks[id].Stream?
      modifies this
      ensures Valid() && |tasks| == |old(tasks)| && tasks == old(tasks)[id := tasks[id]]
      ensures old(state).attempt != state.attempt ==> IsPulling(old(tasks)[id]) || IsPulling(tasks[id])
    {
      hide Slot, Leases, Owing;
      SeenAt(id);
      match tasks[id].phase {
        case Looping => Move(id, Stream(Registered(epoch)));
        case Registered(seen) =>
          if !state.enabled {
            Move(id, Stream(AwaitSetting(seen)));
          } else if state.nextAttempt.Some? && state.nextAttempt.value > now {
            Move(id, Stream(Sleeping(seen)));
          } else {
            Move(id, Stream(Trying(seen)));
          }
        case AwaitSetting(seen) =>
          if seen < epoch {
            Move(id, Stream(Looping));
          }
        case Sleeping(seen) =>
          Move(id, if seen < epoch then Stream(Looping) else Stream(Trying(seen)));
        case Trying(_) => Begin(id, now);
        case AwaitSlot(seen) =>
          if seen < epoch {
            Move(id, Stream(Looping));
          }
        case Pulling(_) => Finish(id, error, cancelled, now);
        case Notifying => Notify(id);
      }
    }

    lemma SeenAt(id: TaskId)
      requires Valid() && id < |tasks|
      ensures SeenBy(tasks[id], epoch)
    {
    }

    /** A stream task is dropped: an unfinished attempt is finished by its drop guard. */
    method AbortStream(id: TaskId, now: int)
      requires Valid() && id < |tasks| && tasks[id].Stream?
      modifies this
      ensures Valid() && |tasks| == |old(tasks)| && tasks == old(tasks)[id := tasks[id]] && !IsPulling(tasks[id])
    {
      hide Slot, Leases, Owing;
      if IsPulling(tasks[id]) {
        Finish(id, Some(0), true, now);
      } else if !Owes(tasks[id]) {
        Move(id, Gone);
      }
    }

    /** Every interleaving of every number of streams, setting changes and reloads. */
    method Interleave(steps: seq<Step>, clock: seq<int>)
      requires Valid() && |clock| == |steps|
      modifies this
      ensures Valid()
    {
      hide Valid, Slot, Leases, Owing;
      for i := 0 to |steps|
        invariant Valid()
      {
        match steps[i] {
          case OpenStream => Arrive(Stream(Looping));
          case SetPeriodic(enabled, interval) => SetPeriodic(enabled, interval, clock[i]);
          case TakeGate =>
            var ok := TryGate();
          case Advance(id, error, cancelled, operation) =>
            if id < |tasks| {
              match tasks[id] {
                case Stream(_) => StepStream(id, error, cancelled, clock[i]);
                case SettingChanged => Notify(id);
                case Reload(_) => StepLease(id, operation);
                case Gone =>
              }
            }
          case Abort(id) =>
            if id < |tasks| && tasks[id].Stream? {
              AbortStream(id, clock[i]);
            }
        }
      }
    }
  }

  /** What the invariant means for an observer of any reachable state. */
  lemma Observed(c: RemoteController, i: TaskId, j: TaskId)
    requires c.Valid() && i < |c.tasks| && j < |c.tasks|
    ensures IsPulling(c.tasks[i]) && IsPulling(c.tasks[j]) ==> i == j && c.state.attempt == Some(c.tasks[i].phase.token)
    ensures c.tasks[i].Reload? && c.tasks[j].Reload? ==> i == j
    ensures c.state.reloadInProgress ==> exists k :: 0 <= k < |c.tasks| && c.tasks[k] == Reload(Marked)
    ensures c.state.enabled && c.state.attempt.None? ==> c.state.nextAttempt.Some?
    ensures !c.state.enabled ==> c.state.nextAttempt.None?
  {
  }

  /** No wake-up is lost: a stream that waits for the slot and was not woken finds it taken, the
      pull disabled, or a wake-up still to be delivered. */
  lemma NoLostWakeup(c: RemoteController, i: TaskId)
    requires c.Valid() && i < |c.tasks| && c.tasks[i].Stream?
    requires (c.tasks[i].phase.AwaitSetting? || c.tasks[i].phase.AwaitSlot?) && c.tasks[i].phase.seen >= c.epoch
    requires !Owing(c.tasks)
    ensures c.state.enabled ==> c.tasks[i].phase.AwaitSlot? && exists k :: 0 <= k < |c.tasks| && IsPulling(c.tasks[k])
  {
    assert SeenBy(c.tasks[i], c.epoch);
  }
}
