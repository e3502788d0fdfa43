/** External applies, rule-set refreshes and close as interleaved atomic steps over the
    `configuration` and `apply` locks (crates/node-agent/src/runtime.rs:732-767, 791-804, 970-1055,
    2236-2251, 2454-2483). */
module Watcher {
  import opened Basics

  type TaskId = nat

  datatype ExternalPhase = Queued | Configured | Prepared | Locked | Applying | Published
  datatype RefreshPhase = Sleeping | Waiting | Admitted | Fetching | Fetched(ok: bool) | Entered(ok: bool) | Refreshing
  datatype ClosePhase = Requested | Acquired | Stopping

  /** A task between two of its await points. A refresher works for the external apply `origin`. */
  datatype Task =
    | External(remote: bool, apply: ExternalPhase)
    | Refresher(generation: nat, origin: TaskId, refresh: RefreshPhase)
    | Closer(close: ClosePhase)
    | Finished

  datatype Event = ExternalCommit(task: TaskId) | RefreshCommit(origin: TaskId) | CloseHeld

  datatype State = State(
    tasks: seq<Task>,
    configuration: Option<TaskId>,
    applyLock: Option<TaskId>,
    generation: nat,
    watched: bool,
    closing: bool,
    closed: bool,
    log: seq<Event>)

  const Init := State([], None, None, 0, false, false, false, [])

  /** What can happen next: a caller arrives, or a task runs to its next await with an outcome. */
  datatype Step = NewExternal(remote: bool) | BeginClose | NewClose | Advance(task: TaskId, ok: bool)

  predicate Active(s: State, generation: nat) {
    s.generation == generation && s.watched && !s.closing
  }

  function With(s: State, id: TaskId, t: Task): State
    requires id < |s.tasks|
  {
    s.(tasks := s.tasks[id := t])
  }

  function Freed(s: State): State {
    s.(configuration := None, applyLock := None)
  }

  function Emit(s: State, e: Event): State {
    s.(log := s.log + [e])
  }

  /** A lock is taken only while nobody holds it. */
  function StepExternal(s: State, id: TaskId, remote: bool, phase: ExternalPhase, ok: bool): Option<State>
    requires id < |s.tasks|
  {
    match phase
    case Queued =>
      if s.closing then Some(With(s, id, Finished))
      else if s.configuration.Some? then None
      else Some(With(s, id, External(remote, Configured)).(configuration := Some(id)))
    case Configured =>
      if ok then Some(With(s, id, External(remote, Prepared))) else Some(With(s, id, Finished).(configuration := None))
    case Prepared =>
      if s.applyLock.Some? then None else Some(With(s, id, External(remote, Locked)).(applyLock := Some(id)))
    case Locked =>
      if s.closing || s.closed then Some(Freed(With(s, id, Finished)))
      else Some(With(s, id, External(remote, Applying)))
    case Applying =>
      if ok then Some(Emit(With(s, id, External(remote, Published)), ExternalCommit(id)))
      else Some(Freed(With(s, id, Finished)))
    case Published =>
      var retired := Freed(With(s, id, Finished)).(generation := s.generation + 1, watched := remote);
      Some(if remote then retired.(tasks := retired.tasks + [Refresher(retired.generation, id, Sleeping)]) else retired)
  }

  function StepRefresher(s: State, id: TaskId, g: nat, origin: TaskId, phase: RefreshPhase, ok: bool): Option<State>
    requires id < |s.tasks|
  {
    match phase
    case Sleeping =>
      if s.generation != g || !s.watched || (s.closing && !ok) then Some(With(s, id, Finished))
      else Some(With(s, id, Refresher(g, origin, Waiting)))
    case Waiting =>
      if !Active(s, g) then Some(With(s, id, Finished))
      else if s.configuration.Some? then None
      else Some(With(s, id, Refresher(g, origin, Admitted)).(configuration := Some(id)))
    case Admitted =>
      if !Active(s, g) || s.closed then Some(With(s, id, Finished).(configuration := None))
      else Some(With(s, id, Refresher(g, origin, Fetching)))
    case Fetching => Some(With(s, id, Refresher(g, origin, Fetched(ok))))
    case Fetched(fetched) =>
      if s.applyLock.Some? then None
      else Some(With(s, id, Refresher(g, origin, Entered(fetched))).(applyLock := Some(id)))
    case Entered(fetched) =>
      if !Active(s, g) || s.closed then Some(Freed(With(s, id, Finished)))
      else if !fetched then Some(Freed(With(s, id, Refresher(g, origin, Sleeping))))
      else Some(With(s, id, Refresher(g, origin, Refreshing)))
    case Refreshing =>
      var done := Freed(With(s, id, Refresher(g, origin, Sleeping)));
      Some(if ok then Emit(done, RefreshCommit(origin)) else done)
  }

  function StepCloser(s: State, id: TaskId, phase: ClosePhase): Option<State>
    requires id < |s.tasks|
  {
    match phase
    case Requested =>
      if s.applyLock.Some? then None else Some(Emit(With(s, id, Closer(Acquired)).(applyLock := Some(id)), CloseHeld))
    case Acquired => Some(With(s, id, Closer(Stopping)).(generation := s.generation + 1, watched := false))
    case Stopping => Some(With(s, id, Finished).(applyLock := None, closed := true))
  }

  /** The state after a step, or nothing when the step would have to wait. */
  function Next(s: State, step: Step): Option<State> {
    match step
    case NewExternal(remote) => Some(s.(tasks := s.tasks + [External(remote, Queued)]))
    case BeginClose => Some(s.(closing := true))
    case NewClose => Some(s.(closing := true, tasks := s.tasks + [Closer(Requested)]))
    case Advance(id, ok) =>
      if id >= |s.tasks| then None else
        match s.tasks[id]
        case External(remote, phase) => StepExternal(s, id, remote, phase, ok)
        case Refresher(g, origin, phase) => StepRefresher(s, id, g, origin, phase, ok)
        case Closer(phase) => StepCloser(s, id, phase)
        case Finished => None
  }

  /** The state after any interleaving; steps that would wait do nothing. */
  function Run(s: State, steps: seq<Step>): State {
    if steps == [] then s else
      var before := Run(s, steps[..|steps| - 1]);
      var next := Next(before, steps[|steps| - 1]);
      if next.Some? then next.value else before
  }

  // ---------------------------------------------------------------- what the log must say

  function LatestExternal(log: seq<Event>): Option<TaskId> {
    if log == [] then None else
      var last := log[|log| - 1];
      if last.ExternalCommit? then Some(last.task) else LatestExternal(log[..|log| - 1])
  }

  /** Every refresh published the topology of the external apply that was the latest at that moment. */
  ghost predicate RefreshesAreCurrent(log: seq<Event>) {
    forall i | 0 <= i < |log| && log[i].RefreshCommit? :: LatestExternal(log[..i]) == Some(log[i].origin)
  }

  ghost predicate NothingAfterClose(log: seq<Event>) {
    forall i, j | 0 <= i < j < |log| && log[i].CloseHeld? :: log[j].CloseHeld?
  }

  // ---------------------------------------------------------------- the invariant

  predicate HoldsConfiguration(t: Task) {
    || (t.External? && !t.apply.Queued?)
    || (t.Refresher? && !t.refresh.Sleeping? && !t.refresh.Waiting?)
  }

  predicate HoldsApply(t: Task) {
    || (t.External? && (t.apply.Locked? || t.apply.Applying? || t.apply.Published?))
    || (t.Refresher? && (t.refresh.Entered? || t.refresh.Refreshing?))
    || (t.Closer? && !t.close.Requested?)
  }

  ghost predicate Locks(s: State) {
    forall i | 0 <= i < |s.tasks| ::
      && (HoldsConfiguration(s.tasks[i]) <==> s.configuration == Some(i))
      && (HoldsApply(s.tasks[i]) <==> s.applyLock == Some(i))
  }

  ghost predicate Owners(s: State) {
    && (s.configuration.Some? ==> s.configuration.value < |s.tasks|)
    && (s.applyLock.Some? ==> s.applyLock.value < |s.tasks|)
  }

  /** Some external apply has committed and not yet replaced the watcher. */
  predicate HandingOver(s: State) {
    s.applyLock.Some? && s.applyLock.value < |s.tasks| && s.tasks[s.applyLock.value].External?
      && s.tasks[s.applyLock.value].apply.Published?
  }

  /** What a task may rely on. */
  ghost predicate TaskOk(s: State, id: TaskId)
    requires id < |s.tasks|
  {
    match s.tasks[id]
    case External(_, phase) =>
      && (phase.Applying? || phase.Published? ==> CloseHeld !in s.log)
      && (phase.Published? ==> LatestExternal(s.log) == Some(id))
    case Refresher(g, origin, phase) =>
      && g <= s.generation
      && (g == s.generation && s.watched && !HandingOver(s) ==> LatestExternal(s.log) == Some(origin))
      && (phase.Refreshing? ==> g == s.generation && s.watched && CloseHeld !in s.log)
    case Closer(_) => s.closing
    case Finished => true
  }

  ghost predicate Inv(s: State) {
    && Locks(s) && Owners(s) && (CloseHeld in s.log ==> s.closing)
    && (forall i | 0 <= i < |s.tasks| :: TaskOk(s, i))
    && RefreshesAreCurrent(s.log) && NothingAfterClose(s.log)
  }

  lemma LogGrows(log: seq<Event>, e: Event)
    requires RefreshesAreCurrent(log) && NothingAfterClose(log)
    requires e.RefreshCommit? ==> LatestExternal(log) == Some(e.origin)
    requires !e.CloseHeld? ==> CloseHeld !in log
    ensures RefreshesAreCurrent(log + [e]) && NothingAfterClose(log + [e])
    ensures LatestExternal(log + [e]) == if e.ExternalCommit? then Some(e.task) else LatestExternal(log)
    ensures CloseHeld in log + [e] <==> e == CloseHeld || CloseHeld in log
  {
    assert (log + [e])[..|log|] == log;
    forall i | 0 <= i < |log + [e]| && (log + [e])[i].RefreshCommit?
      ensures LatestExternal((log + [e])[..i]) == Some((log + [e])[i].origin)
    {
      assert (log + [e])[..i] == log[..i];
    }
  }

  /** A task that is not the one running keeps what it relies on. */
  lemma OthersKeep(s: State, n: State, id: TaskId, i: TaskId)
    requires Inv(s) && id < |s.tasks| <= |n.tasks| && i < |s.tasks| && i != id && n.tasks[i] == s.tasks[i]
    requires s.closing ==> n.closing
    requires n.generation > s.generation
          || (n.generation == s.generation && n.watched == s.watched
              && (HandingOver(n) || (LatestExternal(n.log) == LatestExternal(s.log) && !HandingOver(s))))
    requires HoldsApply(s.tasks[i]) ==> n.log == s.log && n.generation == s.generation && n.watched == s.watched
    ensures TaskOk(n, i)
  {
    hide RefreshesAreCurrent, NothingAfterClose, LatestExternal, HandingOver;
    assert TaskOk(s, i);
  }

  /** Who holds a lock once a task that holds it or not has taken a step. */
  function Handed(lock: Option<TaskId>, id: TaskId, holds: bool): Option<TaskId> {
    if holds then Some(id) else if lock == Some(id) then None else lock
  }

  lemma LocksKept(s: State, n: State, id: TaskId)
    requires Locks(s) && Owners(s) && id < |s.tasks| && |s.tasks| <= |n.tasks|
    requires forall i | 0 <= i < |s.tasks| && i != id :: n.tasks[i] == s.tasks[i]
    requires forall i | |s.tasks| <= i < |n.tasks| :: !HoldsConfiguration(n.tasks[i]) && !HoldsApply(n.tasks[i])
    requires n.configuration == Handed(s.configuration, id, HoldsConfiguration(n.tasks[id]))
    requires n.applyLock == Handed(s.applyLock, id, HoldsApply(n.tasks[id]))
    requires HoldsConfiguration(n.tasks[id]) ==> s.configuration == None || s.configuration == Some(id)
    requires HoldsApply(n.tasks[id]) ==> s.applyLock == None || s.applyLock == Some(id)
    ensures Locks(n) && Owners(n)
  {
  }

  /** One task's step gives up its own locks or takes free ones. */
  ghost predicate Orderly(s: State, n: State, id: TaskId)
    requires id < |s.tasks|
  {
    && |s.tasks| <= |n.tasks| && (forall i | 0 <= i < |s.tasks| && i != id :: n.tasks[i] == s.tasks[i])
    && (forall i | |s.tasks| <= i < |n.tasks| :: !HoldsConfiguration(n.tasks[i]) && !HoldsApply(n.tasks[i]))
    && n.configuration == Handed(s.configuration, id, HoldsConfiguration(n.tasks[id]))
    && n.applyLock == Handed(s.applyLock, id, HoldsApply(n.tasks[id]))
    && (HoldsConfiguration(n.tasks[id]) ==> s.configuration == None || s.configuration == Some(id))
    && (HoldsApply(n.tasks[id]) ==> s.applyLock == None || s.applyLock == Some(id))
  }

  /** Only the holder of the apply lock moves the generation or the log. */
  ghost predicate Polite(s: State, n: State, id: TaskId)
    requires id < |s.tasks| <= |n.tasks|
  {
    && (s.closing ==> n.closing)
    && ((n.log == s.log && n.generation == s.generation && n.watched == s.watched) || HoldsApply(s.tasks[id])
      || HoldsApply(n.tasks[id]))
    && (n.generation > s.generation
        || (n.generation == s.generation && n.watched == s.watched
            && (HandingOver(n) || (LatestExternal(n.log) == LatestExternal(s.log) && !HandingOver(s)))))
  }

  lemma PoliteKeeps(s: State, n: State, id: TaskId)
    requires Inv(s) && id < |s.tasks| && Orderly(s, n, id) && Polite(s, n, id)
    requires (forall i | |s.tasks| <= i < |n.tasks| :: TaskOk(n, i)) && TaskOk(n, id)
    requires RefreshesAreCurrent(n.log) && NothingAfterClose(n.log) && (CloseHeld in n.log ==> n.closing)
    ensures Inv(n)
  {
    hide RefreshesAreCurrent, NothingAfterClose, LatestExternal, Locks, HandingOver, HoldsApply, HoldsConfiguration;
    LocksKept(s, n, id);
    LockOf(s, id);
    forall i | 0 <= i < |n.tasks| ensures TaskOk(n, i) {
      if i < |s.tasks| && i != id {
        LockOf(s, i);
        OthersKeep(s, n, id, i);
      }
    }
  }

  lemma LockOf(s: State, id: TaskId)
    requires Locks(s) && id < |s.tasks|
    ensures HoldsApply(s.tasks[id]) <==> s.applyLock == Some(id)
    ensures HoldsConfiguration(s.tasks[id]) <==> s.configuration == Some(id)
  {
  }

  /** What the invariant says about the running task. */
  lemma Facts(s: State, id: TaskId)
    requires Inv(s) && id < |s.tasks|
    ensures TaskOk(s, id) && RefreshesAreCurrent(s.log) && NothingAfterClose(s.log)
    ensures (CloseHeld in s.log ==> s.closing)
    ensures HoldsApply(s.tasks[id]) <==> s.applyLock == Some(id)
    ensures HoldsConfiguration(s.tasks[id]) <==> s.configuration == Some(id)
    ensures HandingOver(s) ==> HoldsApply(s.tasks[s.applyLock.value])
  {
  }

  lemma ExternalOrderly(s: State, id: TaskId, ok: bool)
    requires Inv(s) && id < |s.tasks| && s.tasks[id].External?
    ensures var n := Next(s, Advance(id, ok)); n.Some? ==> Orderly(s, n.value, id)
  {
    hide LatestExternal, Inv, Orderly;
    if HoldsApply(s.tasks[id]) {
      ExternalInside(s, id, ok);
    } else {
      ExternalOutside(s, id, ok);
    }
  }

  lemma ExternalInside(s: State, id: TaskId, ok: bool)
    requires Inv(s) && id < |s.tasks| && s.tasks[id].External? && HoldsApply(s.tasks[id])
    ensures var n := Next(s, Advance(id, ok)); n.Some? ==> Orderly(s, n.value, id)
  {
    hide LatestExternal, Inv;
    Facts(s, id);
  }

  lemma ExternalOutside(s: State, id: TaskId, ok: bool)
    requires Inv(s) && id < |s.tasks| && s.tasks[id].External? && !HoldsApply(s.tasks[id])
    ensures var n := Next(s, Advance(id, ok)); n.Some? ==> Orderly(s, n.value, id)
  {
    hide LatestExternal, Inv;
    Facts(s, id);
  }

  lemma ExternalPolite(s: State, id: TaskId, ok: bool)
    requires Inv(s) && id < |s.tasks| && s.tasks[id].External?
    ensures var n := Next(s, Advance(id, ok)); n.Some? ==> |s.tasks| <= |n.value.tasks| && Polite(s, n.value, id)
  {
    hide RefreshesAreCurrent, NothingAfterClose, LatestExternal, Inv;
    Facts(s, id);
    if s.tasks[id].apply.Applying? {
      LogGrows(s.log, ExternalCommit(id));
    }
  }

  lemma ExternalKeeps(s: State, id: TaskId, ok: bool)
    requires Inv(s) && id < |s.tasks| && s.tasks[id].External?
    ensures var n := Next(s, Advance(id, ok)); n.Some? ==> Inv(n.value)
  {
    hide RefreshesAreCurrent, NothingAfterClose, LatestExternal, Inv, Orderly, Polite;
    Facts(s, id);
    ExternalOrderly(s, id, ok);
    ExternalPolite(s, id, ok);
    if s.tasks[id].apply.Applying? {
      LogGrows(s.log, ExternalCommit(id));
    }
    var next := Next(s, Advance(id, ok));
    if next.Some? {
      PoliteKeeps(s, next.value, id);
    }
  }

  lemma RefresherOrderly(s: State, id: TaskId, ok: bool)
    requires Inv(s) && id < |s.tasks| && s.tasks[id].Refresher?
    ensures var n := Next(s, Advance(id, ok)); n.Some? ==> Orderly(s, n.value, id)
  {
    hide LatestExternal, Inv, Orderly;
    if HoldsApply(s.tasks[id]) {
      RefresherInside(s, id, ok);
    } else {
      RefresherOutside(s, id, ok);
    }
  }

  lemma RefresherInside(s: State, id: TaskId, ok: bool)
    requires Inv(s) && id < |s.tasks| && s.tasks[id].Refresher? && HoldsApply(s.tasks[id])
    ensures var n := Next(s, Advance(id, ok)); n.Some? ==> Orderly(s, n.value, id)
  {
    hide LatestExternal, Inv;
    Facts(s, id);
  }

  lemma RefresherOutside(s: State, id: TaskId, ok: bool)
    requires Inv(s) && id < |s.tasks| && s.tasks[id].Refresher? && !HoldsApply(s.tasks[id])
    ensures var n := Next(s, Advance(id, ok)); n.Some? ==> Orderly(s, n.value, id)
  {
    hide LatestExternal, Inv;
    Facts(s, id);
  }

  lemma RefresherPolite(s: State, id: TaskId, ok: bool)
    requires Inv(s) && id < |s.tasks| && s.tasks[id].Refresher?
    ensures var n := Next(s, Advance(id, ok)); n.Some? ==> |s.tasks| <= |n.value.tasks| && Polite(s, n.value, id)
  {
    hide RefreshesAreCurrent, NothingAfterClose, LatestExternal, Inv;
    Facts(s, id);
    if s.tasks[id].refresh.Refreshing? {
      LogGrows(s.log, RefreshCommit(s.tasks[id].origin));
    }
  }

  lemma RefresherKeeps(s: State, id: TaskId, ok: bool)
    requires Inv(s) && id < |s.tasks| && s.tasks[id].Refresher?
    ensures var n := Next(s, Advance(id, ok)); n.Some? ==> Inv(n.value)
  {
    hide RefreshesAreCurrent, NothingAfterClose, LatestExternal, Inv, Orderly, Polite;
    Facts(s, id);
    RefresherOrderly(s, id, ok);
    RefresherPolite(s, id, ok);
    if s.tasks[id].refresh.Refreshing? {
      LogGrows(s.log, RefreshCommit(s.tasks[id].origin));
    }
    var next := Next(s, Advance(id, ok));
    if next.Some? {
      PoliteKeeps(s, next.value, id);
    }
  }

  lemma CloserKeeps(s: State, id: TaskId, ok: bool)
    requires Inv(s) && id < |s.tasks| && s.tasks[id].Closer?
    ensures var n := Next(s, Advance(id, ok)); n.Some? ==> Inv(n.value)
  {
    hide RefreshesAreCurrent, NothingAfterClose, LatestExternal, Inv;
    Facts(s, id);
    if s.tasks[id].close.Requested? {
      LogGrows(s.log, CloseHeld);
    }
    var next := Next(s, Advance(id, ok));
    if next.Some? {
      PoliteKeeps(s, next.value, id);
    }
  }

  lemma ArrivalKeeps(s: State, step: Step)
    requires Inv(s) && !step.Advance?
    ensures Inv(Next(s, step).value)
  {
    hide RefreshesAreCurrent, NothingAfterClose, LatestExternal;
    var n := Next(s, step).value;
    forall i | 0 <= i < |n.tasks| ensures TaskOk(n, i) {
      if i < |s.tasks| {
        assert n.tasks[i] == s.tasks[i] && TaskOk(s, i) && HandingOver(n) == HandingOver(s);
      }
    }
  }

  lemma StepKeeps(s: State, step: Step)
    requires Inv(s)
    ensures var n := Next(s, step); n.Some? ==> Inv(n.value)
  {
    hide RefreshesAreCurrent, NothingAfterClose, LatestExternal, Inv;
    if !step.Advance? {
      ArrivalKeeps(s, step);
    } else if step.task < |s.tasks| {
      match s.tasks[step.task]
      case External(_, _) => ExternalKeeps(s, step.task, step.ok);
      case Refresher(_, _, _) => RefresherKeeps(s, step.task, step.ok);
      case Closer(_) => CloserKeeps(s, step.task, step.ok);
      case Finished =>
    }
  }

  lemma {:induction false} RunKeeps(s: State, steps: seq<Step>)
    requires Inv(s)
    ensures Inv(Run(s, steps))
  {
    if steps != [] {
      RunKeeps(s, steps[..|steps| - 1]);
      StepKeeps(Run(s, steps[..|steps| - 1]), steps[|steps| - 1]);
    }
  }

  /** Over every interleaving: a refresh republishes only the latest external topology, and nothing
      is published once close has held the apply lock. */
  lemma CommittedFromLatest(steps: seq<Step>)
    ensures var log := Run(Init, steps).log; RefreshesAreCurrent(log) && NothingAfterClose(log)
  {
    RunKeeps(Init, steps);
  }

  /** A refresh publishes only while its own generation is the installed one. */
  lemma RefreshWhileCurrent(steps: seq<Step>, id: TaskId, ok: bool)
    ensures var s := Run(Init, steps); var n := Next(s, Advance(id, ok));
      id < |s.tasks| && s.tasks[id].Refresher? && n.Some? && n.value.log != s.log ==>
        s.watched && s.tasks[id].generation == s.generation && s.applyLock == Some(id) && s.configuration == Some(id)
  {
    RunKeeps(Init, steps);
    var s := Run(Init, steps);
    if id < |s.tasks| {
      assert TaskOk(s, id);
    }
  }

  /** The two locks never deadlock: an unfinished task can run, or the holder of a lock can. */
  lemma NoDeadlock(steps: seq<Step>, stuck: TaskId)
    ensures var s := Run(Init, steps); stuck < |s.tasks| && !s.tasks[stuck].Finished? ==>
      exists id: nat :: id < |s.tasks| && Next(s, Advance(id, true)).Some?
        && (id == stuck || s.applyLock == Some(id) || s.configuration == Some(id))
  {
    RunKeeps(Init, steps);
    var s := Run(Init, steps);
    if s.applyLock.Some? {
      var id := s.applyLock.value;
      assert HoldsApply(s.tasks[id]);
      assert Next(s, Advance(id, true)).Some?;
    } else if s.configuration.Some? {
      var id := s.configuration.value;
      assert HoldsConfiguration(s.tasks[id]);
      assert Next(s, Advance(id, true)).Some?;
    } else if stuck < |s.tasks| && !s.tasks[stuck].Finished? {
      assert Next(s, Advance(stuck, true)).Some?;
    }
  }
}
