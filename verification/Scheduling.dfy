/**
 The contract of the task scheduler of the `tools` library, which is not part of this model:
 scheduling creates an enabled task, launching runs a due one, a task that has run as often as
 asked is dropped (so its weak handle no longer locks), a reset restarts delay and count, and
 disabling is for ever. Times are in milliseconds.
 */
module Scheduling {

  datatype Task<+A> = Task(action: A, delay: nat, runs: nat, due: nat, left: nat, enabled: bool)

  /** A weak pointer to a task. Task numbers are never used twice. */
  datatype Handle = Null | Weak(id: nat)

  datatype Schedule<A> = Schedule(tasks: map<nat, Task<A>>, nextId: nat) {

    /** `lock()` yields a task. */
    predicate Locks(h: Handle) {
      h.Weak? && h.id in tasks
    }

    /** The new task's handle is Weak(nextId). */
    function Add(now: nat, action: A, delay: nat, runs: nat): Schedule<A> {
      Schedule(tasks[nextId := Task(action, delay, runs, now + delay, runs, true)], nextId + 1)
    }

    /** Restarts delay and count of the task behind h, if there still is one. */
    function Reset(now: nat, h: Handle): Schedule<A> {
      if Locks(h) then
        var t := tasks[h.id];
        this.(tasks := tasks[h.id := t.(due := now + t.delay, left := t.runs)])
      else this
    }

    /** Stops the task behind h for good, if there still is one. */
    function Disable(h: Handle): Schedule<A> {
      if Locks(h) then this.(tasks := tasks[h.id := tasks[h.id].(enabled := false)]) else this
    }

    predicate IsDue(now: nat, id: nat) {
      id in tasks && tasks[id].enabled && tasks[id].due <= now
    }

    /** The bookkeeping of one run of a task. */
    function Consume(now: nat, id: nat): Schedule<A>
      requires id in tasks
    {
      var t := tasks[id];
      if t.left <= 1 then this.(tasks := tasks - {id})
      else this.(tasks := tasks[id := t.(due := now + t.delay, left := t.left - 1)])
    }

    predicate IsDisabled(id: nat) {
      id in tasks && !tasks[id].enabled
    }

    /** The scheduler may forget a disabled task at any time. */
    function Collect(id: nat): Schedule<A> {
      this.(tasks := tasks - {id})
    }

    /** No enabled task falls due before now + d. */
    ghost predicate Allows(now: nat, d: nat) {
      forall id :: id in tasks && tasks[id].enabled ==> now + d <= tasks[id].due
    }
  }

  class TaskScheduler<A> {
    var now: nat
    var schedule: Schedule<A>

    constructor (start: nat)
      ensures now == start && schedule == Schedule(map[], 0)
    {
      now := start;
      schedule := Schedule(map[], 0);
    }

    method AddTask(action: A, delay: nat, runs: nat := 1) returns (h: Handle)
      modifies this`schedule
      ensures h == Weak(old(schedule.nextId))
      ensures schedule == old(schedule).Add(now, action, delay, runs)
    {
      h := Weak(schedule.nextId);
      schedule := schedule.Add(now, action, delay, runs);
    }

    method ResetTask(h: Handle)
      modifies this`schedule
      ensures schedule == old(schedule).Reset(now, h)
    {
      schedule := schedule.Reset(now, h);
    }

    method DisableTask(h: Handle)
      modifies this`schedule
      ensures schedule == old(schedule).Disable(h)
    {
      schedule := schedule.Disable(h);
    }

    method Take(id: nat) returns (action: A)
      requires schedule.IsDue(now, id)
      modifies this`schedule
      ensures action == old(schedule.tasks[id].action)
      ensures schedule == old(schedule).Consume(now, id)
    {
      action := schedule.tasks[id].action;
      schedule := schedule.Consume(now, id);
    }
  }
}
