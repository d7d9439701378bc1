/** The course one task takes through the tables: its own moves, each of them a move of the
    protocol, with undisturbed waits between them. */
module Paths {
  import opened Contracts
  import opened Tables
  import opened Frontier
  import opened Protocol
  import opened Isolation
  import opened Rely

  datatype Hop = Hop(before: Db, from: Pc, move: Move, now: Time, after: Db, to: Pc, events: seq<Event>)

  /** Where a task starts; the program counter of `task` is not used. */
  datatype Course = Course(adapters: set<TargetSystem>, task: Task, from: Pc, origin: Db)

  function TaskAt(c: Course, pc: Pc): Task
  {
    c.task.(pc := pc)
  }

  ghost predicate Path(c: Course, path: seq<Hop>, pc: Pc, db: Db)
  {
    if path == [] then
      pc == c.from && Undisturbed(c.origin, db, c.task.employee)
    else
      var hop := path[|path| - 1];
      && Path(c, path[..|path| - 1], hop.from, hop.before)
      && hop.now > hop.before.clock
      && Acts(hop.before, c.adapters, TaskAt(c, hop.from), hop.move, hop.now, hop.to, hop.after, hop.events)
      && pc == hop.to && Undisturbed(hop.after, db, c.task.employee)
  }

  /** The task went its course up to `pc`, and the invariants hold. */
  ghost predicate OnCourse(c: Course, path: seq<Hop>, pc: Pc, db: Db)
  {
    Path(c, path, pc, db) && TablesOk(db) && TaskOk(db, TaskAt(c, pc))
  }

  /** How many steps the task claimed. */
  function Claims(path: seq<Hop>): nat
  {
    if path == [] then 0
    else Claims(path[..|path| - 1]) + (if path[|path| - 1].move.ClaimNext? && path[|path| - 1].move.pick.Some? then 1 else 0)
  }

  lemma PathWaits(c: Course, path: seq<Hop>, pc: Pc, db: Db, db': Db)
    requires Path(c, path, pc, db) && Undisturbed(db, db', c.task.employee)
    ensures Path(c, path, pc, db')
  {
    hide Undisturbed, Acts;
    if path == [] {
      UndisturbedTransitive(c.origin, db, db', c.task.employee);
    } else {
      UndisturbedTransitive(path[|path| - 1].after, db, db', c.task.employee);
    }
  }

  lemma TaskWaits(db: Db, db': Db, task: Task)
    requires TablesOk(db) && TaskOk(db, task) && Undisturbed(db, db', task.employee)
    ensures TaskOk(db', task)
  {
    UndisturbedParts(db, db', task.employee);
    hide Undisturbed;
    if Working(task.pc) {
      forall s | InRequest(db.steps, task.request, s)
        ensures s in db'.steps && db'.steps[s] == db.steps[s]
      {
        TaskStep(db, task, s);
        assert OfEmployee(db.steps, task.employee, s);
      }
      hide TablesOk, SameRows;
      PcWaits(db.steps, db'.steps, task.request, task.pc);
      KnownStays(db, db', task);
    }
  }

  lemma UndisturbedParts(db: Db, db': Db, e: EmployeeId)
    requires Undisturbed(db, db', e)
    ensures Evolves(db, db') && SameRows(db.steps, db'.steps, e) && TablesOk(db')
  {
  }

  lemma PcWaits(steps: Steps, steps': Steps, r: RequestId, pc: Pc)
    requires PcOk(steps, r, pc)
    requires forall s :: InRequest(steps, r, s) ==> s in steps' && steps'[s] == steps[s]
    ensures PcOk(steps', r, pc)
  {
  }

  lemma Wait(c: Course, path: seq<Hop>, pc: Pc, db: Db, db': Db)
    requires OnCourse(c, path, pc, db) && Undisturbed(db, db', c.task.employee)
    ensures OnCourse(c, path, pc, db')
  {
    PathWaits(c, path, pc, db, db');
    hide Path;
    TaskWaits(db, db', TaskAt(c, pc));
    hide TaskOk;
  }

  lemma Advance(c: Course, path: seq<Hop>, hop: Hop)
    requires OnCourse(c, path, hop.from, hop.before) && hop.now > hop.before.clock
    requires Acts(hop.before, c.adapters, TaskAt(c, hop.from), hop.move, hop.now, hop.to, hop.after, hop.events)
    ensures OnCourse(c, path + [hop], hop.to, hop.after) && Evolves(hop.before, hop.after)
    ensures Claims(path + [hop]) == Claims(path) + if hop.move.ClaimNext? && hop.move.pick.Some? then 1 else 0
  {
    hide TablesOk, TaskOk, Acts, Undisturbed, OnlyTouches, Evolves;
    MoveKeeps(hop.before, c.adapters, TaskAt(c, hop.from), hop.move, hop.now, hop.to, hop.after, hop.events);
    NothingIfTables(hop.after, c.task.employee);
    assert (path + [hop])[..|path|] == path;
  }

  /** In any state of the system where the task stands before a hop of its path, the hop is
      a step of the system: what holds of all protocol runs holds of it. */
  lemma HopIsStep(c: Course, path: seq<Hop>, pc: Pc, db: Db, k: nat, s: State, t: TaskId)
    requires Path(c, path, pc, db) && k < |path|
    requires s.adapters == c.adapters && s.db == path[k].before && t in s.tasks && s.tasks[t] == TaskAt(c, path[k].from)
    ensures var hop := path[k];
      var s' := Moved(s, t, hop.to).(db := hop.after, log := s.log + hop.events);
      Step(s, Act(t, hop.move, hop.now, hop.to, hop.after, hop.events), s')
    decreases |path|
  {
    hide Acts, Undisturbed;
    if k < |path| - 1 {
      var hop := path[|path| - 1];
      HopIsStep(c, path[..|path| - 1], hop.from, hop.before, k, s, t);
    }
  }
}
