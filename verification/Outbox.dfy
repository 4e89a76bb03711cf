/**
 * The transactional outbox as a protocol: any number of publishers read a row, claim it with a
 * compare-and-set, call the broker and save the whole snapshot back, in any interleaving.
 */
module Outbox {

  datatype Status = Pending | Publishing | Published | Failed

  datatype Row = Row(status: Status, attempts: nat)

  /** What happened to a row: broker confirms, and saves of PUBLISHED that failed after a confirm. */
  datatype History = History(confirms: nat, failedSaves: nat)

  /** One publisher at work on one row. A scanner batch is several tasks read together. */
  datatype Task =
    | Loaded(id: nat, snap: Row)      // snapshot read, claim not tried yet
    | Claimed(id: nat, snap: Row)     // claim won, broker call outstanding
    | Confirmed(id: nat, snap: Row)   // broker confirmed, save of PUBLISHED outstanding
    | Failing(id: nat, snap: Row)     // in the catch block, save of the new attempt count outstanding

  datatype State = State(rows: map<nat, Row>, log: map<nat, History>, tasks: map<nat, Task>)

  const Init := State(map[], map[], map[])

  datatype Step =
    | Insert(id: nat)                 // the domain transaction commits an outbox row
    | ReadById(t: nat, id: nat)       // publishById loads the row
    | ReadPending(t: nat, id: nat)    // publishPendingBatch loads the row
    | Claim(t: nat)
    | BrokerConfirms(t: nat)
    | BrokerFails(t: nat)
    | Save(t: nat)
    | SaveFails(t: nat)
    | Crash(t: nat)                   // the publishing process dies

  predicate Owns(task: Task) {
    !task.Loaded?
  }

  predicate Enabled(s: State, step: Step, maxAttempts: nat) {
    match step
    case Insert(id) => id !in s.rows
    case ReadById(t, id) =>
      t !in s.tasks && id in s.rows && s.rows[id].status != Published && s.rows[id].attempts < maxAttempts
    case ReadPending(t, id) => t !in s.tasks && id in s.rows && s.rows[id].status == Pending
    case Claim(t) => t in s.tasks && s.tasks[t].Loaded? && s.tasks[t].id in s.rows
    case BrokerConfirms(t) => t in s.tasks && s.tasks[t].Claimed? && s.tasks[t].id in s.log
    case BrokerFails(t) => t in s.tasks && s.tasks[t].Claimed?
    case Save(t) => t in s.tasks && (s.tasks[t].Confirmed? || s.tasks[t].Failing?)
    case SaveFails(t) => t in s.tasks && (s.tasks[t].Confirmed? || s.tasks[t].Failing?) && s.tasks[t].id in s.log
    case Crash(t) => t in s.tasks
  }

  /** The catch block of publishRecord. */
  function AfterFailure(snap: Row, maxAttempts: nat): (r: Row) {
    Row(if snap.attempts + 1 >= maxAttempts then Failed else Pending, snap.attempts + 1)
  }

  function Apply(s: State, step: Step, maxAttempts: nat): (s': State)
    requires Enabled(s, step, maxAttempts)
  {
    match step
    case Insert(id) => s.(rows := s.rows[id := Row(Pending, 0)], log := s.log[id := History(0, 0)])
    case ReadById(t, id) => s.(tasks := s.tasks[t := Loaded(id, s.rows[id])])
    case ReadPending(t, id) => s.(tasks := s.tasks[t := Loaded(id, s.rows[id])])
    case Claim(t) =>
      var task := s.tasks[t];
      if s.rows[task.id].status == Pending then
        s.(rows := s.rows[task.id := s.rows[task.id].(status := Publishing)],
           tasks := s.tasks[t := Claimed(task.id, task.snap.(status := Publishing))])
      else s.(tasks := s.tasks - {t})
    case BrokerConfirms(t) =>
      var task := s.tasks[t];
      var h := s.log[task.id];
      s.(tasks := s.tasks[t := Confirmed(task.id, task.snap.(status := Published))],
         log := s.log[task.id := h.(confirms := h.confirms + 1)])
    case BrokerFails(t) =>
      var task := s.tasks[t];
      s.(tasks := s.tasks[t := Failing(task.id, AfterFailure(task.snap, maxAttempts))])
    case Save(t) =>
      var task := s.tasks[t];
      s.(rows := s.rows[task.id := task.snap], tasks := s.tasks - {t})
    case SaveFails(t) =>
      var task := s.tasks[t];
      var h := s.log[task.id];
      if task.Confirmed? then
        s.(tasks := s.tasks[t := Failing(task.id, AfterFailure(task.snap, maxAttempts))],
           log := s.log[task.id := h.(failedSaves := h.failedSaves + 1)])
      else s.(tasks := s.tasks - {t})
    case Crash(t) => s.(tasks := s.tasks - {t})
  }

  /** s' is reached from s by performing the steps in order. */
  ghost predicate IsRun(s: State, steps: seq<Step>, s': State, maxAttempts: nat)
    decreases steps
  {
    if steps == [] then s' == s
    else Enabled(s, steps[0], maxAttempts) && IsRun(Apply(s, steps[0], maxAttempts), steps[1..], s', maxAttempts)
  }
}
