/** The keyed release queue as a state machine: one step for every mutex section, every channel
    operation, and every start or end of a task. */
module QueueMachine {
  import opened Wrappers
  import opened TextScan

  /** Tasks are numbered in the order of their acceptance. */
  datatype Task = Task(id: nat, key: string)

  /** Where a worker goroutine is in its loop. */
  datatype Stage =
    | Looking
    | Registering(task: Task)
    | AtGate(task: Task, gate: nat)
    | AtSlot(task: Task, gate: nat)
    | Prepared(task: Task, gate: nat, attempt: nat)
    | Executing(task: Task, gate: nat, attempt: nat)
    | Delaying(task: Task, gate: nat, attempt: nat)
    | LeavingSlot(task: Task, gate: nat, ok: bool)
    | LeavingGate(task: Task, gate: nat, ok: bool)
    | Unregistering(task: Task, gate: nat, ok: bool)
    | Finishing(task: Task, ok: bool)
    | Reporting(task: Task, ok: bool)

  datatype Worker = Worker(key: string, stage: Stage)

  /** A key's queue object; worker is the goroutine started for it. */
  datatype Chain = Chain(worker: nat, tasks: seq<Task>)

  /** A repository's gate object: its semaphore's holder and its reference count. */
  datatype Gate = Gate(repository: string, holder: Option<nat>, users: nat)

  datatype Ending = Ending(task: Task, ok: bool)

  datatype Config = Config(maxAttempts: nat, retryDelay: bool, slots: nat, maxPending: nat) {
    predicate Valid() {
      1 <= maxAttempts <= 3 && 1 <= slots <= maxPending
    }
  }

  const DefaultMaxPending := 64
  const DefaultMaxConcurrent := 4

  function ClampInt(value: int, min: int, max: int): int {
    if value < min then min else if value > max then max else value
  }

  /** The limits a new queue works with, whatever options it is given. */
  function NewConfig(maxAttempts: int, retryDelayMs: int, maxConcurrent: int, maxPending: int): (cfg: Config)
    ensures cfg.Valid() && 1 <= cfg.maxAttempts <= 3 && 1 <= cfg.slots <= cfg.maxPending
    ensures maxAttempts < 1 ==> cfg.maxAttempts == 1
    ensures maxAttempts > 3 ==> cfg.maxAttempts == 3
    ensures maxPending <= 0 ==> cfg.maxPending == 64
    ensures maxConcurrent <= 0 && cfg.maxPending >= 4 ==> cfg.slots == 4
    ensures 1 <= maxAttempts <= 3 ==> cfg.maxAttempts == maxAttempts
    ensures cfg.retryDelay <==> retryDelayMs > 0
    ensures maxPending > 0 ==> cfg.maxPending == maxPending
    ensures 0 < maxConcurrent <= cfg.maxPending ==> cfg.slots == maxConcurrent
    ensures maxConcurrent > cfg.maxPending ==> cfg.slots == cfg.maxPending
  {
    var limit := if maxPending <= 0 then DefaultMaxPending else maxPending;
    var slots := if maxConcurrent <= 0 then DefaultMaxConcurrent else maxConcurrent;
    Config(ClampInt(maxAttempts, 1, 3), ClampInt(retryDelayMs, 0, 30000) > 0, if slots > limit then limit else slots,
           limit)
  }

  /** open, accepted, taken, ended and attempts are the history the guarantees speak about. */
  datatype State = State(
    chains: map<string, Chain>,
    workers: map<nat, Worker>,
    repositories: map<string, nat>,
    gates: map<nat, Gate>,
    slotsUsed: nat,
    pending: nat,
    cancelled: bool,
    names: nat,
    open: set<nat>,
    accepted: seq<Task>,
    taken: seq<Task>,
    ended: seq<Ending>,
    attempts: map<nat, nat>)

  datatype Event =
    | Enqueue(key: string)
    | Cancel
    | Take(worker: nat)
    | Register(worker: nat)
    | EnterGate(worker: nat)
    | EnterSlot(worker: nat)
    | GiveUp(worker: nat)
    | Begin(worker: nat)
    | Return(worker: nat, ok: bool)
    | Wake(worker: nat)
    | LeaveSlot(worker: nat)
    | LeaveGate(worker: nat)
    | Unregister(worker: nat)
    | Finish(worker: nat)
    | Report(worker: nat)

  const EMPTY := State(map[], map[], map[], map[], 0, 0, false, 0, {}, [], [], [], map[])

  function LastColon(key: string): Option<nat> {
    if key == "" then None
    else if key[|key| - 1] == ':' then Some(|key| - 1)
    else LastColon(key[..|key| - 1])
  }

  /** Branches of one repository share its gate whatever the case of its name; a key without a
      branch stands for itself. */
  function QueueRepository(key: string): string {
    match LastColon(key)
    case Some(at) => if at < |key| then ToLower(key[..at]) else key
    case None => key
  }

  function UsesGate(stage: Stage): Option<nat> {
    match stage
    case AtGate(_, g) => Some(g)
    case AtSlot(_, g) => Some(g)
    case Prepared(_, g, _) => Some(g)
    case Executing(_, g, _) => Some(g)
    case Delaying(_, g, _) => Some(g)
    case LeavingSlot(_, g, _) => Some(g)
    case LeavingGate(_, g, _) => Some(g)
    case Unregistering(_, g, _) => Some(g)
    case _ => None
  }

  predicate HoldsGate(stage: Stage) {
    UsesGate(stage).Some? && !stage.AtGate? && !stage.Unregistering?
  }

  predicate HoldsSlot(stage: Stage) {
    stage.Prepared? || stage.Executing? || stage.Delaying? || stage.LeavingSlot?
  }

  /** A task counts as pending from acceptance until its worker's finishing section. */
  predicate InFlight(stage: Stage) {
    !stage.Looking? && !stage.Reporting?
  }

  function At(s: State, w: nat): Stage
    requires w in s.workers
  {
    s.workers[w].stage
  }

  function Move(s: State, w: nat, stage: Stage): State
    requires w in s.workers
  {
    s.(workers := s.workers[w := s.workers[w].(stage := stage)])
  }

  predicate Rejects(cfg: Config, s: State) {
    s.cancelled || s.pending >= cfg.maxPending
  }

  predicate Enabled(cfg: Config, s: State, e: Event) {
    match e
    case Enqueue(_) => true
    case Cancel => true
    case Take(w) => w in s.workers && At(s, w).Looking?
    case Register(w) => w in s.workers && At(s, w).Registering?
    case EnterGate(w) =>
      && w in s.workers && At(s, w).AtGate? && At(s, w).gate in s.gates
      && s.gates[At(s, w).gate].holder == None
    case EnterSlot(w) => w in s.workers && At(s, w).AtSlot? && s.slotsUsed < cfg.slots
    case GiveUp(w) => w in s.workers && s.cancelled && (At(s, w).AtGate? || At(s, w).AtSlot? || At(s, w).Delaying?)
    case Begin(w) => w in s.workers && At(s, w).Prepared?
    case Return(w, _) => w in s.workers && At(s, w).Executing?
    case Wake(w) => w in s.workers && At(s, w).Delaying?
    case LeaveSlot(w) => w in s.workers && At(s, w).LeavingSlot?
    case LeaveGate(w) => w in s.workers && At(s, w).LeavingGate? && At(s, w).gate in s.gates
    case Unregister(w) => w in s.workers && At(s, w).Unregistering? && At(s, w).gate in s.gates
    case Finish(w) => w in s.workers && At(s, w).Finishing?
    case Report(w) => w in s.workers && At(s, w).Reporting?
  }

  function Tries(s: State, id: nat): nat {
    if id in s.attempts then s.attempts[id] else 0
  }

  /** Accepts a task unless the queue is saturated or cancelled; a key without a queue object
      gets one together with its worker. */
  function Enqueued(cfg: Config, s: State, key: string): State {
    if Rejects(cfg, s) then s
    else
      var task := Task(|s.accepted|, key);
      var grown := s.(pending := s.pending + 1, open := s.open + {task.id}, accepted := s.accepted + [task]);
      if key in s.chains then
        grown.(chains := s.chains[key := s.chains[key].(tasks := s.chains[key].tasks + [task])])
      else
        grown.(chains := s.chains[key := Chain(s.names, [task])],
               workers := s.workers[s.names := Worker(key, Looking)], names := s.names + 1)
  }

  /** The first section of the worker loop: next task, or retire queue object and worker. */
  function Took(s: State, w: nat): State
    requires w in s.workers
  {
    var key := s.workers[w].key;
    if key !in s.chains || s.chains[key].worker != w then s.(workers := s.workers - {w})
    else if s.chains[key].tasks == [] then s.(chains := s.chains - {key}, workers := s.workers - {w})
    else
      var task := s.chains[key].tasks[0];
      Move(s, w, Registering(task)).(
        chains := s.chains[key := s.chains[key].(tasks := s.chains[key].tasks[1..])],
        taken := s.taken + [task])
  }

  /** The gate a worker finds or creates for its repository. */
  function GateFor(s: State, w: nat): nat
    requires w in s.workers
  {
    var repository := QueueRepository(s.workers[w].key);
    if repository in s.repositories then s.repositories[repository] else s.names
  }

  /** Where a worker goes on from its stage. */
  function Advance(cfg: Config, s: State, e: Event): Stage
    requires Enabled(cfg, s, e) && OfWorker(e)
  {
    var stage := At(s, e.worker);
    match e
    case Register(w) => AtGate(stage.task, GateFor(s, w))
    case EnterGate(_) => AtSlot(stage.task, stage.gate)
    case EnterSlot(_) => Prepared(stage.task, stage.gate, 1)
    case GiveUp(_) =>
      if stage.AtGate? then Unregistering(stage.task, stage.gate, false)
      else if stage.AtSlot? then LeavingGate(stage.task, stage.gate, false)
      else LeavingSlot(stage.task, stage.gate, false)
    case Begin(_) =>
      if s.cancelled then LeavingSlot(stage.task, stage.gate, false)
      else Executing(stage.task, stage.gate, stage.attempt)
    case Return(_, ok) =>
      if ok then LeavingSlot(stage.task, stage.gate, true)
      else if s.cancelled || stage.attempt >= cfg.maxAttempts then LeavingSlot(stage.task, stage.gate, false)
      else if cfg.retryDelay then Delaying(stage.task, stage.gate, stage.attempt)
      else Prepared(stage.task, stage.gate, stage.attempt + 1)
    case Wake(_) => Prepared(stage.task, stage.gate, stage.attempt + 1)
    case LeaveSlot(_) => LeavingGate(stage.task, stage.gate, stage.ok)
    case LeaveGate(_) => Unregistering(stage.task, stage.gate, stage.ok)
    case Unregister(_) => Finishing(stage.task, stage.ok)
    case Finish(_) => Reporting(stage.task, stage.ok)
    case Report(_) => Looking
  }

  predicate OfWorker(e: Event) {
    !e.Enqueue? && !e.Cancel? && !e.Take?
  }

  /** Registering joins or creates a gate, entering and leaving set its holder, and the last
      user to unregister removes it. */
  function GatesAfter(cfg: Config, s: State, e: Event): map<nat, Gate>
    requires Enabled(cfg, s, e) && OfWorker(e)
  {
    if e.Register? then
      var g := GateFor(s, e.worker);
      if g in s.gates then s.gates[g := s.gates[g].(users := s.gates[g].users + 1)]
      else s.gates[g := Gate(QueueRepository(s.workers[e.worker].key), None, 1)]
    else if e.EnterGate? then
      var g := At(s, e.worker).gate;
      s.gates[g := s.gates[g].(holder := Some(e.worker))]
    else if e.LeaveGate? then
      var g := At(s, e.worker).gate;
      s.gates[g := s.gates[g].(holder := None)]
    else if e.Unregister? then
      var g := At(s, e.worker).gate;
      if s.gates[g].users <= 1 then s.gates - {g}
      else s.gates[g := s.gates[g].(users := s.gates[g].users - 1)]
    else s.gates
  }

  function RepositoriesAfter(cfg: Config, s: State, e: Event): map<string, nat>
    requires Enabled(cfg, s, e) && OfWorker(e)
  {
    if e.Register? then s.repositories[QueueRepository(s.workers[e.worker].key) := GateFor(s, e.worker)]
    else if e.Unregister? && s.gates[At(s, e.worker).gate].users <= 1
    then s.repositories - {QueueRepository(s.workers[e.worker].key)}
    else s.repositories
  }

  function Less(n: nat): nat {
    if n > 0 then n - 1 else 0
  }

  /** One step of a worker past its first section. */
  function Shifted(cfg: Config, s: State, e: Event): State
    requires Enabled(cfg, s, e) && OfWorker(e)
  {
    var stage := At(s, e.worker);
    Move(s, e.worker, Advance(cfg, s, e)).(
      gates := GatesAfter(cfg, s, e),
      repositories := RepositoriesAfter(cfg, s, e),
      names := if e.Register? then s.names + 1 else s.names,
      slotsUsed := if e.EnterSlot? then s.slotsUsed + 1 else if e.LeaveSlot? then Less(s.slotsUsed) else s.slotsUsed,
      pending := if e.Finish? then Less(s.pending) else s.pending,
      open := if e.Finish? then s.open - {stage.task.id} else s.open,
      ended := if e.Report? then s.ended + [Ending(stage.task, stage.ok)] else s.ended,
      attempts := if e.Begin? && !s.cancelled then s.attempts[stage.task.id := Tries(s, stage.task.id) + 1]
                  else s.attempts)
  }

  function Next(cfg: Config, s: State, e: Event): State
    requires Enabled(cfg, s, e)
  {
    if e.Enqueue? then Enqueued(cfg, s, e.key)
    else if e.Cancel? then s.(cancelled := true)
    else if e.Take? then Took(s, e.worker)
    else Shifted(cfg, s, e)
  }

  /** The state a run of the queue reaches, if every step of it could be taken. */
  ghost function Reached(cfg: Config, log: seq<Event>): Option<State> {
    if log == [] then Some(EMPTY)
    else
      var before := Reached(cfg, log[..|log| - 1]);
      if before.Some? && Enabled(cfg, before.value, log[|log| - 1])
      then Some(Next(cfg, before.value, log[|log| - 1])) else None
  }
}
