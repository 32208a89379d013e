// The claim loop as one state machine. Everything about one operation sits in
// its cell: the hot row, the history row, the attempts dispatchers are running
// on it, and, as ghosts, every claim of it and what its target calls did.
module Protocol {
  import opened Options
  import opened Rows
  import opened ClaimSpec
  import opened Resolution
  import Store

  // ---- one operation -----------------------------------------------------

  // What a claim handed the dispatcher.
  datatype Claim = Claim(prior: Status, attemptCount: nat)

  // Where a running attempt stands.
  datatype Phase = Claimed | Calling | Decided(r: Resolution)

  // A mutation call at the target: under way until it settles, by settleBy.
  datatype Call = InFlight(settleBy: Time) | Landed | Failed

  datatype Cell = Cell(
    op: Op, row: Option<Row>, hist: Option<Hist>,
    claims: seq<Claim>,        // every claim of the row, in order
    live: map<nat, Phase>,     // attempts running in some dispatcher, by claim
    calls: map<nat, Call>,     // the mutation call of each attempt that made one
    answers: map<nat, Answer>, // what each attempt was answered, if anything
    present: bool,             // an object with the operation's name exists
    started: nat, resumed: nat,  // claims out of PENDING, and out of AWAITING_READBACK
    requeues: nat, reaps: nat,
    waited: int)               // backoff asked for by all its requeues

  function NewCell(op: Op, present: bool): Cell {
    Cell(op, Some(NewRow(op)), None, [], map[], map[], map[], present, 0, 0, 0, 0, 0)
  }

  predicate HasStatus(c: Cell, s: Status) { c.row.Some? && c.row.value.status == s }

  predicate IsCreate(c: Cell) { c.op.opType == CREATE }

  // honest: the target answers truthfully, and its calls settle in time. Runs without
  // it let the target answer anything at any time; only what a create made needs it.
  datatype Env = Env(cfg: Config, inst: string -> Instance, reapThreshold: int, reapDelay: int, honest: bool)

  // How long after it was issued a create may still take effect.
  function SettleTime(env: Env, op: Op): nat {
    env.inst(op.instance).createDeadline + env.cfg.readBackGrace
  }

  // The target is honest, the reaper waits at least as long as any instance's create may take, and none takes no time.
  ghost predicate ValidEnv(env: Env) {
    env.honest && forall i :: 0 < env.inst(i).createDeadline + env.cfg.readBackGrace <= env.reapDelay
  }

  datatype Act =
    | Take                                // claimed by a dispatcher
    | Recover                             // reaped
    | Retire                              // its partition dropped
    | Skip(n: nat, r: Resolution)         // decided without calling the target
    | Send(n: nat)                        // the target call goes out
    | Reply(n: nat, ans: Answer)          // its answer arrives
    | Write(n: nat)                       // the resolution is written to the store
    | Lose(n: nat)                        // the attempt dies: crash, or a failed write
    | Land(n: nat) | Fizzle(n: nat)       // the call takes effect, or fails
    | Foreign                             // someone else makes an object of that name

  predicate CanSend(c: Cell, prior: Status) {
    if Searches(prior) then c.op.name.Some?
    else !(IsDelta(c.op.opType) && (c.op.uid.None? || c.op.uid.value == ""))
  }

  // Whether the target can have given this answer to attempt n: success means the
  // call landed, any error but a timeout that it failed, and a search sees what is there.
  predicate Truthful(c: Cell, n: nat, ans: Answer)
    requires n < |c.claims|
  {
    if Searches(c.claims[n].prior) then
      match ans
      case Found(_) => c.present
      case Missing => !c.present
      case Threw(_) => true
      case Applied(_) => false
    else
      n in c.calls &&
      match ans
      case Applied(_) => c.calls[n] == Landed
      case Threw(f) => if IsCreate(c) && TimedOut(f) then true else IsCreate(c) ==> c.calls[n] == Failed
      case _ => false
  }

  predicate Enabled(env: Env, now: Time, c: Cell, a: Act) {
    match a
    case Take => c.row.Some? && Due(c.row.value, now)
    case Recover => c.row.Some? && Stale(c.row.value, now, env.reapThreshold)
    case Retire => c.row.Some? && c.row.value.Terminal()
    case Skip(n, r) => n < |c.claims| && n in c.live && Uncalled(c.op, c.claims[n].prior, r)
        && (c.live[n] == Claimed || (c.live[n] == Calling && r == DispatchError()))
    case Send(n) => n < |c.claims| && n in c.live && c.live[n] == Claimed && CanSend(c, c.claims[n].prior)
    case Reply(n, ans) => n < |c.claims| && n in c.live && c.live[n] == Calling
        && Answers(c.claims[n].prior, ans) && (env.honest ==> Truthful(c, n, ans))
    case Write(n) => n in c.live && c.live[n].Decided?
    case Lose(n) => n in c.live
    case Land(n) => n in c.calls && c.calls[n].InFlight?
    case Fizzle(n) => n in c.calls && c.calls[n].InFlight?
    case Foreign => true
  }

  // The store call a resolution leads to, on this operation's rows.
  function WriteBack(now: Time, c: Cell, r: Resolution): Cell {
    if c.row.None? then c
    else match r
      case Finish(outcome, result, code) =>
        if c.row.value.Terminal() then c
        else
          var row := FinalizeRow(c.row.value, outcome, result, code, now);
          c.(row := Some(row), hist := if c.hist.Some? then c.hist else Some(HistoryOf(row)))
      case Requeue(_, delay) =>
        if c.row.value.status != RUNNING then c
        else c.(row := Some(RequeueRow(c.row.value)), requeues := c.requeues + 1, waited := c.waited + delay)
      case DeferReadback(delay) =>
        if c.row.value.status != RUNNING then c
        else c.(row := Some(DeferRow(c.row.value, now + delay)))
  }

  function Perform(env: Env, now: Time, c: Cell, a: Act): Cell
    requires Enabled(env, now, c, a)
  {
    match a
    case Take =>
      var r := c.row.value;
      c.(row := Some(ClaimRow(r, now)), claims := c.claims + [Claim(r.status, r.attemptCount)],
         live := c.live[|c.claims| := Claimed],
         started := c.started + if r.status == PENDING then 1 else 0,
         resumed := c.resumed + if r.status == PENDING then 0 else 1)
    case Recover => c.(row := Some(ReapRow(c.row.value, now, env.reapDelay)), reaps := c.reaps + 1)
    case Retire => c.(row := None)
    case Skip(n, r) => c.(live := c.live[n := Decided(r)])
    case Send(n) =>
      if Searches(c.claims[n].prior) then c.(live := c.live[n := Calling])
      else c.(live := c.live[n := Calling], calls := c.calls[n := InFlight(now + SettleTime(env, c.op))])
    case Reply(n, ans) =>
      c.(live := c.live[n := Decided(Resolve(env.cfg, env.inst(c.op.instance), c.op, c.claims[n].prior, c.claims[n].attemptCount, ans))],
         answers := c.answers[n := ans])
    case Write(n) => WriteBack(now, c.(live := c.live - {n}), c.live[n].r)
    case Lose(n) => c.(live := c.live - {n})
    case Land(n) => c.(calls := c.calls[n := Landed], present := true)
    case Fizzle(n) => c.(calls := c.calls[n := Failed])
    case Foreign => c.(present := true)
  }

  // ---- the table ---------------------------------------------------------

  datatype World = World(now: Time, cells: map<Id, Cell>)

  datatype Action =
    | Enqueue(id: Id, op: Op, present: bool)
    | ClaimCycle(q: Query)
    | Reap
    | Drop(day: int)
    | Local(id: Id, act: Act)
    | Tick(later: Time)

  function Hot(w: World): Table {
    map id | id in w.cells && w.cells[id].row.Some? :: w.cells[id].row.value
  }

  // The act each cell undergoes in an action, if any.
  function ActOf(env: Env, w: World, a: Action, id: Id): Option<Act>
    requires id in w.cells
  {
    match a
    case ClaimCycle(q) => if Picked(Hot(w), q, id) then Some(Take) else None
    case Reap => if w.cells[id].row.Some? && Stale(w.cells[id].row.value, w.now, env.reapThreshold) then Some(Recover) else None
    case Drop(day) =>
      if w.cells[id].row.Some? && Store.DayOf(w.cells[id].op) == day && Store.Droppable(Hot(w), day) then Some(Retire) else None
    case Local(x, act) => if x == id then Some(act) else None
    case _ => None
  }

  // The acts a single dispatcher or target step may be.
  predicate IsLocal(act: Act) { !act.Take? && !act.Recover? && !act.Retire? }

  // strict: the reaper takes only rows whose attempt is over.
  predicate Can(env: Env, strict: bool, w: World, a: Action) {
    match a
    case Enqueue(id, op, _) =>
      id !in w.cells && forall x :: x in w.cells ==> w.cells[x].op.createdAt != op.createdAt
    case ClaimCycle(q) => q.now == w.now
    case Reap => strict ==> forall x :: x in w.cells && ActOf(env, w, a, x).Some? ==> w.cells[x].live == map[]
    case Drop(_) => true
    case Local(id, act) => id in w.cells && IsLocal(act) && Enabled(env, w.now, w.cells[id], act)
    case Tick(later) => w.now <= later && (env.honest ==> forall x :: x in w.cells ==> CallsOutlast(w.cells[x], later))
  }

  // Every call under way still has time left at that moment.
  predicate CallsOutlast(c: Cell, t: Time) {
    forall n :: n in c.calls && c.calls[n].InFlight? ==> t < c.calls[n].settleBy
  }

  function Next(env: Env, w: World, a: Action): World {
    match a
    case Enqueue(id, op, present) => w.(cells := w.cells[id := NewCell(op, present)])
    case Tick(later) => w.(now := later)
    case _ =>
      w.(cells := map id | id in w.cells ::
        var act := ActOf(env, w, a, id);
        if act.Some? && Enabled(env, w.now, w.cells[id], act.value) then Perform(env, w.now, w.cells[id], act.value) else w.cells[id])
  }

  // ---- runs --------------------------------------------------------------

  predicate Possible(env: Env, strict: bool, w: World, acts: seq<Action>)
    decreases |acts|
  {
    acts == [] || (Can(env, strict, w, acts[0]) && Possible(env, strict, Next(env, w, acts[0]), acts[1..]))
  }

  function After(env: Env, w: World, acts: seq<Action>): World
    decreases |acts|
  {
    if acts == [] then w else After(env, Next(env, w, acts[0]), acts[1..])
  }

  function Start(now: Time): World { World(now, map[]) }
}
