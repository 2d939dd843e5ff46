/**
 The command broker and manual-drive controller of one robot
 (server/app/commands/broker.py and server/app/commands/teleop.py) as a state
 machine. Every coroutine is a task with a program counter, cut at each of its
 awaits; a task that awaits another coroutine carries that task's number in
 `after` and cannot move before it has ended. Robot answers, timeouts, lost
 connections, lease and telemetry changes, velocity frames and cancellations
 are events that may strike between any two cuts. A run is any sequence of
 events; an event that is not enabled changes nothing.
 */
module ManualDrive {
  import opened Options
  import opened TuningPolicy

  type Id = nat

  datatype Command =
    | Navigate | SetInitialPose | Stop | ChargeRelease | MotorEnable | MotorDisable
    | DockReset | Undock | SoftwareReset | SetLidarPower | TeleopStart | TeleopStop

  /** Commands that skip the per-robot admission lock. */
  predicate Bypasses(c: Command) { c in {Stop, MotorDisable, TeleopStop} }

  /** Commands that pass the rate limit and the operator lease unchecked. */
  predicate Unmetered(c: Command) { Bypasses(c) || c == SoftwareReset }

  predicate IsTeleop(c: Command) { c in {TeleopStart, TeleopStop} }

  /** Motion and localisation commands that need settled LiDAR power. */
  predicate NeedsLidar(c: Command) {
    c in {Navigate, SetInitialPose, Undock, ChargeRelease, TeleopStart}
  }

  /** Commands that may be admitted while LiDAR power is pending. */
  predicate IgnoresLidar(c: Command) { Unmetered(c) || c == MotorEnable }

  /** The identity of the robot connection an owner captures. */
  datatype Binding = Binding(session: nat, socket: Option<nat>, generation: nat, base: Option<nat>)

  datatype Phase = Pending | Active | Closing | Unknown

  predicate Live(p: Phase) { p == Pending || p == Active }

  function Rank(p: Phase): nat {
    match p case Pending => 0 case Active => 1 case Closing => 2 case Unknown => 2
  }

  /** One manual session. `request`, `arrival` and `attached` remember the task
      that asked for it, the revision read when that task arrived, and every
      stop ever recorded for it. */
  datatype Owner = Owner(
    command: Id, client: nat, binding: Binding, policy: Policy,
    phase: Phase, serial: int, startTerminal: bool, stopIds: set<Id>, stopIssued: bool,
    sendLock: Option<nat>, request: nat, arrival: nat, attached: set<Id>)

  /** One open command. */
  datatype Entry = Entry(command: Command, request: nat, acked: bool, uncertain: bool,
                         session: nat, socket: Option<nat>)

  /** A forwarded command whose two server-side timers still run. */
  datatype Timer = Timer(id: Id, command: Command)

  datatype Frame = Frame(command: Id, serial: int, linear: real, angular: real, deadman: bool)

  /** What the velocity schema lets through. */
  predicate ValidFrame(f: Frame) {
    && f.serial >= 0
    && -HARD_MAX_LINEAR <= f.linear <= HARD_MAX_LINEAR
    && -HARD_MAX_ANGULAR <= f.angular <= HARD_MAX_ANGULAR
    && (!f.deadman ==> f.linear == 0.0 && f.angular == 0.0)
  }

  /** Where a request stands: each point is an await of the handler. */
  datatype Point =
    | Waiting                          // not yet admitted (or queued for the lock)
    | Refusing                         // writing the rejection
    | Checking                         // rate, lease and cached ids
    | Looking                          // asking the audit table
    | Looked(recorded: bool)
    | Auditing(session: nat)           // writing the audit row
    | Audited(session: nat)
    | Retiring(session: nat, rest: map<Id, Entry>)  // a reset closing older commands
    | Forwarding                       // the frame is being sent to the robot
    | Doubting                         // marking a failed send as uncertain
    | Reporting                        // emitting the final event

  datatype Stage = Queued | Writing | Deciding

  datatype Task =
    | Request(command: Command, id: Id, client: nat, takeover: bool, arrival: nat,
              point: Point, after: Option<nat>)
    | Revoke(owner: nat, serial: int, issueStop: bool, stage: Stage)
    | Velocity(owner: nat, frame: Frame, stage: Stage)
    | Doubt(id: Id, entry: Entry, after: Option<nat>)

  /** The start of one write of a velocity frame to an owner's socket. */
  datatype Write = Write(owner: nat, frame: Frame, byRevoke: bool)

  /** The start of one command frame to the robot, and the request it was sent for. */
  datatype Forward = Forward(command: Command, id: Id, request: nat)

  /** Everything the broker reads but does not decide. */
  datatype Env = Env(
    binding: Binding, lease: Option<nat>, clear: bool,
    capable: bool, source: Source, robotGeneration: Option<int>, now: real)

  /** The last line is history: what the audit table held at the start, writes and forwards
      started, ids the robot or the broker has finally answered, and the id of every request
      by task number. `timers` holds the timers by the number of the request they belong to;
      they outlive their entry when another request takes its place in the open table. */
  datatype State = State(
    tasks: map<nat, Task>, next: nat, lock: Option<nat>,
    revision: nat, owner: Option<nat>, heap: seq<Owner>,
    active: map<Id, Entry>, resetPending: Option<Id>, lidarPending: Option<Id>, recovery: bool,
    timers: map<nat, Timer>, seen: seq<Id>, hasDb: bool, audit: set<Id>, env: Env,
    former: set<Id>, wire: seq<Write>, forwarded: seq<Forward>, answered: set<Id>, asked: map<nat, Id>)

  const SEEN_LIMIT := 512

  /** The current owner is in the heap. */
  predicate Placed(s: State) { s.owner.Some? ==> s.owner.value < |s.heap| }

  /** Task numbers are handed out in order and owner references stay inside the heap. */
  ghost predicate Formed(s: State) {
    && (forall t :: t in s.tasks ==> t < s.next)
    && Placed(s)
    && (forall t :: t in s.tasks && (s.tasks[t].Revoke? || s.tasks[t].Velocity?) ==> s.tasks[t].owner < |s.heap|)
  }

  /** A started server: nothing in memory. The audit table may hold anything. */
  predicate Started(s: State) {
    && s.tasks == map[] && s.lock.None? && s.owner.None? && s.heap == [] && s.active == map[]
    && s.resetPending.None? && s.lidarPending.None? && !s.recovery && s.timers == map[] && s.seen == []
    && s.former == s.audit && s.wire == [] && s.forwarded == [] && s.answered == {} && s.asked == map[]
  }

  // ---- Tests the code makes --------------------------------------------------

  predicate Bound(s: State, o: Owner) {
    s.env.binding.base.Some? && o.binding == s.env.binding
  }

  predicate OwnsLease(s: State, o: Owner) { s.env.lease == Some(o.client) }

  function Resolved(s: State): Option<Policy> {
    Resolve(s.env.capable, s.env.source, s.env.now, s.env.robotGeneration)
  }

  predicate PolicyProblem(s: State, o: Owner) {
    Resolved(s).None? || SignatureOf(Resolved(s).value) != SignatureOf(o.policy)
  }

  predicate Ready(s: State, t: nat) {
    && t in s.tasks
    && (s.tasks[t].Request? || s.tasks[t].Doubt? ==>
          s.tasks[t].after.None? || s.tasks[t].after.value !in s.tasks)
  }

  predicate At(s: State, t: nat, p: Point) {
    Ready(s, t) && s.tasks[t].Request? && s.tasks[t].point == p
  }

  // ---- Pieces shared by several coroutines ------------------------------------

  function Put(s: State, t: nat, task: Task): State { s.(tasks := s.tasks[t := task]) }

  function Move(s: State, t: nat, p: Point): State
    requires t in s.tasks && s.tasks[t].Request?
  {
    Put(s, t, s.tasks[t].(point := p, after := None))
  }

  function MoveAfter(s: State, t: nat, p: Point, after: nat): State
    requires t in s.tasks && s.tasks[t].Request?
  {
    Put(s, t, s.tasks[t].(point := p, after := Some(after)))
  }

  /** The task is gone; a request gives the admission lock back. */
  function End(s: State, t: nat): State {
    s.(tasks := s.tasks - {t}, lock := if s.lock == Some(t) then None else s.lock)
  }

  /** The owners after a revocation: the current one is over. */
  function Closed(s: State): seq<Owner>
    requires Placed(s)
  {
    if s.owner.None? then s.heap
    else
      var w := s.heap[s.owner.value];
      s.heap[s.owner.value := w.(phase := if w.phase == Unknown then Unknown else Closing)]
  }

  /** A revocation as far as the fields go. */
  function Settle(s: State): State
    requires Placed(s)
  {
    s.(revision := s.revision + 1, next := s.next + 1, heap := Closed(s))
  }

  /** The part of revoke before its first await, run inside its caller. The rest
      becomes task `s.next`. */
  ghost function RevokeNow(s: State, issueStop: bool, zeroSent: bool): State
    requires Placed(s)
  {
    if s.owner.None? then Settle(s)
    else
      var w := s.heap[s.owner.value];
      var stage := if Live(w.phase) && !zeroSent then Queued else Deciding;
      Put(Settle(s), s.next, Revoke(s.owner.value, w.serial + 1, issueStop, stage))
  }

  /** What a final answer to `id` does to an owner. */
  function Heard(w: Owner, id: Id): Owner {
    if id == w.command then w.(startTerminal := true, phase := Closing, stopIds := w.stopIds - {id})
    else w.(stopIds := w.stopIds - {id})
  }

  predicate Over(w: Owner) { w.startTerminal && w.stopIds == {} }

  /** The current owner becomes `v`, and is dropped once everything is resolved. */
  function HearAs(s: State, id: Id, v: Owner): State
    requires s.owner.Some? && Placed(s)
  {
    s.(answered := s.answered + {id},
       revision := if id == v.command then s.revision + 1 else s.revision,
       heap := s.heap[s.owner.value := v],
       owner := if Over(v) then None else s.owner)
  }

  /** TeleopController.terminal: a robot's final word on a start or a stop. */
  function Terminal(s: State, id: Id): State
    requires Placed(s)
  {
    if s.owner.None? then s.(answered := s.answered + {id})
    else HearAs(s, id, Heard(s.heap[s.owner.value], id))
  }

  /** CommandBroker._finish for the entry of request `origin`: whatever is open under the id
      leaves the table, the barrier of the entry's own command falls, and its own timers
      stop. */
  function Finish(s: State, id: Id, command: Command, origin: nat): State {
    if id !in s.active then s
    else s.(active := s.active - {id}, timers := s.timers - {origin},
            resetPending := if command == SoftwareReset then None else s.resetPending,
            lidarPending := if command == SetLidarPower then None else s.lidarPending)
  }

  /** The owners after a command became uncertain: a manual one makes the current one unknown. */
  function Unsure(s: State, command: Command): seq<Owner>
    requires Placed(s)
  {
    if IsTeleop(command) && s.owner.Some?
    then s.heap[s.owner.value := s.heap[s.owner.value].(phase := Unknown)]
    else s.heap
  }

  /** CommandBroker._mark_uncertain for the entry of request `origin`: it stays open. */
  function MarkUncertain(s: State, id: Id, command: Command, origin: nat): State
    requires Placed(s)
  {
    if id !in s.active then s
    else
      var e := s.active[id];
      s.(active := s.active[id := if e.request == origin then e.(uncertain := true) else e], heap := Unsure(s, command))
  }

  /** _close_out: a command the robot never resolved. */
  ghost function CloseOut(s: State, id: Id, command: Command, origin: nat): State
    requires Placed(s)
  {
    if command == SetLidarPower then MarkUncertain(s, id, command, origin) else Finish(s, id, command, origin)
  }

  function Remember(seen: seq<Id>, id: Id): (r: seq<Id>)
    ensures |seen| <= SEEN_LIMIT ==> |r| <= SEEN_LIMIT
  {
    var all := if id in seen then seen else seen + [id];
    if |all| > SEEN_LIMIT then all[|all| - SEEN_LIMIT..] else all
  }

  // ---- A browser request, await by await --------------------------------------

  /** What the handler's first tests decide: whether to revoke, and with a stop
      request or not, and whether the request is refused. */
  datatype Verdict = Verdict(revoke: Option<bool>, refused: bool)

  function Judge(s: State, q: Task, allowed: bool): Verdict
    requires q.Request?
  {
    var c := q.command;
    var pending := s.resetPending;
    var retry := c == SoftwareReset && pending.Some? && pending.value in s.active && s.active[pending.value].uncertain;
    if !allowed then Verdict(None, true)
    else if c == TeleopStart && s.owner.Some? then Verdict(if q.takeover then Some(true) else None, true)
    else if s.lidarPending.Some? && !IgnoresLidar(c) then Verdict(None, true)
    else if pending.Some? && !Bypasses(c) && !retry then Verdict(None, true)
    else if Unmetered(c) then Verdict(Some(c != TeleopStop), false)
    else if c != TeleopStart && s.owner.Some? then Verdict(Some(true), true)
    else Verdict(None, false)
  }

  /** From arrival at the handler to its first await. */
  ghost function Admit(s: State, t: nat, allowed: bool): State
    requires Formed(s)
  {
    if !At(s, t, Waiting) || (!Bypasses(s.tasks[t].command) && s.lock.Some?) then s
    else
      var v := Judge(s, s.tasks[t], allowed);
      var p := if v.refused then Refusing else Checking;
      var s1 := if Bypasses(s.tasks[t].command) then s else s.(lock := Some(t));
      if v.revoke.None? then Move(s1, t, p) else MoveAfter(RevokeNow(s1, v.revoke.value, false), t, p, s.next)
  }

  /** The rejection row is written and the request ends. */
  function Refuse(s: State, t: nat): State {
    if !At(s, t, Refusing) then s
    else End(s.(audit := if s.hasDb then s.audit + {s.tasks[t].id} else s.audit), t)
  }

  /** Rate limit, lease and the id cache. `passes` is the verdict of the first two. */
  function Check(s: State, t: nat, passes: bool): State {
    if !At(s, t, Checking) then s
    else
      var q := s.tasks[t];
      if !Unmetered(q.command) && !passes then Move(s, t, Refusing)
      else
        var s1 := if Unmetered(q.command) then s else s.(env := s.env.(lease := Some(q.client)));
        if q.id in s.seen then Move(s1, t, Refusing)
        else Move(s1, t, if s.hasDb then Looking else Looked(false))
  }

  /** The audit table answers the duplicate query. */
  function LookUp(s: State, t: nat): State {
    if !At(s, t, Looking) then s else Move(s, t, Looked(s.tasks[t].id in s.audit))
  }

  /** TeleopController.prepare: a new owner, or None for a refusal. */
  function Prepare(s: State, t: nat): Option<Owner>
    requires t in s.tasks && s.tasks[t].Request?
  {
    if s.owner.Some? || s.active != map[] || !s.env.clear || s.env.binding.base.None? || Resolved(s).None? then None
    else Some(Owner(s.tasks[t].id, s.tasks[t].client, s.env.binding, Resolved(s).value,
                    Pending, -1, false, {}, false, None, t, s.tasks[t].arrival, {}))
  }

  /** The id has passed the duplicate check. */
  function Pass(s: State, id: Id): State { s.(seen := Remember(s.seen, id)) }

  /** The request goes on to its audit row; a start takes its new owner with it. */
  function PassTo(s: State, t: nat): State
    requires t in s.tasks && s.tasks[t].Request?
    requires s.tasks[t].command == TeleopStart ==> Prepare(Pass(s, s.tasks[t].id), t).Some?
  {
    var s1 := Pass(s, s.tasks[t].id);
    var session := s.env.binding.session;
    var next := if s.hasDb then Auditing(session) else Audited(session);
    if s.tasks[t].command == TeleopStart
    then Move(s1.(heap := s.heap + [Prepare(s1, t).value], owner := Some(|s.heap|)), t, next)
    else Move(s1, t, next)
  }

  /** From the duplicate verdict to the audit await. `passes` stands for the goal,
      connection and hardware gates, which only telemetry decides. */
  function Validate(s: State, t: nat, passes: bool): State {
    if !(Ready(s, t) && s.tasks[t].Request? && s.tasks[t].point.Looked?) then s
    else
      var q := s.tasks[t];
      if q.point.recorded then Move(s, t, Refusing)
      else if !passes || s.env.binding.socket.None? || (s.recovery && NeedsLidar(q.command))
           || (q.command == TeleopStart && (q.arrival != s.revision || Prepare(Pass(s, q.id), t).None?))
      then Move(Pass(s, q.id), t, Refusing)
      else PassTo(s, t)
  }

  /** The audit row is in the table. */
  function Record(s: State, t: nat): State {
    if !(Ready(s, t) && s.tasks[t].Request? && s.tasks[t].point.Auditing?) then s
    else Move(s.(audit := s.audit + {s.tasks[t].id}), t, Audited(s.tasks[t].point.session))
  }

  /** The socket an entry captures: its session's current one. */
  function SocketOf(s: State, session: nat, stale: Option<nat>): Option<nat> {
    if session == s.env.binding.session then s.env.binding.socket else stale
  }

  /** The last look before a manual start is sent. */
  predicate StartStands(s: State, t: nat)
    requires t in s.tasks && s.tasks[t].Request?
    requires Placed(s)
  {
    && s.owner.Some?
    && var w := s.heap[s.owner.value];
    && w.command == s.tasks[t].id && w.phase == Pending && s.tasks[t].arrival == s.revision
    && Bound(s, w) && OwnsLease(s, w) && s.env.clear
  }

  /** TeleopController.stop_pending. */
  ghost function NoteStop(s: State, id: Id): State
    requires Placed(s)
  {
    if s.owner.None? then s
    else
      var w := s.heap[s.owner.value];
      var v := w.(stopIds := w.stopIds + {id}, stopIssued := true, attached := w.attached + {id});
      s.(heap := s.heap[s.owner.value := v])
  }

  /** The entry joins the open table, the barrier it stands for goes up, and the
      request is about to send. */
  function Launch(s: State, t: nat, session: nat, stale: Option<nat>): State
    requires t in s.tasks && s.tasks[t].Request?
  {
    var q := s.tasks[t];
    Move(s.(active := s.active[q.id := Entry(q.command, t, false, false, session, SocketOf(s, session, stale))],
            resetPending := if q.command == SoftwareReset then Some(q.id) else s.resetPending,
            lidarPending := if q.command == SetLidarPower then Some(q.id) else s.lidarPending), t, Forwarding)
  }

  /** The launched command starts towards the robot and its timers start. */
  function Dispatch(s: State, t: nat, session: nat, stale: Option<nat>): State
    requires t in s.tasks && s.tasks[t].Request?
  {
    var q := s.tasks[t];
    Launch(s, t, session, stale).(forwarded := s.forwarded + [Forward(q.command, q.id, t)],
                                  timers := s.timers[t := Timer(q.id, q.command)])
  }

  /** The frame starts towards the robot, unless this is a manual start that was
      canceled meanwhile: that one is closed again at once. */
  ghost function Open(s: State, t: nat, session: nat, stale: Option<nat>): State
    requires Placed(s) && t in s.tasks && s.tasks[t].Request?
  {
    var q := s.tasks[t];
    if q.command == TeleopStart && !StartStands(s, t)
    then End(Finish(Terminal(Launch(s, t, session, stale), q.id), q.id, q.command, t), t)
    else if q.command == TeleopStop then NoteStop(Dispatch(s, t, session, stale), q.id)
    else Dispatch(s, t, session, stale)
  }

  /** After the audit row: a reset first drops the owner and retires what is open. */
  ghost function Publish(s: State, t: nat, stale: Option<nat>): State
    requires Placed(s)
  {
    if !(Ready(s, t) && s.tasks[t].Request? && s.tasks[t].point.Audited?) then s
    else
      var session := s.tasks[t].point.session;
      if s.tasks[t].command == SoftwareReset then Move(s.(owner := None), t, Retiring(session, s.active))
      else Open(s, t, session, stale)
  }

  /** One round of the reset's loop over the commands it found open, or its end. */
  ghost function Retire(s: State, t: nat, id: Id, stale: Option<nat>): State
    requires Placed(s)
  {
    if !(Ready(s, t) && s.tasks[t].Request? && s.tasks[t].point.Retiring?) then s
    else
      var p := s.tasks[t].point;
      if p.rest == map[] then Open(s, t, p.session, stale)
      else if id !in p.rest then s
      else
        var entry := p.rest[id];
        var s1 := s.(recovery := s.recovery || entry.command == SetLidarPower);
        Move(Finish(s1, id, entry.command, entry.request), t, Retiring(p.session, p.rest - {id}))
  }

  /** The send returned or raised. */
  ghost function Sent(s: State, t: nat, ok: bool): State
    requires Formed(s)
  {
    if !At(s, t, Forwarding) then s
    else
      var q := s.tasks[t];
      if ok then Move(s, t, Reporting)
      else if IsTeleop(q.command) then MoveAfter(RevokeNow(s, false, false), t, Doubting, s.next)
      else if q.command == SetLidarPower || q.command == SoftwareReset then End(MarkUncertain(s, q.id, q.command, t), t)
      else End(CloseOut(s, q.id, q.command, t), t)
  }

  /** The tail of a request. */
  ghost function Conclude(s: State, t: nat): State
    requires Formed(s)
  {
    if At(s, t, Reporting) then End(s, t)
    else if At(s, t, Doubting) then End(MarkUncertain(s, s.tasks[t].id, s.tasks[t].command, t), t)
    else s
  }

  // ---- Robot answers and timers -------------------------------------------------

  /** Manual answers count only on the connection the command went out on. */
  predicate Answers(s: State, id: Id, from: nat) {
    && id in s.active
    && (IsTeleop(s.active[id].command) ==>
          s.active[id].session == from == s.env.binding.session && s.active[id].socket == s.env.binding.socket)
  }

  ghost function Acknowledge(s: State, id: Id, from: nat, accepted: bool): State
    requires Placed(s)
  {
    if !Answers(s, id, from) then s
    else
      var e := s.active[id];
      var s1 := s.(active := s.active[id := e.(acked := true)]);
      if accepted then
        if e.command != TeleopStart then s1
        else if s.owner.Some? && s.heap[s.owner.value].command == id && Live(s.heap[s.owner.value].phase)
             && Bound(s, s.heap[s.owner.value]) && OwnsLease(s, s.heap[s.owner.value]) && s.env.clear
        then s1.(heap := s.heap[s.owner.value := s.heap[s.owner.value].(phase := Active)])
        else RevokeNow(s1, true, false)
      else Finish(if IsTeleop(e.command) then Terminal(s1, id) else s1, id, e.command, e.request)
  }

  datatype Outcome = Succeeded | Failed | Rejected | Canceled | TimedOut

  /** The rest of a coroutine that revokes and then marks its command uncertain. */
  ghost function RevokeThenDoubt(s: State, id: Id, entry: Entry, issueStop: bool): State
    requires Placed(s)
  {
    var s1 := RevokeNow(s, issueStop, false);
    Put(s1.(next := s1.next + 1), s1.next, Doubt(id, entry, Some(s.next)))
  }

  ghost function Conclusion(s: State, id: Id, from: nat, outcome: Outcome): State
    requires Placed(s)
  {
    if !Answers(s, id, from) then s
    else
      var e := s.active[id];
      var c := e.command;
      if IsTeleop(c) then
        if outcome == TimedOut then RevokeThenDoubt(s, id, e, false)
        else Finish(Terminal(s, id), id, c, e.request)
      else if outcome == TimedOut && (c == SoftwareReset || c == SetLidarPower) then MarkUncertain(s, id, c, e.request)
      else
        var s1 := if c == SetLidarPower then s.(recovery := outcome != Succeeded) else s;
        Finish(s1, id, c, e.request)
  }

  /** Either server-side timer of an open command. */
  ghost function Expire(s: State, id: Id, forAck: bool): State
    requires Placed(s)
  {
    if id !in s.active || (forAck && s.active[id].acked) then s
    else
      var e := s.active[id];
      if IsTeleop(e.command) then RevokeThenDoubt(s, id, e, true)
      else if e.command == SetLidarPower || e.command == SoftwareReset then MarkUncertain(s, id, e.command, e.request)
      else CloseOut(s, id, e.command, e.request)
  }

  /** The timer of request `origin` belongs to no entry of the table any more. */
  predicate Stray(s: State, origin: nat) {
    origin in s.timers
    && (s.timers[origin].id in s.active ==> s.active[s.timers[origin].id].request != origin)
  }

  /** A command whose timer does no more than take the id out of the open table. */
  predicate Ordinary(c: Command) { !IsTeleop(c) && c != SetLidarPower && c != SoftwareReset }

  /** Either timer of an entry that another request has replaced: it closes whatever is
      open under its id now. */
  ghost function Linger(s: State, origin: nat): State
    requires Placed(s)
  {
    if !Stray(s, origin) then s
    else
      var id, c := s.timers[origin].id, s.timers[origin].command;
      if IsTeleop(c) then RevokeThenDoubt(s, id, Entry(c, origin, false, false, 0, None), true)
      else if Ordinary(c) then Finish(s, id, c, origin)
      else s
  }

  ghost function DoubtNow(s: State, t: nat): State
    requires Placed(s)
  {
    if !(Ready(s, t) && s.tasks[t].Doubt?) then s
    else End(MarkUncertain(s, s.tasks[t].id, s.tasks[t].entry.command, s.tasks[t].entry.request), t)
  }

  // ---- Velocity frames and the send path -----------------------------------------

  /** A frame reaches the controller. `trusted` is the account check, `timely` the
      timestamp window, `paced` the frame-rate window. */
  ghost function Steer(s: State, client: nat, frame: Frame, trusted: bool, timely: bool, paced: bool): State
    requires Formed(s)
  {
    if s.owner.None? || !ValidFrame(frame) then s
    else
      var o := s.owner.value;
      var w := s.heap[o];
      var admitted := Put(s.(heap := s.heap[o := w.(serial := frame.serial)], next := s.next + 1),
                          s.next, Velocity(o, frame, Queued));
      if w.client != client || !trusted || w.command != frame.command || frame.serial <= w.serial
         || !Bound(s, w) || !OwnsLease(s, w) || !timely then s
      else if !frame.deadman then admitted
      else if w.phase != Active then s
      else if !s.env.clear || PolicyProblem(s, w) || OverPolicy(w.policy, frame.linear, frame.angular)
      then RevokeNow(s, true, false)
      else if w.sendLock.Some? || !paced then s
      else admitted
  }

  /** What happens when the send of task `t` comes back. A failed or released
      velocity goes on as a revoke; a revoke goes on to its stop decision. */
  ghost function Returned(s: State, t: nat, sent: bool): State
    requires Formed(s) && t in s.tasks && (s.tasks[t].Velocity? || s.tasks[t].Revoke?)
  {
    var task := s.tasks[t];
    var w := s.heap[task.owner];
    var v := w.(sendLock := if w.sendLock == Some(t) then None else w.sendLock,
                phase := if task.Revoke? && !sent then Unknown else w.phase);
    var s1 := s.(heap := s.heap[task.owner := v]);
    if task.Revoke? then Put(s1, t, Revoke(task.owner, task.serial, task.issueStop, Deciding))
    else if sent && task.frame.deadman then End(s1, t)
    else RevokeNow(End(s1, t), true, sent)
  }

  /** The frame a sending task writes. */
  function FrameOf(s: State, t: nat): Frame
    requires t in s.tasks && (s.tasks[t].Velocity? || s.tasks[t].Revoke?)
    requires s.tasks[t].owner < |s.heap|
  {
    if s.tasks[t].Velocity? then s.tasks[t].frame
    else Frame(s.heap[s.tasks[t].owner].command, s.tasks[t].serial, 0.0, 0.0, false)
  }

  predicate Sending(s: State, t: nat, stage: Stage) {
    Ready(s, t) && (s.tasks[t].Velocity? || s.tasks[t].Revoke?) && s.tasks[t].stage == stage
  }

  /** The send lock is free: look once more, then start the write. */
  ghost function StartWrite(s: State, t: nat): State
    requires Formed(s)
  {
    if !Sending(s, t, Queued) || s.heap[s.tasks[t].owner].sendLock.Some? then s
    else
      var o := s.tasks[t].owner;
      var w := s.heap[o];
      var frame := FrameOf(s, t);
      if !Bound(s, w) || (frame.deadman && (w.phase != Active || !OwnsLease(s, w))) then Returned(s, t, false)
      else Put(s.(heap := s.heap[o := w.(sendLock := Some(t))],
                  wire := s.wire + [Write(o, frame, s.tasks[t].Revoke?)]),
               t, s.tasks[t].(stage := Writing))
  }

  /** The write finished, or failed or timed out in mid-write. */
  ghost function EndWrite(s: State, t: nat, ok: bool): State
    requires Formed(s)
  {
    if !Sending(s, t, Writing) then s
    else Returned(s, t, ok && Bound(s, s.heap[s.tasks[t].owner]))
  }

  /** The bounded wait for the send lock ran out. */
  ghost function GiveUp(s: State, t: nat): State
    requires Formed(s)
  {
    if !Sending(s, t, Queued) then s else Returned(s, t, false)
  }

  /** The end of revoke: request a stop once, on the owner's own connection. The
      task goes on as that request. */
  ghost function Decide(s: State, t: nat, id: Id): State
    requires Formed(s)
  {
    if !(Ready(s, t) && s.tasks[t].Revoke? && s.tasks[t].stage == Deciding) then s
    else
      var o := s.tasks[t].owner;
      var w := s.heap[o];
      if !s.tasks[t].issueStop || w.stopIssued then End(s, t)
      else if !Bound(s, w) then End(s.(heap := s.heap[o := w.(stopIssued := true, phase := Unknown)]), t)
      else Put(s.(heap := s.heap[o := w.(stopIssued := true)], asked := s.asked[t := id]), t,
               Request(TeleopStop, id, w.client, false, s.revision, Waiting, None))
  }

  /** A cancelled coroutine unwinds. Requests that hold the lock are never cancelled. */
  ghost function Abort(s: State, t: nat): State
    requires Formed(s)
  {
    if t !in s.tasks || (s.tasks[t].Request? && !Bypasses(s.tasks[t].command)) then s
    else if s.tasks[t].Revoke? || s.tasks[t].Velocity? then
      var w := s.heap[s.tasks[t].owner];
      End(s.(heap := s.heap[s.tasks[t].owner := w.(sendLock := if w.sendLock == Some(t) then None else w.sendLock)]), t)
    else End(s, t)
  }

  // ---- Events and runs --------------------------------------------------------------

  datatype Event =
    | Changed(env: Env)
    | Arrives(command: Command, id: Id, client: nat, takeover: bool)
    | Admits(t: nat, ok: bool)
    | Refuses(t: nat)
    | Checks(t: nat, ok: bool)
    | LooksUp(t: nat)
    | Validates(t: nat, ok: bool)
    | Records(t: nat)
    | Publishes(t: nat, stale: Option<nat>)
    | Retires(t: nat, id: Id, stale: Option<nat>)
    | Sends(t: nat, ok: bool)
    | Concludes(t: nat)
    | Acks(id: Id, from: nat, accepted: bool)
    | Results(id: Id, from: nat, outcome: Outcome)
    | Expires(id: Id, forAck: bool)
    | Lingers(origin: nat)
    | Doubts(t: nat)
    | Revokes                      // watchdog, changed readings, lost browser or robot
    | Steers(client: nat, frame: Frame, trusted: bool, timely: bool, paced: bool)
    | StartsWrite(t: nat)
    | EndsWrite(t: nat, ok: bool)
    | GivesUp(t: nat)
    | Decides(t: nat, id: Id)
    | Aborts(t: nat)

  ghost function Apply(s: State, e: Event): State
    requires Formed(s)
  {
    match e
    case Changed(env) => s.(env := env)
    case Arrives(c, id, client, takeover) =>
      Put(s.(next := s.next + 1, asked := s.asked[s.next := id]), s.next,
          Request(c, id, client, takeover, s.revision, Waiting, None))
    case Admits(t, ok) => Admit(s, t, ok)
    case Refuses(t) => Refuse(s, t)
    case Checks(t, ok) => Check(s, t, ok)
    case LooksUp(t) => LookUp(s, t)
    case Validates(t, ok) => Validate(s, t, ok)
    case Records(t) => Record(s, t)
    case Publishes(t, stale) => Publish(s, t, stale)
    case Retires(t, id, stale) => Retire(s, t, id, stale)
    case Sends(t, ok) => Sent(s, t, ok)
    case Concludes(t) => Conclude(s, t)
    case Acks(id, from, accepted) => Acknowledge(s, id, from, accepted)
    case Results(id, from, outcome) => Conclusion(s, id, from, outcome)
    case Expires(id, forAck) => Expire(s, id, forAck)
    case Lingers(origin) => Linger(s, origin)
    case Doubts(t) => DoubtNow(s, t)
    case Revokes => RevokeNow(s, true, false)
    case Steers(client, frame, trusted, timely, paced) => Steer(s, client, frame, trusted, timely, paced)
    case StartsWrite(t) => StartWrite(s, t)
    case EndsWrite(t, ok) => EndWrite(s, t, ok)
    case GivesUp(t) => GiveUp(s, t)
    case Decides(t, id) => Decide(s, t, id)
    case Aborts(t) => Abort(s, t)
  }
}
