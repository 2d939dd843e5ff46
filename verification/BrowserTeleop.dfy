/**
 The browser's manual-drive store, frontend/src/stores/teleopStore.ts and the ramp of
 frontend/src/lib/teleop.ts: a step function per entry point, with a log of what was
 sent and accepted. BrowserRuns states what holds after every run of events.
 */
module BrowserTeleop {
  import opened Options

  // ---- The world around the store ------------------------------------------------------

  datatype Caps = Caps(linear: real, angular: real)

  const CONTRACT_CAPS := Caps(0.3, 0.7)

  /** Speed limits as the tuning store lets them through. */
  type Limits = c: Caps | 0.0 <= c.linear <= 0.3 && 0.0 <= c.angular <= 0.7 witness Caps(0.0, 0.0)

  /** What a policy signature captures: the limits in force and the tuning session,
      revision and digest they came from. */
  datatype Policy = Legacy | Tuned(limits: Option<Limits>, stamp: int)

  function Operational(p: Policy): Option<Limits> {
    match p
    case Legacy => Some(CONTRACT_CAPS)
    case Tuned(limits, _) => limits
  }

  /** Everything the store reads from other stores; `ready` stands for the gates other
      than the speed policy. */
  datatype World = World(ready: bool, policy: Policy, operator: int, robotGeneration: int, robot: int, connected: bool)

  predicate Allowed(w: World) { w.ready && Operational(w.policy).Some? }

  // ---- The store -----------------------------------------------------------------------------

  datatype Phase = Idle | Armed | Pending | Active | Stopping

  /** A random identifier: the start of a session, the k-th stop of a session, or one
      that this browser never issued. */
  datatype Token = StartOf(session: nat) | StopOf(of: nat, k: nat) | Foreign(n: int)

  /** `stops` counts the stop identifiers issued; they are 0 .. stops - 1. */
  datatype Session = Session(generation: nat, robotGeneration: int, robot: int, seqNo: nat, lateClosed: bool,
                             accepted: bool, startTerminal: bool, stops: nat, pendingStops: set<nat>, policy: Policy)

  datatype Entry =
    | Started(session: nat, takeover: bool, policy: Policy)
    | Sampled(session: nat, seqNo: nat, deadman: bool, linear: real, angular: real)
    | StopSent(session: nat, k: nat)
    | Accepted(session: nat)

  /** Sessions are named by their position in the order of creation. */
  datatype Store = Store(phase: Phase, generation: nat, session: Option<nat>, linear: real, angular: real,
                         targetLinear: real, targetAngular: real, ramp: bool, deadman: bool, takeover: bool,
                         sessions: seq<Session>, watcher: Option<int>, log: seq<Entry>, world: World)

  const INITIAL_WORLD := World(false, Legacy, 0, 0, 0, false)

  const INITIAL := Store(Idle, 0, None, 0.0, 0.0, 0.0, 0.0, false, false, false, [], None, [], INITIAL_WORLD)

  predicate Driving(p: Phase) { p == Armed || p == Pending || p == Active }

  function Sample(s: Store, n: nat, deadman: bool, linear: real, angular: real): Store
    requires n < |s.sessions|
  {
    var ses := s.sessions[n];
    s.(sessions := s.sessions[n := ses.(seqNo := ses.seqNo + 1)],
       log := s.log + [Sampled(n, ses.seqNo, deadman, if deadman then linear else 0.0,
                               if deadman then angular else 0.0)])
  }

  function SendStop(s: Store, n: nat): Store
    requires n < |s.sessions|
  {
    var ses := s.sessions[n];
    s.(sessions := s.sessions[n := ses.(stops := ses.stops + 1, pendingStops := ses.pendingStops + {ses.stops})],
       log := s.log + [StopSent(n, ses.stops)])
  }

  function FinishIfResolved(s: Store, n: nat): Store
    requires n < |s.sessions|
  {
    if s.session == Some(n) && s.sessions[n].startTerminal && s.sessions[n].pendingStops == {} then
      s.(phase := Idle, session := None)
    else s
  }

  /** Zeroes the input and moves to a new generation. */
  function Quiet(s: Store, phase: Phase): Store {
    s.(phase := phase, generation := s.generation + 1, deadman := false, linear := 0.0, angular := 0.0,
       targetLinear := 0.0, targetAngular := 0.0, ramp := false)
  }

  function End(s: Store): Store
    requires s.session.Some? ==> s.session.value < |s.sessions|
  {
    if s.phase == Idle || s.phase == Stopping then s
    else if s.session.None? then Quiet(s, Idle).(watcher := None)
    else SendStop(Sample(Quiet(s, Stopping).(watcher := None), s.session.value, false, 0.0, 0.0), s.session.value)
  }

  function Check(s: Store): Store
    requires s.session.Some? ==> s.session.value < |s.sessions|
  {
    if s.watcher.None? || !Driving(s.phase) then s
    else if !Allowed(s.world) || s.watcher.value != s.world.operator then End(s)
    else if s.session.Some?
         && var ses := s.sessions[s.session.value];
            (ses.policy != s.world.policy || ses.robotGeneration != s.world.robotGeneration ||
             ses.robot != s.world.robot)
    then End(s)
    else s
  }

  function Arm(s: Store, takeover: bool): Store {
    if s.phase != Idle || !Allowed(s.world) then s
    else s.(phase := Armed, generation := s.generation + 1, takeover := takeover, watcher := Some(s.world.operator))
  }

  /** A requested speed, absent when it is not a finite number. */
  function Bounded(value: Option<real>, cap: real): (r: real)
    requires cap >= 0.0
    ensures -cap <= r <= cap
  {
    match value
    case None => 0.0
    case Some(v) => if v < -cap then -cap else if v > cap then cap else v
  }

  /** `expired` says that the policy ran out between the two readings of the clock. */
  function Input(s: Store, linear: Option<real>, angular: Option<real>, deadman: bool, takeover: bool, digital: bool,
                 expired: bool): Store
    requires s.session.Some? ==> s.session.value < |s.sessions|
  {
    if !deadman then End(s)
    else if !Driving(s.phase) then s
    else if !Allowed(s.world) || expired then End(s)
    else
      var caps := Operational(s.world.policy).value;
      var l, a := Bounded(linear, caps.linear), Bounded(angular, caps.angular);
      var aimed := Aim(s, l, a, digital);
      if s.phase != Armed then aimed else Begin(aimed, takeover || s.takeover)
  }

  /** A key asks for a target to ramp to; a stick sets the speed itself. */
  function Aim(s: Store, l: real, a: real, digital: bool): Store {
    if digital then s.(targetLinear := l, targetAngular := a, ramp := true, deadman := true)
    else s.(linear := l, angular := a, targetLinear := l, targetAngular := a, ramp := false, deadman := true)
  }

  function Begin(s: Store, takeover: bool): Store {
    var ses := Session(s.generation, s.world.robotGeneration, s.world.robot, 0, false, false, false, 0, {},
                       s.world.policy);
    var n := |s.sessions|;
    var begun := s.(sessions := s.sessions + [ses], session := Some(n), phase := Pending,
                    log := s.log + [Started(n, takeover, s.world.policy)]);
    if s.world.connected then begun else End(begun)
  }

  // ---- The ramp ------------------------------------------------------------------------------

  const STEP_LINEAR: real := 0.3 * 0.08
  const STEP_ANGULAR: real := 0.7 * 0.08

  function Magnitude(x: real): real { if x < 0.0 then -x else x }

  function Sign(x: real): int { if x > 0.0 then 1 else if x < 0.0 then -1 else 0 }

  function RampToward(current: real, target: real, step: real): real {
    var delta := target - current;
    if Magnitude(delta) <= step then target
    else
      var next := current + Sign(delta) as real * step;
      if current != 0.0 && Sign(next) != Sign(current) then 0.0 else next
  }

  function RampTick(s: Store): Store {
    if !s.ramp || !s.deadman || s.phase != Active then s
    else s.(linear := RampToward(s.linear, s.targetLinear, STEP_LINEAR),
            angular := RampToward(s.angular, s.targetAngular, STEP_ANGULAR))
  }

  /** One tick of the interval timer. */
  function Tick(s: Store): Store
    requires s.session.Some? ==> s.session.value < |s.sessions|
  {
    if s.watcher.None? then s
    else
      var ramped := RampTick(Check(s));
      if ramped.phase == Active && ramped.deadman && ramped.session.Some? then
        var sent := Sample(ramped, ramped.session.value, true, ramped.linear, ramped.angular);
        if s.world.connected then sent else End(sent)
      else ramped
  }

  // ---- Answers from the server --------------------------------------------------------------------

  function WithSession(s: Store, n: nat, ses: Session): Store
    requires n < |s.sessions|
  {
    s.(sessions := s.sessions[n := ses])
  }

  function AckStop(s: Store, n: nat, k: nat, accepted: bool): Store
    requires n < |s.sessions|
  {
    if accepted then s
    else FinishIfResolved(WithSession(s, n, s.sessions[n].(pendingStops := s.sessions[n].pendingStops - {k})), n)
  }

  /** The store once it has noted an acceptance, before it acts on it. */
  function Told(s: Store, n: nat, late: bool): Store
    requires n < |s.sessions|
  {
    var ses := s.sessions[n];
    WithSession(s, n, ses.(accepted := true, lateClosed := ses.lateClosed || late)).(log := s.log + [Accepted(n)])
  }

  function Accept(s: Store, n: nat): Store
    requires n < |s.sessions| && (s.session.Some? ==> s.session.value < |s.sessions|)
  {
    var ses := s.sessions[n];
    var current := s.session == Some(n);
    if ses.accepted then s
    else if current && s.phase == Pending && s.generation == ses.generation && s.deadman && Allowed(s.world) then
      var active := Told(s, n, false).(phase := Active);
      if s.ramp then active.(linear := 0.0, angular := 0.0) else active
    else if current && s.phase == Pending then End(Told(s, n, true))
    else if !(current && s.phase == Active) && !ses.lateClosed then LateClose(Told(s, n, true), n)
    else Told(s, n, false)
  }

  /** An acceptance after release: close the start that is now open. */
  function LateClose(s: Store, n: nat): Store
    requires n < |s.sessions|
  {
    var shown := if s.phase == Idle && s.session == None then Quiet(s, Stopping).(session := Some(n)) else s;
    SendStop(Sample(shown, n, false, 0.0, 0.0), n)
  }

  /** A refusal ends the session without a stop of its own. */
  function Refuse(s: Store, n: nat): Store
    requires n < |s.sessions|
  {
    if s.session != Some(n) then s
    else
      var closed := Quiet(WithSession(s, n, s.sessions[n].(startTerminal := true)), Stopping).(watcher := None);
      FinishIfResolved(Sample(closed, n, false, 0.0, 0.0), n)
  }

  function Ack(s: Store, token: Token, accepted: bool): Store
    requires s.session.Some? ==> s.session.value < |s.sessions|
  {
    match token
    case StartOf(n) =>
      if n >= |s.sessions| then s else if accepted then Accept(s, n) else Refuse(s, n)
    case StopOf(n, k) =>
      if n >= |s.sessions| || k >= s.sessions[n].stops then s else AckStop(s, n, k, accepted)
    case Foreign(_) => s
  }

  /** The session a result belongs to. */
  function Owner(s: Store, token: Token): Option<nat> {
    match token
    case StartOf(n) => if n < |s.sessions| then Some(n) else None
    case StopOf(n, k) => if n < |s.sessions| && k < s.sessions[n].stops then Some(n) else None
    case Foreign(_) => None
  }

  function Settle(s: Store, n: nat, token: Token): Store
    requires n < |s.sessions|
  {
    var ses := s.sessions[n];
    FinishIfResolved(WithSession(s, n,
      match token
      case StopOf(_, k) => ses.(pendingStops := ses.pendingStops - {k})
      case _ => ses.(startTerminal := true)), n)
  }

  lemma EndKeepsSessions(s: Store)
    requires s.session.Some? ==> s.session.value < |s.sessions|
    ensures |End(s).sessions| == |s.sessions| && End(s).session == s.session
  {}

  function Result(s: Store, token: Token, timeout: bool): Store
    requires s.session.Some? ==> s.session.value < |s.sessions|
  {
    match Owner(s, token)
    case None => s
    case Some(n) =>
      EndKeepsSessions(s);
      var ended := if s.session == Some(n) then End(s) else s;
      if timeout then ended else Settle(ended, n, token)
  }

  // ---- Runs ---------------------------------------------------------------------------------------

  datatype Event =
    | DoArm(takeover: bool)
    | DoInput(linear: Option<real>, angular: Option<real>, deadman: bool, takeover: bool, digital: bool, expired: bool)
    | DoEnd
    | DoTick
    | DoAck(token: Token, accepted: bool)
    | DoResult(token: Token, timeout: bool)
    | StoreChange(world: World)               // another store changed and told its subscribers
    | TimePasses(ready: bool, expired: bool)  // readings age without any notification

  function Aged(p: Policy, expired: bool): Policy {
    if p.Tuned? && expired then p.(limits := None) else p
  }

  function Step(s: Store, e: Event): Store
    requires s.session.Some? ==> s.session.value < |s.sessions|
  {
    match e
    case DoArm(takeover) => Arm(s, takeover)
    case DoInput(linear, angular, deadman, takeover, digital, expired) =>
      Input(s, linear, angular, deadman, takeover, digital, expired)
    case DoEnd => End(s)
    case DoTick => Tick(s)
    case DoAck(token, accepted) => Ack(s, token, accepted)
    case DoResult(token, timeout) => Result(s, token, timeout)
    case StoreChange(w) => Check(s.(world := w))
    case TimePasses(ready, expired) => s.(world := s.world.(ready := ready, policy := Aged(s.world.policy, expired)))
  }
}
