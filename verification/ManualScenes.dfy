/**
 Two runs of the manual-drive protocol in which requests share an id: in one a stop takes
 the place of the manual start its owner waits for, in the other the place of an open
 LiDAR command, whose barrier no command can clear afterwards.
 */
module ManualScenes {
  import opened Options
  import opened TuningPolicy
  import opened ManualDrive
  import opened ManualInvariant
  import opened ManualBooks
  import opened ManualSafety
  import opened ManualRuns
  import opened ManualClashes
  import opened ManualSharing

  /** A server with a database and a connected robot that is ready for commands. */
  predicate Calm(s: State) {
    && s.hasDb && s.env.binding.socket.Some? && s.env.binding.base.Some? && s.env.clear && !s.env.capable
    && s.resetPending.None? && !s.recovery
  }

  const CALM := Env(Binding(1, Some(1), 1, Some(1)), None, true, false, Absent, None, 0.0)

  /** One such server, just started and never used. */
  const SCENE := State(map[], 0, None, 0, None, [], map[], None, None, false, map[], [], true, {}, CALM, {}, [], [], {},
                       map[])

  lemma SceneIsStarted()
    ensures Started(SCENE) && Calm(SCENE)
  {}

  // ---- Single steps ---------------------------------------------------------------------

  /** A request of client 0: its number, command and id, and the revision at its arrival. */
  datatype Asked = Asked(t: nat, c: Command, x: Id, arrival: nat)

  /** The request stands at `p` and may move. */
  predicate Stands(s: State, q: Asked, p: Point) {
    At(s, q.t, p) && s.tasks[q.t] == Request(q.c, q.x, 0, false, q.arrival, p, s.tasks[q.t].after)
  }

  /** The other tasks are as they were. */
  predicate Alone(s: State, r: State, t: nat) {
    forall u :: u in s.tasks && u != t ==> u in r.tasks && r.tasks[u] == s.tasks[u]
  }

  lemma AloneTrans(s: State, m: State, r: State, t: nat)
    requires Alone(s, m, t) && Alone(m, r, t)
    ensures Alone(s, r, t)
  {}

  lemma ArriveStep(s: State, c: Command, x: Id)
    requires Formed(s)
    ensures var r := Apply(s, Arrives(c, x, 0, false));
            && r == s.(tasks := r.tasks, next := s.next + 1, asked := r.asked) && Alone(s, r, s.next)
            && Stands(r, Asked(s.next, c, x, s.revision), Waiting)
  {}

  lemma AdmitStopStep(s: State, q: Asked)
    requires Formed(s) && Calm(s) && s.owner.None? && s.lidarPending.None? && q.c == Stop && Stands(s, q, Waiting)
    ensures var r := Admit(s, q.t, true);
            && r == s.(tasks := r.tasks, next := s.next + 1, revision := s.revision + 1)
            && Alone(s, r, q.t) && Stands(r, q, Checking)
  {}

  lemma AdmitLockStep(s: State, q: Asked)
    requires Formed(s) && Calm(s) && s.owner.None? && s.lidarPending.None? && s.lock.None?
    requires q.c in {TeleopStart, SetLidarPower} && Stands(s, q, Waiting)
    ensures var r := Admit(s, q.t, true);
            r == s.(tasks := r.tasks, lock := Some(q.t)) && Alone(s, r, q.t) && Stands(r, q, Checking)
  {
    hide RevokeNow;
  }

  lemma CheckStep(s: State, q: Asked)
    requires Stands(s, q, Checking) && s.hasDb && q.x !in s.seen
    ensures var r := Check(s, q.t, true);
            && r == s.(tasks := r.tasks, env := r.env) && Alone(s, r, q.t) && Stands(r, q, Looking)
            && r.env == if Unmetered(q.c) then s.env else s.env.(lease := Some(0))
  {}

  lemma LookStep(s: State, q: Asked)
    requires Stands(s, q, Looking) && q.x !in s.audit
    ensures var r := LookUp(s, q.t);
            && r == s.(tasks := r.tasks) && Alone(s, r, q.t) && Stands(r, q, Looked(false))
            && r.tasks[q.t].after.None?
  {}

  lemma ValidateStep(s: State, q: Asked)
    requires Calm(s) && q.c != TeleopStart && Stands(s, q, Looked(false))
    ensures var r := Validate(s, q.t, true);
            && r == s.(tasks := r.tasks, seen := r.seen) && Alone(s, r, q.t)
            && Stands(r, q, Auditing(s.env.binding.session))
  {
    hide Remember, Prepare;
  }

  /** The owner a start brings. */
  function Brought(s: State, q: Asked): Owner {
    Owner(q.x, 0, s.env.binding, LEGACY_POLICY, Pending, -1, false, {}, false, None, q.t, q.arrival, {})
  }

  lemma ValidateStartStep(s: State, q: Asked)
    requires Calm(s) && s.owner.None? && s.active == map[] && Stands(s, q, Looked(false))
    requires q.c == TeleopStart && q.arrival == s.revision
    ensures var r := Validate(s, q.t, true);
            && r == s.(tasks := r.tasks, seen := r.seen, heap := s.heap + [Brought(s, q)], owner := Some(|s.heap|))
            && Alone(s, r, q.t) && Stands(r, q, Auditing(s.env.binding.session))
  {
    hide Remember;
  }

  lemma RecordStep(s: State, q: Asked, session: nat)
    requires Stands(s, q, Auditing(session))
    ensures var r := Record(s, q.t);
            r == s.(tasks := r.tasks, audit := r.audit) && Alone(s, r, q.t) && Stands(r, q, Audited(session))
  {}

  /** The state in which the request has been sent: `r` is `s` but for what it changes. */
  ghost predicate Forwarded(s: State, r: State, q: Asked) {
    && Alone(s, r, q.t) && Stands(r, q, Forwarding) && r.tasks[q.t].after.None?
    && r.owner == s.owner && r.heap == s.heap && r.lock == s.lock && r.env == s.env && r.hasDb == s.hasDb
    && r.recovery == s.recovery && r.resetPending == s.resetPending && r.revision == s.revision
    && r.active.Keys == s.active.Keys + {q.x} && r.active[q.x].command == q.c
    && r.lidarPending == (if q.c == SetLidarPower then Some(q.x) else s.lidarPending)
    && r.forwarded == s.forwarded + [Forward(q.c, q.x, q.t)]
  }

  lemma PublishStep(s: State, q: Asked, session: nat)
    requires Placed(s) && Stands(s, q, Audited(session)) && q.c in {Stop, SetLidarPower, TeleopStart}
    requires q.c == TeleopStart ==> StartStands(s, q.t)
    ensures Forwarded(s, Publish(s, q.t, None), q)
  {}

  // ---- The runs ---------------------------------------------------------------------------

  /** Request `t` arrives and passes the duplicate check. */
  function Screening(c: Command, x: Id, t: nat): seq<Event> {
    [Arrives(c, x, 0, false), Admits(t, true), Checks(t, true), LooksUp(t)]
  }

  /** Request `t` is validated, recorded and sent. */
  function Sending(t: nat): seq<Event> { [Validates(t, true), Records(t), Publishes(t, None)] }

  lemma Four(s: State, a: Event, b: Event, c: Event, d: Event)
    ensures Run(s, [a, b, c, d]) == Step(Step(Step(Step(s, a), b), c), d)
  {
    hide Step;
    assert [a, b, c, d][1..] == [b, c, d];
    Three(Step(s, a), b, c, d);
  }

  lemma Three(s: State, a: Event, b: Event, c: Event)
    ensures Run(s, [a, b, c]) == Step(Step(Step(s, a), b), c)
  {
    hide Step;
    assert [a, b, c][1..] == [b, c] && [b, c][1..] == [c] && [c][1..] == [];
    assert Run(Step(s, a), [b, c]) == Run(Step(Step(s, a), b), [c]);
    assert Run(Step(Step(s, a), b), [c]) == Run(Step(Step(Step(s, a), b), c), []);
  }

  /** What the events of one request do. */
  lemma StepIs(s: State, t: nat)
    requires Formed(s) && Good(s)
    ensures Step(s, Admits(t, true)) == Admit(s, t, true)
    ensures Step(s, Checks(t, true)) == Check(s, t, true)
    ensures Step(s, LooksUp(t)) == LookUp(s, t)
    ensures Step(s, Validates(t, true)) == Validate(s, t, true)
    ensures Step(s, Records(t)) == Record(s, t)
    ensures Step(s, Publishes(t, None)) == Publish(s, t, None)
  {
    hide Admit, Check, LookUp, Validate, Record, Publish, Good, Formed;
  }

  lemma StaysGood(s: State, e: Event)
    requires Formed(s) && Good(s)
    ensures Formed(Step(s, e)) && Good(Step(s, e))
  {
    hide Good, Apply, Formed;
    StepGood(s, e);
  }

  lemma ScreenStop(s: State, q: Asked)
    requires Formed(s) && Good(s) && Calm(s) && s.owner.None? && s.lidarPending.None?
    requires q.x !in s.seen && q.x !in s.audit && q == Asked(s.next, Stop, q.x, s.revision)
    ensures var r := Run(s, Screening(Stop, q.x, s.next));
            && Formed(r) && Good(r) && Stands(r, q, Looked(false)) && r.tasks[s.next].after.None?
            && r == s.(tasks := r.tasks, next := s.next + 2, asked := r.asked, revision := s.revision + 1)
  {
    hide Good, Formed, Run, Stands, Alone, Step, Admit, Check, LookUp;
    var t := q.t;
    var e0, e1, e2, e3 := Arrives(Stop, q.x, 0, false), Admits(t, true), Checks(t, true), LooksUp(t);
    Four(s, e0, e1, e2, e3);
    var s1, s2, s3 := Step(s, e0), Step(Step(s, e0), e1), Step(Step(Step(s, e0), e1), e2);
    StaysGood(s, e0);
    StaysGood(s1, e1);
    StaysGood(s2, e2);
    StaysGood(s3, e3);
    StepIs(s1, t);
    StepIs(s2, t);
    StepIs(s3, t);
    Arrival(s, Stop, q.x);
    AdmitStopStep(s1, q);
    CheckStep(s2, q);
    LookStep(s3, q);
  }

  lemma Arrival(s: State, c: Command, x: Id)
    requires Formed(s)
    ensures var r := Step(s, Arrives(c, x, 0, false));
            && r == s.(tasks := r.tasks, next := s.next + 1, asked := r.asked) && Alone(s, r, s.next)
            && Stands(r, Asked(s.next, c, x, s.revision), Waiting)
  {
    ArriveStep(s, c, x);
    hide Apply;
  }

  lemma ScreenLocked(s: State, q: Asked)
    requires Formed(s) && Good(s) && Calm(s) && s.owner.None? && s.lidarPending.None? && s.lock.None?
    requires q.x !in s.seen && q.x !in s.audit && q.c in {TeleopStart, SetLidarPower}
    requires q == Asked(s.next, q.c, q.x, s.revision)
    ensures var r := Run(s, Screening(q.c, q.x, s.next));
            && Formed(r) && Good(r) && Stands(r, q, Looked(false)) && Alone(s, r, s.next)
            && r == s.(tasks := r.tasks, next := s.next + 1, asked := r.asked, lock := Some(s.next),
                       env := s.env.(lease := Some(0)))
  {
    hide Good, Formed, Run, Stands, Alone, Step, Admit, Check, LookUp;
    var t := q.t;
    var e0, e1, e2, e3 := Arrives(q.c, q.x, 0, false), Admits(t, true), Checks(t, true), LooksUp(t);
    Four(s, e0, e1, e2, e3);
    var s1, s2, s3 := Step(s, e0), Step(Step(s, e0), e1), Step(Step(Step(s, e0), e1), e2);
    var r := Step(s3, e3);
    StaysGood(s, e0);
    StaysGood(s1, e1);
    StaysGood(s2, e2);
    StaysGood(s3, e3);
    StepIs(s1, t);
    StepIs(s2, t);
    StepIs(s3, t);
    Arrival(s, q.c, q.x);
    AdmitLockStep(s1, q);
    CheckStep(s2, q);
    LookStep(s3, q);
    AloneTrans(s, s1, s2, t);
    AloneTrans(s, s2, s3, t);
    AloneTrans(s, s3, r, t);
  }

  /** A stop or a LiDAR command on its way to the robot. */
  lemma SendOther(s: State, q: Asked)
    requires Formed(s) && Good(s) && Calm(s) && Stands(s, q, Looked(false)) && q.c in {Stop, SetLidarPower}
    ensures var r := Run(s, Sending(q.t)); Formed(r) && Good(r) && Forwarded(s, r, q)
  {
    hide Good, Formed, Run, Stands, Step, Validate, Record, Publish, Alone;
    var t, session := q.t, s.env.binding.session;
    var e0, e1, e2 := Validates(t, true), Records(t), Publishes(t, None);
    Three(s, e0, e1, e2);
    var s1, s2 := Step(s, e0), Step(Step(s, e0), e1);
    StaysGood(s, e0);
    StaysGood(s1, e1);
    StaysGood(s2, e2);
    StepIs(s, t);
    StepIs(s1, t);
    StepIs(s2, t);
    ValidateStep(s, q);
    RecordStep(s1, q, session);
    FormedPlaced(s2);
    PublishStep(s2, q, session);
    AloneTrans(s, s1, s2, t);
    AloneTrans(s, s2, Step(s2, e2), t);
  }

  lemma FormedPlaced(s: State)
    requires Formed(s)
    ensures Placed(s)
  {}

  /** A manual start on its way to the robot, with its owner. */
  lemma SendStart(s: State, q: Asked)
    requires Formed(s) && Good(s) && Calm(s) && Stands(s, q, Looked(false)) && q.c == TeleopStart
    requires s.owner.None? && s.active == map[] && q.arrival == s.revision && s.env.lease == Some(0)
    ensures var r := Run(s, Sending(q.t));
            && Formed(r) && Good(r)
            && Forwarded(s.(owner := Some(|s.heap|), heap := s.heap + [Brought(s, q)]), r, q)
  {
    hide Good, Formed, Run, Stands, Step, Validate, Record, Publish, Alone;
    var t, session := q.t, s.env.binding.session;
    var e0, e1, e2 := Validates(t, true), Records(t), Publishes(t, None);
    Three(s, e0, e1, e2);
    var s1, s2 := Step(s, e0), Step(Step(s, e0), e1);
    StaysGood(s, e0);
    StaysGood(s1, e1);
    StaysGood(s2, e2);
    StepIs(s, t);
    StepIs(s1, t);
    StepIs(s2, t);
    ValidateStartStep(s, q);
    RecordStep(s1, q, session);
    StandsToSend(s2, q, session, Brought(s, q));
    PublishStep(s2, q, session);
    var base := s.(owner := Some(|s.heap|), heap := s.heap + [Brought(s, q)]);
    AloneTrans(s, s1, s2, t);
    AloneTrans(s, s2, Step(s2, e2), t);
    SameAlone(s, base, Step(s2, e2), t);
  }

  lemma SameAlone(s: State, b: State, r: State, t: nat)
    requires b.tasks == s.tasks && Alone(s, r, t)
    ensures Alone(b, r, t)
  {}

  lemma StandsToSend(s: State, q: Asked, session: nat, w: Owner)
    requires Formed(s) && Calm(s) && Stands(s, q, Audited(session)) && s.owner.Some? && s.heap[s.owner.value] == w
    requires w.command == q.x && w.phase == Pending && q.arrival == s.revision && w.binding == s.env.binding
    requires s.env.lease == Some(w.client)
    ensures Placed(s) && StartStands(s, q.t)
  {}

  lemma Moved(s: State, r: State, q: Asked, t: nat, p: Point)
    requires Alone(s, r, t) && Stands(s, q, p) && q.t != t && s.tasks[q.t].after.None?
    ensures Stands(r, q, p)
  {}

  /** A stop and a command `c` with one id, both told that the id is new. */
  function Shared(c: Command, x: Id, t: nat): seq<Event> { Screening(Stop, x, t) + Screening(c, x, t + 2) }

  lemma BothScreened(s: State, c: Command, x: Id)
    requires Started(s) && Calm(s) && x !in s.audit && c in {TeleopStart, SetLidarPower}
    ensures var r := Run(s, Shared(c, x, s.next));
            && Formed(r) && Good(r) && Calm(r) && r.heap == s.heap && r.owner.None? && r.active == map[]
            && r.env.lease == Some(0) && r.lock == Some(s.next + 2) && r.forwarded == []
            && Stands(r, Asked(s.next, Stop, x, s.revision), Looked(false))
            && Stands(r, Asked(s.next + 2, c, x, r.revision), Looked(false))
            && r.tasks[s.next].after.None?
  {
    StartedGood(s);
    var p, q := Asked(s.next, Stop, x, s.revision), Asked(s.next + 2, c, x, s.revision + 1);
    hide Good, Formed, Run, Stands, Alone;
    ScreenStop(s, p);
    var m := Run(s, Screening(Stop, x, s.next));
    ScreenLocked(m, q);
    RunAppend(s, Screening(Stop, x, s.next), Screening(c, x, s.next + 2));
    hide Screening;
    Moved(m, Run(m, Screening(c, x, s.next + 2)), p, q.t, Looked(false));
  }

  /** The command and the stop have both been sent, in this order. */
  function Robbed(c: Command, x: Id, t: nat): seq<Event> { Shared(c, x, t) + Sending(t + 2) + Sending(t) }

  /** The start has been sent and its owner waits for it; the stop is still being validated. */
  ghost predicate StartOut(s: State, p: Asked, q: Asked) {
    && Formed(s) && Good(s) && Calm(s) && Stands(s, p, Looked(false)) && Stands(s, q, Forwarding)
    && s.active.Keys == {q.x} && s.active[q.x].command == TeleopStart
    && s.forwarded == [Forward(TeleopStart, q.x, q.t)]
    && s.owner.Some? && s.owner.value < |s.heap|
    && var w := s.heap[s.owner.value];
    && w.command == q.x && w.request == q.t && w.phase == Pending && !w.startTerminal && w.stopIds == {}
  }

  lemma SameStands(s: State, b: State, q: Asked, p: Point)
    requires b.tasks == s.tasks && Stands(s, q, p)
    ensures Stands(b, q, p)
  {}

  lemma StartGoes(m: State, p: Asked, q: Asked)
    requires Formed(m) && Good(m) && Calm(m) && Stands(m, p, Looked(false)) && m.tasks[p.t].after.None?
    requires Stands(m, q, Looked(false)) && q.c == TeleopStart && p.t != q.t
    requires m.owner.None? && m.active == map[] && q.arrival == m.revision && m.env.lease == Some(0)
    requires m.forwarded == []
    ensures StartOut(Run(m, Sending(q.t)), p, q)
  {
    hide Good, Formed, Run, Sending, Stands, Alone;
    SendStart(m, q);
    var s := Run(m, Sending(q.t));
    var base := m.(owner := Some(|m.heap|), heap := m.heap + [Brought(m, q)]);
    SameStands(m, base, p, Looked(false));
    Moved(base, s, p, q.t, Looked(false));
  }

  lemma StartSent(s0: State, x: Id) returns (p: Asked, q: Asked)
    requires Started(s0) && Calm(s0) && x !in s0.audit
    ensures p.t == s0.next && p.c == Stop && p.x == x && q.t == s0.next + 2 && q.x == x
    ensures StartOut(Run(s0, Shared(TeleopStart, x, s0.next) + Sending(s0.next + 2)), p, q)
  {
    var n := s0.next;
    BothScreened(s0, TeleopStart, x);
    var m := Run(s0, Shared(TeleopStart, x, n));
    p, q := Asked(n, Stop, x, s0.revision), Asked(n + 2, TeleopStart, x, m.revision);
    hide Started, Good, Formed, Run, Shared, Sending, Stands, Alone;
    RunAppend(s0, Shared(TeleopStart, x, n), Sending(n + 2));
    StartGoes(m, p, q);
  }

  /** The stop follows the start. */
  lemma StopFollowsStart(s: State, p: Asked, q: Asked)
    requires StartOut(s, p, q) && p.c == Stop && p.x == q.x && p.t != q.t
    ensures var r := Run(s, Sending(p.t));
            && Owned(s) && s.owner.Some? && s.heap[s.owner.value].phase == Pending
            && !Owned(r) && r.owner == s.owner && r.heap == s.heap
            && r.active.Keys == {p.x} && r.active[p.x].command == Stop
            && r.forwarded == [Forward(TeleopStart, q.x, q.t), Forward(Stop, p.x, p.t)]
  {
    hide Good, Formed, Run, Sending, Stands, Alone, Owned;
    SendOther(s, p);
    Overtaken(s, Run(s, Sending(p.t)), p, q);
  }

  /** On every calm server and for every unused id: a stop that passes the duplicate check
      before a manual start of the same id arrives, and is sent after it, takes the place of
      that start in the open table. One id has been forwarded twice, and the session lives on
      although nothing open could end it. */
  lemma SharedIdRobsAStart(s0: State, x: Id)
    requires Started(s0) && Calm(s0) && x !in s0.audit
    ensures var n := s0.next;
            var s, r := Run(s0, Shared(TeleopStart, x, n) + Sending(n + 2)), Run(s0, Robbed(TeleopStart, x, n));
            && Owned(s) && s.owner.Some? && s.heap[s.owner.value].phase == Pending
            && !Owned(r) && r.owner == s.owner && r.heap == s.heap
            && r.active.Keys == {x} && r.active[x].command == Stop
            && r.forwarded == [Forward(TeleopStart, x, n + 2), Forward(Stop, x, n)]
  {
    hide Started, Good, Run, Shared, Sending, Owned, StartOut;
    var n := s0.next;
    var p, q := StartSent(s0, x);
    RunAppend(s0, Shared(TeleopStart, x, n) + Sending(n + 2), Sending(n));
    StopFollowsStart(Run(s0, Shared(TeleopStart, x, n) + Sending(n + 2)), p, q);
  }

  /** The start is sent and open until the stop takes its place. */
  lemma Overtaken(s: State, r: State, p: Asked, q: Asked)
    requires Formed(s) && Formed(r) && Stands(s, q, Forwarding) && Forwarded(s, r, p) && p.t != q.t && p.c == Stop
    requires p.x == q.x
    requires s.active.Keys == {q.x} && s.active[q.x].command == TeleopStart
    requires s.owner.Some? && var w := s.heap[s.owner.value];
             w.command == q.x && w.request == q.t && !w.startTerminal && w.stopIds == {}
    ensures Owned(s) && !Owned(r)
  {}

  lemma NowStranded(r: State, q: Asked)
    requires Formed(r) && Good(r) && Stands(r, q, Forwarding) && r.lock == Some(q.t)
    requires r.lidarPending == Some(q.x) && r.active.Keys == {q.x} && r.active[q.x].command == Stop
    ensures LidarStranded(r, q.x)
  {
    hide Good, Safe, Covers, NoneNeedsLidar;
    MarkHere(r, |r.wire|);
    forall t | t in r.tasks ensures NoLidarIn(r.tasks[t]) {
      if r.tasks[t].Request? && r.tasks[t].point.Retiring? { RetiringFacts(Mark(r, |r.wire|), r, t); }
    }
  }

  lemma StrandedDisagrees(r: State, x: Id)
    requires LidarStranded(r, x)
    ensures !Agreeing(r)
  {}

  /** The stop is answered. */
  lemma AnsweredStop(r: State, x: Id, from: nat)
    requires Formed(r) && LidarStranded(r, x) && r.active.Keys == {x} && r.active[x].command == Stop
    ensures var z := Conclusion(r, x, from, Succeeded); LidarStranded(z, x) && z.active == map[]
  {
    ResultStranded(r, x, from, Succeeded, x);
    hide LidarStranded;
  }

  /** The LiDAR command has been sent and holds the lock. */
  ghost predicate LidarOut(s: State, p: Asked, q: Asked) {
    && Formed(s) && Good(s) && Calm(s) && Stands(s, p, Looked(false)) && Stands(s, q, Forwarding)
    && s.tasks[q.t].after.None?
    && s.active.Keys == {q.x} && s.lidarPending == Some(q.x) && s.lock == Some(q.t)
  }

  lemma LidarSent(s0: State, x: Id) returns (p: Asked, q: Asked)
    requires Started(s0) && Calm(s0) && x !in s0.audit
    ensures p.t == s0.next && p.c == Stop && p.x == x && q.t == s0.next + 2 && q.x == x
    ensures LidarOut(Run(s0, Shared(SetLidarPower, x, s0.next) + Sending(s0.next + 2)), p, q)
  {
    var n := s0.next;
    BothScreened(s0, SetLidarPower, x);
    var m := Run(s0, Shared(SetLidarPower, x, n));
    p, q := Asked(n, Stop, x, s0.revision), Asked(n + 2, SetLidarPower, x, m.revision);
    hide Started, Good, Formed, Run, Shared, Sending, Stands, Alone;
    SendOther(m, q);
    RunAppend(s0, Shared(SetLidarPower, x, n), Sending(n + 2));
    Moved(m, Run(m, Sending(n + 2)), p, q.t, Looked(false));
  }

  /** The stop follows the LiDAR command. */
  lemma StopFollowsLidar(s: State, p: Asked, q: Asked)
    requires LidarOut(s, p, q) && p.c == Stop && p.x == q.x && p.t != q.t
    ensures var r := Run(s, Sending(p.t));
            LidarStranded(r, p.x) && r.active.Keys == {p.x} && r.active[p.x].command == Stop
  {
    hide Good, Formed, Run, Sending, Stands, Alone, LidarStranded;
    SendOther(s, p);
    var r := Run(s, Sending(p.t));
    Moved(s, r, q, p.t, Forwarding);
    NowStranded(r, q);
  }

  /** On every calm server and for every unused id: in the place of an open LiDAR command
      the stop strands its barrier, and once the stop is answered nothing is open while LiDAR
      power is pending for good. */
  lemma SharedIdStrandsLidar(s0: State, x: Id, from: nat)
    requires Started(s0) && Calm(s0) && x !in s0.audit
    ensures var es := Robbed(SetLidarPower, x, s0.next);
            var r, z := Run(s0, es), Run(s0, es + [Results(x, from, Succeeded)]);
            && !Agreeing(r) && LidarStranded(r, x) && r.active.Keys == {x} && r.active[x].command == Stop
            && !Agreeing(z) && LidarStranded(z, x) && z.active == map[]
  {
    hide Started, Good, Run, Shared, Sending, LidarOut, LidarStranded, Agreeing;
    var n := s0.next;
    var p, q := LidarSent(s0, x);
    var s := Run(s0, Shared(SetLidarPower, x, n) + Sending(n + 2));
    RunAppend(s0, Shared(SetLidarPower, x, n) + Sending(n + 2), Sending(n));
    StopFollowsLidar(s, p, q);
    var r := LastStep(s0, Robbed(SetLidarPower, x, n), Results(x, from, Succeeded));
    hide Conclusion;
    StrandedDisagrees(r, x);
    AnsweredStop(r, x, from);
    StrandedDisagrees(Conclusion(r, x, from, Succeeded), x);
  }
}
