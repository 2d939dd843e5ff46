/**
 The store of frontend/src/stores/teleopStore.ts as an object: `state` is what its
 set() calls replace, the other fields are the module's variables. Each entry point is
 proved against the step functions of BrowserTeleop and keeps what BrowserRuns proves.
 */
module BrowserStore {
  import opened Options
  import opened BrowserTeleop
  import opened BrowserRuns

  datatype TeleopState = TeleopState(phase: Phase, generation: nat, session: Option<nat>, linear: real, angular: real,
                                     targetLinear: real, targetAngular: real, ramp: bool, deadman: bool, takeover: bool)

  class TeleopStore {
    var state: TeleopState
    var sessions: seq<Session>
    var watcher: Option<int>
    var log: seq<Entry>
    var world: World

    function View(): Store
      reads this
    {
      Store(state.phase, state.generation, state.session, state.linear, state.angular, state.targetLinear,
            state.targetAngular, state.ramp, state.deadman, state.takeover, sessions, watcher, log, world)
    }

    ghost predicate Valid()
      reads this
    {
      Good(View())
    }

    constructor ()
      ensures Valid() && View() == INITIAL
    {
      state := TeleopState(Idle, 0, None, 0.0, 0.0, 0.0, 0.0, false, false, false);
      sessions, watcher, log, world := [], None, [], INITIAL_WORLD;
      new;
      InitialGood();
    }

    method SendSample(n: nat, moving: bool, l: real, a: real) returns (sent: bool)
      requires n < |sessions|
      modifies this`sessions, this`log
      ensures View() == BrowserTeleop.Sample(old(View()), n, moving, l, a) && sent == world.connected
      ensures |sessions| == old(|sessions|)
    {
      var ses := sessions[n];
      log := log + [Sampled(n, ses.seqNo, moving, if moving then l else 0.0, if moving then a else 0.0)];
      sessions := sessions[n := ses.(seqNo := ses.seqNo + 1)];
      sent := world.connected;
    }

    method RequestStop(n: nat)
      requires n < |sessions|
      modifies this`sessions, this`log
      ensures View() == SendStop(old(View()), n)
    {
      var ses := sessions[n];
      sessions := sessions[n := ses.(stops := ses.stops + 1, pendingStops := ses.pendingStops + {ses.stops})];
      log := log + [StopSent(n, ses.stops)];
    }

    method Finish(n: nat)
      requires n < |sessions|
      modifies this`state
      ensures View() == FinishIfResolved(old(View()), n)
    {
      if state.session == Some(n) && sessions[n].startTerminal && sessions[n].pendingStops == {} {
        state := state.(phase := Idle, session := None);
      }
    }

    /** Leaves the driving phases: zero input, a new generation. */
    method GoQuiet(to: Phase)
      modifies this`state
      ensures View() == Quiet(old(View()), to)
    {
      state := state.(phase := to, generation := state.generation + 1, deadman := false, linear := 0.0, angular := 0.0,
                      targetLinear := 0.0, targetAngular := 0.0, ramp := false);
    }

    method EndInput()
      requires state.session.Some? ==> state.session.value < |sessions|
      modifies this
      ensures View() == End(old(View()))
    {
      hide BrowserTeleop.Sample, SendStop, Quiet;
      if state.phase == Idle || state.phase == Stopping { return; }
      var session := state.session;
      GoQuiet(if session.Some? then Stopping else Idle);
      watcher := None;
      if session.Some? {
        assert |sessions| == old(|sessions|) && View() == Quiet(old(View()), Stopping).(watcher := None);
        var _ := SendSample(session.value, false, 0.0, 0.0);
        RequestStop(session.value);
      }
    }

    method CheckSession()
      requires state.session.Some? ==> state.session.value < |sessions|
      modifies this
      ensures View() == Check(old(View()))
    {
      hide End;
      if watcher.None? || !Driving(state.phase) { return; }
      var changed := !Allowed(world) || watcher.value != world.operator;
      if !changed && state.session.Some? {
        var ses := sessions[state.session.value];
        changed := ses.policy != world.policy || ses.robotGeneration != world.robotGeneration ||
            ses.robot != world.robot;
      }
      if changed { EndInput(); }
    }

    lemma Inside()
      requires Valid()
      ensures state.session.Some? ==> state.session.value < |sessions|
    {}

    method DoArm(over: bool)
      requires Valid()
      modifies this
      ensures Valid() && View() == Arm(old(View()), over)
    {
      ArmGood(View(), over);
      hide Good;
      if state.phase != Idle || !Allowed(world) { return; }
      state := state.(phase := Armed, generation := state.generation + 1, takeover := over);
      watcher := Some(world.operator);
    }

    method DoInput(l: Option<real>, a: Option<real>, held: bool, over: bool, digital: bool, expired: bool)
      requires Valid()
      modifies this
      ensures Valid() && View() == Input(old(View()), l, a, held, over, digital, expired)
    {
      InputGood(View(), l, a, held, over, digital, expired);
      Inside();
      hide Good, End, Bounded, Begin;
      if !held { EndInput(); return; }
      if !Driving(state.phase) { return; }
      if !Allowed(world) || expired { EndInput(); return; }
      var caps := Operational(world.policy).value;
      var bl, ba := Bounded(l, caps.linear), Bounded(a, caps.angular);
      if digital {
        state := state.(targetLinear := bl, targetAngular := ba, ramp := true, deadman := true);
      } else {
        state := state.(linear := bl, angular := ba, targetLinear := bl, targetAngular := ba, ramp := false,
                        deadman := true);
      }
      assert View() == Aim(old(View()), bl, ba, digital);
      if state.phase == Armed { BeginSession(over || state.takeover); }
    }

    method BeginSession(over: bool)
      modifies this
      ensures View() == Begin(old(View()), over)
    {
      hide End;
      var n := |sessions|;
      sessions := sessions + [Session(state.generation, world.robotGeneration, world.robot, 0, false, false, false, 0,
                                      {}, world.policy)];
      state := state.(session := Some(n), phase := Pending);
      log := log + [Started(n, over, world.policy)];
      if !world.connected { EndInput(); }
    }

    method DoRampTick()
      modifies this`state
      ensures View() == RampTick(old(View()))
    {
      hide RampToward;
      if !state.ramp || !state.deadman || state.phase != Active { return; }
      state := state.(linear := RampToward(state.linear, state.targetLinear, STEP_LINEAR),
                      angular := RampToward(state.angular, state.targetAngular, STEP_ANGULAR));
    }

    method DoTick()
      requires Valid()
      modifies this
      ensures Valid() && View() == Tick(old(View()))
    {
      TickGood(View());
      Inside();
      CheckGood(View());
      assert Check(View()).session.Some? ==> Check(View()).session.value < |Check(View()).sessions|;
      hide Good, End, Check, BrowserTeleop.Sample;
      if watcher.None? { return; }
      CheckSession();
      DoRampTick();
      if state.phase == Active && state.deadman && state.session.Some? {
        var sent := SendSample(state.session.value, true, state.linear, state.angular);
        if !sent { EndInput(); }
      }
    }

    method HandleAck(token: Token, accepted: bool) returns (mine: bool)
      requires Valid()
      modifies this
      ensures Valid() && View() == Ack(old(View()), token, accepted)
      ensures mine == Owner(old(View()), token).Some?
    {
      AckGood(View(), token, accepted);
      Inside();
      hide Good, Accept, Refuse, FinishIfResolved;
      match token {
        case Foreign(_) => return false;
        case StopOf(n, k) =>
          if n >= |sessions| || k >= sessions[n].stops { return false; }
          if !accepted {
            sessions := sessions[n := sessions[n].(pendingStops := sessions[n].pendingStops - {k})];
            Finish(n);
          }
          return true;
        case StartOf(n) =>
          if n >= |sessions| { return false; }
          if accepted { HandleAccepted(n); } else { HandleRefused(n); }
          return true;
      }
    }

    method HandleAccepted(n: nat)
      requires n < |sessions| && (state.session.Some? ==> state.session.value < |sessions|)
      modifies this
      ensures View() == Accept(old(View()), n)
    {
      hide End, LateClose;
      var ses := sessions[n];
      if ses.accepted { return; }
      log := log + [Accepted(n)];
      var current := state.session == Some(n);
      if current && state.phase == Pending && state.generation == ses.generation && state.deadman && Allowed(world) {
        sessions := sessions[n := ses.(accepted := true)];
        state := if state.ramp then state.(phase := Active, linear := 0.0, angular := 0.0) else state.(phase := Active);
      } else if current && state.phase == Pending {
        sessions := sessions[n := ses.(accepted := true, lateClosed := true)];
        EndInput();
      } else if !(current && state.phase == Active) && !ses.lateClosed {
        sessions := sessions[n := ses.(accepted := true, lateClosed := true)];
        CloseLate(n);
      } else {
        sessions := sessions[n := ses.(accepted := true)];
      }
    }

    method CloseLate(n: nat)
      requires n < |sessions|
      modifies this
      ensures View() == LateClose(old(View()), n)
    {
      hide BrowserTeleop.Sample, SendStop;
      if state.phase == Idle && state.session == None {
        GoQuiet(Stopping);
        state := state.(session := Some(n));
      }
      var _ := SendSample(n, false, 0.0, 0.0);
      RequestStop(n);
    }

    method HandleRefused(n: nat)
      requires n < |sessions|
      modifies this
      ensures View() == Refuse(old(View()), n)
    {
      if state.session == Some(n) {
        watcher := None;
        sessions := sessions[n := sessions[n].(startTerminal := true)];
        GoQuiet(Stopping);
        var _ := SendSample(n, false, 0.0, 0.0);
        Finish(n);
      }
    }

    method HandleResult(token: Token, timeout: bool) returns (mine: bool)
      requires Valid()
      modifies this
      ensures Valid() && View() == Result(old(View()), token, timeout)
      ensures mine == Owner(old(View()), token).Some?
    {
      ResultGood(View(), token, timeout);
      Inside();
      hide Good, End, Settle;
      var owner := Owner(View(), token);
      if owner.None? { return false; }
      var n := owner.value;
      EndKeepsSessions(View());
      if state.session == Some(n) { EndInput(); }
      if !timeout { SettleAnswer(n, token); }
      return true;
    }

    method SettleAnswer(n: nat, token: Token)
      requires n < |sessions|
      modifies this
      ensures View() == Settle(old(View()), n, token)
    {
      hide FinishIfResolved;
      var ses := sessions[n];
      match token {
        case StopOf(_, k) => sessions := sessions[n := ses.(pendingStops := ses.pendingStops - {k})];
        case _ => sessions := sessions[n := ses.(startTerminal := true)];
      }
      Finish(n);
    }

    /** Another store changed and told its subscribers. */
    method OnStoreChange(w: World)
      requires Valid()
      modifies this
      ensures Valid() && View() == Step(old(View()), StoreChange(w))
    {
      StepGood(View(), StoreChange(w));
      Inside();
      hide Good, Check;
      world := w;
      CheckSession();
    }
  }
}
