/**
 What holds over whole runs of the manual-drive protocol, whatever ids the browsers
 choose: a stop overtakes every start that arrived before it, manual ownership excludes
 other commands and ends only when resolved, velocity frames reach the wire only as the
 owner's phase, connection, lease and caps allow, open resets and LiDAR commands are
 named by their barriers, and no recorded id is forwarded twice.
 */
module ManualRuns {
  import opened Options
  import opened TuningPolicy
  import opened ManualDrive
  import opened ManualInvariant
  import opened ManualBooks
  import opened ManualSafety

  ghost predicate Good(s: State) { Sound(s) && Books(s) && Accounted(s) }

  lemma StartedGood(s: State)
    requires Started(s)
    ensures Formed(s) && Good(s)
  {}

  function Max(a: nat, b: nat): nat { if a < b then b else a }

  /** A good state is its own past. */
  lemma MarkHere(s: State, writes: nat)
    requires Good(s) && |s.wire| <= writes
    ensures Safe(Mark(s, writes), s)
  {
    hide Books, Accounted;
  }

  lemma SafeIsGood(m: Mark, s: State)
    requires Safe(m, s)
    ensures Good(s) && Formed(s) && Later(m.base, s)
  {
    hide Books, Accounted;
  }

  lemma StepGood(s: State, e: Event)
    requires Formed(s) && Good(s)
    ensures Good(Apply(s, e)) && Formed(Apply(s, e)) && Later(s, Apply(s, e))
  {
    hide Good, Safe;
    var m := Mark(s, Max(|s.wire|, |Apply(s, e).wire|));
    MarkHere(s, m.writes);
    StepSafe(m, s, e);
    SafeIsGood(m, Apply(s, e));
  }

  /** One event, on any state. */
  ghost function Step(s: State, e: Event): State {
    if Formed(s) then Apply(s, e) else s
  }

  /** The state after a sequence of events. */
  ghost function Run(s: State, es: seq<Event>): State
    decreases |es|
  {
    if es == [] then s else Run(Step(s, es[0]), es[1..])
  }

  lemma {:induction false} RunAppend(s: State, a: seq<Event>, b: seq<Event>)
    ensures Run(s, a + b) == Run(Run(s, a), b)
    decreases |a|
  {
    hide Step;
    if a == [] {
      assert a + b == b;
    } else {
      assert (a + b)[1..] == a[1..] + b;
      RunAppend(Step(s, a[0]), a[1..], b);
    }
  }

  lemma LaterTransitive(s: State, m: State, r: State)
    requires Later(s, m) && Later(m, r)
    ensures Later(s, r)
  {
    forall o | 0 <= o < |s.heap| ensures Aged(s.heap[o], r.heap[o]) { assert Aged(s.heap[o], m.heap[o]); }
  }

  /** Every reachable state is good; over any run the revision and the trace only
      grow, and no owner's identity changes, phase rank falls, terminal start
      reopens or recorded stop is lost. */
  lemma {:induction false} RunGood(s: State, es: seq<Event>)
    requires Formed(s) && Good(s)
    ensures Formed(Run(s, es)) && Good(Run(s, es)) && Later(s, Run(s, es))
    decreases |es|
  {
    hide Good;
    if es != [] {
      StepGood(s, es[0]);
      RunGood(Apply(s, es[0]), es[1..]);
      LaterTransitive(s, Apply(s, es[0]), Run(s, es));
    }
  }

  lemma {:induction false} RunSafe(m: Mark, s: State, es: seq<Event>)
    requires Formed(s) && Good(s) && Safe(m, s)
    requires m.base.revision < s.revision || |Run(s, es).wire| <= m.writes
    ensures Safe(m, Run(s, es))
    decreases |es|
  {
    hide Good, Safe;
    if es != [] {
      StepGood(s, es[0]);
      RunGood(Apply(s, es[0]), es[1..]);
      assert |Apply(s, es[0]).wire| <= |Run(s, es).wire|;
      StepSafe(m, s, es[0]);
      RunSafe(m, Apply(s, es[0]), es[1..]);
    }
  }

  /** The last event of a run is applied to a good state. */
  lemma LastStep(s0: State, es: seq<Event>, e: Event) returns (s: State)
    requires Started(s0)
    ensures s == Run(s0, es) && Formed(s) && Good(s)
    ensures Run(s0, es + [e]) == Apply(s, e) && Formed(Apply(s, e)) && Good(Apply(s, e))
  {
    hide Good, Apply;
    s := Run(s0, es);
    StartedGood(s0);
    RunGood(s0, es);
    RunAppend(s0, es, [e]);
    assert Run(s, [e]) == Run(Step(s, e), []);
    StepGood(s, e);
  }

  // ---- Stop overtakes start ----------------------------------------------------------

  /** Once any revoke has run in `b`, in whatever interleaving, no manual session
      whose start had arrived in `a` is ever pending or active again, whatever
      follows in `c`, and no moving frame of such a session is ever written again. */
  lemma StopOvertakesStart(s0: State, a: seq<Event>, b: seq<Event>, c: seq<Event>)
    requires Started(s0)
    requires Run(s0, a).revision < Run(s0, a + b).revision
    ensures var s, m, r := Run(s0, a), Run(s0, a + b), Run(s0, a + b + c);
            && (forall o :: 0 <= o < |r.heap| && r.heap[o].request < s.next ==> !Live(r.heap[o].phase))
            && (forall i :: |m.wire| <= i < |r.wire| && r.wire[i].frame.deadman ==>
                  r.wire[i].owner < |r.heap| && s.next <= r.heap[r.wire[i].owner].request)
  {
    hide Good, Safe;
    StartedGood(s0);
    RunGood(s0, a);
    RunAppend(s0, a, b);
    RunAppend(s0, a + b, c);
    var s, m := Run(s0, a), Run(s0, a + b);
    RunGood(s, b);
    RunGood(m, c);
    var mark := Mark(s, |m.wire|);
    MarkHere(s, |m.wire|);
    RunSafe(mark, s, b);
    RunSafe(mark, m, c);
    SafeTells(mark, Run(m, c));
  }

  lemma SafeTells(m: Mark, r: State)
    requires Safe(m, r) && m.base.revision < r.revision
    ensures forall o :: 0 <= o < |r.heap| && r.heap[o].request < m.base.next ==> !Live(r.heap[o].phase)
    ensures Quiet(m, r)
  {
    hide Books, Accounted;
  }

  /** In particular an admitted stop, motor-off or manual stop overtakes every start that
      arrived before it, whatever reset, LiDAR command or owner is pending. */
  lemma AdmittedStopOvertakes(s0: State, a: seq<Event>, t: nat, c: seq<Event>)
    requires Started(s0) && At(Run(s0, a), t, Waiting) && Bypasses(Run(s0, a).tasks[t].command)
    ensures var s, r := Run(s0, a), Run(s0, a + [Admits(t, true)] + c);
            && (forall o :: 0 <= o < |r.heap| && r.heap[o].request < s.next ==> !Live(r.heap[o].phase))
            && (forall i :: |s.wire| <= i < |r.wire| && r.wire[i].frame.deadman ==>
                  r.wire[i].owner < |r.heap| && s.next <= r.heap[r.wire[i].owner].request)
  {
    hide Good, Admit;
    var s := LastStep(s0, a, Admits(t, true));
    AdmittedStopBumps(s, t);
    AdmitTouches(s, t, true);
    StopOvertakesStart(s0, a, [Admits(t, true)], c);
  }

  lemma AdmittedStopBumps(s: State, t: nat)
    requires Formed(s) && At(s, t, Waiting) && Bypasses(s.tasks[t].command)
    ensures Admit(s, t, true).revision == s.revision + 1
  {
    hide RevokeNow;
    RevokeTouches(s, s.tasks[t].command != TeleopStop, false);
  }

  // ---- Exclusion ----------------------------------------------------------------------

  /** While a robot has a manual owner, every open command is a stop, a motor-off,
      a manual stop, or that owner's own start. */
  lemma ManualExcludesOthers(s0: State, es: seq<Event>, id: Id)
    requires Started(s0)
    ensures var r := Run(s0, es);
            Formed(r) && (r.owner.Some? && id in r.active ==>
              || r.active[id].command in {Stop, MotorDisable, TeleopStop}
              || (r.active[id].command == TeleopStart && id == r.heap[r.owner.value].command))
  {
    StartedGood(s0);
    RunGood(s0, es);
    hide Books, Accounted;
    assert Exclusive(Run(s0, es));
  }

  // ---- Which steps touch the wire, the owner and the histories --------------------------

  /** The step leaves the wire, the owner, the answers, the forwards and the requests alone. */
  predicate Untouched(s: State, r: State) {
    && r.wire == s.wire && r.owner == s.owner && r.answered == s.answered && r.forwarded == s.forwarded
    && r.asked == s.asked
  }

  /** A start that passes may bring an owner where there was none. */
  predicate Passes(s: State, r: State) {
    r.wire == s.wire && r.forwarded == s.forwarded && r.asked == s.asked && (s.owner.Some? ==> r.owner == s.owner)
  }

  /** At most one new request came in, as task `t`. */
  predicate Asks(s: State, r: State, t: nat, id: Id) {
    && r.wire == s.wire && r.owner == s.owner && r.answered == s.answered && r.forwarded == s.forwarded
    && (r.asked == s.asked || (t !in s.asked && r.asked == s.asked[t := id]))
  }

  /** The owner stays, or leaves because its start and all its stops are terminal. */
  predicate Released(s: State, r: State)
    requires Placed(s)
  {
    && r.wire == s.wire && r.asked == s.asked
    && (r.owner == s.owner ||
        (r.owner.None? && |r.heap| == |s.heap|
         && r.heap[s.owner.value].startTerminal && r.heap[s.owner.value].stopIds == {}))
  }

  lemma RevokeTouches(s: State, issueStop: bool, zeroSent: bool)
    requires Formed(s)
    ensures var r := RevokeNow(s, issueStop, zeroSent);
            && Untouched(s, r) && r.next == s.next + 1 && r.revision == s.revision + 1
            && r.resetPending == s.resetPending && r.lidarPending == s.lidarPending
            && r.active == s.active && r.timers == s.timers && r.asked == s.asked && r.recovery == s.recovery
            && (forall t :: t in s.tasks ==> t in r.tasks && r.tasks[t] == s.tasks[t])
  {
    RevokeShape(s, issueStop, zeroSent);
    hide RevokeNow;
  }

  /** A revocation changes the revision, the task counter, one owner and one task. */
  lemma RevokeShape(s: State, issueStop: bool, zeroSent: bool)
    requires Formed(s)
    ensures var r := RevokeNow(s, issueStop, zeroSent);
            && r == s.(revision := s.revision + 1, next := s.next + 1, heap := r.heap, tasks := r.tasks)
            && (forall t :: t in s.tasks ==> t in r.tasks && r.tasks[t] == s.tasks[t])
  {
    hide Closed;
  }

  lemma AdmitTouches(s: State, t: nat, ok: bool)
    requires Formed(s)
    ensures Untouched(s, Admit(s, t, ok))
  {
    hide RevokeNow, Judge, Move;
    if At(s, t, Waiting) {
      var s1 := if Bypasses(s.tasks[t].command) then s else s.(lock := Some(t));
      var v := Judge(s, s.tasks[t], ok);
      if v.revoke.Some? { RevokeTouches(s1, v.revoke.value, false); }
      MoveTouches(s1, t, if v.refused then Refusing else Checking);
    }
  }

  lemma SentTouches(s: State, t: nat, ok: bool)
    requires Formed(s)
    ensures Untouched(s, Sent(s, t, ok))
  {
    hide RevokeNow, MarkUncertain, Finish;
    if At(s, t, Forwarding) {
      var q := s.tasks[t];
      if IsTeleop(q.command) {
        RevokeTouches(s, false, false);
      } else {
        MarkTouches(s, q.id, q.command, t);
        FinishTouches(s, q.id, q.command, t);
      }
    }
  }

  lemma MarkTouches(s: State, id: Id, command: Command, origin: nat)
    requires Placed(s)
    ensures var r := MarkUncertain(s, id, command, origin);
            Untouched(s, r) && r.resetPending == s.resetPending && r.lidarPending == s.lidarPending
  {}

  lemma ConcludeTouches(s: State, t: nat)
    requires Formed(s)
    ensures Untouched(s, Conclude(s, t)) && Untouched(s, DoubtNow(s, t))
  {
    hide MarkUncertain;
    if Ready(s, t) && s.tasks[t].Request? { MarkTouches(s, s.tasks[t].id, s.tasks[t].command, t); }
    if Ready(s, t) && s.tasks[t].Doubt? {
      MarkTouches(s, s.tasks[t].id, s.tasks[t].entry.command, s.tasks[t].entry.request);
    }
  }

  lemma TerminalTouches(s: State, id: Id, command: Command, origin: nat)
    requires Placed(s)
    ensures var r := Finish(Terminal(s, id), id, command, origin);
            Released(s, r) && r.forwarded == s.forwarded && r.answered == s.answered + {id}
  {
    TerminalReleases(s, id);
    hide Terminal;
  }

  lemma TerminalReleases(s: State, id: Id)
    requires Placed(s)
    ensures var r := Terminal(s, id);
            Released(s, r) && r.forwarded == s.forwarded && r.answered == s.answered + {id}
  {}

  lemma DoubtTouches(s: State, id: Id, entry: Entry, issueStop: bool)
    requires Formed(s)
    ensures var r := RevokeThenDoubt(s, id, entry, issueStop);
            Untouched(s, r) && r.resetPending == s.resetPending && r.lidarPending == s.lidarPending
  {
    hide RevokeNow;
    RevokeTouches(s, issueStop, false);
  }

  lemma OpenTouches(s: State, t: nat, session: nat, stale: Option<nat>)
    requires Formed(s) && t in s.tasks && s.tasks[t].Request?
    ensures var r := Open(s, t, session, stale);
            && Released(s, r)
            && (r.forwarded == s.forwarded
                || r.forwarded == s.forwarded + [Forward(s.tasks[t].command, s.tasks[t].id, t)])
            && (r.answered == s.answered || (s.tasks[t].command == TeleopStart && r.forwarded == s.forwarded
                                             && r.answered == s.answered + {s.tasks[t].id}))
  {
    hide Terminal, Finish;
    TerminalTouches(Launch(s, t, session, stale), s.tasks[t].id, s.tasks[t].command, t);
  }

  lemma AckTouches(s: State, id: Id, from: nat, ok: bool)
    requires Formed(s)
    ensures var r := Acknowledge(s, id, from, ok);
            && Released(s, r) && r.forwarded == s.forwarded
            && (r.answered == s.answered || (!ok && r.answered == s.answered + {id}))
            && (ok ==> r.owner == s.owner)
  {
    hide RevokeNow, Terminal, Finish;
    if id in s.active {
      var e := s.active[id];
      var s1 := s.(active := s.active[id := e.(acked := true)]);
      RevokeTouches(s1, true, false);
      TerminalTouches(s1, id, e.command, e.request);
      FinishTouches(s1, id, e.command, e.request);
    }
  }

  lemma FinishTouches(s: State, id: Id, command: Command, origin: nat)
    ensures Untouched(s, Finish(s, id, command, origin))
  {}

  lemma ResultTouches(s: State, id: Id, from: nat, outcome: Outcome)
    requires Formed(s)
    ensures var r := Conclusion(s, id, from, outcome);
            && Released(s, r) && r.forwarded == s.forwarded
            && (r.answered == s.answered || (outcome != TimedOut && r.answered == s.answered + {id}))
            && (outcome == TimedOut ==> r.owner == s.owner)
  {
    hide Terminal, RevokeThenDoubt, MarkUncertain, Finish;
    if id in s.active {
      var e := s.active[id];
      var c := e.command;
      if IsTeleop(c) {
        TerminalTouches(s, id, c, e.request);
        DoubtTouches(s, id, e, false);
      } else {
        MarkTouches(s, id, c, e.request);
        FinishTouches(if c == SetLidarPower then s.(recovery := outcome != Succeeded) else s, id, c, e.request);
      }
    }
  }

  lemma ExpireTouches(s: State, id: Id, forAck: bool)
    requires Formed(s)
    ensures Untouched(s, Expire(s, id, forAck))
  {
    hide RevokeThenDoubt, MarkUncertain, Finish;
    if id in s.active {
      var e := s.active[id];
      DoubtTouches(s, id, e, true);
      MarkTouches(s, id, e.command, e.request);
      FinishTouches(s, id, e.command, e.request);
    }
  }

  lemma LingerTouches(s: State, origin: nat)
    requires Formed(s)
    ensures Untouched(s, Linger(s, origin))
  {
    hide RevokeThenDoubt, Finish;
    if origin in s.timers {
      var id, c := s.timers[origin].id, s.timers[origin].command;
      DoubtTouches(s, id, Entry(c, origin, false, false, 0, None), true);
      FinishTouches(s, id, c, origin);
    }
  }

  lemma SteerTouches(s: State, client: nat, frame: Frame, trusted: bool, timely: bool, paced: bool)
    requires Formed(s)
    ensures Untouched(s, Steer(s, client, frame, trusted, timely, paced))
  {}

  lemma ReturnTouches(s: State, t: nat, sent: bool)
    requires Formed(s) && t in s.tasks && (s.tasks[t].Velocity? || s.tasks[t].Revoke?)
    ensures Untouched(s, Returned(s, t, sent))
  {
    hide RevokeNow;
    var task := s.tasks[t];
    var w := s.heap[task.owner];
    var v := w.(sendLock := if w.sendLock == Some(t) then None else w.sendLock,
                phase := if task.Revoke? && !sent then Unknown else w.phase);
    var s1 := s.(heap := s.heap[task.owner := v]);
    EndTouches(s1, t);
    if task.Revoke? { PutTouches(s1, t, Revoke(task.owner, task.serial, task.issueStop, Deciding)); }
    hide End, Put;
    if task.Velocity? { RevokeTouches(End(s1, t), true, sent); }
  }

  lemma EndTouches(s: State, t: nat)
    ensures Untouched(s, End(s, t)) && (Formed(s) ==> Formed(End(s, t)))
  {}

  lemma EndWriteTouches(s: State, t: nat, ok: bool)
    requires Formed(s)
    ensures Untouched(s, EndWrite(s, t, ok)) && Untouched(s, GiveUp(s, t))
  {
    hide Returned;
    if Sending(s, t, Writing) { ReturnTouches(s, t, ok && Bound(s, s.heap[s.tasks[t].owner])); }
    if Sending(s, t, Queued) { ReturnTouches(s, t, false); }
  }

  lemma StartWriteTouches(s: State, t: nat)
    requires Formed(s)
    ensures var r := StartWrite(s, t);
            && r.owner == s.owner && r.answered == s.answered && r.forwarded == s.forwarded && r.asked == s.asked
            && (r.wire == s.wire || (Sending(s, t, Queued) && s.heap[s.tasks[t].owner].sendLock.None? &&
                                     r == Begun(s, t)
                                     && Bound(s, s.heap[s.tasks[t].owner])
                                     && (FrameOf(s, t).deadman ==> s.heap[s.tasks[t].owner].phase == Active
                                                                   && OwnsLease(s, s.heap[s.tasks[t].owner]))))
  {
    hide Returned;
    if Sending(s, t, Queued) { ReturnTouches(s, t, false); }
  }

  lemma DecideTouches(s: State, t: nat, id: Id)
    requires Formed(s) && Keyed(s)
    ensures Asks(s, Decide(s, t, id), t, id)
  {
    hide EntryKeyed, End;
    if Ready(s, t) && s.tasks[t].Revoke? {
      assert TaskKeyed(s, t, s.tasks[t]);
      var o, w := s.tasks[t].owner, s.heap[s.tasks[t].owner];
      EndTouches(s, t);
      EndTouches(s.(heap := s.heap[o := w.(stopIssued := true, phase := Unknown)]), t);
    }
  }

  lemma AbortTouches(s: State, t: nat)
    requires Formed(s)
    ensures Untouched(s, Abort(s, t))
  {}

  /** Publication: the only step that forwards, or that a reset drops an owner in. */
  lemma PublishTouches(s: State, t: nat, id: Id, stale: Option<nat>)
    requires Formed(s)
    ensures var r := Publish(s, t, stale);
            && r.wire == s.wire && r.asked == s.asked
            && (Released(s, r)
                || (t in s.tasks && s.tasks[t].Request? && s.tasks[t].command == SoftwareReset && r.owner.None?))
    ensures var r := Retire(s, t, id, stale); Released(s, r)
  {
    hide Open;
    if Ready(s, t) && s.tasks[t].Request? {
      if s.tasks[t].point.Audited? { OpenTouches(s, t, s.tasks[t].point.session, stale); }
      if s.tasks[t].point.Retiring? { OpenTouches(s, t, s.tasks[t].point.session, stale); }
    }
  }

  // ---- The wire -------------------------------------------------------------------------

  /** When a step may start a write for task `t`. */
  ghost predicate Licensed(s: State, t: nat)
    requires Formed(s) && t in s.tasks && (s.tasks[t].Velocity? || s.tasks[t].Revoke?)
  {
    var o := s.tasks[t].owner;
    var w := s.heap[o];
    var f := FrameOf(s, t);
    && (forall u :: u in s.tasks && (s.tasks[u].Velocity? || s.tasks[u].Revoke?) && s.tasks[u].owner == o
          ==> s.tasks[u].stage != Writing)
    && Bound(s, w) && f.command == w.command
    && (f.deadman ==> s.owner == Some(o) && w.phase == Active && OwnsLease(s, w) && w.arrival == s.revision
                      && !OverPolicy(w.policy, f.linear, f.angular))
    && (!f.deadman ==> f.linear == 0.0 && f.angular == 0.0)
  }

  lemma GoodKeyed(s: State)
    requires Good(s)
    ensures Keyed(s)
  {
    hide Sound, Accounted, Barred, Keyed, Answered;
  }

  lemma WriterFacts(s: State, t: nat)
    requires Formed(s) && Good(s) && t in s.tasks && (s.tasks[t].Velocity? || s.tasks[t].Revoke?)
    requires var w := s.heap[s.tasks[t].owner];
             w.sendLock.None? && Bound(s, w) && (FrameOf(s, t).deadman ==> w.phase == Active && OwnsLease(s, w))
    ensures Licensed(s, t)
  {
    hide Books, Accounted;
  }

  /** A frame starts towards the robot only when no other frame of its owner is in
      flight, on the owner's own connection; a moving one only while that owner is
      the current one, active, holds the lease and is within its captured caps, and
      nothing has been revoked since its start arrived. */
  lemma WritesAreLicensed(s0: State, es: seq<Event>, e: Event)
    requires Started(s0)
    requires Run(s0, es + [e]).wire != Run(s0, es).wire
    ensures var s := Run(s0, es);
            && Formed(s)
            && exists t :: && t in s.tasks && (s.tasks[t].Velocity? || s.tasks[t].Revoke?) && Licensed(s, t)
                           && Run(s0, es + [e]).wire ==
                                s.wire + [Write(s.tasks[t].owner, FrameOf(s, t), s.tasks[t].Revoke?)]
  {
    hide Good, Licensed, Apply;
    var s := LastStep(s0, es, e);
    GoodKeyed(s);
    StepTouches(s, e);
    StartWriteIsStep(s, e);
    StartWriteTouches(s, e.t);
    WriterFacts(s, e.t);
  }

  lemma StartWriteIsStep(s: State, e: Event)
    requires Formed(s)
    ensures e.StartsWrite? ==> Apply(s, e) == StartWrite(s, e.t)
  {
    hide StartWrite;
  }

  /** What each kind of step may do to the wire, the owner and the histories. */
  lemma StepTouches(s: State, e: Event)
    requires Formed(s) && Keyed(s)
    ensures var r := Apply(s, e);
            match e
            case Publishes(t, stale) =>
              && r.wire == s.wire && r.asked == s.asked
              && (Released(s, r)
                  || (t in s.tasks && s.tasks[t].Request? && s.tasks[t].command == SoftwareReset && r.owner.None?))
            case Retires(_, _, _) => Released(s, r)
            case Acks(id, _, accepted) =>
              Released(s, r) && r.forwarded == s.forwarded && (accepted ==> r.owner == s.owner)
            case Results(id, _, outcome) =>
              Released(s, r) && r.forwarded == s.forwarded && (outcome == TimedOut ==> r.owner == s.owner)
            case StartsWrite(t) =>
              r.owner == s.owner && r.answered == s.answered && r.forwarded == s.forwarded && r.asked == s.asked
            case Validates(t, _) => Passes(s, r)
            case Arrives(_, id, _, _) => Asks(s, r, s.next, id)
            case Decides(t, id) => Asks(s, r, t, id)
            case _ => Untouched(s, r)
  {
    hide Refuse, Check, LookUp, Record, RevokeNow, Put, Admit, Publish, Retire, Sent, Conclude, Acknowledge;
    hide Conclusion, Expire, Linger, DoubtNow, Steer, StartWrite, EndWrite, GiveUp, Decide, Abort, Validate;
    hide Keyed, Formed;
    match e
    case Admits(t, ok) => AdmitTouches(s, t, ok);
    case Validates(t, ok) => ValidateTouches(s, t, ok);
    case Publishes(t, stale) => PublishTouches(s, t, 0, stale);
    case Retires(t, id, stale) => PublishTouches(s, t, id, stale);
    case Sends(t, ok) => SentTouches(s, t, ok);
    case Concludes(t) => ConcludeTouches(s, t);
    case Acks(id, from, ok) => AckTouches(s, id, from, ok);
    case Results(id, from, outcome) => ResultTouches(s, id, from, outcome);
    case Expires(id, forAck) => ExpireTouches(s, id, forAck);
    case Lingers(origin) => LingerTouches(s, origin);
    case Doubts(t) => ConcludeTouches(s, t);
    case Steers(client, frame, trusted, timely, paced) => SteerTouches(s, client, frame, trusted, timely, paced);
    case StartsWrite(t) => StartWriteTouches(s, t);
    case EndsWrite(t, ok) => EndWriteTouches(s, t, ok);
    case GivesUp(t) => EndWriteTouches(s, t, true);
    case Decides(t, id) => DecideTouches(s, t, id);
    case Aborts(t) => AbortTouches(s, t);
    case Refuses(t) => RefuseTouches(s, t);
    case Checks(t, ok) => CheckTouches(s, t, ok);
    case LooksUp(t) => LookTouches(s, t);
    case Records(t) => LookTouches(s, t);
    case Revokes => RevokeTouches(s, true, false);
    case Changed(env) =>
    case Arrives(c, id, client, takeover) =>
      ArriveTouches(s, c, id, client, takeover);
  }

  lemma PutTouches(s: State, t: nat, task: Task)
    ensures Untouched(s, Put(s, t, task))
  {}

  lemma ArriveTouches(s: State, command: Command, id: Id, client: nat, takeover: bool)
    requires Formed(s) && Keyed(s)
    ensures Asks(s, Apply(s, Arrives(command, id, client, takeover)), s.next, id)
  {
    hide EntryKeyed, TaskKeyed;
  }

  lemma MoveTouches(s: State, t: nat, p: Point)
    requires t in s.tasks && s.tasks[t].Request?
    ensures Untouched(s, Move(s, t, p))
  {}

  lemma RefuseTouches(s: State, t: nat)
    ensures Untouched(s, Refuse(s, t))
  {}

  lemma CheckTouches(s: State, t: nat, ok: bool)
    ensures Untouched(s, Check(s, t, ok))
  {
    hide Move;
    if At(s, t, Checking) {
      var s1 := s.(env := s.env.(lease := Some(s.tasks[t].client)));
      MoveTouches(s, t, Refusing);
      MoveTouches(s1, t, Refusing);
      MoveTouches(s, t, if s.hasDb then Looking else Looked(false));
      MoveTouches(s1, t, if s.hasDb then Looking else Looked(false));
    }
  }

  lemma LookTouches(s: State, t: nat)
    ensures Untouched(s, LookUp(s, t)) && Untouched(s, Record(s, t))
  {
    hide Move;
    if t in s.tasks && s.tasks[t].Request? {
      var s1 := s.(audit := s.audit + {s.tasks[t].id});
      MoveTouches(s, t, Looked(s.tasks[t].id in s.audit));
      if s.tasks[t].point.Auditing? { MoveTouches(s1, t, Audited(s.tasks[t].point.session)); }
    }
  }

  lemma ValidateTouches(s: State, t: nat, ok: bool)
    requires Formed(s)
    ensures var r := Validate(s, t, ok);
            Passes(s, r)
  {
    hide Remember, Prepare, PassTo, Move;
    if t in s.tasks && s.tasks[t].Request? {
      MoveTouches(s, t, Refusing);
      MoveTouches(Pass(s, s.tasks[t].id), t, Refusing);
    }
    if t in s.tasks && s.tasks[t].Request?
       && (s.tasks[t].command == TeleopStart ==> Prepare(Pass(s, s.tasks[t].id), t).Some?) {
      PassTouches(s, t);
    }
  }

  lemma PassTouches(s: State, t: nat)
    requires t in s.tasks && s.tasks[t].Request?
    requires s.tasks[t].command == TeleopStart ==> Prepare(Pass(s, s.tasks[t].id), t).Some?
    ensures var r := PassTo(s, t);
            Passes(s, r)
  {
    hide Remember, Resolved;
  }

  /** A moving frame is admitted only while the robot's live policy is the one captured when
      the session began, as it was then, so it stays within the live caps as well. */
  lemma MovingFramesMeetLivePolicy(s0: State, es: seq<Event>, e: Event, es1: seq<Event>)
    requires Started(s0) && e.Steers? && e.frame.deadman
    ensures var s, r, z := Run(s0, es), Run(s0, es + [e]), Run(s0, es + [e] + es1);
            s.next in r.tasks && r.tasks[s.next].Velocity? ==>
              var o := r.tasks[s.next].owner;
              && Resolved(s).Some? && o < |s.heap| && o < |z.heap| && z.heap[o].policy == s.heap[o].policy
              && SignatureOf(Resolved(s).value) == SignatureOf(z.heap[o].policy)
              && !OverPolicy(Resolved(s).value, e.frame.linear, e.frame.angular)
  {
    hide Good, Steer, Resolved;
    var s := LastStep(s0, es, e);
    SteeredMeets(s, e.client, e.frame, e.trusted, e.timely, e.paced);
    hide OverPolicy, SignatureOf, Run;
    RunAppend(s0, es + [e], es1);
    StartedGood(s0);
    RunGood(s0, es + [e]);
    RunGood(Run(s0, es + [e]), es1);
  }

  lemma SteeredMeets(s: State, client: nat, frame: Frame, trusted: bool, timely: bool, paced: bool)
    requires Formed(s) && frame.deadman
    ensures var r := Steer(s, client, frame, trusted, timely, paced);
            s.next in r.tasks && r.tasks[s.next].Velocity? ==>
              var o := r.tasks[s.next].owner;
              && Resolved(s).Some? && o < |s.heap| && o < |r.heap| && r.heap[o].policy == s.heap[o].policy
              && SignatureOf(Resolved(s).value) == SignatureOf(s.heap[o].policy)
              && !OverPolicy(Resolved(s).value, frame.linear, frame.angular)
  {
    hide Resolved;
  }

  /** Over a whole run: every frame on the wire stays within the caps captured at
      admission and within the commissioned envelope, and after the zero that a
      revoke writes no moving frame of that owner follows. */
  lemma WireStaysSafe(s0: State, es: seq<Event>)
    requires Started(s0)
    ensures var r := Run(s0, es);
            && (forall i :: 0 <= i < |r.wire| ==>
                  && r.wire[i].owner < |r.heap|
                  && var p := r.heap[r.wire[i].owner].policy;
                  && Abs(r.wire[i].frame.linear) <= p.maxLinear + CAP_TOLERANCE <= 0.30 + CAP_TOLERANCE
                  && Abs(r.wire[i].frame.angular) <= p.maxAngular + CAP_TOLERANCE <= 0.70 + CAP_TOLERANCE)
            && (forall i, j :: 0 <= i < j < |r.wire| && r.wire[i].byRevoke && r.wire[i].owner == r.wire[j].owner
                  ==> !r.wire[j].frame.deadman)
  {
    StartedGood(s0);
    RunGood(s0, es);
    hide Books, Accounted;
    var r := Run(s0, es);
    assert Wired(r) && Owning(r);
  }

  // ---- The end of an owner ---------------------------------------------------------------

  /** An owner leaves in one of two ways only: a software reset is admitted, or a
      refusal, a result other than a timeout, or the cancellation of its start
      leaves it with a terminal start and no open stop; then its start and every
      stop ever recorded for it have been answered. */
  lemma OwnerLeavesOnlyWhenResolved(s0: State, es: seq<Event>, e: Event)
    requires Started(s0)
    requires Run(s0, es).owner.Some? && Run(s0, es + [e]).owner != Run(s0, es).owner
    ensures Run(s0, es + [e]).owner.None?
    ensures
      var s, r := Run(s0, es), Run(s0, es + [e]);
      || (e.Publishes? && e.t in s.tasks && s.tasks[e.t].Request? && s.tasks[e.t].command == SoftwareReset)
      || ((e.Publishes? || e.Retires? || (e.Acks? && !e.accepted) || (e.Results? && e.outcome != TimedOut))
          && s.owner.value < |r.heap|
          && var w := r.heap[s.owner.value];
             && w.startTerminal && w.stopIds == {}
             && w.command in r.answered && w.attached <= r.answered)
  {
    hide Good, Apply;
    var s := LastStep(s0, es, e);
    GoodKeyed(s);
    StepTouches(s, e);
    AllAnswered(Apply(s, e), s.owner.value);
  }

  lemma AllAnswered(r: State, o: nat)
    requires Good(r)
    ensures o < |r.heap| && r.heap[o].startTerminal && r.heap[o].stopIds == {} ==>
              r.heap[o].command in r.answered && r.heap[o].attached <= r.answered
  {
    hide Sound, Accounted, Barred, Keyed;
    if o < |r.heap| { assert Settled(r, r.heap[o]); }
  }

  // ---- Barriers ---------------------------------------------------------------------------------

  /** An open reset or LiDAR command is always the one its barrier names, so there is
      never more than one of either. */
  lemma OpenIsNamed(s0: State, es: seq<Event>, x: Id)
    requires Started(s0)
    ensures var r := Run(s0, es);
            x in r.active ==>
              && (r.active[x].command == SoftwareReset ==> r.resetPending == Some(x))
              && (r.active[x].command == SetLidarPower ==> r.lidarPending == Some(x))
  {
    StartedGood(s0);
    RunGood(s0, es);
    hide Sound, Accounted, Keyed, Answered, Waits, Run;
    assert Raised(Run(s0, es));
  }

  /** Neither a server-side timer nor a robot's timeout result clears a barrier. */
  lemma TimeoutsKeepBarriers(s0: State, es: seq<Event>, e: Event)
    requires Started(s0)
    requires e.Expires? || e.Lingers? || (e.Results? && e.outcome == TimedOut)
    ensures Run(s0, es + [e]).resetPending == Run(s0, es).resetPending
    ensures Run(s0, es + [e]).lidarPending == Run(s0, es).lidarPending
  {
    hide Good, Expire, Linger, Conclusion;
    var s := LastStep(s0, es, e);
    if e.Expires? { ExpiryKeepsBarriers(s, e.id, e.forAck); }
    if e.Lingers? { StrayKeepsBarriers(s, e.origin); }
    if e.Results? { TimeoutResultKeepsBarriers(s, e.id, e.from); }
  }

  lemma ExpiryKeepsBarriers(s: State, id: Id, forAck: bool)
    requires Formed(s)
    ensures Expire(s, id, forAck).resetPending == s.resetPending && Expire(s, id, forAck).lidarPending == s.lidarPending
  {
    hide RevokeThenDoubt, MarkUncertain;
    if id in s.active {
      DoubtTouches(s, id, s.active[id], true);
      MarkTouches(s, id, s.active[id].command, s.active[id].request);
    }
  }

  lemma StrayKeepsBarriers(s: State, origin: nat)
    requires Formed(s)
    ensures Linger(s, origin).resetPending == s.resetPending && Linger(s, origin).lidarPending == s.lidarPending
  {
    hide RevokeThenDoubt;
    if origin in s.timers {
      DoubtTouches(s, s.timers[origin].id, Entry(s.timers[origin].command, origin, false, false, 0, None), true);
    }
  }

  lemma TimeoutResultKeepsBarriers(s: State, id: Id, from: nat)
    requires Formed(s)
    ensures var r := Conclusion(s, id, from, TimedOut);
            r.resetPending == s.resetPending && r.lidarPending == s.lidarPending
  {
    hide RevokeThenDoubt, MarkUncertain;
    if id in s.active {
      DoubtTouches(s, id, s.active[id], false);
      MarkTouches(s, id, s.active[id].command, s.active[id].request);
    }
  }

  /** While LiDAR power is pending only stops, resets and motor commands are sent, nothing
      that needs LiDAR is sent while its recovery is required, and nothing but stops and
      resets while a reset is pending. */
  lemma BarriersGuardForwarding(s0: State, es: seq<Event>, e: Event)
    requires Started(s0) && Run(s0, es + [e]).forwarded != Run(s0, es).forwarded
    ensures var s := Run(s0, es);
            exists c, id, t :: && Run(s0, es + [e]).forwarded == s.forwarded + [Forward(c, id, t)]
                            && (!IgnoresLidar(c) ==> s.lidarPending.None?)
                            && (NeedsLidar(c) ==> !s.recovery)
                            && (!Unmetered(c) ==> s.resetPending.None?)
  {
    hide Good, Apply, Publish, Retire, Run;
    var s := LastStep(s0, es, e);
    GoodKeyed(s);
    StepTouches(s, e);
    PublishIsStep(s, e);
    if e.Publishes? { PublishForwards(s, e.t, 0, e.stale); } else { PublishForwards(s, e.t, e.id, e.stale); }
    WaitsFact(s, e.t);
    hide Covers;
    var c, id := s.tasks[e.t].command, s.tasks[e.t].id;
    assert Run(s0, es + [e]).forwarded == s.forwarded + [Forward(c, id, e.t)];
  }

  lemma PublishIsStep(s: State, e: Event)
    requires Formed(s)
    ensures e.Publishes? ==> Apply(s, e) == Publish(s, e.t, e.stale)
    ensures e.Retires? ==> Apply(s, e) == Retire(s, e.t, e.id, e.stale)
  {
    hide Publish, Retire;
  }

  lemma PublishForwards(s: State, t: nat, id: Id, stale: Option<nat>)
    requires Formed(s)
    ensures Publish(s, t, stale).forwarded != s.forwarded ==>
              && Ready(s, t) && s.tasks[t].Request? && s.tasks[t].point.Audited?
              && Publish(s, t, stale).forwarded == s.forwarded + [Forward(s.tasks[t].command, s.tasks[t].id, t)]
    ensures Retire(s, t, id, stale).forwarded != s.forwarded ==>
              && Ready(s, t) && s.tasks[t].Request? && s.tasks[t].point.Retiring?
              && Retire(s, t, id, stale).forwarded == s.forwarded + [Forward(s.tasks[t].command, s.tasks[t].id, t)]
  {
    hide Open;
    if Ready(s, t) && s.tasks[t].Request? {
      if s.tasks[t].point.Audited? { OpenTouches(s, t, s.tasks[t].point.session, stale); }
      if s.tasks[t].point.Retiring? { OpenTouches(s, t, s.tasks[t].point.session, stale); }
    }
  }

  lemma WaitsFact(s: State, t: nat)
    requires Good(s) && t in s.tasks
    ensures Waits(s, s.tasks[t])
  {
    hide Sound, Accounted, Keyed, Answered;
  }

  // ---- Duplicates -----------------------------------------------------------------------------

  /** No request is ever forwarded twice. So two forwards of one id come from two requests
      that share it; with a database at least one of them is a stop-class command. */
  lemma NoDuplicateForwards(s0: State, es: seq<Event>, i: nat, j: nat)
    requires Started(s0)
    ensures var r := Run(s0, es);
            i < j < |r.forwarded| ==>
              var f, g := r.forwarded[i], r.forwarded[j];
              && f.request != g.request
              && f.request in r.asked && r.asked[f.request] == f.id
              && g.request in r.asked && r.asked[g.request] == g.id
              && (s0.hasDb && f.id == g.id ==> Bypasses(f.command) || Bypasses(g.command))
  {
    StartedGood(s0);
    RunGood(s0, es);
    hide Sound, Books, Run;
    var r := Run(s0, es);
    if i < j < |r.forwarded| { assert Launched(r, r.forwarded[i]) && Launched(r, r.forwarded[j]); }
  }

  /** A restart: memory is gone, the audit table remains. */
  predicate Restarts(r: State, s: State) {
    Started(s) && s.hasDb == r.hasDb && s.audit == r.audit
  }

  /** With a database nothing that was forwarded before a restart is forwarded after it,
      whatever the command. */
  lemma RestartsForwardNothingTwice(s0: State, es: seq<Event>, s1: State, more: seq<Event>, i: nat, j: nat)
    requires Started(s0) && s0.hasDb && Restarts(Run(s0, es), s1)
    ensures var r, z := Run(s0, es), Run(s1, more);
            i < |r.forwarded| && j < |z.forwarded| ==> r.forwarded[i].id != z.forwarded[j].id
  {
    StartedGood(s0);
    RunGood(s0, es);
    StartedGood(s1);
    RunGood(s1, more);
    hide Sound, Books, Run;
  }
}
