/**
 The objects behind ManualDrive: ManualOwner, TeleopController and CommandBroker with
 the fields their coroutines update in place. Each stretch of code between two awaits
 is a method that turns an object showing one state of the machine into one showing the
 next, so what is proved of runs holds of the fields.
 */
module ManualObjects {
  import opened Options
  import opened TuningPolicy
  import opened ManualDrive

  class ManualOwner {
    const command: Id
    const client: nat
    const binding: Binding
    const policy: Policy
    var phase: Phase
    var serial: int
    var startTerminal: bool
    var stopIds: set<Id>
    var stopIssued: bool
    var sendLock: Option<nat>
    ghost const request: nat
    ghost const arrival: nat
    ghost var attached: set<Id>

    ghost predicate Shows(w: Owner)
      reads this
    {
      && w.command == command && w.client == client && w.binding == binding && w.policy == policy
      && w.phase == phase && w.serial == serial && w.startTerminal == startTerminal && w.stopIds == stopIds
      && w.stopIssued == stopIssued && w.sendLock == sendLock
      && w.request == request && w.arrival == arrival && w.attached == attached
    }

    constructor (command: Id, client: nat, binding: Binding, policy: Policy, ghost request: nat, ghost arrival: nat)
      ensures Shows(Owner(command, client, binding, policy, Pending, -1, false, {}, false, None, request, arrival, {}))
    {
      this.command, this.client, this.binding, this.policy := command, client, binding, policy;
      phase, serial, startTerminal, stopIds, stopIssued, sendLock := Pending, -1, false, {}, false, None;
      this.request, this.arrival, attached := request, arrival, {};
    }

    method Close(ghost w: Owner)
      requires Shows(w)
      modifies this`phase
      ensures Shows(w.(phase := if w.phase == Unknown then Unknown else Closing))
    {
      if phase != Unknown { phase := Closing; }
    }

    method SetPhase(p: Phase, ghost w: Owner)
      requires Shows(w)
      modifies this`phase
      ensures Shows(w.(phase := p))
    {
      phase := p;
    }

    method AddStop(id: Id, ghost w: Owner)
      requires Shows(w)
      modifies this
      ensures Shows(w.(stopIds := w.stopIds + {id}, stopIssued := true, attached := w.attached + {id}))
    {
      stopIds, stopIssued := stopIds + {id}, true;
      attached := attached + {id};
    }

    method Answered(id: Id, ghost w: Owner)
      requires Shows(w)
      modifies this
      ensures Shows(Heard(w, id))
    {
      if id == command { startTerminal, phase := true, Closing; }
      stopIds := stopIds - {id};
    }
  }

  /** One robot's part of the controller. `all` are the owners there have been; tasks that
      are still at work hold on to theirs after it was dropped. */
  class TeleopController {
    var owner: ManualOwner?
    var revision: nat
    ghost var all: seq<ManualOwner>

    ghost predicate Mirrors(heap: seq<Owner>)
      reads this, all
    {
      && |all| == |heap|
      && (forall i, j :: 0 <= i < j < |all| ==> all[i] != all[j])
      && forall i :: 0 <= i < |all| ==> all[i].Shows(heap[i])
    }

    ghost predicate Shows(s: State)
      reads this, all
    {
      && revision == s.revision && Mirrors(s.heap)
      && Placed(s) && owner == if s.owner.Some? then all[s.owner.value] else null
    }

    constructor ()
      ensures all == [] && owner == null && revision == 0
    {
      owner, revision, all := null, 0, [];
    }

    /** revoke() up to its first await: whether a zero is still owed. */
    method RevokeFirst(issueStop: bool, zeroSent: bool, ghost s: State) returns (zero: bool)
      requires Shows(s)
      modifies this, all
      ensures Shows(RevokeNow(s, issueStop, zeroSent)) && all == old(all)
      ensures zero <==> s.owner.Some? && Live(s.heap[s.owner.value].phase) && !zeroSent
    {
      RevokeTouches(s, issueStop, zeroSent);
      hide RevokeNow;
      revision := revision + 1;
      if owner == null { return false; }
      zero := (owner.phase == Pending || owner.phase == Active) && !zeroSent;
      owner.Close(s.heap[s.owner.value]);
    }

    method StopPending(id: Id, ghost s: State)
      requires Shows(s)
      modifies all
      ensures Shows(NoteStop(s, id))
    {
      if owner != null {
        owner.AddStop(id, s.heap[s.owner.value]);
      }
    }

    /** The robot's final word; drops the owner once everything is resolved. */
    method TerminalAnswer(id: Id, ghost s: State)
      requires Shows(s)
      modifies this, all
      ensures Shows(Terminal(s, id)) && all == old(all)
    {
      TerminalShape(s, id);
      hide Terminal, Heard;
      if owner == null { return; }
      if id == owner.command { revision := revision + 1; }
      owner.Answered(id, s.heap[s.owner.value]);
      if owner.startTerminal && owner.stopIds == {} { owner := null; }
    }

    /** The end of prepare(): a new pending owner. */
    method Adopt(command: Id, client: nat, binding: Binding, policy: Policy, ghost request: nat, ghost arrival: nat,
                 ghost s: State)
      requires Shows(s)
      modifies this
      ensures Shows(s.(heap := s.heap + [Owner(command, client, binding, policy, Pending, -1, false, {}, false, None,
                                               request, arrival, {})],
                       owner := Some(|s.heap|)))
    {
      owner := new ManualOwner(command, client, binding, policy, request, arrival);
      all := all + [owner];
    }
  }

  class CommandBroker {
    const teleop: TeleopController
    var active: map<Id, Entry>
    var resetPending: Option<Id>
    var lidarPending: Option<Id>
    var recovery: bool
    var timers: map<nat, Timer>
    var seen: seq<Id>

    ghost predicate Shows(s: State)
      reads this, teleop, teleop.all
    {
      && teleop.Shows(s)
      && active == s.active && resetPending == s.resetPending && lidarPending == s.lidarPending
      && recovery == s.recovery && timers == s.timers && seen == s.seen
    }

    constructor ()
      ensures forall s :: Started(s) && s.revision == 0 ==> Shows(s)
    {
      teleop := new TeleopController();
      active, resetPending, lidarPending, recovery, timers, seen := map[], None, None, false, map[], [];
    }

    method RememberId(id: Id, ghost s: State)
      requires Shows(s)
      modifies this`seen
      ensures Shows(Pass(s, id))
    {
      if id !in seen { seen := seen + [id]; }
      if |seen| > SEEN_LIMIT { seen := seen[|seen| - SEEN_LIMIT..]; }
    }

    /** _finish for the entry of request `origin`. */
    method FinishCommand(id: Id, command: Command, origin: nat, ghost s: State)
      requires Shows(s)
      modifies this`active, this`timers, this`resetPending, this`lidarPending
      ensures Shows(Finish(s, id, command, origin))
    {
      if id !in active { return; }
      active := active - {id};
      timers := timers - {origin};
      if command == SoftwareReset { resetPending := None; }
      if command == SetLidarPower { lidarPending := None; }
    }

    /** _mark_uncertain for the entry of request `origin`. */
    method MarkUncertainCommand(id: Id, command: Command, origin: nat, ghost s: State)
      requires Shows(s)
      modifies this`active, teleop.all
      ensures Shows(MarkUncertain(s, id, command, origin))
    {
      MarkShape(s, id, command, origin);
      hide MarkUncertain;
      if id !in active { return; }
      if active[id].request == origin { active := active[id := active[id].(uncertain := true)]; }
      if IsTeleop(command) && teleop.owner != null { teleop.owner.SetPhase(Unknown, s.heap[s.owner.value]); }
    }

    method CloseOutCommand(id: Id, command: Command, origin: nat, ghost s: State)
      requires Shows(s)
      modifies this`active, this`timers, this`resetPending, this`lidarPending, teleop.all
      ensures Shows(CloseOut(s, id, command, origin))
    {
      if command == SetLidarPower {
        MarkUncertainCommand(id, command, origin, s);
      } else {
        FinishCommand(id, command, origin, s);
      }
    }

    /** The acceptance of a manual start: activates its owner, or revokes. */
    method AcceptStart(id: Id, stands: bool, ghost s: State)
      requires Shows(s)
      modifies teleop, teleop.all
      ensures Shows(if s.owner.Some? && s.heap[s.owner.value].command == id && Live(s.heap[s.owner.value].phase) &&
                    stands
                    then s.(heap := s.heap[s.owner.value := s.heap[s.owner.value].(phase := Active)])
                    else RevokeNow(s, true, false))
    {
      hide RevokeNow;
      RevokeTouches(s, true, false);
      var owner := teleop.owner;
      if owner != null && owner.command == id && (owner.phase == Pending || owner.phase == Active) && stands {
        owner.SetPhase(Active, s.heap[s.owner.value]);
      } else {
        var _ := teleop.RevokeFirst(true, false, s);
      }
    }

    method Refused(id: Id, command: Command, origin: nat, ghost s: State)
      requires Shows(s)
      modifies this, teleop, teleop.all
      ensures Shows(Finish(if IsTeleop(command) then Terminal(s, id) else s, id, command, origin))
    {
      hide Finish, Terminal;
      TerminalTouches(s, id);
      if IsTeleop(command) { teleop.TerminalAnswer(id, s); }
      FinishCommand(id, command, origin, if IsTeleop(command) then Terminal(s, id) else s);
    }

    /** handle_robot_reply for an acknowledgement. `counts` is the connection test for
        manual answers, `stands` the binding, lease and gate tests of an acceptance. */
    method HandleAck(id: Id, from: nat, accepted: bool, counts: bool, stands: bool, ghost s: State)
      requires Shows(s) && counts == Answers(s, id, from)
      requires s.owner.Some? ==>
        stands == (Bound(s, s.heap[s.owner.value]) && OwnsLease(s, s.heap[s.owner.value]) && s.env.clear)
      modifies this, teleop, teleop.all
      ensures Shows(Acknowledge(s, id, from, accepted))
    {
      hide Finish, Terminal, RevokeNow;
      if !counts { return; }
      var e := active[id];
      active := active[id := e.(acked := true)];
      ghost var s1 := s.(active := active);
      if accepted {
        if e.command == TeleopStart { AcceptStart(id, stands, s1); }
      } else {
        Refused(id, e.command, e.request, s1);
      }
    }

    /** handle_robot_reply for a result up to its first await. After a manual timeout that
        await is the revocation, and what remains is to mark the entry uncertain. */
    method HandleResult(id: Id, from: nat, outcome: Outcome, counts: bool, ghost s: State)
      returns (doubt: Option<Entry>)
      requires Shows(s) && counts == Answers(s, id, from)
      modifies this, teleop, teleop.all
      ensures Shows(Conclusion(s, id, from, outcome))
      ensures doubt == if counts && IsTeleop(s.active[id].command) && outcome == TimedOut then Some(s.active[id])
          else None
      ensures var r := Conclusion(s, id, from, outcome);
              doubt.Some? ==>
                s.next + 1 in r.tasks && r.tasks[s.next + 1] == Doubt(id, doubt.value, Some(s.next))
    {
      ConclusionIs(s, id, from, outcome);
      hide Finish, Terminal, RevokeThenDoubt, MarkUncertain, Conclusion;
      doubt := None;
      if !counts { return; }
      var entry := active[id];
      var command := entry.command;
      if IsTeleop(command) {
        if outcome == TimedOut {
          DoubtTouches(s, id, entry, false);
          var _ := teleop.RevokeFirst(false, false, s);
          doubt := Some(entry);
        } else {
          Refused(id, command, entry.request, s);
        }
      } else if outcome == TimedOut && (command == SoftwareReset || command == SetLidarPower) {
        MarkUncertainCommand(id, command, entry.request, s);
      } else {
        if command == SetLidarPower { recovery := outcome != Succeeded; }
        FinishCommand(id, command, entry.request,
                      if command == SetLidarPower then s.(recovery := outcome != Succeeded) else s);
      }
    }

    /** What remains of that coroutine once the revocation `t` waits for is over. */
    method AfterTimeout(t: nat, id: Id, entry: Entry, ghost s: State)
      requires Shows(s) && Ready(s, t) && s.tasks[t].Doubt? && s.tasks[t].id == id && s.tasks[t].entry == entry
      modifies this`active, teleop.all
      ensures Shows(DoubtNow(s, t))
    {
      MarkUncertainCommand(id, entry.command, entry.request, s);
    }
  }

  /** A revocation and a final word concern the manual session only. */
  lemma RevokeTouches(s: State, issueStop: bool, zeroSent: bool)
    requires Placed(s)
    ensures var r := RevokeNow(s, issueStop, zeroSent);
            && r == s.(revision := r.revision, heap := r.heap, next := r.next, tasks := r.tasks) && Placed(r)
            && r.next == s.next + 1 && r.revision == s.revision + 1 && r.heap == Closed(s)
  {}

  /** What a result does, case by case. */
  lemma ConclusionIs(s: State, id: Id, from: nat, outcome: Outcome)
    requires Placed(s)
    ensures !Answers(s, id, from) ==> Conclusion(s, id, from, outcome) == s
    ensures Answers(s, id, from) ==>
              var e, r := s.active[id], Conclusion(s, id, from, outcome);
              var s1 := if e.command == SetLidarPower then s.(recovery := outcome != Succeeded) else s;
              if IsTeleop(e.command) && outcome == TimedOut then r == RevokeThenDoubt(s, id, e, false)
              else if IsTeleop(e.command) then r == Finish(Terminal(s, id), id, e.command, e.request)
              else if outcome == TimedOut && (e.command == SoftwareReset || e.command == SetLidarPower)
              then r == MarkUncertain(s, id, e.command, e.request)
              else r == Finish(s1, id, e.command, e.request)
  {
    hide Finish, Terminal, RevokeThenDoubt, MarkUncertain;
  }

  lemma DoubtTouches(s: State, id: Id, entry: Entry, issueStop: bool)
    requires Placed(s)
    ensures var r, m := RevokeThenDoubt(s, id, entry, issueStop), RevokeNow(s, issueStop, false);
            && r == s.(revision := m.revision, heap := m.heap, next := m.next + 1, tasks := r.tasks)
            && m == s.(revision := m.revision, heap := m.heap, next := m.next, tasks := m.tasks)
            && m.next == s.next + 1 && s.next + 1 in r.tasks && r.tasks[s.next + 1] == Doubt(id, entry, Some(s.next))
  {
    RevokeTouches(s, issueStop, false);
    hide RevokeNow;
  }

  lemma TerminalTouches(s: State, id: Id)
    requires Placed(s)
    ensures var r := Terminal(s, id);
            r == s.(revision := r.revision, heap := r.heap, owner := r.owner, answered := r.answered) && Placed(r)
  {}

  lemma TerminalShape(s: State, id: Id)
    requires Placed(s)
    ensures var r := Terminal(s, id);
            if s.owner.None? then r.revision == s.revision && r.heap == s.heap && r.owner.None?
            else
              var w := s.heap[s.owner.value];
              && r.revision == (if id == w.command then s.revision + 1 else s.revision)
              && r.heap == s.heap[s.owner.value := Heard(w, id)]
              && r.owner == if Over(Heard(w, id)) then None else s.owner
  {}

  lemma MarkShape(s: State, id: Id, command: Command, origin: nat)
    requires Placed(s)
    ensures var r := MarkUncertain(s, id, command, origin);
            && r == s.(active := r.active, heap := r.heap)
            && r.heap == (if id in s.active then Unsure(s, command) else s.heap)
            && r.active == if id !in s.active then s.active
                           else if s.active[id].request != origin then s.active
                           else s.active[id := s.active[id].(uncertain := true)]
  {}
}
