/**
 What ids that several requests share can do to the manual-drive protocol. Stop-class
 commands skip the admission lock, so two requests with one id may both pass the
 duplicate check, and the later one takes the place of the earlier in the table of open
 commands. Here is, step by step and over whole runs, exactly when that robs an owner of
 a command it waits for, or a barrier of the command it names; that it never happens
 while ids are distinct; and runs in which it does.
 */
module ManualClashes {
  import opened Options
  import opened ManualDrive
  import opened ManualInvariant
  import opened ManualBooks
  import opened ManualSafety
  import opened ManualRuns

  // ---- What should hold, and what breaks it ---------------------------------------------

  /** The session's start is still being admitted. */
  predicate StartAhead(s: State, w: Owner) {
    w.request in s.tasks && Starting(s.tasks[w.request]) && s.tasks[w.request].id == w.command
  }

  /** What the current owner still waits for is open, or is its start being admitted. */
  ghost predicate Owned(s: State) {
    Placed(s) && (s.owner.Some? ==>
      var w := s.heap[s.owner.value];
      && (forall x :: x in w.stopIds ==> x in s.active && s.active[x].command == TeleopStop)
      && (w.startTerminal ==> w.stopIds != {})
      && (w.startTerminal || StartAhead(s, w) || (w.command in s.active && s.active[w.command].command == TeleopStart)))
  }

  /** Each barrier names an open command of its kind. */
  ghost predicate Agreeing(s: State) {
    && (s.resetPending.Some? ==>
          s.resetPending.value in s.active && s.active[s.resetPending.value].command == SoftwareReset)
    && (s.lidarPending.Some? ==>
          s.lidarPending.value in s.active && s.active[s.lidarPending.value].command == SetLidarPower)
  }

  datatype Slot = Slot(id: Id, command: Command)

  /** The place in the open table that a step takes, or clears, for a request that need not
      be the one it belongs to: a launch, the close of a command whose send failed, or the
      close by a timer whose entry was replaced. */
  function Taken(s: State, e: Event): Option<Slot>
    requires Placed(s)
  {
    match e
    case Publishes(t, _) =>
      if Ready(s, t) && s.tasks[t].Request? && s.tasks[t].point.Audited? && s.tasks[t].command != SoftwareReset
         && (s.tasks[t].command == TeleopStart ==> StartStands(s, t))
      then Some(Slot(s.tasks[t].id, s.tasks[t].command))
      else None
    case Sends(t, ok) =>
      if !ok && At(s, t, Forwarding) && Ordinary(s.tasks[t].command)
      then Some(Slot(s.tasks[t].id, s.tasks[t].command))
      else None
    case Lingers(origin) =>
      if Stray(s, origin) && Ordinary(s.timers[origin].command)
      then Some(Slot(s.timers[origin].id, s.timers[origin].command))
      else None
    case _ => None
  }

  /** The owner waits for another kind of command under this id. */
  predicate Robs(s: State, x: Slot)
    requires Placed(s)
  {
    s.owner.Some? &&
    var w := s.heap[s.owner.value];
    || (x.id in w.stopIds && x.command != TeleopStop)
    || (x.id == w.command && !w.startTerminal && !StartAhead(s, w) && x.command != TeleopStart)
  }

  /** A barrier stands for another kind of command under this id. */
  predicate Strands(s: State, x: Slot) {
    || (s.resetPending == Some(x.id) && x.command != SoftwareReset)
    || (s.lidarPending == Some(x.id) && x.command != SetLidarPower)
  }

  predicate OwnerClash(s: State, e: Event) {
    Placed(s) && Taken(s, e).Some? && Robs(s, Taken(s, e).value)
  }

  predicate BarrierClash(s: State, e: Event) {
    Placed(s) && Taken(s, e).Some? && Strands(s, Taken(s, e).value)
  }

  /** The books of the owner and of the barriers hold on exactly when neither is robbed. */
  ghost predicate Follows(s: State, r: State, robbed: bool, stranded: bool) {
    && (Owned(s) ==> (Owned(r) <==> !robbed))
    && (Agreeing(s) ==> (Agreeing(r) <==> !stranded))
  }

  // ---- Steps that leave the table alone ------------------------------------------------------

  ghost predicate SameOpen(a: map<Id, Entry>, b: map<Id, Entry>) {
    a.Keys == b.Keys && forall x :: x in a ==> b[x].command == a[x].command
  }

  ghost predicate SameTasks(a: map<nat, Task>, b: map<nat, Task>) {
    && (forall u :: u in a && Starting(a[u]) ==> u in b && Starting(b[u]) && b[u].id == a[u].id)
    && (forall u :: u in b && b[u].Request? && b[u].point.Retiring? ==>
          u in a && a[u].Request? && a[u].point == b[u].point)
  }

  ghost predicate SameOwners(a: seq<Owner>, b: seq<Owner>) {
    |a| == |b| && forall o :: 0 <= o < |a| ==> SameBook(a[o], b[o]) && b[o].request == a[o].request
  }

  /** The owner, its books, the open commands, the barriers and what is being admitted or
      retired stay as they are. */
  ghost predicate Keeps(s: State, r: State) {
    && r.owner == s.owner && r.resetPending == s.resetPending && r.lidarPending == s.lidarPending
    && SameOwners(s.heap, r.heap) && SameOpen(s.active, r.active) && SameTasks(s.tasks, r.tasks)
  }

  lemma KeepsFollows(s: State, r: State)
    requires Placed(s) && Keeps(s, r)
    ensures Follows(s, r, false, false)
  {
    KeepsBack(s, r);
  }

  lemma KeepsBack(s: State, r: State)
    requires Placed(s) && Keeps(s, r)
    ensures Owned(s) ==> Owned(r)
    ensures Agreeing(s) ==> Agreeing(r)
  {}

  lemma KeepsTrans(s: State, m: State, r: State)
    requires Keeps(s, m) && Keeps(m, r)
    ensures Keeps(s, r)
  {
    forall o | 0 <= o < |s.heap| ensures SameBook(s.heap[o], r.heap[o]) && r.heap[o].request == s.heap[o].request {
      assert SameBook(s.heap[o], m.heap[o]) && SameBook(m.heap[o], r.heap[o]);
    }
  }

  lemma RestKeeps(s: State, r: State)
    requires r.owner == s.owner && r.resetPending == s.resetPending && r.lidarPending == s.lidarPending
    requires r.heap == s.heap && r.active == s.active && r.tasks == s.tasks
    ensures Keeps(s, r)
  {}

  lemma HeapKeeps(s: State, o: nat, v: Owner)
    requires o < |s.heap| && SameBook(s.heap[o], v) && v.request == s.heap[o].request
    ensures Keeps(s, s.(heap := s.heap[o := v]))
  {}

  lemma FlagKeeps(s: State, id: Id, e: Entry)
    requires id in s.active && e.command == s.active[id].command
    ensures Keeps(s, s.(active := s.active[id := e]))
  {}

  lemma EndKeeps(s: State, t: nat)
    requires t in s.tasks ==> !Starting(s.tasks[t])
    ensures Keeps(s, End(s, t))
  {}

  /** A task may move as long as an admitted start stays one and no reset begins to retire. */
  lemma PutKeeps(s: State, t: nat, task: Task)
    requires t in s.tasks && Starting(s.tasks[t]) ==> Starting(task) && task.id == s.tasks[t].id
    requires task.Request? ==> !task.point.Retiring?
    ensures Keeps(s, Put(s, t, task))
  {}

  lemma RevokeKeeps(s: State, issueStop: bool, zeroSent: bool)
    requires Formed(s)
    ensures Keeps(s, RevokeNow(s, issueStop, zeroSent))
  {
    SettleKeeps(s);
    if s.owner.Some? {
      hide Settle, Keeps;
      PutKeeps(Settle(s), s.next, RevokeNow(s, issueStop, zeroSent).tasks[s.next]);
      KeepsTrans(s, Settle(s), RevokeNow(s, issueStop, zeroSent));
    }
  }

  lemma SettleKeeps(s: State)
    requires Formed(s)
    ensures Keeps(s, Settle(s)) && Settle(s).tasks == s.tasks && Settle(s).next == s.next + 1 && s.next !in s.tasks
  {
    SettleOwners(s);
    SettleRest(s);
    hide Settle, SameOwners;
  }

  lemma SettleOwners(s: State)
    requires Placed(s)
    ensures SameOwners(s.heap, Settle(s).heap)
  {}

  lemma SettleRest(s: State)
    requires Placed(s)
    ensures var r := Settle(s);
            && r.owner == s.owner && r.resetPending == s.resetPending && r.lidarPending == s.lidarPending
            && r.active == s.active && r.tasks == s.tasks && r.next == s.next + 1
  {}

  lemma MarkKeeps(s: State, id: Id, command: Command, origin: nat)
    requires Placed(s)
    ensures Keeps(s, MarkUncertain(s, id, command, origin))
    ensures MarkUncertain(s, id, command, origin).tasks == s.tasks
  {
    hide Keeps;
    RestKeeps(s, s);
    if id in s.active {
      var e := s.active[id];
      var s1 := s.(active := s.active[id := if e.request == origin then e.(uncertain := true) else e]);
      FlagKeeps(s, id, s1.active[id]);
      UnsureKeeps(s1, command);
      KeepsTrans(s, s1, s1.(heap := Unsure(s1, command)));
    }
  }

  lemma UnsureKeeps(s: State, command: Command)
    requires Placed(s)
    ensures Keeps(s, s.(heap := Unsure(s, command)))
  {
    hide Keeps;
    RestKeeps(s, s.(heap := s.heap));
    if s.owner.Some? { HeapKeeps(s, s.owner.value, s.heap[s.owner.value].(phase := Unknown)); }
  }

  lemma DoubtKeeps(s: State, id: Id, entry: Entry, issueStop: bool)
    requires Formed(s)
    ensures Keeps(s, RevokeThenDoubt(s, id, entry, issueStop))
  {
    RevokeKeeps(s, issueStop, false);
    RevokeShape(s, issueStop, false);
    hide RevokeNow;
    var s1 := RevokeNow(s, issueStop, false);
    var s2 := s1.(next := s1.next + 1);
    assert Keeps(s1, s2);
    hide Keeps;
    KeepsTrans(s, s1, s2);
    NewTask(s, issueStop);
    PutKeeps(s2, s1.next, Doubt(id, entry, Some(s.next)));
    KeepsTrans(s, s2, RevokeThenDoubt(s, id, entry, issueStop));
  }

  lemma NewTask(s: State, issueStop: bool)
    requires Formed(s)
    ensures RevokeNow(s, issueStop, false).next !in RevokeNow(s, issueStop, false).tasks
  {
    SettleKeeps(s);
    hide Settle, Keeps;
  }

  lemma AdmitKeeps(s: State, t: nat, ok: bool)
    requires Formed(s)
    ensures Keeps(s, Admit(s, t, ok))
  {
    hide Keeps, RevokeNow, Judge;
    RestKeeps(s, s);
    if At(s, t, Waiting) && (Bypasses(s.tasks[t].command) || s.lock.None?) {
      var s1 := if Bypasses(s.tasks[t].command) then s else s.(lock := Some(t));
      RestKeeps(s, s1);
      var v := Judge(s, s.tasks[t], ok);
      var p := if v.refused then Refusing else Checking;
      if v.revoke.None? {
        PutKeeps(s1, t, s.tasks[t].(point := p, after := None));
        KeepsTrans(s, s1, Move(s1, t, p));
      } else {
        RevokeMoveKeeps(s1, t, v.revoke.value, p);
        KeepsTrans(s, s1, MoveAfter(RevokeNow(s1, v.revoke.value, false), t, p, s.next));
      }
    }
  }

  lemma RevokeMoveKeeps(s: State, t: nat, issueStop: bool, p: Point)
    requires Formed(s) && t in s.tasks && s.tasks[t].Request? && !Starting(s.tasks[t]) && !p.Retiring?
    ensures var r := RevokeNow(s, issueStop, false);
            t in r.tasks && r.tasks[t].Request? && Keeps(s, MoveAfter(r, t, p, s.next))
  {
    hide Keeps;
    RevokeKeeps(s, issueStop, false);
    RevokeShape(s, issueStop, false);
    var r := RevokeNow(s, issueStop, false);
    hide RevokeNow;
    PutKeeps(r, t, r.tasks[t].(point := p, after := Some(s.next)));
    KeepsTrans(s, r, MoveAfter(r, t, p, s.next));
  }

  lemma SteerKeeps(s: State, client: nat, frame: Frame, trusted: bool, timely: bool, paced: bool)
    requires Formed(s)
    ensures Keeps(s, Steer(s, client, frame, trusted, timely, paced))
  {
    hide Keeps, RevokeNow;
    RestKeeps(s, s);
    RevokeKeeps(s, true, false);
    if s.owner.Some? {
      var o := s.owner.value;
      var s1 := s.(heap := s.heap[o := s.heap[o].(serial := frame.serial)]);
      var s2 := s1.(next := s.next + 1);
      HeapKeeps(s, o, s.heap[o].(serial := frame.serial));
      RestKeeps(s1, s2);
      KeepsTrans(s, s1, s2);
      PutKeeps(s2, s.next, Velocity(o, frame, Queued));
      KeepsTrans(s, s2, Put(s2, s.next, Velocity(o, frame, Queued)));
    }
  }

  lemma ReturnedKeeps(s: State, t: nat, sent: bool)
    requires Formed(s) && t in s.tasks && (s.tasks[t].Velocity? || s.tasks[t].Revoke?)
    ensures Keeps(s, Returned(s, t, sent))
  {
    hide Keeps, RevokeNow;
    var task := s.tasks[t];
    var w := s.heap[task.owner];
    var v := w.(sendLock := if w.sendLock == Some(t) then None else w.sendLock,
                phase := if task.Revoke? && !sent then Unknown else w.phase);
    var s1 := s.(heap := s.heap[task.owner := v]);
    HeapKeeps(s, task.owner, v);
    if task.Revoke? {
      PutKeeps(s1, t, Revoke(task.owner, task.serial, task.issueStop, Deciding));
      KeepsTrans(s, s1, Returned(s, t, sent));
    } else {
      EndKeeps(s1, t);
      EndTouches(s1, t);
      KeepsTrans(s, s1, End(s1, t));
      RevokeKeeps(End(s1, t), true, sent);
      KeepsTrans(s, End(s1, t), RevokeNow(End(s1, t), true, sent));
    }
  }

  lemma StartWriteKeeps(s: State, t: nat)
    requires Formed(s)
    ensures Keeps(s, StartWrite(s, t))
  {
    hide Keeps, Returned;
    RestKeeps(s, s);
    if Sending(s, t, Queued) {
      ReturnedKeeps(s, t, false);
      var o := s.tasks[t].owner;
      var s1 := s.(heap := s.heap[o := s.heap[o].(sendLock := Some(t))]);
      var s2 := s1.(wire := s.wire + [Write(o, FrameOf(s, t), s.tasks[t].Revoke?)]);
      HeapKeeps(s, o, s.heap[o].(sendLock := Some(t)));
      RestKeeps(s1, s2);
      KeepsTrans(s, s1, s2);
      PutKeeps(s2, t, s.tasks[t].(stage := Writing));
      KeepsTrans(s, s2, Put(s2, t, s.tasks[t].(stage := Writing)));
    }
  }

  lemma EndWriteKeeps(s: State, t: nat, ok: bool)
    requires Formed(s)
    ensures Keeps(s, EndWrite(s, t, ok)) && Keeps(s, GiveUp(s, t))
  {
    hide Keeps, Returned;
    RestKeeps(s, s);
    if Sending(s, t, Writing) { ReturnedKeeps(s, t, ok && Bound(s, s.heap[s.tasks[t].owner])); }
    if Sending(s, t, Queued) { ReturnedKeeps(s, t, false); }
  }

  lemma DecideKeeps(s: State, t: nat, id: Id)
    requires Formed(s)
    ensures Keeps(s, Decide(s, t, id))
  {
    hide Keeps;
    RestKeeps(s, s);
    if Ready(s, t) && s.tasks[t].Revoke? {
      var o, w := s.tasks[t].owner, s.heap[s.tasks[t].owner];
      var v := w.(stopIssued := true, phase := if Bound(s, w) then w.phase else Unknown);
      var s1 := s.(heap := s.heap[o := v]);
      var s2 := s1.(asked := s.asked[t := id]);
      EndKeeps(s, t);
      HeapKeeps(s, o, v);
      EndKeeps(s1, t);
      KeepsTrans(s, s1, End(s1, t));
      RestKeeps(s1, s2);
      KeepsTrans(s, s1, s2);
      var q := Request(TeleopStop, id, w.client, false, s.revision, Waiting, None);
      PutKeeps(s2, t, q);
      KeepsTrans(s, s2, Put(s2, t, q));
    }
  }

  lemma AbortKeeps(s: State, t: nat)
    requires Formed(s)
    ensures Keeps(s, Abort(s, t))
  {
    hide Keeps;
    RestKeeps(s, s);
    if t in s.tasks {
      if s.tasks[t].Revoke? || s.tasks[t].Velocity? {
        var w := s.heap[s.tasks[t].owner];
        var v := w.(sendLock := if w.sendLock == Some(t) then None else w.sendLock);
        var s1 := s.(heap := s.heap[s.tasks[t].owner := v]);
        HeapKeeps(s, s.tasks[t].owner, v);
        EndKeeps(s1, t);
        KeepsTrans(s, s1, End(s1, t));
      } else if !Starting(s.tasks[t]) {
        EndKeeps(s, t);
      }
    }
  }

  lemma MarkEndKeeps(s: State, t: nat, id: Id, command: Command, origin: nat)
    requires Placed(s) && t in s.tasks && !Starting(s.tasks[t])
    ensures Keeps(s, End(MarkUncertain(s, id, command, origin), t))
  {
    hide Keeps;
    MarkKeeps(s, id, command, origin);
    var s1 := MarkUncertain(s, id, command, origin);
    hide MarkUncertain;
    EndKeeps(s1, t);
    KeepsTrans(s, s1, End(s1, t));
  }

  lemma ConcludeKeeps(s: State, t: nat)
    requires Formed(s)
    ensures Keeps(s, Conclude(s, t)) && Keeps(s, DoubtNow(s, t))
  {
    hide Keeps;
    RestKeeps(s, s);
    if Ready(s, t) && s.tasks[t].Request? && (s.tasks[t].point.Reporting? || s.tasks[t].point.Doubting?) {
      EndKeeps(s, t);
      MarkEndKeeps(s, t, s.tasks[t].id, s.tasks[t].command, t);
    }
    if Ready(s, t) && s.tasks[t].Doubt? {
      MarkEndKeeps(s, t, s.tasks[t].id, s.tasks[t].entry.command, s.tasks[t].entry.request);
    }
  }

  /** A request that is screened, refused or recorded. */
  lemma ScreenKeeps(s: State, t: nat, ok: bool)
    requires Formed(s)
    ensures Keeps(s, Refuse(s, t)) && Keeps(s, LookUp(s, t)) && Keeps(s, Record(s, t)) && Keeps(s, Check(s, t, ok))
  {
    hide Keeps;
    RefuseKeeps(s, t);
    CheckKeeps(s, t, ok);
    RestKeeps(s, s);
    if Ready(s, t) && s.tasks[t].Request? {
      if s.tasks[t].point.Looking? {
        PutKeeps(s, t, s.tasks[t].(point := Looked(s.tasks[t].id in s.audit), after := None));
      }
      if s.tasks[t].point.Auditing? {
        var s1 := s.(audit := s.audit + {s.tasks[t].id});
        RestKeeps(s, s1);
        PutKeeps(s1, t, s.tasks[t].(point := Audited(s.tasks[t].point.session), after := None));
        KeepsTrans(s, s1, Record(s, t));
      }
    }
  }

  lemma RefuseKeeps(s: State, t: nat)
    ensures Keeps(s, Refuse(s, t))
  {
    hide Keeps;
    RestKeeps(s, s);
    if At(s, t, Refusing) {
      var s1 := s.(audit := if s.hasDb then s.audit + {s.tasks[t].id} else s.audit);
      RestKeeps(s, s1);
      EndKeeps(s1, t);
      KeepsTrans(s, s1, End(s1, t));
    }
  }

  lemma CheckKeeps(s: State, t: nat, ok: bool)
    ensures Keeps(s, Check(s, t, ok))
  {
    hide Keeps;
    RestKeeps(s, s);
    if At(s, t, Checking) {
      var q := s.tasks[t];
      var s1 := if Unmetered(q.command) then s else s.(env := s.env.(lease := Some(q.client)));
      var p := if q.id in s.seen then Refusing else if s.hasDb then Looking else Looked(false);
      PutKeeps(s, t, q.(point := Refusing, after := None));
      RestKeeps(s, s1);
      PutKeeps(s1, t, q.(point := p, after := None));
      KeepsTrans(s, s1, Move(s1, t, p));
    }
  }

  lemma ArriveKeeps(s: State, e: Event)
    requires Formed(s) && e.Arrives?
    ensures Keeps(s, Apply(s, e))
  {
    hide Keeps;
    var s1 := s.(next := s.next + 1, asked := s.asked[s.next := e.id]);
    RestKeeps(s, s1);
    PutKeeps(s1, s.next, Request(e.command, e.id, e.client, e.takeover, s.revision, Waiting, None));
    KeepsTrans(s, s1, Apply(s, e));
  }

  // ---- Steps that change the table ------------------------------------------------------------

  /** A validated start brings its owner; any other request only moves on. */
  lemma ValidateFollows(s: State, t: nat, ok: bool)
    requires Formed(s)
    ensures Follows(s, Validate(s, t, ok), false, false)
  {
    hide Keeps, Follows, PassTo;
    RestKeeps(s, s);
    KeepsFollows(s, s);
    if Ready(s, t) && s.tasks[t].Request? && s.tasks[t].point.Looked? {
      var q := s.tasks[t];
      PutKeeps(s, t, q.(point := Refusing, after := None));
      KeepsFollows(s, Move(s, t, Refusing));
      var s1 := Pass(s, q.id);
      RestKeeps(s, s1);
      PutKeeps(s1, t, q.(point := Refusing, after := None));
      KeepsTrans(s, s1, Move(s1, t, Refusing));
      KeepsFollows(s, Move(s1, t, Refusing));
      if q.command == TeleopStart ==> Prepare(s1, t).Some? { PassFollows(s, t); }
    }
  }

  lemma PassFollows(s: State, t: nat)
    requires Formed(s) && t in s.tasks && s.tasks[t].Request? && s.tasks[t].point.Looked?
    requires s.tasks[t].command == TeleopStart ==> Prepare(Pass(s, s.tasks[t].id), t).Some?
    ensures Follows(s, PassTo(s, t), false, false)
  {
    var s1 := Pass(s, s.tasks[t].id);
    if s.tasks[t].command == TeleopStart {
      hide Remember, Resolved;
      var r := PassTo(s, t);
      var w := Prepare(s1, t).value;
      assert r.heap[|s.heap|] == w && r.owner == Some(|s.heap|);
      assert StartAhead(r, w);
    } else {
      var session := s.env.binding.session;
      var p := if s.hasDb then Auditing(session) else Audited(session);
      hide Keeps, Follows;
      RestKeeps(s, s1);
      PutKeeps(s1, t, s.tasks[t].(point := p, after := None));
      KeepsTrans(s, s1, PassTo(s, t));
      KeepsFollows(s, PassTo(s, t));
    }
  }

  /** A command of the kind that is open under the id leaves the table. */
  lemma OwnFinishFollows(s: State, id: Id, origin: nat)
    requires Placed(s) && id in s.active && !IsTeleop(s.active[id].command)
    ensures Follows(s, Finish(s, id, s.active[id].command, origin), false, false)
  {}

  /** So does a manual command after its final answer. */
  lemma TerminalFollows(s: State, id: Id, origin: nat)
    requires Placed(s) && id in s.active && IsTeleop(s.active[id].command)
    ensures Follows(s, Finish(Terminal(s, id), id, s.active[id].command, origin), false, false)
  {
    TerminalOwned(s, id, origin);
    TerminalAgrees(s, id, origin);
    hide Owned, Agreeing, Finish, Terminal;
  }

  lemma TerminalAgrees(s: State, id: Id, origin: nat)
    requires Placed(s) && id in s.active && IsTeleop(s.active[id].command)
    ensures Agreeing(s) ==> Agreeing(Finish(Terminal(s, id), id, s.active[id].command, origin))
  {
    TerminalFrame(s, id);
    hide Terminal;
  }

  /** The owner's books hold but for what is said of this id. */
  ghost predicate OwnedBut(s: State, id: Id) {
    Placed(s) && (s.owner.Some? ==>
      var w := s.heap[s.owner.value];
      && (forall x :: x in w.stopIds && x != id ==> x in s.active && s.active[x].command == TeleopStop)
      && (w.startTerminal ==> w.stopIds != {})
      && (w.startTerminal || w.command == id || StartAhead(s, w)
          || (w.command in s.active && s.active[w.command].command == TeleopStart)))
  }

  lemma TerminalOwned(s: State, id: Id, origin: nat)
    requires Placed(s) && id in s.active && IsTeleop(s.active[id].command)
    ensures OwnedBut(s, id) ==> Owned(Finish(Terminal(s, id), id, s.active[id].command, origin))
  {
    TerminalFrame(s, id);
    var r := Terminal(s, id);
    if s.owner.Some? {
      var w := s.heap[s.owner.value];
      var v := Heard(w, id);
      assert r.heap == s.heap[s.owner.value := v] && r.owner == if Over(v) then None else s.owner;
      hide Terminal;
      assert id != w.command && StartAhead(s, w) ==> StartAhead(Finish(r, id, s.active[id].command, origin), v);
    }
  }

  /** Whatever is open under an id leaves the table in the name of an ordinary command. */
  lemma ClearFollows(s: State, id: Id, command: Command, origin: nat)
    requires Placed(s) && Ordinary(command)
    ensures var x := Slot(id, command);
            Follows(s, Finish(s, id, command, origin), Robs(s, x), Strands(s, x))
  {}

  /** What an audited request meets: no owner but its own, and, if it needs LiDAR, no barrier. */
  ghost predicate Meets(s: State, t: nat) {
    && Placed(s) && t in s.tasks && s.tasks[t].Request? && s.tasks[t].point.Audited?
    && s.tasks[t].command != SoftwareReset
    && (s.tasks[t].command == TeleopStart ==>
          && s.resetPending.None? && s.lidarPending.None?
          && (s.owner.Some? ==>
                s.heap[s.owner.value].request == t && s.heap[s.owner.value].command == s.tasks[t].id))
  }

  lemma LaunchFollows(s: State, t: nat, session: nat, stale: Option<nat>)
    requires Meets(s, t) && (s.tasks[t].command == TeleopStart ==> s.owner.Some?)
    ensures var x := Slot(s.tasks[t].id, s.tasks[t].command);
            Follows(s, Launch(s, t, session, stale), Robs(s, x), Strands(s, x))
  {
    LaunchOwned(s, t, session, stale);
    LaunchAgrees(s, t, session, stale);
    hide Owned, Agreeing, Launch, Robs, Strands;
  }

  lemma LaunchOwned(s: State, t: nat, session: nat, stale: Option<nat>)
    requires Meets(s, t) && (s.tasks[t].command == TeleopStart ==> s.owner.Some?)
    ensures Owned(s) ==>
              (Owned(Launch(s, t, session, stale)) <==> !Robs(s, Slot(s.tasks[t].id, s.tasks[t].command)))
  {
    var r := Launch(s, t, session, stale);
    LaunchBrings(s, t, session, stale);
    hide Launch;
    if s.owner.Some? {
      var w := s.heap[s.owner.value];
      assert w.request != t ==> (StartAhead(s, w) <==> StartAhead(r, w));
      assert w.request == t ==> !StartAhead(r, w);
    }
  }

  lemma LaunchBrings(s: State, t: nat, session: nat, stale: Option<nat>)
    requires t in s.tasks && s.tasks[t].Request?
    ensures var q, r := s.tasks[t], Launch(s, t, session, stale);
            && r.owner == s.owner && r.heap == s.heap
            && r.tasks == s.tasks[t := q.(point := Forwarding, after := None)]
            && r.active.Keys == s.active.Keys + {q.id} && r.active[q.id].command == q.command
            && r.active[q.id].request == t && (forall x :: x in s.active && x != q.id ==> r.active[x] == s.active[x])
            && r.resetPending == (if q.command == SoftwareReset then Some(q.id) else s.resetPending)
            && r.lidarPending == (if q.command == SetLidarPower then Some(q.id) else s.lidarPending)
  {}

  lemma LaunchAgrees(s: State, t: nat, session: nat, stale: Option<nat>)
    requires t in s.tasks && s.tasks[t].Request? && s.tasks[t].command != SoftwareReset
    ensures Agreeing(s) ==>
              (Agreeing(Launch(s, t, session, stale)) <==> !Strands(s, Slot(s.tasks[t].id, s.tasks[t].command)))
  {
    LaunchBrings(s, t, session, stale);
    hide Launch;
  }

  /** Changes that neither books nor barriers depend on. */
  lemma RestFollows(s: State, m: State, r: State, robbed: bool, stranded: bool)
    requires Placed(s) && Placed(m) && Follows(s, m, robbed, stranded)
    requires r.owner == m.owner && r.resetPending == m.resetPending && r.lidarPending == m.lidarPending
    requires r.heap == m.heap && r.active == m.active && r.tasks == m.tasks
    ensures Follows(s, r, robbed, stranded)
  {
    hide Keeps;
    RestKeeps(m, r);
    RestKeeps(r, m);
    KeepsBack(m, r);
    KeepsBack(r, m);
    hide Owned, Agreeing;
  }

  lemma DispatchFollows(s: State, t: nat, session: nat, stale: Option<nat>)
    requires Meets(s, t) && (s.tasks[t].command == TeleopStart ==> s.owner.Some?)
    ensures var x := Slot(s.tasks[t].id, s.tasks[t].command);
            Follows(s, Dispatch(s, t, session, stale), Robs(s, x), Strands(s, x))
  {
    LaunchFollows(s, t, session, stale);
    LaunchBrings(s, t, session, stale);
    var x := Slot(s.tasks[t].id, s.tasks[t].command);
    hide Robs, Strands, Follows, Launch;
    RestFollows(s, Launch(s, t, session, stale), Dispatch(s, t, session, stale), Robs(s, x), Strands(s, x));
  }

  /** Recording a stop that is open asks nothing new of the table. */
  lemma NoteFollows(s: State, m: State, id: Id, robbed: bool, stranded: bool)
    requires Placed(s) && m.owner == s.owner && m.heap == s.heap && Follows(s, m, robbed, stranded)
    requires id in m.active && m.active[id].command == TeleopStop
    ensures Follows(s, NoteStop(m, id), robbed, stranded)
  {
    NoteShape(m, id);
    var r := NoteStop(m, id);
    hide NoteStop;
    if s.owner.Some? {
      assert StartAhead(m, m.heap[m.owner.value]) <==> StartAhead(r, r.heap[r.owner.value]);
    }
  }

  lemma NoteShape(s: State, id: Id)
    requires Placed(s)
    ensures var r := NoteStop(s, id);
            && r == s.(heap := r.heap) && |r.heap| == |s.heap|
            && (s.owner.Some? ==>
                  var w, v := s.heap[s.owner.value], r.heap[s.owner.value];
                  && v.command == w.command && v.request == w.request && v.startTerminal == w.startTerminal
                  && v.stopIds == w.stopIds + {id})
  {}

  /** A start that was canceled before it was sent is closed as answered. */
  lemma CancelFollows(s: State, t: nat, session: nat, stale: Option<nat>)
    requires Meets(s, t) && s.tasks[t].command == TeleopStart
    ensures var m := Launch(s, t, session, stale);
            Follows(s, End(Finish(Terminal(m, s.tasks[t].id), s.tasks[t].id, TeleopStart, t), t), false, false)
  {
    var m, id := Launch(s, t, session, stale), s.tasks[t].id;
    LaunchBrings(s, t, session, stale);
    LaunchBut(s, t, session, stale);
    TerminalOwned(m, id, t);
    TerminalFrame(m, id);
    hide Launch, Terminal, OwnedBut;
    var r := Finish(Terminal(m, id), id, TeleopStart, t);
    assert Agreeing(r) && r.tasks == m.tasks && (Owned(s) ==> Owned(r));
    hide Finish, Agreeing, Owned;
    EndKeeps(r, t);
    KeepsBack(r, End(r, t));
  }

  lemma LaunchBut(s: State, t: nat, session: nat, stale: Option<nat>)
    requires Meets(s, t)
    requires s.owner.Some? && s.heap[s.owner.value].request == t ==> s.heap[s.owner.value].command == s.tasks[t].id
    ensures Owned(s) ==> OwnedBut(Launch(s, t, session, stale), s.tasks[t].id)
  {
    LaunchBrings(s, t, session, stale);
    hide Launch;
  }

  lemma MeetsFacts(s: State, t: nat)
    requires Formed(s) && Good(s) && t in s.tasks && s.tasks[t].Request? && s.tasks[t].point.Audited?
    requires s.tasks[t].command != SoftwareReset
    ensures Meets(s, t)
  {
    hide Good, Safe;
    MarkHere(s, |s.wire|);
    RequestFacts(Mark(s, |s.wire|), s, t);
  }

  lemma PublishFollows(s: State, t: nat, stale: Option<nat>)
    requires Formed(s) && Good(s)
    ensures var e := Publishes(t, stale);
            Follows(s, Publish(s, t, stale), OwnerClash(s, e), BarrierClash(s, e))
  {
    hide Good, Follows, Robs, Strands, Dispatch, Launch, Finish, Terminal, NoteStop;
    SelfFollows(s);
    if Ready(s, t) && s.tasks[t].Request? && s.tasks[t].point.Audited? {
      var session := s.tasks[t].point.session;
      if s.tasks[t].command == SoftwareReset {
        RetiringFollows(s, t, session);
      } else {
        MeetsFacts(s, t);
        OpenFollows(s, t, session, stale);
      }
    }
  }

  lemma SelfFollows(s: State)
    requires Placed(s)
    ensures Follows(s, s, false, false)
  {}

  lemma RetiringFollows(s: State, t: nat, session: nat)
    requires Placed(s) && t in s.tasks && s.tasks[t].Request?
    ensures Follows(s, Move(s.(owner := None), t, Retiring(session, s.active)), false, false)
  {}

  lemma OpenFollows(s: State, t: nat, session: nat, stale: Option<nat>)
    requires Meets(s, t)
    ensures var x := Slot(s.tasks[t].id, s.tasks[t].command);
            var sent := s.tasks[t].command == TeleopStart ==> StartStands(s, t);
            Follows(s, Open(s, t, session, stale), sent && Robs(s, x), sent && Strands(s, x))
  {
    hide Follows, Robs, Strands, Launch, Finish, Terminal, NoteStop;
    var x := Slot(s.tasks[t].id, s.tasks[t].command);
    if x.command == TeleopStart && !StartStands(s, t) {
      CancelFollows(s, t, session, stale);
    } else {
      DispatchFollows(s, t, session, stale);
      LaunchBrings(s, t, session, stale);
      if x.command == TeleopStop {
        NoteFollows(s, Dispatch(s, t, session, stale), x.id, Robs(s, x), Strands(s, x));
      }
    }
  }

  /** A reset retires what it found open and meets no owner. */
  lemma RetireFollows(s: State, t: nat, id: Id, stale: Option<nat>)
    requires Formed(s) && Good(s)
    ensures Follows(s, Retire(s, t, id, stale), false, false)
  {
    hide Good, Follows, Launch, Finish, Safe, Covers;
    SelfFollows(s);
    if Ready(s, t) && s.tasks[t].Request? && s.tasks[t].point.Retiring? {
      MarkHere(s, |s.wire|);
      RetiringFacts(Mark(s, |s.wire|), s, t);
      var p := s.tasks[t].point;
      if p.rest == map[] {
        ResetFollows(s, t, p.session, stale);
      } else if id in p.rest {
        RetireOneFollows(s, t, id);
      }
    }
  }

  lemma ResetFollows(s: State, t: nat, session: nat, stale: Option<nat>)
    requires t in s.tasks && s.tasks[t].Request? && s.tasks[t].command == SoftwareReset
    requires s.owner.None? && Covers(s, map[])
    ensures Follows(s, Dispatch(s, t, session, stale), false, false)
  {
    LaunchBrings(s, t, session, stale);
    var m := Launch(s, t, session, stale);
    hide Launch;
    assert Owned(m) && (Agreeing(s) ==> Agreeing(m));
    assert Agreeing(s) ==> Agreeing(Dispatch(s, t, session, stale));
  }

  lemma RetireOneFollows(s: State, t: nat, id: Id)
    requires t in s.tasks && s.tasks[t].Request? && s.tasks[t].point.Retiring? && id in s.tasks[t].point.rest
    requires s.owner.None? && Covers(s, s.tasks[t].point.rest)
    ensures var p := s.tasks[t].point;
            var e := p.rest[id];
            var s1 := s.(recovery := s.recovery || e.command == SetLidarPower);
            Follows(s, Move(Finish(s1, id, e.command, e.request), t, Retiring(p.session, p.rest - {id})), false, false)
  {
    var e := s.tasks[t].point.rest[id];
    var s1 := s.(recovery := s.recovery || e.command == SetLidarPower);
    var m := Finish(s1, id, e.command, e.request);
    assert m.owner == s.owner && m.tasks == s.tasks && (Agreeing(s) ==> Agreeing(m));
    hide Finish;
  }

  lemma SentFollows(s: State, t: nat, ok: bool)
    requires Formed(s)
    ensures Follows(s, Sent(s, t, ok), OwnerClash(s, Sends(t, ok)), BarrierClash(s, Sends(t, ok)))
  {
    hide Follows, Robs, Strands, Finish, MarkUncertain, RevokeNow, Keeps;
    SelfFollows(s);
    if At(s, t, Forwarding) {
      var q := s.tasks[t];
      if ok {
        PutKeeps(s, t, q.(point := Reporting, after := None));
        KeepsFollows(s, Sent(s, t, ok));
      } else if IsTeleop(q.command) {
        RevokeMoveKeeps(s, t, false, Doubting);
        KeepsFollows(s, Sent(s, t, ok));
      } else if q.command == SetLidarPower || q.command == SoftwareReset {
        MarkEndKeeps(s, t, q.id, q.command, t);
        KeepsFollows(s, Sent(s, t, ok));
      } else {
        CloseFollows(s, t);
      }
    }
  }

  lemma CloseFollows(s: State, t: nat)
    requires Placed(s) && t in s.tasks && s.tasks[t].Request? && s.tasks[t].point.Forwarding?
    requires Ordinary(s.tasks[t].command)
    ensures var x := Slot(s.tasks[t].id, s.tasks[t].command);
            Follows(s, End(Finish(s, x.id, x.command, t), t), Robs(s, x), Strands(s, x))
  {
    var x := Slot(s.tasks[t].id, s.tasks[t].command);
    ClearFollows(s, x.id, x.command, t);
    var m := Finish(s, x.id, x.command, t);
    assert m.tasks == s.tasks && Placed(m);
    hide Finish, Robs, Strands;
    EndFollows(s, m, t, Robs(s, x), Strands(s, x));
  }

  /** The end of a task that is no admitted start. */
  lemma EndFollows(s: State, m: State, t: nat, robbed: bool, stranded: bool)
    requires Placed(m) && Follows(s, m, robbed, stranded) && (t in m.tasks ==> !Starting(m.tasks[t]))
    ensures Follows(s, End(m, t), robbed, stranded)
  {
    var r := End(m, t);
    if m.owner.Some? {
      assert StartAhead(m, m.heap[m.owner.value]) <==> StartAhead(r, m.heap[m.owner.value]);
    }
  }

  lemma AckFollows(s: State, id: Id, from: nat, ok: bool)
    requires Formed(s)
    ensures Follows(s, Acknowledge(s, id, from, ok), false, false)
  {
    hide Follows, Keeps, Finish, Terminal, RevokeNow;
    SelfFollows(s);
    if Answers(s, id, from) {
      var e := s.active[id];
      var s1 := s.(active := s.active[id := e.(acked := true)]);
      FlagKeeps(s, id, e.(acked := true));
      if ok {
        KeepsFollows(s, s1);
        RevokeKeeps(s1, true, false);
        KeepsTrans(s, s1, RevokeNow(s1, true, false));
        KeepsFollows(s, RevokeNow(s1, true, false));
        if s.owner.Some? {
          var o := s.owner.value;
          HeapKeeps(s1, o, s.heap[o].(phase := Active));
          KeepsTrans(s, s1, s1.(heap := s.heap[o := s.heap[o].(phase := Active)]));
          KeepsFollows(s, s1.(heap := s.heap[o := s.heap[o].(phase := Active)]));
        }
      } else {
        AnswerFollows(s1, id, e.request);
        KeepsFollowing(s, s1, Acknowledge(s, id, from, ok));
      }
    }
  }

  lemma KeepsFollowing(s: State, m: State, r: State)
    requires Placed(s) && Placed(m) && Keeps(s, m) && Follows(m, r, false, false)
    ensures Follows(s, r, false, false)
  {
    KeepsBack(s, m);
    hide Keeps, Owned, Agreeing;
  }

  /** A final answer to whatever is open under the id. */
  lemma AnswerFollows(s: State, id: Id, origin: nat)
    requires Placed(s) && id in s.active
    ensures var c := s.active[id].command;
            Follows(s, Finish(if IsTeleop(c) then Terminal(s, id) else s, id, c, origin), false, false)
  {
    hide Follows, Finish, Terminal;
    if IsTeleop(s.active[id].command) { TerminalFollows(s, id, origin); } else { OwnFinishFollows(s, id, origin); }
  }

  lemma ResultFollows(s: State, id: Id, from: nat, outcome: Outcome)
    requires Formed(s)
    ensures Follows(s, Conclusion(s, id, from, outcome), false, false)
  {
    hide Follows, Keeps, Finish, Terminal, RevokeThenDoubt, MarkUncertain;
    SelfFollows(s);
    if Answers(s, id, from) {
      var e := s.active[id];
      var s1 := if e.command == SetLidarPower then s.(recovery := outcome != Succeeded) else s;
      RestKeeps(s, s1);
      AnswerFollows(s, id, e.request);
      AnswerFollows(s1, id, e.request);
      KeepsFollowing(s, s1, Finish(if IsTeleop(e.command) then Terminal(s1, id) else s1, id, e.command, e.request));
      DoubtKeeps(s, id, e, false);
      KeepsFollows(s, RevokeThenDoubt(s, id, e, false));
      MarkKeeps(s, id, e.command, e.request);
      KeepsFollows(s, MarkUncertain(s, id, e.command, e.request));
    }
  }

  lemma ExpireFollows(s: State, id: Id, forAck: bool)
    requires Formed(s)
    ensures Follows(s, Expire(s, id, forAck), false, false)
  {
    hide Follows, Keeps, Finish, RevokeThenDoubt, MarkUncertain;
    SelfFollows(s);
    if id in s.active {
      var e := s.active[id];
      if !IsTeleop(e.command) { OwnFinishFollows(s, id, e.request); }
      DoubtKeeps(s, id, e, true);
      KeepsFollows(s, RevokeThenDoubt(s, id, e, true));
      MarkKeeps(s, id, e.command, e.request);
      KeepsFollows(s, MarkUncertain(s, id, e.command, e.request));
    }
  }

  lemma LingerFollows(s: State, origin: nat)
    requires Formed(s)
    ensures Follows(s, Linger(s, origin), OwnerClash(s, Lingers(origin)), BarrierClash(s, Lingers(origin)))
  {
    hide Follows, Keeps, Finish, RevokeThenDoubt, Robs, Strands;
    SelfFollows(s);
    if Stray(s, origin) {
      var id, c := s.timers[origin].id, s.timers[origin].command;
      if IsTeleop(c) {
        var entry := Entry(c, origin, false, false, 0, None);
        DoubtKeeps(s, id, entry, true);
        KeepsFollows(s, RevokeThenDoubt(s, id, entry, true));
      } else if Ordinary(c) {
        ClearFollows(s, id, c, origin);
      }
    }
  }

  /** Steps that leave the open table alone. */
  predicate LeavesTable(e: Event) {
    && !e.Validates? && !e.Publishes? && !e.Retires? && !e.Sends?
    && !e.Acks? && !e.Results? && !e.Expires? && !e.Lingers?
  }

  lemma QuietKeeps(s: State, e: Event)
    requires Formed(s) && LeavesTable(e)
    ensures Keeps(s, Apply(s, e))
  {
    hide Keeps, Refuse, Check, LookUp, Record, RevokeNow, Admit, Conclude, DoubtNow, Steer, StartWrite, EndWrite;
    hide GiveUp, Decide, Abort;
    match e
    case Changed(env) => RestKeeps(s, s.(env := env));
    case Arrives(_, _, _, _) => ArriveKeeps(s, e);
    case Admits(t, ok) => AdmitKeeps(s, t, ok);
    case Refuses(t) => ScreenKeeps(s, t, true);
    case Checks(t, ok) => ScreenKeeps(s, t, ok);
    case LooksUp(t) => ScreenKeeps(s, t, true);
    case Records(t) => ScreenKeeps(s, t, true);
    case Concludes(t) => ConcludeKeeps(s, t);
    case Doubts(t) => ConcludeKeeps(s, t);
    case Revokes => RevokeKeeps(s, true, false);
    case Steers(client, frame, trusted, timely, paced) => SteerKeeps(s, client, frame, trusted, timely, paced);
    case StartsWrite(t) => StartWriteKeeps(s, t);
    case EndsWrite(t, ok) => EndWriteKeeps(s, t, ok);
    case GivesUp(t) => EndWriteKeeps(s, t, true);
    case Decides(t, id) => DecideKeeps(s, t, id);
    case Aborts(t) => AbortKeeps(s, t);
  }

  lemma StepFollows(s: State, e: Event)
    requires Formed(s) && Good(s)
    ensures Follows(s, Apply(s, e), OwnerClash(s, e), BarrierClash(s, e))
  {
    if LeavesTable(e) {
      hide Good, Apply, Keeps, Follows;
      QuietKeeps(s, e);
      KeepsFollows(s, Apply(s, e));
    } else {
      LoudFollows(s, e);
    }
  }

  lemma LoudFollows(s: State, e: Event)
    requires Formed(s) && Good(s) && !LeavesTable(e)
    ensures Follows(s, Apply(s, e), OwnerClash(s, e), BarrierClash(s, e))
  {
    hide Good, Follows, Robs, Strands, Publish, Retire, Sent, Acknowledge, Conclusion, Expire, Linger, Validate;
    match e
    case Validates(t, ok) => ValidateFollows(s, t, ok);
    case Publishes(t, stale) => PublishFollows(s, t, stale);
    case Retires(t, id, stale) => RetireFollows(s, t, id, stale);
    case Sends(t, ok) => SentFollows(s, t, ok);
    case Acks(id, from, ok) => AckFollows(s, id, from, ok);
    case Results(id, from, outcome) => ResultFollows(s, id, from, outcome);
    case Expires(id, forAck) => ExpireFollows(s, id, forAck);
    case Lingers(origin) => LingerFollows(s, origin);
  }
}
