/**
 Every step of the manual-drive protocol keeps its invariants: first single
 changes of the state, then the pieces the coroutines share, then every event.
 */
module ManualSafety {
  import opened Options
  import opened TuningPolicy
  import opened ManualDrive
  import opened ManualInvariant
  import opened ManualBooks

  ghost predicate Safe(m: Mark, s: State) {
    Sound(s) && Past(m, s) && Books(s) && Accounted(s)
  }

  // ---- Single changes ---------------------------------------------------------------

  lemma UpdateOwnerSafe(m: Mark, s: State, o: nat, v: Owner)
    requires Safe(m, s) && o < |s.heap| && Ages(s.heap[o], v) && SameBook(s.heap[o], v)
    requires v.sendLock == s.heap[o].sendLock
    ensures Safe(m, s.(heap := s.heap[o := v]))
  {
    hide Past, Books, Accounted;
    UpdateOwnerSound(s, o, v);
    UpdateOwnerPast(m, s, o, v);
    OwnerBooks(s, o, v);
    FrameAccounted(s, s.(heap := s.heap[o := v]));
  }

  lemma BumpSafe(m: Mark, s: State, n: nat)
    requires Safe(m, s) && n >= s.next
    requires s.owner.Some? ==> !Live(s.heap[s.owner.value].phase)
    ensures Safe(m, s.(revision := s.revision + 1, next := n))
  {
    hide Past, Books, Accounted;
    var r := s.(revision := s.revision + 1, next := n);
    BumpSound(s, n);
    TasksPast(m, s, r);
    RestBooks(s, r);
    FrameAccounted(s, r);
  }

  lemma SettleSafe(m: Mark, s: State, v: Owner, n: nat)
    requires Safe(m, s) && n >= s.next && s.owner.Some?
    requires var w := s.heap[s.owner.value]; Ages(w, v) && SameBook(w, v) && !Live(v.phase) && v.sendLock == w.sendLock
    ensures Safe(m, s.(heap := s.heap[s.owner.value := v], revision := s.revision + 1, next := n))
  {
    hide Past, Books, Accounted;
    var s1 := s.(heap := s.heap[s.owner.value := v]);
    var r := s1.(revision := s.revision + 1, next := n);
    SettleSound(s, v, n);
    UpdateOwnerPast(m, s, s.owner.value, v);
    TasksPast(m, s1, r);
    OwnerBooks(s, s.owner.value, v);
    RestBooks(s1, r);
    FrameAccounted(s, r);
  }

  lemma PutAtRestSafe(m: Mark, s: State, t: nat, task: Task)
    requires Safe(m, s) && t < s.next && AtRest(s, task) && Free(s, t) && !task.Request?
    requires MayPut(s, t, task)
    ensures Safe(m, Put(s, t, task))
  {
    hide Past, Books, Accounted;
    PutAtRestSound(s, t, task);
    TasksPast(m, s, Put(s, t, task));
    PutBooks(s, t, task);
    PutAccounted(s, Put(s, t, task), t, task);
  }

  /** A task number not in use holds no send lock. */
  lemma PutFreshSafe(m: Mark, s: State, t: nat, task: Task)
    requires Safe(m, s) && t < s.next && t !in s.tasks && t !in s.asked && AtRest(s, task) && !task.Request?
    ensures Safe(m, Put(s, t, task))
  {
    hide Past, Books, Accounted;
    PutAtRestSafe(m, s, t, task);
  }

  /** A new request. */
  lemma AskSafe(m: Mark, s: State, t: nat, q: Task)
    requires Safe(m, s) && t < s.next && t !in s.asked && Free(s, t)
    requires q.Request? && q.point.Waiting? && q.arrival <= s.revision
    requires q.command == TeleopStart ==> m.base.next <= t
    ensures Safe(m, Put(s.(asked := s.asked[t := q.id]), t, q))
  {
    hide Past, Books, Accounted;
    var s1 := s.(asked := s.asked[t := q.id]);
    RestSound(s, s1);
    PutAtRestSound(s1, t, q);
    TasksPast(m, s, Put(s1, t, q));
    AskBooks(s, t, q);
    AskAccounted(s, Put(s1, t, q), t, q);
  }

  /** The next task number was never a request. */
  lemma NextIsNew(m: Mark, s: State)
    requires Safe(m, s)
    ensures s.next !in s.asked && s.next !in s.tasks
  {
    hide Past, Barred, Answered, Accounted;
  }

  lemma EndSafe(m: Mark, s: State, t: nat)
    requires Safe(m, s) && Free(s, t)
    ensures Safe(m, End(s, t))
  {
    hide Past, Books, Accounted;
    EndSound(s, t);
    TasksPast(m, s, End(s, t));
    EndBooks(s, t);
    EndAccounted(s, End(s, t), t);
  }

  lemma MoveSafe(m: Mark, s: State, t: nat, point: Point, after: Option<nat>)
    requires Safe(m, s) && t in s.tasks && s.tasks[t].Request?
    requires !Bypasses(s.tasks[t].command) && !point.Waiting? ==> s.lock == Some(t)
    requires MayStand(s, s.tasks[t], t, point)
    requires var q := s.tasks[t].(point := point, after := after); MayPut(s, t, q) && Cleared(s, q)
    ensures Safe(m, Put(s, t, s.tasks[t].(point := point, after := after)))
  {
    hide Past, Books, Accounted;
    var q := s.tasks[t].(point := point, after := after);
    PutRequestSound(s, t, q);
    TasksPast(m, s, Put(s, t, q));
    PutBooks(s, t, q);
    PutAccounted(s, Put(s, t, q), t, q);
  }

  lemma LockSafe(m: Mark, s: State, t: nat)
    requires Safe(m, s) && s.lock.None?
    ensures Safe(m, s.(lock := Some(t)))
  {
    hide Past, Books, Accounted;
    var r := s.(lock := Some(t));
    LockSound(s, t);
    TasksPast(m, s, r);
    RestBooks(s, r);
    FrameAccounted(s, r);
  }

  lemma FlagSafe(m: Mark, s: State, id: Id, e: Entry)
    requires Safe(m, s) && id in s.active && e.command == s.active[id].command && e.request == s.active[id].request
    ensures Safe(m, s.(active := s.active[id := e]))
  {
    hide Past, Books, Accounted;
    var r := s.(active := s.active[id := e]);
    ActiveSound(s, r.active);
    TasksPast(m, s, r);
    FlagBooks(s, id, e);
    FrameAccounted(s, r);
  }

  /** The invariants do not depend on the remaining fields. */
  lemma RestSafe(m: Mark, s: State, r: State)
    requires Safe(m, s)
    requires r.tasks == s.tasks && r.next == s.next && r.lock == s.lock && r.revision == s.revision
    requires r.owner == s.owner && r.heap == s.heap && r.active == s.active && r.wire == s.wire
    requires r.resetPending == s.resetPending && r.lidarPending == s.lidarPending && r.recovery == s.recovery
    requires r.timers == s.timers && r.answered == s.answered && r.asked == s.asked
    requires Continues(s, r)
    ensures Safe(m, r)
  {
    hide Past, Books;
    RestSound(s, r);
    TasksPast(m, s, r);
    RestBooks(s, r);
    FrameAccounted(s, r);
  }

  lemma RecoverySafe(m: Mark, s: State, b: bool)
    requires Safe(m, s) && (b ==> NoneNeedsLidar(s))
    ensures Safe(m, s.(recovery := b))
  {
    hide Past, Books, Accounted;
    var r := s.(recovery := b);
    RestSound(s, r);
    TasksPast(m, s, r);
    RecoveryBooks(s, b);
    FrameAccounted(s, r);
  }

  lemma NoteStopSafe(m: Mark, s: State, id: Id)
    requires Placed(s) && Safe(m, s)
    ensures Safe(m, NoteStop(s, id))
  {
    hide Sound, Past, Books, Accounted;
    if s.owner.Some? {
      var w := s.heap[s.owner.value];
      var v := w.(stopIds := w.stopIds + {id}, stopIssued := true, attached := w.attached + {id});
      assert NoteStop(s, id) == s.(heap := s.heap[s.owner.value := v]);
      hide NoteStop;
      NoteStopBooks(s, id);
      NoteStopAges(s, v);
      UpdateOwnerSound(s, s.owner.value, v);
      UpdateOwnerPast(m, s, s.owner.value, v);
      FrameAccounted(s, s.(heap := s.heap[s.owner.value := v]));
    }
  }

  lemma NoteStopAges(s: State, v: Owner)
    requires Placed(s) && Sound(s) && s.owner.Some?
    requires var w := s.heap[s.owner.value];
             && v == w.(stopIds := v.stopIds, stopIssued := v.stopIssued, attached := v.attached)
             && w.attached <= v.attached
    ensures Ages(s.heap[s.owner.value], v)
  {
    hide Admitting, Exclusive, Sendings, Wired, Locking;
  }

  lemma FinishSafe(m: Mark, s: State, id: Id, command: Command, origin: nat)
    requires Safe(m, s) && Owns(s, id, command)
    ensures Safe(m, Finish(s, id, command, origin))
  {
    hide Past, Books, Accounted;
    if id in s.active {
      ActiveSound(s, s.active - {id});
      RestSound(s.(active := s.active - {id}), Finish(s, id, command, origin));
      TasksPast(m, s, Finish(s, id, command, origin));
      FinishBooks(s, id, command, origin);
      FrameAccounted(s, Finish(s, id, command, origin));
    }
  }

  lemma TerminalSound(s: State, id: Id)
    requires Sound(s)
    ensures Sound(Terminal(s, id))
  {
    SoundIsFormed(s);
    if s.owner.Some? {
      HeardAges(s, id);
      var v := Heard(s.heap[s.owner.value], id);
      hide Sound, Heard, HearAs;
      HearSound(s, id, v);
    } else {
      hide Sound;
      RestSound(s, Terminal(s, id));
    }
  }

  /** What a final answer may turn the current owner into. */
  ghost predicate Hears(s: State, id: Id, v: Owner) {
    && Formed(s) && s.owner.Some?
    && var w := s.heap[s.owner.value];
    && Ages(w, v) && v.sendLock == w.sendLock && (v.startTerminal || id == w.command ==> !Live(v.phase))
  }

  lemma HearSound(s: State, id: Id, v: Owner)
    requires Sound(s) && Hears(s, id, v)
    ensures Sound(HearAs(s, id, v))
  {
    if id == v.command { HearOwnSound(s, id, v); } else { HearStopSound(s, id, v); }
  }

  lemma HearOwnSound(s: State, id: Id, v: Owner)
    requires Sound(s) && Hears(s, id, v) && id == v.command
    ensures Sound(HearAs(s, id, v))
  {
    assert !Live(v.phase);
    hide Sound, Ages;
    SettleSound(s, v, s.next);
    DropTail(s.(heap := s.heap[s.owner.value := v], revision := s.revision + 1, next := s.next), HearAs(s, id, v));
  }

  lemma HearStopSound(s: State, id: Id, v: Owner)
    requires Sound(s) && Hears(s, id, v) && id != v.command
    ensures Sound(HearAs(s, id, v))
  {
    hide Sound, Ages;
    UpdateOwnerSound(s, s.owner.value, v);
    DropTail(s.(heap := s.heap[s.owner.value := v]), HearAs(s, id, v));
  }

  lemma HeardAges(s: State, id: Id)
    requires Sound(s) && s.owner.Some?
    ensures Hears(s, id, Heard(s.heap[s.owner.value], id))
  {
    hide Locking, Admitting, Exclusive, Sendings, Wired;
  }

  lemma DropTail(s: State, r: State)
    requires Sound(s) && (r.owner == s.owner || r.owner.None?)
    requires r.owner != s.owner ==> !Live(s.heap[s.owner.value].phase)
    requires r.tasks == s.tasks && r.next == s.next && r.lock == s.lock && r.revision == s.revision
    requires r.heap == s.heap && r.active == s.active && r.wire == s.wire
    ensures Sound(r)
  {
    hide Sound;
    if r.owner != s.owner { DropOwnerSound(s); RestSound(s.(owner := None), r); } else { RestSound(s, r); }
  }

  lemma TerminalPast(m: Mark, s: State, id: Id)
    requires Past(m, s) && Placed(s)
    ensures Past(m, Terminal(s, id))
  {
    if s.owner.Some? {
      var o := s.owner.value;
      UpdateOwnerPast(m, s, o, Terminal(s, id).heap[o]);
      TasksPast(m, s.(heap := Terminal(s, id).heap), Terminal(s, id));
    }
  }

  lemma TerminalSafe(m: Mark, s: State, id: Id)
    requires Placed(s) && Safe(m, s)
    ensures Safe(m, Terminal(s, id))
  {
    hide Sound, Past, Books, Accounted;
    TerminalSound(s, id);
    TerminalPast(m, s, id);
    TerminalBooks(s, id);
    TerminalContinues(s, id);
    hide Terminal;
    FrameAccounted(s, Terminal(s, id));
  }

  lemma TerminalContinues(s: State, id: Id)
    requires Placed(s)
    ensures var r := Terminal(s, id); Continues(s, r) && r.tasks == s.tasks && r.asked == s.asked
  {}

  /** After its terminal, a command may leave the table. */
  lemma TerminalFinishSafe(m: Mark, s: State, id: Id)
    requires Placed(s) && Safe(m, s) && id in s.active
    ensures Safe(m, Finish(Terminal(s, id), id, s.active[id].command, s.active[id].request))
  {
    hide Safe;
    TerminalSafe(m, s, id);
    TerminalFrame(s, id);
    hide Terminal;
    OpenOwnsSafe(m, s, id);
    FinishSafe(m, Terminal(s, id), id, s.active[id].command, s.active[id].request);
  }

  /** Any command may leave the table by its own end. */
  lemma OpenFinishSafe(m: Mark, s: State, id: Id)
    requires Placed(s) && Safe(m, s) && id in s.active
    ensures Safe(m, Finish(s, id, s.active[id].command, s.active[id].request))
  {
    hide Safe;
    OpenOwnsSafe(m, s, id);
    FinishSafe(m, s, id, s.active[id].command, s.active[id].request);
  }

  lemma OpenOwnsSafe(m: Mark, s: State, id: Id)
    requires Safe(m, s) && id in s.active
    ensures Owns(s, id, s.active[id].command)
  {
    hide Sound, Past, Books, Accounted;
    OpenOwns(s, id);
  }

  // ---- Revoke and doubt ---------------------------------------------------------------

  lemma SettledSafe(m: Mark, s: State)
    requires Formed(s) && Safe(m, s)
    ensures Safe(m, Settle(s)) && (s.owner.Some? ==> s.owner.value < |Settle(s).heap|)
  {
    hide Safe;
    if s.owner.None? {
      BumpSafe(m, s, s.next + 1);
    } else {
      var w := s.heap[s.owner.value];
      SettleSafe(m, s, w.(phase := if w.phase == Unknown then Unknown else Closing), s.next + 1);
    }
  }

  lemma SettledTasks(s: State)
    requires Placed(s)
    ensures var r := Settle(s);
            && r.tasks == s.tasks && r.asked == s.asked && r.next == s.next + 1
            && (s.owner.Some? ==> s.owner.value < |r.heap| && !Live(r.heap[s.owner.value].phase))
  {}

  lemma RevokeNowSafe(m: Mark, s: State, issueStop: bool, zeroSent: bool)
    requires Formed(s) && Safe(m, s)
    ensures Safe(m, RevokeNow(s, issueStop, zeroSent))
  {
    hide Safe;
    SettledSafe(m, s);
    SettledTasks(s);
    hide Settle;
    if s.owner.Some? {
      var w := s.heap[s.owner.value];
      NextIsNew(m, s);
      PutFreshSafe(m, Settle(s), s.next,
                   Revoke(s.owner.value, w.serial + 1, issueStop,
                          if Live(w.phase) && !zeroSent then Queued else Deciding));
    }
  }

  /** After a revoke the current owner, if any, is no longer live. */
  lemma RevokedIsSettled(s: State, issueStop: bool, zeroSent: bool)
    requires Formed(s)
    ensures var r := RevokeNow(s, issueStop, zeroSent);
            && r.owner == s.owner && r.revision == s.revision + 1 && r.active == s.active && r.lock == s.lock
            && r.next == s.next + 1 && Formed(r)
            && r.lidarPending == s.lidarPending && r.resetPending == s.resetPending && r.recovery == s.recovery
            && r.forwarded == s.forwarded && r.audit == s.audit && r.asked == s.asked
            && (r.owner.Some? ==> !Live(r.heap[r.owner.value].phase))
            && (r.owner.Some? ==>
                  && r.heap[r.owner.value].request == s.heap[r.owner.value].request
                  && r.heap[r.owner.value].command == s.heap[r.owner.value].command)
            && (forall t :: t in s.tasks ==> t in r.tasks && r.tasks[t] == s.tasks[t])
  {}

  lemma MarkUncertainSafe(m: Mark, s: State, id: Id, command: Command, origin: nat)
    requires Formed(s) && Safe(m, s)
    ensures Safe(m, MarkUncertain(s, id, command, origin))
  {
    hide Safe;
    if id in s.active {
      var e := s.active[id];
      var e1 := if e.request == origin then e.(uncertain := true) else e;
      FlagSafe(m, s, id, e1);
      if IsTeleop(command) && s.owner.Some? {
        var s1 := s.(active := s.active[id := e1]);
        UpdateOwnerSafe(m, s1, s.owner.value, s.heap[s.owner.value].(phase := Unknown));
      }
    }
  }

  // ---- Requests ------------------------------------------------------------------

  /** What the invariant says of one request. */
  lemma RequestFacts(m: Mark, s: State, t: nat)
    requires Safe(m, s) && t in s.tasks && s.tasks[t].Request?
    ensures Locked(s.tasks[t]) ==> s.lock == Some(t)
    ensures MayStand(s, s.tasks[t], t, s.tasks[t].point)
    ensures s.tasks[t].arrival <= s.revision && Locking(s)
    ensures Free(s, t)
    ensures (s.hasDb ==> Cleared(s, s.tasks[t])) && Waits(s, s.tasks[t])
  {
    hide Past, Keyed, Answered, Raised;
  }

  lemma RevokeMoveSafe(m: Mark, s: State, t: nat, issueStop: bool, point: Point)
    requires Formed(s) && Safe(m, s) && t in s.tasks && s.tasks[t].Request?
    requires !Bypasses(s.tasks[t].command) && !point.Waiting? ==> s.lock == Some(t)
    requires
      || Bypasses(s.tasks[t].command) || !Inside(point) || (s.tasks[t].command == SoftwareReset && Screening(point))
      || s.owner.None?
      || (point.Doubting? && s.tasks[t].command == TeleopStart && s.heap[s.owner.value].request == t
              && s.heap[s.owner.value].command == s.tasks[t].id)
    requires MayPut(s, t, s.tasks[t].(point := point, after := Some(s.next))) && !Unpublished(point) && !point.Looked?
    ensures Safe(m, MoveAfter(RevokeNow(s, issueStop, false), t, point, s.next))
  {
    hide Safe;
    RevokeNowSafe(m, s, issueStop, false);
    RevokedIsSettled(s, issueStop, false);
    hide RevokeNow;
    MoveSafe(m, RevokeNow(s, issueStop, false), t, point, Some(s.next));
  }

  lemma AdmitSafe(m: Mark, s: State, t: nat, allowed: bool)
    requires Formed(s) && Safe(m, s)
    ensures Safe(m, Admit(s, t, allowed))
  {
    hide Safe;
    if At(s, t, Waiting) && (Bypasses(s.tasks[t].command) || s.lock.None?) {
      var s1 := if Bypasses(s.tasks[t].command) then s else s.(lock := Some(t));
      if !Bypasses(s.tasks[t].command) { LockSafe(m, s, t); }
      var v := Judge(s, s.tasks[t], allowed);
      var p := if v.refused then Refusing else Checking;
      if v.revoke.None? { MoveSafe(m, s1, t, p, None); } else { RevokeMoveSafe(m, s1, t, v.revoke.value, p); }
    }
  }

  lemma RefuseSafe(m: Mark, s: State, t: nat)
    requires Formed(s) && Safe(m, s)
    ensures Safe(m, Refuse(s, t))
  {
    hide Safe;
    if At(s, t, Refusing) {
      var s1 := s.(audit := if s.hasDb then s.audit + {s.tasks[t].id} else s.audit);
      RequestFacts(m, s, t);
      RestSafe(m, s, s1);
      EndSafe(m, s1, t);
    }
  }

  lemma CheckSafe(m: Mark, s: State, t: nat, passes: bool)
    requires Formed(s) && Safe(m, s)
    ensures Safe(m, Check(s, t, passes))
  {
    hide Safe;
    if At(s, t, Checking) {
      var q := s.tasks[t];
      RequestFacts(m, s, t);
      var s1 := if Unmetered(q.command) then s else s.(env := s.env.(lease := Some(q.client)));
      RestSafe(m, s, s1);
      if !Unmetered(q.command) && !passes { MoveSafe(m, s, t, Refusing, None); }
      else if q.id in s.seen { MoveSafe(m, s1, t, Refusing, None); }
      else if s.hasDb { MoveSafe(m, s1, t, Looking, None); }
      else { NoDbMoveSafe(m, s1, t, Looked(false)); }
    }
  }

  /** Without a database nothing is promised about forwarded ids. */
  lemma NoDbMoveSafe(m: Mark, s: State, t: nat, point: Point)
    requires Safe(m, s) && t in s.tasks && s.tasks[t].Request? && !s.hasDb
    requires !Bypasses(s.tasks[t].command) && !point.Waiting? ==> s.lock == Some(t)
    requires MayStand(s, s.tasks[t], t, point)
    requires MayPut(s, t, s.tasks[t].(point := point, after := None))
    ensures Safe(m, Move(s, t, point))
  {
    hide Past, Books, Accounted;
    var q := s.tasks[t].(point := point, after := None);
    PutRequestSound(s, t, q);
    TasksPast(m, s, Put(s, t, q));
    PutBooks(s, t, q);
    PutAccounted(s, Put(s, t, q), t, q);
  }

  lemma LookUpSafe(m: Mark, s: State, t: nat)
    requires Formed(s) && Safe(m, s)
    ensures Safe(m, LookUp(s, t))
  {
    hide Safe;
    if At(s, t, Looking) {
      RequestFacts(m, s, t);
      LookClears(m, s, t);
      if s.hasDb { MoveSafe(m, s, t, Looked(s.tasks[t].id in s.audit), None); }
      else { NoDbMoveSafe(m, s, t, Looked(s.tasks[t].id in s.audit)); }
    }
  }

  /** An id the audit table does not hold was never forwarded. */
  lemma LookClears(m: Mark, s: State, t: nat)
    requires Safe(m, s) && t in s.tasks && s.tasks[t].Request?
    ensures s.hasDb && s.tasks[t].id !in s.audit ==>
              NotSent(s.forwarded, s.tasks[t].id) && s.tasks[t].id !in s.former
  {
    hide Sound, Past, Books;
  }

  lemma ValidateSafe(m: Mark, s: State, t: nat, passes: bool)
    requires Formed(s) && Safe(m, s)
    ensures Safe(m, Validate(s, t, passes))
  {
    hide Safe, PassTo, Remember, Resolved;
    if Ready(s, t) && s.tasks[t].Request? && s.tasks[t].point.Looked? {
      var q := s.tasks[t];
      RequestFacts(m, s, t);
      if q.point.recorded {
        MoveSafe(m, s, t, Refusing, None);
      } else {
        PassRefusedSafe(m, s, t);
        if !(s.recovery && NeedsLidar(q.command))
           && (q.command == TeleopStart ==> q.arrival == s.revision && Prepare(Pass(s, q.id), t).Some?) {
          PassToSafe(m, s, t);
        }
      }
    }
  }

  lemma PassRefusedSafe(m: Mark, s: State, t: nat)
    requires Formed(s) && Safe(m, s) && t in s.tasks && s.tasks[t].Request? && s.tasks[t].point.Looked?
    ensures Safe(m, Move(Pass(s, s.tasks[t].id), t, Refusing))
  {
    hide Safe, Remember;
    RequestFacts(m, s, t);
    RestSafe(m, s, Pass(s, s.tasks[t].id));
    MoveSafe(m, Pass(s, s.tasks[t].id), t, Refusing, None);
  }

  lemma PassToSafe(m: Mark, s: State, t: nat)
    requires Formed(s) && Safe(m, s) && t in s.tasks && s.tasks[t].Request? && s.tasks[t].point == Looked(false)
    requires s.recovery ==> !NeedsLidar(s.tasks[t].command)
    requires s.tasks[t].command == TeleopStart ==>
               s.tasks[t].arrival == s.revision && Prepare(Pass(s, s.tasks[t].id), t).Some?
    ensures Safe(m, PassTo(s, t))
  {
    hide Safe;
    var q := s.tasks[t];
    RequestFacts(m, s, t);
    var next := if s.hasDb then Auditing(s.env.binding.session) else Audited(s.env.binding.session);
    if q.command == TeleopStart {
      PassOwnSafe(m, s, t, next);
    } else {
      PassMoveSafe(m, s, t, next);
    }
  }

  lemma PassMoveSafe(m: Mark, s: State, t: nat, next: Point)
    requires Safe(m, s) && t in s.tasks && s.tasks[t].Request? && s.tasks[t].point == Looked(false)
    requires MayStand(s, s.tasks[t], t, Checking) && (!Bypasses(s.tasks[t].command) ==> s.lock == Some(t))
    requires (s.hasDb ==> Cleared(s, s.tasks[t])) && Waits(s, s.tasks[t])
    requires next.Auditing? || (next.Audited? && !s.hasDb)
    requires s.recovery ==> !NeedsLidar(s.tasks[t].command)
    requires s.tasks[t].command != TeleopStart
    ensures Safe(m, Move(Pass(s, s.tasks[t].id), t, next))
  {
    hide Sound, Past, Books, Accounted;
    var s1 := Pass(s, s.tasks[t].id);
    var q := s.tasks[t].(point := next, after := None);
    RestSound(s, s1);
    PutRequestSound(s1, t, q);
    TasksPast(m, s, Move(s1, t, next));
    RestBooks(s, s1);
    PutBooks(s1, t, q);
    PutAccounted(s, Move(s1, t, next), t, q);
  }

  lemma SoundIsFormed(s: State)
    requires Sound(s)
    ensures Formed(s)
  {}

  lemma PassOwnSafe(m: Mark, s: State, t: nat, next: Point)
    requires Formed(s) && Safe(m, s) && t in s.tasks && IsStart(s.tasks[t]) && s.tasks[t].point == Looked(false)
    requires s.lock == Some(t) && (s.hasDb ==> Cleared(s, s.tasks[t])) && Waits(s, s.tasks[t])
    requires next.Auditing? || (next.Audited? && !s.hasDb)
    requires !s.recovery && s.tasks[t].arrival == s.revision && Prepare(Pass(s, s.tasks[t].id), t).Some?
    ensures var s1 := Pass(s, s.tasks[t].id);
            Safe(m, Move(s1.(heap := s.heap + [Prepare(s1, t).value], owner := Some(|s.heap|)), t, next))
  {
    hide Sound, Past, Books, Accounted;
    var s1 := Pass(s, s.tasks[t].id);
    var w := Prepare(s1, t).value;
    var r := Move(s1.(heap := s.heap + [w], owner := Some(|s.heap|)), t, next);
    PassOwnSound(s, t, next);
    OldOwnerPast(m, s, t, w);
    TasksPast(m, s.(heap := s.heap + [w]), r);
    RestBooks(s, s1);
    NewOwnerBooks(s1, w);
    PutBooks(s1.(heap := s.heap + [w], owner := Some(|s.heap|)), t, s.tasks[t].(point := next, after := None));
    PutAccounted(s, r, t, s.tasks[t].(point := next, after := None));
  }

  lemma PassOwnSound(s: State, t: nat, next: Point)
    requires Sound(s) && t in s.tasks && IsStart(s.tasks[t]) && s.tasks[t].point == Looked(false)
    requires next.Auditing? || next.Audited?
    requires s.tasks[t].arrival == s.revision && Prepare(Pass(s, s.tasks[t].id), t).Some?
    ensures var s1 := Pass(s, s.tasks[t].id);
            Sound(Move(s1.(heap := s.heap + [Prepare(s1, t).value], owner := Some(|s.heap|)), t, next))
  {
    hide Sound;
    ResolveKeepsEnvelope(s.env.capable, s.env.source, s.env.now, s.env.robotGeneration);
    var s1 := Pass(s, s.tasks[t].id);
    RestSound(s, s1);
    NewOwnerSound(s1, t, Prepare(s1, t).value, s.tasks[t].(point := next, after := None));
  }

  lemma OldOwnerPast(m: Mark, s: State, t: nat, w: Owner)
    requires Past(m, s) && t in s.tasks && IsStart(s.tasks[t]) && w.request == t && w.arrival == s.tasks[t].arrival
    ensures Past(m, s.(heap := s.heap + [w]))
  {
    NewOwnerPast(m, s, w);
  }

  lemma RecordSafe(m: Mark, s: State, t: nat)
    requires Formed(s) && Safe(m, s)
    ensures Safe(m, Record(s, t))
  {
    hide Safe;
    if Ready(s, t) && s.tasks[t].Request? && s.tasks[t].point.Auditing? {
      RequestFacts(m, s, t);
      var s1 := s.(audit := s.audit + {s.tasks[t].id});
      RestSafe(m, s, s1);
      if s.hasDb { MoveSafe(m, s1, t, Audited(s.tasks[t].point.session), None); }
      else { NoDbMoveSafe(m, s1, t, Audited(s.tasks[t].point.session)); }
    }
  }

  lemma LaunchSound(s: State, t: nat, session: nat, stale: Option<nat>)
    requires Sound(s) && t in s.tasks && s.tasks[t].Request?
    requires !Bypasses(s.tasks[t].command) ==> s.lock == Some(t)
    requires MayStand(s, s.tasks[t], t, Forwarding)
    ensures Sound(Launch(s, t, session, stale))
  {
    var r := Launch(s, t, session, stale);
    ActiveSound(s, r.active);
    hide Sound;
    RestSound(s.(active := r.active), r.(tasks := s.tasks));
    PutRequestSound(r.(tasks := s.tasks), t, s.tasks[t].(point := Forwarding, after := None));
  }

  /** What a request must bring to be launched. */
  ghost predicate MayLaunch(s: State, t: nat) {
    && t in s.tasks && s.tasks[t].Request? && (s.tasks[t].point.Audited? || s.tasks[t].point.Retiring?)
    && (s.tasks[t].point.Retiring? ==> s.tasks[t].point.rest == map[])
    && (s.tasks[t].command == SoftwareReset ==> s.tasks[t].point.Retiring?)
    && (!Bypasses(s.tasks[t].command) ==> s.lock == Some(t))
    && Placed(s) && MayStand(s, s.tasks[t], t, Forwarding)
  }

  lemma LaunchSafe(m: Mark, s: State, t: nat, session: nat, stale: Option<nat>)
    requires Safe(m, s) && MayLaunch(s, t)
    ensures Safe(m, Launch(s, t, session, stale))
  {
    RequestFacts(m, s, t);
    hide Past, Books, Accounted;
    var r := Launch(s, t, session, stale);
    LaunchSound(s, t, session, stale);
    TasksPast(m, s, r);
    LaunchBooks(s, t, session, stale);
    PutAccounted(s, r, t, s.tasks[t].(point := Forwarding, after := None));
  }

  lemma ForwardSafe(m: Mark, s: State, t: nat, session: nat, stale: Option<nat>)
    requires Safe(m, s) && MayLaunch(s, t)
    ensures Safe(m, Dispatch(s, t, session, stale))
  {
    hide Sound, Past, Books, Accounted;
    LaunchSafe(m, s, t, session, stale);
    LaunchShape(s, t, session, stale);
    SoundLocks(s);
    SafeKeyed(m, s);
    ForwardAccounted(s, t, session, stale);
    hide Launch;
    DispatchSafe(m, s, t, session, stale);
  }

  lemma LaunchShape(s: State, t: nat, session: nat, stale: Option<nat>)
    requires t in s.tasks && s.tasks[t].Request?
    ensures var r := Launch(s, t, session, stale);
            && r.timers == s.timers && r.forwarded == s.forwarded && t in r.tasks && r.tasks[t].Request?
            && r.tasks[t].id == s.tasks[t].id && r.tasks[t].command == s.tasks[t].command
  {}

  lemma DispatchSafe(m: Mark, s: State, t: nat, session: nat, stale: Option<nat>)
    requires t in s.tasks && s.tasks[t].Request?
    requires var r := Launch(s, t, session, stale);
             && Sound(r) && Past(m, r) && Books(r) && t in r.tasks && r.tasks[t].Request?
             && r.timers == s.timers && r.tasks[t].id == s.tasks[t].id && r.tasks[t].command == s.tasks[t].command
             && Accounted(Transmitted(s, t, session, stale))
    ensures Safe(m, Dispatch(s, t, session, stale))
  {
    hide Sound, Past, Books, Accounted, Launch;
    var r := Launch(s, t, session, stale);
    var r1 := r.(timers := s.timers[t := Timer(s.tasks[t].id, s.tasks[t].command)]);
    var r2 := Dispatch(s, t, session, stale);
    RestSound(r, r2);
    TasksPast(m, r, r2);
    TimerBooks(r, t);
    RestBooks(r1, r2);
    FrameAccounted(r.(forwarded := r2.forwarded), r2);
  }

  lemma SafeKeyed(m: Mark, s: State)
    requires Safe(m, s)
    ensures Keyed(s)
  {
    hide Sound, Past, Barred, Keyed, Answered, Accounted;
  }

  lemma SoundLocks(s: State)
    requires Sound(s)
    ensures Locking(s) && Formed(s)
  {
    hide Locking;
  }

  lemma CancelSafe(m: Mark, s: State, t: nat)
    requires Formed(s) && Safe(m, s) && t in s.tasks && s.tasks[t].Request? && s.tasks[t].point.Forwarding?
    requires s.tasks[t].id in s.active && s.active[s.tasks[t].id].command == s.tasks[t].command
    requires s.active[s.tasks[t].id].request == t
    ensures Safe(m, End(Finish(Terminal(s, s.tasks[t].id), s.tasks[t].id, s.tasks[t].command, t), t))
  {
    hide Safe;
    var id, c := s.tasks[t].id, s.tasks[t].command;
    TerminalFinishSafe(m, s, id);
    var r := Finish(Terminal(s, id), id, c, t);
    RequestFacts(m, r, t);
    EndSafe(m, r, t);
  }

  lemma OpenSafe(m: Mark, s: State, t: nat, session: nat, stale: Option<nat>)
    requires Formed(s) && Safe(m, s) && MayLaunch(s, t)
    ensures Safe(m, Open(s, t, session, stale))
  {
    hide Safe;
    var q := s.tasks[t];
    if q.command == TeleopStart && !StartStands(s, t) {
      LaunchSafe(m, s, t, session, stale);
      CancelSafe(m, Launch(s, t, session, stale), t);
    } else {
      ForwardSafe(m, s, t, session, stale);
      if q.command == TeleopStop { NoteStopSafe(m, Dispatch(s, t, session, stale), q.id); }
    }
  }

  lemma RetiringSafe(m: Mark, s: State, t: nat)
    requires Safe(m, s) && t in s.tasks && s.tasks[t].Request? && s.tasks[t].command == SoftwareReset
    requires s.tasks[t].point.Audited?
    ensures Safe(m, Move(s.(owner := None), t, Retiring(s.tasks[t].point.session, s.active)))
  {
    RequestFacts(m, s, t);
    hide Past, Books, Accounted;
    var p := Retiring(s.tasks[t].point.session, s.active);
    var q := s.tasks[t].(point := p, after := None);
    var r := Move(s.(owner := None), t, p);
    DropOwnerSound(s);
    PutRequestSound(s.(owner := None), t, q);
    TasksPast(m, s, r);
    RetiringWaits(s, t, s.tasks[t].point.session);
    RestBooks(s, s.(owner := None));
    PutBooks(s.(owner := None), t, q);
    PutAccounted(s, r, t, q);
  }

  lemma PublishSafe(m: Mark, s: State, t: nat, stale: Option<nat>)
    requires Formed(s) && Safe(m, s)
    ensures Safe(m, Publish(s, t, stale))
  {
    hide Safe, Open;
    if Ready(s, t) && s.tasks[t].Request? && s.tasks[t].point.Audited? {
      RequestFacts(m, s, t);
      if s.tasks[t].command == SoftwareReset {
        RetiringSafe(m, s, t);
      } else {
        OpenSafe(m, s, t, s.tasks[t].point.session, stale);
      }
    }
  }

  lemma RetiredSafe(m: Mark, s: State, t: nat, id: Id)
    requires Formed(s) && Safe(m, s) && t in s.tasks && s.tasks[t].Request? && s.tasks[t].point.Retiring?
    requires id !in s.active
    requires !Bypasses(s.tasks[t].command) ==> s.lock == Some(t)
    requires MayStand(s, s.tasks[t], t, s.tasks[t].point) && (s.hasDb ==> Cleared(s, s.tasks[t]))
    ensures Safe(m, Move(s, t, Retiring(s.tasks[t].point.session, s.tasks[t].point.rest - {id})))
  {
    hide Sound, Past, Books, Accounted;
    var q := s.tasks[t].(point := Retiring(s.tasks[t].point.session, s.tasks[t].point.rest - {id}), after := None);
    PutRequestSound(s, t, q);
    TasksPast(m, s, Put(s, t, q));
    RetiredWaits(s, t, id);
    PutBooks(s, t, q);
    PutAccounted(s, Put(s, t, q), t, q);
  }

  /** A resetting request is alone inside the lock and meets no owner. */
  lemma RetiringFacts(m: Mark, s: State, t: nat)
    requires Safe(m, s) && t in s.tasks && s.tasks[t].Request? && s.tasks[t].point.Retiring?
    ensures s.tasks[t].command == SoftwareReset && s.owner.None? && s.lock == Some(t)
    ensures Covers(s, s.tasks[t].point.rest) && NoneNeedsLidar(s)
  {
    hide Past, Keyed, Answered, Accounted, Sendings, Wired, Covers;
    assert Waits(s, s.tasks[t]);
    assert MayStand(s, s.tasks[t], t, s.tasks[t].point);
    assert Locked(s.tasks[t]);
    forall u | u in s.tasks && s.tasks[u].Request? && NeedsLidar(s.tasks[u].command)
      ensures !s.tasks[u].point.Auditing? && !s.tasks[u].point.Audited?
    {
      assert Locked(s.tasks[u]) ==> u == t;
    }
  }

  lemma RetireSafe(m: Mark, s: State, t: nat, id: Id, stale: Option<nat>)
    requires Formed(s) && Safe(m, s)
    ensures Safe(m, Retire(s, t, id, stale))
  {
    hide Safe, Open;
    if Ready(s, t) && s.tasks[t].Request? && s.tasks[t].point.Retiring? {
      var p := s.tasks[t].point;
      if p.rest == map[] {
        RequestFacts(m, s, t);
        OpenSafe(m, s, t, p.session, stale);
      } else if id in p.rest {
        RetireOneSafe(m, s, t, id);
      }
    }
  }

  lemma RetireOneSafe(m: Mark, s: State, t: nat, id: Id)
    requires Formed(s) && Safe(m, s) && t in s.tasks && s.tasks[t].Request? && s.tasks[t].point.Retiring?
    requires id in s.tasks[t].point.rest
    ensures var p := s.tasks[t].point;
            var e := p.rest[id];
            var s1 := s.(recovery := s.recovery || e.command == SetLidarPower);
            Safe(m, Move(Finish(s1, id, e.command, e.request), t, Retiring(p.session, p.rest - {id})))
  {
    hide Safe;
    var p := s.tasks[t].point;
    var e := p.rest[id];
    RetiringFacts(m, s, t);
    RecoverySafe(m, s, s.recovery || e.command == SetLidarPower);
    var s1 := s.(recovery := s.recovery || e.command == SetLidarPower);
    assert Owns(s1, id, e.command);
    FinishSafe(m, s1, id, e.command, e.request);
    RequestFacts(m, Finish(s1, id, e.command, e.request), t);
    RetiredSafe(m, Finish(s1, id, e.command, e.request), t, id);
  }

  lemma FreeAfter(s: State, t: nat, id: Id, command: Command, origin: nat)
    requires Formed(s) && Free(s, t)
    ensures Free(MarkUncertain(s, id, command, origin), t) && Free(Finish(s, id, command, origin), t)
  {}

  lemma MarkEndSafe(m: Mark, s: State, t: nat, id: Id, command: Command, origin: nat)
    requires Formed(s) && Safe(m, s) && Free(s, t)
    ensures Safe(m, End(MarkUncertain(s, id, command, origin), t))
  {
    hide Safe;
    FreeAfter(s, t, id, command, origin);
    MarkUncertainSafe(m, s, id, command, origin);
    EndSafe(m, MarkUncertain(s, id, command, origin), t);
  }

  lemma SentSafe(m: Mark, s: State, t: nat, ok: bool)
    requires Formed(s) && Safe(m, s)
    ensures Safe(m, Sent(s, t, ok))
  {
    hide Safe;
    if At(s, t, Forwarding) {
      var q := s.tasks[t];
      RequestFacts(m, s, t);
      if ok {
        MoveSafe(m, s, t, Reporting, None);
      } else if IsTeleop(q.command) {
        RevokeMoveSafe(m, s, t, false, Doubting);
      } else if q.command == SetLidarPower || q.command == SoftwareReset {
        MarkEndSafe(m, s, t, q.id, q.command, t);
      } else {
        CloseEndSafe(m, s, t);
      }
    }
  }

  /** A command whose send failed closes with the request that sent it. */
  lemma CloseEndSafe(m: Mark, s: State, t: nat)
    requires Formed(s) && Safe(m, s) && t in s.tasks && s.tasks[t].Request? && s.tasks[t].point.Forwarding?
    requires Ordinary(s.tasks[t].command) && Free(s, t)
    ensures Safe(m, End(Finish(s, s.tasks[t].id, s.tasks[t].command, t), t))
  {
    hide Safe;
    var q := s.tasks[t];
    FreeAfter(s, t, q.id, q.command, t);
    FinishSafe(m, s, q.id, q.command, t);
    EndSafe(m, Finish(s, q.id, q.command, t), t);
  }

  lemma ConcludeSafe(m: Mark, s: State, t: nat)
    requires Formed(s) && Safe(m, s)
    ensures Safe(m, Conclude(s, t))
  {
    hide Safe;
    if At(s, t, Reporting) || At(s, t, Doubting) {
      RequestFacts(m, s, t);
      EndSafe(m, s, t);
      MarkEndSafe(m, s, t, s.tasks[t].id, s.tasks[t].command, t);
    }
  }

  // ---- Answers and timers -----------------------------------------------------------

  /** An acceptance may make a pending owner active. */
  lemma ActivateSafe(m: Mark, s: State)
    requires Safe(m, s) && s.owner.Some? && Live(s.heap[s.owner.value].phase)
    ensures Safe(m, s.(heap := s.heap[s.owner.value := s.heap[s.owner.value].(phase := Active)]))
  {
    hide Past, Books, Accounted;
    UpdateOwnerSafe(m, s, s.owner.value, s.heap[s.owner.value].(phase := Active));
  }

  lemma AcknowledgeSafe(m: Mark, s: State, id: Id, from: nat, accepted: bool)
    requires Formed(s) && Safe(m, s)
    ensures Safe(m, Acknowledge(s, id, from, accepted))
  {
    hide Safe;
    if Answers(s, id, from) {
      var e := s.active[id];
      var s1 := s.(active := s.active[id := e.(acked := true)]);
      FlagSafe(m, s, id, e.(acked := true));
      if accepted {
        RevokeNowSafe(m, s1, true, false);
        if s.owner.Some? && Live(s.heap[s.owner.value].phase) { ActivateSafe(m, s1); }
      } else if IsTeleop(e.command) {
        TerminalFinishSafe(m, s1, id);
      } else {
        OpenFinishSafe(m, s1, id);
      }
    }
  }

  lemma MarkIsOlder(m: Mark, s: State)
    requires Safe(m, s)
    ensures m.base.next <= s.next && m.base.revision <= s.revision
  {}

  lemma BumpNextSafe(m: Mark, s: State)
    requires Formed(s) && Safe(m, s)
    ensures Safe(m, s.(next := s.next + 1))
  {
    hide Past, Books, Accounted;
    var r := s.(next := s.next + 1);
    NextSound(s);
    TasksPast(m, s, r);
    RestBooks(s, r);
    FrameAccounted(s, r);
  }

  lemma NextSound(s: State)
    requires Sound(s)
    ensures Sound(s.(next := s.next + 1))
  {}

  lemma RevokeThenDoubtSafe(m: Mark, s: State, id: Id, entry: Entry, issueStop: bool)
    requires Formed(s) && Safe(m, s)
    ensures Safe(m, RevokeThenDoubt(s, id, entry, issueStop))
  {
    hide Safe;
    var s1 := RevokeNow(s, issueStop, false);
    RevokeNowSafe(m, s, issueStop, false);
    RevokedIsSettled(s, issueStop, false);
    NextIsNew(m, s1);
    BumpNextSafe(m, s1);
    PutFreshSafe(m, s1.(next := s1.next + 1), s1.next, Doubt(id, entry, Some(s.next)));
  }

  lemma ConclusionSafe(m: Mark, s: State, id: Id, from: nat, outcome: Outcome)
    requires Formed(s) && Safe(m, s)
    ensures Safe(m, Conclusion(s, id, from, outcome))
  {
    hide Safe;
    if Answers(s, id, from) {
      var e := s.active[id];
      var c := e.command;
      if IsTeleop(c) && outcome == TimedOut {
        RevokeThenDoubtSafe(m, s, id, e, false);
      } else if IsTeleop(c) {
        TerminalFinishSafe(m, s, id);
      } else if outcome == TimedOut && (c == SoftwareReset || c == SetLidarPower) {
        MarkUncertainSafe(m, s, id, c, e.request);
      } else if c == SetLidarPower {
        LidarFacts(m, s, id);
        RecoverySafe(m, s, outcome != Succeeded);
        OpenFinishSafe(m, s.(recovery := outcome != Succeeded), id);
      } else {
        OpenFinishSafe(m, s, id);
      }
    }
  }

  lemma LidarFacts(m: Mark, s: State, id: Id)
    requires Formed(s) && Safe(m, s) && id in s.active && s.active[id].command == SetLidarPower
    ensures NoneNeedsLidar(s)
  {
    hide Sound, Past, Books, Accounted;
    PendingLidarBlocks(s, id);
  }

  lemma ExpireSafe(m: Mark, s: State, id: Id, forAck: bool)
    requires Formed(s) && Safe(m, s)
    ensures Safe(m, Expire(s, id, forAck))
  {
    hide Safe;
    if id in s.active {
      var e := s.active[id];
      if IsTeleop(e.command) {
        RevokeThenDoubtSafe(m, s, id, e, true);
      } else if e.command == SetLidarPower || e.command == SoftwareReset {
        MarkUncertainSafe(m, s, id, e.command, e.request);
      } else {
        OpenFinishSafe(m, s, id);
      }
    }
  }

  lemma LingerSafe(m: Mark, s: State, origin: nat)
    requires Formed(s) && Safe(m, s)
    ensures Safe(m, Linger(s, origin))
  {
    hide Safe;
    if Stray(s, origin) {
      var id, c := s.timers[origin].id, s.timers[origin].command;
      if IsTeleop(c) {
        RevokeThenDoubtSafe(m, s, id, Entry(c, origin, false, false, 0, None), true);
      } else if Ordinary(c) {
        FinishSafe(m, s, id, c, origin);
      }
    }
  }

  lemma DoubtIsFree(m: Mark, s: State, t: nat)
    requires Safe(m, s) && t in s.tasks && s.tasks[t].Doubt?
    ensures Free(s, t)
  {
    hide Past, Books, Accounted;
  }

  lemma DoubtNowSafe(m: Mark, s: State, t: nat)
    requires Formed(s) && Safe(m, s)
    ensures Safe(m, DoubtNow(s, t))
  {
    hide Safe;
    if Ready(s, t) && s.tasks[t].Doubt? {
      DoubtIsFree(m, s, t);
      MarkEndSafe(m, s, t, s.tasks[t].id, s.tasks[t].entry.command, s.tasks[t].entry.request);
    }
  }

  // ---- Velocity frames and the send path ------------------------------------------

  lemma SteerSafe(m: Mark, s: State, client: nat, frame: Frame, trusted: bool, timely: bool, paced: bool)
    requires Formed(s) && Safe(m, s)
    ensures Safe(m, Steer(s, client, frame, trusted, timely, paced))
  {
    hide Safe;
    RevokeNowSafe(m, s, true, false);
    if s.owner.Some? && ValidFrame(frame) {
      var w := s.heap[s.owner.value];
      if w.command == frame.command && (frame.deadman ==> !OverPolicy(w.policy, frame.linear, frame.angular)) {
        SteeredSafe(m, s, frame);
      }
    }
  }

  lemma SteeredSafe(m: Mark, s: State, frame: Frame)
    requires Formed(s) && Safe(m, s) && s.owner.Some? && ValidFrame(frame)
    requires var w := s.heap[s.owner.value];
             w.command == frame.command && (frame.deadman ==> !OverPolicy(w.policy, frame.linear, frame.angular))
    ensures var o := s.owner.value;
            Safe(m, Put(s.(heap := s.heap[o := s.heap[o].(serial := frame.serial)], next := s.next + 1),
                        s.next, Velocity(o, frame, Queued)))
  {
    hide Safe;
    var o := s.owner.value;
    NextIsNew(m, s);
    SerialSafe(m, s, o, frame.serial);
    var s1 := s.(heap := s.heap[o := s.heap[o].(serial := frame.serial)]);
    BumpNextSafe(m, s1);
    PutFreshSafe(m, s1.(next := s.next + 1), s.next, Velocity(o, frame, Queued));
  }

  lemma SerialSafe(m: Mark, s: State, o: nat, serial: int)
    requires Safe(m, s) && o < |s.heap|
    ensures Safe(m, s.(heap := s.heap[o := s.heap[o].(serial := serial)]))
  {
    hide Past, Books, Accounted;
    UpdateOwnerSafe(m, s, o, s.heap[o].(serial := serial));
  }

  /** The send lock is taken and the write begins. */
  lemma WritingSafe(m: Mark, s: State, t: nat)
    requires Formed(s) && Safe(m, s) && t in s.tasks && (s.tasks[t].Velocity? || s.tasks[t].Revoke?)
    requires s.tasks[t].stage == Queued && s.heap[s.tasks[t].owner].sendLock.None?
    requires FrameOf(s, t).deadman ==> s.heap[s.tasks[t].owner].phase == Active
    requires |s.wire| < m.writes || m.base.revision < s.revision
    ensures Safe(m, Begun(s, t))
  {
    hide Sound, Past, Books, Accounted;
    WritingSound(s, t);
    WritingPast(m, s, t);
    WritingBooks(s, t);
    PutAccounted(s, Begun(s, t), t, s.tasks[t].(stage := Writing));
  }

  lemma WritingPast(m: Mark, s: State, t: nat)
    requires Formed(s) && Sound(s) && Past(m, s) && t in s.tasks && (s.tasks[t].Velocity? || s.tasks[t].Revoke?)
    requires FrameOf(s, t).deadman ==> s.heap[s.tasks[t].owner].phase == Active
    requires |s.wire| < m.writes || m.base.revision < s.revision
    ensures Past(m, Begun(s, t))
  {
    hide Past;
    var o := s.tasks[t].owner;
    var s1 := s.(heap := s.heap[o := s.heap[o].(sendLock := Some(t))]);
    UpdateOwnerPast(m, s, o, s.heap[o].(sendLock := Some(t)));
    WritePast(m, s1, Write(o, FrameOf(s, t), s.tasks[t].Revoke?));
    TasksPast(m, s1.(wire := Begun(s, t).wire), Begun(s, t));
  }

  lemma WritingBooks(s: State, t: nat)
    requires Formed(s) && Books(s) && t in s.tasks && (s.tasks[t].Velocity? || s.tasks[t].Revoke?)
    ensures Books(Begun(s, t))
  {
    hide Books;
    NeverAsked(s, t);
    var o := s.tasks[t].owner;
    var s1 := s.(heap := s.heap[o := s.heap[o].(sendLock := Some(t))]);
    OwnerBooks(s, o, s1.heap[o]);
    RestBooks(s1, s1.(wire := Begun(s, t).wire));
    PutBooks(s1.(wire := Begun(s, t).wire), t, s.tasks[t].(stage := Writing));
  }

  /** The send lock is given back and the task is gone. */
  lemma ReleaseSafe(m: Mark, s: State, t: nat, v: Owner)
    requires Formed(s) && Safe(m, s) && Unlocks(s, t, v) && SameBook(s.heap[s.tasks[t].owner], v)
    ensures Safe(m, End(s.(heap := s.heap[s.tasks[t].owner := v]), t))
  {
    hide Sound, Past, Books, Accounted;
    var s1 := s.(heap := s.heap[s.tasks[t].owner := v]);
    ReleaseSound(s, t, v);
    UpdateOwnerPast(m, s, s.tasks[t].owner, v);
    TasksPast(m, s1, End(s1, t));
    OwnerBooks(s, s.tasks[t].owner, v);
    EndBooks(s1, t);
    EndAccounted(s, End(s1, t), t);
  }

  /** The send lock is given back and the revoke goes on to its decision. */
  lemma RestingSafe(m: Mark, s: State, t: nat, v: Owner, task: Task)
    requires Formed(s) && Safe(m, s) && Unlocks(s, t, v) && SameBook(s.heap[s.tasks[t].owner], v)
    requires s.tasks[t].Revoke? && task.Revoke? && task.stage == Deciding && task.owner == s.tasks[t].owner
    ensures Safe(m, Put(s.(heap := s.heap[s.tasks[t].owner := v]), t, task))
  {
    hide Sound, Past, Books, Accounted;
    var s1 := s.(heap := s.heap[s.tasks[t].owner := v]);
    NeverAsked(s, t);
    RestingSound(s, t, v, task);
    UpdateOwnerPast(m, s, s.tasks[t].owner, v);
    TasksPast(m, s1, Put(s1, t, task));
    OwnerBooks(s, s.tasks[t].owner, v);
    PutBooks(s1, t, task);
    PutAccounted(s, Put(s1, t, task), t, task);
  }

  /** Releasing the lock, with or without an unknown outcome, only ages an owner. */
  lemma ReleasedAges(m: Mark, s: State, o: nat, v: Owner)
    requires Safe(m, s) && o < |s.heap|
    requires var w := s.heap[o];
             v == w.(sendLock := v.sendLock, phase := v.phase) && (v.phase == w.phase || v.phase == Unknown)
    ensures Ages(s.heap[o], v) && SameBook(s.heap[o], v)
  {
    hide Past, Books, Accounted;
  }

  lemma ReturnedSafe(m: Mark, s: State, t: nat, sent: bool)
    requires Formed(s) && Safe(m, s) && t in s.tasks && (s.tasks[t].Velocity? || s.tasks[t].Revoke?)
    ensures Safe(m, Returned(s, t, sent))
  {
    hide Safe;
    var task := s.tasks[t];
    var w := s.heap[task.owner];
    var v := w.(sendLock := if w.sendLock == Some(t) then None else w.sendLock,
                phase := if task.Revoke? && !sent then Unknown else w.phase);
    ReleasedAges(m, s, task.owner, v);
    if task.Revoke? {
      RestingSafe(m, s, t, v, Revoke(task.owner, task.serial, task.issueStop, Deciding));
    } else {
      ReleaseSafe(m, s, t, v);
      RevokeNowSafe(m, End(s.(heap := s.heap[task.owner := v]), t), true, sent);
    }
  }

  lemma StartWriteSafe(m: Mark, s: State, t: nat)
    requires Formed(s) && Safe(m, s)
    requires |StartWrite(s, t).wire| <= m.writes || m.base.revision < s.revision
    ensures Safe(m, StartWrite(s, t))
  {
    hide Safe, Returned;
    StartWriteIs(s, t);
    hide StartWrite, Begun;
    if Sending(s, t, Queued) && s.heap[s.tasks[t].owner].sendLock.None? {
      if MayWrite(s, t) {
        BegunWrites(s, t);
        WritingSafe(m, s, t);
      } else {
        ReturnedSafe(m, s, t, false);
      }
    }
  }

  /** The last look before a write. */
  predicate MayWrite(s: State, t: nat)
    requires t in s.tasks && (s.tasks[t].Velocity? || s.tasks[t].Revoke?) && s.tasks[t].owner < |s.heap|
  {
    var w := s.heap[s.tasks[t].owner];
    Bound(s, w) && (FrameOf(s, t).deadman ==> w.phase == Active && OwnsLease(s, w))
  }

  lemma StartWriteIs(s: State, t: nat)
    requires Formed(s)
    ensures StartWrite(s, t) ==
            if !Sending(s, t, Queued) || s.heap[s.tasks[t].owner].sendLock.Some? then s
            else if MayWrite(s, t) then Begun(s, t)
            else Returned(s, t, false)
  {
    hide Returned;
  }

  lemma BegunWrites(s: State, t: nat)
    requires Formed(s) && t in s.tasks && (s.tasks[t].Velocity? || s.tasks[t].Revoke?)
    ensures |Begun(s, t).wire| == |s.wire| + 1
  {}

  lemma EndWriteSafe(m: Mark, s: State, t: nat, ok: bool)
    requires Formed(s) && Safe(m, s)
    ensures Safe(m, EndWrite(s, t, ok)) && Safe(m, GiveUp(s, t))
  {
    hide Safe, Returned;
    if Sending(s, t, Writing) { ReturnedSafe(m, s, t, ok && Bound(s, s.heap[s.tasks[t].owner])); }
    if Sending(s, t, Queued) { ReturnedSafe(m, s, t, false); }
  }

  lemma DecidingFacts(m: Mark, s: State, t: nat, v: Owner)
    requires Safe(m, s) && t in s.tasks && s.tasks[t].Revoke? && s.tasks[t].stage == Deciding
    requires var w := s.heap[s.tasks[t].owner];
             v == w.(phase := v.phase, stopIssued := v.stopIssued) && (v.phase == w.phase || v.phase == Unknown)
    ensures Free(s, t) && Ages(s.heap[s.tasks[t].owner], v) && t !in s.asked
    ensures Free(s.(heap := s.heap[s.tasks[t].owner := v]), t)
  {
    hide Past, Books, Accounted;
    NeverAsked(s, t);
  }

  lemma DecideSafe(m: Mark, s: State, t: nat, id: Id)
    requires Formed(s) && Safe(m, s)
    ensures Safe(m, Decide(s, t, id))
  {
    hide Safe;
    if Ready(s, t) && s.tasks[t].Revoke? && s.tasks[t].stage == Deciding {
      var o, w := s.tasks[t].owner, s.heap[s.tasks[t].owner];
      var v := w.(stopIssued := true, phase := if Bound(s, w) then w.phase else Unknown);
      DecidingFacts(m, s, t, w);
      DecidingFacts(m, s, t, v);
      UpdateOwnerSafe(m, s, o, v);
      EndSafe(m, s, t);
      EndSafe(m, s.(heap := s.heap[o := v]), t);
      AskSafe(m, s.(heap := s.heap[o := v]), t, Request(TeleopStop, id, w.client, false, s.revision, Waiting, None));
    }
  }

  lemma AbortSafe(m: Mark, s: State, t: nat)
    requires Formed(s) && Safe(m, s)
    ensures Safe(m, Abort(s, t))
  {
    hide Safe;
    if t in s.tasks {
      if s.tasks[t].Request? {
        RequestFacts(m, s, t);
        if Bypasses(s.tasks[t].command) { EndSafe(m, s, t); }
      } else if s.tasks[t].Doubt? {
        DoubtIsFree(m, s, t);
        EndSafe(m, s, t);
      } else {
        var w := s.heap[s.tasks[t].owner];
        var v := w.(sendLock := if w.sendLock == Some(t) then None else w.sendLock);
        ReleasedAges(m, s, s.tasks[t].owner, v);
        ReleaseSafe(m, s, t, v);
      }
    }
  }

  lemma NextIsFree(m: Mark, s: State)
    requires Safe(m, s)
    ensures Free(s, s.next)
  {
    hide Past, Books, Accounted;
  }

  lemma ArriveSafe(m: Mark, s: State, command: Command, id: Id, client: nat, takeover: bool)
    requires Formed(s) && Safe(m, s)
    ensures Safe(m, Apply(s, Arrives(command, id, client, takeover)))
  {
    hide Safe;
    NextIsNew(m, s);
    NextIsFree(m, s);
    BumpNextSafe(m, s);
    MarkIsOlder(m, s);
    AskSafe(m, s.(next := s.next + 1), s.next, Request(command, id, client, takeover, s.revision, Waiting, None));
  }

  /** Every step of the protocol keeps the invariants. */
  lemma StepSafe(m: Mark, s: State, e: Event)
    requires Formed(s) && Safe(m, s)
    requires |Apply(s, e).wire| <= m.writes || m.base.revision < s.revision
    ensures Safe(m, Apply(s, e))
  {
    hide Safe, Refuse, Check, LookUp, Record, RevokeNow, Put, Admit, Publish, Retire, Sent, Conclude, Acknowledge;
    hide Conclusion, Expire, Linger, DoubtNow, Steer, StartWrite, EndWrite, GiveUp, Decide, Abort, Validate;
    match e
    case Changed(env) => RestSafe(m, s, s.(env := env));
    case Arrives(c, id, client, takeover) => ArriveSafe(m, s, c, id, client, takeover);
    case Admits(t, ok) => AdmitSafe(m, s, t, ok);
    case Refuses(t) => RefuseSafe(m, s, t);
    case Checks(t, ok) => CheckSafe(m, s, t, ok);
    case LooksUp(t) => LookUpSafe(m, s, t);
    case Validates(t, ok) => ValidateSafe(m, s, t, ok);
    case Records(t) => RecordSafe(m, s, t);
    case Publishes(t, stale) => PublishSafe(m, s, t, stale);
    case Retires(t, id, stale) => RetireSafe(m, s, t, id, stale);
    case Sends(t, ok) => SentSafe(m, s, t, ok);
    case Concludes(t) => ConcludeSafe(m, s, t);
    case Acks(id, from, accepted) => AcknowledgeSafe(m, s, id, from, accepted);
    case Results(id, from, outcome) => ConclusionSafe(m, s, id, from, outcome);
    case Expires(id, forAck) => ExpireSafe(m, s, id, forAck);
    case Lingers(origin) => LingerSafe(m, s, origin);
    case Doubts(t) => DoubtNowSafe(m, s, t);
    case Revokes => RevokeNowSafe(m, s, true, false);
    case Steers(client, frame, trusted, timely, paced) => SteerSafe(m, s, client, frame, trusted, timely, paced);
    case StartsWrite(t) => StartWriteSafe(m, s, t);
    case EndsWrite(t, ok) => EndWriteSafe(m, s, t, ok);
    case GivesUp(t) => EndWriteSafe(m, s, t, false);
    case Decides(t, id) => DecideSafe(m, s, t, id);
    case Aborts(t) => AbortSafe(m, s, t);
  }
}
