/**
 The books of the manual-drive protocol that hold whatever ids the browsers choose:
 what the reset and LiDAR barriers guard, which request an id in the open table and a
 timer belong to, what a session's stops and start have been answered with, and which
 ids were forwarded.
 */
module ManualBooks {
  import opened Options
  import opened ManualDrive
  import opened ManualInvariant

  // ---- Barriers -----------------------------------------------------------------------

  /** Past the lock and not yet in the open table. */
  predicate Admitted(p: Point) { Screening(p) || p.Auditing? || p.Audited? }

  /** Past the duplicate check and not yet in the open table. */
  predicate Unpublished(p: Point) { p.Auditing? || p.Audited? || p.Retiring? }

  predicate Published(p: Point) { p.Forwarding? || p.Doubting? || p.Reporting? }

  /** A start whose owner exists and whose entry does not. */
  predicate Starting(q: Task) { IsStart(q) && (q.point.Auditing? || q.point.Audited?) }

  /** The barrier of the command is down, or stands for this id. */
  predicate Owns(s: State, id: Id, command: Command) {
    && (command == SoftwareReset ==> s.resetPending in {None, Some(id)})
    && (command == SetLidarPower ==> s.lidarPending in {None, Some(id)})
  }

  /** An open reset or LiDAR command is the one its barrier names. */
  ghost predicate Raised(s: State) {
    forall x :: x in s.active ==>
      && (s.active[x].command == SoftwareReset ==> s.resetPending == Some(x))
      && (s.active[x].command == SetLidarPower ==> s.lidarPending == Some(x))
  }

  /** A reset's list covers every lock-taking command still open. */
  ghost predicate Covers(s: State, rest: map<Id, Entry>) {
    && (forall x :: x in s.active ==>
          Bypasses(s.active[x].command) || (x in rest && rest[x].command == s.active[x].command))
    && (forall x :: x in rest ==> Owns(s, x, rest[x].command))
  }

  /** What an admitted request may rely on. */
  ghost predicate Waits(s: State, q: Task) {
    q.Request? ==>
      && (!IgnoresLidar(q.command) && Admitted(q.point) ==> s.lidarPending.None?)
      && (!Unmetered(q.command) && Admitted(q.point) ==> s.resetPending.None?)
      && (NeedsLidar(q.command) && (q.point.Auditing? || q.point.Audited?) ==> !s.recovery)
      && (q.point.Retiring? ==> q.command == SoftwareReset && Covers(s, q.point.rest))
  }

  ghost predicate Barred(s: State) {
    Raised(s) && forall t :: t in s.tasks ==> Waits(s, s.tasks[t])
  }

  // ---- Ids ----------------------------------------------------------------------------

  /** A request has the id it was asked with; other tasks were never requests. */
  ghost predicate TaskKeyed(s: State, t: nat, task: Task) {
    if task.Request? then t in s.asked && s.asked[t] == task.id else t !in s.asked
  }

  /** An entry belongs to a request of that id, which has launched it. */
  ghost predicate EntryKeyed(s: State, x: Id, e: Entry) {
    && e.request in s.asked && s.asked[e.request] == x
    && (e.request in s.tasks && s.tasks[e.request].Request? ==>
          Published(s.tasks[e.request].point) && s.tasks[e.request].command == e.command)
  }

  ghost predicate Keyed(s: State) {
    && (forall t :: t in s.asked ==> t < s.next)
    && (forall t {:trigger s.tasks[t]} :: t in s.tasks ==> TaskKeyed(s, t, s.tasks[t]))
    && (forall x {:trigger s.active[x]} :: x in s.active ==> EntryKeyed(s, x, s.active[x]))
    && (forall r {:trigger s.timers[r]} :: r in s.timers ==> r in s.asked && s.asked[r] == s.timers[r].id)
  }

  // ---- Answers ------------------------------------------------------------------------

  /** What a session no longer waits for has been finally answered. */
  ghost predicate Settled(s: State, w: Owner) {
    && (w.startTerminal ==> w.command in s.answered)
    && (forall x :: x in w.attached && x !in w.stopIds ==> x in s.answered)
  }

  ghost predicate Answered(s: State) {
    forall o :: 0 <= o < |s.heap| ==> Settled(s, s.heap[o])
  }

  ghost predicate Books(s: State) { Barred(s) && Keyed(s) && Answered(s) }

  // ---- Single changes ---------------------------------------------------------------

  predicate SameBook(w: Owner, v: Owner) {
    && v.command == w.command && v.attached == w.attached && v.stopIds == w.stopIds
    && v.startTerminal == w.startTerminal
  }

  lemma OwnerBooks(s: State, o: nat, v: Owner)
    requires Books(s) && o < |s.heap| && SameBook(s.heap[o], v)
    ensures Books(s.(heap := s.heap[o := v]))
  {
    hide Barred, Keyed;
    var r := s.(heap := s.heap[o := v]);
    FrameBarred(s, r);
    FrameKeyed(s, r);
    forall p | 0 <= p < |r.heap| ensures Settled(r, r.heap[p]) { assert Settled(s, s.heap[p]); }
  }

  /** How a request may move. */
  ghost predicate MayMove(q: Task, p: Task) {
    q.Request? && p.Request? && p.id == q.id && p.command == q.command && (Published(q.point) ==> Published(p.point))
  }

  ghost predicate MayPut(s: State, t: nat, task: Task) {
    && Waits(s, task)
    && (if t in s.tasks && s.tasks[t].Request? then MayMove(s.tasks[t], task) else !task.Request? && t !in s.asked)
  }

  lemma PutBooks(s: State, t: nat, task: Task)
    requires Books(s) && MayPut(s, t, task)
    ensures Books(Put(s, t, task))
  {
    hide Barred, Keyed, Answered;
    PutBarred(s, t, task);
    PutKeyed(s, t, task);
    PutAnswered(s, t, task);
  }

  lemma PutBarred(s: State, t: nat, task: Task)
    requires Barred(s) && Waits(s, task)
    ensures Barred(Put(s, t, task))
  {
    forall u | u in s.tasks && u != t ensures Waits(Put(s, t, task), s.tasks[u]) { assert Waits(s, s.tasks[u]); }
  }

  lemma PutKeyed(s: State, t: nat, task: Task)
    requires Keyed(s) && MayPut(s, t, task)
    ensures Keyed(Put(s, t, task))
  {
    hide Waits;
    var r := Put(s, t, task);
    forall x | x in r.active ensures EntryKeyed(r, x, r.active[x]) { assert EntryKeyed(s, x, s.active[x]); }
  }

  lemma PutAnswered(s: State, t: nat, task: Task)
    requires Answered(s)
    ensures Answered(Put(s, t, task))
  {}

  lemma NeverAsked(s: State, t: nat)
    requires Books(s) && t in s.tasks && !s.tasks[t].Request?
    ensures t !in s.asked
  {
    hide Barred, Answered;
    assert TaskKeyed(s, t, s.tasks[t]);
  }

  /** A task number that was no request becomes one. */
  lemma AskBooks(s: State, t: nat, q: Task)
    requires Books(s) && t < s.next && t !in s.asked && q.Request? && q.point.Waiting?
    ensures Books(Put(s.(asked := s.asked[t := q.id]), t, q))
  {
    hide Barred, Keyed, Answered;
    PutBarred(s, t, q);
    AskKeyed(s, t, q);
    AskBarred(s, t, q);
    AskAnswered(s, t, q);
  }

  lemma AskBarred(s: State, t: nat, q: Task)
    requires q.Request? && Barred(Put(s, t, q))
    ensures Barred(Put(s.(asked := s.asked[t := q.id]), t, q))
  {}

  lemma AskAnswered(s: State, t: nat, q: Task)
    requires q.Request? && Answered(s)
    ensures Answered(Put(s.(asked := s.asked[t := q.id]), t, q))
  {}

  lemma AskKeyed(s: State, t: nat, q: Task)
    requires Keyed(s) && t < s.next && t !in s.asked && q.Request?
    ensures Keyed(Put(s.(asked := s.asked[t := q.id]), t, q))
  {
    var r := Put(s.(asked := s.asked[t := q.id]), t, q);
    forall x | x in r.active ensures EntryKeyed(r, x, r.active[x]) { assert EntryKeyed(s, x, s.active[x]); }
  }

  lemma EndBooks(s: State, t: nat)
    requires Books(s)
    ensures Books(End(s, t))
  {
    hide Barred, Keyed, Answered;
    EndBarred(s, t);
    EndKeyed(s, t);
    EndAnswered(s, t);
  }

  lemma EndBarred(s: State, t: nat)
    requires Barred(s)
    ensures Barred(End(s, t))
  {
    forall u | u in s.tasks && u != t ensures Waits(End(s, t), s.tasks[u]) { assert Waits(s, s.tasks[u]); }
  }

  lemma EndKeyed(s: State, t: nat)
    requires Keyed(s)
    ensures Keyed(End(s, t))
  {
    var r := End(s, t);
    forall x | x in r.active ensures EntryKeyed(r, x, r.active[x]) { assert EntryKeyed(s, x, s.active[x]); }
  }

  lemma EndAnswered(s: State, t: nat)
    requires Answered(s)
    ensures Answered(End(s, t))
  {}

  lemma TerminalBooks(s: State, id: Id)
    requires Placed(s) && Books(s)
    ensures Books(Terminal(s, id))
  {
    hide Barred, Keyed, Answered;
    TerminalAnswered(s, id);
    TerminalFrame(s, id);
    FrameBarred(s, Terminal(s, id));
    FrameKeyed(s, Terminal(s, id));
  }

  lemma TerminalFrame(s: State, id: Id)
    requires Placed(s)
    ensures var r := Terminal(s, id);
            && r.tasks == s.tasks && r.active == s.active && r.timers == s.timers && r.asked == s.asked
            && r.next == s.next
            && r.resetPending == s.resetPending && r.lidarPending == s.lidarPending && r.recovery == s.recovery
  {}

  lemma TerminalAnswered(s: State, id: Id)
    requires Placed(s) && Answered(s)
    ensures Answered(Terminal(s, id))
  {
    var r := Terminal(s, id);
    forall o | 0 <= o < |r.heap| ensures Settled(r, r.heap[o]) { assert Settled(s, s.heap[o]); }
  }

  lemma FrameBarred(s: State, r: State)
    requires Barred(s) && r.tasks == s.tasks && r.active == s.active
    requires r.resetPending == s.resetPending && r.lidarPending == s.lidarPending && r.recovery == s.recovery
    ensures Barred(r)
  {
    forall u | u in r.tasks ensures Waits(r, r.tasks[u]) { assert Waits(s, s.tasks[u]); }
  }

  lemma FrameKeyed(s: State, r: State)
    requires Keyed(s) && r.tasks == s.tasks && r.active == s.active && r.timers == s.timers && r.asked == s.asked
    requires s.next <= r.next
    ensures Keyed(r)
  {
    forall x | x in r.active ensures EntryKeyed(r, x, r.active[x]) { assert EntryKeyed(s, x, s.active[x]); }
    forall t | t in r.tasks ensures TaskKeyed(r, t, r.tasks[t]) { assert TaskKeyed(s, t, s.tasks[t]); }
  }

  lemma FrameAnswered(s: State, r: State)
    requires Answered(s) && r.heap == s.heap && s.answered <= r.answered
    ensures Answered(r)
  {
    forall o | 0 <= o < |r.heap| ensures Settled(r, r.heap[o]) { assert Settled(s, s.heap[o]); }
  }

  lemma RestBooks(s: State, r: State)
    requires Books(s)
    requires r.tasks == s.tasks && r.heap == s.heap && r.active == s.active && r.timers == s.timers
    requires r.asked == s.asked
    requires r.resetPending == s.resetPending && r.lidarPending == s.lidarPending && r.recovery == s.recovery
    requires r.answered == s.answered && s.next <= r.next
    ensures Books(r)
  {
    hide Barred, Keyed, Answered;
    FrameBarred(s, r);
    FrameKeyed(s, r);
    FrameAnswered(s, r);
  }

  lemma FinishBooks(s: State, id: Id, command: Command, origin: nat)
    requires Books(s) && Owns(s, id, command)
    ensures Books(Finish(s, id, command, origin))
  {
    hide Barred, Keyed, Answered;
    FinishBarred(s, id, command, origin);
    FinishKeyed(s, id, command, origin);
    FinishAnswered(s, id, command, origin);
  }

  lemma FinishBarred(s: State, id: Id, command: Command, origin: nat)
    requires Barred(s) && Owns(s, id, command)
    ensures Barred(Finish(s, id, command, origin))
  {
    var r := Finish(s, id, command, origin);
    assert Raised(r);
    forall t | t in r.tasks ensures Waits(r, r.tasks[t]) {
      assert Waits(s, s.tasks[t]);
      hide Raised;
    }
  }

  lemma FinishKeyed(s: State, id: Id, command: Command, origin: nat)
    requires Keyed(s)
    ensures Keyed(Finish(s, id, command, origin))
  {
    var r := Finish(s, id, command, origin);
    forall x | x in r.active ensures EntryKeyed(r, x, r.active[x]) { assert EntryKeyed(s, x, s.active[x]); }
  }

  lemma FinishAnswered(s: State, id: Id, command: Command, origin: nat)
    requires Answered(s)
    ensures Answered(Finish(s, id, command, origin))
  {}

  /** An open command owns its barrier. */
  lemma OpenOwns(s: State, id: Id)
    requires Books(s) && id in s.active
    ensures Owns(s, id, s.active[id].command)
  {
    hide Keyed, Answered, Waits;
  }

  lemma NewOwnerBooks(s: State, w: Owner)
    requires Books(s) && w.attached == {} && !w.startTerminal
    ensures Books(s.(heap := s.heap + [w], owner := Some(|s.heap|)))
  {
    hide Barred, Keyed;
    var r := s.(heap := s.heap + [w], owner := Some(|s.heap|));
    FrameBarred(s, r);
    FrameKeyed(s, r);
    forall o | 0 <= o < |r.heap| ensures Settled(r, r.heap[o]) { if o < |s.heap| { assert Settled(s, s.heap[o]); } }
  }

  /** What the request that is launched brings. */
  ghost predicate Launches(s: State, t: nat) {
    && t in s.tasks && s.tasks[t].Request? && Unpublished(s.tasks[t].point)
    && (s.tasks[t].point.Retiring? ==> s.tasks[t].point.rest == map[])
    && (s.tasks[t].command == SoftwareReset ==> s.tasks[t].point.Retiring?)
    && Locking(s) && (!Bypasses(s.tasks[t].command) ==> s.lock == Some(t))
  }

  lemma LaunchBooks(s: State, t: nat, session: nat, stale: Option<nat>)
    requires Books(s) && Launches(s, t)
    ensures Books(Launch(s, t, session, stale))
  {
    hide Barred, Keyed, Answered;
    LaunchBarred(s, t, session, stale);
    LaunchKeyed(s, t, session, stale);
    LaunchAnswered(s, t, session, stale);
  }

  lemma LaunchBarred(s: State, t: nat, session: nat, stale: Option<nat>)
    requires Barred(s) && Launches(s, t)
    ensures Barred(Launch(s, t, session, stale))
  {
    var r := Launch(s, t, session, stale);
    LaunchRaised(s, t, session, stale);
    forall u | u in r.tasks ensures Waits(r, r.tasks[u]) {
      assert Waits(s, s.tasks[u]) && Waits(s, s.tasks[t]);
      LaunchWaits(s, t, session, stale, u);
    }
    hide Waits, Raised;
  }

  lemma LaunchRaised(s: State, t: nat, session: nat, stale: Option<nat>)
    requires Barred(s) && Launches(s, t)
    ensures Raised(Launch(s, t, session, stale))
  {
    assert Waits(s, s.tasks[t]);
  }

  lemma LaunchWaits(s: State, t: nat, session: nat, stale: Option<nat>, u: nat)
    requires Launches(s, t) && u in s.tasks && Waits(s, s.tasks[u]) && Waits(s, s.tasks[t])
    ensures var r := Launch(s, t, session, stale); Waits(r, r.tasks[u])
  {
    var r := Launch(s, t, session, stale);
    if u == t {
      assert r.tasks[t].point.Forwarding?;
    } else {
      assert r.tasks[u] == s.tasks[u] && r.recovery == s.recovery;
      if s.tasks[u].Request? {
        if Bypasses(s.tasks[t].command) {
          hide Locking;
          BypassCovers(s, t, session, stale, u);
        } else {
          assert Locked(s.tasks[u]) ==> s.lock == Some(u);
          assert !Locked(s.tasks[u]);
        }
      }
    }
  }

  /** A stop-class command raises no barrier and escapes no reset's list. */
  lemma BypassCovers(s: State, t: nat, session: nat, stale: Option<nat>, u: nat)
    requires t in s.tasks && s.tasks[t].Request? && Bypasses(s.tasks[t].command)
    requires u in s.tasks && u != t && s.tasks[u].Request?
    ensures var r := Launch(s, t, session, stale);
            && r.lidarPending == s.lidarPending && r.resetPending == s.resetPending
            && (s.tasks[u].point.Retiring? && Covers(s, s.tasks[u].point.rest) ==> Covers(r, s.tasks[u].point.rest))
  {}

  lemma LaunchKeyed(s: State, t: nat, session: nat, stale: Option<nat>)
    requires Keyed(s) && Launches(s, t)
    ensures Keyed(Launch(s, t, session, stale))
  {
    hide Locking;
    var r := Launch(s, t, session, stale);
    assert TaskKeyed(s, t, s.tasks[t]);
    forall x | x in r.active ensures EntryKeyed(r, x, r.active[x]) {
      if x != s.tasks[t].id { assert EntryKeyed(s, x, s.active[x]); }
    }
  }

  lemma LaunchAnswered(s: State, t: nat, session: nat, stale: Option<nat>)
    requires Answered(s) && t in s.tasks && s.tasks[t].Request?
    ensures Answered(Launch(s, t, session, stale))
  {}

  /** The timers of a command start as it is sent. */
  lemma TimerBooks(s: State, t: nat)
    requires Books(s) && t in s.tasks && s.tasks[t].Request?
    ensures Books(s.(timers := s.timers[t := Timer(s.tasks[t].id, s.tasks[t].command)]))
  {
    hide Barred, Answered;
    var r := s.(timers := s.timers[t := Timer(s.tasks[t].id, s.tasks[t].command)]);
    FrameBarred(s, r);
    FrameAnswered(s, r);
    assert TaskKeyed(s, t, s.tasks[t]);
    forall x | x in r.active ensures EntryKeyed(r, x, r.active[x]) { assert EntryKeyed(s, x, s.active[x]); }
  }

  lemma NoteStopBooks(s: State, id: Id)
    requires Placed(s) && Books(s)
    ensures Books(NoteStop(s, id))
  {
    hide Barred, Keyed;
    if s.owner.Some? {
      var o, w := s.owner.value, s.heap[s.owner.value];
      var v := w.(stopIds := w.stopIds + {id}, stopIssued := true, attached := w.attached + {id});
      var r := s.(heap := s.heap[o := v]);
      assert NoteStop(s, id) == r;
      hide NoteStop;
      FrameBarred(s, r);
      FrameKeyed(s, r);
      forall p | 0 <= p < |r.heap| ensures Settled(r, r.heap[p]) { assert Settled(s, s.heap[p]); }
    }
  }

  lemma RetiringWaits(s: State, t: nat, session: nat)
    requires Books(s) && t in s.tasks && s.tasks[t].Request? && s.tasks[t].command == SoftwareReset
    ensures Waits(s.(owner := None), s.tasks[t].(point := Retiring(session, s.active), after := None))
  {
    hide Keyed, Answered;
    assert Raised(s);
  }

  lemma RetiredWaits(s: State, t: nat, id: Id)
    requires Books(s) && t in s.tasks && s.tasks[t].Request? && s.tasks[t].point.Retiring? && id !in s.active
    ensures var p := s.tasks[t].point;
            Waits(s, s.tasks[t].(point := Retiring(p.session, p.rest - {id}), after := None))
  {
    hide Keyed, Answered;
    assert Waits(s, s.tasks[t]);
  }

  lemma FlagBooks(s: State, id: Id, e: Entry)
    requires Books(s) && id in s.active && e.command == s.active[id].command && e.request == s.active[id].request
    ensures Books(s.(active := s.active[id := e]))
  {
    hide Barred, Keyed, Answered;
    FlagBarred(s, id, e);
    FlagKeyed(s, id, e);
    FrameAnswered(s, s.(active := s.active[id := e]));
  }

  lemma FlagBarred(s: State, id: Id, e: Entry)
    requires Barred(s) && id in s.active && e.command == s.active[id].command
    ensures Barred(s.(active := s.active[id := e]))
  {
    var r := s.(active := s.active[id := e]);
    assert Raised(r);
    forall u | u in r.tasks ensures Waits(r, r.tasks[u]) { assert Waits(s, s.tasks[u]); }
    hide Raised, Waits;
  }

  lemma FlagKeyed(s: State, id: Id, e: Entry)
    requires Keyed(s) && id in s.active && e.command == s.active[id].command && e.request == s.active[id].request
    ensures Keyed(s.(active := s.active[id := e]))
  {
    var r := s.(active := s.active[id := e]);
    forall x | x in r.active ensures EntryKeyed(r, x, r.active[x]) { assert EntryKeyed(s, x, s.active[x]); }
  }

  /** Nobody who needs LiDAR is about to be sent. */
  ghost predicate NoneNeedsLidar(s: State) {
    forall t :: t in s.tasks && s.tasks[t].Request? && NeedsLidar(s.tasks[t].command)
      ==> !s.tasks[t].point.Auditing? && !s.tasks[t].point.Audited?
  }

  lemma RecoveryBooks(s: State, b: bool)
    requires Books(s) && (b ==> NoneNeedsLidar(s))
    ensures Books(s.(recovery := b))
  {
    hide Keyed, Answered;
    var r := s.(recovery := b);
    FrameKeyed(s, r);
    FrameAnswered(s, r);
    forall u | u in r.tasks ensures Waits(r, r.tasks[u]) { assert Waits(s, s.tasks[u]); }
  }

  /** While LiDAR power is open nobody who needs it is about to be sent. */
  lemma PendingLidarBlocks(s: State, id: Id)
    requires Books(s) && id in s.active && s.active[id].command == SetLidarPower
    ensures NoneNeedsLidar(s)
  {
    hide Keyed, Answered;
    assert Raised(s) && s.lidarPending == Some(id);
    forall t | t in s.tasks && s.tasks[t].Request? && NeedsLidar(s.tasks[t].command)
      ensures !s.tasks[t].point.Auditing? && !s.tasks[t].point.Audited?
    {
      assert Waits(s, s.tasks[t]);
    }
  }

  // ---- Duplicates ---------------------------------------------------------------------

  /** A forward belongs to a request of its id, which has launched it. */
  ghost predicate Launched(s: State, f: Forward) {
    && f.request in s.asked && s.asked[f.request] == f.id
    && (f.request in s.tasks && s.tasks[f.request].Request? ==> Published(s.tasks[f.request].point))
  }

  /** No request was forwarded twice. */
  ghost predicate Posted(s: State) {
    && (forall i {:trigger s.forwarded[i]} :: 0 <= i < |s.forwarded| ==> Launched(s, s.forwarded[i]))
    && (forall i, j :: 0 <= i < j < |s.forwarded| ==> s.forwarded[i].request != s.forwarded[j].request)
  }

  /** No lock-taking command was forwarded under this id. */
  ghost predicate NotSent(forwarded: seq<Forward>, id: Id) {
    forall i :: 0 <= i < |forwarded| && !Bypasses(forwarded[i].command) ==> forwarded[i].id != id
  }

  /** Every command was recorded before it was forwarded, none was on record when the server
      started, and no two lock-taking ones were forwarded under one id. */
  ghost predicate Ledger(s: State) {
    && s.former <= s.audit
    && (forall i :: 0 <= i < |s.forwarded| ==> s.forwarded[i].id in s.audit && s.forwarded[i].id !in s.former)
    && (forall i, j :: 0 <= i < j < |s.forwarded|
                       && !Bypasses(s.forwarded[i].command) && !Bypasses(s.forwarded[j].command)
          ==> s.forwarded[i].id != s.forwarded[j].id)
  }

  /** What a request has behind it once the audit table has called its id new. */
  ghost predicate Cleared(s: State, q: Task) {
    q.Request? ==>
      && (q.point == Looked(false) || Unpublished(q.point) ==>
            q.id !in s.former && (!Bypasses(q.command) ==> NotSent(s.forwarded, q.id)))
      && (q.point.Audited? || q.point.Retiring? ==> q.id in s.audit)
  }

  ghost predicate Accounted(s: State) {
    Posted(s) && (s.hasDb ==> Ledger(s) && forall t :: t in s.tasks ==> Cleared(s, s.tasks[t]))
  }

  /** Requests may come and go, but none that was launched becomes unlaunched. */
  ghost predicate Onward(s: State, r: State) {
    && (forall t :: t in s.asked ==> t in r.asked && r.asked[t] == s.asked[t])
    && (forall t :: t in r.tasks && r.tasks[t].Request? && t in s.asked ==>
          t in s.tasks && s.tasks[t].Request? && (Published(s.tasks[t].point) ==> Published(r.tasks[t].point)))
  }

  /** The history of forwards and the audit table go on as they were, or grow. */
  predicate Continues(s: State, r: State) {
    && r.hasDb == s.hasDb && r.former == s.former && r.forwarded == s.forwarded && s.audit <= r.audit
  }

  lemma FrameAccounted(s: State, r: State)
    requires Accounted(s) && Continues(s, r) && r.tasks == s.tasks && r.asked == s.asked
    ensures Accounted(r)
  {
    FramePosted(s, r);
    hide Posted;
  }

  lemma PutAccounted(s: State, r: State, t: nat, task: Task)
    requires Accounted(s) && Continues(s, r) && r.asked == s.asked && r.tasks == s.tasks[t := task]
    requires task.Request? ==>
               t in s.tasks && s.tasks[t].Request? && (Published(s.tasks[t].point) ==> Published(task.point))
    requires s.hasDb ==> Cleared(r, task)
    ensures Accounted(r)
  {
    FramePosted(s, r);
    hide Posted;
  }

  lemma EndAccounted(s: State, r: State, t: nat)
    requires Accounted(s) && Continues(s, r) && r.asked == s.asked && r.tasks == s.tasks - {t}
    ensures Accounted(r)
  {
    FramePosted(s, r);
    hide Posted;
  }

  lemma AskAccounted(s: State, r: State, t: nat, q: Task)
    requires Accounted(s) && Continues(s, r) && t !in s.asked && q.Request? && q.point.Waiting?
    requires r.asked == s.asked[t := q.id] && r.tasks == s.tasks[t := q]
    ensures Accounted(r)
  {
    FramePosted(s, r);
    hide Posted;
  }

  lemma FramePosted(s: State, r: State)
    requires Posted(s) && r.forwarded == s.forwarded && Onward(s, r)
    ensures Posted(r)
  {
    forall i | 0 <= i < |r.forwarded| ensures Launched(r, r.forwarded[i]) { assert Launched(s, s.forwarded[i]); }
  }

  /** The state in which the launched request `t` has been forwarded. */
  ghost function Transmitted(s: State, t: nat, session: nat, stale: Option<nat>): State
    requires t in s.tasks && s.tasks[t].Request?
  {
    Launch(s, t, session, stale).(forwarded := s.forwarded + [Forward(s.tasks[t].command, s.tasks[t].id, t)])
  }

  lemma ForwardAccounted(s: State, t: nat, session: nat, stale: Option<nat>)
    requires Accounted(s) && Keyed(s) && Locking(s) && t in s.tasks && s.tasks[t].Request?
    requires s.tasks[t].point.Audited? || s.tasks[t].point.Retiring?
    requires !Bypasses(s.tasks[t].command) ==> s.lock == Some(t)
    ensures Accounted(Transmitted(s, t, session, stale))
  {
    ForwardPosted(s, t, session, stale);
    hide Posted;
    var r := Transmitted(s, t, session, stale);
    if s.hasDb {
      assert Cleared(s, s.tasks[t]);
      forall u | u in r.tasks ensures Cleared(r, r.tasks[u]) {
        assert Cleared(s, s.tasks[u]);
        if u != t && s.tasks[u].Request? && !Bypasses(s.tasks[u].command) && !Bypasses(s.tasks[t].command) {
          assert !Locked(s.tasks[u]);
        }
      }
    }
  }

  lemma ForwardPosted(s: State, t: nat, session: nat, stale: Option<nat>)
    requires Posted(s) && Keyed(s) && t in s.tasks && s.tasks[t].Request? && Unpublished(s.tasks[t].point)
    ensures Posted(Transmitted(s, t, session, stale))
  {
    var r := Transmitted(s, t, session, stale);
    assert TaskKeyed(s, t, s.tasks[t]);
    forall i | 0 <= i < |s.forwarded| ensures Launched(r, s.forwarded[i]) && s.forwarded[i].request != t {
      assert Launched(s, s.forwarded[i]);
    }
  }
}
