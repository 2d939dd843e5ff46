/**
 The invariant of the manual-drive protocol that holds whatever ids the browsers
 choose: the admission lock, the owners, what an admitted request may rely on,
 exclusion of other open commands, and the send path; and what a later state of
 a run owes an earlier one.
 */
module ManualInvariant {
  import opened Options
  import opened TuningPolicy
  import opened ManualDrive

  // ---- The invariant --------------------------------------------------------

  /** Inside the handler, past its first refusals. */
  predicate Inside(p: Point) { !p.Waiting? && !p.Refusing? }

  /** Inside the handler and not yet past the duplicate check. */
  predicate Screening(p: Point) { p.Checking? || p.Looking? || p.Looked? }

  predicate IsStart(q: Task) { q.Request? && q.command == TeleopStart }

  predicate Locked(q: Task) { q.Request? && !Bypasses(q.command) && !q.point.Waiting? }

  /** At most one lock-taking request is past the lock. */
  ghost predicate Locking(s: State) {
    forall t :: t in s.tasks && Locked(s.tasks[t]) ==> s.lock == Some(t)
  }

  /** Only the current owner can be pending or active, and only while nothing has
      been revoked since its request arrived. */
  ghost predicate Owning(s: State) {
    && (forall o :: 0 <= o < |s.heap| ==> OwnerStands(s.heap[o], s.owner == Some(o), s.revision, s.next))
    && (forall t :: t in s.tasks && s.tasks[t].Request? ==> s.tasks[t].arrival <= s.revision)
  }

  predicate OwnerStands(w: Owner, current: bool, revision: nat, next: nat) {
    && (Live(w.phase) ==> current && w.arrival == revision && !w.startTerminal)
    && w.request < next && w.arrival <= revision
    && InEnvelope(w.policy)
  }

  /** What a request inside the handler may rely on while it holds the lock: there is
      no owner, or its own, or one that a reset has already ended. */
  predicate MayStand(s: State, q: Task, t: nat, point: Point)
    requires q.Request? && (s.owner.Some? ==> s.owner.value < |s.heap|)
  {
    Inside(point) && !Bypasses(q.command) && s.owner.Some? ==>
      var w := s.heap[s.owner.value];
      || (q.command == TeleopStart && !Screening(point) && w.request == t && w.command == q.id)
      || (q.command == SoftwareReset && !Live(w.phase)
          && !point.Retiring? && !point.Forwarding? && !point.Reporting? && !point.Doubting?)
  }

  ghost predicate Relies(s: State, t: nat)
    requires Formed(s) && t in s.tasks && s.tasks[t].Request?
  {
    MayStand(s, s.tasks[t], t, s.tasks[t].point)
  }

  ghost predicate Admitting(s: State)
    requires Formed(s)
  {
    forall t {:trigger s.tasks[t]} :: t in s.tasks && s.tasks[t].Request? ==> Relies(s, t)
  }

  ghost predicate Exclusive(s: State)
    requires Formed(s)
  {
    s.owner.Some? ==>
      forall id :: id in s.active ==>
        || Bypasses(s.active[id].command)
        || (s.active[id].command == TeleopStart && id == s.heap[s.owner.value].command)
  }

  /** A write is in flight exactly while its task holds the owner's send lock. */
  ghost predicate SendTask(s: State, t: nat)
    requires Formed(s) && t in s.tasks
  {
    match s.tasks[t]
    case Velocity(o, frame, stage) =>
      && stage != Deciding && (stage == Writing ==> s.heap[o].sendLock == Some(t))
      && ValidFrame(frame) && frame.command == s.heap[o].command
      && (frame.deadman ==> !OverPolicy(s.heap[o].policy, frame.linear, frame.angular))
    case Revoke(o, serial, issueStop, stage) =>
      && (stage == Writing ==> s.heap[o].sendLock == Some(t))
      && !Live(s.heap[o].phase)
    case _ => true
  }

  predicate Holds(tasks: map<nat, Task>, o: nat, w: Owner) {
    w.sendLock.Some? ==>
      var t := w.sendLock.value;
      t in tasks && (tasks[t].Velocity? || tasks[t].Revoke?) && tasks[t].owner == o && tasks[t].stage == Writing
  }

  ghost predicate Sendings(s: State)
    requires Formed(s)
  {
    && (forall t {:trigger s.tasks[t]} :: t in s.tasks ==> SendTask(s, t))
    && (forall o :: 0 <= o < |s.heap| ==> Holds(s.tasks, o, s.heap[o]))
  }

  ghost predicate WriteStands(s: State, w: Write) {
    && w.owner < |s.heap|
    && w.frame.command == s.heap[w.owner].command
    && (w.frame.deadman ==> !OverPolicy(s.heap[w.owner].policy, w.frame.linear, w.frame.angular))
    && (!w.frame.deadman ==> w.frame.linear == 0.0 && w.frame.angular == 0.0)
    && (w.byRevoke ==> !w.frame.deadman && !Live(s.heap[w.owner].phase))
  }

  ghost predicate Wired(s: State) {
    && (forall i {:trigger s.wire[i]} :: 0 <= i < |s.wire| ==> WriteStands(s, s.wire[i]))
    && (forall i, j :: 0 <= i < j < |s.wire| && s.wire[i].byRevoke && s.wire[i].owner == s.wire[j].owner
          ==> !s.wire[j].frame.deadman)
  }

  // ---- What a later state owes an earlier one ------------------------------------

  /** An earlier moment of the run, and a length of the wire trace. */
  datatype Mark = Mark(base: State, writes: nat)

  /** What may happen to an owner: never its identity, and never back to life. */
  predicate Aged(w: Owner, v: Owner) {
    && v.command == w.command && v.client == w.client && v.binding == w.binding && v.policy == w.policy
    && v.request == w.request && v.arrival == w.arrival
    && Rank(w.phase) <= Rank(v.phase) && (w.startTerminal ==> v.startTerminal) && w.attached <= v.attached
  }

  ghost predicate Later(b: State, s: State) {
    && b.revision <= s.revision && b.next <= s.next && b.wire <= s.wire && b.hasDb == s.hasDb && b.former == s.former
    && |b.heap| <= |s.heap| && (forall o :: 0 <= o < |b.heap| ==> Aged(b.heap[o], s.heap[o]))
  }

  /** A start that had arrived by the marked moment still carries a revision no
      newer than that moment's, as a request and as an owner. */
  ghost predicate OldStarts(b: State, s: State) {
    && (forall t :: t in s.tasks && t < b.next && IsStart(s.tasks[t])
          ==> s.tasks[t].arrival <= b.revision)
    && (forall o :: 0 <= o < |s.heap| && s.heap[o].request < b.next ==> s.heap[o].arrival <= b.revision)
  }

  /** Every moving frame written after the mark belongs to a start that arrived after it. */
  ghost predicate Quiet(m: Mark, s: State) {
    forall i :: m.writes <= i < |s.wire| && s.wire[i].frame.deadman ==>
      s.wire[i].owner < |s.heap| && m.base.next <= s.heap[s.wire[i].owner].request
  }

  ghost predicate Past(m: Mark, s: State) {
    Later(m.base, s) && OldStarts(m.base, s) && Quiet(m, s)
  }

  /** The invariant without the send path. */
  ghost predicate Standing(s: State) {
    Formed(s) && Locking(s) && Owning(s) && Admitting(s) && Exclusive(s)
  }

  ghost predicate Sound(s: State) { Standing(s) && Sendings(s) && Wired(s) }

  // ---- Single changes ---------------------------------------------------------------

  predicate Ages(w: Owner, v: Owner) {
    Aged(w, v) && (Live(v.phase) ==> !v.startTerminal)
  }

  lemma UpdateOwnerSound(s: State, o: nat, v: Owner)
    requires Sound(s) && o < |s.heap| && Ages(s.heap[o], v) && v.sendLock == s.heap[o].sendLock
    ensures Sound(s.(heap := s.heap[o := v]))
  {
    OwnerStanding(s, o, v);
    OwnerSending(s, o, v);
    OwnerWired(s, o, v);
    hide Standing, Wired;
  }

  lemma OwnerStanding(s: State, o: nat, v: Owner)
    requires Standing(s) && o < |s.heap| && Ages(s.heap[o], v)
    ensures Standing(s.(heap := s.heap[o := v]))
  {}

  lemma OwnerSending(s: State, o: nat, v: Owner)
    requires Formed(s) && Sendings(s) && o < |s.heap| && Ages(s.heap[o], v) && v.sendLock == s.heap[o].sendLock
    ensures Formed(s.(heap := s.heap[o := v])) && Sendings(s.(heap := s.heap[o := v]))
  {
    var r := s.(heap := s.heap[o := v]);
    forall t | t in r.tasks ensures SendTask(r, t) { assert SendTask(s, t); }
    forall p | 0 <= p < |r.heap| ensures Holds(r.tasks, p, r.heap[p]) { assert Holds(s.tasks, p, s.heap[p]); }
  }

  lemma OwnerWired(s: State, o: nat, v: Owner)
    requires Wired(s) && o < |s.heap| && Ages(s.heap[o], v)
    ensures Wired(s.(heap := s.heap[o := v]))
  {
    var r := s.(heap := s.heap[o := v]);
    forall i | 0 <= i < |r.wire| ensures WriteStands(r, r.wire[i]) { assert WriteStands(s, s.wire[i]); }
  }

  lemma UpdateOwnerPast(m: Mark, s: State, o: nat, v: Owner)
    requires Past(m, s) && o < |s.heap| && Aged(s.heap[o], v)
    ensures Past(m, s.(heap := s.heap[o := v]))
  {}

  /** Tasks, lock, revision and owner may change freely as far as the past is
      concerned, if no old start appears. */
  lemma TasksPast(m: Mark, s: State, r: State)
    requires Past(m, s) && r.heap == s.heap && r.wire == s.wire && r.hasDb == s.hasDb && r.former == s.former
    requires s.revision <= r.revision && s.next <= r.next
    requires forall t :: t in r.tasks && t < m.base.next && IsStart(r.tasks[t]) ==>
               t in s.tasks && IsStart(s.tasks[t]) && s.tasks[t].arrival == r.tasks[t].arrival
    ensures Past(m, r)
  {}

  lemma BumpSound(s: State, n: nat)
    requires Sound(s) && n >= s.next
    requires s.owner.Some? ==> !Live(s.heap[s.owner.value].phase)
    ensures Sound(s.(revision := s.revision + 1, next := n))
  {}

  lemma DropOwnerSound(s: State)
    requires Sound(s)
    requires s.owner.Some? ==> !Live(s.heap[s.owner.value].phase)
    ensures Sound(s.(owner := None))
  {}

  /** A task at rest: it holds no lock and writes nothing. */
  ghost predicate AtRest(s: State, task: Task)
    requires Formed(s)
  {
    match task
    case Request(_, _, _, _, arrival, point, _) => arrival <= s.revision && point == Waiting
    case Revoke(o, _, _, stage) => stage != Writing && o < |s.heap| && !Live(s.heap[o].phase)
    case Velocity(o, frame, stage) =>
      && stage == Queued && o < |s.heap| && ValidFrame(frame) && frame.command == s.heap[o].command
      && (frame.deadman ==> !OverPolicy(s.heap[o].policy, frame.linear, frame.angular))
    case Doubt(_, _, _) => true
  }

  ghost predicate Free(s: State, t: nat) {
    forall o :: 0 <= o < |s.heap| ==> s.heap[o].sendLock != Some(t)
  }

  lemma PutAtRestSound(s: State, t: nat, task: Task)
    requires Sound(s) && t < s.next && AtRest(s, task) && Free(s, t)
    ensures Sound(Put(s, t, task))
  {}

  lemma EndSound(s: State, t: nat)
    requires Sound(s) && Free(s, t)
    ensures Sound(End(s, t))
  {}

  lemma PutRequestSound(s: State, t: nat, q: Task)
    requires Sound(s) && t in s.tasks && s.tasks[t].Request? && q.Request?
    requires q.arrival == s.tasks[t].arrival && q.command == s.tasks[t].command && (Locked(q) ==> s.lock == Some(t))
    requires MayStand(s, q, t, q.point)
    ensures Sound(Put(s, t, q))
  {}

  lemma LockSound(s: State, t: nat)
    requires Sound(s) && s.lock.None?
    ensures Sound(s.(lock := Some(t)))
  {}

  lemma ActiveSound(s: State, active: map<Id, Entry>)
    requires Sound(s)
    requires s.owner.Some? ==> forall id :: id in active ==>
      (id in s.active && active[id].command == s.active[id].command) || Bypasses(active[id].command)
      || (active[id].command == TeleopStart && id == s.heap[s.owner.value].command)
    ensures Sound(s.(active := active))
  {}

  /** Nothing here depends on the remaining fields. */
  lemma RestSound(s: State, r: State)
    requires Sound(s)
    requires r.tasks == s.tasks && r.next == s.next && r.lock == s.lock && r.revision == s.revision
    requires r.owner == s.owner && r.heap == s.heap && r.active == s.active && r.wire == s.wire
    ensures Sound(r)
  {}

  lemma NewOwnerPast(m: Mark, s: State, w: Owner)
    requires Past(m, s) && (w.request < m.base.next ==> w.arrival <= m.base.revision)
    ensures Past(m, s.(heap := s.heap + [w]))
  {}

  /** prepare: the request that holds the lock gains an owner and moves on. */
  lemma NewOwnerSound(s: State, t: nat, w: Owner, q: Task)
    requires Sound(s) && s.owner.None? && s.active == map[]
    requires t in s.tasks && IsStart(s.tasks[t]) && Locked(s.tasks[t])
    requires IsStart(q) && q.id == w.command && !Screening(q.point) && q.arrival <= s.revision
    requires w.request == t && w.arrival == s.revision && InEnvelope(w.policy)
    requires w.phase == Pending && !w.startTerminal && w.sendLock.None?
    ensures Sound(Put(s.(heap := s.heap + [w], owner := Some(|s.heap|)), t, q))
  {}

  /** The state in which task `t` has begun to write. */
  ghost function Begun(s: State, t: nat): State
    requires Formed(s) && t in s.tasks && (s.tasks[t].Velocity? || s.tasks[t].Revoke?)
  {
    var o := s.tasks[t].owner;
    Put(s.(heap := s.heap[o := s.heap[o].(sendLock := Some(t))],
           wire := s.wire + [Write(o, FrameOf(s, t), s.tasks[t].Revoke?)]),
        t, s.tasks[t].(stage := Writing))
  }

  lemma WritePast(m: Mark, s: State, w: Write)
    requires Past(m, s) && w.owner < |s.heap|
    requires |s.wire| < m.writes || m.base.revision < s.revision
    requires w.frame.deadman ==> s.heap[w.owner].arrival == s.revision
    ensures Past(m, s.(wire := s.wire + [w]))
  {}

  lemma WritingSound(s: State, t: nat)
    requires Sound(s) && t in s.tasks && (s.tasks[t].Velocity? || s.tasks[t].Revoke?)
    requires s.tasks[t].stage == Queued && s.heap[s.tasks[t].owner].sendLock.None?
    requires FrameOf(s, t).deadman ==> s.heap[s.tasks[t].owner].phase == Active
    ensures Sound(Begun(s, t))
  {
    WritingStanding(s, t);
    WritingSending(s, t);
    WritingWired(s, t);
    hide *;
  }

  lemma WritingStanding(s: State, t: nat)
    requires Standing(s) && t in s.tasks && (s.tasks[t].Velocity? || s.tasks[t].Revoke?)
    ensures Standing(Begun(s, t))
  {}

  lemma WritingSending(s: State, t: nat)
    requires Formed(s) && Sendings(s) && t in s.tasks && (s.tasks[t].Velocity? || s.tasks[t].Revoke?)
    requires s.heap[s.tasks[t].owner].sendLock.None?
    ensures Formed(Begun(s, t)) && Sendings(Begun(s, t))
  {
    hide FrameOf;
    var r := Begun(s, t);
    forall u | u in r.tasks ensures SendTask(r, u) { assert SendTask(s, u); }
    forall p | 0 <= p < |r.heap| ensures Holds(r.tasks, p, r.heap[p]) { assert Holds(s.tasks, p, s.heap[p]); }
  }

  lemma WritingWired(s: State, t: nat)
    requires Formed(s) && Sendings(s) && Wired(s) && t in s.tasks && (s.tasks[t].Velocity? || s.tasks[t].Revoke?)
    requires FrameOf(s, t).deadman ==> s.heap[s.tasks[t].owner].phase == Active
    ensures Wired(Begun(s, t))
  {
    assert SendTask(s, t);
    hide Sendings;
  }

  /** The owner `v` that remains when task `t` gives back the send lock. */
  ghost predicate Unlocks(s: State, t: nat, v: Owner)
    requires Formed(s)
  {
    && t in s.tasks && (s.tasks[t].Velocity? || s.tasks[t].Revoke?)
    && var w := s.heap[s.tasks[t].owner];
    && Ages(w, v) && v.sendLock == if w.sendLock == Some(t) then None else w.sendLock
  }

  /** The send lock is given back and the task is gone. */
  lemma ReleaseSound(s: State, t: nat, v: Owner)
    requires Sound(s) && Unlocks(s, t, v)
    ensures Sound(End(s.(heap := s.heap[s.tasks[t].owner := v]), t))
  {
    var s1 := s.(heap := s.heap[s.tasks[t].owner := v]);
    OwnerStanding(s, s.tasks[t].owner, v);
    OwnerWired(s, s.tasks[t].owner, v);
    EndStanding(s1, t);
    EndWired(s1, t);
    ReleaseSending(s, t, v);
    hide *;
  }

  lemma EndStanding(s: State, t: nat)
    requires Standing(s)
    ensures Standing(End(s, t))
  {}

  lemma EndWired(s: State, t: nat)
    requires Wired(s)
    ensures Wired(End(s, t))
  {
    forall i | 0 <= i < |s.wire| ensures WriteStands(End(s, t), s.wire[i]) { assert WriteStands(s, s.wire[i]); }
  }

  lemma ReleaseSending(s: State, t: nat, v: Owner)
    requires Formed(s) && Sendings(s) && Unlocks(s, t, v)
    ensures var r := End(s.(heap := s.heap[s.tasks[t].owner := v]), t); Formed(r) && Sendings(r)
  {
    var r := End(s.(heap := s.heap[s.tasks[t].owner := v]), t);
    assert r.tasks == s.tasks - {t} && r.heap == s.heap[s.tasks[t].owner := v] && r.next == s.next &&
        r.owner == s.owner;
    hide End;
    UnlockedSending(s, t, v, r);
  }

  /** Without its writer the send lock is free, and the other tasks see no difference. */
  lemma UnlockedSending(s: State, t: nat, v: Owner, r: State)
    requires Formed(s) && Sendings(s) && Unlocks(s, t, v)
    requires r.heap == s.heap[s.tasks[t].owner := v] && r.next == s.next && r.owner == s.owner
    requires forall u :: u in s.tasks && u != t ==> u in r.tasks && r.tasks[u] == s.tasks[u]
    requires forall u :: u in r.tasks ==> u in s.tasks
    requires t in r.tasks ==> s.tasks[t].Revoke? && r.tasks[t].Revoke? && r.tasks[t].stage == Deciding
                              && r.tasks[t].owner == s.tasks[t].owner
    ensures Formed(r) && Sendings(r)
  {
    forall u | u in r.tasks ensures SendTask(r, u) { assert SendTask(s, u) && SendTask(s, t); }
    forall p | 0 <= p < |r.heap| ensures Holds(r.tasks, p, r.heap[p]) { assert Holds(s.tasks, p, s.heap[p]); }
  }

  /** The send lock is given back and the revoke goes on to its decision. */
  lemma RestingSound(s: State, t: nat, v: Owner, task: Task)
    requires Sound(s) && Unlocks(s, t, v) && s.tasks[t].Revoke? && task.Revoke? && task.stage == Deciding
    requires task.owner == s.tasks[t].owner
    ensures Sound(Put(s.(heap := s.heap[s.tasks[t].owner := v]), t, task))
  {
    var s1 := s.(heap := s.heap[s.tasks[t].owner := v]);
    OwnerStanding(s, s.tasks[t].owner, v);
    OwnerWired(s, s.tasks[t].owner, v);
    PutStanding(s1, t, task);
    PutWired(s1, t, task);
    RestingSending(s, t, v, task);
    hide *;
  }

  lemma PutStanding(s: State, t: nat, task: Task)
    requires Standing(s) && t in s.tasks && task.Revoke? && task.owner < |s.heap|
    ensures Standing(Put(s, t, task))
  {}

  lemma PutWired(s: State, t: nat, task: Task)
    requires Wired(s)
    ensures Wired(Put(s, t, task))
  {
    forall i | 0 <= i < |s.wire| ensures WriteStands(Put(s, t, task), s.wire[i]) { assert WriteStands(s, s.wire[i]); }
  }

  lemma RestingSending(s: State, t: nat, v: Owner, task: Task)
    requires Formed(s) && Sendings(s) && Unlocks(s, t, v) && s.tasks[t].Revoke? && task.Revoke?
    requires task.stage == Deciding
    requires task.owner == s.tasks[t].owner
    ensures var r := Put(s.(heap := s.heap[s.tasks[t].owner := v]), t, task); Formed(r) && Sendings(r)
  {
    var r := Put(s.(heap := s.heap[s.tasks[t].owner := v]), t, task);
    assert r.tasks == s.tasks[t := task] && r.heap == s.heap[s.tasks[t].owner := v] && r.next == s.next;
    assert r.owner == s.owner;
    hide Put;
    UnlockedSending(s, t, v, r);
  }

  /** The current owner stops being live and the revision moves on. */
  lemma SettleSound(s: State, v: Owner, n: nat)
    requires Sound(s) && n >= s.next && s.owner.Some?
    requires var w := s.heap[s.owner.value]; Ages(w, v) && !Live(v.phase) && v.sendLock == w.sendLock
    ensures Sound(s.(heap := s.heap[s.owner.value := v], revision := s.revision + 1, next := n))
  {
    var r := s.(heap := s.heap[s.owner.value := v], revision := s.revision + 1, next := n);
    OwnerSending(s, s.owner.value, v);
    OwnerWired(s, s.owner.value, v);
    FrameSends(s.(heap := r.heap), r);
    SettleStanding(s, v, n);
    hide *;
  }

  lemma SettleStanding(s: State, v: Owner, n: nat)
    requires Standing(s) && n >= s.next && s.owner.Some?
    requires var w := s.heap[s.owner.value]; Ages(w, v) && !Live(v.phase)
    ensures Standing(s.(heap := s.heap[s.owner.value := v], revision := s.revision + 1, next := n))
  {}

  lemma FrameSends(s: State, r: State)
    requires Formed(s) && Sendings(s) && Wired(s)
    requires r.tasks == s.tasks && r.heap == s.heap && r.wire == s.wire && s.next <= r.next && r.owner == s.owner
    ensures Formed(r) && Sendings(r) && Wired(r)
  {
    forall t | t in r.tasks ensures SendTask(r, t) { assert SendTask(s, t); }
    forall i | 0 <= i < |r.wire| ensures WriteStands(r, r.wire[i]) { assert WriteStands(s, s.wire[i]); }
  }
}
