/**
 What shared ids do to whole runs of the manual-drive protocol: the ownership books and
 the barriers hold exactly as long as no step clashes, they always hold while no two
 requests share an id, and there are runs in which they fail for good.
 */
module ManualSharing {
  import opened Options
  import opened ManualDrive
  import opened ManualBooks
  import opened ManualRuns
  import opened ManualClashes

  // ---- Over whole runs ---------------------------------------------------------------------------

  /** The exact step that breaks the books of the owner: one that puts a command of another
      kind in the place of one the owner waits for, or removes it as such a command. */
  lemma OwnershipBreaksExactly(s0: State, es: seq<Event>, e: Event)
    requires Started(s0) && Owned(Run(s0, es))
    ensures Owned(Run(s0, es + [e])) <==> !OwnerClash(Run(s0, es), e)
  {
    hide Good, Owned, OwnerClash, Apply;
    var s := LastStep(s0, es, e);
    StepFollows(s, e);
    hide Agreeing;
  }

  lemma BarriersBreakExactly(s0: State, es: seq<Event>, e: Event)
    requires Started(s0) && Agreeing(Run(s0, es))
    ensures Agreeing(Run(s0, es + [e])) <==> !BarrierClash(Run(s0, es), e)
  {
    hide Good, Agreeing, BarrierClash, Apply;
    var s := LastStep(s0, es, e);
    StepFollows(s, e);
    hide Owned;
  }

  lemma StartedBalanced(s0: State)
    requires Started(s0)
    ensures Owned(s0) && Agreeing(s0)
  {}

  lemma PrefixGrows(s0: State, es: seq<Event>, k: nat)
    requires k < |es|
    ensures es[..k + 1] == es[..k] + [es[k]]
  {}

  lemma {:induction false} OwnedSoFar(s0: State, es: seq<Event>, k: nat)
    requires Started(s0) && k <= |es|
    requires forall j :: 0 <= j < k ==> !OwnerClash(Run(s0, es[..j]), es[j])
    ensures Owned(Run(s0, es[..k]))
  {
    hide Owned, OwnerClash, Run, Started;
    if k == 0 {
      StartedBalanced(s0);
      assert es[..0] == [];
      EmptyRun(s0);
    } else {
      OwnedSoFar(s0, es, k - 1);
      PrefixGrows(s0, es, k - 1);
      OwnershipBreaksExactly(s0, es[..k - 1], es[k - 1]);
    }
  }

  lemma {:induction false} AgreeingSoFar(s0: State, es: seq<Event>, k: nat)
    requires Started(s0) && k <= |es|
    requires forall j :: 0 <= j < k ==> !BarrierClash(Run(s0, es[..j]), es[j])
    ensures Agreeing(Run(s0, es[..k]))
  {
    hide Agreeing, BarrierClash, Run, Started;
    if k == 0 {
      StartedBalanced(s0);
      assert es[..0] == [];
      EmptyRun(s0);
    } else {
      AgreeingSoFar(s0, es, k - 1);
      PrefixGrows(s0, es, k - 1);
      BarriersBreakExactly(s0, es[..k - 1], es[k - 1]);
    }
  }

  lemma EmptyRun(s0: State)
    ensures Run(s0, []) == s0
  {}

  /** While a session lasts, its start and each of its stops is either answered or still in
      the open table as what it is, at every moment of a run, if and only if no step of the
      run robs the owner. */
  lemma OwnershipIsConserved(s0: State, es: seq<Event>)
    requires Started(s0)
    ensures (forall k :: 0 <= k <= |es| ==> Owned(Run(s0, es[..k])))
       <==> (forall k :: 0 <= k < |es| ==> !OwnerClash(Run(s0, es[..k]), es[k]))
  {
    hide Owned, OwnerClash, Run, Started;
    if forall k :: 0 <= k < |es| ==> !OwnerClash(Run(s0, es[..k]), es[k]) {
      forall k | 0 <= k <= |es| ensures Owned(Run(s0, es[..k])) { OwnedSoFar(s0, es, k); }
    }
    if forall k :: 0 <= k <= |es| ==> Owned(Run(s0, es[..k])) {
      forall k | 0 <= k < |es| ensures !OwnerClash(Run(s0, es[..k]), es[k]) {
        assert Owned(Run(s0, es[..k]));
        assert Owned(Run(s0, es[..k + 1]));
        PrefixGrows(s0, es, k);
        OwnershipBreaksExactly(s0, es[..k], es[k]);
      }
    }
  }

  /** Each barrier names an open command of its kind at every moment of a run if and only if
      no step of the run strands it. (That an open one is always named needs no condition.) */
  lemma BarriersAgree(s0: State, es: seq<Event>)
    requires Started(s0)
    ensures (forall k :: 0 <= k <= |es| ==> Agreeing(Run(s0, es[..k])))
       <==> (forall k :: 0 <= k < |es| ==> !BarrierClash(Run(s0, es[..k]), es[k]))
  {
    hide Agreeing, BarrierClash, Run, Started;
    if forall k :: 0 <= k < |es| ==> !BarrierClash(Run(s0, es[..k]), es[k]) {
      forall k | 0 <= k <= |es| ensures Agreeing(Run(s0, es[..k])) { AgreeingSoFar(s0, es, k); }
    }
    if forall k :: 0 <= k <= |es| ==> Agreeing(Run(s0, es[..k])) {
      forall k | 0 <= k < |es| ensures !BarrierClash(Run(s0, es[..k]), es[k]) {
        assert Agreeing(Run(s0, es[..k]));
        assert Agreeing(Run(s0, es[..k + 1]));
        PrefixGrows(s0, es, k);
        BarriersBreakExactly(s0, es[..k], es[k]);
      }
    }
  }

  // ---- Distinct ids suffice -------------------------------------------------------------------------

  function IdOf(e: Event): seq<Id> {
    match e
    case Arrives(_, id, _, _) => [id]
    case Decides(_, id) => [id]
    case _ => []
  }

  /** The ids of all requests, from browsers and from the server's own stops. */
  function RequestIds(es: seq<Event>): seq<Id> {
    if es == [] then [] else RequestIds(es[..|es| - 1]) + IdOf(es[|es| - 1])
  }

  ghost predicate Distinct(ids: seq<Id>) {
    forall i, j :: 0 <= i < j < |ids| ==> ids[i] != ids[j]
  }

  ghost predicate Injective(asked: map<nat, Id>) {
    forall t, u :: t in asked && u in asked && asked[t] == asked[u] ==> t == u
  }

  /** Only arrivals and the server's own stops bring a request. */
  lemma StepAsks(s: State, e: Event)
    requires Formed(s) && Good(s)
    ensures var r := Apply(s, e);
            r.asked == s.asked || exists t: nat :: t !in s.asked && IdOf(e) != [] && r.asked == s.asked[t := IdOf(e)[0]]
  {
    hide Good, Apply;
    GoodKeyed(s);
    hide Keyed;
    StepTouches(s, e);
    if e.Arrives? { assert Asks(s, Apply(s, e), s.next, IdOf(e)[0]); }
    if e.Decides? { assert Asks(s, Apply(s, e), e.t, IdOf(e)[0]); }
  }

  /** Distinct ids stay told apart. */
  lemma {:induction false} AskedApart(s0: State, es: seq<Event>)
    requires Started(s0) && Distinct(RequestIds(es))
    ensures var r := Run(s0, es);
            Injective(r.asked) && forall t :: t in r.asked ==> r.asked[t] in RequestIds(es)
    decreases |es|
  {
    hide Good, Apply, Run, IdOf;
    if es == [] {
      EmptyRun(s0);
    } else {
      var a, e := es[..|es| - 1], es[|es| - 1];
      assert es == a + [e] && RequestIds(es) == RequestIds(a) + IdOf(e);
      DistinctParts(RequestIds(a), IdOf(e));
      AskedApart(s0, a);
      var s := LastStep(s0, a, e);
      StepAsks(s, e);
      hide Started, RequestIds;
      assert forall t :: t in s.asked ==> s.asked[t] in RequestIds(a);
    }
  }

  lemma DistinctParts(a: seq<Id>, b: seq<Id>)
    requires Distinct(a + b)
    ensures Distinct(a) && (b != [] ==> b[0] !in a)
  {
    assert forall i :: 0 <= i < |a| ==> (a + b)[i] == a[i];
    assert b != [] ==> (a + b)[|a|] == b[0];
  }

  /** While no two requests share an id, a step only takes or clears its own place. */
  lemma ApartNeverClashes(s: State, e: Event)
    requires Formed(s) && Good(s) && Injective(s.asked)
    ensures Owned(s) ==> !OwnerClash(s, e)
    ensures Agreeing(s) ==> !BarrierClash(s, e)
  {
    hide Good, Owned, Agreeing;
    GoodKeyed(s);
    if Taken(s, e).Some? {
      var x := Taken(s, e).value;
      OwnPlace(s, e, x);
      hide Taken, Keyed, Injective;
      if x.id in s.active { UnclashedPlace(s, x); } else { EmptyPlace(s, x); }
    }
  }

  /** What is open under the id of the step is of the step's own kind. */
  lemma OwnPlace(s: State, e: Event, x: Slot)
    requires Formed(s) && Keyed(s) && Injective(s.asked) && Taken(s, e) == Some(x)
    ensures x.id in s.active ==> s.active[x.id].command == x.command
  {
    if x.id in s.active {
      assert EntryKeyed(s, x.id, s.active[x.id]);
      if e.Publishes? || e.Sends? { assert TaskKeyed(s, e.t, s.tasks[e.t]); }
    }
  }

  lemma UnclashedPlace(s: State, x: Slot)
    requires Placed(s) && x.id in s.active && s.active[x.id].command == x.command
    ensures Owned(s) ==> !Robs(s, x)
    ensures Agreeing(s) ==> !Strands(s, x)
  {}

  lemma EmptyPlace(s: State, x: Slot)
    requires Placed(s) && x.id !in s.active
    ensures Owned(s) ==> !Robs(s, x)
    ensures Agreeing(s) ==> !Strands(s, x)
  {}

  lemma {:induction false} DistinctSoFar(s0: State, es: seq<Event>)
    requires Started(s0) && Distinct(RequestIds(es))
    ensures Owned(Run(s0, es)) && Agreeing(Run(s0, es))
    ensures es != [] ==>
              var s := Run(s0, es[..|es| - 1]);
              !OwnerClash(s, es[|es| - 1]) && !BarrierClash(s, es[|es| - 1])
    decreases |es|
  {
    hide Good, Apply, Run, IdOf, Owned, Agreeing, OwnerClash, BarrierClash;
    if es == [] {
      EmptyRun(s0);
      StartedBalanced(s0);
    } else {
      var a, e := es[..|es| - 1], es[|es| - 1];
      assert es == a + [e] && RequestIds(es) == RequestIds(a) + IdOf(e);
      DistinctParts(RequestIds(a), IdOf(e));
      DistinctSoFar(s0, a);
      AskedApart(s0, a);
      var s := LastStep(s0, a, e);
      hide Started, RequestIds, Injective;
      ApartNeverClashes(s, e);
      OwnershipBreaksExactly(s0, a, e);
      BarriersBreakExactly(s0, a, e);
    }
  }

  lemma {:induction false} DistinctPrefix(es: seq<Event>, k: nat)
    requires k <= |es| && Distinct(RequestIds(es))
    ensures Distinct(RequestIds(es[..k]))
  {
    hide IdOf;
    if k == |es| {
      assert es[..k] == es;
    } else {
      var a, e := es[..|es| - 1], es[|es| - 1];
      assert a[..k] == es[..k];
      DistinctParts(RequestIds(a), IdOf(e));
      DistinctPrefix(a, k);
    }
  }

  /** If no two requests of a run share an id, nothing is ever robbed or stranded: what an
      owner waits for stays open, and both barriers name open commands of their kind. */
  lemma DistinctIdsSuffice(s0: State, es: seq<Event>)
    requires Started(s0) && Distinct(RequestIds(es))
    ensures forall k :: 0 <= k <= |es| ==> Owned(Run(s0, es[..k])) && Agreeing(Run(s0, es[..k]))
    ensures forall k :: 0 <= k < |es| ==> !OwnerClash(Run(s0, es[..k]), es[k]) && !BarrierClash(Run(s0, es[..k]), es[k])
  {
    hide Started, Distinct, RequestIds, Run, Owned, Agreeing, OwnerClash, BarrierClash;
    forall k | 0 <= k <= |es| ensures Owned(Run(s0, es[..k])) && Agreeing(Run(s0, es[..k])) {
      DistinctPrefix(es, k);
      DistinctSoFar(s0, es[..k]);
    }
    forall k | 0 <= k < |es|
      ensures !OwnerClash(Run(s0, es[..k]), es[k]) && !BarrierClash(Run(s0, es[..k]), es[k])
    {
      DistinctPrefix(es, k + 1);
      DistinctSoFar(s0, es[..k + 1]);
      assert es[..k + 1][..k] == es[..k];
    }
  }

  /** And no id is forwarded twice, with or without a database. */
  lemma DistinctIdsForwardOnce(s0: State, es: seq<Event>, i: nat, j: nat)
    requires Started(s0) && Distinct(RequestIds(es))
    ensures var r := Run(s0, es); i < j < |r.forwarded| ==> r.forwarded[i].id != r.forwarded[j].id
  {
    hide Started, Distinct, RequestIds, Run;
    AskedApart(s0, es);
    NoDuplicateForwards(s0, es, i, j);
  }

  // ---- A barrier that no command can clear --------------------------------------------------------

  /** LiDAR power is pending under an id, and no open command and no reset at work could
      clear it. */
  ghost predicate LidarStranded(s: State, x: Id) {
    && s.lidarPending == Some(x)
    && (forall y :: y in s.active ==> s.active[y].command != SetLidarPower)
    && (forall t :: t in s.tasks ==> NoLidarIn(s.tasks[t]))
  }

  predicate NoLidarIn(q: Task) {
    q.Request? && q.point.Retiring? ==> forall y :: y in q.point.rest ==> q.point.rest[y].command != SetLidarPower
  }

  lemma KeepsStranded(s: State, r: State, x: Id)
    requires Keeps(s, r) && LidarStranded(s, x)
    ensures LidarStranded(r, x)
  {
    forall t | t in r.tasks ensures NoLidarIn(r.tasks[t]) {
      if r.tasks[t].Request? && r.tasks[t].point.Retiring? { assert NoLidarIn(s.tasks[t]); }
    }
  }

  lemma FrameStranded(s: State, r: State, x: Id)
    requires LidarStranded(s, x)
    requires r.tasks == s.tasks && r.active == s.active && r.lidarPending == s.lidarPending
    ensures LidarStranded(r, x)
  {
    forall t | t in r.tasks ensures NoLidarIn(r.tasks[t]) { assert NoLidarIn(s.tasks[t]); }
  }

  lemma PutStranded(s: State, t: nat, task: Task, x: Id)
    requires LidarStranded(s, x) && NoLidarIn(task)
    ensures LidarStranded(Put(s, t, task), x)
  {
    forall u | u in s.tasks ensures NoLidarIn(s.tasks[u]) { }
  }

  lemma EndStranded(s: State, t: nat, x: Id)
    requires LidarStranded(s, x)
    ensures LidarStranded(End(s, t), x)
  {
    forall u | u in s.tasks ensures NoLidarIn(s.tasks[u]) { }
  }

  lemma FinishStranded(s: State, id: Id, command: Command, origin: nat, x: Id)
    requires LidarStranded(s, x) && command != SetLidarPower
    ensures LidarStranded(Finish(s, id, command, origin), x)
  {
    var r := Finish(s, id, command, origin);
    forall t | t in r.tasks ensures NoLidarIn(r.tasks[t]) { assert NoLidarIn(s.tasks[t]); }
  }

  lemma TerminalStranded(s: State, id: Id, x: Id)
    requires Placed(s) && LidarStranded(s, x)
    ensures LidarStranded(Terminal(s, id), x)
  {
    TerminalFrame(s, id);
    hide Terminal, LidarStranded;
    FrameStranded(s, Terminal(s, id), x);
  }

  lemma LaunchStranded(s: State, t: nat, session: nat, stale: Option<nat>, x: Id)
    requires LidarStranded(s, x) && t in s.tasks && s.tasks[t].Request? && s.tasks[t].command != SetLidarPower
    ensures LidarStranded(Launch(s, t, session, stale), x)
  {
    LaunchBrings(s, t, session, stale);
    var r := Launch(s, t, session, stale);
    hide Launch;
    forall u | u in r.tasks ensures NoLidarIn(r.tasks[u]) { if u != t { assert NoLidarIn(s.tasks[u]); } }
  }

  lemma OpenStranded(s: State, t: nat, session: nat, stale: Option<nat>, x: Id)
    requires Placed(s) && LidarStranded(s, x)
    requires t in s.tasks && s.tasks[t].Request? && s.tasks[t].command != SetLidarPower
    ensures LidarStranded(Open(s, t, session, stale), x)
  {
    var q := s.tasks[t];
    var m := Launch(s, t, session, stale);
    LaunchStranded(s, t, session, stale, x);
    LaunchBrings(s, t, session, stale);
    hide Launch, LidarStranded, Finish, NoteStop;
    FrameStranded(m, Dispatch(s, t, session, stale), x);
    if q.command == TeleopStart && !StartStands(s, t) {
      hide Terminal;
      TerminalStranded(m, q.id, x);
      FinishStranded(Terminal(m, q.id), q.id, q.command, t, x);
      EndStranded(Finish(Terminal(m, q.id), q.id, q.command, t), t, x);
    } else if q.command == TeleopStop {
      NoteShape(Dispatch(s, t, session, stale), q.id);
      FrameStranded(Dispatch(s, t, session, stale), NoteStop(Dispatch(s, t, session, stale), q.id), x);
    }
  }

  /** Nothing about to be sent asks for LiDAR power while it is pending. */
  lemma PublishStranded(s: State, t: nat, stale: Option<nat>, x: Id)
    requires Formed(s) && Good(s) && LidarStranded(s, x)
    ensures LidarStranded(Publish(s, t, stale), x)
  {
    hide Good, Open;
    if Ready(s, t) && s.tasks[t].Request? && s.tasks[t].point.Audited? {
      WaitsFact(s, t);
      hide Covers;
      var p := Retiring(s.tasks[t].point.session, s.active);
      FrameStranded(s, s.(owner := None), x);
      if s.tasks[t].command == SoftwareReset {
        PutStranded(s.(owner := None), t, s.tasks[t].(point := p, after := None), x);
      } else {
        OpenStranded(s, t, s.tasks[t].point.session, stale, x);
      }
    }
  }

  lemma RetireStranded(s: State, t: nat, id: Id, stale: Option<nat>, x: Id)
    requires Formed(s) && Good(s) && LidarStranded(s, x)
    ensures LidarStranded(Retire(s, t, id, stale), x)
  {
    hide Good, Open, Finish;
    if Ready(s, t) && s.tasks[t].Request? && s.tasks[t].point.Retiring? {
      WaitsFact(s, t);
      hide Covers;
      var p := s.tasks[t].point;
      assert NoLidarIn(s.tasks[t]);
      if p.rest == map[] {
        OpenStranded(s, t, p.session, stale, x);
      } else if id in p.rest {
        var e := p.rest[id];
        RetireOneStranded(s, t, id, x);
      }
    }
  }

  lemma RetireOneStranded(s: State, t: nat, id: Id, x: Id)
    requires LidarStranded(s, x) && t in s.tasks && s.tasks[t].Request? && s.tasks[t].point.Retiring?
    requires id in s.tasks[t].point.rest
    ensures var p := s.tasks[t].point;
            var e := p.rest[id];
            var s1 := s.(recovery := s.recovery || e.command == SetLidarPower);
            LidarStranded(Move(Finish(s1, id, e.command, e.request), t, Retiring(p.session, p.rest - {id})), x)
  {
    var p := s.tasks[t].point;
    var e := p.rest[id];
    assert NoLidarIn(s.tasks[t]);
    var s1 := s.(recovery := s.recovery || e.command == SetLidarPower);
    var m := Finish(s1, id, e.command, e.request);
    assert m.tasks == s.tasks;
    var q := s.tasks[t].(point := Retiring(p.session, p.rest - {id}), after := None);
    assert NoLidarIn(q);
    hide LidarStranded, Finish, NoLidarIn;
    FrameStranded(s, s1, x);
    FinishStranded(s1, id, e.command, e.request, x);
    PutStranded(m, t, q, x);
  }

  lemma ValidateStranded(s: State, t: nat, ok: bool, x: Id)
    requires Formed(s) && LidarStranded(s, x)
    ensures LidarStranded(Validate(s, t, ok), x)
  {
    hide LidarStranded, Keeps, Remember, Prepare;
    if Ready(s, t) && s.tasks[t].Request? && s.tasks[t].point.Looked? {
      var q := s.tasks[t];
      var s1 := Pass(s, q.id);
      FrameStranded(s, s1, x);
      PutStranded(s, t, q.(point := Refusing, after := None), x);
      PutStranded(s1, t, q.(point := Refusing, after := None), x);
      var session := s.env.binding.session;
      var p := if s.hasDb then Auditing(session) else Audited(session);
      PutStranded(s1, t, q.(point := p, after := None), x);
      if q.command == TeleopStart && Prepare(s1, t).Some? {
        var s2 := s1.(heap := s.heap + [Prepare(s1, t).value], owner := Some(|s.heap|));
        FrameStranded(s1, s2, x);
        PutStranded(s2, t, q.(point := p, after := None), x);
      }
    }
  }

  lemma SentStranded(s: State, t: nat, ok: bool, x: Id)
    requires Formed(s) && LidarStranded(s, x)
    ensures LidarStranded(Sent(s, t, ok), x)
  {
    hide LidarStranded, Finish, MarkUncertain, RevokeNow, Keeps;
    if At(s, t, Forwarding) {
      var q := s.tasks[t];
      if ok {
        PutStranded(s, t, q.(point := Reporting, after := None), x);
      } else if IsTeleop(q.command) {
        RevokeMoveKeeps(s, t, false, Doubting);
        KeepsStranded(s, Sent(s, t, ok), x);
      } else if q.command == SetLidarPower || q.command == SoftwareReset {
        MarkEndKeeps(s, t, q.id, q.command, t);
        KeepsStranded(s, Sent(s, t, ok), x);
      } else {
        FinishStranded(s, q.id, q.command, t, x);
        EndStranded(Finish(s, q.id, q.command, t), t, x);
      }
    }
  }

  /** A final answer to whatever is open under an id. */
  lemma AnswerStranded(s: State, id: Id, origin: nat, x: Id)
    requires Placed(s) && LidarStranded(s, x) && id in s.active
    ensures var c := s.active[id].command;
            LidarStranded(Finish(if IsTeleop(c) then Terminal(s, id) else s, id, c, origin), x)
  {
    var c := s.active[id].command;
    assert c != SetLidarPower;
    hide LidarStranded, Finish, Terminal;
    TerminalStranded(s, id, x);
    FinishStranded(if IsTeleop(c) then Terminal(s, id) else s, id, c, origin, x);
  }

  lemma AckStranded(s: State, id: Id, from: nat, ok: bool, x: Id)
    requires Formed(s) && LidarStranded(s, x)
    ensures LidarStranded(Acknowledge(s, id, from, ok), x)
  {
    hide LidarStranded, Keeps, Finish, Terminal, RevokeNow;
    if Answers(s, id, from) {
      var e := s.active[id];
      var s1 := s.(active := s.active[id := e.(acked := true)]);
      FlagKeeps(s, id, e.(acked := true));
      KeepsStranded(s, s1, x);
      if ok {
        RevokeKeeps(s1, true, false);
        KeepsStranded(s1, RevokeNow(s1, true, false), x);
        if s.owner.Some? {
          var o := s.owner.value;
          FrameStranded(s1, s1.(heap := s.heap[o := s.heap[o].(phase := Active)]), x);
        }
      } else {
        AnswerStranded(s1, id, e.request, x);
      }
    }
  }

  lemma ResultStranded(s: State, id: Id, from: nat, outcome: Outcome, x: Id)
    requires Formed(s) && LidarStranded(s, x)
    ensures LidarStranded(Conclusion(s, id, from, outcome), x)
  {
    if id in s.active { assert s.active[id].command != SetLidarPower; }
    hide LidarStranded, Keeps, Finish, Terminal, RevokeThenDoubt, MarkUncertain, EntryKeyed;
    if Answers(s, id, from) {
      var e := s.active[id];
      AnswerStranded(s, id, e.request, x);
      DoubtKeeps(s, id, e, false);
      KeepsStranded(s, RevokeThenDoubt(s, id, e, false), x);
      MarkKeeps(s, id, e.command, e.request);
      KeepsStranded(s, MarkUncertain(s, id, e.command, e.request), x);
    }
  }

  lemma ExpireStranded(s: State, id: Id, forAck: bool, x: Id)
    requires Formed(s) && LidarStranded(s, x)
    ensures LidarStranded(Expire(s, id, forAck), x)
  {
    if id in s.active { assert s.active[id].command != SetLidarPower; }
    hide LidarStranded, Keeps, Finish, RevokeThenDoubt, MarkUncertain;
    if id in s.active {
      var e := s.active[id];
      FinishStranded(s, id, e.command, e.request, x);
      DoubtKeeps(s, id, e, true);
      KeepsStranded(s, RevokeThenDoubt(s, id, e, true), x);
      MarkKeeps(s, id, e.command, e.request);
      KeepsStranded(s, MarkUncertain(s, id, e.command, e.request), x);
    }
  }

  lemma LingerStranded(s: State, origin: nat, x: Id)
    requires Formed(s) && LidarStranded(s, x)
    ensures LidarStranded(Linger(s, origin), x)
  {
    hide LidarStranded, Keeps, Finish, RevokeThenDoubt;
    if Stray(s, origin) {
      var id, c := s.timers[origin].id, s.timers[origin].command;
      var entry := Entry(c, origin, false, false, 0, None);
      DoubtKeeps(s, id, entry, true);
      KeepsStranded(s, RevokeThenDoubt(s, id, entry, true), x);
      if Ordinary(c) { FinishStranded(s, id, c, origin, x); }
    }
  }

  lemma StepStranded(s: State, e: Event, x: Id)
    requires Formed(s) && Good(s) && LidarStranded(s, x)
    ensures LidarStranded(Apply(s, e), x)
  {
    if LeavesTable(e) {
      hide Good, LidarStranded, Apply, Keeps;
      QuietKeeps(s, e);
      KeepsStranded(s, Apply(s, e), x);
    } else {
      LoudStranded(s, e, x);
    }
  }

  lemma LoudStranded(s: State, e: Event, x: Id)
    requires Formed(s) && Good(s) && LidarStranded(s, x) && !LeavesTable(e)
    ensures LidarStranded(Apply(s, e), x)
  {
    hide Good, LidarStranded, Publish, Retire, Sent, Acknowledge, Conclusion, Expire, Linger, Validate;
    match e
    case Validates(t, ok) => ValidateStranded(s, t, ok, x);
    case Publishes(t, stale) => PublishStranded(s, t, stale, x);
    case Retires(t, id, stale) => RetireStranded(s, t, id, stale, x);
    case Sends(t, ok) => SentStranded(s, t, ok, x);
    case Acks(id, from, ok) => AckStranded(s, id, from, ok, x);
    case Results(id, from, outcome) => ResultStranded(s, id, from, outcome, x);
    case Expires(id, forAck) => ExpireStranded(s, id, forAck, x);
    case Lingers(origin) => LingerStranded(s, origin, x);
  }

  /** A stranded LiDAR barrier stays up in every continuation: from then on the robot is
      sent nothing but stops, resets and motor commands, and never LiDAR power again. */
  lemma {:induction false} StrandedLidarIsFinal(s0: State, es: seq<Event>, more: seq<Event>, x: Id)
    requires Started(s0) && LidarStranded(Run(s0, es), x)
    ensures var s, r := Run(s0, es), Run(s0, es + more);
            && LidarStranded(r, x) && s.forwarded <= r.forwarded
            && forall i :: |s.forwarded| <= i < |r.forwarded| ==> IgnoresLidar(r.forwarded[i].command)
    decreases |more|
  {
    hide Good, LidarStranded, Run, Apply;
    if more == [] {
      assert es + more == es;
    } else {
      var n := |more| - 1;
      var a := es + more[..n];
      StrandedLidarIsFinal(s0, es, more[..n], x);
      assert es + more == a + [more[n]];
      var s := LastStep(s0, a, more[n]);
      StepStranded(s, more[n], x);
      StrandedIsPending(s, x);
      if Run(s0, a + [more[n]]).forwarded != s.forwarded { BarriersGuardForwarding(s0, a, more[n]); }
    }
  }

  lemma StrandedIsPending(s: State, x: Id)
    requires LidarStranded(s, x)
    ensures s.lidarPending == Some(x)
  {}
}
