/**
 What the browser's manual-drive store keeps true between events, and what follows for
 every run: its phase invariant, the trace of samples it sends, and that an accepted
 start is always closed again.
 */
module BrowserRuns {
  import opened Options
  import opened BrowserTeleop

  // ---- Reading the log ---------------------------------------------------------------

  function Samples(log: seq<Entry>, n: nat): nat {
    if log == [] then 0
    else Samples(log[..|log| - 1], n) + if log[|log| - 1].Sampled? && log[|log| - 1].session == n then 1 else 0
  }

  function Stops(log: seq<Entry>, n: nat): nat {
    if log == [] then 0
    else Stops(log[..|log| - 1], n) + if log[|log| - 1].StopSent? && log[|log| - 1].session == n then 1 else 0
  }

  /** No zero sample of the session yet. */
  ghost predicate Unreleased(log: seq<Entry>, n: nat) {
    forall i :: 0 <= i < |log| ==> !(log[i].Sampled? && log[i].session == n && !log[i].deadman)
  }

  predicate Within(p: Policy, linear: real, angular: real) {
    match p
    case Legacy => -0.3 <= linear <= 0.3 && -0.7 <= angular <= 0.7
    case Tuned(limits, _) =>
      limits.Some? && -limits.value.linear <= linear <= limits.value.linear
      && -limits.value.angular <= angular <= limits.value.angular
  }

  /** The session was started under this policy. */
  ghost predicate Begun(log: seq<Entry>, n: nat, p: Policy) {
    Started(n, true, p) in log || Started(n, false, p) in log
  }

  /** What may be added to a log: numbering without gaps, deadman samples only between
      the acceptance and the first zero and inside the limits the session started
      with, two stops at most. */
  ghost predicate Fitting(log: seq<Entry>, e: Entry) {
    match e
    case Started(n, _, _) => forall i :: 0 <= i < |log| ==> log[i].session != n
    case Accepted(n) => Accepted(n) !in log
    case StopSent(n, k) => k == Stops(log, n) < 2
    case Sampled(n, seqNo, deadman, linear, angular) =>
      && seqNo == Samples(log, n)
      && (exists p :: Begun(log, n, p) && (deadman ==> Within(p, linear, angular)))
      && (if deadman then Accepted(n) in log && Unreleased(log, n) else linear == 0.0 && angular == 0.0)
  }

  ghost predicate Proper(log: seq<Entry>) {
    forall i {:trigger log[i]} :: 0 <= i < |log| ==> Fitting(log[..i], log[i])
  }

  /** A stop of the session was sent after its acceptance. */
  ghost predicate ClosedAfter(log: seq<Entry>, n: nat) {
    exists i, j :: 0 <= i < j < |log| && log[i] == Accepted(n) && log[j].StopSent? && log[j].session == n
  }

  // ---- The invariant ------------------------------------------------------------------------

  /** The session record agrees with the log. */
  ghost predicate Recorded(ses: Session, n: nat, log: seq<Entry>) {
    && Samples(log, n) == ses.seqNo
    && Stops(log, n) == ses.stops <= (if ses.lateClosed then 2 else 1)
    && (ses.accepted <==> Accepted(n) in log)
    && (ses.lateClosed ==> ses.accepted)
    && (forall k :: k in ses.pendingStops ==> k < ses.stops)
    && Begun(log, n, ses.policy)
  }

  ghost predicate Books(sessions: seq<Session>, log: seq<Entry>) {
    && Proper(log)
    && (forall i :: 0 <= i < |log| ==> log[i].session < |sessions|)
    && (forall n :: 0 <= n < |sessions| ==> Recorded(sessions[n], n, log))
  }

  predicate Still(s: Store) {
    && !s.deadman && !s.ramp && s.linear == 0.0 && s.angular == 0.0 && s.targetLinear == 0.0 && s.targetAngular == 0.0
  }

  /** The session in hand while it is being driven. */
  ghost predicate InHand(s: Store, ses: Session, n: nat) {
    && ses.generation == s.generation && s.deadman
    && !ses.startTerminal && ses.stops == 0 && Unreleased(s.log, n)
    && (ses.accepted <==> s.phase == Active)
    && Within(ses.policy, s.linear, s.angular) && Within(ses.policy, s.targetLinear, s.targetAngular)
    && (s.world.policy == ses.policy || Operational(s.world.policy).None?)
  }

  ghost predicate Phased(s: Store) {
    && (s.session.None? <==> s.phase == Idle || s.phase == Armed)
    && (s.watcher.Some? <==> Driving(s.phase))
    && (s.session.Some? ==> s.session.value < |s.sessions|)
    && (s.phase == Idle || s.phase == Armed || s.phase == Stopping ==> Still(s))
    && (s.phase == Pending || s.phase == Active ==> InHand(s, s.sessions[s.session.value], s.session.value))
    && (s.phase == Stopping ==>
          !s.sessions[s.session.value].startTerminal || s.sessions[s.session.value].pendingStops != {})
  }

  ghost predicate Covered(s: Store) {
    forall n :: 0 <= n < |s.sessions| && s.sessions[n].accepted && !s.sessions[n].startTerminal ==>
      (s.session == Some(n) && s.phase == Active) || ClosedAfter(s.log, n)
  }

  ghost predicate Good(s: Store) {
    Books(s.sessions, s.log) && Phased(s) && Covered(s)
  }

  // ---- Adding to the log ------------------------------------------------------------------------

  lemma Grow(log: seq<Entry>, e: Entry, n: nat)
    ensures Samples(log + [e], n) == Samples(log, n) + if e.Sampled? && e.session == n then 1 else 0
    ensures Stops(log + [e], n) == Stops(log, n) + if e.StopSent? && e.session == n then 1 else 0
    ensures Unreleased(log + [e], n) <==> Unreleased(log, n) && !(e.Sampled? && e.session == n && !e.deadman)
  {
    assert (log + [e])[..|log|] == log;
    assert forall i :: 0 <= i < |log| ==> (log + [e])[i] == log[i];
    assert (log + [e])[|log|] == e;
  }

  lemma ProperGrows(log: seq<Entry>, e: Entry)
    requires Proper(log) && Fitting(log, e)
    ensures Proper(log + [e])
  {
    hide Fitting;
    var next := log + [e];
    assert next[..|log|] == log;
    forall i | 0 <= i < |next| ensures Fitting(next[..i], next[i]) {
      if i < |log| { assert next[..i] == log[..i] && next[i] == log[i]; }
    }
  }

  lemma ClosedGrows(log: seq<Entry>, e: Entry, n: nat)
    ensures ClosedAfter(log, n) ==> ClosedAfter(log + [e], n)
    ensures Accepted(n) in log && e.StopSent? && e.session == n ==> ClosedAfter(log + [e], n)
  {
    var next := log + [e];
    if ClosedAfter(log, n) {
      var i, j :| 0 <= i < j < |log| && log[i] == Accepted(n) && log[j].StopSent? && log[j].session == n;
      assert next[i] == Accepted(n) && next[j] == log[j];
    }
    if Accepted(n) in log && e.StopSent? && e.session == n {
      var i :| 0 <= i < |log| && log[i] == Accepted(n);
      assert next[i] == Accepted(n) && next[|log|] == e;
    }
  }

  /** The records stay right for the sessions an entry is not about. */
  lemma OthersRecorded(ses: Session, n: nat, log: seq<Entry>, e: Entry)
    requires Recorded(ses, n, log) && e.session != n
    ensures Recorded(ses, n, log + [e])
  {
    Grow(log, e, n);
  }

  /** One entry about session `n`, together with the new record of `n`. */
  lemma BooksGrow(sessions: seq<Session>, log: seq<Entry>, n: nat, ses: Session, e: Entry)
    requires Books(sessions, log) && n < |sessions| && e.session == n
    requires Fitting(log, e) && Recorded(ses, n, log + [e])
    ensures Books(sessions[n := ses], log + [e])
  {
    hide Fitting, Recorded;
    ProperGrows(log, e);
    hide Proper;
    var next := sessions[n := ses];
    forall m | 0 <= m < |next| ensures Recorded(next[m], m, log + [e]) {
      if m != n { OthersRecorded(sessions[m], m, log, e); }
    }
  }

  lemma BooksTouch(sessions: seq<Session>, log: seq<Entry>, n: nat, ses: Session)
    requires Books(sessions, log) && n < |sessions| && Recorded(ses, n, log)
    ensures Books(sessions[n := ses], log)
  {
    hide Recorded, Proper;
  }

  lemma SampleRecorded(ses: Session, n: nat, log: seq<Entry>, e: Entry)
    requires Recorded(ses, n, log) && e.Sampled? && e.session == n && e.seqNo == ses.seqNo
    requires if e.deadman then ses.accepted && Unreleased(log, n) && Within(ses.policy, e.linear, e.angular)
        else e.linear == 0.0 && e.angular == 0.0
    ensures Recorded(ses.(seqNo := ses.seqNo + 1), n, log + [e]) && Fitting(log, e)
  {
    hide Unreleased, Within;
    Grow(log, e, n);
    hide Samples, Stops;
    assert Accepted(n) in log + [e] <==> Accepted(n) in log;
  }

  lemma StopRecorded(ses: Session, n: nat, log: seq<Entry>, e: Entry)
    requires Recorded(ses, n, log) && e == StopSent(n, ses.stops) && ses.stops < if ses.lateClosed then 2 else 1
    ensures Recorded(ses.(stops := ses.stops + 1, pendingStops := ses.pendingStops + {ses.stops}), n, log + [e])
    ensures Fitting(log, e)
    ensures ses.accepted ==> ClosedAfter(log + [e], n)
  {
    Grow(log, e, n);
    ClosedGrows(log, e, n);
    hide Samples, Stops, ClosedAfter;
    assert Accepted(n) in log + [e] <==> Accepted(n) in log;
  }

  lemma BooksSample(s: Store, n: nat, deadman: bool, linear: real, angular: real)
    requires Books(s.sessions, s.log) && n < |s.sessions|
    requires deadman ==> s.sessions[n].accepted && Unreleased(s.log, n) && Within(s.sessions[n].policy, linear, angular)
    ensures Books(Sample(s, n, deadman, linear, angular).sessions, Sample(s, n, deadman, linear, angular).log)
  {
    var ses := s.sessions[n];
    assert Recorded(ses, n, s.log);
    hide Books, Recorded, Fitting, Unreleased, Within;
    var e := Sampled(n, ses.seqNo, deadman, if deadman then linear else 0.0, if deadman then angular else 0.0);
    SampleRecorded(ses, n, s.log, e);
    BooksGrow(s.sessions, s.log, n, ses.(seqNo := ses.seqNo + 1), e);
  }

  lemma BooksStop(s: Store, n: nat)
    requires Books(s.sessions, s.log) && n < |s.sessions|
    requires s.sessions[n].stops < if s.sessions[n].lateClosed then 2 else 1
    ensures Books(SendStop(s, n).sessions, SendStop(s, n).log)
    ensures s.sessions[n].accepted ==> ClosedAfter(SendStop(s, n).log, n)
  {
    var ses := s.sessions[n];
    assert Recorded(ses, n, s.log);
    hide Books, Recorded, Fitting, ClosedAfter;
    var e := StopSent(n, ses.stops);
    StopRecorded(ses, n, s.log, e);
    BooksGrow(s.sessions, s.log, n, ses.(stops := ses.stops + 1, pendingStops := ses.pendingStops + {ses.stops}), e);
  }

  lemma BooksAccept(s: Store, n: nat)
    requires Books(s.sessions, s.log) && n < |s.sessions| && !s.sessions[n].accepted
    ensures Books(s.sessions[n := s.sessions[n].(accepted := true)], s.log + [Accepted(n)])
  {
    var ses, e := s.sessions[n], Accepted(n);
    assert Recorded(ses, n, s.log);
    hide Books, Proper, Unreleased, Samples, Stops;
    Grow(s.log, e, n);
    assert Recorded(ses.(accepted := true), n, s.log + [e]);
    assert Fitting(s.log, e);
    hide Recorded, Fitting;
    BooksGrow(s.sessions, s.log, n, ses.(accepted := true), e);
  }

  /** A session that has no entries yet. */
  lemma {:induction false} Unheard(log: seq<Entry>, n: nat)
    requires forall i :: 0 <= i < |log| ==> log[i].session != n
    ensures Samples(log, n) == 0 && Stops(log, n) == 0 && Unreleased(log, n)
  {
    if log != [] { Unheard(log[..|log| - 1], n); }
  }

  lemma BooksBegin(sessions: seq<Session>, log: seq<Entry>, ses: Session, takeover: bool)
    requires Books(sessions, log)
    requires ses.seqNo == 0 && ses.stops == 0 && !ses.accepted && !ses.lateClosed && ses.pendingStops == {}
    ensures Books(sessions + [ses], log + [Started(|sessions|, takeover, ses.policy)])
    ensures Unreleased(log + [Started(|sessions|, takeover, ses.policy)], |sessions|)
  {
    var n := |sessions|;
    var e := Started(n, takeover, ses.policy);
    Unheard(log, n);
    Grow(log, e, n);
    ProperGrows(log, e);
    assert Recorded(ses, n, log + [e]);
    hide Recorded, Proper, Unreleased;
    forall m | 0 <= m < n ensures Recorded(sessions[m], m, log + [e]) { OthersRecorded(sessions[m], m, log, e); }
  }

  // ---- Each step keeps the invariant -----------------------------------------------------------------

  lemma ZeroAndStop(s: Store, n: nat)
    requires Books(s.sessions, s.log) && n < |s.sessions|
    requires s.sessions[n].stops < if s.sessions[n].lateClosed then 2 else 1
    ensures var r := SendStop(Sample(s, n, false, 0.0, 0.0), n);
            && Books(r.sessions, r.log)
            && (s.sessions[n].accepted ==> ClosedAfter(r.log, n))
            && (forall m {:trigger ClosedAfter(r.log, m)} :: ClosedAfter(s.log, m) ==> ClosedAfter(r.log, m))
            && (forall m: nat {:trigger Unreleased(r.log, m)} :: m != n && Unreleased(s.log, m) ==>
                Unreleased(r.log, m))
  {
    hide Books, ClosedAfter, Unreleased;
    BooksSample(s, n, false, 0.0, 0.0);
    var mid := Sample(s, n, false, 0.0, 0.0);
    BooksStop(mid, n);
    forall m
      ensures ClosedAfter(s.log, m) ==> ClosedAfter(SendStop(mid, n).log, m)
      ensures m != n && Unreleased(s.log, m) ==> Unreleased(SendStop(mid, n).log, m)
    {
      ClosedGrows(s.log, mid.log[|s.log|], m);
      ClosedGrows(mid.log, StopSent(n, s.sessions[n].stops), m);
      if m >= 0 {
        Grow(s.log, mid.log[|s.log|], m);
        Grow(mid.log, StopSent(n, s.sessions[n].stops), m);
      }
    }
  }

  /** Ending a session leaves a good state even when its record has just changed. */
  lemma CloseGood(s: Store, n: nat)
    requires Books(s.sessions, s.log) && n < |s.sessions| && s.session == Some(n)
    requires s.phase == Pending || s.phase == Active
    requires s.sessions[n].stops < if s.sessions[n].lateClosed then 2 else 1
    requires forall m :: 0 <= m < |s.sessions| && m != n && s.sessions[m].accepted && !s.sessions[m].startTerminal ==>
        ClosedAfter(s.log, m)
    ensures Good(End(s)) && End(s).phase == Stopping
  {
    hide Books, ClosedAfter, Unreleased, Within;
    ZeroAndStop(Quiet(s, Stopping).(watcher := None), n);
  }

  lemma EndGood(s: Store)
    requires Good(s)
    ensures Good(End(s)) && !Driving(End(s).phase)
  {
    hide ClosedAfter, Unreleased, Within, Proper, Recorded;
    if s.phase == Pending || s.phase == Active {
      var n := s.session.value;
      StopsWithin(s, n);
      CloseGood(s, n);
    }
  }

  lemma StopsWithin(s: Store, n: nat)
    requires Books(s.sessions, s.log) && n < |s.sessions|
    ensures s.sessions[n].stops <= if s.sessions[n].lateClosed then 2 else 1
    ensures s.sessions[n].lateClosed ==> s.sessions[n].accepted
    ensures forall k :: k in s.sessions[n].pendingStops ==> k < s.sessions[n].stops
  {
    assert Recorded(s.sessions[n], n, s.log);
  }

  lemma CheckGood(s: Store)
    requires Good(s)
    ensures Good(Check(s))
    ensures Check(s).phase == Active ==>
              Check(s) == s && Allowed(s.world) && s.sessions[s.session.value].policy == s.world.policy
  {
    EndGood(s);
    hide Books, ClosedAfter, Unreleased, Within;
  }

  lemma ArmGood(s: Store, takeover: bool)
    requires Good(s)
    ensures Good(Arm(s, takeover))
  {
    hide Books, ClosedAfter, Unreleased, Within;
  }

  lemma BeginGood(s: Store, takeover: bool)
    requires Books(s.sessions, s.log) && Covered(s) && s.phase == Armed && s.deadman
    requires Within(s.world.policy, s.linear, s.angular) && Within(s.world.policy, s.targetLinear, s.targetAngular)
    requires s.watcher.Some? && s.session.None?
    ensures Good(Begin(s, takeover))
  {
    var n := |s.sessions|;
    var ses := Session(s.generation, s.world.robotGeneration, s.world.robot, 0, false, false, false, 0, {},
                       s.world.policy);
    BooksBegin(s.sessions, s.log, ses, takeover);
    hide Books, Unreleased, Within;
    var e := Started(n, takeover, s.world.policy);
    forall m | 0 <= m < n ensures ClosedAfter(s.log, m) ==> ClosedAfter(s.log + [e], m) { ClosedGrows(s.log, e, m); }
    hide ClosedAfter;
    var begun := s.(sessions := s.sessions + [ses], session := Some(n), phase := Pending, log := s.log + [e]);
    assert Good(begun);
    EndGood(begun);
  }

  lemma AimGood(s: Store, l: real, a: real, digital: bool)
    requires Good(s) && Driving(s.phase) && Allowed(s.world)
    requires Within(s.world.policy, l, a) && Within(s.world.policy, 0.0, 0.0)
    ensures s.phase != Armed ==> Good(Aim(s, l, a, digital))
    ensures s.phase == Armed ==> Within(s.world.policy, Aim(s, l, a, digital).linear, Aim(s, l, a, digital).angular)
  {
    hide Books, Unreleased, ClosedAfter, Within;
  }

  lemma InputGood(s: Store, linear: Option<real>, angular: Option<real>, deadman: bool, takeover: bool, digital: bool,
                  expired: bool)
    requires Good(s)
    ensures Good(Input(s, linear, angular, deadman, takeover, digital, expired))
  {
    EndGood(s);
    if deadman && Driving(s.phase) && Allowed(s.world) && !expired {
      var caps := Operational(s.world.policy).value;
      var l, a := Bounded(linear, caps.linear), Bounded(angular, caps.angular);
      assert Within(s.world.policy, l, a) && Within(s.world.policy, 0.0, 0.0);
      hide Books, Unreleased, ClosedAfter, Recorded, Within, Bounded, InHand;
      AimGood(s, l, a, digital);
      if s.phase == Armed { BeginGood(Aim(s, l, a, digital), takeover || s.takeover); }
    }
  }

  /** Between the value and the target, and so inside any limits that hold both. */
  lemma RampBetween(current: real, target: real, step: real)
    requires step > 0.0
    ensures current <= target ==> current <= RampToward(current, target, step) <= target
    ensures target <= current ==> target <= RampToward(current, target, step) <= current
  {}

  lemma RampTickGood(s: Store)
    requires Good(s)
    ensures Good(RampTick(s))
  {
    RampBetween(s.linear, s.targetLinear, STEP_LINEAR);
    RampBetween(s.angular, s.targetAngular, STEP_ANGULAR);
    hide Books, Unreleased, ClosedAfter, RampToward;
  }

  lemma SampleGood(s: Store)
    requires Good(s) && s.phase == Active
    ensures Good(Sample(s, s.session.value, true, s.linear, s.angular))
  {
    var n := s.session.value;
    assert s.sessions[n].accepted;
    hide Books, Unreleased, Within, ClosedAfter;
    BooksSample(s, n, true, s.linear, s.angular);
    var r := Sample(s, n, true, s.linear, s.angular);
    var e := Sampled(n, s.sessions[n].seqNo, true, s.linear, s.angular);
    assert r.log == s.log + [e];
    SamplePhased(s);
    hide Phased, Books;
    forall m | 0 <= m < |s.sessions| ensures ClosedAfter(s.log, m) ==> ClosedAfter(r.log, m) {
      ClosedGrows(s.log, e, m);
    }
  }

  lemma SamplePhased(s: Store)
    requires Phased(s) && s.phase == Active
    ensures Phased(Sample(s, s.session.value, true, s.linear, s.angular))
  {
    hide Unreleased, Within;
    var n := s.session.value;
    Grow(s.log, Sampled(n, s.sessions[n].seqNo, true, s.linear, s.angular), n);
    hide Samples, Stops;
  }

  lemma TickGood(s: Store)
    requires Good(s)
    ensures Good(Tick(s))
  {
    hide Books, Unreleased, ClosedAfter, Within;
    CheckGood(s);
    RampTickGood(Check(s));
    var ramped := RampTick(Check(s));
    if s.watcher.Some? && ramped.phase == Active {
      hide Good, Check, RampTick;
      SampleGood(ramped);
      EndGood(Sample(ramped, ramped.session.value, true, ramped.linear, ramped.angular));
    }
  }

  lemma FinishGood(s: Store, n: nat)
    requires Books(s.sessions, s.log) && Covered(s) && n < |s.sessions|
    requires s.session == Some(n) ==> s.phase == Stopping && Still(s) && s.watcher.None?
    requires s.session != Some(n) ==> Phased(s)
    ensures Good(FinishIfResolved(s, n))
  {
    hide Books, ClosedAfter, Unreleased, Within;
  }

  /** Marking the start or a stop as answered. */
  lemma AnsweredBooks(s: Store, n: nat, ses: Session)
    requires Books(s.sessions, s.log) && n < |s.sessions|
    requires
      || ses == s.sessions[n].(startTerminal := true)
      || exists k :: ses == s.sessions[n].(pendingStops := s.sessions[n].pendingStops - {k})
    ensures Books(WithSession(s, n, ses).sessions, s.log)
  {
    assert Recorded(s.sessions[n], n, s.log);
    assert Recorded(ses, n, s.log);
    BooksTouch(s.sessions, s.log, n, ses);
  }

  lemma AnsweredGood(s: Store, n: nat, ses: Session)
    requires Good(s) && n < |s.sessions|
    requires s.session == Some(n) ==> s.phase == Stopping
    requires
      || ses == s.sessions[n].(startTerminal := true)
      || exists k :: ses == s.sessions[n].(pendingStops := s.sessions[n].pendingStops - {k})
    ensures Good(FinishIfResolved(WithSession(s, n, ses), n))
  {
    AnsweredBooks(s, n, ses);
    hide Books, ClosedAfter, Unreleased, Within;
    FinishGood(WithSession(s, n, ses), n);
  }

  lemma AckStopGood(s: Store, n: nat, k: nat, accepted: bool)
    requires Good(s) && n < |s.sessions| && k < s.sessions[n].stops
    ensures Good(AckStop(s, n, k, accepted))
  {
    hide Books, ClosedAfter, Unreleased, Within;
    AnsweredGood(s, n, s.sessions[n].(pendingStops := s.sessions[n].pendingStops - {k}));
  }

  lemma ResultGood(s: Store, token: Token, timeout: bool)
    requires Good(s)
    ensures Good(Result(s, token, timeout))
  {
    EndGood(s);
    hide Books, ClosedAfter, Unreleased, Within;
    if Owner(s, token).Some? {
      var n := Owner(s, token).value;
      var ended := if s.session == Some(n) then End(s) else s;
      var ses := ended.sessions[n];
      match token
      case StopOf(_, k) => AnsweredGood(ended, n, ses.(pendingStops := ses.pendingStops - {k}));
      case _ => AnsweredGood(ended, n, ses.(startTerminal := true));
    }
  }

  lemma RefuseGood(s: Store, n: nat)
    requires Good(s) && n < |s.sessions|
    ensures Good(Refuse(s, n))
  {
    if s.session == Some(n) {
      var ses := s.sessions[n].(startTerminal := true);
      AnsweredBooks(s, n, ses);
      var closed := Quiet(WithSession(s, n, ses), Stopping).(watcher := None);
      BooksSample(closed, n, false, 0.0, 0.0);
      var zeroed := Sample(closed, n, false, 0.0, 0.0);
      hide Books, Unreleased, Within;
      forall m | 0 <= m < |s.sessions| ensures ClosedAfter(s.log, m) ==> ClosedAfter(zeroed.log, m) {
        ClosedGrows(s.log, zeroed.log[|s.log|], m);
      }
      hide ClosedAfter;
      FinishGood(zeroed, n);
    }
  }

  lemma ToldBooks(s: Store, n: nat, late: bool)
    requires Good(s) && n < |s.sessions| && !s.sessions[n].accepted
    ensures Books(Told(s, n, late).sessions, Told(s, n, late).log)
    ensures Told(s, n, late).sessions[n].stops < 2 && !s.sessions[n].lateClosed
    ensures forall m {:trigger ClosedAfter(s.log, m)} :: ClosedAfter(s.log, m) ==> ClosedAfter(Told(s, n, late).log, m)
    ensures forall m: nat {:trigger Unreleased(s.log, m)} :: Unreleased(s.log, m) ==>
        Unreleased(Told(s, n, late).log, m)
  {
    StopsWithin(s, n);
    BooksAccept(s, n);
    var told := Told(s, n, false);
    forall m ensures ClosedAfter(s.log, m) ==> ClosedAfter(told.log, m) { ClosedGrows(s.log, Accepted(n), m); }
    forall m: nat ensures Unreleased(s.log, m) ==> Unreleased(told.log, m) { Grow(s.log, Accepted(n), m); }
    assert Recorded(told.sessions[n], n, told.log);
    hide Books, ClosedAfter, Unreleased;
    var ses := told.sessions[n].(lateClosed := late);
    assert Recorded(ses, n, told.log);
    hide Recorded;
    BooksTouch(told.sessions, told.log, n, ses);
    assert told.sessions[n := ses] == Told(s, n, late).sessions;
  }

  /** Only the record of `n` differs, and the log went on. */
  ghost predicate Apart(s: Store, r: Store, n: nat) {
    && n < |s.sessions| == |r.sessions|
    && (forall m :: 0 <= m < |s.sessions| && m != n ==> r.sessions[m] == s.sessions[m])
    && (forall m: nat {:trigger Unreleased(r.log, m)} :: m != n && Unreleased(s.log, m) ==> Unreleased(r.log, m))
    && (forall m {:trigger ClosedAfter(r.log, m)} :: ClosedAfter(s.log, m) ==> ClosedAfter(r.log, m))
  }

  lemma ApartTrans(s: Store, t: Store, u: Store, r: Store, n: nat)
    requires Apart(s, t, n) && Apart(u, r, n) && u.sessions == t.sessions && u.log == t.log
    ensures Apart(s, r, n)
  {
    hide Unreleased, ClosedAfter;
  }

  lemma ToldApart(s: Store, n: nat)
    requires Good(s) && n < |s.sessions| && !s.sessions[n].accepted
    ensures Apart(s, Told(s, n, true), n)
  {
    ToldBooks(s, n, true);
    hide Books, ClosedAfter, Unreleased;
  }

  lemma CoveredApart(s: Store, r: Store, n: nat)
    requires Covered(s) && Apart(s, r, n)
    requires ClosedAfter(r.log, n) || (r.session == Some(n) && r.phase == Active)
    requires s.phase == Active && s.session != Some(n) ==> r.phase == Active && r.session == s.session
    ensures Covered(r)
  {
    hide ClosedAfter, Unreleased;
  }

  /** The driven session is another one and goes on as it was. */
  lemma PhasedApart(s: Store, r: Store, n: nat)
    requires Phased(s) && Apart(s, r, n) && s.session != Some(n)
    requires r == s.(sessions := r.sessions, log := r.log)
    ensures Phased(r)
  {
    hide ClosedAfter, Unreleased, Within;
  }

  lemma ActivateGood(s: Store, n: nat)
    requires Good(s) && n < |s.sessions| && !s.sessions[n].accepted && s.session == Some(n) && s.phase == Pending
    ensures Good(Told(s, n, false).(phase := Active))
    ensures Good(Told(s, n, false).(phase := Active, linear := 0.0, angular := 0.0))
  {
    ToldBooks(s, n, false);
    var told := Told(s, n, false).(phase := Active);
    hide Books, ClosedAfter, Unreleased;
    assert Apart(s, told, n);
    CoveredApart(s, told, n);
    CoveredApart(s, told.(linear := 0.0, angular := 0.0), n);
    hide Covered, Apart;
    ActivePhased(s, n);
  }

  lemma ActivePhased(s: Store, n: nat)
    requires Phased(s) && n < |s.sessions| && s.session == Some(n) && s.phase == Pending
    requires Unreleased(s.log, n) ==> Unreleased(Told(s, n, false).log, n)
    ensures Phased(Told(s, n, false).(phase := Active))
    ensures Phased(Told(s, n, false).(phase := Active, linear := 0.0, angular := 0.0))
  {
    hide Unreleased;
  }

  lemma ZeroStopShape(s: Store, n: nat)
    requires n < |s.sessions|
    ensures var r := SendStop(Sample(s, n, false, 0.0, 0.0), n);
            && r == s.(sessions := r.sessions, log := r.log) && |r.sessions| == |s.sessions|
            && (forall m :: 0 <= m < |s.sessions| && m != n ==> r.sessions[m] == s.sessions[m])
            && s.sessions[n].stops in r.sessions[n].pendingStops
            && r.sessions[n].startTerminal == s.sessions[n].startTerminal
  {}

  lemma LateApart(s: Store, n: nat)
    requires Good(s) && n < |s.sessions| && !s.sessions[n].accepted
    ensures var r := LateClose(Told(s, n, true), n);
            && Books(r.sessions, r.log) && Apart(s, r, n) && ClosedAfter(r.log, n)
            && r.sessions[n].pendingStops != {} && r.sessions[n].startTerminal == s.sessions[n].startTerminal
  {
    ToldBooks(s, n, true);
    ToldApart(s, n);
    var told := Told(s, n, true);
    assert told.sessions[n].accepted && told.sessions[n].lateClosed &&
        told.sessions[n].startTerminal == s.sessions[n].startTerminal;
    hide Books, ClosedAfter, Unreleased, Good, Sample, SendStop, Apart, Told;
    var shown := if told.phase == Idle && told.session == None then Quiet(told, Stopping).(session := Some(n))
        else told;
    assert shown.sessions == told.sessions && shown.log == told.log;
    ZeroAndStop(shown, n);
    ZeroStopShape(shown, n);
    ZeroApart(shown, n);
    ApartTrans(s, told, shown, LateClose(told, n), n);
  }

  lemma ZeroApart(s: Store, n: nat)
    requires Books(s.sessions, s.log) && n < |s.sessions|
    requires s.sessions[n].stops < if s.sessions[n].lateClosed then 2 else 1
    ensures Apart(s, SendStop(Sample(s, n, false, 0.0, 0.0), n), n)
  {
    ZeroAndStop(s, n);
    ZeroStopShape(s, n);
    hide Books, ClosedAfter, Unreleased, Sample, SendStop;
  }

  lemma LateShape(s: Store, n: nat)
    requires n < |s.sessions|
    ensures var r := LateClose(Told(s, n, true), n);
            var quiet := if s.phase == Idle && s.session == None then Quiet(s, Stopping).(session := Some(n)) else s;
            r == quiet.(sessions := r.sessions, log := r.log)
  {}

  lemma PhasedStopping(s: Store, r: Store, n: nat)
    requires Phased(s) && n < |r.sessions| == |s.sessions| && r.sessions[n].pendingStops != {}
    requires (s.phase == Idle && r == Quiet(s, Stopping).(session := Some(n), sessions := r.sessions, log := r.log))
          || (s.phase == Stopping && s.session == Some(n) && r == s.(sessions := r.sessions, log := r.log))
    ensures Phased(r)
  {
    hide InHand;
  }

  lemma LateGood(s: Store, n: nat)
    requires Good(s) && n < |s.sessions| && !s.sessions[n].accepted
    requires !(s.session == Some(n) && Driving(s.phase))
    ensures Good(LateClose(Told(s, n, true), n))
  {
    LateApart(s, n);
    LateShape(s, n);
    hide LateClose, Told, Books, ClosedAfter, Unreleased, InHand, Covered, Quiet;
    var r := LateClose(Told(s, n, true), n);
    CoveredApart(s, r, n);
    assert |r.sessions| == |s.sessions|;
    if s.session == Some(n) || s.phase == Idle {
      PhasedStopping(s, r, n);
    } else {
      PhasedApart(s, r, n);
    }
  }

  lemma AcceptGood(s: Store, n: nat)
    requires Good(s) && n < |s.sessions|
    ensures Good(Accept(s, n))
  {
    if !s.sessions[n].accepted {
      StopsWithin(s, n);
      hide Books, ClosedAfter, Unreleased, Within, Told, LateClose, Covered;
      if s.session == Some(n) && s.phase == Pending {
        assert InHand(s, s.sessions[n], n);
        hide Phased, InHand;
        ActivateGood(s, n);
        PendingRefused(s, n);
      } else {
        assert !(s.session == Some(n) && s.phase == Active);
        hide Phased;
        LateGood(s, n);
      }
    }
  }

  /** An acceptance that comes too late for its pending session ends it. */
  lemma PendingRefused(s: Store, n: nat)
    requires Good(s) && n < |s.sessions| && !s.sessions[n].accepted && s.session == Some(n) && s.phase == Pending
    ensures Good(End(Told(s, n, true)))
  {
    ToldBooks(s, n, true);
    hide Books, ClosedAfter, Unreleased, Within;
    CloseGood(Told(s, n, true), n);
    hide Good, End;
  }

  lemma AckGood(s: Store, token: Token, accepted: bool)
    requires Good(s)
    ensures Good(Ack(s, token, accepted))
  {
    hide Good, Accept, Refuse, AckStop;
    match token
    case StartOf(n) => if n < |s.sessions| { AcceptGood(s, n); RefuseGood(s, n); }
    case StopOf(n, k) => if n < |s.sessions| && k < s.sessions[n].stops { AckStopGood(s, n, k, accepted); }
    case Foreign(_) =>
  }

  lemma WorldGood(s: Store, w: World)
    requires Good(s)
    requires s.phase == Pending || s.phase == Active ==>
      w.policy == s.sessions[s.session.value].policy || Operational(w.policy).None?
    ensures Good(s.(world := w))
  {
    hide Books, ClosedAfter, Unreleased, Within;
  }

  /** A change elsewhere that does not fit the session ends it at once. */
  lemma StoreChangeGood(s: Store, w: World)
    requires Good(s)
    ensures Good(Check(s.(world := w)))
  {
    var changed := s.(world := w);
    hide Books, ClosedAfter, Unreleased, Within;
    if s.phase == Pending || s.phase == Active {
      var n := s.session.value;
      var ses := s.sessions[n];
      if ses.policy == w.policy {
        WorldGood(s, w);
        hide Good;
        CheckGood(changed);
      } else {
        assert Check(changed) == End(changed);
        StopsWithin(s, n);
        CloseGood(changed, n);
      }
    } else {
      WorldGood(s, w);
      hide Good;
      CheckGood(changed);
    }
  }

  lemma TimePassesGood(s: Store, ready: bool, expired: bool)
    requires Good(s)
    ensures Good(Step(s, TimePasses(ready, expired)))
  {
    hide Books, ClosedAfter, Unreleased, Within;
    WorldGood(s, s.world.(ready := ready, policy := Aged(s.world.policy, expired)));
  }

  lemma StepGood(s: Store, e: Event)
    requires Good(s)
    ensures Good(Step(s, e))
  {
    assert s.session.Some? ==> s.session.value < |s.sessions|;
    hide Good, Arm, Input, End, Tick, Ack, Result, Check;
    match e
    case DoArm(takeover) => ArmGood(s, takeover);
    case DoInput(linear, angular, deadman, takeover, digital, expired) =>
      InputGood(s, linear, angular, deadman, takeover, digital, expired);
    case DoEnd => EndGood(s);
    case DoTick => TickGood(s);
    case DoAck(token, accepted) => AckGood(s, token, accepted);
    case DoResult(token, timeout) => ResultGood(s, token, timeout);
    case StoreChange(w) => StoreChangeGood(s, w);
    case TimePasses(ready, expired) => TimePassesGood(s, ready, expired);
  }

  // ---- Whole runs -------------------------------------------------------------------------------------

  /** One event, on any store. */
  function Next(s: Store, e: Event): Store {
    if s.session.Some? && s.session.value >= |s.sessions| then s else Step(s, e)
  }

  /** A page just loaded, whatever the other stores say. */
  predicate Opening(s: Store) { s == INITIAL.(world := s.world) }

  /** The store after a run of events. */
  function Run(s: Store, es: seq<Event>): Store
    decreases |es|
  {
    if es == [] then s else Run(Next(s, es[0]), es[1..])
  }

  /** Every reachable store is good. */
  lemma {:induction false} RunGood(s: Store, es: seq<Event>)
    requires Good(s)
    ensures Good(Run(s, es))
    decreases |es|
  {
    if es != [] {
      GoodInside(s);
      hide Good, Step;
      StepGood(s, es[0]);
      RunGood(Next(s, es[0]), es[1..]);
    }
  }

  lemma OpeningGood(s: Store, es: seq<Event>)
    requires Opening(s)
    ensures Good(s) && Good(Run(s, es))
  {
    hide Run;
    RunGood(s, es);
  }

  lemma GoodInside(s: Store)
    requires Good(s)
    ensures s.session.Some? ==> s.session.value < |s.sessions|
  {}

  lemma InitialGood()
    ensures Good(INITIAL)
  {}

  /** What has been sent or accepted is never taken back. */
  lemma StepAppends(s: Store, e: Event)
    requires s.session.Some? ==> s.session.value < |s.sessions|
    ensures s.log <= Step(s, e).log
  {
    EndAppends(s);
    match e
    case DoArm(_) =>
    case DoInput(linear, angular, deadman, takeover, digital, expired) =>
      InputAppends(s, linear, angular, deadman, takeover, digital, expired);
    case DoEnd =>
    case DoTick => TickAppends(s);
    case DoAck(token, accepted) => hide Result; AckAppends(s, token, accepted);
    case DoResult(token, timeout) => hide Ack, End;
    case StoreChange(w) => EndAppends(s.(world := w));
    case TimePasses(_, _) =>
  }

  lemma EndAppends(s: Store)
    requires s.session.Some? ==> s.session.value < |s.sessions|
    ensures s.log <= End(s).log
    ensures End(s).phase == Idle || End(s).phase == Stopping
  {}

  lemma InputAppends(s: Store, linear: Option<real>, angular: Option<real>, deadman: bool, takeover: bool,
                     digital: bool, expired: bool)
    requires s.session.Some? ==> s.session.value < |s.sessions|
    ensures var r := Input(s, linear, angular, deadman, takeover, digital, expired);
            s.log <= r.log && (r.phase == Active ==> s.phase == Active)
  {
    EndAppends(s);
    if deadman && s.phase == Armed && Allowed(s.world) && !expired {
      var caps := Operational(s.world.policy).value;
      var aimed := Aim(s, Bounded(linear, caps.linear), Bounded(angular, caps.angular), digital);
      BeginAppends(aimed, takeover || s.takeover);
    }
    hide End, Begin, Bounded;
  }

  lemma BeginAppends(s: Store, takeover: bool)
    ensures s.log <= Begin(s, takeover).log && Begin(s, takeover).phase != Active
  {
    var ses := Session(s.generation, s.world.robotGeneration, s.world.robot, 0, false, false, false, 0, {},
                       s.world.policy);
    EndAppends(s.(sessions := s.sessions + [ses], session := Some(|s.sessions|), phase := Pending,
                  log := s.log + [Started(|s.sessions|, takeover, s.world.policy)]));
    hide End;
  }

  lemma TickAppends(s: Store)
    requires s.session.Some? ==> s.session.value < |s.sessions|
    ensures s.log <= Tick(s).log && (Tick(s).phase == Active ==> s.phase == Active)
  {
    EndAppends(s);
    var ramped := RampTick(Check(s));
    assert s.log <= ramped.log && (ramped.phase == Active ==> s.phase == Active);
    if ramped.phase == Active && ramped.session.Some? {
      hide Check, RampTick;
      EndAppends(Sample(ramped, ramped.session.value, true, ramped.linear, ramped.angular));
    }
    hide End;
  }

  lemma AckAppends(s: Store, token: Token, accepted: bool)
    requires s.session.Some? ==> s.session.value < |s.sessions|
    ensures s.log <= Ack(s, token, accepted).log
    ensures Ack(s, token, accepted).phase == Active && s.phase != Active ==>
      s.phase == Pending && s.session.Some? && token == StartOf(s.session.value) && accepted && Allowed(s.world)
      && Ack(s, token, accepted).session == s.session
  {
    if token.StartOf? && token.session < |s.sessions| {
      AcceptAppends(s, token.session);
    }
    hide Accept;
  }

  lemma AcceptAppends(s: Store, n: nat)
    requires n < |s.sessions| && (s.session.Some? ==> s.session.value < |s.sessions|)
    ensures s.log <= Accept(s, n).log
    ensures Accept(s, n).phase == Active ==>
      || s.phase == Active
      || (s.phase == Pending && s.session == Some(n) && Allowed(s.world) && Accept(s, n).session == s.session)
  {
    EndAppends(Told(s, n, true));
    hide End;
  }

  lemma {:induction false} RunAppend(s: Store, es: seq<Event>, fs: seq<Event>)
    ensures Run(s, es + fs) == Run(Run(s, es), fs)
    decreases |es|
  {
    hide Next;
    if es == [] {
      assert es + fs == fs;
    } else {
      assert (es + fs)[0] == es[0] && (es + fs)[1..] == es[1..] + fs;
      RunAppend(Next(s, es[0]), es[1..], fs);
    }
  }

  lemma {:induction false} RunLogs(s: Store, es: seq<Event>)
    requires Good(s)
    ensures s.log <= Run(s, es).log
    decreases |es|
  {
    if es != [] {
      GoodInside(s);
      hide Good, Step;
      StepGood(s, es[0]);
      StepAppends(s, es[0]);
      RunLogs(Next(s, es[0]), es[1..]);
    }
  }

  lemma RunAppends(s0: Store, es: seq<Event>, fs: seq<Event>)
    requires Opening(s0)
    ensures Run(s0, es).log <= Run(s0, es + fs).log
  {
    OpeningGood(s0, es);
    hide Run, Good;
    RunAppend(s0, es, fs);
    RunLogs(Run(s0, es), fs);
  }

  /** However acknowledgements, results, refusals and lost connections interleave, a start
      the robot accepted is the one being driven, or has its final answer, or had a stop
      sent after the acceptance; and no session is ever sent more than two stops. */
  lemma AcceptedStartsAreClosed(s0: Store, es: seq<Event>, n: nat)
    requires Opening(s0) && n < |Run(s0, es).sessions|
    ensures var s := Run(s0, es);
            && (Accepted(n) in s.log && !s.sessions[n].startTerminal ==>
                 (s.session == Some(n) && s.phase == Active) || ClosedAfter(s.log, n))
            && Stops(s.log, n) <= 2
  {
    var s := Run(s0, es);
    OpeningGood(s0, es);
    assert Recorded(s.sessions[n], n, s.log);
    hide Books, Phased, ClosedAfter, Run;
  }

  /** Samples carry 0, 1, 2, ... in order. */
  lemma SamplesAreNumbered(s0: Store, es: seq<Event>, i: nat)
    requires Opening(s0) && i < |Run(s0, es).log| && Run(s0, es).log[i].Sampled?
    ensures var e := Run(s0, es).log[i]; e.seqNo == Samples(Run(s0, es).log[..i], e.session)
    ensures var e := Run(s0, es).log[i]; !e.deadman ==> e.linear == 0.0 && e.angular == 0.0
  {
    OpeningGood(s0, es);
    var log := Run(s0, es).log;
    assert Fitting(log[..i], log[i]);
  }

  /** A sample that moves the robot comes after its session's acceptance, with no zero
      sample of the session before it, and keeps to the limits the session started
      with. */
  lemma DeadmanSamplesAreLicensed(s0: Store, es: seq<Event>, i: nat)
    requires Opening(s0) && i < |Run(s0, es).log| && Run(s0, es).log[i].Sampled? && Run(s0, es).log[i].deadman
    ensures var log := Run(s0, es).log;
            var e := log[i];
            && (exists j :: 0 <= j < i && log[j] == Accepted(e.session))
            && (forall j :: 0 <= j < i && log[j].Sampled? && log[j].session == e.session ==> log[j].deadman)
            && (exists p, t, j :: 0 <= j < i && log[j] == Started(e.session, t, p) && Within(p, e.linear, e.angular))
            && -0.3 <= e.linear <= 0.3 && -0.7 <= e.angular <= 0.7
  {
    OpeningGood(s0, es);
    var log := Run(s0, es).log;
    var e := log[i];
    assert Fitting(log[..i], e);
    hide Good, Run, Proper, Fitting, Samples;
    var p :| Begun(log[..i], e.session, p) && Within(p, e.linear, e.angular);
    var t :| Started(e.session, t, p) in log[..i];
    var j := Earlier(log, i, Started(e.session, t, p));
    var k := Earlier(log, i, Accepted(e.session));
    hide Begun, Within;
    forall m | 0 <= m < i && log[m].Sampled? && log[m].session == e.session ensures log[m].deadman {
      assert log[..i][m] == log[m];
    }
    WithinContract(p, e.linear, e.angular);
  }

  lemma Earlier(log: seq<Entry>, i: nat, x: Entry) returns (j: nat)
    requires i <= |log| && x in log[..i]
    ensures j < i && log[j] == x
  {
    j :| 0 <= j < i && log[..i][j] == x;
  }

  lemma WithinContract(p: Policy, linear: real, angular: real)
    requires Within(p, linear, angular)
    ensures -0.3 <= linear <= 0.3 && -0.7 <= angular <= 0.7
  {}

  /** A released session is never driven again, whatever answers still arrive. */
  lemma ReleaseIsFinal(s0: Store, es: seq<Event>, fs: seq<Event>, n: nat)
    requires Opening(s0) && !Unreleased(Run(s0, es).log, n)
    ensures var s := Run(s0, es + fs); !(s.session == Some(n) && (s.phase == Pending || s.phase == Active))
  {
    RunAppends(s0, es, fs);
    OpeningGood(s0, es + fs);
    hide Run;
    var s := Run(s0, es + fs);
    var i :| 0 <= i < |Run(s0, es).log| && Run(s0, es).log[i].Sampled? && Run(s0, es).log[i].session == n &&
        !Run(s0, es).log[i].deadman;
    assert s.log[i] == Run(s0, es).log[i];
    hide Books, Covered;
  }

  /** Driving starts in one way only: the pending session in hand is accepted while its
      input is held and nothing forbids it. */
  lemma OnlyAcceptanceActivates(s0: Store, es: seq<Event>, e: Event)
    requires Opening(s0) && Run(s0, es).phase != Active && Run(s0, es + [e]).phase == Active
    ensures var s := Run(s0, es);
            && s.phase == Pending && s.session.Some? && e == DoAck(StartOf(s.session.value), true)
            && Allowed(s.world) && Run(s0, es + [e]).session == s.session
  {
    var s := Run(s0, es);
    OpeningGood(s0, es);
    RunAppend(s0, es, [e]);
    GoodInside(s);
    assert Run(s0, es + [e]) == Step(s, e);
    hide Good, Run, Input, Tick, Ack, Result, End, Check;
    EndAppends(s);
    match e
    case DoArm(_) =>
    case DoInput(linear, angular, deadman, takeover, digital, expired) =>
      InputAppends(s, linear, angular, deadman, takeover, digital, expired);
    case DoEnd =>
    case DoTick => TickAppends(s);
    case DoAck(token, accepted) => AckAppends(s, token, accepted);
    case DoResult(token, timeout) => ResultActivates(s, token, timeout);
    case StoreChange(w) => CheckActivates(s.(world := w));
    case TimePasses(_, _) =>
  }

  lemma ResultActivates(s: Store, token: Token, timeout: bool)
    requires s.session.Some? ==> s.session.value < |s.sessions|
    ensures Result(s, token, timeout).phase == Active ==> s.phase == Active
  {
    EndAppends(s);
    hide End;
  }

  lemma CheckActivates(s: Store)
    requires s.session.Some? ==> s.session.value < |s.sessions|
    ensures s.log <= Check(s).log && (Check(s).phase == Active ==> s.phase == Active)
  {
    EndAppends(s);
    hide End;
  }

  /** Between events: no session exactly when idle or armed; stopping lasts until the
      start and every stop have been answered; nothing is held while not driving. */
  lemma PhasesAreConsistent(s0: Store, es: seq<Event>)
    requires Opening(s0)
    ensures var s := Run(s0, es);
            && (s.session.None? <==> s.phase == Idle || s.phase == Armed)
            && (s.session.Some? ==> s.session.value < |s.sessions|)
            && (s.phase == Stopping ==>
                  !s.sessions[s.session.value].startTerminal || s.sessions[s.session.value].pendingStops != {})
            && (s.phase == Idle || s.phase == Stopping ==> !s.deadman && s.linear == 0.0 && s.angular == 0.0)
            && (s.phase == Pending || s.phase == Active ==> s.sessions[s.session.value].generation == s.generation)
            && (forall n, k :: 0 <= n < |s.sessions| && k in s.sessions[n].pendingStops ==> k < s.sessions[n].stops)
  {
    var s := Run(s0, es);
    OpeningGood(s0, es);
    hide Run;
    forall n, k | 0 <= n < |s.sessions| && k in s.sessions[n].pendingStops ensures k < s.sessions[n].stops {
      assert Recorded(s.sessions[n], n, s.log);
    }
    hide Books, Covered;
  }

  // ---- The ramp -------------------------------------------------------------------------------------------

  function Ramped(current: real, target: real, step: real, ticks: nat): real
    decreases ticks
  {
    if ticks == 0 then current else Ramped(RampToward(current, target, step), target, step, ticks - 1)
  }

  lemma {:induction false} RampStays(target: real, step: real, ticks: nat)
    requires step > 0.0
    ensures Ramped(target, target, step, ticks) == target
    decreases ticks
  {
    if ticks > 0 { RampStays(target, step, ticks - 1); }
  }

  predicate SameSide(current: real, target: real) {
    current == 0.0 || (current > 0.0 && target >= 0.0) || (current < 0.0 && target <= 0.0)
  }

  /** How far a number of full steps goes. */
  function Way(ticks: nat, step: real): real { ticks as real * step }

  lemma WayOne(ticks: nat, step: real)
    requires step > 0.0
    ensures Way(ticks + 1, step) == Way(ticks, step) + step
    ensures Way(0, step) == 0.0
  {}

  lemma StraightStep(current: real, target: real, step: real)
    requires step > 0.0 && SameSide(current, target) && Magnitude(target - current) > step
    ensures var next := RampToward(current, target, step);
            SameSide(next, target) && Magnitude(target - next) == Magnitude(target - current) - step
  {}

  lemma ReversalStep(current: real, target: real, step: real)
    requires step > 0.0 && !SameSide(current, target) && Magnitude(target - current) > step
    ensures var next := RampToward(current, target, step);
            (next == 0.0 && Magnitude(target - next) <= Magnitude(target - current))
            || (!SameSide(next, target) && Magnitude(target - next) == Magnitude(target - current) - step)
  {}

  /** Without a reversal each tick covers a full step. */
  lemma {:induction false} RampStraight(current: real, target: real, step: real, ticks: nat)
    requires step > 0.0 && SameSide(current, target) && Magnitude(target - current) <= Way(ticks, step)
    ensures Ramped(current, target, step, ticks) == target
    decreases ticks
  {
    if ticks > 0 {
      WayOne(ticks - 1, step);
      hide Way;
      var next := RampToward(current, target, step);
      if Magnitude(target - current) <= step {
        RampStays(target, step, ticks - 1);
      } else {
        StraightStep(current, target, step);
        hide RampToward, SameSide;
        RampStraight(next, target, step, ticks - 1);
      }
    } else {
      WayOne(0, step);
    }
  }

  /** From any value the target is reached within one tick more than the distance in
      steps, rounded up; only a reversal costs the extra tick. */
  lemma {:induction false} RampArrives(current: real, target: real, step: real, ticks: nat)
    requires step > 0.0 && Magnitude(target - current) <= Way(ticks, step)
    ensures Ramped(current, target, step, ticks + 1) == target
    ensures SameSide(current, target) ==> Ramped(current, target, step, ticks) == target
    decreases ticks
  {
    WayOne(ticks, step);
    if ticks > 0 { WayOne(ticks - 1, step); } else { WayOne(0, step); }
    hide Way;
    var next := RampToward(current, target, step);
    if Magnitude(target - current) <= step {
      RampStays(target, step, ticks);
      if ticks > 0 { RampStays(target, step, ticks - 1); }
    } else if SameSide(current, target) {
      hide SameSide, RampToward;
      RampStraight(current, target, step, ticks);
      RampStraight(current, target, step, ticks + 1);
    } else {
      ReversalStep(current, target, step);
      hide RampToward;
      if next == 0.0 { RampStraight(next, target, step, ticks); } else { RampArrives(next, target, step, ticks - 1); }
    }
  }

  /** Without a reversal the target is reached after exactly the distance in steps. */
  lemma {:induction false} RampStraightExactly(current: real, target: real, step: real, ticks: nat)
    requires step > 0.0 && SameSide(current, target)
    ensures Ramped(current, target, step, ticks) == target <==> Magnitude(target - current) <= Way(ticks, step)
    decreases ticks
  {
    WayOne(ticks, step);
    if ticks > 0 {
      WayOne(ticks - 1, step);
      WayIsPositive(ticks - 1, step);
      hide Way;
      var next := RampToward(current, target, step);
      if Magnitude(target - current) <= step {
        RampStays(target, step, ticks - 1);
      } else {
        StraightStep(current, target, step);
        hide RampToward, SameSide;
        RampStraightExactly(next, target, step, ticks - 1);
      }
    }
  }

  lemma {:induction false} WayIsPositive(ticks: nat, step: real)
    requires step > 0.0
    ensures Way(ticks, step) >= 0.0
  {
    WayOne(ticks, step);
    if ticks > 0 {
      WayOne(ticks - 1, step);
      WayIsPositive(ticks - 1, step);
    }
  }

  /** The least number of steps that covers a distance. */
  predicate Covers(steps: nat, step: real, distance: real) {
    distance <= Way(steps, step) && (steps > 0 ==> Way(steps - 1, step) < distance)
  }

  /** There is one for every distance. */
  lemma StepsToCover(distance: real, step: real) returns (steps: nat)
    requires step > 0.0 && distance >= 0.0
    ensures Covers(steps, step, distance)
  {
    var x := distance / step;
    steps := if x.Floor as real == x then x.Floor else x.Floor + 1;
    RoundedUp(steps, step, x, distance);
  }

  lemma RoundedUp(steps: nat, step: real, x: real, distance: real)
    requires step > 0.0 && distance == x * step && x <= steps as real < x + 1.0
    ensures Covers(steps, step, distance)
  {
    var over := steps as real - x;
    assert Way(steps, step) == distance + over * step;
    if steps > 0 { assert Way(steps - 1, step) == distance + (over - 1.0) * step; }
  }

  /** When the target has been reached: after the distance in steps, or, if a reversal cannot
      be finished in the `zero` steps that end the old direction, after those and then the
      steps of the new one. */
  lemma {:induction false} RampArrivesExactly(current: real, target: real, step: real, ticks: nat, zero: nat)
    requires step > 0.0 && Covers(zero, step, Magnitude(current))
    ensures Ramped(current, target, step, ticks) == target <==>
              if SameSide(current, target) || Magnitude(target - current) <= Way(zero, step)
              then Magnitude(target - current) <= Way(ticks, step)
              else ticks >= zero && Magnitude(target) <= Way(ticks - zero, step)
    decreases ticks
  {
    if SameSide(current, target) {
      RampStraightExactly(current, target, step, ticks);
    } else {
      ReversalIsLong(current, target, step, zero);
      WayOne(zero - 1, step);
      WayIsPositive(zero - 1, step);
      WayOne(ticks, step);
      if ticks > 0 {
        WayOne(ticks - 1, step);
        WayIsPositive(ticks - 1, step);
        var next := RampToward(current, target, step);
        if Magnitude(target - current) <= step {
          hide Way;
          RampStays(target, step, ticks - 1);
        } else {
          ReversalStepExactly(current, target, step, zero);
          hide RampToward, Way;
          if next == 0.0 {
            RampStraightExactly(next, target, step, ticks - 1);
          } else {
            RampArrivesExactly(next, target, step, ticks - 1, zero - 1);
          }
        }
      }
    }
  }

  lemma ReversalIsLong(current: real, target: real, step: real, zero: nat)
    requires step > 0.0 && !SameSide(current, target) && Covers(zero, step, Magnitude(current))
    ensures zero > 0 && Magnitude(target - current) == Magnitude(target) + Magnitude(current)
    ensures Magnitude(target) > 0.0
  {
    WayOne(0, step);
  }

  /** A tick of a reversal: the first step ends in zero, or leaves one step less to go. */
  lemma ReversalStepExactly(current: real, target: real, step: real, zero: nat)
    requires step > 0.0 && !SameSide(current, target) && Magnitude(target - current) > step
    requires zero > 0 && Covers(zero, step, Magnitude(current))
    ensures var next := RampToward(current, target, step);
            if zero == 1 then next == 0.0
            else
              && !SameSide(next, target) && next != 0.0 && Covers(zero - 1, step, Magnitude(next))
              && Magnitude(target - next) == Magnitude(target - current) - step
  {
    WayOne(zero - 1, step);
    if zero > 1 { WayOne(zero - 2, step); WayIsPositive(zero - 2, step); } else { WayOne(0, step); }
    hide Way;
  }

  /** A reversal from 0.15 to -0.15 in steps of 0.1 covers three steps and takes four ticks. */
  lemma ReversalCostsATick()
    ensures Magnitude(-0.15 - 0.15) <= Way(3, 0.1)
    ensures Ramped(0.15, -0.15, 0.1, 3) != -0.15 && Ramped(0.15, -0.15, 0.1, 4) == -0.15
  {
    RampArrivesExactly(0.15, -0.15, 0.1, 3, 2);
    RampArrivesExactly(0.15, -0.15, 0.1, 4, 2);
  }
}
