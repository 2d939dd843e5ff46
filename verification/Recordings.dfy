/**
 The telemetry recorder of server/app/recordings/recorder.py over the background writer:
 decimation per channel, the cap on samples, and a stop that reports what was stored.
 */
module Recordings {
  import opened Options
  import opened BackgroundWrites

  datatype Channel = Pose | Lidar | Path | BaseState | Diagnostics | Battery | Note | Unknown

  /** The least number of seconds between stored samples of a channel. */
  function Interval(c: Channel): real {
    match c
    case Pose => 0.5
    case Lidar => 1.0
    case Path => 1.0
    case BaseState => 1.0
    case Diagnostics => 5.0
    case Battery => 5.0
    case Note => 0.0
    case Unknown => 1.0
  }

  const MAX_SAMPLES := 100_000

  const DEFAULTS: seq<Channel> := [Pose, Battery, Note]

  function Known(cs: seq<Channel>): (r: seq<Channel>)
    ensures forall c :: c in r <==> c in cs && !c.Unknown?
    ensures Unknown !in cs ==> r == cs
  {
    if cs == [] then []
    else Known(cs[..|cs| - 1]) + if cs[|cs| - 1].Unknown? then [] else [cs[|cs| - 1]]
  }

  /** The channels asked for that exist, or the default ones. */
  function Wanted(asked: seq<Channel>): (r: seq<Channel>)
    ensures r != [] && Unknown !in r
    ensures (exists c :: c in asked && !c.Unknown?) ==> forall c :: c in r <==> c in asked && !c.Unknown?
    ensures (forall c :: c in asked ==> c.Unknown?) ==> r == DEFAULTS
  {
    var known := Known(if asked == [] then DEFAULTS else asked);
    assert known != [] ==> known[0] in known;
    if known == [] then DEFAULTS else known
  }

  datatype Sample = Sample(recording: int, channel: Channel, time: real)

  datatype Stop = Flushing(flush: nat) | Reported(flush: nat, count: nat)

  /** `clock` is the last reading of the monotonic clock; `known` are the recordings the
      database has created; `stops` are the calls of stop() by recording. */
  datatype State = State(active: Option<int>, channels: set<Channel>, lastMono: map<Channel, real>, samples: nat,
                         writer: Writer<Sample>, clock: real, known: set<int>, stops: map<int, Stop>)

  const INITIAL := State(None, {}, map[], 0, Fresh<Sample>(256), 0.0, {}, map[])

  /** How many samples of a recording are in a history. */
  function Count(all: seq<Sample>, id: int): nat {
    if all == [] then 0 else Count(all[..|all| - 1], id) + if all[|all| - 1].recording == id then 1 else 0
  }

  /** The sample count the database keeps: one for each write that succeeded. */
  function Stored(all: seq<Sample>, ended: map<nat, Outcome>, id: int): nat {
    if all == [] then 0
    else
      var n := |all| - 1;
      Stored(all[..n], ended, id) + if all[n].recording == id && n in ended && ended[n] == Succeeded then 1 else 0
  }

  function Since(s: State, c: Channel): real { if c in s.lastMono then s.lastMono[c] else 0.0 }

  function Offer(s: State, c: Channel, now: real): State {
    if s.active.None? || c !in s.channels then s
    else if Interval(c) > 0.0 && now - Since(s, c) < Interval(c) then s
    else Keep(s.(lastMono := s.lastMono[c := now]), c, now)
  }

  function Keep(s: State, c: Channel, now: real): State
    requires s.active.Some?
  {
    if s.samples >= MAX_SAMPLES then s
    else
      var w := Submit(s.writer, Sample(s.active.value, c, now));
      s.(writer := w, samples := if |w.accepted| > |s.writer.accepted| then s.samples + 1 else s.samples)
  }

  /** start() once the database has created the recording. */
  function Begun(s: State, id: int, asked: seq<Channel>): State {
    s.(active := Some(id), channels := (set c | c in Wanted(asked)), lastMono := map[], samples := 0,
       known := s.known + {id})
  }

  /** stop() up to its flush. */
  function Stopping(s: State, f: nat): State
    requires s.active.Some?
  {
    s.(active := None, writer := Begin(s.writer, f), stops := s.stops[s.active.value := Flushing(f)])
  }

  /** stop() reading the row once its flush has returned. */
  function Report(s: State, id: int): State
    requires id in s.stops
  {
    s.(stops := s.stops[id := Reported(s.stops[id].flush, Stored(s.writer.accepted, s.writer.ended, id))])
  }

  datatype RecorderEvent =
    | Offered(channel: Channel, now: real)
    | Started(id: int, asked: seq<Channel>)
    | StopCalled(flush: nat)
    | StopReturns(id: int)
    | WriterStep(e: Event<Sample>)

  predicate Possible(s: State, e: RecorderEvent) {
    match e
    case Offered(_, now) => s.clock <= now
    case Started(id, _) => s.active.None? && id !in s.known
    case StopCalled(f) => s.active.Some? && f !in s.writer.flushes
    case StopReturns(id) =>
      id in s.stops && s.stops[id].Flushing? && s.stops[id].flush in s.writer.flushes &&
          s.writer.flushes[s.stops[id].flush].Returned?
    case WriterStep(e) => !e.DoSubmit?
  }

  function Next(s: State, e: RecorderEvent): State {
    if !Possible(s, e) then s
    else
      match e
      case Offered(c, now) => Offer(s, c, now).(clock := now)
      case Started(id, asked) => Begun(s, id, asked)
      case StopCalled(f) => Stopping(s, f)
      case StopReturns(id) => Report(s, id)
      case WriterStep(w) => s.(writer := Step(s.writer, w))
  }

  // ---- The invariant --------------------------------------------------------------------

  /** Samples of one channel of one recording keep their distance. */
  ghost predicate Spaced(all: seq<Sample>) {
    forall i, j :: 0 <= i < j < |all| && all[i].recording == all[j].recording && all[i].channel == all[j].channel ==>
      all[j].time - all[i].time >= Interval(all[j].channel)
  }

  /** The last time kept for a channel is no earlier than any sample of it. */
  ghost predicate Remembered(s: State) {
    && (forall c :: c in s.lastMono ==> s.lastMono[c] <= s.clock)
    && forall i :: 0 <= i < |s.writer.accepted| && s.active == Some(s.writer.accepted[i].recording) ==>
         s.writer.accepted[i].channel in s.lastMono &&
             s.writer.accepted[i].time <= s.lastMono[s.writer.accepted[i].channel]
  }

  ghost predicate Named(s: State) {
    && (s.active.Some? ==> s.active.value in s.known && s.active.value !in s.stops)
    && (forall id :: id in s.stops ==> id in s.known)
    && (forall i :: 0 <= i < |s.writer.accepted| ==> s.writer.accepted[i].recording in s.known)
  }

  ghost predicate Capped(s: State) {
    && (s.active.Some? ==> s.samples == Count(s.writer.accepted, s.active.value) <= MAX_SAMPLES)
    && forall id :: Count(s.writer.accepted, id) <= MAX_SAMPLES
  }

  /** A stop's flush covers everything its recording will ever have. */
  ghost predicate Covered(w: Writer<Sample>, id: int, stop: Stop) {
    && stop.flush in w.flushes
    && (forall k :: 0 <= k < |w.accepted| && w.accepted[k].recording == id ==> k < w.flushes[stop.flush].target)
    && (stop.Reported? ==> w.flushes[stop.flush].Returned?)
    && (stop.Reported? && w.flushes[stop.flush].waited ==> stop.count == Stored(w.accepted, w.ended, id))
  }

  ghost predicate Answered(s: State) {
    forall id :: id in s.stops ==> Covered(s.writer, id, s.stops[id])
  }

  ghost predicate Fine(s: State) {
    Good(s.writer) && Spaced(s.writer.accepted) && Remembered(s) && Named(s) && Capped(s) && Answered(s)
  }

  // ---- Each step keeps it ------------------------------------------------------------------

  lemma CountGrows(all: seq<Sample>, x: Sample, id: int, ended: map<nat, Outcome>)
    ensures Count(all + [x], id) == Count(all, id) + if x.recording == id then 1 else 0
    ensures x.recording != id ==> Stored(all + [x], ended, id) == Stored(all, ended, id)
  {
    assert (all + [x])[..|all|] == all;
  }

  lemma {:induction false} CountNone(all: seq<Sample>, id: int)
    requires forall i :: 0 <= i < |all| ==> all[i].recording != id
    ensures Count(all, id) == 0
  {
    if all != [] { CountNone(all[..|all| - 1], id); }
  }

  /** A write that ends changes nothing for the other recordings. */
  lemma {:induction false} StoredOther(all: seq<Sample>, ended: map<nat, Outcome>, k: nat, o: Outcome, id: int)
    requires k >= |all| || all[k].recording != id
    ensures Stored(all, ended[k := o], id) == Stored(all, ended, id)
  {
    if all != [] { StoredOther(all[..|all| - 1], ended, k, o, id); }
  }

  lemma SpacedGrows(all: seq<Sample>, x: Sample)
    requires Spaced(all)
    requires forall i :: 0 <= i < |all| && all[i].recording == x.recording && all[i].channel == x.channel ==>
        x.time - all[i].time >= Interval(x.channel)
    ensures Spaced(all + [x])
  {
    hide Interval;
  }

  /** A submission appends to what is accepted, or drops the write. */
  lemma SubmitShape(w: Writer<Sample>, x: Sample)
    ensures var n := Submit(w, x);
            && (n.accepted == w.accepted || n.accepted == w.accepted + [x])
            && n.ended == w.ended && n.flushes == w.flushes
  {}

  lemma CoveredGrows(w: Writer<Sample>, n: Writer<Sample>, x: Sample, id: int, stop: Stop)
    requires Covered(w, id, stop) && x.recording != id
    requires n.accepted == w.accepted + [x] && n.ended == w.ended && n.flushes == w.flushes
    ensures Covered(n, id, stop)
  {
    CountGrows(w.accepted, x, id, w.ended);
    hide Stored;
  }

  lemma OfferSpaced(s: State, c: Channel, now: real)
    requires Spaced(s.writer.accepted) && Remembered(s) && s.clock <= now && s.active.Some?
    requires !(Interval(c) > 0.0 && now - Since(s, c) < Interval(c))
    ensures Spaced(s.writer.accepted + [Sample(s.active.value, c, now)])
  {
    assert Interval(c) >= 0.0;
    hide Spaced, Interval;
    SpacedGrows(s.writer.accepted, Sample(s.active.value, c, now));
  }

  /** What an accepted sample changes. */
  ghost predicate Stepped(s: State, n: State, x: Sample) {
    && n.active == s.active == Some(x.recording) && n.known == s.known && n.stops == s.stops && n.clock == x.time
    && n.lastMono == s.lastMono[x.channel := x.time] && n.samples == s.samples + 1
    && n.writer.accepted == s.writer.accepted + [x]
    && n.writer.ended == s.writer.ended && n.writer.flushes == s.writer.flushes
  }

  lemma SteppedNames(s: State, n: State, x: Sample)
    requires Stepped(s, n, x) && Named(s) && Remembered(s) && s.clock <= x.time
    ensures Named(n) && Remembered(n)
  {}

  lemma SteppedCounts(s: State, n: State, x: Sample)
    requires Stepped(s, n, x) && Capped(s) && s.samples < MAX_SAMPLES
    ensures Capped(n)
  {
    forall id
      ensures Count(n.writer.accepted, id) == Count(s.writer.accepted, id) + if x.recording == id then 1 else 0
    {
      CountGrows(s.writer.accepted, x, id, s.writer.ended);
    }
    hide Count;
  }

  lemma SteppedAnswers(s: State, n: State, x: Sample)
    requires Stepped(s, n, x) && Answered(s) && Named(s)
    ensures Answered(n)
  {
    hide Covered;
    forall id | id in n.stops ensures Covered(n.writer, id, n.stops[id]) {
      CoveredGrows(s.writer, n.writer, x, id, s.stops[id]);
    }
  }

  /** Nothing was accepted, but time and memory went on. */
  lemma SkippedGood(s: State, n: State, c: Channel)
    requires Fine(s) && Good(n.writer) && s.clock <= n.clock
    requires n == s.(writer := n.writer, clock := n.clock, lastMono := n.lastMono)
    requires n.lastMono == s.lastMono || n.lastMono == s.lastMono[c := n.clock]
    requires n.writer.accepted == s.writer.accepted && n.writer.ended == s.writer.ended
    requires forall f :: f in s.writer.flushes ==> f in n.writer.flushes && n.writer.flushes[f] == s.writer.flushes[f]
    ensures Fine(n)
  {
    hide Good, Spaced, Count, Covered;
    forall id | id in n.stops ensures Covered(n.writer, id, n.stops[id]) {
      CoveredSame(s.writer, n.writer, id, s.stops[id]);
    }
    SkippedMemory(s, n, c);
    hide Remembered;
  }

  lemma SkippedMemory(s: State, n: State, c: Channel)
    requires Remembered(s) && s.clock <= n.clock && n.active == s.active && n.writer.accepted == s.writer.accepted
    requires n.lastMono == s.lastMono || n.lastMono == s.lastMono[c := n.clock]
    ensures Remembered(n)
  {}

  lemma OfferGood(s: State, c: Channel, now: real)
    requires Fine(s) && s.clock <= now
    ensures Fine(Offer(s, c, now).(clock := now))
  {
    var n := Offer(s, c, now).(clock := now);
    hide Good, Submit, Spaced, Interval, Count, Covered, Remembered, Since;
    if s.active.Some? && c in s.channels && !(Interval(c) > 0.0 && now - Since(s, c) < Interval(c)) &&
        s.samples < MAX_SAMPLES {
      var x := Sample(s.active.value, c, now);
      SubmitGood(s.writer, x);
      SubmitShape(s.writer, x);
      if n.writer.accepted == s.writer.accepted + [x] {
        assert Stepped(s, n, x);
        OfferSpaced(s, c, now);
        SteppedNames(s, n, x);
        SteppedCounts(s, n, x);
        SteppedAnswers(s, n, x);
        hide Named, Capped, Answered, Stepped, Offer;
      } else {
        assert n.writer.accepted == s.writer.accepted;
        hide Named, Capped, Answered;
        SkippedGood(s, n, c);
      }
    } else {
      hide Named, Capped, Answered;
      SkippedGood(s, n, c);
    }
  }

  lemma CoveredSame(w: Writer<Sample>, n: Writer<Sample>, id: int, stop: Stop)
    requires Covered(w, id, stop) && n.accepted == w.accepted && n.ended == w.ended
    requires forall f :: f in w.flushes ==> f in n.flushes && n.flushes[f] == w.flushes[f]
    ensures Covered(n, id, stop)
  {
    hide Stored;
  }

  lemma StartGood(s: State, id: int, asked: seq<Channel>)
    requires Fine(s) && id !in s.known
    ensures Fine(Begun(s, id, asked))
  {
    CountNone(s.writer.accepted, id);
    hide Good, Spaced, Count, Covered;
  }

  lemma StoppingGood(s: State, f: nat)
    requires Fine(s) && s.active.Some? && f !in s.writer.flushes
    ensures Fine(Stopping(s, f))
  {
    BeginGood(s.writer, f);
    var n := Stopping(s, f);
    hide Good, Spaced, Count;
    forall id | id in n.stops ensures Covered(n.writer, id, n.stops[id]) {
      if id != s.active.value { CoveredSame(s.writer, n.writer, id, s.stops[id]); }
    }
    hide Covered, Begin;
    assert n.writer.accepted == s.writer.accepted;
  }

  lemma ReportGood(s: State, id: int)
    requires Fine(s) && Possible(s, StopReturns(id))
    ensures Fine(Report(s, id))
  {
    hide Good, Spaced, Count, Stored;
  }

  lemma EndCovered(w: Writer<Sample>, i: nat, o: Outcome, id: int, stop: Stop)
    requires Good(w) && Busy(w, i) && w.unfinished > 0 && Covered(w, id, stop)
    ensures Covered(End(w, i, o), id, stop)
  {
    var n := End(w, i, o);
    var k := w.workers[i].value;
    DoneFlight(w.workers, i);
    assert k !in w.ended && k < |w.accepted|;
    var f := w.flushes[stop.flush];
    assert Reached(f, |w.accepted|, w.ended);
    hide Good, InFlight, Stored;
    if stop.Reported? && n.flushes[stop.flush].waited {
      assert f.Returned? && f.waited;
      StoredOther(w.accepted, w.ended, k, o, id);
    }
  }

  lemma WriterCovers(w: Writer<Sample>, e: Event<Sample>, id: int, stop: Stop)
    requires Good(w) && !e.DoSubmit? && Covered(w, id, stop)
    ensures Covered(Step(w, e), id, stop)
  {
    if e.DoEnd? && Busy(w, e.i) && w.unfinished > 0 {
      hide Good, Covered;
      EndCovered(w, e.i, e.o, id, stop);
    } else {
      hide Good, Covered;
      CoveredSame(w, Step(w, e), id, stop);
    }
  }

  lemma WriterGood(s: State, e: Event<Sample>)
    requires Fine(s) && !e.DoSubmit?
    ensures Fine(s.(writer := Step(s.writer, e)))
  {
    var n := Step(s.writer, e);
    StepGood(s.writer, e);
    assert n.accepted == s.writer.accepted;
    hide Good, Covered, Step;
    SameAccepted(s, s.(writer := n));
    hide Spaced, Remembered, Named, Capped;
    forall id | id in s.stops ensures Covered(n, id, s.stops[id]) { WriterCovers(s.writer, e, id, s.stops[id]); }
  }

  lemma SameAccepted(s: State, n: State)
    requires Spaced(s.writer.accepted) && Remembered(s) && Named(s) && Capped(s)
    requires n == s.(writer := n.writer) && n.writer.accepted == s.writer.accepted
    ensures Spaced(n.writer.accepted) && Remembered(n) && Named(n) && Capped(n)
  {
    hide Spaced, Count;
  }

  lemma NextFine(s: State, e: RecorderEvent)
    requires Fine(s)
    ensures Fine(Next(s, e))
  {
    hide Fine, Offer, Begun, Stopping, Report, Step;
    if Possible(s, e) {
      match e
      case Offered(c, now) => OfferGood(s, c, now);
      case Started(id, asked) => StartGood(s, id, asked);
      case StopCalled(f) => StoppingGood(s, f);
      case StopReturns(id) => ReportGood(s, id);
      case WriterStep(w) => WriterGood(s, w);
    }
  }

  function History(es: seq<RecorderEvent>): State {
    if es == [] then INITIAL else Next(History(es[..|es| - 1]), es[|es| - 1])
  }

  lemma {:induction false} HistoryFine(es: seq<RecorderEvent>)
    ensures Fine(History(es))
  {
    if es == [] {
      InitialFine();
    } else {
      HistoryFine(es[..|es| - 1]);
      hide Fine, Next;
      NextFine(History(es[..|es| - 1]), es[|es| - 1]);
    }
  }

  lemma InitialFine()
    ensures Fine(INITIAL)
  {
    FreshGood<Sample>(256);
    hide Good;
    var none: seq<Sample> := [];
    assert INITIAL.writer.accepted == none;
    forall id ensures Count(none, id) == 0 { CountNone(none, id); }
    hide Count, Covered;
  }

  // ---- What holds in every history ----------------------------------------------------------

  /** The flush has returned, and had a task to wait for. */
  predicate Waited(w: Writer<Sample>, f: nat) {
    f in w.flushes && w.flushes[f].Returned? && w.flushes[f].waited
  }

  /** The report of a stop agrees with what the database holds. */
  ghost predicate Correct(s: State, id: int) {
    id in s.stops && s.stops[id].Reported? && s.stops[id].count == Stored(s.writer.accepted, s.writer.ended, id)
  }

  /** Every write of the recording has been tried to its end. */
  ghost predicate Settled(s: State, id: int) {
    forall k :: 0 <= k < |s.writer.accepted| && s.writer.accepted[k].recording == id ==> k in s.writer.ended
  }

  /** A stop that found the writer running reports exactly the samples of its recording
      whose write succeeded, and no write of that recording is outstanding. */
  lemma StopReportsWhatWasStored(es: seq<RecorderEvent>, id: int)
    requires var s := History(es); id in s.stops && s.stops[id].Reported? && Waited(s.writer, s.stops[id].flush)
    ensures Correct(History(es), id) && Settled(History(es), id)
  {
    var s := History(es);
    HistoryFine(es);
    assert Covered(s.writer, id, s.stops[id]);
    assert Reached(s.writer.flushes[s.stops[id].flush], |s.writer.accepted|, s.writer.ended);
    hide History, Stored, Spaced, Remembered, Capped;
  }

  /** Every recording holds at most 100000 samples, and two samples of one of its channels
      are at least the channel's interval apart. */
  lemma RecordingsAreDecimated(es: seq<RecorderEvent>, id: int)
    ensures var all := History(es).writer.accepted;
            && Count(all, id) <= MAX_SAMPLES
            && forall i, j :: 0 <= i < j < |all| && all[i].recording == all[j].recording == id
                              && all[i].channel == all[j].channel ==>
                 all[j].time - all[i].time >= Interval(all[j].channel)
  {
    HistoryFine(es);
    hide History, Interval, Count, Good;
  }

  // ---- When a report stays correct ------------------------------------------------------------

  /** The state after more events. */
  function Onto(s: State, more: seq<RecorderEvent>): State {
    if more == [] then s else Next(Onto(s, more[..|more| - 1]), more[|more| - 1])
  }

  lemma {:induction false} HistoryOnto(es: seq<RecorderEvent>, more: seq<RecorderEvent>)
    ensures History(es + more) == Onto(History(es), more)
  {
    hide Next;
    if more == [] {
      assert es + more == es;
    } else {
      var n := |more| - 1;
      HistoryOnto(es, more[..n]);
      assert (es + more)[..|es + more| - 1] == es + more[..n];
    }
  }

  lemma {:induction false} OntoAppend(s: State, a: seq<RecorderEvent>, b: seq<RecorderEvent>)
    ensures Onto(s, a + b) == Onto(Onto(s, a), b)
  {
    hide Next;
    if b == [] {
      assert a + b == a;
    } else {
      var n := |b| - 1;
      OntoAppend(s, a, b[..n]);
      assert (a + b)[..|a + b| - 1] == a + b[..n];
    }
  }

  lemma OntoOne(s: State, e: RecorderEvent)
    ensures Onto(s, [e]) == Next(s, e)
  {
    hide Next;
    assert [e][..0] == [];
  }

  /** What has been accepted, ended or reported stays so. */
  ghost predicate Extends(s: State, n: State) {
    && s.writer.accepted <= n.writer.accepted
    && (forall k :: k in s.writer.ended ==> k in n.writer.ended && n.writer.ended[k] == s.writer.ended[k])
    && (forall id :: id in s.stops && s.stops[id].Reported? ==> id in n.stops && n.stops[id] == s.stops[id])
  }

  lemma NextExtends(s: State, e: RecorderEvent)
    requires Fine(s)
    ensures Extends(s, Next(s, e))
  {
    hide Good, Spaced, Remembered, Capped, Answered, Wanted, Interval, Stored, Since;
    match e
    case WriterStep(w) => StepKeeps(s.writer, w);
    case Offered(c, now) =>
      if s.active.Some? { SubmitShape(s.writer, Sample(s.active.value, c, now)); }
      hide Submit;
    case _ =>
  }

  lemma {:induction false} OntoExtends(s: State, more: seq<RecorderEvent>)
    requires Fine(s)
    ensures Fine(Onto(s, more)) && Extends(s, Onto(s, more))
  {
    hide Fine, Next;
    if more != [] {
      var m := Onto(s, more[..|more| - 1]);
      OntoExtends(s, more[..|more| - 1]);
      NextFine(m, more[|more| - 1]);
      NextExtends(m, more[|more| - 1]);
    }
  }

  /** Once reported, a recording gets no further samples. */
  lemma NextAdds(s: State, e: RecorderEvent, id: int)
    requires Fine(s) && id in s.stops
    ensures forall k :: |s.writer.accepted| <= k < |Next(s, e).writer.accepted| ==>
              Next(s, e).writer.accepted[k].recording != id
  {
    hide Good, Spaced, Remembered, Capped, Answered, Wanted, Interval, Stored, Since;
    match e
    case WriterStep(w) =>
    case Offered(c, now) =>
      if s.active.Some? { SubmitShape(s.writer, Sample(s.active.value, c, now)); }
      hide Submit;
    case _ =>
  }

  /** The stored count depends on the ends of the recording's own writes only. */
  lemma {:induction false} StoredSame(all: seq<Sample>, more: seq<Sample>, ended: map<nat, Outcome>,
                                      later: map<nat, Outcome>, id: int)
    requires all <= more && forall k :: |all| <= k < |more| ==> more[k].recording != id
    requires forall k :: 0 <= k < |all| && all[k].recording == id ==> k in ended && k in later && later[k] == ended[k]
    ensures Stored(more, later, id) == Stored(all, ended, id)
    decreases |more|
  {
    if |more| > |all| {
      StoredSame(all, more[..|more| - 1], ended, later, id);
    } else if all != [] {
      assert all == more;
      StoredSame(all[..|all| - 1], more[..|all| - 1], ended, later, id);
    }
  }

  lemma NextStaysCorrect(s: State, e: RecorderEvent, id: int)
    requires Fine(s) && Correct(s, id) && Settled(s, id)
    ensures Correct(Next(s, e), id) && Settled(Next(s, e), id)
  {
    var n := Next(s, e);
    NextExtends(s, e);
    NextAdds(s, e, id);
    hide Fine, Next, Stored;
    StoredSame(s.writer.accepted, n.writer.accepted, s.writer.ended, n.writer.ended, id);
  }

  lemma {:induction false} StaysCorrect(s: State, more: seq<RecorderEvent>, id: int)
    requires Fine(s) && Correct(s, id) && Settled(s, id)
    ensures Correct(Onto(s, more), id) && Settled(Onto(s, more), id)
  {
    hide Fine, Next, Correct, Settled;
    if more != [] {
      StaysCorrect(s, more[..|more| - 1], id);
      OntoExtends(s, more[..|more| - 1]);
      NextStaysCorrect(Onto(s, more[..|more| - 1]), more[|more| - 1], id);
    }
  }

  // ---- A write that is outstanding can still succeed --------------------------------------------

  /** The stored count never falls, and rises with a write that succeeds later. */
  lemma {:induction false} StoredRises(all: seq<Sample>, more: seq<Sample>, ended: map<nat, Outcome>,
                                       later: map<nat, Outcome>, id: int, k: nat)
    requires all <= more && forall m :: m in ended ==> m in later && later[m] == ended[m]
    ensures Stored(more, later, id) >= Stored(all, ended, id)
    ensures k < |all| && all[k].recording == id && k !in ended && k in later && later[k] == Succeeded ==>
              Stored(more, later, id) > Stored(all, ended, id)
    decreases |more|
  {
    if |more| > |all| {
      StoredRises(all, more[..|more| - 1], ended, later, id, k);
    } else if all != [] {
      assert all == more;
      StoredRises(all[..|all| - 1], more[..|all| - 1], ended, later, id, k);
    }
  }

  /** Write `k` has succeeded. */
  predicate Made(s: State, k: nat) { k in s.writer.ended && s.writer.ended[k] == Succeeded }

  lemma EndsWell(s: State, i: nat)
    requires Fine(s) && Busy(s.writer, i)
    ensures var n := Next(s, WriterStep(DoEnd(i, Succeeded)));
            && Made(n, s.writer.workers[i].value) && n.writer.begun == s.writer.begun
            && n.writer.accepted == s.writer.accepted && i in n.writer.workers && n.writer.workers[i].None?
  {
    DoneFlight(s.writer.workers, i);
    hide InFlight, Apart, Parted, Spaced, Remembered, Named, Capped, Answered, Release;
  }

  lemma TakesNext(s: State, i: nat)
    requires Fine(s) && i in s.writer.workers && s.writer.workers[i].None? && |s.writer.begun| < |s.writer.accepted|
    ensures var n := Next(s, WriterStep(DoTake(i)));
            && Busy(n.writer, i) && n.writer.workers[i] == Some(|s.writer.begun|)
            && |n.writer.begun| == |s.writer.begun| + 1 && n.writer.accepted == s.writer.accepted
  {
    hide InFlight, Parted, Manned, Spaced, Remembered, Named, Capped, Answered;
  }

  /** An idle worker gets to any queued write in the end. */
  lemma {:induction false} Drains(s: State, i: nat, k: nat) returns (more: seq<RecorderEvent>)
    requires Fine(s) && i in s.writer.workers && s.writer.workers[i].None?
    requires |s.writer.begun| <= k < |s.writer.accepted|
    ensures Made(Onto(s, more), k)
    decreases k - |s.writer.begun|
  {
    hide Fine, Next, Made;
    var take, end := WriterStep(DoTake(i)), WriterStep(DoEnd(i, Succeeded));
    TakesNext(s, i);
    var m := Next(s, take);
    NextFine(s, take);
    EndsWell(m, i);
    NextFine(m, end);
    OntoOne(s, take);
    OntoOne(m, end);
    OntoAppend(s, [take], [end]);
    more := [take] + [end];
    if k > |s.writer.begun| {
      var rest := Drains(Next(m, end), i, k);
      OntoAppend(s, more, rest);
      more := more + rest;
    }
  }

  /** The writer's task is forgotten and the active recording, if any, stopped. */
  lemma Quieted(s: State) returns (more: seq<RecorderEvent>)
    requires Fine(s)
    ensures var n := Onto(s, more);
            && n.writer.task.None? && n.active.None?
            && n.writer.begun == s.writer.begun && n.writer.accepted == s.writer.accepted
  {
    hide Good, Spaced, Remembered, Capped, Answered, Stored, Count;
    var f := Above(s.writer.flushes.Keys);
    var retire, stop := WriterStep(DoRetire), StopCalled(f);
    var s1 := Next(s, retire);
    OntoOne(s, retire);
    more := [retire];
    if s.active.Some? {
      OntoOne(s1, stop);
      OntoAppend(s, more, [stop]);
      more := more + [stop];
      var back := StopReturns(s.active.value);
      OntoOne(Next(s1, stop), back);
      OntoAppend(s, more, [back]);
      more := more + [back];
    }
  }

  /** Then another recording begins. */
  lemma Restarted(s: State) returns (more: seq<RecorderEvent>)
    requires Fine(s)
    ensures var n := Onto(s, more);
            && n.writer.task.None? && n.active.Some? && n.channels == {Note} && n.samples == 0
            && n.writer.begun == s.writer.begun && n.writer.accepted == s.writer.accepted
  {
    hide Fine;
    more := Quieted(s);
    var m := Onto(s, more);
    var id := Above(m.known);
    var start := Started(id, [Note]);
    OntoOne(m, start);
    OntoAppend(s, more, [start]);
    more := more + [start];
  }

  /** A sample of a new recording makes the retired writer start a worker, dropped or not. */
  lemma WorkerComes(s: State) returns (more: seq<RecorderEvent>, i: nat)
    requires Fine(s)
    ensures var n := Onto(s, more);
            && i in n.writer.workers && n.writer.workers[i].None?
            && n.writer.begun == s.writer.begun && s.writer.accepted <= n.writer.accepted
  {
    more := Restarted(s);
    var m := Onto(s, more);
    var e := Offered(Note, m.clock);
    OntoOne(m, e);
    OntoAppend(s, more, [e]);
    more, i := more + [e], m.writer.spawned;
  }

  /** Whatever has happened to the workers, an accepted write that has not ended may still
      succeed. */
  lemma MaySucceed(s: State, k: nat) returns (more: seq<RecorderEvent>)
    requires Fine(s) && k < |s.writer.accepted| && k !in s.writer.ended
    ensures Made(Onto(s, more), k)
  {
    hide Fine, Next, Made;
    if k < |s.writer.begun| {
      var i := Holder(s, k);
      EndsWell(s, i);
      more := [WriterStep(DoEnd(i, Succeeded))];
      OntoOne(s, more[0]);
    } else {
      var i;
      more, i := WorkerComes(s);
      OntoExtends(s, more);
      var rest := Drains(Onto(s, more), i, k);
      OntoAppend(s, more, rest);
      more := more + rest;
    }
  }

  /** A write that was begun and has not ended is in a worker's hands. */
  lemma Holder(s: State, k: nat) returns (i: nat)
    requires Fine(s) && k < |s.writer.begun| && k !in s.writer.ended
    ensures Busy(s.writer, i) && s.writer.workers[i] == Some(k)
  {
    hide Spaced, Remembered, Named, Capped, Answered, InOrder, Manned, Balanced;
    assert k in s.writer.ended.Keys || k in InFlight(s.writer.workers);
    i :| i in s.writer.workers && s.writer.workers[i] == Some(k);
  }

  /** The report a stop makes agrees with the database in every continuation if and only if
      every accepted write of its recording had ended when the report was made. (A flush
      that waited for a running task guarantees that; one that found none does not.) */
  lemma ReportsStayCorrectExactlyWhen(es: seq<RecorderEvent>, id: int)
    requires Possible(History(es), StopReturns(id))
    ensures (forall more :: Correct(Onto(History(es + [StopReturns(id)]), more), id)) <==> Settled(History(es), id)
  {
    hide Fine, Next, Correct, Possible;
    var s := History(es);
    var r := History(es + [StopReturns(id)]);
    HistoryFine(es);
    HistoryFine(es + [StopReturns(id)]);
    HistoryOnto(es, [StopReturns(id)]);
    OntoOne(s, StopReturns(id));
    ReportedNow(s, id);
    if Settled(s, id) {
      forall more ensures Correct(Onto(r, more), id) { StaysCorrect(r, more, id); }
    } else {
      var k: nat :| k < |s.writer.accepted| && s.writer.accepted[k].recording == id && k !in s.writer.ended;
      var more := MaySucceed(r, k);
      OntoExtends(r, more);
      OutgrowsReport(r, Onto(r, more), id, k);
    }
  }

  lemma ReportedNow(s: State, id: int)
    requires Possible(s, StopReturns(id))
    ensures var r := Next(s, StopReturns(id));
            Correct(r, id) && r.writer == s.writer && (Settled(r, id) <==> Settled(s, id))
  {
    hide Stored;
  }

  /** A write that succeeds after the report is missing from it. */
  lemma OutgrowsReport(r: State, n: State, id: int, k: nat)
    requires Correct(r, id) && Extends(r, n) && Made(n, k)
    requires k < |r.writer.accepted| && r.writer.accepted[k].recording == id && k !in r.writer.ended
    ensures !Correct(n, id)
  {
    StoredRises(r.writer.accepted, n.writer.accepted, r.writer.ended, n.writer.ended, id, k);
    hide Stored;
  }

  /** The writer is being stopped when the recording is: its one sample is stored after the
      report has said that there were none. */
  const UNCOUNTED: seq<RecorderEvent> := [
    Started(1, [Note]), Offered(Note, 1.0), WriterStep(DoRetire), StopCalled(0), StopReturns(1),
    WriterStep(DoTake(0)), WriterStep(DoEnd(0, Succeeded))]

  const ONLY := Sample(1, Note, 1.0)

  lemma ReportsMayFallShort()
    ensures var s := History(UNCOUNTED);
            s.stops == map[1 := Reported(0, 0)] && Stored(s.writer.accepted, s.writer.ended, 1) == 1
  {
    Unfolds();
    OneSampled();
    var s2 := Next(Next(INITIAL, Started(1, [Note])), Offered(Note, 1.0));
    hide Next;
    OneReported(s2);
    OneStored(Next(Next(Next(s2, WriterStep(DoRetire)), StopCalled(0)), StopReturns(1)));
  }

  lemma Unfolds()
    ensures History(UNCOUNTED) ==
              var s2 := Next(Next(INITIAL, Started(1, [Note])), Offered(Note, 1.0));
              var s5 := Next(Next(Next(s2, WriterStep(DoRetire)), StopCalled(0)), StopReturns(1));
              Next(Next(s5, WriterStep(DoTake(0))), WriterStep(DoEnd(0, Succeeded)))
  {
    hide Next;
    var es := UNCOUNTED;
    assert es[..6][..5] == es[..5] && es[..5][..4] == es[..4] && es[..4][..3] == es[..3];
    assert es[..3][..2] == es[..2] && es[..2][..1] == es[..1] && es[..1][..0] == [];
    assert History(es[..3]) == Next(History(es[..2]), es[2]) && History(es[..2]) == Next(History(es[..1]), es[1]);
    assert History(es[..5]) == Next(History(es[..4]), es[4]) && History(es[..4]) == Next(History(es[..3]), es[3]);
    assert History(es[..1]) == Next(INITIAL, es[0]) && History(es[..6]) == Next(History(es[..5]), es[5]);
  }

  lemma OneSampled()
    ensures var s := Next(Next(INITIAL, Started(1, [Note])), Offered(Note, 1.0));
            && s.active == Some(1) && s.stops == map[]
            && s.writer == Writer(256, [ONLY], 1, 0, 0, Some(0), map[0 := None], map[], [ONLY], [], map[], 0, 0, 1)
  {
    assert Wanted([Note]) == [Note];
    var s1 := Next(INITIAL, Started(1, [Note]));
    assert Note in s1.channels && s1.writer == Fresh(256) && s1.samples == 0;
    hide Wanted;
  }

  lemma OneReported(s: State)
    requires s.active == Some(1) && s.stops == map[]
    requires s.writer == Writer(256, [ONLY], 1, 0, 0, Some(0), map[0 := None], map[], [ONLY], [], map[], 0, 0, 1)
    ensures var r := Next(Next(Next(s, WriterStep(DoRetire)), StopCalled(0)), StopReturns(1));
            && r.stops == map[1 := Reported(0, 0)]
            && r.writer == s.writer.(task := None, flushes := map[0 := Returned(1, false)])
  {
    assert Stored([ONLY], map[], 1) == 0;
    hide Stored;
  }

  lemma OneStored(r: State)
    requires r.stops == map[1 := Reported(0, 0)] && r.writer.queue == [ONLY] && r.writer.unfinished == 1
    requires r.writer.workers == map[0 := None] && r.writer.accepted == [ONLY] && r.writer.begun == []
    requires r.writer.ended == map[]
    ensures var z := Next(Next(r, WriterStep(DoTake(0))), WriterStep(DoEnd(0, Succeeded)));
            && z.stops == r.stops && Stored(z.writer.accepted, z.writer.ended, 1) == 1
  {
    hide Release;
    assert Stored([ONLY], map[0 := Succeeded], 1) == 1;
  }

  lemma OfferIsNext(s: State, c: Channel, now: real)
    requires s.clock <= now
    ensures Next(s, Offered(c, now)) == Offer(s, c, now).(clock := now)
  {
    hide Offer;
  }

  lemma StartIsNext(s: State, id: int, asked: seq<Channel>)
    requires s.active.None? && id !in s.known
    ensures Next(s, Started(id, asked)) == Begun(s, id, asked)
  {
    hide Begun;
  }

  // ---- The recorder as an object -----------------------------------------------------------

  class Recorder {
    var active: Option<int>
    var channels: set<Channel>
    var lastMono: map<Channel, real>
    var samples: nat
    const writer: BackgroundWriter<Sample>
    ghost var view: State

    ghost predicate Valid()
      reads this, writer
    {
      Shows(view) && Fine(view)
    }

    constructor ()
      ensures Valid() && view == INITIAL && fresh(writer)
    {
      hide Fine, Good;
      active, channels, lastMono, samples := None, {}, map[], 0;
      writer := new BackgroundWriter(256);
      view := INITIAL;
      new;
      InitialFine();
    }

    /** The fields are those of a recorder in this state. */
    ghost predicate Shows(s: State)
      reads this, writer
    {
      && writer.Valid() && s.writer == writer.view
      && s.active == active && s.channels == channels && s.lastMono == lastMono && s.samples == samples
    }

    method KeepSample(c: Channel, now: real, ghost s: State)
      requires Shows(s) && active.Some?
      modifies this`samples, writer
      ensures Shows(Keep(s, c, now))
    {
      hide Submit, Good;
      if samples >= MAX_SAMPLES { return; }
      var stored := writer.SubmitWrite(Sample(active.value, c, now));
      if stored { samples := samples + 1; }
    }

    method OfferNow(c: Channel, now: real, ghost s: State)
      requires Shows(s)
      modifies this, writer
      ensures Shows(Offer(s, c, now)) && view == old(view)
    {
      hide Fine, Keep, Interval, Good;
      if active.None? || c !in channels { return; }
      var since := if c in lastMono then lastMono[c] else 0.0;
      if Interval(c) > 0.0 && now - since < Interval(c) { return; }
      lastMono := lastMono[c := now];
      KeepSample(c, now, s.(lastMono := lastMono));
    }

    /** Called from the hot path with a reading of the monotonic clock. */
    method OfferSample(c: Channel, now: real)
      requires Valid() && view.clock <= now
      modifies this, writer
      ensures Valid() && view == Next(old(view), Offered(c, now))
    {
      NextFine(view, Offered(c, now));
      OfferIsNext(view, c, now);
      hide Fine, Offer, Next, Good;
      OfferNow(c, now, view);
      view := Next(view, Offered(c, now));
    }

    /** start() once the database has created the row. */
    method StartRecording(id: int, asked: seq<Channel>)
      requires Valid() && active.None? && id !in view.known
      modifies this
      ensures Valid() && view == Next(old(view), Started(id, asked))
    {
      NextFine(view, Started(id, asked));
      StartIsNext(view, id, asked);
      hide Fine, Begun, Good, Next;
      StartNow(id, asked, view);
      view := Next(view, Started(id, asked));
    }

    method StartNow(id: int, asked: seq<Channel>, ghost s: State)
      requires Shows(s)
      modifies this
      ensures Shows(Begun(s, id, asked)) && view == old(view)
    {
      hide Wanted, Good;
      active, channels, lastMono, samples := Some(id), (set c | c in Wanted(asked)), map[], 0;
    }

    /** stop() up to its flush: what is offered from now on is not recorded. */
    method StopRecording(ghost f: nat) returns (id: Option<int>)
      requires Valid() && f !in view.writer.flushes
      modifies this, writer
      ensures Valid() && id == old(active) && view == Next(old(view), StopCalled(f))
    {
      NextFine(view, StopCalled(f));
      hide Fine, Begin, Good;
      view := Next(view, StopCalled(f));
      id := active;
      if id.None? { return; }
      active := None;
      writer.BeginFlush(f);
    }
  }
}
