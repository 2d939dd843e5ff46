/**
 The bounded background writer of server/app/database/writer.py: submissions, any number
 of worker tasks (a submission during a stop starts a second one), and flushes that wait
 for the queue's books to balance.
 */
module BackgroundWrites {
  import opened Options

  datatype Outcome = Succeeded | Failed | Cancelled

  datatype Flush = Waiting(target: nat) | Returned(target: nat, waited: bool)

  /** `accepted`, `begun`, `ended`, `succeeded` and `cancelled` are history: every write
      taken on, in order; those a worker started; how each finished one went. A worker is
      idle or busy with a position in `accepted`. A flush remembers how much had been
      accepted when it began, and whether there was a running task to wait for. */
  datatype Writer<W> = Writer(bound: nat, queue: seq<W>, unfinished: nat, dropped: nat, failed: nat,
                              task: Option<nat>, workers: map<nat, Option<nat>>, flushes: map<nat, Flush>,
                              accepted: seq<W>, begun: seq<W>, ended: map<nat, Outcome>, succeeded: nat, cancelled: nat,
                              spawned: nat)

  function Fresh<W>(bound: nat): Writer<W> {
    Writer(bound, [], 0, 0, 0, None, map[], map[], [], [], map[], 0, 0, 0)
  }

  function Start<W>(s: Writer<W>): Writer<W> {
    s.(task := Some(s.spawned), workers := s.workers[s.spawned := None], spawned := s.spawned + 1)
  }

  /** Never blocks; a full queue drops the write. A bound of zero means no bound. */
  function Submit<W>(s: Writer<W>, w: W): Writer<W> {
    var r := if s.task.None? then Start(s) else s;
    if r.bound > 0 && |r.queue| >= r.bound then r.(dropped := r.dropped + 1)
    else r.(queue := r.queue + [w], unfinished := r.unfinished + 1, accepted := r.accepted + [w])
  }

  predicate Takes<W>(s: Writer<W>, i: nat) { i in s.workers && s.workers[i].None? && s.queue != [] }

  function Take<W>(s: Writer<W>, i: nat): Writer<W>
    requires Takes(s, i)
  {
    s.(queue := s.queue[1..], workers := s.workers[i := Some(|s.begun|)], begun := s.begun + [s.queue[0]])
  }

  predicate Busy<W>(s: Writer<W>, i: nat) { i in s.workers && s.workers[i].Some? }

  function Release(flushes: map<nat, Flush>): map<nat, Flush> {
    map f | f in flushes :: Returned(flushes[f].target, if flushes[f].Returned? then flushes[f].waited else true)
  }

  /** A write is over: the books are told, and a balanced book wakes every flush. A
      cancelled worker does not come back. */
  function End<W>(s: Writer<W>, i: nat, o: Outcome): Writer<W>
    requires Busy(s, i) && s.unfinished > 0
  {
    var k := s.workers[i].value;
    var left := s.unfinished - 1;
    s.(unfinished := left, ended := s.ended[k := o],
       failed := if o == Failed then s.failed + 1 else s.failed,
       succeeded := if o == Succeeded then s.succeeded + 1 else s.succeeded,
       cancelled := if o == Cancelled then s.cancelled + 1 else s.cancelled,
       workers := if o == Cancelled then s.workers - {i} else s.workers[i := None],
       flushes := if left == 0 then Release(s.flushes) else s.flushes)
  }

  function Dismiss<W>(s: Writer<W>, i: nat): Writer<W> { s.(workers := s.workers - {i}) }

  function Begin<W>(s: Writer<W>, f: nat): Writer<W> {
    s.(flushes := s.flushes[f :=
      if s.task.None? then Returned(|s.accepted|, false)
      else if s.unfinished == 0 then Returned(|s.accepted|, true)
      else Waiting(|s.accepted|)])
  }

  datatype Event<W> =
    | DoSubmit(w: W)
    | DoTake(i: nat)
    | DoEnd(i: nat, o: Outcome)
    | DoCancelIdle(i: nat)
    | DoRetire              // stop() forgets its task before it drains and cancels it
    | DoFlush(f: nat)

  /** A step that is not possible changes nothing. */
  function Step<W>(s: Writer<W>, e: Event<W>): Writer<W> {
    match e
    case DoSubmit(w) => Submit(s, w)
    case DoTake(i) => if Takes(s, i) then Take(s, i) else s
    case DoEnd(i, o) => if Busy(s, i) && s.unfinished > 0 then End(s, i, o) else s
    case DoCancelIdle(i) => if i in s.workers && s.workers[i].None? then Dismiss(s, i) else s
    case DoRetire => s.(task := None)
    case DoFlush(f) => if f in s.flushes then s else Begin(s, f)
  }

  // ---- The invariant -----------------------------------------------------------------

  /** The writes in the workers' hands. */
  function InFlight(workers: map<nat, Option<nat>>): set<nat> {
    set i | i in workers && workers[i].Some? :: workers[i].value
  }

  ghost predicate Apart(workers: map<nat, Option<nat>>) {
    forall i, j :: i in workers && j in workers && i != j && workers[i].Some? ==> workers[i] != workers[j]
  }

  lemma IdleFlight(workers: map<nat, Option<nat>>, i: nat)
    requires i in workers ==> workers[i].None?
    ensures InFlight(workers[i := None]) == InFlight(workers) == InFlight(workers - {i})
    ensures Apart(workers) ==> Apart(workers[i := None]) && Apart(workers - {i})
  {
    forall m | m in InFlight(workers) ensures m in InFlight(workers[i := None]) && m in InFlight(workers - {i}) {
      var j :| j in workers && workers[j] == Some(m);
      assert workers[i := None][j] == Some(m) && (workers - {i})[j] == Some(m);
    }
  }

  lemma BusyFlight(workers: map<nat, Option<nat>>, i: nat, k: nat)
    requires i in workers && workers[i].None? && k !in InFlight(workers) && Apart(workers)
    ensures InFlight(workers[i := Some(k)]) == InFlight(workers) + {k}
    ensures Apart(workers[i := Some(k)])
  {
    var n := workers[i := Some(k)];
    assert n[i] == Some(k);
    forall m | m in InFlight(workers) ensures m in InFlight(n) {
      var j :| j in workers && workers[j] == Some(m);
      assert n[j] == Some(m);
    }
    forall j | j in workers && workers[j].Some? ensures workers[j] != Some(k) {
      assert workers[j].value in InFlight(workers);
    }
  }

  lemma DoneFlight(workers: map<nat, Option<nat>>, i: nat)
    requires i in workers && workers[i].Some? && Apart(workers)
    ensures workers[i].value in InFlight(workers)
    ensures InFlight(workers[i := None]) == InFlight(workers) - {workers[i].value} == InFlight(workers - {i})
    ensures Apart(workers[i := None]) && Apart(workers - {i})
  {
    var k := workers[i].value;
    var idle, gone := workers[i := None], workers - {i};
    forall m | m in InFlight(workers) && m != k ensures m in InFlight(idle) && m in InFlight(gone) {
      var j :| j in workers && workers[j] == Some(m);
      assert idle[j] == Some(m) && gone[j] == Some(m);
    }
  }

  function UpTo(n: nat): (r: set<nat>)
    ensures |r| == n && forall k :: k in r <==> 0 <= k < n
  {
    if n == 0 then {} else UpTo(n - 1) + {n - 1}
  }

  /** A number above all that are in use. */
  lemma {:induction false} Above(used: set<int>) returns (r: nat)
    ensures forall x :: x in used ==> x < r
  {
    if y :| y in used {
      var rest := used - {y};
      r := Above(rest);
      r := if r > y then r else y + 1;
      forall x | x in used ensures x < r { assert x == y || x in rest; }
    } else {
      r := 0;
    }
  }

  /** First in, first out: what was begun and what is queued make up what was accepted. */
  ghost predicate InOrder<W>(s: Writer<W>) {
    s.accepted == s.begun + s.queue && (s.bound > 0 ==> |s.queue| <= s.bound)
  }

  /** Every write begun is in one worker's hands or has ended, never both. */
  ghost predicate Parted(begun: nat, ended: set<nat>, flying: set<nat>) {
    && (forall k :: k in ended || k in flying <==> 0 <= k < begun)
    && ended !! flying
  }

  ghost predicate Manned<W>(s: Writer<W>) {
    Apart(s.workers) && forall i :: i in s.workers ==> i < s.spawned
  }

  ghost predicate Balanced<W>(s: Writer<W>) {
    && s.unfinished == |s.queue| + |InFlight(s.workers)|
    && |s.ended| == s.succeeded + s.failed + s.cancelled
  }

  ghost predicate Reached(f: Flush, accepted: nat, ended: map<nat, Outcome>) {
    && f.target <= accepted
    && (f.Returned? && f.waited ==> forall k :: 0 <= k < f.target ==> k in ended)
  }

  ghost predicate Flushed<W>(s: Writer<W>) {
    forall f :: f in s.flushes ==> Reached(s.flushes[f], |s.accepted|, s.ended)
  }

  ghost predicate Good<W>(s: Writer<W>) {
    InOrder(s) && Parted(|s.begun|, s.ended.Keys, InFlight(s.workers)) && Manned(s) && Balanced(s) && Flushed(s)
  }

  /** With nothing queued or in flight, everything accepted has ended. */
  lemma AllEnded<W>(s: Writer<W>, k: nat)
    requires InOrder(s) && Parted(|s.begun|, s.ended.Keys, InFlight(s.workers)) && Balanced(s) && s.unfinished == 0
    requires k < |s.accepted|
    ensures k in s.ended
  {
    hide InFlight;
    assert InFlight(s.workers) == {};
    assert k in s.ended.Keys || k in InFlight(s.workers);
  }

  lemma StartGood<W>(s: Writer<W>)
    requires Good(s)
    ensures Good(Start(s)) && Start(s).queue == s.queue
  {
    IdleFlight(s.workers, s.spawned);
    hide InFlight, Parted, Apart, Reached;
  }

  lemma QueueGood<W>(s: Writer<W>, w: W)
    requires Good(s) && (s.bound > 0 ==> |s.queue| < s.bound)
    ensures Good(s.(queue := s.queue + [w], unfinished := s.unfinished + 1, accepted := s.accepted + [w]))
  {
    hide InFlight, Parted, Apart;
    assert s.begun + s.queue + [w] == s.begun + (s.queue + [w]);
  }

  lemma SubmitGood<W>(s: Writer<W>, w: W)
    requires Good(s)
    ensures Good(Submit(s, w))
  {
    var r := if s.task.None? then Start(s) else s;
    StartGood(s);
    assert Good(r) && Good(r.(dropped := r.dropped + 1));
    if !(r.bound > 0 && |r.queue| >= r.bound) {
      hide Good;
      QueueGood(r, w);
    }
  }

  lemma TakeGood<W>(s: Writer<W>, i: nat)
    requires Good(s) && Takes(s, i)
    ensures Good(Take(s, i))
  {
    hide InFlight, Apart, Reached, Parted;
    TakeParted(|s.begun|, s.ended.Keys, InFlight(s.workers));
    BusyFlight(s.workers, i, |s.begun|);
    assert s.begun + s.queue == s.begun + [s.queue[0]] + s.queue[1..];
  }

  lemma TakeParted(begun: nat, ended: set<nat>, flying: set<nat>)
    requires Parted(begun, ended, flying)
    ensures begun !in flying && Parted(begun + 1, ended, flying + {begun}) && |flying + {begun}| == |flying| + 1
  {}

  lemma EndParted(begun: nat, ended: set<nat>, flying: set<nat>, k: nat)
    requires Parted(begun, ended, flying) && k in flying
    ensures k !in ended && Parted(begun, ended + {k}, flying - {k}) && |flying - {k}| == |flying| - 1
  {}

  lemma EndedSize(ended: map<nat, Outcome>, k: nat, o: Outcome)
    requires k !in ended
    ensures ended[k := o].Keys == ended.Keys + {k} && |ended[k := o]| == |ended| + 1
    ensures forall m :: m in ended ==> m in ended[k := o]
  {
    assert ended[k := o].Keys == ended.Keys + {k};
  }

  lemma EndManned<W>(s: Writer<W>, i: nat, o: Outcome)
    requires Manned(s) && Busy(s, i) && s.unfinished > 0
    ensures s.workers[i].value in InFlight(s.workers)
    ensures Manned(End(s, i, o)) && InFlight(End(s, i, o).workers) == InFlight(s.workers) - {s.workers[i].value}
  {
    DoneFlight(s.workers, i);
    hide InFlight, Apart, Release;
  }

  /** The books after a write has ended, before anyone is woken. */
  lemma EndBooks<W>(s: Writer<W>, i: nat, o: Outcome)
    requires Good(s) && Busy(s, i) && s.unfinished > 0
    ensures var n := End(s, i, o);
            && InOrder(n) && Parted(|n.begun|, n.ended.Keys, InFlight(n.workers)) && Manned(n) && Balanced(n)
            && (forall m :: m in s.ended ==> m in n.ended)
  {
    var k := s.workers[i].value;
    EndManned(s, i, o);
    hide InFlight, Flushed, Parted, Manned, Release;
    EndParted(|s.begun|, s.ended.Keys, InFlight(s.workers), k);
    EndedSize(s.ended, k, o);
  }

  lemma EndGood<W>(s: Writer<W>, i: nat, o: Outcome)
    requires Good(s) && Busy(s, i) && s.unfinished > 0
    ensures Good(End(s, i, o))
  {
    var n := End(s, i, o);
    EndBooks(s, i, o);
    hide InOrder, Parted, Manned, Balanced;
    if n.unfinished == 0 {
      forall m: nat | m < |n.accepted| ensures m in n.ended { AllEnded(n, m); }
    }
    forall f | f in n.flushes ensures Reached(n.flushes[f], |n.accepted|, n.ended) {
      assert Reached(s.flushes[f], |s.accepted|, s.ended);
    }
  }

  lemma DismissGood<W>(s: Writer<W>, i: nat)
    requires Good(s) && i in s.workers && s.workers[i].None?
    ensures Good(Dismiss(s, i))
  {
    IdleFlight(s.workers, i);
    hide InFlight, Parted, Apart, Reached;
  }

  lemma BeginGood<W>(s: Writer<W>, f: nat)
    requires Good(s) && f !in s.flushes
    ensures Good(Begin(s, f))
  {
    if s.unfinished == 0 {
      forall m: nat | m < |s.accepted| ensures m in s.ended { AllEnded(s, m); }
    }
    hide InFlight, Parted, Apart;
  }

  lemma StepGood<W>(s: Writer<W>, e: Event<W>)
    requires Good(s)
    ensures Good(Step(s, e))
  {
    assert Good(s.(task := None)) by { hide InFlight, Parted, Apart, Reached; }
    hide Good, Submit, Take, End, Dismiss, Begin;
    match e
    case DoSubmit(w) => SubmitGood(s, w);
    case DoTake(i) => if Takes(s, i) { TakeGood(s, i); }
    case DoEnd(i, o) => if Busy(s, i) && s.unfinished > 0 { EndGood(s, i, o); }
    case DoCancelIdle(i) => if i in s.workers && s.workers[i].None? { DismissGood(s, i); }
    case DoRetire =>
    case DoFlush(f) => if f !in s.flushes { BeginGood(s, f); }
  }

  lemma StepBound<W>(s: Writer<W>, e: Event<W>)
    ensures Step(s, e).bound == s.bound
  {}

  function Run<W>(bound: nat, es: seq<Event<W>>): Writer<W> {
    if es == [] then Fresh(bound) else Step(Run(bound, es[..|es| - 1]), es[|es| - 1])
  }

  lemma {:induction false} RunGood<W>(bound: nat, es: seq<Event<W>>)
    ensures Good(Run(bound, es)) && Run(bound, es).bound == bound
  {
    if es == [] {
      FreshGood<W>(bound);
    } else {
      RunGood(bound, es[..|es| - 1]);
      hide Good, Step;
      StepGood(Run(bound, es[..|es| - 1]), es[|es| - 1]);
      StepBound(Run(bound, es[..|es| - 1]), es[|es| - 1]);
    }
  }

  lemma FreshGood<W>(bound: nat)
    ensures Good(Fresh<W>(bound))
  {
    assert InFlight(map[]) == {};
  }

  // ---- What holds in every run -----------------------------------------------------------

  /** Nothing accepted is lost or counted twice, the queue keeps its bound, and writes
      begin in the order of submission, each at most once. */
  lemma NothingIsLost<W>(bound: nat, es: seq<Event<W>>)
    ensures var s := Run(bound, es);
            && |s.accepted| == s.succeeded + s.failed + s.cancelled + |InFlight(s.workers)| + |s.queue|
            && (bound > 0 ==> |s.queue| <= bound)
            && |s.begun| <= |s.accepted| && s.begun == s.accepted[..|s.begun|] && s.queue == s.accepted[|s.begun|..]
  {
    var s := Run(bound, es);
    RunGood(bound, es);
    hide InFlight, Run, Flushed, Manned;
    PartedSize(|s.begun|, s.ended.Keys, InFlight(s.workers));
  }

  lemma PartedSize(begun: nat, ended: set<nat>, flying: set<nat>)
    requires Parted(begun, ended, flying)
    ensures |ended| + |flying| == begun
  {
    assert UpTo(begun) == ended + flying;
  }

  /** A flush that found a running task returns only once every write accepted before it
      has been tried to its end. */
  lemma FlushIsABarrier<W>(bound: nat, es: seq<Event<W>>, f: nat, k: nat)
    requires var s := Run(bound, es);
             f in s.flushes && s.flushes[f].Returned? && s.flushes[f].waited && k < s.flushes[f].target
    ensures k in Run(bound, es).ended
  {
    RunGood(bound, es);
    hide Run, InFlight, Parted, Manned;
  }

  /** What has been accepted, begun or ended stays so. */
  lemma StepKeeps<W>(s: Writer<W>, e: Event<W>)
    requires Good(s)
    ensures var n := Step(s, e);
            && s.accepted <= n.accepted && s.begun <= n.begun
            && (forall k :: k in s.ended ==> k in n.ended && n.ended[k] == s.ended[k])
            && (forall f :: f in s.flushes ==> f in n.flushes && n.flushes[f].target == s.flushes[f].target)
            && (forall f :: f in s.flushes && s.flushes[f].Returned? ==> n.flushes[f] == s.flushes[f])
  {
    if e.DoEnd? && Busy(s, e.i) { DoneFlight(s.workers, e.i); }
  }

  // ---- The writer as an object ---------------------------------------------------------------

  /** `view` is the whole history the fields are the present end of. */
  class BackgroundWriter<W> {
    const bound: nat
    var queue: seq<W>
    var unfinished: nat
    var dropped: nat
    var failed: nat
    var task: Option<nat>
    var spawned: nat
    ghost var view: Writer<W>

    ghost predicate Valid()
      reads this
    {
      && view.bound == bound && view.queue == queue && view.unfinished == unfinished && view.dropped == dropped
      && view.failed == failed && view.task == task && view.spawned == spawned
      && Good(view)
    }

    constructor (bound: nat)
      ensures Valid() && view == Fresh(bound)
    {
      this.bound := bound;
      queue, unfinished, dropped, failed, task, spawned := [], 0, 0, 0, None, 0;
      view := Fresh(bound);
      new;
      FreshGood<W>(bound);
    }

    /** True when the write was queued, false when it was dropped. */
    method SubmitWrite(w: W) returns (ok: bool)
      requires Valid()
      modifies this
      ensures Valid() && view == Submit(old(view), w)
      ensures ok <==> |view.accepted| > |old(view).accepted|
      ensures !ok <==> dropped == old(dropped) + 1
    {
      SubmitGood(view, w);
      hide Good;
      view := Submit(view, w);
      if task.None? {
        task, spawned := Some(spawned), spawned + 1;
      }
      ok := !(bound > 0 && |queue| >= bound);
      if ok {
        queue, unfinished := queue + [w], unfinished + 1;
      } else {
        dropped := dropped + 1;
      }
    }

    /** A worker's loop, up to the write it awaits. */
    method TakeNext(ghost i: nat) returns (w: W)
      requires Valid() && Takes(view, i)
      modifies this
      ensures Valid() && view == Take(old(view), i) && w == old(view).accepted[|old(view).begun|]
    {
      TakeGood(view, i);
      assert (view.begun + queue)[|view.begun|] == queue[0];
      hide Good;
      view := Take(view, i);
      w := queue[0];
      queue := queue[1..];
    }

    /** The rest of the loop body: the write succeeded, raised, or was cancelled. */
    method FinishWrite(ghost i: nat, o: Outcome)
      requires Valid() && Busy(view, i) && unfinished > 0
      modifies this
      ensures Valid() && view == End(old(view), i, o)
    {
      EndGood(view, i, o);
      hide Good, Release;
      view := End(view, i, o);
      unfinished := unfinished - 1;
      if o == Failed { failed := failed + 1; }
    }

    ghost method BeginFlush(f: nat)
      requires Valid() && f !in view.flushes
      modifies this`view
      ensures Valid() && view == Begin(old(view), f)
    {
      BeginGood(view, f);
      hide Good;
      view := Begin(view, f);
    }
  }
}
