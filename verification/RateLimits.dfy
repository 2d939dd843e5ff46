/**
 The two rate limiters on the command path: the token bucket of
 server/app/commands/lease.py and the sliding window over deadman frames of
 server/app/commands/teleop.py:183-189, on a clock that never runs backwards.
 */
module RateLimits {
  import opened Options

  // ---- Token buckets ----------------------------------------------------------------

  type Key = int

  datatype Bucket = Bucket(tokens: real, updated: real)

  datatype Rate = Rate(capacity: real, perSecond: real)

  /** `perMinute` tokens at most, refilled over sixty seconds. */
  function RateOf(perMinute: int): (r: Rate)
    ensures r.capacity >= 1.0 && r.perSecond > 0.0
  {
    var capacity := if perMinute < 1 then 1.0 else perMinute as real;
    Rate(capacity, capacity / 60.0)
  }

  function Least(a: real, b: real): real { if a <= b then a else b }

  function Gain(seconds: real, perSecond: real): real { seconds * perSecond }

  lemma GainFacts(x: real, y: real, perSecond: real)
    requires perSecond > 0.0
    ensures Gain(x + y, perSecond) == Gain(x, perSecond) + Gain(y, perSecond)
    ensures x >= 0.0 ==> Gain(x, perSecond) >= 0.0
    ensures Gain(0.0, perSecond) == 0.0
  {}

  function Refilled(b: Option<Bucket>, r: Rate, now: real): real {
    match b
    case None => r.capacity
    case Some(k) => Least(r.capacity, k.tokens + Gain(now - k.updated, r.perSecond))
  }

  /** One request: whether it is allowed, and the bucket it leaves. */
  function Draw(b: Option<Bucket>, r: Rate, now: real): (bool, Bucket) {
    var tokens := Refilled(b, r, now);
    if tokens >= 1.0 then (true, Bucket(tokens - 1.0, now)) else (false, Bucket(tokens, now))
  }

  function Find(m: map<Key, Bucket>, key: Key): Option<Bucket> {
    if key in m then Some(m[key]) else None
  }

  class RateLimiter {
    const rate: Rate
    var buckets: map<Key, Bucket>

    constructor (perMinute: int)
      ensures buckets == map[] && rate == RateOf(perMinute)
    {
      rate := RateOf(perMinute);
      buckets := map[];
    }

    method Allow(key: Key, now: real) returns (allowed: bool)
      requires rate.capacity >= 1.0
      modifies this`buckets
      ensures allowed == Draw(Find(old(buckets), key), rate, now).0
      ensures buckets == old(buckets)[key := Draw(Find(old(buckets), key), rate, now).1]
    {
      if key !in buckets {
        buckets := buckets[key := Bucket(rate.capacity - 1.0, now)];
        return true;
      }
      var bucket := buckets[key];
      bucket := Bucket(Least(rate.capacity, bucket.tokens + Gain(now - bucket.updated, rate.perSecond)), now);
      allowed := bucket.tokens >= 1.0;
      if allowed { bucket := bucket.(tokens := bucket.tokens - 1.0); }
      buckets := buckets[key := bucket];
    }
  }

  datatype Request = Request(key: Key, time: real)

  ghost predicate Ordered(rs: seq<Request>) {
    forall i, j :: 0 <= i <= j < |rs| ==> rs[i].time <= rs[j].time
  }

  /** The buckets after a history of requests. */
  function After(rs: seq<Request>, r: Rate): map<Key, Bucket> {
    if rs == [] then map[]
    else
      var n := |rs| - 1;
      var before := After(rs[..n], r);
      before[rs[n].key := Draw(Find(before, rs[n].key), r, rs[n].time).1]
  }

  function BucketAt(rs: seq<Request>, r: Rate, key: Key, k: nat): Option<Bucket>
    requires k <= |rs|
  {
    Find(After(rs[..k], r), key)
  }

  predicate Allowed(rs: seq<Request>, r: Rate, i: nat)
    requires i < |rs|
  {
    Draw(BucketAt(rs, r, rs[i].key, i), r, rs[i].time).0
  }

  /** How many requests of a key are allowed from position `i` up to `j`. */
  function Count(rs: seq<Request>, r: Rate, key: Key, i: nat, j: nat): nat
    requires i <= j <= |rs|
    decreases j
  {
    if i == j then 0
    else Count(rs, r, key, i, j - 1) + if rs[j - 1].key == key && Allowed(rs, r, j - 1) then 1 else 0
  }

  lemma BucketNext(rs: seq<Request>, r: Rate, key: Key, k: nat)
    requires 0 < k <= |rs|
    ensures BucketAt(rs, r, key, k) ==
      if rs[k - 1].key == key then Some(Draw(BucketAt(rs, r, key, k - 1), r, rs[k - 1].time).1)
      else BucketAt(rs, r, key, k - 1)
  {
    assert rs[..k][..k - 1] == rs[..k - 1];
    hide Draw;
  }

  lemma RefillBounds(b: Option<Bucket>, r: Rate, now: real)
    requires r.capacity >= 1.0 && r.perSecond > 0.0
    requires b.Some? ==> 0.0 <= b.value.tokens && b.value.updated <= now
    ensures 0.0 <= Refilled(b, r, now) <= r.capacity
  {
    if b.Some? { GainFacts(now - b.value.updated, 0.0, r.perSecond); }
    hide Gain;
  }

  /** Tokens always lie between zero and the capacity, and no bucket is from the future. */
  lemma {:induction false} TokensInRange(rs: seq<Request>, r: Rate, key: Key, k: nat)
    requires Ordered(rs) && k <= |rs| && r.capacity >= 1.0 && r.perSecond > 0.0
    ensures var b := BucketAt(rs, r, key, k);
            b.Some? ==> k > 0 && 0.0 <= b.value.tokens <= r.capacity && b.value.updated <= rs[k - 1].time
    decreases k
  {
    if k > 0 {
      TokensInRange(rs, r, key, k - 1);
      BucketNext(rs, r, key, k);
      RefillBounds(BucketAt(rs, r, key, k - 1), r, rs[k - 1].time);
      hide Refilled, BucketAt;
    }
  }

  /** Waiting longer adds the refill rate at most. */
  lemma RefillGrows(b: Option<Bucket>, r: Rate, t: real, u: real)
    requires r.perSecond > 0.0 && t <= u
    ensures Refilled(b, r, u) <= Refilled(b, r, t) + Gain(u - t, r.perSecond)
  {
    GainFacts(u - t, 0.0, r.perSecond);
    if b.Some? {
      GainFacts(t - b.value.updated, u - t, r.perSecond);
      assert t - b.value.updated + (u - t) == u - b.value.updated;
    }
    hide Gain;
  }

  /** A bucket just drawn from holds one token less if the request was allowed. */
  lemma DrawCosts(b: Option<Bucket>, r: Rate, t: real, u: real)
    requires r.perSecond > 0.0 && t <= u
    ensures Refilled(Some(Draw(b, r, t).1), r, u)
         <= Refilled(b, r, t) + Gain(u - t, r.perSecond) - if Draw(b, r, t).0 then 1.0 else 0.0
  {
    hide Gain;
  }

  /** What a key could spend, against what it could spend earlier and spent since. */
  lemma {:induction false} CreditAccounts(rs: seq<Request>, r: Rate, key: Key, i: nat, j: nat, now: real)
    requires Ordered(rs) && i < j <= |rs| && rs[j - 1].time <= now && r.perSecond > 0.0
    ensures Refilled(BucketAt(rs, r, key, j), r, now)
         <= Refilled(BucketAt(rs, r, key, i), r, rs[i].time) + Gain(now - rs[i].time, r.perSecond)
            - Count(rs, r, key, i, j) as real
    decreases j
  {
    var t, b := rs[j - 1].time, BucketAt(rs, r, key, j - 1);
    BucketNext(rs, r, key, j);
    DrawCosts(b, r, t, now);
    RefillGrows(b, r, t, now);
    GainFacts(t - rs[i].time, now - t, r.perSecond);
    assert t - rs[i].time + (now - t) == now - rs[i].time;
    if j > i + 1 { CreditAccounts(rs, r, key, i, j - 1, t); } else { GainFacts(0.0, 0.0, r.perSecond); }
    hide Refilled, Gain, BucketAt, Draw;
  }

  /** In any window the limiter allows a key at most the capacity plus what is refilled
      during the window, whatever the other keys do. */
  lemma WindowBound(rs: seq<Request>, r: Rate, key: Key, i: nat, j: nat)
    requires Ordered(rs) && i < j <= |rs| && r.capacity >= 1.0 && r.perSecond > 0.0
    ensures Count(rs, r, key, i, j) as real <= r.capacity + Gain(rs[j - 1].time - rs[i].time, r.perSecond)
  {
    CreditAccounts(rs, r, key, i, j, rs[j - 1].time);
    TokensInRange(rs, r, key, i);
    TokensInRange(rs, r, key, j);
    hide Count, Gain, BucketAt;
    RefillBounds(BucketAt(rs, r, key, i), r, rs[i].time);
    RefillBounds(BucketAt(rs, r, key, j), r, rs[j - 1].time);
  }

  /** A key that has been quiet for the time of one token is allowed. */
  lemma QuietKeysAreServed(rs: seq<Request>, r: Rate, i: nat)
    requires Ordered(rs) && i < |rs| && r.capacity >= 1.0 && r.perSecond > 0.0
    requires forall j :: 0 <= j < i && rs[j].key == rs[i].key ==> Gain(rs[i].time - rs[j].time, r.perSecond) >= 1.0
    ensures Allowed(rs, r, i)
  {
    LastDrawn(rs, r, rs[i].key, i);
    TokensInRange(rs, r, rs[i].key, i);
    hide Gain, BucketAt;
  }

  lemma {:induction false} LastDrawn(rs: seq<Request>, r: Rate, key: Key, k: nat)
    requires k <= |rs|
    ensures var b := BucketAt(rs, r, key, k);
            b.Some? ==> exists j :: 0 <= j < k && rs[j].key == key && rs[j].time == b.value.updated
    decreases k
  {
    if k > 0 {
      BucketNext(rs, r, key, k);
      LastDrawn(rs, r, key, k - 1);
      hide Refilled, BucketAt;
    }
  }

  // ---- Deadman frames ---------------------------------------------------------------------

  /** How many of the frames are less than a second old. */
  function Recent(frames: seq<real>, now: real): nat {
    if frames == [] then 0
    else Recent(frames[..|frames| - 1], now) + if now - frames[|frames| - 1] < 1.0 then 1 else 0
  }

  lemma {:induction false} RecentIsSuffix(frames: seq<real>, now: real, k: nat)
    requires k <= |frames|
    requires forall i :: 0 <= i < k ==> now - frames[i] >= 1.0
    requires forall i :: k <= i < |frames| ==> now - frames[i] < 1.0
    ensures Recent(frames, now) == |frames| - k
  {
    if frames != [] {
      var n := |frames| - 1;
      RecentIsSuffix(frames[..n], now, if k <= n then k else n);
    }
  }

  ghost predicate Climbing(frames: seq<real>) {
    forall i, j :: 0 <= i <= j < |frames| ==> frames[i] <= frames[j]
  }

  ghost predicate Past(frames: seq<real>, now: real) {
    forall i :: 0 <= i < |frames| ==> frames[i] <= now
  }

  /** Everything ever admitted, each frame under the gate's rule. */
  ghost predicate Gated(frames: seq<real>, limit: nat) {
    && Climbing(frames)
    && forall i {:trigger frames[i]} :: 0 <= i < |frames| ==> Recent(frames[..i], frames[i]) < limit
  }

  lemma GatedGrows(frames: seq<real>, now: real, limit: nat)
    requires Gated(frames, limit) && Recent(frames, now) < limit && Past(frames, now)
    ensures Gated(frames + [now], limit) && Past(frames + [now], now)
  {
    hide Recent;
    var next := frames + [now];
    assert next[..|frames|] == frames;
    forall i | 0 <= i < |next| ensures Recent(next[..i], next[i]) < limit {
      if i < |frames| { assert next[..i] == frames[..i] && next[i] == frames[i]; }
    }
  }

  /** N + 1 consecutive admitted frames span at least a second, where N is the configured
      number of frames per second. */
  lemma FramesSpanASecond(frames: seq<real>, limit: nat, i: nat)
    requires Gated(frames, limit) && limit >= 1 && i + limit < |frames|
    ensures frames[i + limit] - frames[i] >= 1.0
  {
    if frames[i + limit] - frames[i] < 1.0 {
      AllRecent(frames[..i + limit], frames[i + limit], i);
    }
  }

  lemma {:induction false} AllRecent(frames: seq<real>, now: real, k: nat)
    requires k <= |frames| && forall i :: k <= i < |frames| ==> now - frames[i] < 1.0
    ensures Recent(frames, now) >= |frames| - k
  {
    if |frames| > k { AllRecent(frames[..|frames| - 1], now, k); }
  }

  /** The queue is the newest end of everything admitted; what was dropped is at least a
      second old. */
  ghost predicate Newest(times: seq<real>, frames: seq<real>, now: real) {
    && |times| <= |frames| && times == frames[|frames| - |times|..]
    && forall i :: 0 <= i < |frames| - |times| ==> now - frames[i] >= 1.0
  }

  lemma TimePasses(times: seq<real>, frames: seq<real>, earlier: real, now: real)
    requires Newest(times, frames, earlier) && Past(frames, earlier) && earlier <= now
    ensures Newest(times, frames, now) && Past(frames, now)
  {}

  lemma DropOld(times: seq<real>, frames: seq<real>, now: real)
    requires Newest(times, frames, now) && times != [] && now - times[0] >= 1.0
    ensures Newest(times[1..], frames, now)
  {
    assert times[0] == frames[|frames| - |times|];
    assert times[1..] == frames[|frames| - |times| + 1..];
  }

  lemma AddNew(times: seq<real>, frames: seq<real>, now: real)
    requires Newest(times, frames, now)
    ensures Newest(times + [now], frames + [now], now)
  {
    assert frames[|frames| - |times|..] + [now] == (frames + [now])[|frames| - |times|..];
  }

  lemma RecentIsQueued(times: seq<real>, frames: seq<real>, now: real)
    requires Newest(times, frames, now) && Climbing(frames)
    requires times != [] ==> now - times[0] < 1.0
    ensures Recent(frames, now) == |times|
  {
    var k := |frames| - |times|;
    if times != [] { assert times[0] == frames[k]; }
    RecentIsSuffix(frames, now, k);
  }

  /** The times of one owner's recent deadman frames. */
  class FrameGate {
    const framesPerSecond: nat
    var times: seq<real>
    ghost var admitted: seq<real>

    function Limit(): nat { if framesPerSecond < 1 then 1 else framesPerSecond }

    ghost predicate Valid(now: real)
      reads this
    {
      && Newest(times, admitted, now) && Gated(admitted, Limit())
      && Past(admitted, now)
    }

    constructor (framesPerSecond: nat, now: real)
      ensures Valid(now) && admitted == [] && this.framesPerSecond == framesPerSecond
    {
      this.framesPerSecond := framesPerSecond;
      times, admitted := [], [];
    }

    /** Admits a frame exactly when no write is under way and fewer than the limit were
        admitted within the last second. */
    method Admit(earlier: real, now: real, writing: bool) returns (ok: bool)
      requires Valid(earlier) && earlier <= now
      modifies this
      ensures Valid(now)
      ensures ok <==> !writing && Recent(old(admitted), now) < Limit()
      ensures admitted == if ok then old(admitted) + [now] else old(admitted)
    {
      TimePasses(times, admitted, earlier, now);
      assert Climbing(admitted);
      hide Newest, Gated, Climbing, Recent, Past;
      while times != [] && now - times[0] >= 1.0
        invariant Newest(times, admitted, now) && admitted == old(admitted)
        decreases |times|
      {
        DropOld(times, admitted, now);
        times := times[1..];
      }
      RecentIsQueued(times, admitted, now);
      if writing || |times| >= Limit() { return false; }
      AddNew(times, admitted, now);
      GatedGrows(admitted, now, Limit());
      times, admitted := times + [now], admitted + [now];
      ok := true;
    }
  }
}
