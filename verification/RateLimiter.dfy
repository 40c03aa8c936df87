/** The speed limit: what limit_transmission_speed and sleep_for_seconds compute, over exact reals
    but with the clock's microseconds, the sleep's nanoseconds, the clamp and the integer rate
    kept; and the bound this gives over a whole transfer. */
module RateLimiter {
  import opened Base

  const MICRO := 0.000001
  const NANO := 0.000000001
  const CLAMP := 0.01
  const UINT_RANGE := 0x1_0000_0000

  /** A gettimeofday reading. */
  datatype Time = Time(sec: int, usec: int) {
    predicate Valid() { 0 <= usec < 1_000_000 }
    function Micros(): int { sec * 1_000_000 + usec }
  }

  function Reading(now: real): (t: Time)
    ensures t.Valid() && t.Micros() == (now * 1000000.0).Floor
  {
    var m := (now * 1000000.0).Floor;
    Time(m / 1_000_000, m % 1_000_000)
  }

  /** Seconds between two readings, as limit_transmission_speed computes them. */
  function Between(start: Time, t: Time): real {
    t.sec as real - start.sec as real + (t.usec - start.usec) as real / 1000000.0
  }

  lemma BetweenIsMicros(start: Time, t: Time)
    ensures Between(start, t) == (t.Micros() - start.Micros()) as real / 1000000.0
  {
  }

  function Effective(elapsed: real): (e: real)
    ensures e > 0.0
  {
    if elapsed <= 0.0 then CLAMP else elapsed
  }

  function TrueRate(bytes: nat, e: real): int
    requires e > 0.0
  {
    (bytes as real / e).Floor
  }

  /** The rate as an unsigned int: it wraps when it does not fit. */
  function CastRate(bytes: nat, e: real): (r: nat)
    requires e > 0.0
  {
    TrueRate(bytes, e) % UINT_RANGE
  }

  predicate RateFits(bytes: nat, e: real)
    requires e > 0.0
  {
    TrueRate(bytes, e) < UINT_RANGE
  }

  /** What is missing from `e` for `rate` to be `limit`. */
  function Excess(rate: nat, limit: nat, e: real): real
    requires limit > 0
  {
    (rate as real / limit as real - 1.0) * e
  }

  datatype Pause = Seconds(s: real) | DividesByZero

  function PauseFor(bytes: nat, e: real, limit: nat): Pause
    requires e > 0.0
  {
    var rate := CastRate(bytes, e);
    if rate <= limit then Seconds(0.0)
    else if limit == 0 then DividesByZero
    else Seconds(Excess(rate, limit, e))
  }

  /** The nanoseconds sleep_for_seconds asks for: whole seconds, and the truncated rest. */
  function Nanos(seconds: real): int {
    if seconds <= 0.0 then 0
    else seconds.Floor * 1_000_000_000 + ((seconds - seconds.Floor as real) * 1000000000.0).Floor
  }

  lemma NanosIsFloor(seconds: real)
    requires seconds > 0.0
    ensures Nanos(seconds) == (seconds * 1000000000.0).Floor
    ensures 0 <= ((seconds - seconds.Floor as real) * 1000000000.0).Floor < 1_000_000_000
  {
    var whole := seconds.Floor;
    assert seconds * 1000000000.0 == (whole * 1_000_000_000) as real + (seconds - whole as real) * 1000000000.0;
  }

  lemma NanosClose(seconds: real)
    requires seconds >= 0.0
    ensures seconds - NANO < Nanos(seconds) as real * NANO <= seconds
  {
    if seconds > 0.0 { NanosIsFloor(seconds); }
  }

  /** What the process can wait on. */
  class Clock {
    var now: real

    constructor (start: real)
      ensures now == start
    {
      now := start;
    }

    method Pass(time: real)
      requires time >= 0.0
      modifies this
      ensures now == old(now) + time
    {
      now := now + time;
    }
  }

  /** sleep_for_seconds: nanosleep is interrupted after `wakes[i]` nanoseconds the i-th time, or
      runs to its end. However often that happens, exactly the requested nanoseconds are slept. */
  method SleepForSeconds(seconds: real, clock: Clock, wakes: seq<nat>, over: real)
    requires over >= 0.0
    modifies clock
    ensures clock.now == old(clock.now) + Nanos(seconds) as real * NANO + (if seconds > 0.0 then over else 0.0)
  {
    if seconds <= 0.0 { return; }
    NanosIsFloor(seconds);
    var tvSec: int := seconds.Floor;
    var tvNsec: int := ((seconds - seconds.Floor as real) * 1000000000.0).Floor;
    var i := 0;
    while i < |wakes| && wakes[i] < tvSec * 1_000_000_000 + tvNsec  // interrupted before the end
      invariant 0 <= i <= |wakes|
      invariant tvSec >= 0 && 0 <= tvNsec < 1_000_000_000
      invariant clock.now == old(clock.now) + (Nanos(seconds) - (tvSec * 1_000_000_000 + tvNsec)) as real * NANO
    {
      clock.Pass(wakes[i] as real * NANO);
      var left := tvSec * 1_000_000_000 + tvNsec - wakes[i];
      tvSec, tvNsec := left / 1_000_000_000, left % 1_000_000_000;
      i := i + 1;
    }
    clock.Pass((tvSec * 1_000_000_000 + tvNsec) as real * NANO + over);
  }

  // ---- one chunk ----

  /** A chunk as the limiter sees it: `bytes` were moved, the clock was read at `a`, then at `b`
      after sleeping, and each reading is at least as late as what precedes it. */
  datatype Chunk = Chunk(bytes: nat, a: real, b: real)

  ghost predicate Limited(start: Time, c: Chunk, limit: nat)
    requires limit > 0
  {
    var e := Effective(Between(start, Reading(c.a)));
    && start.Micros() <= Reading(c.a).Micros()
    && RateFits(c.bytes, e)
    && c.b >= c.a + Nanos(PauseFor(c.bytes, e, limit).s) as real * NANO
  }

  function Clamped(start: Time, c: Chunk): real {
    if Reading(c.a).Micros() <= start.Micros() then CLAMP else 0.0
  }

  /** The time the limiter accounts for, per chunk: what the clock shows from start point to next
      start point, the clamp, and one tick each of the clock and of nanosleep. */
  function Accounted(start: Time, c: Chunk): real {
    Between(start, Reading(c.b)) + Clamped(start, c) + MICRO + NANO
  }

  lemma DivideMultiply(x: real, e: real)
    requires e > 0.0
    ensures x / e * e == x
  {
  }

  lemma RoundedAbove(x: real, e: real, q: real, r: real)
    requires e > 0.0 && q * e == x && q < r + 1.0
    ensures x < r * e + e
  {
    ScaleStrict(q, r + 1.0, e);
    assert (r + 1.0) * e == r * e + e;
  }

  lemma RateBounds(bytes: nat, e: real)
    requires e > 0.0
    ensures TrueRate(bytes, e) as real * e <= bytes as real < TrueRate(bytes, e) as real * e + e
    ensures TrueRate(bytes, e) >= 0
  {
    DivideMultiply(bytes as real, e);
    Scale(TrueRate(bytes, e) as real, bytes as real / e, e);
    RoundedAbove(bytes as real, e, bytes as real / e, TrueRate(bytes, e) as real);
  }

  lemma Scale(x: real, y: real, k: real)
    requires x <= y && k >= 0.0
    ensures x * k <= y * k
  {
  }

  lemma ScaleStrict(x: real, y: real, k: real)
    requires x < y && k > 0.0
    ensures x * k < y * k
  {
  }

  lemma RateAtLeastOne(bytes: nat, e: real)
    requires e > 0.0
    ensures TrueRate(bytes, e) >= 0 && (TrueRate(bytes, e) >= 1 <==> bytes as real >= e)
  {
    RateBounds(bytes, e);
    hide TrueRate;
    var r := TrueRate(bytes, e) as real;
    if TrueRate(bytes, e) >= 1 { Scale(1.0, r, e); }
  }

  lemma Stretch(e: real, r: real, l: real)
    requires e > 0.0 && r > l > 0.0
    ensures (r / l - 1.0) * e >= 0.0
    ensures (e + (r / l - 1.0) * e) * l == r * e
  {
    var ratio := r / l;
    DivideMultiply(r, l);
    assert ratio >= 1.0 by { if ratio < 1.0 { ScaleStrict(ratio, 1.0, l); } }
    StretchBy(e, ratio, l);
  }

  lemma StretchBy(e: real, ratio: real, l: real)
    requires e > 0.0 && ratio >= 1.0
    ensures (ratio - 1.0) * e >= 0.0
    ensures (e + (ratio - 1.0) * e) * l == ratio * l * e
  {
  }

  /** A pause stretches the chunk to the time the limit allows for its (truncated) rate. */
  lemma PauseStretches(bytes: nat, e: real, limit: nat)
    requires e > 0.0 && limit > 0 && RateFits(bytes, e)
    ensures var p := PauseFor(bytes, e, limit);
            && p.Seconds? && p.s >= 0.0
            && (TrueRate(bytes, e) > limit ==> (e + p.s) * limit as real == TrueRate(bytes, e) as real * e)
            && (TrueRate(bytes, e) <= limit ==> p.s == 0.0)
  {
    RateAtLeastOne(bytes, e);
    hide TrueRate;
    var r := TrueRate(bytes, e);
    if r > limit { Stretch(e, r as real, limit as real); }
  }

  /** Throttling never lets more than limit + 1 bytes per second of chunk and pause through. */
  lemma PausedRate(bytes: nat, e: real, limit: nat)
    requires e > 0.0 && limit > 0 && RateFits(bytes, e)
    ensures bytes as real <= (e + PauseFor(bytes, e, limit).s) * (limit + 1) as real
  {
    RateBounds(bytes, e);
    PauseStretches(bytes, e, limit);
    var r, p, l := TrueRate(bytes, e), PauseFor(bytes, e, limit).s, limit as real;
    PausedRateReal(bytes as real, e, r as real, p, l);
  }

  lemma PausedRateReal(bytes: real, e: real, r: real, p: real, l: real)
    requires e > 0.0 && p >= 0.0 && l > 0.0 && bytes < r * e + e
    requires r > l ==> (e + p) * l == r * e
    requires r <= l ==> p == 0.0
    ensures bytes <= (e + p) * (l + 1.0)
  {
    if r > l {
      assert (e + p) * (l + 1.0) == (e + p) * l + (e + p);
    } else {
      Scale(r, l, e);
      assert (e + p) * (l + 1.0) == l * e + e;
    }
  }

  /** No over-throttling: with exact sleep a chunk takes no longer than it took or than the limit
      requires, whichever is more. */
  lemma NoOverThrottling(bytes: nat, e: real, limit: nat)
    requires e > 0.0 && limit > 0 && RateFits(bytes, e)
    ensures var total := e + PauseFor(bytes, e, limit).s;
            total <= (if e > bytes as real / limit as real then e else bytes as real / limit as real)
  {
    RateBounds(bytes, e);
    PauseStretches(bytes, e, limit);
    var total, l := e + PauseFor(bytes, e, limit).s, limit as real;
    if TrueRate(bytes, e) > limit {
      var q := bytes as real / l;
      assert q * l == bytes as real;
      if total > q { ScaleStrict(q, total, l); }
    }
  }

  /** What the clock shows of a sleep. */
  lemma SleepShown(c: Chunk, p: real)
    requires p >= 0.0 && c.b >= c.a + Nanos(p) as real * NANO
    ensures Between(Reading(c.a), Reading(c.b)) > p - MICRO - NANO
    ensures Reading(c.a).Micros() <= Reading(c.b).Micros()
  {
    var slept := Nanos(p) as real * NANO;
    NanosClose(p);
    assert slept >= 0.0 by { if p > 0.0 { NanosIsFloor(p); } }
    hide Nanos;
    ReadingsSpan(c.a, c.b);
    BetweenIsMicros(Reading(c.a), Reading(c.b));
  }

  lemma EffectiveClose(start: Time, c: Chunk)
    requires start.Micros() <= Reading(c.a).Micros()
    ensures Effective(Between(start, Reading(c.a))) <= Between(start, Reading(c.a)) + Clamped(start, c)
  {
    BetweenIsMicros(start, Reading(c.a));
  }

  /** Chunk and pause fit into the time accounted for. */
  lemma PauseAccounted(start: Time, c: Chunk, p: real)
    requires p >= 0.0 && start.Micros() <= Reading(c.a).Micros() && c.b >= c.a + Nanos(p) as real * NANO
    ensures Effective(Between(start, Reading(c.a))) + p <= Accounted(start, c)
    ensures start.Micros() <= Reading(c.b).Micros()
  {
    hide Between, Reading, Nanos, Effective, Clamped;
    SleepShown(c, p);
    EffectiveClose(start, c);
    BetweenAdds(start, Reading(c.a), Reading(c.b));
  }

  lemma LimitedPause(start: Time, c: Chunk, limit: nat) returns (e: real, p: real)
    requires limit > 0 && Limited(start, c, limit)
    ensures e == Effective(Between(start, Reading(c.a))) && RateFits(c.bytes, e)
    ensures PauseFor(c.bytes, e, limit) == Seconds(p) && p >= 0.0
    ensures start.Micros() <= Reading(c.a).Micros() && c.b >= c.a + Nanos(p) as real * NANO
  {
    e := Effective(Between(start, Reading(c.a)));
    PauseStretches(c.bytes, e, limit);
    p := PauseFor(c.bytes, e, limit).s;
  }

  /** Chunk plus pause of a limited chunk. */
  lemma ChunkPause(start: Time, c: Chunk, limit: nat) returns (total: real)
    requires limit > 0 && Limited(start, c, limit)
    ensures total <= Accounted(start, c)
    ensures c.bytes as real <= total * (limit + 1) as real
  {
    hide *;
    var e, p := LimitedPause(start, c, limit);
    PausedRate(c.bytes, e, limit);
    PauseAccounted(start, c, p);
    total := e + p;
  }

  lemma Widen(b: real, x: real, y: real, k: real)
    requires x <= y && k >= 0.0 && b <= x * k
    ensures b <= y * k
  {
    Scale(x, y, k);
  }

  lemma ChunkBound(start: Time, c: Chunk, limit: nat)
    requires limit > 0 && Limited(start, c, limit)
    ensures c.bytes as real <= Accounted(start, c) * (limit + 1) as real
  {
    hide *;
    var total := ChunkPause(start, c, limit);
    Widen(c.bytes as real, total, Accounted(start, c), (limit + 1) as real);
  }

  /** Two readings show at least the true span less one tick. */
  lemma ReadingsSpan(a: real, b: real)
    requires a <= b
    ensures (Reading(b).Micros() - Reading(a).Micros()) as real / 1000000.0 > b - a - MICRO
    ensures Reading(a).Micros() <= Reading(b).Micros()
  {
    var x, y := a * 1000000.0, b * 1000000.0;
    assert y.Floor as real > y - 1.0 && x.Floor as real <= x;
  }

  // ---- a whole transfer ----

  /** Every chunk is limited from the time point its predecessor left. */
  ghost predicate Paced(start: Time, cs: seq<Chunk>, limit: nat)
    requires limit > 0
    decreases |cs|
  {
    cs == [] || (Limited(start, cs[0], limit) && Paced(Reading(cs[0].b), cs[1..], limit))
  }

  function Sum(cs: seq<Chunk>): nat {
    if cs == [] then 0 else cs[0].bytes + Sum(cs[1..])
  }

  function End(start: Time, cs: seq<Chunk>): Time {
    if cs == [] then start else Reading(cs[|cs| - 1].b)
  }

  function ClampCount(start: Time, cs: seq<Chunk>): nat
    decreases |cs|
  {
    if cs == [] then 0
    else (if Reading(cs[0].a).Micros() <= start.Micros() then 1 else 0) + ClampCount(Reading(cs[0].b), cs[1..])
  }

  /** The allowance of a transfer: its clock time, 0.01 s per clamped chunk, a tick per chunk. */
  function Allowance(start: Time, cs: seq<Chunk>): real {
    Between(start, End(start, cs)) + CLAMP * ClampCount(start, cs) as real + (MICRO + NANO) * |cs| as real
  }

  lemma AddBounds(m: nat, n: nat, x: real, y: real, k: real)
    requires m as real <= x * k && n as real <= y * k
    ensures (m + n) as real <= (x + y) * k
  {
    Distribute(x, y, k);
  }

  lemma NoChunks(start: Time)
    ensures Sum([]) == 0 && Allowance(start, []) == 0.0
  {
  }

  lemma PacedParts(start: Time, cs: seq<Chunk>, limit: nat)
    requires limit > 0 && Paced(start, cs, limit) && cs != []
    ensures Limited(start, cs[0], limit) && Paced(Reading(cs[0].b), cs[1..], limit)
    ensures Sum(cs) == cs[0].bytes + Sum(cs[1..])
  {
  }

  /** The speed limit over a whole transfer. */
  lemma {:induction false} TransferBound(start: Time, cs: seq<Chunk>, limit: nat)
    requires limit > 0 && Paced(start, cs, limit)
    ensures Sum(cs) as real <= Allowance(start, cs) * (limit + 1) as real
    decreases |cs|
  {
    hide *;
    if cs == [] {
      NoChunks(start);
    } else {
      var next, rest := Reading(cs[0].b), cs[1..];
      PacedParts(start, cs, limit);
      ChunkBound(start, cs[0], limit);
      TransferBound(next, rest, limit);
      AllowanceSplits(start, cs);
      AddBounds(cs[0].bytes, Sum(rest), Accounted(start, cs[0]), Allowance(next, rest), (limit + 1) as real);
    }
  }

  lemma AllowanceSplits(start: Time, cs: seq<Chunk>)
    requires cs != []
    ensures Allowance(start, cs) == Accounted(start, cs[0]) + Allowance(Reading(cs[0].b), cs[1..])
  {
    var next, rest := Reading(cs[0].b), cs[1..];
    var end := End(start, cs);
    assert end == End(next, rest);
    BetweenAdds(start, next, end);
    var k := ClampCount(next, rest);
    assert Clamped(start, cs[0]) + CLAMP * k as real == CLAMP * ClampCount(start, cs) as real;
    assert (MICRO + NANO) * |cs| as real == (MICRO + NANO) + (MICRO + NANO) * |rest| as real;
  }

  lemma BetweenAdds(x: Time, y: Time, z: Time)
    ensures Between(x, z) == Between(x, y) + Between(y, z)
  {
  }

  lemma Distribute(x: real, y: real, k: real)
    ensures (x + y) * k == x * k + y * k
  {
  }

  // ---- a transfer as the clock sees it ----

  /** Between two time points `delay` passes and `bytes` are moved; a sleep then overshoots by `over`. */
  datatype Move = Move(delay: real, bytes: nat, over: real)

  predicate Forward(ms: seq<Move>) {
    forall i :: 0 <= i < |ms| ==> ms[i].delay >= 0.0 && ms[i].over >= 0.0
  }

  /** How long the limiter keeps the process after a chunk. */
  function Sleeps(bytes: nat, e: real, limit: nat, over: real): real
    requires e > 0.0
  {
    match PauseFor(bytes, e, limit)
    case Seconds(p) => Nanos(p) as real * NANO + (if p > 0.0 then over else 0.0)
    case DividesByZero => over  // the ratio is infinite and its cast to time_t undefined: any sleep
  }

  function Measured(start: real, m: Move): (e: real)
    ensures e > 0.0
  {
    Effective(Between(Reading(start), Reading(start + m.delay)))
  }

  /** What a move becomes when the time point was taken at `start`. */
  function Metered(start: real, m: Move, limit: nat): Chunk {
    Chunk(m.bytes, start + m.delay, start + m.delay + Sleeps(m.bytes, Measured(start, m), limit, m.over))
  }

  /** The time after some moves, each metered from the end of the one before it. */
  function Until(start: real, ms: seq<Move>, limit: nat): real {
    if ms == [] then start else Metered(Until(start, ms[..|ms| - 1], limit), ms[|ms| - 1], limit).b
  }

  function Chunks(start: real, ms: seq<Move>, limit: nat): seq<Chunk> {
    if ms == [] then []
    else
      var n := |ms| - 1;
      Chunks(start, ms[..n], limit) + [Metered(Until(start, ms[..n], limit), ms[n], limit)]
  }

  function Carried(ms: seq<Move>): nat {
    if ms == [] then 0 else Carried(ms[..|ms| - 1]) + ms[|ms| - 1].bytes
  }

  /** No chunk's rate wraps. */
  predicate AllFit(start: real, ms: seq<Move>, limit: nat) {
    ms == [] || (AllFit(start, ms[..|ms| - 1], limit)
                 && RateFits(ms[|ms| - 1].bytes, Measured(Until(start, ms[..|ms| - 1], limit), ms[|ms| - 1])))
  }

  lemma {:induction false} UntilAppend(start: real, ms: seq<Move>, m: Move, limit: nat)
    ensures Until(start, ms + [m], limit) == Metered(Until(start, ms, limit), m, limit).b
  {
    hide Metered;
    assert (ms + [m])[..|ms + [m]| - 1] == ms;
  }

  lemma {:induction false} CarriedAppend(ms: seq<Move>, m: Move)
    ensures Carried(ms + [m]) == Carried(ms) + m.bytes
    ensures Forward(ms) && m.delay >= 0.0 && m.over >= 0.0 ==> Forward(ms + [m])
  {
    assert (ms + [m])[..|ms + [m]| - 1] == ms;
  }

  lemma {:induction false} PacedAppend(start: Time, cs: seq<Chunk>, c: Chunk, limit: nat)
    requires limit > 0 && Paced(start, cs, limit) && Limited(End(start, cs), c, limit)
    ensures Paced(start, cs + [c], limit) && Sum(cs + [c]) == Sum(cs) + c.bytes
    decreases |cs|
  {
    hide Limited, Reading;
    if cs == [] {
      assert cs + [c] == [c] && [c][1..] == [];
    } else {
      assert (cs + [c])[1..] == cs[1..] + [c];
      assert End(Reading(cs[0].b), cs[1..]) == End(start, cs);
      PacedAppend(Reading(cs[0].b), cs[1..], c, limit);
    }
  }

  lemma SleepsEnough(bytes: nat, e: real, limit: nat, over: real)
    requires e > 0.0 && limit > 0 && over >= 0.0
    ensures PauseFor(bytes, e, limit).Seconds? && PauseFor(bytes, e, limit).s >= 0.0
    ensures Sleeps(bytes, e, limit, over) >= Nanos(PauseFor(bytes, e, limit).s) as real * NANO >= 0.0
  {
    PauseOf(bytes, e, limit);
    var p := PauseFor(bytes, e, limit).s;
    hide CastRate, TrueRate, PauseFor;
    if p > 0.0 { NanosIsFloor(p); }
  }

  lemma MeteredParts(start: real, m: Move, limit: nat)
    ensures var c, e := Metered(start, m, limit), Measured(start, m);
            && c.bytes == m.bytes && c.a == start + m.delay && c.b == c.a + Sleeps(m.bytes, e, limit, m.over)
            && e == Effective(Between(Reading(start), Reading(c.a)))
  {
    hide Sleeps, Effective, Between, Reading;
  }

  lemma LimitedBy(start: Time, c: Chunk, limit: nat, e: real, slept: real)
    requires limit > 0 && start.Micros() <= Reading(c.a).Micros()
    requires e == Effective(Between(start, Reading(c.a))) && RateFits(c.bytes, e)
    requires PauseFor(c.bytes, e, limit).Seconds? && slept >= Nanos(PauseFor(c.bytes, e, limit).s) as real * NANO
    requires c.b == c.a + slept
    ensures Limited(start, c, limit)
  {
    hide Reading, Between, Effective, RateFits, PauseFor, Nanos;
  }

  /** A metered move is a limited chunk. */
  lemma MeteredLimited(start: real, m: Move, limit: nat)
    requires limit > 0 && m.delay >= 0.0 && m.over >= 0.0 && RateFits(m.bytes, Measured(start, m))
    ensures Limited(Reading(start), Metered(start, m, limit), limit)
    ensures Metered(start, m, limit).b >= start
  {
    hide *;
    ReadingsSpan(start, start + m.delay);
    var e := Measured(start, m);
    SleepsEnough(m.bytes, e, limit, m.over);
    MeteredParts(start, m, limit);
    LimitedBy(Reading(start), Metered(start, m, limit), limit, e, Sleeps(m.bytes, e, limit, m.over));
  }

  lemma {:induction false} ChunksPaced(start: real, ms: seq<Move>, limit: nat)
    requires limit > 0 && Forward(ms) && AllFit(start, ms, limit)
    ensures Paced(Reading(start), Chunks(start, ms, limit), limit) && Sum(Chunks(start, ms, limit)) == Carried(ms)
    ensures End(Reading(start), Chunks(start, ms, limit)) == Reading(Until(start, ms, limit))
    ensures start <= Until(start, ms, limit)
    ensures |Chunks(start, ms, limit)| == |ms|
  {
    hide Reading, RateFits, Measured, Metered, Limited;
    if ms != [] {
      var n := |ms| - 1;
      var mid := Until(start, ms[..n], limit);
      ChunksPaced(start, ms[..n], limit);
      MeteredLimited(mid, ms[n], limit);
      assert Metered(mid, ms[n], limit).bytes == ms[n].bytes by { MeteredBytes(mid, ms[n], limit); }
      PacedAppend(Reading(start), Chunks(start, ms[..n], limit), Metered(mid, ms[n], limit), limit);
    }
  }

  lemma MeteredBytes(start: real, m: Move, limit: nat)
    ensures Metered(start, m, limit).bytes == m.bytes
  {
  }

  /** Two readings show at most the true span and one tick. */
  lemma SpanShown(a: real, b: real)
    requires a <= b
    ensures Between(Reading(a), Reading(b)) <= b - a + MICRO
  {
    BetweenIsMicros(Reading(a), Reading(b));
    var x, y := a * 1000000.0, b * 1000000.0;
    assert y.Floor as real <= y && x.Floor as real > x - 1.0;
  }

  /** How many moves were measured as taking no time. */
  function Clamps(start: real, ms: seq<Move>, limit: nat): nat {
    ClampCount(Reading(start), Chunks(start, ms, limit))
  }

  /** The clock time of some moves, and what the limiter's clock, sleep and clamp may add to it. */
  function Span(start: real, ms: seq<Move>, limit: nat): real {
    Until(start, ms, limit) - start + MICRO + CLAMP * Clamps(start, ms, limit) as real + (MICRO + NANO) * |ms| as real
  }

  lemma {:induction false} AllowanceWithin(start: real, ms: seq<Move>, limit: nat)
    requires start <= Until(start, ms, limit)
    requires End(Reading(start), Chunks(start, ms, limit)) == Reading(Until(start, ms, limit))
    requires |Chunks(start, ms, limit)| == |ms|
    ensures Allowance(Reading(start), Chunks(start, ms, limit)) <= Span(start, ms, limit)
  {
    SpanShown(start, Until(start, ms, limit));
    hide Chunks, Until, Reading, Between, ClampCount, End;
  }

  /** The speed limit over a whole transfer, in the time that really passed. */
  lemma {:induction false} SpeedLimit(start: real, ms: seq<Move>, limit: nat)
    requires limit > 0 && Forward(ms) && AllFit(start, ms, limit)
    ensures Carried(ms) as real <= Span(start, ms, limit) * (limit + 1) as real
  {
    hide *;
    var cs := Chunks(start, ms, limit);
    ChunksPaced(start, ms, limit);
    TransferBound(Reading(start), cs, limit);
    AllowanceWithin(start, ms, limit);
    Widen(Carried(ms) as real, Allowance(Reading(start), cs), Span(start, ms, limit), (limit + 1) as real);
  }

  lemma {:induction false} ClampsAtMost(start: Time, cs: seq<Chunk>)
    ensures ClampCount(start, cs) <= |cs|
    decreases |cs|
  {
    hide Reading;
    if cs != [] { ClampsAtMost(Reading(cs[0].b), cs[1..]); }
  }

  lemma {:induction false} ClampsOf(start: real, ms: seq<Move>, limit: nat)
    requires |Chunks(start, ms, limit)| == |ms|
    ensures Clamps(start, ms, limit) <= |ms|
  {
    ClampsAtMost(Reading(start), Chunks(start, ms, limit));
    hide Chunks, ClampCount, Reading;
  }

  lemma {:induction false} SpanWithin(start: real, to: real, ms: seq<Move>, limit: nat)
    requires to >= Until(start, ms, limit)
    ensures Span(start, ms, limit) <= to - start + 0.000001 + 0.01 * Clamps(start, ms, limit) as real
                                      + 0.000001001 * |ms| as real
  {
    hide Until, Clamps;
  }

  /** The same bound on a transfer that ended no later than `to`. */
  lemma {:induction false} MovesSpeed(start: real, to: real, ms: seq<Move>, limit: nat, bytes: nat)
    requires limit > 0 && Forward(ms) && AllFit(start, ms, limit)
    requires bytes == Carried(ms) && to >= Until(start, ms, limit)
    ensures Clamps(start, ms, limit) <= |ms|
    ensures bytes as real <= (to - start + 0.000001 + 0.01 * Clamps(start, ms, limit) as real
                              + 0.000001001 * |ms| as real) * (limit + 1) as real
  {
    hide *;
    ChunksPaced(start, ms, limit);
    ClampsOf(start, ms, limit);
    SpeedLimit(start, ms, limit);
    SpanWithin(start, to, ms, limit);
    var whole := to - start + 0.000001 + 0.01 * Clamps(start, ms, limit) as real + 0.000001001 * |ms| as real;
    Widen(bytes as real, Span(start, ms, limit), whole, (limit + 1) as real);
  }

  /** What the limiter takes a chunk's time to be: the whole microseconds between two readings of the clock, or
      10 ms if there are none. */
  lemma MeasuredIs(start: real, m: Move)
    ensures var shown := ((start + m.delay) * 1000000.0).Floor - (start * 1000000.0).Floor;
            Measured(start, m) == if shown <= 0 then 0.01 else shown as real / 1000000.0
  {
    BetweenIsMicros(Reading(start), Reading(start + m.delay));
    hide Reading, Between;
  }

  lemma SlowMeasured(start: real, m: Move)
    requires m.delay >= 0.000017
    ensures Measured(start, m) >= 0.000016
    ensures Reading(start).Micros() < Reading(start + m.delay).Micros()
  {
    var x, y := start * 1000000.0, (start + m.delay) * 1000000.0;
    assert y >= x + 17.0;
    assert y.Floor >= x.Floor + 17;
    MeasuredIs(start, m);
    hide Measured, Reading;
  }

  /** Chunks of at most 64 KiB, each taking 17 microseconds or more: no rate wraps and no time is clamped. */
  lemma {:induction false} SlowMoves(start: real, ms: seq<Move>, limit: nat)
    requires limit > 0 && forall i :: 0 <= i < |ms| ==> ms[i].delay >= 0.000017 && ms[i].bytes <= 65536 && ms[i].over >= 0.0
    ensures AllFit(start, ms, limit) && Clamps(start, ms, limit) == 0
  {
    hide Measured, RateFits, Reading, Metered;
    if ms != [] {
      var n := |ms| - 1;
      SlowMoves(start, ms[..n], limit);
      var mid := Until(start, ms[..n], limit);
      SlowMeasured(mid, ms[n]);
      ChunkFits(ms[n].bytes, Measured(mid, ms[n]));
      ChunksPaced(start, ms[..n], limit);
      MeteredParts(mid, ms[n], limit);
      ClampsAppend(Reading(start), Chunks(start, ms[..n], limit), Metered(mid, ms[n], limit));
    }
  }

  lemma {:induction false} ClampsAppend(start: Time, cs: seq<Chunk>, c: Chunk)
    requires End(start, cs).Micros() < Reading(c.a).Micros()
    ensures ClampCount(start, cs + [c]) == ClampCount(start, cs)
    decreases |cs|
  {
    hide Reading;
    if cs == [] {
      assert cs + [c] == [c] && [c][1..] == [];
    } else {
      assert (cs + [c])[1..] == cs[1..] + [c];
      assert End(Reading(cs[0].b), cs[1..]) == End(start, cs);
      ClampsAppend(Reading(cs[0].b), cs[1..], c);
    }
  }

  // ---- where the limit fails ----

  /** A limit of 0 is printed as "no limit", yet dividing by it is avoided exactly for chunks
      slower than one byte per second (or whose rate wraps to 0). */
  lemma ZeroLimit(bytes: nat, e: real)
    requires e > 0.0
    ensures PauseFor(bytes, e, 0).DividesByZero? <==> TrueRate(bytes, e) % UINT_RANGE != 0
    ensures RateFits(bytes, e) ==> (PauseFor(bytes, e, 0).DividesByZero? <==> bytes as real >= e)
  {
    RateAtLeastOne(bytes, e);
    hide TrueRate;
  }

  /** Such a chunk: 64 KiB in a second under the default configuration. */
  lemma ZeroLimitDivides()
    ensures PauseFor(65536, 1.0, 0).DividesByZero?
  {
    assert TrueRate(65536, 1.0) == 65536;
  }

  /** A pause in terms of the rate the code compares, wrapped or not. */
  lemma PauseOf(bytes: nat, e: real, limit: nat)
    requires e > 0.0 && limit > 0
    ensures var (r, p) := (CastRate(bytes, e), PauseFor(bytes, e, limit));
            && p.Seconds? && p.s >= 0.0
            && (r > limit ==> (e + p.s) * limit as real == r as real * e)
            && (r <= limit ==> p.s == 0.0)
  {
    hide TrueRate;
    var r := CastRate(bytes, e);
    if r > limit { Stretch(e, r as real, limit as real); }
  }

  lemma Wraps(bytes: nat, e: real)
    requires e > 0.0
    ensures 0 <= CastRate(bytes, e) < UINT_RANGE
    ensures !RateFits(bytes, e) ==> TrueRate(bytes, e) >= CastRate(bytes, e) + UINT_RANGE
  {
    RateAtLeastOne(bytes, e);
    hide TrueRate;
  }

  lemma WrappedReal(bytes: real, e: real, rate: real, r: real, p: real, l: real)
    requires e > 0.0 && p >= 0.0 && rate * e <= bytes && rate >= r + 4294967296.0 && 0.0 <= r < 4294967296.0
    requires 1.0 <= l < 4294967295.0 && (r > l ==> (e + p) * l == r * e) && (r <= l ==> p == 0.0)
    ensures bytes > (e + p) * (l + 1.0)
  {
    if r <= l {
      ScaleStrict(l + 1.0, rate, e);
    } else {
      assert (e + p) * (l + 1.0) == r * e + (e + p);
      Scale(1.0, l, e + p);
      ScaleStrict(r + r, rate, e);
      assert (r + r) * e == r * e + r * e;
    }
  }

  /** The limit holds for a chunk and its pause if and only if the rate fits the 32-bit cast: one
      that wraps always gets more than limit + 1 bytes per second through. */
  lemma LimitHoldsIffFits(bytes: nat, e: real, limit: nat)
    requires e > 0.0 && 0 < limit < UINT_RANGE - 1
    ensures PauseFor(bytes, e, limit).Seconds?
    ensures bytes as real <= (e + PauseFor(bytes, e, limit).s) * (limit + 1) as real <==> RateFits(bytes, e)
  {
    PauseOf(bytes, e, limit);
    if RateFits(bytes, e) {
      PausedRate(bytes, e, limit);
    } else {
      RateBounds(bytes, e);
      Wraps(bytes, e);
      hide TrueRate, CastRate, PauseFor, RateFits;
      WrappedReal(bytes as real, e, TrueRate(bytes, e) as real, CastRate(bytes, e) as real,
                  PauseFor(bytes, e, limit).s, limit as real);
    }
  }

  /** One that is not even delayed: 64 KiB in 15 microseconds against a limit of 100 MB/s. */
  lemma WrappedRatePasses()
    ensures !RateFits(65536, 0.000015)
    ensures PauseFor(65536, 0.000015, 100_000_000) == Seconds(0.0)
    ensures 65536.0 > 100_000_001.0 * 0.000015
  {
    var q := 65536.0 / 0.000015;
    assert 4369066666.0 <= q < 4369066667.0;
    assert TrueRate(65536, 0.000015) == 4369066666;
  }

  /** A chunk of the transfer loops fits whenever its measured time is at least 16 microseconds. */
  lemma ChunkFits(bytes: nat, e: real)
    requires bytes <= 65536 && e >= 0.000016
    ensures RateFits(bytes, e)
  {
    RateBounds(bytes, e);
    var r := TrueRate(bytes, e) as real;
    if r >= 4294967296.0 {
      Scale(4294967296.0, r, e);
      Scale(0.000016, e, 4294967296.0);
    }
  }
}
