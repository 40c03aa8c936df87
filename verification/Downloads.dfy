/** RETR as its handler runs it: what is sent is what the kernel lets sendfile take, round by round,
    as fast as the limiter allows. */
module Downloads {
  import opened Base
  import opened Streams
  import opened FileMeaning
  import opened RateLimiter
  import opened Sessions
  import opened SharedFile
  import opened DataConnection
  import opened Handlers
  import opened Transfers

  /** One round of the loop: select timing out, SIGPIPE, or what sendfile returns (None is -1). */
  datatype Sending = Sending(timing: Timing, stalled: bool, killed: bool, ret: Option<nat>)

  const SMOOTH := Sending(INSTANT, false, false, Some(CHUNK))

  function Round(sends: seq<Sending>, i: nat): Sending {
    if i < |sends| then sends[i] else SMOOTH
  }

  // ---- what a plan delivers ----

  /** What one sendfile takes, asked for `want` with `there` bytes left in the file. */
  function Takes(how: Sending, want: nat, there: nat): nat {
    if how.ret.None? then 0 else Min(how.ret.value, Min(want, there))
  }

  function Rounds(count: nat): nat {
    (count + CHUNK - 1) / CHUNK
  }

  /** What round `k` takes after `done` bytes have been delivered. */
  function Part(v: Bytes, from: nat, count: nat, sends: seq<Sending>, k: nat, done: nat): Bytes {
    var n := Takes(Round(sends, k), Wants(count, k), Max(|v| - (from + done), 0));
    if n == 0 then [] else v[from + done..from + done + n]
  }

  /** What the first `k` rounds of a loop over `count` bytes of `v` deliver. */
  function Delivers(v: Bytes, from: nat, count: nat, sends: seq<Sending>, k: nat): Bytes {
    if k == 0 then []
    else
      var before := Delivers(v, from, count, sends, k - 1);
      before + Part(v, from, count, sends, k - 1, |before|)
  }

  /** Round `i` takes all it is asked. */
  predicate Full(sends: seq<Sending>, count: nat, i: nat) {
    Round(sends, i).ret.Some? && Round(sends, i).ret.value >= Wants(count, i)
  }

  lemma PartIs(v: Bytes, from: nat, count: nat, sends: seq<Sending>, k: nat, done: nat)
    ensures var n := Takes(Round(sends, k), Wants(count, k), Max(|v| - (from + done), 0));
            && |Part(v, from, count, sends, k, done)| == n
            && (n > 0 ==> from + done + n <= |v| && Part(v, from, count, sends, k, done) == v[from + done..from + done + n])
  {
    hide Wants, Round;
  }

  lemma WantsIs(count: nat, k: nat)
    requires k * CHUNK < count
    ensures Wants(count, k) == Min(count - k * CHUNK, CHUNK) > 0
    ensures Max(count - (k + 1) * CHUNK, 0) == count - k * CHUNK - Wants(count, k)
    ensures Min(count, (k + 1) * CHUNK) == k * CHUNK + Wants(count, k)
  {
  }

  /** Adjacent slices join. */
  lemma SliceSplit(v: Bytes, from: nat, m: nat, n: nat)
    ensures Slice(v, from, m + n) == Slice(v, from, m) + Slice(v, from + |Slice(v, from, m)|, n)
  {
    if from + m < |v| {
      var e := Min(|v|, from + m + n);
      CutJoin(v, from, from + m, e);
      assert Slice(v, from, m) == v[from..from + m] && Slice(v, from + m, n) == v[from + m..e];
    } else {
      assert Slice(v, from + |Slice(v, from, m)|, n) == [];
    }
  }

  lemma CutJoin(v: Bytes, i: nat, j: nat, k: nat)
    requires i <= j <= k <= |v|
    ensures v[i..j] + v[j..k] == v[i..k]
  {
  }

  lemma FullPart(v: Bytes, from: nat, count: nat, sends: seq<Sending>, k: nat, done: nat)
    requires Full(sends, count, k)
    ensures Part(v, from, count, sends, k, done) == Slice(v, from + done, Wants(count, k))
  {
    hide Wants, Round;
  }

  /** Full rounds deliver the slice as far as they go, however stale the count. */
  lemma {:induction false} FullDelivers(v: Bytes, from: nat, count: nat, sends: seq<Sending>, k: nat)
    requires k > 0 ==> (k - 1) * CHUNK < count
    requires forall i :: 0 <= i < k ==> Full(sends, count, i)
    ensures Delivers(v, from, count, sends, k) == Slice(v, from, Min(count, k * CHUNK))
  {
    hide Part, Full, Delivers, Wants, Slice, SendMoves;
    if k == 0 {
      NothingSent(v, from, count, sends);
      NoSlice(v, from);
    } else {
      FullDelivers(v, from, count, sends, k - 1);
      OneRound(v, from, count, sends, k - 1);
      FullPart(v, from, count, sends, k - 1, |Delivers(v, from, count, sends, k - 1)|);
      WantsIs(count, k - 1);
      SliceSplit(v, from, (k - 1) * CHUNK, Wants(count, k - 1));
    }
  }

  lemma NoSlice(v: Bytes, from: nat)
    ensures Slice(v, from, 0) == []
  {
  }

  lemma PartAtMost(v: Bytes, from: nat, count: nat, sends: seq<Sending>, k: nat, done: nat)
    requires from + count <= |v| && k * CHUNK < count && done <= k * CHUNK
    ensures |Part(v, from, count, sends, k, done)| <= Wants(count, k)
    ensures |Part(v, from, count, sends, k, done)| == Wants(count, k) <==> Full(sends, count, k)
  {
    PartIs(v, from, count, sends, k, done);
    WantsIs(count, k);
    hide Part, Wants, Round;
  }

  /** No round delivers more than it counts; all are full if and only if nothing is missing. */
  lemma {:induction false} DeliversAtMost(v: Bytes, from: nat, count: nat, sends: seq<Sending>, k: nat)
    requires from + count <= |v| && (k > 0 ==> (k - 1) * CHUNK < count)
    ensures |Delivers(v, from, count, sends, k)| <= Min(count, k * CHUNK)
    ensures |Delivers(v, from, count, sends, k)| == Min(count, k * CHUNK)
            <==> forall i :: 0 <= i < k ==> Full(sends, count, i)
  {
    hide Part, Full, Wants;
    if k > 0 {
      DeliversAtMost(v, from, count, sends, k - 1);
      PartAtMost(v, from, count, sends, k - 1, |Delivers(v, from, count, sends, k - 1)|);
      WantsIs(count, k - 1);
    }
  }

  lemma RoundsCover(count: nat)
    ensures Min(count, Rounds(count) * CHUNK) == count
    ensures Rounds(count) > 0 ==> (Rounds(count) - 1) * CHUNK < count
  {
  }

  /** A loop that runs out has delivered its whole slice, for a size that is not stale, if and only
      if every sendfile took all it was asked. */
  lemma WholeIffFull(v: Bytes, from: nat, count: nat, sends: seq<Sending>)
    requires from + count <= |v|
    ensures Delivers(v, from, count, sends, Rounds(count)) == Slice(v, from, count)
            <==> forall i :: 0 <= i < Rounds(count) ==> Full(sends, count, i)
  {
    RoundsCover(count);
    hide Rounds, Full;
    DeliversAtMost(v, from, count, sends, Rounds(count));
    if forall i :: 0 <= i < Rounds(count) ==> Full(sends, count, i) {
      FullDelivers(v, from, count, sends, Rounds(count));
    }
  }

  /** sendfile never fails and never takes less than a chunk while there is one. */
  predicate NeverShort(sends: seq<Sending>) {
    forall how :: how in sends ==> how.ret.Some? && how.ret.value >= CHUNK
  }

  /** Such a loop delivers its whole slice even of a stale size. */
  lemma WholeIfNeverShort(v: Bytes, from: nat, count: nat, sends: seq<Sending>)
    requires NeverShort(sends)
    ensures Delivers(v, from, count, sends, Rounds(count)) == Slice(v, from, count)
  {
    forall i | 0 <= i < Rounds(count) ensures Full(sends, count, i) {
      assert i < |sends| ==> sends[i] in sends;
    }
    RoundsCover(count);
    hide Rounds, Full, Slice;
    FullDelivers(v, from, count, sends, Rounds(count));
  }

  /** Round `i` takes all that it is asked and that is there. */
  predicate TakesAll(v: Bytes, from: nat, count: nat, sends: seq<Sending>, i: nat) {
    var there := Max(|v| - (from + |Delivers(v, from, count, sends, i)|), 0);
    Takes(Round(sends, i), Wants(count, i), there) == Min(Wants(count, i), there)
  }

  lemma TakenPart(v: Bytes, from: nat, count: nat, sends: seq<Sending>, k: nat)
    requires TakesAll(v, from, count, sends, k)
    ensures var done := |Delivers(v, from, count, sends, k)|;
            Part(v, from, count, sends, k, done) == Slice(v, from + done, Wants(count, k))
  {
    hide Wants, Round, Delivers;
  }

  /** Rounds that take all that is there deliver the whole slice, even of a size larger than the file. */
  lemma {:induction false} WholeIfTaken(v: Bytes, from: nat, count: nat, sends: seq<Sending>, k: nat)
    requires k > 0 ==> (k - 1) * CHUNK < count
    requires forall i :: 0 <= i < k ==> TakesAll(v, from, count, sends, i)
    ensures Delivers(v, from, count, sends, k) == Slice(v, from, Min(count, k * CHUNK))
  {
    hide Part, TakesAll, Delivers, Wants, Slice, SendMoves;
    if k == 0 {
      NothingSent(v, from, count, sends);
      NoSlice(v, from);
    } else {
      WholeIfTaken(v, from, count, sends, k - 1);
      OneRound(v, from, count, sends, k - 1);
      TakenPart(v, from, count, sends, k - 1);
      WantsIs(count, k - 1);
      SliceSplit(v, from, (k - 1) * CHUNK, Wants(count, k - 1));
    }
  }

  /** Not only those: of a size larger than the file, a later round can make up for a short one. */
  lemma {:induction false} LaterRoundMakesUp()
    ensures var (v, count, short) := ([1, 2], CHUNK + 1, [Sending(INSTANT, false, false, Some(1))]);
            !TakesAll(v, 0, count, short, 0) && Delivers(v, 0, count, short, Rounds(count)) == Slice(v, 0, count)
  {
    var v: Bytes, count, short := [1, 2], CHUNK + 1, [Sending(INSTANT, false, false, Some(1))];
    assert Delivers(v, 0, count, short, 0) == [];
    assert Part(v, 0, count, short, 0, 0) == [1];
    assert Delivers(v, 0, count, short, 1) == [] + [1] == [1];
    assert Wants(count, 1) == 1 && Part(v, 0, count, short, 1, 1) == [2];
    assert Delivers(v, 0, count, short, 2) == [1] + [2] && Rounds(count) == 2;
  }

  /** The rounds before `k` went on to the next: none ended the process, and only the last failed,
      if any. */
  predicate WentOn(sends: seq<Sending>, k: nat, broken: bool) {
    forall i :: 0 <= i < k ==>
      && !Round(sends, i).stalled && !Round(sends, i).killed
      && (Round(sends, i).ret.None? ==> broken && i == k - 1)
  }

  /** The first `k` rounds as the limiter sees them; a sendfile that fails is not limited. */
  function SendMoves(v: Bytes, from: nat, count: nat, sends: seq<Sending>, k: nat): seq<Move> {
    if k == 0 then []
    else
      var how := Round(sends, k - 1);
      var done := |Delivers(v, from, count, sends, k - 1)|;
      SendMoves(v, from, count, sends, k - 1)
      + (if how.ret.None? then []
         else [MoveOf(how, |Part(v, from, count, sends, k - 1, done)|)])
  }

  /** Round `k` as the limiter sees it. */
  function MoveOf(how: Sending, n: nat): Move {
    Move(how.timing.wait + how.timing.took, n, how.timing.over)
  }

  lemma {:induction false} OneRound(v: Bytes, from: nat, count: nat, sends: seq<Sending>, k: nat)
    ensures var (done, how) := (Delivers(v, from, count, sends, k), Round(sends, k));
            var part := Part(v, from, count, sends, k, |done|);
            && Delivers(v, from, count, sends, k + 1) == done + part
            && SendMoves(v, from, count, sends, k + 1)
               == SendMoves(v, from, count, sends, k) + (if how.ret.None? then [] else [MoveOf(how, |part|)])
            && (how.ret.None? ==> part == [])
  {
    PartIs(v, from, count, sends, k, |Delivers(v, from, count, sends, k)|);
    hide Part, Wants, Round;
  }

  lemma {:induction false} MovesDelivered(v: Bytes, from: nat, count: nat, sends: seq<Sending>, k: nat)
    ensures Carried(SendMoves(v, from, count, sends, k)) == |Delivers(v, from, count, sends, k)|
    ensures Forward(SendMoves(v, from, count, sends, k)) && |SendMoves(v, from, count, sends, k)| <= k
  {
    hide *;
    if k == 0 {
      NothingSent(v, from, count, sends);
    } else {
      MovesDelivered(v, from, count, sends, k - 1);
      var how := Round(sends, k - 1);
      var ms, done := SendMoves(v, from, count, sends, k - 1), Delivers(v, from, count, sends, k - 1);
      var part := Part(v, from, count, sends, k - 1, |done|);
      OneRound(v, from, count, sends, k - 1);
      MoveForward(how, |part|);
      CarriedAppend(ms, MoveOf(how, |part|));
      assert ms + [] == ms;
    }
  }

  lemma MoveForward(how: Sending, n: nat)
    ensures MoveOf(how, n).delay == how.timing.wait + how.timing.took >= 0.0
    ensures MoveOf(how, n).over >= 0.0 && MoveOf(how, n).bytes == n
  {
  }

  lemma {:induction false} NothingSent(v: Bytes, from: nat, count: nat, sends: seq<Sending>)
    ensures SendMoves(v, from, count, sends, 0) == [] && Delivers(v, from, count, sends, 0) == []
    ensures Carried([]) == 0 && Forward([])
  {
  }

  // ---- the loop ----

  /** One sendfile of at most `want` bytes, and the limiter after it; None is -1. */
  method SendOnce(s: Session, file: File, pos: nat, want: nat, how: Sending, limit: nat, clock: Clock,
                  ghost start: real)
    returns (data: Option<Bytes>)
    requires clock.now == start + how.timing.wait && s.timePoint == Reading(start)
    modifies s`timePoint, clock
    ensures data.None? <==> how.ret.None?
    ensures data.Some? ==>
              var n := Takes(how, want, Max(|file.data| - pos, 0));
              && data.value == (if n == 0 then [] else file.data[pos..pos + n])
              && clock.now == Metered(start, MoveOf(how, n), limit).b
              && s.timePoint == Reading(clock.now)
    ensures data.None? ==> clock.now == old(clock.now)
  {
    hide Reading, Sleeps, Effective, Between;
    if how.ret.None? { return None; }
    var n := Min(how.ret.value, Min(want, Max(|file.data| - pos, 0)));
    var chunk := if n == 0 then [] else file.data[pos..pos + n];
    clock.Pass(how.timing.took);
    MeteredParts(start, MoveOf(how, n), limit);
    s.LimitTransmissionSpeed(n, limit, clock, how.timing);
    return Some(chunk);
  }

  /** The handler after `k` rounds: where it stands, what it has sent and what time it is. */
  ghost predicate SentSoFar(job: Job, size: nat, v: Bytes, from: nat, count: nat, sends: seq<Sending>, k: nat,
                            trace: seq<Act>, p: Proc, sent: Bytes)
  {
    && Sent(job, size, v, trace, p) && p.delivered == sent
    && sent == Delivers(v, from, count, sends, k)
    && p.left == Max(count - k * CHUNK, 0) && p.pos == from + |sent|
  }

  /** The trace and process after one more round. */
  lemma {:induction false} OneMore(job: Job, size: nat, v: Bytes, from: nat, count: nat, sends: seq<Sending>, k: nat,
                trace: seq<Act>, p: Proc, sent: Bytes) returns (t: seq<Act>, q: Proc)
    requires SentSoFar(job, size, v, from, count, sends, k, trace, p, sent) && k * CHUNK < count
    ensures SentSoFar(job, size, v, from, count, sends, k + 1, t, q, sent + Part(v, from, count, sends, k, |sent|))
  {
    hide *;
    var data := Part(v, from, count, sends, k, |sent|);
    SoFarParts(job, size, v, from, count, sends, k, trace, p, sent);
    PartIs(v, from, count, sends, k, |sent|);
    PartFits(v, from, count, sends, k, |sent|);
    OneRound(v, from, count, sends, k);
    LeftAfter(count, k);
    SendContinues(job, size, v, trace, p, data);
    t, q := trace + [Send(data)], AfterSend(p, data);
    if data == [] { assert sent + data == sent; }
    SoFarBy(job, size, v, from, count, sends, k + 1, t, q, sent + data);
  }

  lemma {:induction false} SoFarParts(job: Job, size: nat, v: Bytes, from: nat, count: nat, sends: seq<Sending>, k: nat,
                                      trace: seq<Act>, p: Proc, sent: Bytes)
    requires SentSoFar(job, size, v, from, count, sends, k, trace, p, sent)
    ensures Sent(job, size, v, trace, p) && p.delivered == sent == Delivers(v, from, count, sends, k)
    ensures p.left == Max(count - k * CHUNK, 0) && p.pos == from + |sent|
  {
    hide Sent, Delivers, Max;
  }

  lemma {:induction false} SoFarBy(job: Job, size: nat, v: Bytes, from: nat, count: nat, sends: seq<Sending>, k: nat,
                                   trace: seq<Act>, p: Proc, sent: Bytes)
    requires Sent(job, size, v, trace, p) && p.delivered == sent == Delivers(v, from, count, sends, k)
    requires p.left == Max(count - k * CHUNK, 0) && p.pos == from + |sent|
    ensures SentSoFar(job, size, v, from, count, sends, k, trace, p, sent)
  {
    hide Sent, Delivers, Max;
  }

  lemma PartFits(v: Bytes, from: nat, count: nat, sends: seq<Sending>, k: nat, done: nat)
    ensures |Part(v, from, count, sends, k, done)| <= Min(Max(count - k * CHUNK, 0), CHUNK) <= 65536
  {
    PartIs(v, from, count, sends, k, done);
    hide Part, Round;
  }

  lemma LeftAfter(count: nat, k: nat)
    requires k * CHUNK < count
    ensures Max(count - k * CHUNK, 0) > 0
    ensures Max(count - k * CHUNK, 0) - Min(Max(count - k * CHUNK, 0), CHUNK) == Max(count - (k + 1) * CHUNK, 0)
  {
  }

  lemma {:induction false} SoFarSent(job: Job, size: nat, v: Bytes, from: nat, count: nat, sends: seq<Sending>, k: nat,
                                    trace: seq<Act>, p: Proc, sent: Bytes)
    requires SentSoFar(job, size, v, from, count, sends, k, trace, p, sent)
    ensures sent == Delivers(v, from, count, sends, k)
  {
    hide Sent, Delivers;
  }

  /** One more round in terms of what a plan delivers and the limiter sees. */
  lemma {:induction false} StepsOn(job: Job, size: nat, v: Bytes, from: nat, count: nat, sends: seq<Sending>, k: nat,
                trace: seq<Act>, p: Proc, sent: Bytes, start: real, limit: nat)
    requires SentSoFar(job, size, v, from, count, sends, k, trace, p, sent)
    ensures var how, n := Round(sends, k), Takes(Round(sends, k), Wants(count, k), Max(|v| - (from + |sent|), 0));
            var now, next := Until(start, SendMoves(v, from, count, sends, k), limit), SendMoves(v, from, count, sends, k + 1);
            && Part(v, from, count, sends, k, |sent|) == (if n == 0 then [] else v[from + |sent|..from + |sent| + n])
            && Until(start, next, limit)
               == if how.ret.None? then now
                  else Metered(now, MoveOf(how, n), limit).b
  {
    hide *;
    SoFarSent(job, size, v, from, count, sends, k, trace, p, sent);
    var how, n := Round(sends, k), Takes(Round(sends, k), Wants(count, k), Max(|v| - (from + |sent|), 0));
    var ms := SendMoves(v, from, count, sends, k);
    OneRound(v, from, count, sends, k);
    PartIs(v, from, count, sends, k, |sent|);
    UntilAppend(start, ms, MoveOf(how, n), limit);
    assert ms + [] == ms;
    if n == 0 { assert |Part(v, from, count, sends, k, |sent|)| == 0; }
  }

  lemma WentOnAgain(sends: seq<Sending>, k: nat)
    requires WentOn(sends, k, false) && !Round(sends, k).stalled && !Round(sends, k).killed
    ensures WentOn(sends, k + 1, Round(sends, k).ret.None?)
  {
  }

  lemma RoundsIs(count: nat, k: nat)
    requires k > 0 ==> (k - 1) * CHUNK < count
    ensures k <= Rounds(count) && (k * CHUNK >= count ==> k == Rounds(count))
  {
  }

  /** Round `k`: the sendfile and the limiter, in terms of what the plan delivers. */
  method SendRound(s: Session, file: File, from: nat, count: nat, sends: seq<Sending>, i: nat, sent: Bytes,
                   limit: nat, clock: Clock, ghost start: real, ghost job: Job, ghost size: nat,
                   ghost trace: seq<Act>, ghost p: Proc)
    returns (ok: bool, more: Bytes, ghost t: seq<Act>, ghost q: Proc)
    requires SentSoFar(job, size, file.data, from, count, sends, i, trace, p, sent) && i * CHUNK < count
    requires s.timePoint == Reading(Until(start, SendMoves(file.data, from, count, sends, i), limit))
    requires clock.now == Until(start, SendMoves(file.data, from, count, sends, i), limit) + Round(sends, i).timing.wait
    modifies s`timePoint, clock
    ensures SentSoFar(job, size, file.data, from, count, sends, i + 1, t, q, more)
    ensures ok <==> Round(sends, i).ret.Some?
    ensures !ok ==> more == sent && clock.now >= Until(start, SendMoves(file.data, from, count, sends, i + 1), limit)
    ensures ok ==> clock.now == Until(start, SendMoves(file.data, from, count, sends, i + 1), limit)
                   && s.timePoint == Reading(clock.now)
  {
    hide SentSoFar, Reading, Part, SendMoves, Metered, Wants, Until, Round, MoveOf;
    ghost var now := Until(start, SendMoves(file.data, from, count, sends, i), limit);
    WantsIs(count, i);
    var how := Round(sends, i);
    StepsOn(job, size, file.data, from, count, sends, i, trace, p, sent, start, limit);
    var data := SendOnce(s, file, from + |sent|, Wants(count, i), how, limit, clock, now);
    t, q := OneMore(job, size, file.data, from, count, sends, i, trace, p, sent);
    ok := data.Some?;
    more := if ok then sent + data.value else sent;
    assert sent + [] == sent;
  }

  // ---- ABOR ----

  /** After `k` rounds the loop breaks off: the last sendfile failed, or an ABOR is noted by the check
      after it (or was left noted by an earlier command). Before the first round nobody checks. */
  predicate Broken(a: Log, open: bool, sends: seq<Sending>, k: nat) {
    k > 0 && (Round(sends, k - 1).ret.None? || a.aborted || Noted(a, open, LOOP_POINTS + 2 * k))
  }

  /** Round `k` finds the data connection shut down by an ABOR, with bytes to send: SIGPIPE. */
  predicate Dies(a: Log, open: bool, v: Bytes, from: nat, count: nat, sends: seq<Sending>, k: nat) {
    Noted(a, open, LOOP_POINTS + 2 * k + 1) && from + |Delivers(v, from, count, sends, k)| < |v|
  }

  /** The rounds before `k` were gone through: the loop had not broken off, and SIGPIPE did not end it. */
  predicate Unbroken(a: Log, open: bool, v: Bytes, from: nat, count: nat, sends: seq<Sending>, k: nat) {
    forall i :: 0 <= i < k ==> !Broken(a, open, sends, i) && !Dies(a, open, v, from, count, sends, i)
  }

  /** The points passed once the loop has ended after `k` rounds: two a round, one if its sendfile failed. */
  function Passed(sends: seq<Sending>, k: nat): nat {
    LOOP_POINTS + 2 * k - (if k > 0 && Round(sends, k - 1).ret.None? then 1 else 0)
  }

  lemma UnbrokenAgain(a: Log, open: bool, v: Bytes, from: nat, count: nat, sends: seq<Sending>, k: nat)
    requires Unbroken(a, open, v, from, count, sends, k)
    requires !Broken(a, open, sends, k) && !Dies(a, open, v, from, count, sends, k)
    ensures Unbroken(a, open, v, from, count, sends, k + 1)
  {
    hide Broken, Dies;
  }

  lemma NotYetBroken(a: Log, open: bool, v: Bytes, from: nat, count: nat, sends: seq<Sending>)
    ensures Unbroken(a, open, v, from, count, sends, 0) && !Broken(a, open, sends, 0)
  {
  }

  /** The check after a sendfile that did not fail. */
  lemma {:induction false} Checked(a: Log, b: Log, open: bool, sends: seq<Sending>, k: nat)
    requires Told(a, b, [], open, LOOP_POINTS + 2 * k) && k > 0 && Round(sends, k - 1).ret.Some?
    ensures b.aborted <==> Broken(a, open, sends, k)
    ensures Passed(sends, k) == LOOP_POINTS + 2 * k
  {
    ToldMeans(a, b, [], open, LOOP_POINTS + 2 * k);
    hide Told, Noted, Round;
  }

  /** Before a sendfile: SIGURGs, select, and SIGPIPE. */
  method Await(s: Session, file: File, from: nat, count: nat, sends: seq<Sending>, i: nat, sent: Bytes, clock: Clock,
               ghost before: Log, ghost open: bool)
    returns (exited: bool)
    requires Told(before, s.View(), [], open, LOOP_POINTS + 2 * i) && open == (s.dataFd != -1)
    requires s.shut == (before.aborts < s.aborts) && sent == Delivers(file.data, from, count, sends, i)
    modifies s`cmd, s`arg, s`receivedAbor, s`replies, s`aborts, s`others, s`signals, s`parsed, s`shut
    modifies s.control`plan, s.control`input, clock
    ensures exited ==> || Short(before, 0) || Round(sends, i).stalled || Round(sends, i).killed
                       || Dies(before, open, file.data, from, count, sends, i)
    ensures !exited ==>
              && Told(before, s.View(), [], open, LOOP_POINTS + 2 * i + 1) && s.shut == (before.aborts < s.aborts)
              && !Dies(before, open, file.data, from, count, sends, i)
              && !Round(sends, i).stalled && !Round(sends, i).killed
              && clock.now == old(clock.now) + Round(sends, i).timing.wait
    ensures clock.now >= old(clock.now)
  {
    hide Told, Short, Round, Noted, Delivers;
    exited := Signalled(s, before, [], open, LOOP_POINTS + 2 * i);
    if exited { return; }
    ToldMeans(before, s.View(), [], open, LOOP_POINTS + 2 * i + 1);
    var how := Round(sends, i);
    clock.Pass(how.timing.wait);
    if how.stalled {
      s.Say(DataTimeout421);
      return true;
    }
    return how.killed || (s.shut && from + |sent| < |file.data|);
  }

  /** One round of the loop: wait, send, and look for an ABOR. */
  method SendTurn(s: Session, file: File, from: nat, count: nat, sends: seq<Sending>, i: nat, sent: Bytes, limit: nat,
                  clock: Clock, ghost start: real, ghost job: Job, ghost size: nat, ghost trace: seq<Act>, ghost p: Proc,
                  ghost before: Log, ghost open: bool)
    returns (exited: bool, failed: bool, more: Bytes, ghost t: seq<Act>, ghost q: Proc, ghost k: nat)
    requires SentSoFar(job, size, file.data, from, count, sends, i, trace, p, sent) && i * CHUNK < count
    requires clock.now == Until(start, SendMoves(file.data, from, count, sends, i), limit)
    requires s.timePoint == Reading(clock.now)
    requires Told(before, s.View(), [], open, LOOP_POINTS + 2 * i) && open == (s.dataFd != -1)
    requires s.shut == (before.aborts < s.aborts) && WentOn(sends, i, false)
    requires Unbroken(before, open, file.data, from, count, sends, i) && !Broken(before, open, sends, i)
    modifies s`cmd, s`arg, s`receivedAbor, s`replies, s`aborts, s`others, s`signals, s`parsed, s`shut, s`timePoint
    modifies s.control`plan, s.control`input, clock
    ensures SentSoFar(job, size, file.data, from, count, sends, k, t, q, more) && (k == i || k == i + 1)
    ensures clock.now >= Until(start, SendMoves(file.data, from, count, sends, k), limit)
    ensures exited ==> || Short(before, 0) || Round(sends, k).stalled || Round(sends, k).killed
                       || Dies(before, open, file.data, from, count, sends, k)
    ensures !exited ==> k == i + 1 && Told(before, s.View(), [], open, Passed(sends, k))
                        && s.shut == (before.aborts < s.aborts) && (failed <==> Broken(before, open, sends, k))
    ensures !exited && !failed ==>
              clock.now == Until(start, SendMoves(file.data, from, count, sends, k), limit)
              && s.timePoint == Reading(clock.now) && Passed(sends, k) == LOOP_POINTS + 2 * k
    ensures WentOn(sends, k, !exited && failed) && Unbroken(before, open, file.data, from, count, sends, k)
  {
    hide SentSoFar, Told, Short, Reading, SendMoves, Until, WentOn, Round, Broken, Dies, Unbroken, Passed, Delivers;
    failed, more, t, q, k := false, sent, trace, p, i;
    SoFarSent(job, size, file.data, from, count, sends, i, trace, p, sent);
    exited := Await(s, file, from, count, sends, i, sent, clock, before, open);
    if exited { return; }
    WentOnAgain(sends, i);
    UnbrokenAgain(before, open, file.data, from, count, sends, i);
    var ok;
    ok, more, t, q := SendRound(s, file, from, count, sends, i, sent, limit, clock, start, job, size, trace, p);
    k := i + 1;
    failed := true;
    if !ok {
      FailedRound(before, open, sends, k);
      return;
    }
    Fails(sends, k);
    exited := Signalled(s, before, [], open, LOOP_POINTS + 2 * i + 1);
    if exited { return; }
    Checked(before, s.View(), open, sends, k);
    failed := s.receivedAbor;
  }

  /** The chunk loop of handle_retr. It ends however sendfile behaves: what is left to count is the
      measure. It breaks off with an error exactly when a sendfile fails or the check after it finds
      an ABOR noted, so one noted before the loop lets one chunk through. */
  method SendLoop(s: Session, file: File, from: nat, count: nat, sends: seq<Sending>, limit: nat, clock: Clock,
                  ghost job: Job, ghost size: nat, ghost opening: seq<Act>, ghost began: Proc,
                  ghost before: Log, ghost open: bool)
    returns (exited: bool, failed: bool, sent: Bytes, ghost trace: seq<Act>, ghost p: Proc, ghost k: nat)
    requires s.timePoint == Reading(clock.now)
    requires SentSoFar(job, size, file.data, from, count, sends, 0, opening, began, [])
    requires Told(before, s.View(), [], open, LOOP_POINTS)
    requires open == (s.dataFd != -1) && s.shut == (before.aborts < s.aborts)
    modifies s`cmd, s`arg, s`receivedAbor, s`replies, s`aborts, s`others, s`signals, s`parsed, s`shut, s`timePoint
    modifies s.control`plan, s.control`input, clock
    ensures SentSoFar(job, size, file.data, from, count, sends, k, trace, p, sent)
    ensures clock.now >= Until(old(clock.now), SendMoves(file.data, from, count, sends, k), limit)
    ensures exited ==> || Short(before, 0) || Round(sends, k).stalled || Round(sends, k).killed
                       || Dies(before, open, file.data, from, count, sends, k)
    ensures !exited ==> Told(before, s.View(), [], open, Passed(sends, k)) && s.shut == (before.aborts < s.aborts)
    ensures !exited ==> (failed <==> Broken(before, open, sends, k)) && (failed || k == Rounds(count))
    ensures WentOn(sends, k, !exited && failed) && k <= Rounds(count)
    ensures Unbroken(before, open, file.data, from, count, sends, k)
  {
    hide SentSoFar, Told, Short, Reading, SendMoves, Until, WentOn, Round, Rounds, Broken, Dies, Unbroken, Passed,
      Delivers;
    var left, i := count, 0;
    exited, failed, sent := false, false, [];
    trace, p, k := opening, began, 0;
    ghost var start := clock.now;
    Nothing(file.data, from, count, sends, start, limit);
    NotYetBroken(before, open, file.data, from, count, sends);
    NonePassed(sends);
    RoundsIs(count, 0);
    while left != 0
      invariant !exited && !failed && i == k && left == Max(count - k * CHUNK, 0)
      invariant k <= Rounds(count) && (left == 0 ==> k == Rounds(count))
      invariant SentSoFar(job, size, file.data, from, count, sends, k, trace, p, sent)
      invariant clock.now == Until(start, SendMoves(file.data, from, count, sends, k), limit)
      invariant s.timePoint == Reading(clock.now)
      invariant Told(before, s.View(), [], open, LOOP_POINTS + 2 * k) && s.shut == (before.aborts < s.aborts)
      invariant WentOn(sends, k, false) && Passed(sends, k) == LOOP_POINTS + 2 * k
      invariant Unbroken(before, open, file.data, from, count, sends, k) && !Broken(before, open, sends, k)
      decreases left
    {
      RoundsIs(count, i + 1);
      left := left - Min(left, CHUNK);
      exited, failed, sent, trace, p, k := SendTurn(s, file, from, count, sends, i, sent, limit, clock, start, job, size,
                                                    trace, p, before, open);
      if exited || failed { return; }
      i := i + 1;
    }
  }

  lemma FailedRound(a: Log, open: bool, sends: seq<Sending>, k: nat)
    requires k > 0 && Round(sends, k - 1).ret.None?
    ensures Broken(a, open, sends, k) && Passed(sends, k) == LOOP_POINTS + 2 * k - 1
  {
    hide Noted, Round;
  }

  lemma NonePassed(sends: seq<Sending>)
    ensures Passed(sends, 0) == LOOP_POINTS
  {
  }

  lemma {:induction false} Nothing(v: Bytes, from: nat, count: nat, sends: seq<Sending>, start: real, limit: nat)
    ensures Until(start, SendMoves(v, from, count, sends, 0), limit) == start && WentOn(sends, 0, false)
  {
  }

  /** A transfer broken off by an ABOR has had no failing round. */
  lemma Fails(sends: seq<Sending>, k: nat)
    ensures WentOn(sends, k, false) ==> WentOn(sends, k, true)
  {
  }

  // ---- the whole of RETR ----

  /** What is left to tell once RETR has returned: the replies of a refusal, or what the loop did;
      and whether there was a data connection. */
  datatype Download =
    | Refused(open: bool, said: seq<Reply>)
    | Served(open: bool, trace: seq<Act>, proc: Proc, rounds: nat, failed: bool)

  /** Everything before the download loop succeeds. */
  predicate CanRead(t: Setup, offset: int) {
    GetsLock(t) && (offset > 0 ==> t.seeks)
  }

  /** The points passed by a RETR that is refused its file. */
  function RefusedPoints(t: Setup): nat {
    if !t.opens then 2 else if !t.stats then 3 else 4
  }

  /** What RETR from `offset` promises about the bytes sent: over the version present when the lock
      was granted, a run of the shared-file machine whose rounds deliver what the kernel takes, a
      prefix of one slice, and all rounds there are unless the transfer broke off. */
  ghost predicate Downloaded(offset: int, size: nat, v: Bytes, sends: seq<Sending>, d: Download, sent: Bytes)
    requires d.Served?
  {
    var count := Total(offset, size);
    && LocalRun(AtLock(Retr(offset), size), v, d.trace) == Moved(d.proc, v)
    && d.proc.job == Retr(offset) && d.proc.total == count && d.proc.delivered == sent
    && sent == Delivers(v, Max(offset, 0), count, sends, d.rounds)
    && sent <= Slice(v, offset, count)
    && WentOn(sends, d.rounds, d.failed)
    && (if d.failed then d.rounds <= Rounds(count) else d.rounds == Rounds(count))
  }

  /** All that RETR promises, from the session before it to the session after it. */
  ghost predicate RetrDone(b: Snapshot, a: Snapshot, t: Setup, sends: seq<Sending>, limit: nat, was: Bytes, now: Bytes,
                           from: real, to: real, exited: bool, sent: Bytes, d: Download)
  {
    if exited then RetrExit(b, t, sends, |was|, now, sent, d) && (now == was || now == t.version)
    else
      && a.settings == b.settings.(activePort := false, activePasv := false)
      && if d.Refused? then sent == [] && RetrRefused(b, a, t, was, now, d)
         else RetrServed(b, a, t, sends, limit, |was|, now, from, to, sent, d)
  }

  /** What the rounds before `d.rounds` deliver has been sent, and none of them broke off or died. */
  ghost predicate SoFar(b: Log, offset: int, size: nat, v: Bytes, sends: seq<Sending>, sent: Bytes, d: Download)
    requires d.Served?
  {
    var count := Total(offset, size);
    && sent == Delivers(v, Max(offset, 0), count, sends, d.rounds)
    && WentOn(sends, d.rounds, d.failed) && d.rounds <= Rounds(count)
    && Unbroken(b, d.open, v, Max(offset, 0), count, sends, d.rounds)
  }

  /** The process ends only if the control connection runs short, the nobody process does not
      answer, or select, SIGPIPE or an ABOR ends the round that comes next; by then the rounds before
      are sent. */
  ghost predicate RetrExit(b: Snapshot, t: Setup, sends: seq<Sending>, size: nat, now: Bytes, sent: Bytes, d: Download) {
    && (Short(b.log, 0) || Unanswered(b, t) || (d.Served? && RoundEnds(b, size, now, sends, d)))
    && (if d.Served? then CanRead(t, b.restart) && now == t.version && SoFar(b.log, b.restart, size, now, sends, sent, d)
        else sent == [])
  }

  predicate RoundEnds(b: Snapshot, size: nat, v: Bytes, sends: seq<Sending>, d: Download)
    requires d.Served?
  {
    || Round(sends, d.rounds).stalled || Round(sends, d.rounds).killed
    || Dies(b.log, d.open, v, Max(b.restart, 0), Total(b.restart, size), sends, d.rounds)
  }

  ghost predicate RetrRefused(b: Snapshot, a: Snapshot, t: Setup, was: Bytes, now: Bytes, d: Download)
    requires d.Refused?
  {
    if d.said == [CannotOpen550]
    then Told(b.log, a.log, d.said, d.open, RefusedPoints(t)) && Arranged(b, a.pic, t, true, d.open)
         && !CanRead(t, b.restart)
         && a.restart == (if GetsLock(t) then 0 else b.restart) && now == (if GetsLock(t) then t.version else was)
    else d.said == NoTransfer(b.settings) && Told(b.log, a.log, d.said, d.open, 0) && Arranged(b, a.pic, t, false, d.open)
         && a.restart == b.restart && now == was
  }

  /** A served RETR, whose replies are fixed by the plan: 426 if and only if the loop broke off, and
      then a 226 if and only if an ABOR was noted (or left noted) by the end. */
  ghost predicate RetrServed(b: Snapshot, a: Snapshot, t: Setup, sends: seq<Sending>, limit: nat, size: nat, now: Bytes,
                             from: real, to: real, sent: Bytes, d: Download)
    requires d.Served?
  {
    var points := Passed(sends, d.rounds) + 1;
    && Arranged(b, a.pic, t, true, d.open) && CanRead(t, b.restart) && now == t.version && a.restart == 0
    && Downloaded(b.restart, size, t.version, sends, d, sent)
    && Unbroken(b.log, d.open, now, Max(b.restart, 0), Total(b.restart, size), sends, d.rounds)
    && (d.failed <==> Broken(b.log, d.open, sends, d.rounds))
    && Replied(b.log, a.log, RetrEnding(b.log, d.open, points, d.failed), d.open, points)
    && to >= Until(from + t.blocked, RetrMoves(b.restart, size, t.version, sends, d), limit)
  }

  function RetrEnding(b: Log, open: bool, points: nat, failed: bool): seq<Reply> {
    Ending(if failed then BrokenNetwork426 else Complete226, b.aborted || Noted(b, open, points))
  }

  /** The transfer as the limiter saw it. */
  function RetrMoves(offset: int, size: nat, v: Bytes, sends: seq<Sending>, d: Download): seq<Move>
    requires d.Served?
  {
    SendMoves(v, Max(offset, 0), Total(offset, size), sends, d.rounds)
  }

  /** open and fstat. */
  method OpenAndStat(s: Session, file: File, t: Setup, ghost before: Log, ghost open: bool)
    returns (exited: bool, refused: bool, size: nat)
    requires |s.portAddr| == 16 && s.control != s.pic && open == (s.dataFd != -1)
    requires Told(before, s.View(), [], open, 0) && s.shut == (before.aborts < s.aborts)
    modifies s`cmd, s`arg, s`receivedAbor, s`replies, s`aborts, s`others, s`signals, s`parsed, s`shut
    modifies s`dataFd, s`activePasv, s`activePort, s.control`plan, s.control`input
    ensures exited ==> Short(before, 0)
    ensures !exited ==> (refused <==> !t.opens || !t.stats)
    ensures !exited && refused ==>
              Ready(s) && Told(before, s.View(), [CannotOpen550], open, if t.opens then 3 else 2)
    ensures !exited && !refused ==> Told(before, s.View(), [], open, 2) && size == |file.data|
                                    && s.dataFd == old(s.dataFd) && s.shut == (before.aborts < s.aborts)
                                    && s.activePort == old(s.activePort) && s.activePasv == old(s.activePasv)
  {
    hide Told, Short;
    refused, size := true, 0;
    exited := Signalled(s, before, [], open, 0);
    if exited { return; }
    if !t.opens {
      exited := Refuse(s, CannotOpen550, before, open, 1);
      return;
    }
    exited := Signalled(s, before, [], open, 1);
    if exited { return; }
    size := |file.data|;
    if !t.stats {
      exited := Refuse(s, CannotOpen550, before, open, 2);
      return;
    }
    refused := false;
  }

  /** open, fstat and the read lock. */
  method LockToRead(s: Session, file: File, t: Setup, ghost before: Log, ghost open: bool)
    returns (exited: bool, refused: bool, size: nat)
    requires |s.portAddr| == 16 && s.control != s.pic && open == (s.dataFd != -1)
    requires Told(before, s.View(), [], open, 0) && s.shut == (before.aborts < s.aborts)
    modifies file
    modifies s`cmd, s`arg, s`receivedAbor, s`replies, s`aborts, s`others, s`signals, s`parsed, s`shut
    modifies s`dataFd, s`activePasv, s`activePort, s.control`plan, s.control`input
    ensures exited ==> Short(before, 0) && (file.data == old(file.data) || file.data == t.version)
    ensures !exited ==> (refused <==> !GetsLock(t))
    ensures !exited ==> file.data == if GetsLock(t) then t.version else old(file.data)
    ensures !exited && refused ==> Ready(s) && Told(before, s.View(), [CannotOpen550], open, RefusedPoints(t))
    ensures !exited && !refused ==> Told(before, s.View(), [], open, LOOP_POINTS) && size == |old(file.data)|
                                    && s.dataFd == old(s.dataFd) && s.shut == (before.aborts < s.aborts)
                                    && s.activePort == old(s.activePort) && s.activePasv == old(s.activePasv)
  {
    hide Told, Short, Granted;
    exited, refused, size := OpenAndStat(s, file, t, before, open);
    if exited || refused { return; }
    var ret := LockFile(file, t.lock, t.version);
    exited := Signalled(s, before, [], open, 2);
    if exited { return; }
    if ret == -1 {
      exited := Refuse(s, CannotOpen550, before, open, 3);
      refused := true;
    }
  }

  /** Opening, locking and seeking, up to the loop; refused if and only if one of these fails. */
  method OpenToRead(s: Session, file: File, t: Setup, ghost before: Log, ghost open: bool)
    returns (exited: bool, refused: bool, size: nat, offset: int)
    requires |s.portAddr| == 16 && s.control != s.pic && open == (s.dataFd != -1)
    requires Told(before, s.View(), [], open, 0) && s.shut == (before.aborts < s.aborts)
    modifies s`restartPosition, file
    modifies s`cmd, s`arg, s`receivedAbor, s`replies, s`aborts, s`others, s`signals, s`parsed, s`shut
    modifies s`dataFd, s`activePasv, s`activePort, s.control`plan, s.control`input
    ensures exited ==> Short(before, 0) && (file.data == old(file.data) || file.data == t.version)
    ensures !exited ==> (refused <==> !CanRead(t, old(s.restartPosition)))
    ensures !exited ==> file.data == if GetsLock(t) then t.version else old(file.data)
    ensures !exited ==> s.restartPosition == if GetsLock(t) then 0 else old(s.restartPosition)
    ensures !exited && refused ==> Ready(s) && Told(before, s.View(), [CannotOpen550], open, RefusedPoints(t))
    ensures !exited && !refused ==> Told(before, s.View(), [], open, LOOP_POINTS) && size == |old(file.data)|
                                    && s.dataFd == old(s.dataFd) && s.shut == (before.aborts < s.aborts)
                                    && offset == old(s.restartPosition)
                                    && s.activePort == old(s.activePort) && s.activePasv == old(s.activePasv)
  {
    hide Told, Short, Granted;
    offset := 0;
    exited, refused, size := LockToRead(s, file, t, before, open);
    if exited || refused { return; }
    offset, s.restartPosition := s.restartPosition, 0;
    if offset > 0 && !t.seeks {
      exited := Refuse(s, CannotOpen550, before, open, LOOP_POINTS);
      refused := true;
    }
  }

  lemma SoFarBegins(offset: int, size: nat, v: Bytes, sends: seq<Sending>) returns (p: Proc)
    ensures var count, from := Total(offset, size), Max(offset, 0);
            SentSoFar(Retr(offset), size, v, from, count, sends, 0, [Grant(Retr(offset)), Seek], p, [])
  {
    SendBegins(Retr(offset), size, v);
    p := AtLock(Retr(offset), size).(phase := Looping, pos := Max(offset, 0), total := Total(offset, size),
                                     left := Total(offset, size));
    hide LocalRun;
  }

  lemma SoFarMeans(offset: int, size: nat, v: Bytes, sends: seq<Sending>, d: Download, sent: Bytes)
    requires d.Served?
    requires SentSoFar(Retr(offset), size, v, Max(offset, 0), Total(offset, size), sends, d.rounds, d.trace, d.proc, sent)
    requires WentOn(sends, d.rounds, d.failed)
    requires if d.failed then d.rounds <= Rounds(Total(offset, size)) else d.rounds == Rounds(Total(offset, size))
    ensures Downloaded(offset, size, v, sends, d, sent)
  {
    hide LocalRun, Slice, Delivers, WentOn;
  }

  lemma SoFarIs(b: Log, offset: int, size: nat, v: Bytes, sends: seq<Sending>, d: Download, sent: Bytes, broken: bool)
    requires d.Served? && (broken ==> d.failed)
    requires SentSoFar(Retr(offset), size, v, Max(offset, 0), Total(offset, size), sends, d.rounds, d.trace, d.proc, sent)
    requires WentOn(sends, d.rounds, broken) && d.rounds <= Rounds(Total(offset, size))
    requires Unbroken(b, d.open, v, Max(offset, 0), Total(offset, size), sends, d.rounds)
    ensures SoFar(b, offset, size, v, sends, sent, d)
  {
    SoFarSent(Retr(offset), size, v, Max(offset, 0), Total(offset, size), sends, d.rounds, d.trace, d.proc, sent);
    Fails(sends, d.rounds);
    hide SentSoFar, Delivers, WentOn, Rounds, Unbroken;
  }

  /** The time point and the loop. */
  method SendAll(s: Session, file: File, size: nat, offset: int, sends: seq<Sending>, limit: nat, clock: Clock,
                 ghost b: Snapshot, ghost open: bool)
    returns (exited: bool, failed: bool, sent: Bytes, ghost d: Download)
    requires Told(b.log, s.View(), [], open, LOOP_POINTS)
    requires open == (s.dataFd != -1) && s.shut == (b.log.aborts < s.aborts)
    requires offset == b.restart
    modifies s`cmd, s`arg, s`receivedAbor, s`replies, s`aborts, s`others, s`signals, s`parsed, s`shut, s`timePoint
    modifies s.control`plan, s.control`input, clock
    ensures d.Served? && d.failed == failed && d.open == open
    ensures exited ==> Short(b.log, 0) || RoundEnds(b, size, file.data, sends, d)
    ensures SoFar(b.log, offset, size, file.data, sends, sent, d)
    ensures !exited ==>
              && Told(b.log, s.View(), [], open, Passed(sends, d.rounds)) && s.shut == (b.log.aborts < s.aborts)
              && Downloaded(offset, size, file.data, sends, d, sent)
              && (failed <==> Broken(b.log, open, sends, d.rounds))
    ensures clock.now >= Until(old(clock.now), RetrMoves(offset, size, file.data, sends, d), limit)
  {
    hide Told, Short, SentSoFar, SoFar, Reading, Downloaded, Until, SendMoves, WentOn, Round, Rounds, Broken, Dies,
      Unbroken,
      Passed;
    var bytesToSend := if offset > size then 0 else size - offset;
    assert bytesToSend == Total(offset, size);
    s.InitTransferStartTimePoint(clock);
    ghost var began := SoFarBegins(offset, size, file.data, sends);
    ghost var trace, p, k;
    exited, failed, sent, trace, p, k := SendLoop(s, file, Max(offset, 0), bytesToSend, sends, limit, clock,
                                                  Retr(offset), size, [Grant(Retr(offset)), Seek], began, b.log, open);
    d := Served(open, trace, p, k, failed);
    SoFarIs(b.log, offset, size, file.data, sends, d, sent, !exited && failed);
    if exited { return; }
    SoFarMeans(offset, size, file.data, sends, d, sent);
  }

  /** The loop and what follows it. */
  method SendFile(s: Session, file: File, size: nat, offset: int, sends: seq<Sending>, limit: nat, clock: Clock,
                  ghost b: Snapshot, ghost open: bool)
    returns (exited: bool, sent: Bytes, ghost d: Download)
    requires |s.portAddr| == 16 && s.control != s.pic && offset == b.restart
    requires Told(b.log, s.View(), [], open, LOOP_POINTS)
    requires open == (s.dataFd != -1) && s.shut == (b.log.aborts < s.aborts)
    modifies s`timePoint, clock
    modifies s`cmd, s`arg, s`receivedAbor, s`replies, s`aborts, s`others, s`signals, s`parsed, s`shut
    modifies s`dataFd, s`activePasv, s`activePort, s.control`plan, s.control`input
    ensures d.Served? && d.open == open
    ensures exited ==> Short(b.log, 0) || RoundEnds(b, size, file.data, sends, d)
    ensures SoFar(b.log, offset, size, file.data, sends, sent, d)
    ensures !exited ==>
              var points := Passed(sends, d.rounds) + 1;
              && Ready(s) && Downloaded(offset, size, file.data, sends, d, sent)
              && (d.failed <==> Broken(b.log, open, sends, d.rounds))
              && Replied(b.log, s.View(), RetrEnding(b.log, open, points, d.failed), open, points)
    ensures clock.now >= Until(old(clock.now), RetrMoves(offset, size, file.data, sends, d), limit)
  {
    hide Told, Short, Replied, Downloaded, SoFar, Until, RetrMoves, RoundEnds, Ending, Broken, Noted, Passed;
    var failed;
    exited, failed, sent, d := SendAll(s, file, size, offset, sends, limit, clock, b, open);
    if exited { return; }
    ghost var n := Passed(sends, d.rounds);
    exited := Finish(s, if failed then BrokenNetwork426 else Complete226, b.log, [], open, n);
    assert [] + RetrEnding(b.log, open, n + 1, failed) == RetrEnding(b.log, open, n + 1, failed);
  }

  /** Everything before the loop. */
  method BeginRetr(s: Session, file: File, t: Setup)
    returns (exited: bool, refused: bool, size: nat, offset: int, ghost open: bool, ghost said: seq<Reply>)
    requires AtHead(s)
    modifies s`restartPosition, s.pic, file
    modifies s`cmd, s`arg, s`receivedAbor, s`replies, s`aborts, s`others, s`signals, s`parsed, s`shut
    modifies s`dataFd, s`activePasv, s`activePort, s.control`plan, s.control`input
    ensures exited ==> Short(old(s.View()), 0) || Unanswered(old(s.Now()), t)
    ensures exited ==> file.data == old(file.data) || file.data == t.version
    ensures !exited && refused ==>
              Ready(s) && RetrRefused(old(s.Now()), s.Now(), t, old(file.data), file.data, Refused(open, said))
    ensures !exited && !refused ==>
              && Told(old(s.View()), s.View(), [], open, LOOP_POINTS) && Arranged(old(s.Now()), s.Now().pic, t, true, open)
              && open == (s.dataFd != -1) && s.shut == (old(s.aborts) < s.aborts)
              && CanRead(t, old(s.restartPosition)) && file.data == t.version && s.restartPosition == 0
              && size == |old(file.data)| && offset == old(s.restartPosition)
  {
    hide Told, Short, Arranged, Unanswered, GetsLock, NoTransfer, RetrRefused, RefusedPoints;
    ghost var b, was := s.Now(), file.data;
    size, offset := 0, 0;
    exited, refused, said := Establish(s, t);
    open := s.dataFd != -1;
    if exited { return; }
    if refused {
      RefusedByNobody(b, s.Now(), t, was, said);
      return;
    }
    exited, refused, size, offset := OpenToRead(s, file, t, b.log, open);
    if exited { return; }
    said := [CannotOpen550];
    if refused { RefusedByFile(b, s.Now(), t, was, file.data, open); }
  }

  lemma RefusedByNobody(b: Snapshot, a: Snapshot, t: Setup, was: Bytes, said: seq<Reply>)
    requires Told(b.log, a.log, said, false, 0) && Arranged(b, a.pic, t, false, false) && a.restart == b.restart
    requires said == NoTransfer(b.settings)
    ensures RetrRefused(b, a, t, was, was, Refused(false, said))
  {
    NoTransferIs(b.settings);
    hide Told, Arranged, NoTransfer;
  }

  lemma RefusedByFile(b: Snapshot, a: Snapshot, t: Setup, was: Bytes, now: Bytes, open: bool)
    requires Told(b.log, a.log, [CannotOpen550], open, RefusedPoints(t)) && Arranged(b, a.pic, t, true, open)
    requires !CanRead(t, b.restart)
    requires a.restart == (if GetsLock(t) then 0 else b.restart) && now == (if GetsLock(t) then t.version else was)
    ensures RetrRefused(b, a, t, was, now, Refused(open, [CannotOpen550]))
  {
    hide Told, Arranged, GetsLock, RefusedPoints;
  }

  lemma RetrEnds(b: Snapshot, a: Snapshot, t: Setup, sends: seq<Sending>, limit: nat, was: Bytes, now: Bytes, from: real,
                 to: real, sent: Bytes, d: Download)
    requires RetrExit(b, t, sends, |was|, now, sent, d) && (now == was || now == t.version)
    ensures RetrDone(b, a, t, sends, limit, was, now, from, to, true, sent, d)
  {
    hide RetrExit;
  }

  lemma RetrNot(b: Snapshot, a: Snapshot, t: Setup, sends: seq<Sending>, limit: nat, was: Bytes, now: Bytes, from: real,
                to: real, d: Download)
    requires a.settings == b.settings.(activePort := false, activePasv := false)
    requires d.Refused? && RetrRefused(b, a, t, was, now, d)
    ensures RetrDone(b, a, t, sends, limit, was, now, from, to, false, [], d)
  {
    hide RetrRefused;
  }

  /** Once the way is clear (`m` the session then), what the loop and its end leave is what RETR promises. */
  lemma RetrIs(b: Snapshot, m: Snapshot, a: Snapshot, t: Setup, sends: seq<Sending>, limit: nat, was: Bytes, from: real,
               to: real, sent: Bytes, d: Download)
    requires d.Served? && Arranged(b, m.pic, t, true, d.open)
    requires CanRead(t, b.restart) && m.restart == 0 && a.pic == m.pic && a.restart == 0
    requires a.settings == b.settings.(activePort := false, activePasv := false)
    requires Downloaded(b.restart, |was|, t.version, sends, d, sent)
    requires SoFar(b.log, b.restart, |was|, t.version, sends, sent, d)
    requires d.failed <==> Broken(b.log, d.open, sends, d.rounds)
    requires var points := Passed(sends, d.rounds) + 1;
             Replied(b.log, a.log, RetrEnding(b.log, d.open, points, d.failed), d.open, points)
    requires to >= Until(from + t.blocked, RetrMoves(b.restart, |was|, t.version, sends, d), limit)
    ensures RetrDone(b, a, t, sends, limit, was, t.version, from, to, false, sent, d)
  {
    hide Arranged, CanRead, Downloaded, Replied, RetrEnding, Until, RetrMoves, Broken, Passed, Unbroken, Delivers,
      WentOn, Rounds;
  }

  /** RETR once the file is open, locked and positioned. */
  method ServeRetr(s: Session, file: File, size: nat, offset: int, t: Setup, sends: seq<Sending>, limit: nat, clock: Clock,
                   ghost b: Snapshot, ghost was: Bytes, ghost open: bool)
    returns (exited: bool, sent: Bytes, ghost d: Download)
    requires |s.portAddr| == 16 && s.control != s.pic
    requires Told(b.log, s.View(), [], open, LOOP_POINTS)
    requires open == (s.dataFd != -1) && s.shut == (b.log.aborts < s.aborts)
    requires s.Now().settings.(activePort := false, activePasv := false)
             == b.settings.(activePort := false, activePasv := false)
    requires Arranged(b, s.Now().pic, t, true, open)
    requires CanRead(t, b.restart) && file.data == t.version && s.restartPosition == 0
    requires size == |was| && offset == b.restart
    modifies s`timePoint, clock
    modifies s`cmd, s`arg, s`receivedAbor, s`replies, s`aborts, s`others, s`signals, s`parsed, s`shut
    modifies s`dataFd, s`activePasv, s`activePort, s.control`plan, s.control`input
    ensures RetrDone(b, s.Now(), t, sends, limit, was, file.data, old(clock.now), clock.now, exited, sent, d)
    ensures !exited ==> Ready(s)
  {
    hide Told, Short, Replied, Downloaded, Arranged, Unanswered, RoundEnds, Until, RetrMoves, RetrEnding, CanRead,
      RetrDone,
      SoFar, Broken, Passed;
    ghost var m := s.Now();
    clock.Pass(t.blocked);
    exited, sent, d := SendFile(s, file, size, offset, sends, limit, clock, b, open);
    if exited {
      RetrEnds(b, s.Now(), t, sends, limit, was, file.data, old(clock.now), clock.now, sent, d);
    } else {
      RetrIs(b, m, s.Now(), t, sends, limit, was, old(clock.now), clock.now, sent, d);
    }
  }

  method HandleRetr(s: Session, file: File, t: Setup, sends: seq<Sending>, limit: nat, clock: Clock)
    returns (exited: bool, sent: Bytes, ghost d: Download)
    requires AtHead(s)
    modifies s`timePoint, s`restartPosition, s.pic, file, clock
    modifies s`cmd, s`arg, s`receivedAbor, s`replies, s`aborts, s`others, s`signals, s`parsed, s`shut
    modifies s`dataFd, s`activePasv, s`activePort, s.control`plan, s.control`input
    ensures RetrDone(old(s.Now()), s.Now(), t, sends, limit, old(file.data), file.data, old(clock.now), clock.now,
                     exited, sent, d)
    ensures !exited ==> Ready(s)
  {
    hide Told, Short, Replied, Downloaded, Arranged, Unanswered, RoundEnds, Until, RetrMoves, GetsLock, NoTransfer,
      RetrRefused, CanRead, RetrDone;
    ghost var b, was, from := s.Now(), file.data, clock.now;
    sent, d := [], Refused(false, []);
    var refused, size, offset;
    ghost var open, said;
    exited, refused, size, offset, open, said := BeginRetr(s, file, t);
    if exited {
      RetrEnds(b, s.Now(), t, sends, limit, was, file.data, from, clock.now, sent, d);
      return;
    }
    if refused {
      d := Refused(open, said);
      RetrNot(b, s.Now(), t, sends, limit, was, file.data, from, clock.now, d);
      return;
    }
    exited, sent, d := ServeRetr(s, file, size, offset, t, sends, limit, clock, b, was, open);
  }

  /** A loop that does not break off over calls that are never short has sent its whole slice, even of a
      stale size. */
  lemma SentWhole(offset: int, size: nat, v: Bytes, sends: seq<Sending>, d: Download, sent: Bytes)
    requires d.Served? && Downloaded(offset, size, v, sends, d, sent) && !d.failed && NeverShort(sends)
    ensures sent == Slice(v, offset, Total(offset, size))
  {
    hide LocalRun, Delivers, Rounds, WentOn;
    WholeIfNeverShort(v, Max(offset, 0), Total(offset, size), sends);
  }

  /** For a size that is not stale it has if and only if no sendfile was short. */
  lemma SentWholeIffFull(offset: nat, size: nat, v: Bytes, sends: seq<Sending>, d: Download, sent: Bytes)
    requires d.Served? && Downloaded(offset, size, v, sends, d, sent) && !d.failed && size <= |v|
    ensures var count := Total(offset, size);
            sent == Slice(v, offset, count) <==> forall i :: 0 <= i < Rounds(count) ==> Full(sends, count, i)
  {
    hide LocalRun, Delivers, Rounds, WentOn, Full;
    if offset <= size {
      WholeIffFull(v, offset, Total(offset, size), sends);
    } else {
      NoRounds();
    }
  }

  /** It has sent the file from the offset on if and only if there was nothing to send, or the file did
      not grow while RETR waited for its lock and no sendfile was short. */
  lemma SentToTheEnd(offset: nat, size: nat, v: Bytes, sends: seq<Sending>, d: Download, sent: Bytes)
    requires d.Served? && Downloaded(offset, size, v, sends, d, sent) && !d.failed && offset <= size <= |v|
    ensures sent == v[offset..]
            <==> || offset == |v|
                 || (size == |v|
                     && forall i :: 0 <= i < Rounds(Total(offset, size)) ==> Full(sends, Total(offset, size), i))
  {
    SentWholeIffFull(offset, size, v, sends, d, sent);
    assert Slice(v, offset, Total(offset, size)) == v[offset..size];
    assert |sent| <= size - offset;
    hide LocalRun, Delivers, Rounds, WentOn, Full;
  }

  lemma NoRounds()
    ensures Rounds(0) == 0 && forall v: Bytes, from: nat, sends :: Delivers(v, from, 0, sends, 0) == []
  {
  }

  lemma ServedParts(b: Snapshot, a: Snapshot, t: Setup, sends: seq<Sending>, limit: nat, size: nat, now: Bytes,
                    from: real, to: real, sent: Bytes, d: Download)
    requires d.Served? && RetrServed(b, a, t, sends, limit, size, now, from, to, sent, d)
    ensures Downloaded(b.restart, size, t.version, sends, d, sent)
    ensures to >= Until(from + t.blocked, RetrMoves(b.restart, size, t.version, sends, d), limit)
  {
    hide Arranged, Replied, Downloaded, CanRead, Until, Round, RetrMoves;
  }

  lemma ServedMoves(offset: int, size: nat, v: Bytes, sends: seq<Sending>, d: Download, sent: Bytes)
    requires d.Served? && Downloaded(offset, size, v, sends, d, sent)
    ensures var ms := RetrMoves(offset, size, v, sends, d);
            |sent| == Carried(ms) && Forward(ms) && |ms| <= d.rounds
  {
    assert sent == Delivers(v, Max(offset, 0), Total(offset, size), sends, d.rounds);
    MovesDelivered(v, Max(offset, 0), Total(offset, size), sends, d.rounds);
    hide Delivers, SendMoves, Carried, Forward, Downloaded;
  }

  /** The download speed limit, in the time that passed from the loop's start to the reply. */
  lemma DownloadSpeed(b: Snapshot, a: Snapshot, t: Setup, sends: seq<Sending>, limit: nat, size: nat, now: Bytes,
                      from: real, to: real, sent: Bytes, d: Download)
    requires d.Served? && RetrServed(b, a, t, sends, limit, size, now, from, to, sent, d)
    requires limit > 0 && AllFit(from + t.blocked, RetrMoves(b.restart, size, t.version, sends, d), limit)
    ensures var ms := RetrMoves(b.restart, size, t.version, sends, d);
            && |ms| <= d.rounds && Clamps(from + t.blocked, ms, limit) <= |ms|
            && |sent| as real <= (to - (from + t.blocked) + 0.000001 + 0.01 * Clamps(from + t.blocked, ms, limit) as real
                                  + 0.000001001 * |ms| as real) * (limit + 1) as real
  {
    hide *;
    ServedParts(b, a, t, sends, limit, size, now, from, to, sent, d);
    ServedMoves(b.restart, size, t.version, sends, d, sent);
    MovesSpeed(from + t.blocked, to, RetrMoves(b.restart, size, t.version, sends, d), limit, |sent|);
  }

  /** In rounds that take 17 microseconds or more each that is, but for a microsecond a round, the limit and one
      byte per second. */
  lemma SlowDownload(b: Snapshot, a: Snapshot, t: Setup, sends: seq<Sending>, limit: nat, size: nat, now: Bytes,
                     from: real, to: real, sent: Bytes, d: Download)
    requires d.Served? && RetrServed(b, a, t, sends, limit, size, now, from, to, sent, d)
    requires limit > 0 && d.rounds <= |sends| && forall how :: how in sends ==> how.timing.wait + how.timing.took >= 0.000017
    ensures |sent| as real
            <= (to - (from + t.blocked) + 0.000001 + 0.000001001 * d.rounds as real) * (limit + 1) as real
  {
    hide *;
    var ms := RetrMoves(b.restart, size, t.version, sends, d);
    RetrSlow(b.restart, size, t.version, sends, d);
    SlowMoves(from + t.blocked, ms, limit);
    DownloadSpeed(b, a, t, sends, limit, size, now, from, to, sent, d);
    var time, less, more := to - (from + t.blocked) + 0.000001, 0.000001001 * |ms| as real, 0.000001001 * d.rounds as real;
    assert 0.01 * 0 as real == 0.0 && less <= more;
    Widen(|sent| as real, time + less, time + more, (limit + 1) as real);
  }

  lemma {:induction false} RetrSlow(offset: int, size: nat, v: Bytes, sends: seq<Sending>, d: Download)
    requires d.Served? && d.rounds <= |sends|
    requires forall how :: how in sends ==> how.timing.wait + how.timing.took >= 0.000017
    ensures forall m :: m in RetrMoves(offset, size, v, sends, d) ==> m.delay >= 0.000017 && m.bytes <= 65536 && m.over >= 0.0
  {
    SlowSends(v, Max(offset, 0), Total(offset, size), sends, d.rounds);
    hide SendMoves;
  }

  lemma RoundIn(sends: seq<Sending>, k: nat)
    requires k < |sends|
    ensures Round(sends, k) == sends[k] && sends[k] in sends
  {
  }

  lemma {:induction false} SlowSends(v: Bytes, from: nat, count: nat, sends: seq<Sending>, k: nat)
    requires k <= |sends| && forall how :: how in sends ==> how.timing.wait + how.timing.took >= 0.000017
    ensures forall m :: m in SendMoves(v, from, count, sends, k) ==> m.delay >= 0.000017 && m.bytes <= 65536 && m.over >= 0.0
  {
    hide *;
    if k == 0 {
      NothingSent(v, from, count, sends);
    } else {
      SlowSends(v, from, count, sends, k - 1);
      OneRound(v, from, count, sends, k - 1);
      var (done, how) := (|Delivers(v, from, count, sends, k - 1)|, Round(sends, k - 1));
      PartFits(v, from, count, sends, k - 1, done);
      assert how == sends[k - 1] && how in sends by { RoundIn(sends, k - 1); }
      MoveForward(how, |Part(v, from, count, sends, k - 1, done)|);
    }
  }

  // ---- what an ABOR does to a download ----

  /** A RETR during which an ABOR is noted answers 426 and then 226 if and only if it broke off (its
      last sendfile failed, or the ABOR was noted by the check after it); otherwise it answers 226 and
      226, and then every round there is was gone through. */
  lemma AborAnswer(b: Snapshot, a: Snapshot, t: Setup, sends: seq<Sending>, limit: nat, size: nat, now: Bytes,
                   from: real, to: real, sent: Bytes, d: Download)
    requires d.Served? && RetrServed(b, a, t, sends, limit, size, now, from, to, sent, d)
    requires Noted(b.log, d.open, Passed(sends, d.rounds) + 1)
    ensures var said := Main(a.log.replies);
            if d.rounds > 0
               && (Round(sends, d.rounds - 1).ret.None? || b.log.aborted || Noted(b.log, d.open, LOOP_POINTS + 2 * d.rounds))
            then said == Main(b.log.replies) + [BrokenNetwork426, Aborted226]
            else said == Main(b.log.replies) + [Complete226, Aborted226] && d.rounds == Rounds(Total(b.restart, size))
  {
    hide Arranged, CanRead, Noted, Passed, Round, Unbroken, Until, RetrMoves, LocalRun, Delivers, Slice, WentOn, Rounds,
      Main, Points, Listened;
  }

  /** An ABOR left noted by an earlier command lets one round through. */
  lemma OneRoundOnly(a: Log, open: bool, v: Bytes, from: nat, count: nat, sends: seq<Sending>, k: nat)
    requires a.aborted && Unbroken(a, open, v, from, count, sends, k)
    ensures k <= 1
  {
    assert Broken(a, open, sends, 1);
    hide Dies, Noted, Round;
  }

  lemma {:induction false} Survived(b: Snapshot, a: Snapshot, t: Setup, sends: seq<Sending>, limit: nat, size: nat, now: Bytes,
                 from: real, to: real, sent: Bytes, d: Download)
    requires d.Served? && RetrServed(b, a, t, sends, limit, size, now, from, to, sent, d)
    requires 0 <= b.restart < |now| && b.restart < size
    ensures !Noted(b.log, d.open, LOOP_POINTS + 1)
  {
    var count := Total(b.restart, size);
    assert Delivers(now, b.restart, count, sends, 0) == [];
    assert d.rounds > 0;
    assert !Dies(b.log, d.open, now, b.restart, count, sends, 0);
    hide Noted, Arranged, Replied, Until, RetrMoves, Delivers, WentOn, LocalRun, Slice;
  }

  /** An ABOR that arrives before the first sendfile, with something to send, gets no answer at all:
      the sendfile on the connection shut down ends the process. */
  lemma AborKills(b: Snapshot, a: Snapshot, t: Setup, sends: seq<Sending>, limit: nat, was: Bytes, now: Bytes,
                  from: real, to: real, exited: bool, sent: Bytes, d: Download)
    requires d.Served? && RetrDone(b, a, t, sends, limit, was, now, from, to, exited, sent, d)
    requires Noted(b.log, d.open, LOOP_POINTS + 1) && 0 <= b.restart < |now| && b.restart < |was|
    ensures exited
  {
    hide Noted, RetrServed, RetrExit;
    if !exited { Survived(b, a, t, sends, limit, |was|, now, from, to, sent, d); }
  }

  /** Once served, RETR ends the process only in a round in which select times out, the client has gone, or an ABOR
      was noted with something left to send; or for want of a line. */
  lemma {:induction false} RetrExits(b: Snapshot, a: Snapshot, t: Setup, sends: seq<Sending>, limit: nat, was: Bytes,
                                     now: Bytes, from: real, to: real, sent: Bytes, d: Download)
    requires RetrDone(b, a, t, sends, limit, was, now, from, to, true, sent, d) && d.Served?
    requires !Short(b.log, 0) && !Unanswered(b, t)
    ensures || (d.rounds < |sends| && (sends[d.rounds].stalled || sends[d.rounds].killed))
            || (Noted(b.log, d.open, LOOP_POINTS + 2 * d.rounds + 1) && Max(b.restart, 0) + |sent| < |now|)
  {
    hide Short, Unanswered, Noted, CanRead, Delivers, WentOn, Unbroken, Rounds;
  }

  // ---- what the client is answered, and what that means ----

  lemma ServedReplies(b: Snapshot, a: Snapshot, t: Setup, sends: seq<Sending>, limit: nat, size: nat, now: Bytes,
                      from: real, to: real, sent: Bytes, d: Download)
    requires d.Served? && RetrServed(b, a, t, sends, limit, size, now, from, to, sent, d)
    ensures Main(a.log.replies) == Main(b.log.replies) + RetrEnding(b.log, d.open, Passed(sends, d.rounds) + 1, d.failed)
    ensures Downloaded(b.restart, size, t.version, sends, d, sent) && now == t.version
    ensures d.failed <==> Broken(b.log, d.open, sends, d.rounds)
  {
    hide Arranged, CanRead, Downloaded, Replied, RetrEnding, Until, RetrMoves, Broken, Passed, Unbroken, Main;
    var points := Passed(sends, d.rounds) + 1;
    RepliesAre(b.log, a.log, RetrEnding(b.log, d.open, points, d.failed), d.open, points);
  }

  /** The replies of a served RETR: 426 if its loop broke off and 226 if not, and a 226 more for an ABOR. */
  lemma RetrReplies(b: Snapshot, a: Snapshot, t: Setup, sends: seq<Sending>, limit: nat, size: nat, now: Bytes,
                    from: real, to: real, sent: Bytes, d: Download)
    requires d.Served? && RetrServed(b, a, t, sends, limit, size, now, from, to, sent, d)
    ensures Main(a.log.replies)
            == Main(b.log.replies) + [if Broken(b.log, d.open, sends, d.rounds) then BrokenNetwork426 else Complete226]
               + (if b.log.aborted || Noted(b.log, d.open, Passed(sends, d.rounds) + 1) then [Aborted226] else [])
  {
    ServedReplies(b, a, t, sends, limit, size, now, from, to, sent, d);
    EndingIs(if d.failed then BrokenNetwork426 else Complete226,
             b.log.aborted || Noted(b.log, d.open, Passed(sends, d.rounds) + 1), Main(b.log.replies));
    hide Broken, Noted, Passed, Main, Ending;
  }

  lemma EndingIs(done: Reply, aborted: bool, rs: seq<Reply>)
    ensures rs + Ending(done, aborted) == rs + [done] + (if aborted then [Aborted226] else [])
  {
  }

  /** The rounds of a loop in which no ABOR is noted. */
  lemma {:induction false} QuietRounds(b: Log, open: bool, offset: int, size: nat, v: Bytes, sends: seq<Sending>, d: Download,
                                       sent: Bytes)
    requires d.Served? && Downloaded(offset, size, v, sends, d, sent) && (d.failed <==> Broken(b, open, sends, d.rounds))
    requires !b.aborted && !Noted(b, open, Passed(sends, d.rounds) + 1)
    ensures d.failed <==> exists i :: 0 <= i < d.rounds && i < |sends| && sends[i].ret.None?
    ensures !d.failed ==> d.rounds == (Max(size - Max(offset, 0), 0) + 65535) / 65536 || offset < 0
    ensures d.failed ==> d.rounds > 0 && d.rounds <= |sends| && sends[d.rounds - 1].ret.None?
  {
    hide Delivers, Slice, LocalRun, Noted;
    var k := d.rounds;
    NotedStays(b, open, LOOP_POINTS + 2 * k, LOOP_POINTS + 2 * k + 1);
    assert Passed(sends, k) + 1 >= LOOP_POINTS + 2 * k;
    if k > 0 && Round(sends, k - 1).ret.Some? { assert !Broken(b, open, sends, k); }
    if exists i :: 0 <= i < k && i < |sends| && sends[i].ret.None? {
      var i :| 0 <= i < k && i < |sends| && sends[i].ret.None?;
      assert Round(sends, i).ret.None?;
    }
  }

  /** Without an ABOR a served RETR answers 226 if and only if no sendfile failed, and 426 if and only if
      one did; and it says nothing else. */
  lemma RetrAnswer(b: Snapshot, a: Snapshot, t: Setup, sends: seq<Sending>, limit: nat, size: nat, now: Bytes,
                   from: real, to: real, sent: Bytes, d: Download)
    requires d.Served? && RetrServed(b, a, t, sends, limit, size, now, from, to, sent, d)
    requires !b.log.aborted && !Noted(b.log, d.open, Passed(sends, d.rounds) + 1)
    ensures Main(a.log.replies) == Main(b.log.replies) + [Complete226]
            <==> forall i :: 0 <= i < d.rounds && i < |sends| ==> sends[i].ret.Some?
    ensures Main(a.log.replies) == Main(b.log.replies) + [BrokenNetwork426]
            <==> exists i :: 0 <= i < d.rounds && i < |sends| && sends[i].ret.None?
    ensures Main(a.log.replies) == Main(b.log.replies) + [Complete226] && 0 <= b.restart <= size ==>
              d.rounds == (size - b.restart + 65535) / 65536
  {
    hide Noted, Passed, Broken, Downloaded, RetrServed;
    ServedReplies(b, a, t, sends, limit, size, now, from, to, sent, d);
    RetrReplies(b, a, t, sends, limit, size, now, from, to, sent, d);
    QuietRounds(b.log, d.open, b.restart, size, t.version, sends, d, sent);
    OneReply(Main(b.log.replies), Main(a.log.replies), if d.failed then BrokenNetwork426 else Complete226);
    hide RetrEnding, Main;
  }

  lemma OneReply(was: seq<Reply>, now: seq<Reply>, r: Reply)
    requires now == was + [r] + []
    ensures now == was + [r] && now[|was|] == r
    ensures forall q :: now == was + [q] ==> q == r
  {
    assert was + [r] + [] == was + [r];
    forall q | now == was + [q] ensures q == r { assert now[|was|] == (was + [q])[|was|]; }
  }

  /** A RETR whose first reply is 226 was served, and its loop did not break off. */
  lemma Answered226(b: Snapshot, a: Snapshot, t: Setup, sends: seq<Sending>, limit: nat, was: Bytes, now: Bytes,
                    from: real, to: real, sent: Bytes, d: Download)
    requires RetrDone(b, a, t, sends, limit, was, now, from, to, false, sent, d)
    requires |Main(a.log.replies)| > |Main(b.log.replies)| && Main(a.log.replies)[|Main(b.log.replies)|] == Complete226
    ensures d.Served? && !d.failed && now == t.version && Downloaded(b.restart, |was|, now, sends, d, sent)
  {
    hide RetrServed, Main, Told, Arranged, CanRead, GetsLock, RefusedPoints, Downloaded, Broken, Passed, Noted;
    if d.Served? {
      ServedReplies(b, a, t, sends, limit, |was|, now, from, to, sent, d);
    } else {
      RefusedReplies(b, a, t, was, now, d);
    }
  }

  lemma RefusedReplies(b: Snapshot, a: Snapshot, t: Setup, was: Bytes, now: Bytes, d: Download)
    requires d.Refused? && RetrRefused(b, a, t, was, now, d)
    ensures Main(a.log.replies) == Main(b.log.replies) + d.said && |d.said| >= 1 && d.said[0] != Complete226
  {
    hide Arranged, CanRead, GetsLock, RefusedPoints, Points, Listened, Main, Arriving;
  }

  /** 226 over sendfile calls that never fail and never take less than 64 KiB: all of the file from the
      offset on that was there when its size was taken. */
  lemma CompleteDownload(b: Snapshot, a: Snapshot, t: Setup, sends: seq<Sending>, limit: nat, was: Bytes, now: Bytes,
                         from: real, to: real, sent: Bytes, d: Download)
    requires RetrDone(b, a, t, sends, limit, was, now, from, to, false, sent, d)
    requires |Main(a.log.replies)| > |Main(b.log.replies)| && Main(a.log.replies)[|Main(b.log.replies)|] == Complete226
    requires forall how :: how in sends ==> how.ret.Some? && how.ret.value >= 65536
    requires 0 <= b.restart
    ensures sent == if b.restart <= Min(|was|, |now|) then now[b.restart..Min(|was|, |now|)] else []
  {
    Answered226(b, a, t, sends, limit, was, now, from, to, sent, d);
    hide RetrDone, Main, LocalRun, Delivers, WentOn;
    SentWhole(b.restart, |was|, now, sends, d, sent);
  }

  lemma WithinSlice(offset: nat, size: nat, v: Bytes, sends: seq<Sending>, d: Download, sent: Bytes)
    requires d.Served? && Downloaded(offset, size, v, sends, d, sent) && offset <= size <= |v|
    ensures Total(offset, size) == size - offset && Slice(v, offset, size - offset) == v[offset..size] && sent <= v[offset..size]
  {
    hide LocalRun, Delivers, WentOn, Rounds;
  }

  lemma FullIs(sends: seq<Sending>, count: nat)
    ensures (forall i :: 0 <= i < Rounds(count) ==> Full(sends, count, i))
            <==> forall i :: 0 <= i < |sends| && i * 65536 < count ==>
                   sends[i].ret.Some? && sends[i].ret.value >= Min(65536, count - i * 65536)
  {
    if forall i :: 0 <= i < Rounds(count) ==> Full(sends, count, i) {
      forall i | 0 <= i < |sends| && i * 65536 < count
        ensures sends[i].ret.Some? && sends[i].ret.value >= Min(65536, count - i * 65536)
      {
        RoundsIs(count, i + 1);
        assert Full(sends, count, i);
        WantsIs(count, i);
      }
    }
    if forall i :: 0 <= i < |sends| && i * 65536 < count ==>
                   sends[i].ret.Some? && sends[i].ret.value >= Min(65536, count - i * 65536) {
      forall i | 0 <= i < Rounds(count) ensures Full(sends, count, i) {
        assert i * 65536 < count;
        WantsIs(count, i);
      }
    }
  }

  /** 226 for a file that has not shrunk since its size was taken: what was sent is all that was there then
      from the offset on if and only if no sendfile took less than was left or 64 KiB. */
  lemma CompleteIffFull(b: Snapshot, a: Snapshot, t: Setup, sends: seq<Sending>, limit: nat, was: Bytes, now: Bytes,
                        from: real, to: real, sent: Bytes, d: Download)
    requires RetrDone(b, a, t, sends, limit, was, now, from, to, false, sent, d)
    requires |Main(a.log.replies)| > |Main(b.log.replies)| && Main(a.log.replies)[|Main(b.log.replies)|] == Complete226
    requires 0 <= b.restart <= |was| <= |now|
    ensures sent <= now[b.restart..|was|]
    ensures sent == now[b.restart..|was|]
            <==> forall i :: 0 <= i < |sends| && i * 65536 < |was| - b.restart ==>
                   sends[i].ret.Some? && sends[i].ret.value >= Min(65536, |was| - b.restart - i * 65536)
  {
    hide *;
    Answered226(b, a, t, sends, limit, was, now, from, to, sent, d);
    WithinSlice(b.restart, |was|, now, sends, d, sent);
    SentWholeIffFull(b.restart, |was|, now, sends, d, sent);
    FullIs(sends, |was| - b.restart);
  }

  /** The client has the file to its end if and only if, besides, it did not grow while RETR waited for
      its lock; or there was nothing to send. */
  lemma CompleteToTheEnd(b: Snapshot, a: Snapshot, t: Setup, sends: seq<Sending>, limit: nat, was: Bytes, now: Bytes,
                         from: real, to: real, sent: Bytes, d: Download)
    requires RetrDone(b, a, t, sends, limit, was, now, from, to, false, sent, d)
    requires |Main(a.log.replies)| > |Main(b.log.replies)| && Main(a.log.replies)[|Main(b.log.replies)|] == Complete226
    requires 0 <= b.restart <= |was| <= |now|
    ensures sent == now[b.restart..]
            <==> || b.restart == |now|
                 || (|was| == |now|
                     && forall i :: 0 <= i < |sends| && i * 65536 < |was| - b.restart ==>
                          sends[i].ret.Some? && sends[i].ret.value >= Min(65536, |was| - b.restart - i * 65536))
  {
    hide *;
    Answered226(b, a, t, sends, limit, was, now, from, to, sent, d);
    WithinSlice(b.restart, |was|, now, sends, d, sent);
    SentToTheEnd(b.restart, |was|, now, sends, d, sent);
    FullIs(sends, |was| - b.restart);
  }

  /** What rounds deliver is a prefix of the file from the offset on. */
  lemma {:induction false} DeliversFrom(v: Bytes, from: nat, count: nat, sends: seq<Sending>, k: nat)
    ensures Delivers(v, from, count, sends, k) <= v[Min(from, |v|)..]
  {
    hide Part, Wants, Round;
    if k > 0 {
      var before := Delivers(v, from, count, sends, k - 1);
      DeliversFrom(v, from, count, sends, k - 1);
      PartIs(v, from, count, sends, k - 1, |before|);
      var part := Part(v, from, count, sends, k - 1, |before|);
      if part != [] {
        assert before == v[from..from + |before|];
        CutJoin(v, from, from + |before|, from + |before| + |part|);
      }
    }
  }

  /** RETR writes nothing and sends a prefix of the file from its offset on, however it ends. */
  lemma SentFrom(b: Snapshot, a: Snapshot, t: Setup, sends: seq<Sending>, limit: nat, was: Bytes, now: Bytes,
                 from: real, to: real, exited: bool, sent: Bytes, d: Download)
    requires RetrDone(b, a, t, sends, limit, was, now, from, to, exited, sent, d)
    ensures (now == was || now == t.version) && sent <= now[Min(Max(b.restart, 0), |now|)..]
  {
    hide Short, Unanswered, RoundEnds, CanRead, GetsLock, WentOn, Unbroken, Broken, Delivers, Rounds, Arranged, Told, Replied,
      RefusedPoints, NoTransfer, Passed, RetrEnding, Until, RetrMoves, LocalRun, Slice;
    if d.Served? { DeliversFrom(now, Max(b.restart, 0), Total(b.restart, |was|), sends, d.rounds); }
  }

  /** RETR without SIGURGs and without an ABOR left noted: once served, 426 if and only if one of the
      sendfile calls that the size asks for failed, and otherwise 226. */
  lemma QuietRetr(b: Snapshot, a: Snapshot, t: Setup, sends: seq<Sending>, limit: nat, was: Bytes, now: Bytes,
                  from: real, to: real, sent: Bytes, d: Download)
    requires RetrDone(b, a, t, sends, limit, was, now, from, to, false, sent, d)
    requires b.log.signals == [] && !b.log.aborted
    ensures var count := if b.restart > |was| then 0 else |was| - b.restart;
            var failed := exists i :: 0 <= i < |sends| && i * 65536 < count && sends[i].ret.None?;
            d.Served? ==> a.log.replies == b.log.replies + [if failed then BrokenNetwork426 else Complete226]
    ensures d.Refused? ==> a.log.replies == b.log.replies + d.said
  {
    hide *;
    if d.Served? {
      QuietServed(b, a, t, sends, limit, was, now, from, to, sent, d);
      NeverNoted(b.log, d.open, Passed(sends, d.rounds) + 1);
      RoundsFail(b.log, d.open, sends, Total(b.restart, |was|), d.rounds, d.failed);
      TotalIs(b.restart, |was|);
      EndingIs(if d.failed then BrokenNetwork426 else Complete226, false, b.log.replies);
      assert b.log.replies + [if d.failed then BrokenNetwork426 else Complete226] + []
             == b.log.replies + [if d.failed then BrokenNetwork426 else Complete226];
    } else {
      QuietRefused(b, a, t, sends, limit, was, now, from, to, sent, d);
    }
  }

  lemma TotalIs(offset: int, size: nat)
    ensures Total(offset, size) == if offset > size then 0 else size - offset
  {
  }

  lemma QuietServed(b: Snapshot, a: Snapshot, t: Setup, sends: seq<Sending>, limit: nat, was: Bytes, now: Bytes,
                    from: real, to: real, sent: Bytes, d: Download)
    requires RetrDone(b, a, t, sends, limit, was, now, from, to, false, sent, d) && d.Served?
    requires b.log.signals == [] && !b.log.aborted
    ensures a.log.replies == b.log.replies + Ending(if d.failed then BrokenNetwork426 else Complete226, false)
    ensures WentOn(sends, d.rounds, d.failed) && (d.failed <==> Broken(b.log, d.open, sends, d.rounds))
    ensures if d.failed then d.rounds <= Rounds(Total(b.restart, |was|)) else d.rounds == Rounds(Total(b.restart, |was|))
  {
    hide Arranged, CanRead, Replied, Ending, Until, RetrMoves, Broken, Passed, Unbroken, WentOn, LocalRun, Delivers, Slice,
      Rounds, Noted, Told;
    var points := Passed(sends, d.rounds) + 1;
    NeverNoted(b.log, d.open, points);
    QuietSaid(b.log, a.log, RetrEnding(b.log, d.open, points, d.failed), d.open, points);
  }

  lemma QuietRefused(b: Snapshot, a: Snapshot, t: Setup, sends: seq<Sending>, limit: nat, was: Bytes, now: Bytes,
                     from: real, to: real, sent: Bytes, d: Download)
    requires RetrDone(b, a, t, sends, limit, was, now, from, to, false, sent, d) && d.Refused?
    requires b.log.signals == []
    ensures a.log.replies == b.log.replies + d.said
  {
    hide Arranged, CanRead, Told, Replied, GetsLock, NoTransfer, RefusedPoints;
    QuietSaid(b.log, a.log, d.said, d.open, if d.said == [CannotOpen550] then RefusedPoints(t) else 0);
  }

  lemma RoundsFail(b: Log, open: bool, sends: seq<Sending>, count: nat, k: nat, failed: bool)
    requires WentOn(sends, k, failed) && (failed <==> Broken(b, open, sends, k)) && !b.aborted && b.signals == []
    requires if failed then k <= Rounds(count) else k == Rounds(count)
    ensures failed <==> exists i :: 0 <= i < |sends| && i * 65536 < count && sends[i].ret.None?
  {
    NeverNoted(b, open, LOOP_POINTS + 2 * k);
    hide Noted;
    if failed {
      assert Round(sends, k - 1).ret.None? && k - 1 < |sends| && sends[k - 1].ret.None?;
      assert (k - 1) * 65536 < count;
    } else if exists i :: 0 <= i < |sends| && i * 65536 < count && sends[i].ret.None? {
      var i :| 0 <= i < |sends| && i * 65536 < count && sends[i].ret.None?;
      RoundsIs(count, i + 1);
      assert Round(sends, i).ret.None?;
    }
  }
}
