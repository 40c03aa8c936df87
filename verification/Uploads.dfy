/** STOR and APPE as their handler runs them: what is stored is what the client's connection yields,
    as fast as the limiter allows. */
module Uploads {
  import opened Base
  import opened Streams
  import opened FileMeaning
  import opened RateLimiter
  import opened Sessions
  import opened SharedFile
  import opened DataConnection
  import opened Handlers
  import opened Transfers

  datatype Got = GotInterrupted | GotError | GotData(data: Bytes)

  /** One round of the loop: select timing out, or what read returns, whether that had arrived before
      an ABOR shut the connection down, and how the file takes it. */
  datatype Receiving = Receiving(timing: Timing, stalled: bool, got: Got, queued: bool, writes: seq<Outcome>)

  const CLOSED := Receiving(INSTANT, false, GotData([]), false, [])

  function Arrives(receives: seq<Receiving>, i: nat): Receiving {
    if i < |receives| then receives[i] else CLOSED
  }

  // ---- what a plan yields ----

  /** What one read puts into the buffer. */
  function Piece(how: Receiving): Bytes {
    if how.got.GotData? then how.got.data[..Min(|how.got.data|, CHUNK)] else []
  }

  /** An error, or the end of the client's data. */
  predicate Ends(how: Receiving) {
    !how.got.GotInterrupted? && Piece(how) == []
  }

  function Taken(receives: seq<Receiving>, k: nat): Bytes {
    if k == 0 then [] else Taken(receives, k - 1) + Piece(Arrives(receives, k - 1))
  }

  /** The first round from `i` on that ends the data. */
  function EndFrom(receives: seq<Receiving>, i: nat): (k: nat)
    ensures k >= i && Ends(Arrives(receives, k)) && forall j :: i <= j < k ==> !Ends(Arrives(receives, j))
    decreases |receives| - i
  {
    if i >= |receives| || Ends(receives[i]) then i else EndFrom(receives, i + 1)
  }

  /** All the data the connection yields, up to its end or an error. */
  function Yield(receives: seq<Receiving>): Bytes {
    Taken(receives, EndFrom(receives, 0))
  }

  lemma {:induction false} TakenGrows(receives: seq<Receiving>, j: nat, k: nat)
    requires j <= k
    ensures Taken(receives, j) <= Taken(receives, k)
  {
    hide Piece;
    if j < k { TakenGrows(receives, j, k - 1); }
  }

  /** Rounds that did not end the data yield a prefix of it, and all of it if the next one ends it. */
  lemma YieldIs(receives: seq<Receiving>, k: nat)
    requires forall i :: 0 <= i < k ==> !Ends(Arrives(receives, i))
    ensures Taken(receives, k) <= Yield(receives)
    ensures Ends(Arrives(receives, k)) ==> Taken(receives, k) == Yield(receives)
  {
    hide Ends, Taken, Arrives;
    var n := EndFrom(receives, 0);
    assert k <= n;
    TakenGrows(receives, k, n);
  }

  lemma PieceWithin(receives: seq<Receiving>, k: nat)
    requires forall i :: 0 <= i < k ==> !Ends(Arrives(receives, i))
    ensures Taken(receives, k) + Piece(Arrives(receives, k)) <= Yield(receives)
  {
    if Ends(Arrives(receives, k)) {
      YieldIs(receives, k);
      assert Taken(receives, k) + [] == Taken(receives, k);
    } else {
      YieldIs(receives, k + 1);
    }
    hide Ends, Yield, Arrives;
  }

  /** The rounds before `k` went on to the next. */
  predicate ReadOn(receives: seq<Receiving>, k: nat) {
    forall i :: 0 <= i < k ==> !Ends(Arrives(receives, i)) && !Arrives(receives, i).stalled
  }

  /** Time spent since the last time point on rounds that brought nothing. */
  function Waited(receives: seq<Receiving>, k: nat): (w: real)
    ensures w >= 0.0
  {
    if k == 0 || Piece(Arrives(receives, k - 1)) != [] then 0.0
    else Waited(receives, k - 1) + Arrives(receives, k - 1).timing.wait
  }

  /** A round that brought a piece as the limiter sees it. */
  function MoveOf(how: Receiving, waited: real): Move {
    Move(waited + how.timing.wait + how.timing.took, |Piece(how)|, how.timing.over)
  }

  function StoreMoves(receives: seq<Receiving>, k: nat): seq<Move> {
    if k == 0 then []
    else
      var how := Arrives(receives, k - 1);
      StoreMoves(receives, k - 1) + (if Piece(how) == [] then [] else [MoveOf(how, Waited(receives, k - 1))])
  }

  lemma {:induction false} OneRound(receives: seq<Receiving>, k: nat)
    ensures var how := Arrives(receives, k);
            && Taken(receives, k + 1) == Taken(receives, k) + Piece(how)
            && StoreMoves(receives, k + 1)
               == StoreMoves(receives, k) + (if Piece(how) == [] then [] else [MoveOf(how, Waited(receives, k))])
            && Waited(receives, k + 1) == if Piece(how) == [] then Waited(receives, k) + how.timing.wait else 0.0
  {
    hide Piece, Arrives, MoveOf;
  }

  lemma {:induction false} MovesTaken(receives: seq<Receiving>, k: nat)
    ensures Carried(StoreMoves(receives, k)) == |Taken(receives, k)| && Forward(StoreMoves(receives, k))
    ensures |StoreMoves(receives, k)| <= k
  {
    hide *;
    if k == 0 {
      NothingStored(receives);
    } else {
      MovesTaken(receives, k - 1);
      OneRound(receives, k - 1);
      var how, ms := Arrives(receives, k - 1), StoreMoves(receives, k - 1);
      MoveForward(how, Waited(receives, k - 1));
      CarriedAppend(ms, MoveOf(how, Waited(receives, k - 1)));
      assert ms + [] == ms;
    }
  }

  lemma MoveForward(how: Receiving, w: real)
    requires w >= 0.0
    ensures MoveOf(how, w).delay >= 0.0 && MoveOf(how, w).over >= 0.0 && MoveOf(how, w).bytes == |Piece(how)|
  {
  }

  lemma {:induction false} NothingStored(receives: seq<Receiving>)
    ensures StoreMoves(receives, 0) == [] && Taken(receives, 0) == [] && Waited(receives, 0) == 0.0
    ensures Carried([]) == 0 && Forward([])
  {
  }

  // ---- the loop ----

  /** err_flag */
  datatype Flag = NoError | NetworkError | FileError

  lemma StoreHolds(job: Job, size: nat, v: Bytes, trace: seq<Act>, p: Proc, u: Upload, file: Bytes)
    requires Storing(job, size, v, trace, p, u, file)
    ensures u.received == u.data + p.buffer && (p.buffer == [] ==> u.data == u.received)
  {
    hide LocalRun;
    assert p.buffer == [] ==> u.data + p.buffer == u.data;
  }

  /** One chunk from the buffer to the file. */
  method StoreChunk(file: File, pos: nat, data: Bytes, plan: seq<Outcome>,
                    ghost job: Job, ghost size: nat, ghost v: Bytes, ghost trace0: seq<Act>, ghost p0: Proc, ghost u0: Upload)
    returns (stored: bool, ghost trace: seq<Act>, ghost p: Proc, ghost u: Upload)
    requires Storing(job, size, v, trace0, p0, u0, file.data)
    requires p0.buffer == [] && !p0.eof && p0.pos == pos && 0 < |data| <= CHUNK
    modifies file
    ensures Storing(job, size, v, trace, p, u, file.data)
    ensures u.received == u0.received + data && u0.received <= u.data && !u.eof
    ensures stored ==> p.buffer == [] && !p.eof && p.pos == pos + |data|
    ensures !stored ==> Failed in plan
  {
    StoreHolds(job, size, v, trace0, p0, u0, file.data);
    hide Storing;
    StoreReceives(job, size, v, trace0, p0, u0, file.data, data);
    ghost var received, holding := trace0 + [Recv(data)], p0.(buffer := data, eof := false);
    ghost var prior, record := file.data, Touch(u0, Recv(data));
    var ret;
    ghost var n;
    ret, n := WriteFile(file, pos, data, plan);
    StoreWrites(job, size, v, received, holding, record, prior, n);
    trace, p, u := received + [Write(data[..n])], holding.(buffer := data[n..], pos := pos + n), Touch(record, Write(data[..n]));
    stored := ret == |data|;
  }

  /** The handler after `k` rounds: where it stands, what it has received and stored. */
  ghost predicate StoredSoFar(job: Job, size: nat, v: Bytes, receives: seq<Receiving>, k: nat, trace: seq<Act>, p: Proc,
                              u: Upload, file: Bytes)
  {
    && Storing(job, size, v, trace, p, u, file) && p.buffer == [] && !p.eof && !u.eof
    && u.received == Taken(receives, k) == u.data
  }

  /** What the loop leaves when it ends in round `k`. */
  ghost predicate LoopEnded(job: Job, size: nat, v: Bytes, receives: seq<Receiving>, k: nat, trace: seq<Act>, p: Proc,
                            u: Upload, file: Bytes, flag: Flag)
  {
    && Storing(job, size, v, trace, p, u, file)
    && if flag.FileError?
       then u.received == Taken(receives, k) + Piece(Arrives(receives, k)) && Taken(receives, k) <= u.data
            && Failed in Arrives(receives, k).writes && Piece(Arrives(receives, k)) != []
       else u.received == Taken(receives, k) == u.data
            && (flag.NoError? ==> u.eof && Ends(Arrives(receives, k)) && !Arrives(receives, k).got.GotError?)
  }

  /** Round `i` of the loop, once something has been read: store it and wait. */
  method StoreRound(s: Session, file: File, pos: nat, how: Receiving, limit: nat, clock: Clock,
                    ghost receives: seq<Receiving>, ghost i: nat, ghost start: real, ghost job: Job, ghost size: nat, ghost v: Bytes,
                    ghost trace0: seq<Act>, ghost p0: Proc, ghost u0: Upload)
    returns (stored: bool, ghost trace: seq<Act>, ghost p: Proc, ghost u: Upload)
    requires StoredSoFar(job, size, v, receives, i, trace0, p0, u0, file.data) && p0.pos == pos
    requires how == Arrives(receives, i) && Piece(how) != []
    requires s.timePoint == Reading(Until(start, StoreMoves(receives, i), limit))
    requires clock.now == Until(start, StoreMoves(receives, i), limit) + Waited(receives, i) + Arrives(receives, i).timing.wait
    modifies s`timePoint, clock, file
    ensures stored ==>
              && StoredSoFar(job, size, v, receives, i + 1, trace, p, u, file.data)
              && p.pos == pos + |Piece(Arrives(receives, i))|
              && clock.now == Until(start, StoreMoves(receives, i + 1), limit) && s.timePoint == Reading(clock.now)
    ensures !stored ==> LoopEnded(job, size, v, receives, i, trace, p, u, file.data, FileError) && clock.now == old(clock.now)
  {
    hide Reading, Until, StoreMoves, Waited, Taken, Arrives, Metered, MoveOf, Sleeps, Effective, Between;
    var data := Piece(how);
    OneRound(receives, i);
    stored, trace, p, u := StoreChunk(file, pos, data, how.writes, job, size, v, trace0, p0, u0);
    if !stored { return; }
    StoreHolds(job, size, v, trace, p, u, file.data);
    hide Storing, StoredSoFar, LoopEnded, Piece;
    ghost var now, m := Until(start, StoreMoves(receives, i), limit), MoveOf(how, Waited(receives, i));
    UntilAppend(start, StoreMoves(receives, i), m, limit);
    MeteredParts(now, m, limit);
    MoveParts(how, Waited(receives, i));
    clock.Pass(how.timing.took);
    s.LimitTransmissionSpeed(|data|, limit, clock, how.timing);
  }

  lemma MoveParts(how: Receiving, w: real)
    ensures MoveOf(how, w) == Move(w + how.timing.wait + how.timing.took, |Piece(how)|, how.timing.over)
  {
  }

  lemma SoFarEnded(job: Job, size: nat, v: Bytes, receives: seq<Receiving>, k: nat, trace: seq<Act>, p: Proc, u: Upload,
                   file: Bytes)
    requires StoredSoFar(job, size, v, receives, k, trace, p, u, file)
    ensures LoopEnded(job, size, v, receives, k, trace, p, u, file, NetworkError)
  {
    hide Storing, Taken, Piece;
  }

  /** The end of the client's data. */
  lemma DataEnded(job: Job, size: nat, v: Bytes, receives: seq<Receiving>, k: nat, trace: seq<Act>, p: Proc, u: Upload,
                  file: Bytes) returns (t: seq<Act>, q: Proc, w: Upload)
    requires StoredSoFar(job, size, v, receives, k, trace, p, u, file)
    requires Arrives(receives, k).got.GotData? && Piece(Arrives(receives, k)) == []
    ensures LoopEnded(job, size, v, receives, k, t, q, w, file, NoError)
  {
    hide Storing, Taken, Piece, Arrives;
    q, w := StoreEnds(job, size, v, trace, p, u, file);
    t := trace + [Recv([])];
    StoreHolds(job, size, v, t, q, w, file);
  }

  lemma ReadOnAgain(receives: seq<Receiving>, k: nat)
    requires ReadOn(receives, k) && !Ends(Arrives(receives, k)) && !Arrives(receives, k).stalled
    ensures ReadOn(receives, k + 1)
  {
  }

  lemma SoFarSkips(job: Job, size: nat, v: Bytes, receives: seq<Receiving>, k: nat, trace: seq<Act>, p: Proc, u: Upload,
                   file: Bytes, start: real, limit: nat)
    requires StoredSoFar(job, size, v, receives, k, trace, p, u, file) && Piece(Arrives(receives, k)) == []
    ensures StoredSoFar(job, size, v, receives, k + 1, trace, p, u, file)
    ensures Until(start, StoreMoves(receives, k + 1), limit) == Until(start, StoreMoves(receives, k), limit)
    ensures |StoreMoves(receives, k + 1)| == |StoreMoves(receives, k)|
    ensures Waited(receives, k + 1) == Waited(receives, k) + Arrives(receives, k).timing.wait
  {
    hide Storing, Taken, Piece, Arrives, Until, StoreMoves, Waited, MoveOf;
    OneRound(receives, k);
    assert Taken(receives, k) + [] == Taken(receives, k);
    assert StoreMoves(receives, k) + [] == StoreMoves(receives, k);
  }

  // ---- ABOR ----

  /** A round once the connection is shut down: what has arrived can still be read, then the data ends. */
  function ShutDown(how: Receiving): Receiving {
    how.(stalled := false,
         got := if how.got.GotError? || (how.got.GotData? && how.queued) then how.got else GotData([]))
  }

  /** The plan with the connection shut down from round `j` on. */
  function Cut(receives: seq<Receiving>, j: nat): seq<Receiving> {
    seq(|receives|, i requires 0 <= i < |receives| => if i < j then receives[i] else ShutDown(receives[i]))
  }

  /** The points in the first `k` rounds: two in one that brings a piece, one in another. */
  function PointsIn(receives: seq<Receiving>, k: nat): nat {
    if k == 0 then 0 else PointsIn(receives, k - 1) + (if Piece(Arrives(receives, k - 1)) == [] then 1 else 2)
  }

  /** The read of round `i` comes after an ABOR. */
  predicate Shut(a: Log, open: bool, receives: seq<Receiving>, i: nat) {
    Noted(a, open, LOOP_POINTS + PointsIn(receives, i) + 1)
  }

  function FirstShut(a: Log, open: bool, receives: seq<Receiving>, i: nat): (j: nat)
    ensures j >= i && (j < |receives| ==> Shut(a, open, receives, j))
    ensures forall k :: i <= k < j ==> !Shut(a, open, receives, k)
    decreases |receives| - i
  {
    if i >= |receives| || Shut(a, open, receives, i) then i else FirstShut(a, open, receives, i + 1)
  }

  /** The rounds as the loop sees them. */
  function Reads(receives: seq<Receiving>, a: Log, open: bool): seq<Receiving> {
    Cut(receives, FirstShut(a, open, receives, 0))
  }

  lemma CutAt(receives: seq<Receiving>, j: nat, i: nat)
    ensures Arrives(Cut(receives, j), i) == if i < j then Arrives(receives, i) else ShutDown(Arrives(receives, i))
  {
  }

  lemma {:induction false} PointsGrow(receives: seq<Receiving>, i: nat, k: nat)
    requires i <= k
    ensures PointsIn(receives, i) + (k - i) <= PointsIn(receives, k)
  {
    hide Piece, Arrives;
    if i < k { PointsGrow(receives, i, k - 1); }
  }

  lemma {:induction false} PointsSame(x: seq<Receiving>, y: seq<Receiving>, k: nat)
    requires forall i :: 0 <= i < k ==> Arrives(x, i) == Arrives(y, i)
    ensures PointsIn(x, k) == PointsIn(y, k)
  {
    hide Piece, Arrives;
    if k > 0 { PointsSame(x, y, k - 1); }
  }

  lemma {:induction false} NotShutBefore(a: Log, open: bool, receives: seq<Receiving>, k: nat, i: nat)
    requires i < k && !Noted(a, open, LOOP_POINTS + PointsIn(receives, k))
    ensures !Shut(a, open, receives, i)
  {
    PointsGrow(receives, i, k);
    NotedStays(a, open, LOOP_POINTS + PointsIn(receives, i) + 1, LOOP_POINTS + PointsIn(receives, k));
    hide Noted, PointsIn;
  }

  /** A plan that has run out is not changed by a shutdown. */
  lemma RunOut(receives: seq<Receiving>, j: nat, i: nat)
    requires i < j || i >= |receives|
    ensures Arrives(Cut(receives, j), i) == Arrives(receives, i)
  {
    CutAt(receives, j, i);
  }

  /** Round `k`, when no ABOR was noted before it: as planned, or shut down by one that is noted now. */
  lemma {:induction false} ReadsAt(receives: seq<Receiving>, a: Log, open: bool, k: nat)
    requires k > 0 ==> !Noted(a, open, LOOP_POINTS + PointsIn(receives, k))
    ensures var (shut, how) := (Noted(a, open, LOOP_POINTS + PointsIn(receives, k) + 1), Arrives(receives, k));
            Arrives(Reads(receives, a, open), k)
            == if !shut then how
               else how.(stalled := false,
                         got := if how.got.GotError? || (how.got.GotData? && how.queued) then how.got else GotData([]))
    ensures PointsIn(Reads(receives, a, open), k) == PointsIn(receives, k)
  {
    hide Noted, PointsIn, Cut, Piece, Arrives;
    var shut := Shut(a, open, receives, k);
    ShutDownIs(Arrives(receives, k));
    hide ShutDown;
    var j := FirstShut(a, open, receives, 0);
    if j < k && j < |receives| { NotShutBefore(a, open, receives, k, j); }
    forall i | 0 <= i < k ensures Arrives(Cut(receives, j), i) == Arrives(receives, i) { RunOut(receives, j, i); }
    PointsSame(Cut(receives, j), receives, k);
    CutAt(receives, j, k);
    ClosedShut(receives, k);
  }

  lemma ShutDownIs(how: Receiving)
    ensures ShutDown(how)
            == how.(stalled := false,
                    got := if how.got.GotError? || (how.got.GotData? && how.queued) then how.got else GotData([]))
  {
  }

  lemma ClosedShut(receives: seq<Receiving>, k: nat)
    ensures k >= |receives| ==> ShutDown(Arrives(receives, k)) == Arrives(receives, k)
  {
  }

  /** After `k` rounds the loop breaks off: a chunk has been stored, and the check after it finds an
      ABOR noted (or left noted by an earlier command). */
  predicate BrokenOff(a: Log, open: bool, receives: seq<Receiving>, k: nat) {
    k > 0 && Piece(Arrives(receives, k - 1)) != [] && (a.aborted || Noted(a, open, LOOP_POINTS + PointsIn(receives, k)))
  }

  predicate KeptOn(a: Log, open: bool, receives: seq<Receiving>, k: nat) {
    forall i :: 0 <= i < k ==> !BrokenOff(a, open, receives, i)
  }

  /** The points passed once the loop has ended in round `k`. */
  function StorePassed(a: Log, open: bool, receives: seq<Receiving>, k: nat): nat {
    LOOP_POINTS + PointsIn(receives, k) + (if BrokenOff(a, open, receives, k) then 0 else 1)
  }

  /** While no ABOR has been noted the rounds are those of the plan. */
  lemma {:induction false} StillPlanned(receives: seq<Receiving>, a: Log, open: bool, k: nat)
    requires !Noted(a, open, LOOP_POINTS + PointsIn(Reads(receives, a, open), k))
    ensures PointsIn(Reads(receives, a, open), k) == PointsIn(receives, k)
  {
    hide Noted, PointsIn, Cut, Piece, Arrives, ShutDown;
    var rs, j := Reads(receives, a, open), FirstShut(a, open, receives, 0);
    if j < k && j < |receives| {
      forall i | 0 <= i < j ensures Arrives(rs, i) == Arrives(receives, i) { RunOut(receives, j, i); }
      PointsSame(rs, receives, j);
      NotShutBefore(a, open, rs, k, j);
    } else {
      forall i | 0 <= i < k ensures Arrives(rs, i) == Arrives(receives, i) { RunOut(receives, j, i); }
      PointsSame(rs, receives, k);
    }
  }

  lemma KeptOnAgain(a: Log, open: bool, receives: seq<Receiving>, k: nat)
    requires KeptOn(a, open, receives, k) && !BrokenOff(a, open, receives, k)
    ensures KeptOn(a, open, receives, k + 1)
  {
    hide BrokenOff;
  }

  /** The points of one more round, and the check at its end. */
  lemma {:induction false} RoundPoints(a: Log, open: bool, receives: seq<Receiving>, k: nat)
    ensures var brings := Piece(Arrives(receives, k)) != [];
            && PointsIn(receives, k + 1) == PointsIn(receives, k) + (if brings then 2 else 1)
            && (BrokenOff(a, open, receives, k + 1)
                <==> brings && (a.aborted || Noted(a, open, LOOP_POINTS + PointsIn(receives, k) + 2)))
    ensures StorePassed(a, open, receives, k)
            == LOOP_POINTS + PointsIn(receives, k) + (if BrokenOff(a, open, receives, k) then 0 else 1)
  {
    hide Piece, Arrives, Noted;
  }

  /** At the top of round `k`: the loop has not broken off, and no ABOR has been noted by a round. */
  predicate Planned(receives: seq<Receiving>, rs: seq<Receiving>, a: Log, open: bool, k: nat) {
    && rs == Reads(receives, a, open) && PointsIn(rs, k) == PointsIn(receives, k)
    && (k > 0 ==> !Noted(a, open, LOOP_POINTS + PointsIn(receives, k)))
    && KeptOn(a, open, rs, k) && !BrokenOff(a, open, rs, k)
  }

  lemma {:induction false} PlannedFirst(receives: seq<Receiving>, a: Log, open: bool)
    ensures Planned(receives, Reads(receives, a, open), a, open, 0) && PointsIn(Reads(receives, a, open), 0) == 0
  {
    hide Reads, Noted;
  }

  lemma {:induction false} PlannedEnds(receives: seq<Receiving>, rs: seq<Receiving>, a: Log, open: bool, k: nat)
    requires Planned(receives, rs, a, open, k)
    ensures KeptOn(a, open, rs, k) && !BrokenOff(a, open, rs, k)
    ensures StorePassed(a, open, rs, k) == LOOP_POINTS + PointsIn(rs, k) + 1
    ensures k >= |receives| ==> Arrives(rs, k) == CLOSED
  {
    RoundPoints(a, open, rs, k);
    CutAt(receives, FirstShut(a, open, receives, 0), k);
    hide Noted, PointsIn, BrokenOff, KeptOn, StorePassed, Cut;
  }

  lemma {:induction false} PlannedOn(receives: seq<Receiving>, rs: seq<Receiving>, a: Log, open: bool, k: nat)
    requires Planned(receives, rs, a, open, k)
    ensures var n := LOOP_POINTS + PointsIn(rs, k) + (if Piece(Arrives(rs, k)) == [] then 1 else 2);
            && PointsIn(rs, k + 1) + LOOP_POINTS == n && KeptOn(a, open, rs, k + 1)
            && (if Piece(Arrives(rs, k)) != [] && (a.aborted || Noted(a, open, n))
                then BrokenOff(a, open, rs, k + 1) && StorePassed(a, open, rs, k + 1) == n
                else if !Noted(a, open, n) then Planned(receives, rs, a, open, k + 1) else true)
  {
    hide Noted, PointsIn, Reads, Piece, Arrives, BrokenOff, StorePassed, KeptOn;
    RoundPoints(a, open, rs, k);
    RoundPoints(a, open, rs, k + 1);
    KeptOnAgain(a, open, rs, k);
    if !Noted(a, open, LOOP_POINTS + PointsIn(rs, k + 1)) { StillPlanned(receives, a, open, k + 1); }
  }

  lemma {:induction false} PlannedRead(receives: seq<Receiving>, rs: seq<Receiving>, a: Log, open: bool, k: nat)
    requires Planned(receives, rs, a, open, k)
    ensures Arrives(rs, k) == if Noted(a, open, LOOP_POINTS + PointsIn(rs, k) + 1) then ShutDown(Arrives(receives, k))
                              else Arrives(receives, k)
  {
    ReadsAt(receives, a, open, k);
    hide Noted, PointsIn, Reads, Arrives, KeptOn, BrokenOff;
  }

  /** SIGURGs before round `i`; `how` is how it then goes. */
  method Meet(s: Session, receives: seq<Receiving>, i: nat, ghost rs: seq<Receiving>,
              ghost before: Log, ghost said: seq<Reply>, ghost open: bool)
    returns (exited: bool, how: Receiving)
    requires Planned(receives, rs, before, open, i) && open == (s.dataFd != -1) && s.shut == (before.aborts < s.aborts)
    requires Told(before, s.View(), said, open, LOOP_POINTS + PointsIn(rs, i))
    modifies s`cmd, s`arg, s`receivedAbor, s`replies, s`aborts, s`others, s`signals, s`parsed, s`shut
    modifies s.control`plan, s.control`input
    ensures exited ==> Short(before, 0)
    ensures !exited ==>
              && how == Arrives(rs, i) && s.shut == (before.aborts < s.aborts)
              && Told(before, s.View(), said, open, LOOP_POINTS + PointsIn(rs, i) + 1)
              && (how.got.GotInterrupted? ==> !Noted(before, open, LOOP_POINTS + PointsIn(rs, i) + 1))
  {
    hide Told, Short, Noted, PointsIn, Arrives, Planned;
    PlannedRead(receives, rs, before, open, i);
    ghost var n := LOOP_POINTS + PointsIn(rs, i);
    how := Arrives(receives, i);
    exited := Signalled(s, before, said, open, n);
    if exited { return; }
    ToldMeans(before, s.View(), said, open, n + 1);
    if s.shut { how := ShutDown(how); }
  }

  /** Before a read: SIGURGs and select; `how` is what the read will then do. */
  method Await(s: Session, receives: seq<Receiving>, i: nat, clock: Clock, ghost rs: seq<Receiving>,
               ghost before: Log, ghost said: seq<Reply>, ghost open: bool)
    returns (exited: bool, how: Receiving)
    requires Planned(receives, rs, before, open, i) && open == (s.dataFd != -1) && s.shut == (before.aborts < s.aborts)
    requires Told(before, s.View(), said, open, LOOP_POINTS + PointsIn(rs, i))
    modifies s`cmd, s`arg, s`receivedAbor, s`replies, s`aborts, s`others, s`signals, s`parsed, s`shut
    modifies s.control`plan, s.control`input, clock
    ensures exited ==> Short(before, 0) || Arrives(rs, i).stalled
    ensures !exited ==>
              && how == Arrives(rs, i) && s.shut == (before.aborts < s.aborts)
              && Told(before, s.View(), said, open, LOOP_POINTS + PointsIn(rs, i) + 1)
              && !how.stalled && clock.now == old(clock.now) + how.timing.wait
              && (how.got.GotInterrupted? ==> !Noted(before, open, LOOP_POINTS + PointsIn(rs, i) + 1))
    ensures clock.now >= old(clock.now)
  {
    hide *;
    exited, how := Meet(s, receives, i, rs, before, said, open);
    if exited { return; }
    clock.Pass(how.timing.wait);
    if how.stalled {
      s.Say(DataTimeout421);
      exited := true;
    }
  }

  /** The point after a chunk, and the check for an ABOR. */
  method Check(s: Session, ghost before: Log, ghost said: seq<Reply>, ghost open: bool, ghost n: nat)
    returns (exited: bool, broken: bool)
    requires Told(before, s.View(), said, open, n) && open == (s.dataFd != -1) && s.shut == (before.aborts < s.aborts)
    modifies s`cmd, s`arg, s`receivedAbor, s`replies, s`aborts, s`others, s`signals, s`parsed, s`shut
    modifies s.control`plan, s.control`input
    ensures exited ==> Short(before, 0)
    ensures !exited ==> Told(before, s.View(), said, open, n + 1) && s.shut == (before.aborts < s.aborts)
    ensures !exited ==> broken == (before.aborted || Noted(before, open, n + 1))
  {
    hide Told, Short, Noted;
    broken := false;
    exited := Signalled(s, before, said, open, n);
    if exited { return; }
    ToldMeans(before, s.View(), said, open, n + 1);
    broken := s.receivedAbor;
  }

  /** A round that has read something: store it, wait, and look for an ABOR. */
  method TakeChunk(s: Session, file: File, pos: nat, how: Receiving, limit: nat, clock: Clock,
                   ghost receives: seq<Receiving>, ghost rs: seq<Receiving>, ghost i: nat, ghost start: real,
                   ghost job: Job, ghost size: nat, ghost v: Bytes, ghost trace0: seq<Act>, ghost p0: Proc, ghost u0: Upload,
                   ghost before: Log, ghost said: seq<Reply>, ghost open: bool)
    returns (exited: bool, stored: bool, broken: bool, ghost trace: seq<Act>, ghost p: Proc, ghost u: Upload)
    requires Planned(receives, rs, before, open, i) && open == (s.dataFd != -1) && s.shut == (before.aborts < s.aborts)
    requires Told(before, s.View(), said, open, LOOP_POINTS + PointsIn(rs, i) + 1)
    requires StoredSoFar(job, size, v, rs, i, trace0, p0, u0, file.data) && p0.pos == pos && ReadOn(rs, i)
    requires how == Arrives(rs, i) && Piece(how) != [] && !how.stalled
    requires s.timePoint == Reading(Until(start, StoreMoves(rs, i), limit))
    requires clock.now == Until(start, StoreMoves(rs, i), limit) + Waited(rs, i) + how.timing.wait
    modifies s`cmd, s`arg, s`receivedAbor, s`replies, s`aborts, s`others, s`signals, s`parsed, s`shut, s`timePoint
    modifies s.control`plan, s.control`input, clock, file
    ensures !stored ==>
              && !exited && LoopEnded(job, size, v, rs, i, trace, p, u, file.data, FileError) && clock.now == old(clock.now)
              && s.View() == old(s.View()) && s.shut == old(s.shut)
    ensures stored ==>
              && StoredSoFar(job, size, v, rs, i + 1, trace, p, u, file.data) && p.pos == pos + |Piece(how)|
              && LoopEnded(job, size, v, rs, i + 1, trace, p, u, file.data, NetworkError)
              && ReadOn(rs, i + 1) && KeptOn(before, open, rs, i + 1) && Waited(rs, i + 1) == 0.0
              && clock.now == Until(start, StoreMoves(rs, i + 1), limit) && s.timePoint == Reading(clock.now)
    ensures exited ==> Short(before, 0)
    ensures stored && !exited && broken ==>
              && BrokenOff(before, open, rs, i + 1) && s.shut == (before.aborts < s.aborts)
              && Told(before, s.View(), said, open, StorePassed(before, open, rs, i + 1))
    ensures stored && !exited && !broken ==>
              && Planned(receives, rs, before, open, i + 1) && s.shut == (before.aborts < s.aborts)
              && Told(before, s.View(), said, open, LOOP_POINTS + PointsIn(rs, i + 1))
  {
    hide StoredSoFar, LoopEnded, Told, Short, Reading, Until, StoreMoves, Waited, Taken, ReadOn, Arrives, MoveOf,
      Reads, Noted,
      PointsIn, BrokenOff, KeptOn, StorePassed, Planned, Piece;
    ghost var n := LOOP_POINTS + PointsIn(rs, i) + 1;
    exited, broken := false, false;
    PlannedOn(receives, rs, before, open, i);
    NotEnding(how);
    stored, trace, p, u := StoreRound(s, file, pos, how, limit, clock, rs, i, start, job, size, v, trace0, p0, u0);
    if !stored { return; }
    ReadOnAgain(rs, i);
    SoFarEnded(job, size, v, rs, i + 1, trace, p, u, file.data);
    WaitedNone(rs, i);
    exited, broken := Check(s, before, said, open, n);
  }

  lemma NotEnding(how: Receiving)
    requires Piece(how) != []
    ensures !Ends(how)
  {
  }

  lemma {:induction false} WaitedNone(receives: seq<Receiving>, k: nat)
    requires Piece(Arrives(receives, k)) != []
    ensures Waited(receives, k + 1) == 0.0
  {
    hide Piece, Arrives;
  }

  /** The chunk loop of upload_auxiliary. */
  method ReceiveLoop(s: Session, file: File, at: nat, receives: seq<Receiving>, limit: nat, clock: Clock,
                     ghost job: Job, ghost size: nat, ghost v: Bytes, ghost opening: seq<Act>, ghost began: Proc,
                     ghost blank: Upload, ghost rs: seq<Receiving>, ghost before: Log, ghost said: seq<Reply>, ghost open: bool)
    returns (exited: bool, flag: Flag, ghost trace: seq<Act>, ghost p: Proc, ghost u: Upload, ghost k: nat)
    requires s.timePoint == Reading(clock.now) && rs == Reads(receives, before, open)
    requires StoredSoFar(job, size, v, rs, 0, opening, began, blank, file.data) && began.pos == at
    requires Told(before, s.View(), said, open, LOOP_POINTS)
    requires open == (s.dataFd != -1) && s.shut == (before.aborts < s.aborts)
    modifies s`cmd, s`arg, s`receivedAbor, s`replies, s`aborts, s`others, s`signals, s`parsed, s`shut, s`timePoint
    modifies s.control`plan, s.control`input, clock, file
    ensures exited ==> Short(before, 0) || Arrives(rs, k).stalled
    ensures LoopEnded(job, size, v, rs, k, trace, p, u, file.data, if exited then NetworkError else flag)
    ensures ReadOn(rs, k) && KeptOn(before, open, rs, k)
    ensures !exited ==> Told(before, s.View(), said, open, StorePassed(before, open, rs, k))
                        && s.shut == (before.aborts < s.aborts)
    ensures !exited ==> (flag.NetworkError? <==> BrokenOff(before, open, rs, k) || Arrives(rs, k).got.GotError?)
    ensures clock.now >= Until(old(clock.now), StoreMoves(rs, k), limit)
  {
    hide StoredSoFar, LoopEnded, Told, Short, Reading, Until, StoreMoves, Waited, Taken, ReadOn, Arrives, MoveOf,
      Reads, Noted,
      PointsIn, BrokenOff, KeptOn, StorePassed, Planned, Piece;
    var pos, i := at, 0;
    exited, flag := false, NoError;
    trace, p, u, k := opening, began, blank, 0;
    ghost var start := clock.now;
    NoRounds(rs, start, limit);
    PlannedFirst(receives, before, open);
    while true
      invariant i == k && flag.NoError? && p.pos == pos
      invariant StoredSoFar(job, size, v, rs, k, trace, p, u, file.data)
      invariant clock.now == Until(start, StoreMoves(rs, k), limit) + Waited(rs, k)
      invariant s.timePoint == Reading(Until(start, StoreMoves(rs, k), limit))
      invariant ReadOn(rs, k) && Planned(receives, rs, before, open, k)
      invariant Told(before, s.View(), said, open, LOOP_POINTS + PointsIn(rs, k)) && s.shut == (before.aborts < s.aborts)
      decreases Max(|receives| - i, -1)
    {
      PlannedEnds(receives, rs, before, open, i);
      PlanEnds(rs, i);
      SoFarEnded(job, size, v, rs, i, trace, p, u, file.data);
      var how;
      exited, how := Await(s, receives, i, clock, rs, before, said, open);
      if exited { return; }
      if how.got.GotInterrupted? {
        ReadOnAgain(rs, i);
        PlannedOn(receives, rs, before, open, i);
        SoFarSkips(job, size, v, rs, i, trace, p, u, file.data, start, limit);
        i, k := i + 1, k + 1;
        continue;
      }
      if how.got.GotError? {
        flag := NetworkError;
        break;
      }
      if Piece(how) == [] {
        trace, p, u := DataEnded(job, size, v, rs, i, trace, p, u, file.data);
        break;
      }
      var stored, broken;
      exited, stored, broken, trace, p, u := TakeChunk(s, file, pos, how, limit, clock, receives, rs, i, start,
                                                       job, size, v, trace, p, u, before, said, open);
      if !stored {
        flag := FileError;
        break;
      }
      pos := pos + |Piece(how)|;
      i, k := i + 1, k + 1;
      if exited { return; }
      if broken {
        flag := NetworkError;
        break;
      }
    }
  }

  /** A plan that has run out ends the data. */
  lemma PlanEnds(receives: seq<Receiving>, i: nat)
    ensures !CLOSED.stalled && CLOSED.got == GotData([]) && Piece(CLOSED) == []
    ensures Ends(Arrives(receives, i)) <==> !Arrives(receives, i).got.GotInterrupted? && Piece(Arrives(receives, i)) == []
    ensures Arrives(receives, i).got.GotInterrupted? || Arrives(receives, i).got.GotError? ==> Piece(Arrives(receives, i)) == []
  {
  }

  lemma {:induction false} NoRounds(receives: seq<Receiving>, start: real, limit: nat)
    ensures Until(start, StoreMoves(receives, 0), limit) == start && Waited(receives, 0) == 0.0
    ensures StoreMoves(receives, 0) == [] && ReadOn(receives, 0)
  {
  }

  // ---- the whole of STOR and APPE ----

  /** What is left to tell once an upload has returned: the replies of a refusal, or what the loop did;
      and whether there was a data connection. */
  datatype Storage =
    | Declined(open: bool, said: seq<Reply>)
    | Stored(open: bool, trace: seq<Act>, proc: Proc, upload: Upload, rounds: nat, flag: Flag)

  /** Everything before the upload loop succeeds; lseek refuses a negative offset. */
  predicate CanWrite(t: Setup, append: bool, offset: int) {
    GetsLock(t) && t.seeks && (!append ==> offset > 0 || (offset == 0 && t.truncates))
  }

  /** The reply to an upload that cannot begin: 550 if fstat fails, else 553. */
  function Cannot(t: Setup): Reply {
    if t.opens && !t.stats then CannotOpen550 else CannotCreate553
  }

  /** The points passed by an upload that is refused its file. */
  function DeclinedPoints(t: Setup): nat {
    if !t.opens || !t.stats then 2 else 3
  }

  function UploadJob(append: bool, offset: int): Job {
    if append then Appe(offset) else Stor(offset)
  }

  /** The reply an upload ends with. */
  function Verdict(flag: Flag): Reply {
    match flag
    case NoError => Complete226
    case NetworkError => BrokenNetwork426
    case FileError => BrokenFile451
  }

  /** What an upload promises about the file: over the version present when the lock was granted, a
      run of the shared-file machine that applies the bytes received, which are what the client's
      connection yields. All received bytes are stored unless the file fails, and without any error
      all the connection yields. */
  ghost predicate Uploaded(job: Job, size: nat, v: Bytes, receives: seq<Receiving>, d: Storage, now: Bytes)
    requires d.Stored?
  {
    var u, next := d.upload, Arrives(receives, d.rounds);
    && LocalRun(AtLock(job, size), v, d.trace) == Moved(d.proc, now)
    && u.job == job && UploadAgrees(u) && now == Apply(v, u) && u.truncated == (job == Stor(0))
    && ReadOn(receives, d.rounds) && u.received <= Yield(receives)
    && match d.flag
       case NoError => u.eof && u.data == Yield(receives) && next.got.GotData? && Piece(next) == []
       case NetworkError => u.data == u.received == Taken(receives, d.rounds)
       case FileError => Taken(receives, d.rounds) <= u.data && Failed in next.writes
                         && u.received == Taken(receives, d.rounds) + Piece(next) && Piece(next) != []
  }

  lemma EndedMeans(job: Job, size: nat, v: Bytes, receives: seq<Receiving>, d: Storage, now: Bytes)
    requires d.Stored? && ReadOn(receives, d.rounds)
    requires LoopEnded(job, size, v, receives, d.rounds, d.trace, d.proc, d.upload, now, d.flag)
    requires !d.proc.phase.Locked?
    ensures Uploaded(job, size, v, receives, d, now)
  {
    YieldIs(receives, d.rounds);
    PieceWithin(receives, d.rounds);
    hide LocalRun, Yield, Taken, Arrives, Piece, Apply;
  }

  lemma Looped(job: Job, size: nat, v: Bytes, trace: seq<Act>, p: Proc, u: Upload, file: Bytes)
    requires Storing(job, size, v, trace, p, u, file)
    ensures !p.phase.Locked?
  {
    hide LocalRun, Uploading;
  }

  /** All that an upload promises, from the session before it to the session after it. */
  ghost predicate StoreDone(b: Snapshot, a: Snapshot, append: bool, t: Setup, receives: seq<Receiving>, limit: nat,
                            was: Bytes, now: Bytes, from: real, to: real, exited: bool, d: Storage)
  {
    var rs := Reads(receives, b.log, d.open);
    if exited then StoreExit(b, append, t, rs, |was|, now, d) && (d.Declined? ==> LeftOver(b, append, t, was, now))
    else
      && a.settings == b.settings.(activePort := false, activePasv := false)
      && if d.Declined? then StoreDeclined(b, a, append, t, was, now, d)
         else StoreServed(b, a, append, t, rs, limit, |was|, now, from, to, d)
  }

  /** The file as an upload may leave it that ends the process before its loop. */
  predicate LeftOver(b: Snapshot, append: bool, t: Setup, was: Bytes, now: Bytes) {
    now == was || now == t.version || (!append && b.restart == 0 && now == [])
  }

  /** The process ends only if the control connection runs short, the nobody process does not
      answer, or select ends the round that comes next; what was received by then is stored. */
  ghost predicate StoreExit(b: Snapshot, append: bool, t: Setup, rs: seq<Receiving>, size: nat, now: Bytes, d: Storage) {
    && (Short(b.log, 0) || Unanswered(b, t) || (d.Stored? && Arrives(rs, d.rounds).stalled))
    && (d.Stored? ==> CanWrite(t, append, b.restart) && Uploaded(UploadJob(append, b.restart), size, t.version, rs, d, now)
                      && KeptOn(b.log, d.open, rs, d.rounds))
  }

  /** A declined upload leaves the file as it was, or as it was when locked, or truncated. */
  ghost predicate StoreDeclined(b: Snapshot, a: Snapshot, append: bool, t: Setup, was: Bytes, now: Bytes, d: Storage)
    requires d.Declined?
  {
    if d.said == [Cannot(t)]
    then Told(b.log, a.log, d.said, d.open, DeclinedPoints(t)) && Arranged(b, a.pic, t, true, d.open)
         && !CanWrite(t, append, b.restart)
         && a.restart == (if GetsLock(t) then 0 else b.restart)
         && now == (if !GetsLock(t) then was else if !append && b.restart == 0 && t.truncates then [] else t.version)
    else d.said == NoTransfer(b.settings) && Told(b.log, a.log, d.said, d.open, 0) && Arranged(b, a.pic, t, false, d.open)
         && a.restart == b.restart && now == was
  }

  /** A served upload over the rounds `rs`, whose replies are fixed by them: 426 if and only if the loop
      broke off or a read failed, and at the end a 226 if and only if an ABOR was noted (or left noted). */
  ghost predicate StoreServed(b: Snapshot, a: Snapshot, append: bool, t: Setup, rs: seq<Receiving>, limit: nat,
                              size: nat, now: Bytes, from: real, to: real, d: Storage)
    requires d.Stored?
  {
    var points := StorePassed(b.log, d.open, rs, d.rounds) + 1;
    && Arranged(b, a.pic, t, true, d.open) && CanWrite(t, append, b.restart) && a.restart == 0
    && Uploaded(UploadJob(append, b.restart), size, t.version, rs, d, now)
    && KeptOn(b.log, d.open, rs, d.rounds)
    && (d.flag.NetworkError? <==> BrokenOff(b.log, d.open, rs, d.rounds) || Arrives(rs, d.rounds).got.GotError?)
    && Replied(b.log, a.log, StoreReplies(b, d.open, size, points, d.flag), d.open, points)
    && to >= Until(from + t.blocked, StoreMoves(rs, d.rounds), limit)
  }

  function StoreReplies(b: Snapshot, open: bool, size: nat, points: nat, flag: Flag): seq<Reply> {
    [Opening150(b.settings.asciiMode, size)] + Ending(Verdict(flag), b.log.aborted || Noted(b.log, open, points))
  }

  /** open and fstat. */
  method OpenToWrite(s: Session, file: File, t: Setup, ghost before: Log, ghost open: bool)
    returns (exited: bool, refused: bool, size: nat)
    requires |s.portAddr| == 16 && s.control != s.pic && open == (s.dataFd != -1)
    requires Told(before, s.View(), [], open, 0) && s.shut == (before.aborts < s.aborts)
    modifies s`cmd, s`arg, s`receivedAbor, s`replies, s`aborts, s`others, s`signals, s`parsed, s`shut
    modifies s`dataFd, s`activePasv, s`activePort, s.control`plan, s.control`input
    ensures exited ==> Short(before, 0)
    ensures !exited ==> (refused <==> !t.opens || !t.stats)
    ensures !exited && refused ==>
              Ready(s) && Told(before, s.View(), [if t.opens then CannotOpen550 else CannotCreate553], open, 2)
    ensures !exited && !refused ==> Told(before, s.View(), [], open, 1) && size == |file.data|
                                    && s.dataFd == old(s.dataFd) && s.shut == (before.aborts < s.aborts)
                                    && s.activePort == old(s.activePort) && s.activePasv == old(s.activePasv)
  {
    hide Told, Short;
    refused, size := true, 0;
    exited := Signalled(s, before, [], open, 0);
    if exited { return; }
    if !t.opens {
      exited := Refuse(s, CannotCreate553, before, open, 1);
      return;
    }
    size := |file.data|;
    if !t.stats {
      exited := Refuse(s, CannotOpen550, before, open, 1);
      return;
    }
    refused := false;
  }

  /** open, fstat and the write lock. */
  method LockToWrite(s: Session, file: File, t: Setup, ghost before: Log, ghost open: bool)
    returns (exited: bool, refused: bool, size: nat)
    requires |s.portAddr| == 16 && s.control != s.pic && open == (s.dataFd != -1)
    requires Told(before, s.View(), [], open, 0) && s.shut == (before.aborts < s.aborts)
    modifies file
    modifies s`cmd, s`arg, s`receivedAbor, s`replies, s`aborts, s`others, s`signals, s`parsed, s`shut
    modifies s`dataFd, s`activePasv, s`activePort, s.control`plan, s.control`input
    ensures exited ==> Short(before, 0) && (file.data == old(file.data) || file.data == t.version)
    ensures !exited ==> (refused <==> !GetsLock(t))
    ensures !exited ==> file.data == if GetsLock(t) then t.version else old(file.data)
    ensures !exited && refused ==> Ready(s) && Told(before, s.View(), [Cannot(t)], open, DeclinedPoints(t))
    ensures !exited && !refused ==> Told(before, s.View(), [], open, 2) && size == |old(file.data)|
                                    && s.dataFd == old(s.dataFd) && s.shut == (before.aborts < s.aborts)
                                    && s.activePort == old(s.activePort) && s.activePasv == old(s.activePasv)
  {
    hide Told, Short, Granted;
    exited, refused, size := OpenToWrite(s, file, t, before, open);
    if exited || refused { return; }
    var ret := LockFile(file, t.lock, t.version);
    exited := Signalled(s, before, [], open, 1);
    if exited { return; }
    if ret == -1 {
      exited := Refuse(s, CannotCreate553, before, open, 2);
      refused := true;
    }
  }

  /** ftruncate and lseek. */
  method Seek(file: File, t: Setup, append: bool, offset: int) returns (positioned: bool)
    modifies file
    ensures positioned == (t.seeks && (!append ==> offset > 0 || (offset == 0 && t.truncates)))
    ensures file.data == if !append && offset == 0 && t.truncates then [] else old(file.data)
  {
    positioned := t.seeks;
    if !append && offset == 0 {
      if t.truncates { file.data := []; }
      positioned := t.truncates && t.seeks;
    } else if !append {
      positioned := t.seeks && offset > 0;  // lseek refuses a negative offset
    }
  }

  lemma CannotSeek(t: Setup)
    requires GetsLock(t)
    ensures Cannot(t) == CannotCreate553 && DeclinedPoints(t) == 3
  {
    hide Granted;
  }

  /** Truncating or seeking, and the 150 reply. */
  method Position(s: Session, file: File, t: Setup, append: bool, size: nat, ghost before: Log, ghost open: bool)
    returns (exited: bool, refused: bool, offset: int)
    requires |s.portAddr| == 16 && s.control != s.pic && GetsLock(t) && file.data == t.version
    requires Told(before, s.View(), [], open, 2) && open == (s.dataFd != -1) && s.shut == (before.aborts < s.aborts)
    modifies s`restartPosition, file
    modifies s`cmd, s`arg, s`receivedAbor, s`replies, s`aborts, s`others, s`signals, s`parsed, s`shut
    modifies s`dataFd, s`activePasv, s`activePort, s.control`plan, s.control`input
    ensures exited ==> Short(before, 0)
    ensures !exited ==> (refused <==> !CanWrite(t, append, old(s.restartPosition))) && s.restartPosition == 0
    ensures file.data == if !append && old(s.restartPosition) == 0 && t.truncates then [] else t.version
    ensures !exited && refused ==> Ready(s) && Told(before, s.View(), [Cannot(t)], open, DeclinedPoints(t))
    ensures !exited && !refused ==> Told(before, s.View(), [Opening150(s.asciiMode, size)], open, LOOP_POINTS)
                                    && offset == old(s.restartPosition)
                                    && s.dataFd == old(s.dataFd) && s.shut == (before.aborts < s.aborts)
                                    && s.activePort == old(s.activePort) && s.activePasv == old(s.activePasv)
  {
    hide Told, Short, GetsLock;
    refused := true;
    offset, s.restartPosition := s.restartPosition, 0;
    var positioned := Seek(file, t, append, offset);
    CannotSeek(t);
    if !positioned {
      exited := Refuse(s, CannotCreate553, before, open, 2);
      return;
    }
    exited := Signalled(s, before, [], open, 2);
    if exited { return; }
    Tell(s, Opening150(s.asciiMode, size), before, [], open, 3);
    assert [] + [Opening150(s.asciiMode, size)] == [Opening150(s.asciiMode, size)];
    refused := false;
  }

  /** Everything before the loop. */
  method BeginStore(s: Session, file: File, append: bool, t: Setup)
    returns (exited: bool, refused: bool, offset: int, ghost open: bool, ghost said: seq<Reply>)
    requires AtHead(s)
    modifies s`restartPosition, s.pic, file
    modifies s`cmd, s`arg, s`receivedAbor, s`replies, s`aborts, s`others, s`signals, s`parsed, s`shut
    modifies s`dataFd, s`activePasv, s`activePort, s.control`plan, s.control`input
    ensures exited ==> Short(old(s.View()), 0) || Unanswered(old(s.Now()), t)
    ensures exited ==> LeftOver(old(s.Now()), append, t, old(file.data), file.data)
    ensures !exited && refused ==>
              Ready(s) && StoreDeclined(old(s.Now()), s.Now(), append, t, old(file.data), file.data, Declined(open, said))
    ensures !exited && !refused ==>
              && Told(old(s.View()), s.View(), [Opening150(s.asciiMode, |old(file.data)|)], open, LOOP_POINTS)
              && open == (s.dataFd != -1) && s.shut == (old(s.aborts) < s.aborts)
              && Arranged(old(s.Now()), s.Now().pic, t, true, open)
              && CanWrite(t, append, old(s.restartPosition)) && s.restartPosition == 0 && offset == old(s.restartPosition)
              && file.data == if !append && offset == 0 then [] else t.version
  {
    hide Told, Short, Arranged, Unanswered, GetsLock, NoTransfer, StoreDeclined, Cannot, DeclinedPoints;
    ghost var b, was := s.Now(), file.data;
    offset := 0;
    var size;
    exited, refused, said := Establish(s, t);
    open := s.dataFd != -1;
    if exited { return; }
    if refused {
      DeclinedByNobody(b, s.Now(), append, t, was, said);
      return;
    }
    exited, refused, size := LockToWrite(s, file, t, b.log, open);
    if exited { return; }
    said := [Cannot(t)];
    if refused {
      DeclinedByFile(b, s.Now(), append, t, was, file.data, open);
      return;
    }
    exited, refused, offset := Position(s, file, t, append, size, b.log, open);
    if exited { return; }
    if refused { DeclinedByFile(b, s.Now(), append, t, was, file.data, open); }
  }

  lemma DeclinedByNobody(b: Snapshot, a: Snapshot, append: bool, t: Setup, was: Bytes, said: seq<Reply>)
    requires Told(b.log, a.log, said, false, 0) && Arranged(b, a.pic, t, false, false) && a.restart == b.restart
    requires said == NoTransfer(b.settings)
    ensures StoreDeclined(b, a, append, t, was, was, Declined(false, said))
  {
    NoTransferIs(b.settings);
    hide Told, Arranged, NoTransfer;
  }

  lemma DeclinedByFile(b: Snapshot, a: Snapshot, append: bool, t: Setup, was: Bytes, now: Bytes, open: bool)
    requires Told(b.log, a.log, [Cannot(t)], open, DeclinedPoints(t)) && Arranged(b, a.pic, t, true, open)
    requires !CanWrite(t, append, b.restart)
    requires a.restart == (if GetsLock(t) then 0 else b.restart)
    requires now == (if !GetsLock(t) then was else if !append && b.restart == 0 && t.truncates then [] else t.version)
    ensures StoreDeclined(b, a, append, t, was, now, Declined(open, [Cannot(t)]))
  {
    hide Told, Arranged, GetsLock, Cannot, DeclinedPoints;
  }

  lemma SoFarBegins(job: Job, size: nat, v: Bytes, receives: seq<Receiving>)
    requires job.Uploads() && (job.Stor? ==> job.offset >= 0)
    ensures StoredSoFar(job, size, v, receives, 0, Opening(job), Positioned(job, size, v), Blank(job),
                        if job == Stor(0) then [] else v)
    ensures Positioned(job, size, v).pos == if job.Stor? then job.offset else |v|
  {
    StoreBegins(job, size, v);
    hide Storing;
  }

  /** The time point and the loop. */
  method ReceiveAll(s: Session, file: File, job: Job, receives: seq<Receiving>, limit: nat, clock: Clock,
                    ghost size: nat, ghost v: Bytes, ghost rs: seq<Receiving>, ghost before: Log, ghost said: seq<Reply>,
                    ghost open: bool)
    returns (exited: bool, flag: Flag, ghost d: Storage)
    requires job.Uploads() && (job.Stor? ==> job.offset >= 0)
    requires file.data == (if job == Stor(0) then [] else v) && rs == Reads(receives, before, open)
    requires Told(before, s.View(), said, open, LOOP_POINTS)
    requires open == (s.dataFd != -1) && s.shut == (before.aborts < s.aborts)
    modifies s`cmd, s`arg, s`receivedAbor, s`replies, s`aborts, s`others, s`signals, s`parsed, s`shut, s`timePoint
    modifies s.control`plan, s.control`input, clock, file
    ensures d.Stored? && d.open == open && (exited ==> Short(before, 0) || Arrives(rs, d.rounds).stalled)
    ensures Uploaded(job, size, v, rs, d, file.data) && KeptOn(before, open, rs, d.rounds)
    ensures !exited ==>
              && d.flag == flag && Told(before, s.View(), said, open, StorePassed(before, open, rs, d.rounds))
              && s.shut == (before.aborts < s.aborts)
              && (flag.NetworkError? <==> BrokenOff(before, open, rs, d.rounds) || Arrives(rs, d.rounds).got.GotError?)
    ensures clock.now >= Until(old(clock.now), StoreMoves(rs, d.rounds), limit)
  {
    hide Told, Short, StoredSoFar, LoopEnded, Reading, Uploaded, Until, StoreMoves, ReadOn, Arrives, Storing, Opening,
      Positioned, Blank, Reads, BrokenOff, KeptOn, StorePassed;
    s.InitTransferStartTimePoint(clock);
    SoFarBegins(job, size, v, rs);
    var at := if job.Stor? then job.offset else |file.data|;
    ghost var trace, p, u, k;
    exited, flag, trace, p, u, k := ReceiveLoop(s, file, at, receives, limit, clock, job, size, v, Opening(job),
                                                Positioned(job, size, v), Blank(job), rs, before, said, open);
    d := Stored(open, trace, p, u, k, if exited then NetworkError else flag);
    EndedLooped(job, size, v, rs, k, trace, p, u, file.data, d.flag);
    EndedMeans(job, size, v, rs, d, file.data);
  }

  lemma EndedLooped(job: Job, size: nat, v: Bytes, receives: seq<Receiving>, k: nat, trace: seq<Act>, p: Proc,
                    u: Upload, file: Bytes, flag: Flag)
    requires LoopEnded(job, size, v, receives, k, trace, p, u, file, flag)
    ensures !p.phase.Locked?
  {
    hide Storing, Taken, Piece, Arrives;
    Looped(job, size, v, trace, p, u, file);
  }

  /** The loop and what follows it. */
  method ReceiveFile(s: Session, file: File, job: Job, receives: seq<Receiving>, limit: nat, clock: Clock,
                     ghost size: nat, ghost v: Bytes, ghost rs: seq<Receiving>, ghost b: Snapshot, ghost open: bool)
    returns (exited: bool, ghost d: Storage)
    requires |s.portAddr| == 16 && s.control != s.pic
    requires Told(b.log, s.View(), [Opening150(b.settings.asciiMode, size)], open, LOOP_POINTS)
    requires open == (s.dataFd != -1) && s.shut == (b.log.aborts < s.aborts)
    requires job.Uploads() && (job.Stor? ==> job.offset >= 0)
    requires file.data == (if job == Stor(0) then [] else v) && rs == Reads(receives, b.log, open)
    modifies s`timePoint, clock, file
    modifies s`cmd, s`arg, s`receivedAbor, s`replies, s`aborts, s`others, s`signals, s`parsed, s`shut
    modifies s`dataFd, s`activePasv, s`activePort, s.control`plan, s.control`input
    ensures d.Stored? && d.open == open && (exited ==> Short(b.log, 0) || Arrives(rs, d.rounds).stalled)
    ensures Uploaded(job, size, v, rs, d, file.data) && KeptOn(b.log, open, rs, d.rounds)
    ensures !exited ==>
              var points := StorePassed(b.log, open, rs, d.rounds) + 1;
              && Ready(s) && Replied(b.log, s.View(), StoreReplies(b, open, size, points, d.flag), open, points)
              && (d.flag.NetworkError? <==> BrokenOff(b.log, open, rs, d.rounds) || Arrives(rs, d.rounds).got.GotError?)
    ensures clock.now >= Until(old(clock.now), StoreMoves(rs, d.rounds), limit)
  {
    hide Told, Short, Replied, Uploaded, Until, StoreMoves, Arrives, Ending, Verdict, Reads, BrokenOff, KeptOn,
      StorePassed,
      Noted;
    ghost var said := [Opening150(b.settings.asciiMode, size)];
    var flag;
    exited, flag, d := ReceiveAll(s, file, job, receives, limit, clock, size, v, rs, b.log, said, open);
    if exited { return; }
    assert !Verdict(flag).UrgentUnknown500? by { VerdictIs(flag); }
    exited := Finish(s, Verdict(flag), b.log, said, open, StorePassed(b.log, open, rs, d.rounds));
  }

  lemma VerdictIs(flag: Flag)
    ensures !Verdict(flag).UrgentUnknown500? && (Verdict(flag) == Complete226 <==> flag.NoError?)
  {
  }

  lemma UploadExits(b: Snapshot, a: Snapshot, append: bool, t: Setup, receives: seq<Receiving>, limit: nat, was: Bytes,
                    now: Bytes, from: real, to: real, d: Storage)
    requires Short(b.log, 0) || Unanswered(b, t) || (d.Stored? && Arrives(Reads(receives, b.log, d.open), d.rounds).stalled)
    requires var rs := Reads(receives, b.log, d.open);
             if d.Stored? then CanWrite(t, append, b.restart) && KeptOn(b.log, d.open, rs, d.rounds)
                               && Uploaded(UploadJob(append, b.restart), |was|, t.version, rs, d, now)
             else LeftOver(b, append, t, was, now)
    ensures StoreDone(b, a, append, t, receives, limit, was, now, from, to, true, d)
  {
    hide Reads, Short, Unanswered, Arrives, CanWrite, KeptOn, Uploaded, UploadJob;
  }

  lemma UploadNot(b: Snapshot, a: Snapshot, append: bool, t: Setup, receives: seq<Receiving>, limit: nat, was: Bytes,
                  now: Bytes, from: real, to: real, d: Storage)
    requires a.settings == b.settings.(activePort := false, activePasv := false)
    requires d.Declined? && StoreDeclined(b, a, append, t, was, now, d)
    ensures StoreDone(b, a, append, t, receives, limit, was, now, from, to, false, d)
  {
    hide StoreDeclined, Reads;
  }

  /** Once the way is clear (`m` the session then), what the loop and its end leave is what an upload promises. */
  lemma UploadIs(b: Snapshot, m: Snapshot, a: Snapshot, append: bool, t: Setup, receives: seq<Receiving>, limit: nat,
                 was: Bytes, now: Bytes, from: real, to: real, d: Storage, rs: seq<Receiving>)
    requires d.Stored? && Arranged(b, m.pic, t, true, d.open) && rs == Reads(receives, b.log, d.open)
    requires CanWrite(t, append, b.restart) && m.restart == 0 && a.pic == m.pic && a.restart == 0
    requires a.settings == b.settings.(activePort := false, activePasv := false)
    requires Uploaded(UploadJob(append, b.restart), |was|, t.version, rs, d, now) && KeptOn(b.log, d.open, rs, d.rounds)
    requires var points := StorePassed(b.log, d.open, rs, d.rounds) + 1;
             Replied(b.log, a.log, StoreReplies(b, d.open, |was|, points, d.flag), d.open, points)
    requires d.flag.NetworkError? <==> BrokenOff(b.log, d.open, rs, d.rounds) || Arrives(rs, d.rounds).got.GotError?
    requires to >= Until(from + t.blocked, StoreMoves(rs, d.rounds), limit)
    ensures StoreDone(b, a, append, t, receives, limit, was, now, from, to, false, d)
  {
    hide Arranged, CanWrite, Uploaded, Replied, StoreReplies, Arrives, Until, StoreMoves, UploadJob, Reads,
      BrokenOff, KeptOn,
      StorePassed;
  }

  lemma UploadEnds(b: Snapshot, m: Snapshot, a: Snapshot, append: bool, t: Setup, receives: seq<Receiving>, limit: nat,
                   was: Bytes, now: Bytes, from: real, to: real, exited: bool, d: Storage, rs: seq<Receiving>)
    requires d.Stored? && Arranged(b, m.pic, t, true, d.open) && rs == Reads(receives, b.log, d.open)
    requires CanWrite(t, append, b.restart) && m.restart == 0 && a.pic == m.pic && a.restart == 0
    requires Uploaded(UploadJob(append, b.restart), |was|, t.version, rs, d, now) && KeptOn(b.log, d.open, rs, d.rounds)
    requires exited ==> Short(b.log, 0) || Arrives(rs, d.rounds).stalled
    requires !exited ==>
               var points := StorePassed(b.log, d.open, rs, d.rounds) + 1;
               && a.settings == b.settings.(activePort := false, activePasv := false)
               && Replied(b.log, a.log, StoreReplies(b, d.open, |was|, points, d.flag), d.open, points)
               && (d.flag.NetworkError? <==> BrokenOff(b.log, d.open, rs, d.rounds) || Arrives(rs, d.rounds).got.GotError?)
    requires to >= Until(from + t.blocked, StoreMoves(rs, d.rounds), limit)
    ensures StoreDone(b, a, append, t, receives, limit, was, now, from, to, exited, d)
  {
    hide *;
    if exited {
      UploadExits(b, a, append, t, receives, limit, was, now, from, to, d);
    } else {
      UploadIs(b, m, a, append, t, receives, limit, was, now, from, to, d, rs);
    }
  }

  lemma JobIs(t: Setup, append: bool, offset: int)
    requires CanWrite(t, append, offset)
    ensures var job := UploadJob(append, offset);
            job.Uploads() && (job.Stor? ==> job.offset >= 0) && (job == Stor(0) <==> !append && offset == 0)
  {
    hide GetsLock;
  }

  /** An upload once the file is open, locked and positioned and the 150 is out. */
  method ServeStore(s: Session, file: File, append: bool, offset: int, t: Setup, receives: seq<Receiving>, limit: nat,
                    clock: Clock, ghost b: Snapshot, ghost m: Snapshot, ghost was: Bytes, ghost open: bool,
                    ghost from: real)
    returns (exited: bool, ghost d: Storage)
    requires |s.portAddr| == 16 && s.control != s.pic && m == s.Now() && clock.now == from + t.blocked
    requires Told(b.log, s.View(), [Opening150(b.settings.asciiMode, |was|)], open, LOOP_POINTS)
    requires open == (s.dataFd != -1) && s.shut == (b.log.aborts < s.aborts)
    requires m.settings.(activePort := false, activePasv := false) == b.settings.(activePort := false, activePasv := false)
    requires Arranged(b, m.pic, t, true, open)
    requires CanWrite(t, append, b.restart) && m.restart == 0 && offset == b.restart
    requires file.data == if !append && offset == 0 then [] else t.version
    modifies s`timePoint, clock, file
    modifies s`cmd, s`arg, s`receivedAbor, s`replies, s`aborts, s`others, s`signals, s`parsed, s`shut
    modifies s`dataFd, s`activePasv, s`activePort, s.control`plan, s.control`input
    ensures StoreDone(b, s.Now(), append, t, receives, limit, was, file.data, from, clock.now, exited, d)
    ensures !exited ==> Ready(s)
  {
    hide Told, Short, Replied, Uploaded, Arranged, Unanswered, Arrives, Until, StoreMoves, GetsLock, StoreReplies,
      StoreDone,
      Reads, BrokenOff, KeptOn, StorePassed, CanWrite, UploadJob;
    JobIs(t, append, offset);
    ghost var rs := Reads(receives, b.log, open);
    var job := UploadJob(append, offset);
    exited, d := ReceiveFile(s, file, job, receives, limit, clock, |was|, t.version, rs, b, open);
    ghost var a := s.Now();
    assert a.pic == m.pic && a.restart == 0;
    assert !exited ==> a.settings == m.settings.(activePort := false, activePasv := false);
    UploadEnds(b, m, a, append, t, receives, limit, was, file.data, from, clock.now, exited, d, rs);
  }

  /** upload_auxiliary: handle_stor with `append` false, handle_appe with it true. */
  method UploadAuxiliary(s: Session, file: File, append: bool, t: Setup, receives: seq<Receiving>, limit: nat, clock: Clock)
    returns (exited: bool, ghost d: Storage)
    requires AtHead(s)
    modifies s`timePoint, s`restartPosition, s.pic, file, clock
    modifies s`cmd, s`arg, s`receivedAbor, s`replies, s`aborts, s`others, s`signals, s`parsed, s`shut
    modifies s`dataFd, s`activePasv, s`activePort, s.control`plan, s.control`input
    ensures StoreDone(old(s.Now()), s.Now(), append, t, receives, limit, old(file.data), file.data, old(clock.now),
                      clock.now, exited, d)
    ensures !exited ==> Ready(s)
  {
    hide Told, Short, Replied, Uploaded, Arranged, Unanswered, Arrives, Until, StoreMoves, GetsLock, NoTransfer,
      StoreDeclined, StoreDone, CanWrite, Reads;
    ghost var b, was, from := s.Now(), file.data, clock.now;
    d := Declined(false, []);
    var refused, offset;
    ghost var open, said;
    exited, refused, offset, open, said := BeginStore(s, file, append, t);
    if exited {
      UploadExits(b, s.Now(), append, t, receives, limit, was, file.data, from, clock.now, d);
      return;
    }
    if refused {
      d := Declined(open, said);
      UploadNot(b, s.Now(), append, t, receives, limit, was, file.data, from, clock.now, d);
      return;
    }
    clock.Pass(t.blocked);
    exited, d := ServeStore(s, file, append, offset, t, receives, limit, clock, b, s.Now(), was, open, from);
  }

  /** What a loop without an error means: the file is all the data the connection yielded (STOR at 0), the
      version locked followed by that (APPE), or that version overwritten with it from the offset. */
  lemma NoErrorMeansStored(job: Job, size: nat, v: Bytes, receives: seq<Receiving>, d: Storage, now: Bytes)
    requires d.Stored? && Uploaded(job, size, v, receives, d, now) && job.Uploads() && Verdict(d.flag) == Complete226
    ensures now == match job
                   case Stor(offset) => if offset == 0 then Yield(receives) else WriteAt(v, Max(offset, 0), Yield(receives))
                   case Appe(_) => v + Yield(receives)
                   case Retr(_) => []
  {
    VerdictIs(d.flag);
    WriteAtEnds(v, d.upload.data);
    hide LocalRun, Yield, Taken, Arrives, ReadOn, Verdict, WriteAt;
  }

  lemma ServedParts(b: Snapshot, a: Snapshot, append: bool, t: Setup, receives: seq<Receiving>, limit: nat, size: nat,
                    now: Bytes, from: real, to: real, d: Storage)
    requires d.Stored? && StoreServed(b, a, append, t, receives, limit, size, now, from, to, d)
    ensures to >= Until(from + t.blocked, StoreMoves(receives, d.rounds), limit)
  {
    hide Arranged, Replied, Uploaded, CanWrite, Until, Arrives, StoreMoves, KeptOn, BrokenOff, StorePassed;
  }

  /** The upload speed limit, in the time that passed from the loop's start to the reply: over all
      that was received, but for the piece a failing file did not take. */
  lemma UploadSpeed(b: Snapshot, a: Snapshot, append: bool, t: Setup, receives: seq<Receiving>, limit: nat, size: nat,
                    now: Bytes, from: real, to: real, d: Storage)
    requires d.Stored? && StoreServed(b, a, append, t, receives, limit, size, now, from, to, d)
    requires limit > 0 && AllFit(from + t.blocked, StoreMoves(receives, d.rounds), limit)
    ensures var ms := StoreMoves(receives, d.rounds);
            && |ms| <= d.rounds && Clamps(from + t.blocked, ms, limit) <= |ms|
            && |Taken(receives, d.rounds)| as real
               <= (to - (from + t.blocked) + 0.000001 + 0.01 * Clamps(from + t.blocked, ms, limit) as real
                   + 0.000001001 * |ms| as real) * (limit + 1) as real
  {
    hide *;
    ServedParts(b, a, append, t, receives, limit, size, now, from, to, d);
    MovesTaken(receives, d.rounds);
    MovesSpeed(from + t.blocked, to, StoreMoves(receives, d.rounds), limit, |Taken(receives, d.rounds)|);
  }

  /** In rounds that take 17 microseconds or more each that is, but for a microsecond a round, the limit and one
      byte per second. */
  lemma SlowUpload(b: Snapshot, a: Snapshot, append: bool, t: Setup, receives: seq<Receiving>, limit: nat, size: nat,
                   now: Bytes, from: real, to: real, d: Storage)
    requires d.Stored? && StoreServed(b, a, append, t, receives, limit, size, now, from, to, d)
    requires limit > 0 && forall how :: how in receives ==> how.timing.wait + how.timing.took >= 0.000017
    ensures |Taken(receives, d.rounds)| as real
            <= (to - (from + t.blocked) + 0.000001 + 0.000001001 * d.rounds as real) * (limit + 1) as real
  {
    hide *;
    var ms := StoreMoves(receives, d.rounds);
    SlowReceives(receives, d.rounds);
    SlowMoves(from + t.blocked, ms, limit);
    UploadSpeed(b, a, append, t, receives, limit, size, now, from, to, d);
    var time, less, more := to - (from + t.blocked) + 0.000001, 0.000001001 * |ms| as real, 0.000001001 * d.rounds as real;
    assert 0.01 * 0 as real == 0.0 && less <= more;
    Widen(|Taken(receives, d.rounds)| as real, time + less, time + more, (limit + 1) as real);
  }

  lemma {:induction false} SlowReceives(receives: seq<Receiving>, k: nat)
    requires forall how :: how in receives ==> how.timing.wait + how.timing.took >= 0.000017
    ensures forall m :: m in StoreMoves(receives, k) ==> m.delay >= 0.000017 && m.bytes <= 65536 && m.over >= 0.0
  {
    hide *;
    if k == 0 {
      NothingStored(receives);
    } else {
      SlowReceives(receives, k - 1);
      OneRound(receives, k - 1);
      var how := Arrives(receives, k - 1);
      PieceFits(receives, k - 1);
      MoveForward(how, Waited(receives, k - 1));
      MoveParts(how, Waited(receives, k - 1));
    }
  }

  lemma PieceFits(receives: seq<Receiving>, k: nat)
    ensures |Piece(Arrives(receives, k))| <= 65536 && (Piece(Arrives(receives, k)) != [] ==> Arrives(receives, k) in receives)
  {
  }

  // ---- what an ABOR does to an upload ----

  /** An ABOR left noted by an earlier command lets one chunk through. */
  lemma {:induction false} OneChunkOnly(a: Log, open: bool, rs: seq<Receiving>, k: nat)
    requires a.aborted && KeptOn(a, open, rs, k)
    ensures |StoreMoves(rs, k)| <= 1
  {
    hide *;
    if k == 0 {
      NothingStored(rs);
    } else {
      NoPieces(a, open, rs, k - 1);
      OneRound(rs, k - 1);
    }
  }

  lemma {:induction false} NoPieces(a: Log, open: bool, rs: seq<Receiving>, k: nat)
    requires a.aborted && KeptOn(a, open, rs, k + 1)
    ensures StoreMoves(rs, k) == []
  {
    hide StoreMoves, Piece, Arrives, Noted, MoveOf;
    if k == 0 {
      NothingStored(rs);
    } else {
      NoPieces(a, open, rs, k - 1);
      OneRound(rs, k - 1);
      assert !BrokenOff(a, open, rs, k);
      assert StoreMoves(rs, k - 1) + [] == [];
    }
  }

  /** An upload during which an ABOR is noted answers 150, 426 and 226 if and only if a read failed or
      the check after the last chunk found the ABOR; otherwise 150, 226 and 226, or 451 for a failing file. */
  lemma AborAnswer(b: Snapshot, a: Snapshot, append: bool, t: Setup, rs: seq<Receiving>, limit: nat, size: nat, now: Bytes,
                   from: real, to: real, d: Storage)
    requires d.Stored? && StoreServed(b, a, append, t, rs, limit, size, now, from, to, d)
    requires Noted(b.log, d.open, StorePassed(b.log, d.open, rs, d.rounds) + 1)
    ensures Main(a.log.replies)
            == Main(b.log.replies) + [Opening150(b.settings.asciiMode, size), Verdict(d.flag), Aborted226]
    ensures Verdict(d.flag) == BrokenNetwork426
            <==> || Arrives(rs, d.rounds).got.GotError?
                 || (d.rounds > 0 && Piece(Arrives(rs, d.rounds - 1)) != []
                     && (b.log.aborted || Noted(b.log, d.open, LOOP_POINTS + PointsIn(rs, d.rounds))))
    ensures Verdict(d.flag) in {Complete226, BrokenNetwork426, BrokenFile451}
  {
    hide Arranged, CanWrite, Uploaded, Noted, StorePassed, PointsIn, KeptOn, Until, StoreMoves, Arrives, Replied,
      Main, Verdict;
    var opening, points := Opening150(b.settings.asciiMode, size), StorePassed(b.log, d.open, rs, d.rounds) + 1;
    RepliesAre(b.log, a.log, StoreReplies(b, d.open, size, points, d.flag), d.open, points);
    assert [opening] + [Verdict(d.flag), Aborted226] == [opening, Verdict(d.flag), Aborted226];
    VerdictBy(d.flag);
  }

  /** An ABOR that arrives before a read and finds nothing queued looks like the end of the client's
      data: the upload counts as complete with what has come, 226 and not 426. */
  lemma AborUnseen(b: Snapshot, a: Snapshot, append: bool, t: Setup, receives: seq<Receiving>, limit: nat, size: nat, now: Bytes,
                   from: real, to: real, d: Storage)
    requires d.Stored? && StoreServed(b, a, append, t, Reads(receives, b.log, d.open), limit, size, now, from, to, d)
    requires Shut(b.log, d.open, receives, d.rounds) && !BrokenOff(b.log, d.open, Reads(receives, b.log, d.open), d.rounds)
    requires d.rounds > 0 ==> !Noted(b.log, d.open, LOOP_POINTS + PointsIn(receives, d.rounds))
    requires var how := Arrives(receives, d.rounds); !how.queued && !how.got.GotError?
    ensures d.flag == NoError && d.upload.data == Taken(Reads(receives, b.log, d.open), d.rounds)
    ensures Main(a.log.replies)
            == Main(b.log.replies) + [Opening150(b.settings.asciiMode, size), Complete226, Aborted226]
  {
    hide *;
    var rs, k := Reads(receives, b.log, d.open), d.rounds;
    ReadsAt(receives, b.log, d.open, k);
    ShutDownIs(Arrives(receives, k));
    ShutIs(b.log, d.open, receives, k);
    StoppedNoted(receives, b.log, d.open, k);
    AborAnswer(b, a, append, t, rs, limit, size, now, from, to, d);
    ServedQuietly(b, a, append, t, rs, limit, size, now, from, to, d, Arrives(receives, k));
  }

  lemma ShutIs(a: Log, open: bool, receives: seq<Receiving>, i: nat)
    ensures Shut(a, open, receives, i) <==> Noted(a, open, LOOP_POINTS + PointsIn(receives, i) + 1)
  {
    hide Noted, PointsIn;
  }

  lemma {:induction false} StoppedNoted(receives: seq<Receiving>, a: Log, open: bool, k: nat)
    requires Shut(a, open, receives, k) && PointsIn(Reads(receives, a, open), k) == PointsIn(receives, k)
    ensures Noted(a, open, StorePassed(a, open, Reads(receives, a, open), k) + 1)
  {
    hide Noted, PointsIn, Reads, StorePassed, BrokenOff;
    var rs := Reads(receives, a, open);
    RoundPoints(a, open, rs, k);
    NotedStays(a, open, LOOP_POINTS + PointsIn(rs, k) + 1, StorePassed(a, open, rs, k) + 1);
  }

  lemma {:induction false} ServedQuietly(b: Snapshot, a: Snapshot, append: bool, t: Setup, rs: seq<Receiving>, limit: nat,
                                         size: nat, now: Bytes, from: real, to: real, d: Storage, how: Receiving)
    requires d.Stored? && StoreServed(b, a, append, t, rs, limit, size, now, from, to, d)
    requires Arrives(rs, d.rounds) == ShutDown(how) && !how.queued && !how.got.GotError?
    requires !BrokenOff(b.log, d.open, rs, d.rounds)
    ensures d.flag == NoError && Verdict(d.flag) == Complete226 && d.upload.data == Taken(rs, d.rounds)
  {
    YieldIs(rs, d.rounds);
    assert Piece(ShutDown(how)) == [] && Ends(ShutDown(how));
    hide Arranged, CanWrite, Replied, StorePassed, BrokenOff, KeptOn, Until, StoreMoves, Arrives, LocalRun, Taken,
      Yield, Apply;
  }

  lemma {:induction false} FourthPoint(a: Log)
    requires a.signals == [0, 0, 0, 1] && a.input == ABOR_LINE && !a.fails
    ensures Noted(a, true, 4) && !Short(a, 0)
  {
    var u := UrgentOf(a);
    AborLine(u.last, u.aborts, u.others, []);
    hide TakeLine, LinesLeft;
    assert u.signals[1..] == [0, 0, 1] && u.signals[1..][1..] == [0, 1] && u.signals[1..][1..][1..] == [1];
    assert Points(u, true, 1) == u.(signals := [0, 0, 1]);
    assert Points(u, true, 2) == u.(signals := [0, 1]);
    assert Points(u, true, 3) == u.(signals := [1]);
    assert Points(u, true, 4) == TakeLines(u.(signals := []), 1) == TakeLine(TakeLines(u.(signals := []), 0));
    assert Arriving([1]) == 1 && Arriving([0, 1]) == 1 && Arriving([0, 0, 1]) == 1;
  }

  lemma NotReadOn(receives: seq<Receiving>, k: nat)
    requires k > 0 && Ends(Arrives(receives, 0))
    ensures !ReadOn(receives, k)
  {
    hide Ends, Arrives;
  }

  /** The first round, after such a point. */
  lemma {:induction false} FirstRead(receives: seq<Receiving>, a: Log, k: nat)
    requires Noted(a, true, 4) && (receives == [] || (!receives[0].queued && !receives[0].got.GotError?))
    requires ReadOn(Reads(receives, a, true), k)
    ensures k == 0 && Shut(a, true, receives, 0)
    ensures !Arrives(Reads(receives, a, true), 0).stalled && Ends(Arrives(Reads(receives, a, true), 0))
    ensures !Arrives(receives, 0).queued && !Arrives(receives, 0).got.GotError?
  {
    ReadsAt(receives, a, true, 0);
    var rs, how := Reads(receives, a, true), Arrives(receives, 0);
    assert PointsIn(receives, 0) == 0;
    assert Piece(ShutDown(how)) == [] && Ends(ShutDown(how));
    hide Reads, Noted, ReadOn;
    if k > 0 { NotReadOn(rs, k); }
  }

  lemma FirstRoundUnbroken(a: Log, open: bool, rs: seq<Receiving>)
    ensures !BrokenOff(a, open, rs, 0)
  {
  }

  lemma JobKind(append: bool, offset: int)
    ensures UploadJob(append, offset) == if append then Appe(offset) else Stor(offset)
    ensures UploadJob(append, offset).Uploads()
  {
  }

  lemma NothingWritten(v: Bytes, at: nat)
    ensures WriteAt(v, at, []) == v && v + [] == v
  {
  }

  lemma StoredOver(b: Snapshot, a: Snapshot, append: bool, t: Setup, receives: seq<Receiving>, limit: nat, was: Bytes,
                   now: Bytes, from: real, to: real, exited: bool, d: Storage)
    requires d.Stored? && StoreDone(b, a, append, t, receives, limit, was, now, from, to, exited, d)
    ensures var rs := Reads(receives, b.log, d.open);
            && Uploaded(UploadJob(append, b.restart), |was|, t.version, rs, d, now) && ReadOn(rs, d.rounds)
            && (exited ==> Short(b.log, 0) || Unanswered(b, t) || Arrives(rs, d.rounds).stalled)
            && (!exited ==> StoreServed(b, a, append, t, rs, limit, |was|, now, from, to, d))
  {
    hide Arranged, CanWrite, Replied, BrokenOff, KeptOn, StorePassed, Until, StoreMoves, Arrives, LocalRun, Taken,
      Yield, Apply,
      Short, Unanswered, ReadOn, Reads, StoreReplies;
  }

  /** The smallest case: one SIGURG before the first read, the line "ABOR" on the control connection,
      and a client of which nothing has arrived, whatever it is about to send. The upload is cut off and
      answered 150, 226 and 226. */
  lemma AborWitness(b: Snapshot, a: Snapshot, append: bool, t: Setup, receives: seq<Receiving>, limit: nat, was: Bytes,
                    now: Bytes, from: real, to: real, exited: bool, d: Storage)
    requires d.Stored? && d.open && StoreDone(b, a, append, t, receives, limit, was, now, from, to, exited, d)
    requires b.log.signals == [0, 0, 0, 1] && b.log.input == ABOR_LINE && !b.log.aborted && !b.log.fails
    requires receives == [] || (!receives[0].queued && !receives[0].got.GotError?)
    requires !Unanswered(b, t)
    ensures !exited && now == (if UploadJob(append, b.restart) == Stor(0) then [] else t.version)
    ensures Main(a.log.replies)
            == Main(b.log.replies) + [Opening150(b.settings.asciiMode, |was|), Complete226, Aborted226]
  {
    hide *;
    var rs, job := Reads(receives, b.log, d.open), UploadJob(append, b.restart);
    FourthPoint(b.log);
    StoredOver(b, a, append, t, receives, limit, was, now, from, to, exited, d);
    FirstRead(receives, b.log, d.rounds);
    FirstRoundUnbroken(b.log, d.open, rs);
    AborUnseen(b, a, append, t, receives, limit, |was|, now, from, to, d);
    VerdictIs(d.flag);
    assert job.Uploads() by { JobKind(append, b.restart); }
    NoErrorMeansStored(job, |was|, t.version, rs, d, now);
    NothingStored(rs);
    YieldIs(rs, 0);
    NothingWritten(t.version, Max(job.offset, 0));
    JobKind(append, b.restart);
  }

  // ---- what the client is answered, and what that means ----

  lemma StoredReplies(b: Snapshot, a: Snapshot, append: bool, t: Setup, rs: seq<Receiving>, limit: nat, size: nat, now: Bytes,
                      from: real, to: real, d: Storage)
    requires d.Stored? && StoreServed(b, a, append, t, rs, limit, size, now, from, to, d)
    ensures Main(a.log.replies)
            == Main(b.log.replies) + StoreReplies(b, d.open, size, StorePassed(b.log, d.open, rs, d.rounds) + 1, d.flag)
    ensures Uploaded(UploadJob(append, b.restart), size, t.version, rs, d, now) && KeptOn(b.log, d.open, rs, d.rounds)
    ensures d.flag.NetworkError? <==> BrokenOff(b.log, d.open, rs, d.rounds) || Arrives(rs, d.rounds).got.GotError?
    ensures CanWrite(t, append, b.restart)
  {
    hide Arranged, CanWrite, Uploaded, Replied, StoreReplies, Until, StoreMoves, BrokenOff, KeptOn, StorePassed, Arrives, Main;
    var points := StorePassed(b.log, d.open, rs, d.rounds) + 1;
    RepliesAre(b.log, a.log, StoreReplies(b, d.open, size, points, d.flag), d.open, points);
  }

  /** How a loop ends, by what its last read brought. */
  lemma {:induction false} FlagBy(b: Log, job: Job, size: nat, v: Bytes, rs: seq<Receiving>, d: Storage, now: Bytes)
    requires d.Stored? && Uploaded(job, size, v, rs, d, now)
    requires d.flag.NetworkError? <==> BrokenOff(b, d.open, rs, d.rounds) || Arrives(rs, d.rounds).got.GotError?
    ensures var last := Arrives(rs, d.rounds).got;
            if BrokenOff(b, d.open, rs, d.rounds) || last.GotError? then d.flag == NetworkError
            else last.GotData? && (if last.data == [] then d.flag == NoError else d.flag == FileError)
    ensures d.flag.FileError? ==> Failed in Arrives(rs, d.rounds).writes
  {
    PieceIs(Arrives(rs, d.rounds));
    hide LocalRun, Taken, Yield, Arrives, BrokenOff, Apply, ReadOn, Piece;
  }

  lemma PieceIs(how: Receiving)
    ensures how.got.GotData? ==> (Piece(how) == [] <==> how.got.data == [])
    ensures !how.got.GotData? ==> Piece(how) == []
  {
    if how.got.GotData? && how.got.data != [] { assert Piece(how)[0] == how.got.data[0]; }
  }

  lemma EndingIs(opening: Reply, done: Reply, aborted: bool, rs: seq<Reply>)
    ensures rs + ([opening] + Ending(done, aborted)) == rs + [opening, done] + (if aborted then [Aborted226] else [])
  {
  }

  /** The replies of a served upload: 150; 426 if its loop broke off after a chunk or a read failed, 226 at the
      end of the data, and 451 for data the file did not take; and a 226 more for an ABOR. */
  lemma UploadReplies(b: Snapshot, a: Snapshot, append: bool, t: Setup, rs: seq<Receiving>, limit: nat, size: nat, now: Bytes,
                      from: real, to: real, d: Storage)
    requires d.Stored? && StoreServed(b, a, append, t, rs, limit, size, now, from, to, d)
    ensures var last := Arrives(rs, d.rounds);
            var done := if BrokenOff(b.log, d.open, rs, d.rounds) || last.got.GotError? then BrokenNetwork426
                        else if last.got == GotData([]) then Complete226 else BrokenFile451;
            && Main(a.log.replies)
               == Main(b.log.replies) + [Opening150(b.settings.asciiMode, size), done]
                  + (if b.log.aborted || Noted(b.log, d.open, StorePassed(b.log, d.open, rs, d.rounds) + 1) then [Aborted226]
                     else [])
            && (done == BrokenFile451 ==> last.got.GotData? && Failed in last.writes)
  {
    StoredReplies(b, a, append, t, rs, limit, size, now, from, to, d);
    FlagBy(b.log, UploadJob(append, b.restart), size, t.version, rs, d, now);
    EndingIs(Opening150(b.settings.asciiMode, size), Verdict(d.flag),
             b.log.aborted || Noted(b.log, d.open, StorePassed(b.log, d.open, rs, d.rounds) + 1), Main(b.log.replies));
    hide Uploaded, StoreServed, Noted, StorePassed, BrokenOff, KeptOn, Arrives, Main, Ending, CanWrite;
  }

  /** Rounds in which no ABOR is noted are those of the plan. */
  lemma {:induction false} QuietReads(receives: seq<Receiving>, b: Log, open: bool, k: nat)
    requires !b.aborted && !Noted(b, open, StorePassed(b, open, Reads(receives, b, open), k) + 1)
    requires ReadOn(Reads(receives, b, open), k)
    ensures Arrives(Reads(receives, b, open), k) == Arrives(receives, k) && !BrokenOff(b, open, Reads(receives, b, open), k)
    ensures forall i :: 0 <= i < k ==> Arrives(Reads(receives, b, open), i) == Arrives(receives, i)
  {
    hide Noted, PointsIn, Arrives, ReadOn;
    var rs := Reads(receives, b, open);
    var n := StorePassed(b, open, rs, k) + 1;
    RoundPoints(b, open, rs, k);
    NotedStays(b, open, LOOP_POINTS + PointsIn(rs, k), n);
    NotedStays(b, open, LOOP_POINTS + PointsIn(rs, k) + 1, n);
    hide Reads, StorePassed, BrokenOff;
    QuietPoints(receives, b, open, k);
    ReadsAt(receives, b, open, k);
    forall i | 0 <= i < k ensures Arrives(rs, i) == Arrives(receives, i) {
      QuietEarlier(receives, b, open, i, k);
    }
  }

  lemma {:induction false} QuietPoints(receives: seq<Receiving>, b: Log, open: bool, k: nat)
    requires !Noted(b, open, LOOP_POINTS + PointsIn(Reads(receives, b, open), k))
    ensures PointsIn(Reads(receives, b, open), k) == PointsIn(receives, k)
  {
    StillPlanned(receives, b, open, k);
  }

  lemma {:induction false} QuietEarlier(receives: seq<Receiving>, b: Log, open: bool, i: nat, k: nat)
    requires i < k && !Noted(b, open, LOOP_POINTS + PointsIn(receives, k))
    ensures Arrives(Reads(receives, b, open), i) == Arrives(receives, i)
  {
    hide Noted, PointsIn, Reads, Arrives;
    NotShutBefore(b, open, receives, k, i);
    PointsGrow(receives, i, k);
    NotedStays(b, open, LOOP_POINTS + PointsIn(receives, i), LOOP_POINTS + PointsIn(receives, k));
    ReadsAt(receives, b, open, i);
  }

  /** Without an ABOR a served upload says 150 and then 226, 426 or 451, as its last read found the end of the
      data, failed, or brought data that the file did not take; all reads before brought data or were
      interrupted. */
  lemma StoreAnswer(b: Snapshot, a: Snapshot, append: bool, t: Setup, receives: seq<Receiving>, limit: nat, size: nat, now: Bytes,
                    from: real, to: real, d: Storage)
    requires d.Stored? && StoreServed(b, a, append, t, Reads(receives, b.log, d.open), limit, size, now, from, to, d)
    requires !b.log.aborted
    requires !Noted(b.log, d.open, StorePassed(b.log, d.open, Reads(receives, b.log, d.open), d.rounds) + 1)
    ensures var (k, said) := (d.rounds, Main(a.log.replies));
            && (said == Main(b.log.replies) + [Opening150(b.settings.asciiMode, size), Complete226]
                <==> k >= |receives| || receives[k].got == GotData([]))
            && (said == Main(b.log.replies) + [Opening150(b.settings.asciiMode, size), BrokenNetwork426]
                <==> k < |receives| && receives[k].got.GotError?)
            && (said == Main(b.log.replies) + [Opening150(b.settings.asciiMode, size), BrokenFile451]
                <==> k < |receives| && receives[k].got.GotData? && receives[k].got.data != [])
            && (k < |receives| && receives[k].got.GotData? && receives[k].got.data != [] ==> Failed in receives[k].writes)
    ensures d.rounds <= |receives|
    ensures forall i :: 0 <= i < d.rounds ==>
              receives[i].got.GotInterrupted? || (receives[i].got.GotData? && receives[i].got.data != [])
  {
    hide Noted, StorePassed, BrokenOff, StoreServed, Uploaded, Reads, Main;
    var rs := Reads(receives, b.log, d.open);
    StoredReplies(b, a, append, t, rs, limit, size, now, from, to, d);
    UploadReplies(b, a, append, t, rs, limit, size, now, from, to, d);
    FlagBy(b.log, UploadJob(append, b.restart), size, t.version, rs, d, now);
    UploadedReads(UploadJob(append, b.restart), size, t.version, rs, d, now);
    QuietReads(receives, b.log, d.open, d.rounds);
    EarlierReads(receives, rs, d.rounds);
    var last := Arrives(receives, d.rounds);
    var done := if last.got.GotError? then BrokenNetwork426 else if last.got == GotData([]) then Complete226 else BrokenFile451;
    TwoReplies(Main(b.log.replies), Main(a.log.replies), Opening150(b.settings.asciiMode, size), done);
    hide ReadOn, KeptOn, StoreReplies;
  }

  lemma UploadedReads(job: Job, size: nat, v: Bytes, rs: seq<Receiving>, d: Storage, now: Bytes)
    requires d.Stored? && Uploaded(job, size, v, rs, d, now)
    ensures ReadOn(rs, d.rounds)
  {
    hide LocalRun, Taken, Yield, Arrives, Apply, ReadOn, Piece;
  }

  lemma WentOnBy(rs: seq<Receiving>, k: nat, i: nat)
    requires ReadOn(rs, k) && i < k
    ensures var got := Arrives(rs, i).got; got.GotInterrupted? || (got.GotData? && got.data != [])
  {
    PieceIs(Arrives(rs, i));
    assert !Ends(Arrives(rs, i));
    hide Arrives, Piece;
  }

  lemma EarlierReads(receives: seq<Receiving>, rs: seq<Receiving>, k: nat)
    requires ReadOn(rs, k) && forall i :: 0 <= i < k ==> Arrives(rs, i) == Arrives(receives, i)
    ensures k <= |receives|
    ensures forall i :: 0 <= i < k ==>
              receives[i].got.GotInterrupted? || (receives[i].got.GotData? && receives[i].got.data != [])
  {
    if k > |receives| { WentOnBy(rs, k, |receives|); }
    forall i | 0 <= i < Min(k, |receives|)
      ensures receives[i].got.GotInterrupted? || (receives[i].got.GotData? && receives[i].got.data != [])
    {
      WentOnBy(rs, k, i);
      assert Arrives(rs, i) == Arrives(receives, i) == receives[i];
    }
  }

  lemma TwoReplies(was: seq<Reply>, now: seq<Reply>, p: Reply, r: Reply)
    requires now == was + [p, r] + []
    ensures now == was + [p, r] && now[|was| + 1] == r
    ensures forall q :: now == was + [p, q] ==> q == r
  {
    assert was + [p, r] + [] == was + [p, r];
    forall q | now == was + [p, q] ensures q == r { assert now[|was| + 1] == (was + [p, q])[|was| + 1]; }
  }

  lemma DeclinedReplies(b: Snapshot, a: Snapshot, append: bool, t: Setup, was: Bytes, now: Bytes, d: Storage)
    requires d.Declined? && StoreDeclined(b, a, append, t, was, now, d)
    ensures Main(a.log.replies) == Main(b.log.replies) + d.said && (|d.said| > 1 ==> d.said[1] != Complete226)
  {
    hide Arranged, CanWrite, GetsLock, DeclinedPoints, Points, Listened, Main, Arriving;
  }

  /** An upload whose second reply is 226 was served, and its loop ended with the client's data. */
  lemma Stored226(b: Snapshot, a: Snapshot, append: bool, t: Setup, receives: seq<Receiving>, limit: nat, was: Bytes,
                  now: Bytes, from: real, to: real, d: Storage)
    requires StoreDone(b, a, append, t, receives, limit, was, now, from, to, false, d)
    requires |Main(a.log.replies)| > |Main(b.log.replies)| + 1
    requires Main(a.log.replies)[|Main(b.log.replies)| + 1] == Complete226
    ensures d.Stored? && d.flag == NoError && CanWrite(t, append, b.restart)
    ensures Uploaded(UploadJob(append, b.restart), |was|, t.version, Reads(receives, b.log, d.open), d, now)
  {
    hide StoreServed, StoreDeclined, Main, CanWrite, Uploaded, BrokenOff, KeptOn, Noted, StorePassed, Reads, Arrives;
    if d.Stored? {
      var rs := Reads(receives, b.log, d.open);
      StoredReplies(b, a, append, t, rs, limit, |was|, now, from, to, d);
      UploadReplies(b, a, append, t, rs, limit, |was|, now, from, to, d);
      FlagBy(b.log, UploadJob(append, b.restart), |was|, t.version, rs, d, now);
    } else {
      DeclinedReplies(b, a, append, t, was, now, d);
    }
    hide StoreReplies;
  }

  /** What 226 means to the client of an upload: STOR at 0 leaves all the data its connection yielded, STOR
      after REST the version locked overwritten with it from there, APPE that version followed by it. */
  lemma CompleteMeansStored(b: Snapshot, a: Snapshot, append: bool, t: Setup, receives: seq<Receiving>, limit: nat,
                            was: Bytes, now: Bytes, from: real, to: real, d: Storage)
    requires StoreDone(b, a, append, t, receives, limit, was, now, from, to, false, d)
    requires |Main(a.log.replies)| > |Main(b.log.replies)| + 1
    requires Main(a.log.replies)[|Main(b.log.replies)| + 1] == Complete226
    ensures var data := Yield(Reads(receives, b.log, d.open));
            if append then now == t.version + data
            else b.restart >= 0 && now == (if b.restart == 0 then data else WriteAt(t.version, b.restart, data))
  {
    hide *;
    Stored226(b, a, append, t, receives, limit, was, now, from, to, d);
    VerdictIs(d.flag);
    JobIs(t, append, b.restart);
    JobKind(append, b.restart);
    NoErrorMeansStored(UploadJob(append, b.restart), |was|, t.version, Reads(receives, b.log, d.open), d, now);
    MaxIs(b.restart);
  }

  lemma MaxIs(n: int)
    ensures n >= 0 ==> Max(n, 0) == n
  {
  }

  /** Reads that each bring some of the client's data, up to 64 KiB, yield all of it. */
  lemma {:induction false} YieldAll(receives: seq<Receiving>)
    requires forall i :: 0 <= i < |receives| ==> receives[i].got.GotData? && 0 < |receives[i].got.data| <= 65536
    ensures Yield(receives) == Flatten(seq(|receives|, i requires 0 <= i < |receives| => receives[i].got.data))
  {
    hide Flatten, Yield, Taken;
    forall i | 0 <= i < |receives| ensures !Ends(Arrives(receives, i)) { PieceIs(receives[i]); }
    YieldIs(receives, |receives|);
    TakenAll(receives, |receives|);
  }

  lemma {:induction false} TakenAll(receives: seq<Receiving>, k: nat)
    requires k <= |receives|
    requires forall i :: 0 <= i < |receives| ==> receives[i].got.GotData? && 0 < |receives[i].got.data| <= 65536
    ensures Taken(receives, k) == Flatten(seq(k, i requires 0 <= i < k => receives[i].got.data))
  {
    var all := seq(k, i requires 0 <= i < k => receives[i].got.data);
    if k > 0 {
      var before := seq(k - 1, i requires 0 <= i < k - 1 => receives[i].got.data);
      TakenAll(receives, k - 1);
      assert all == before + [receives[k - 1].got.data];
      FlattenSnoc(before, receives[k - 1].got.data);
    }
  }

  /** Without a SIGURG the loop sees the plan. */
  lemma {:induction false} QuietPlan(receives: seq<Receiving>, b: Log, open: bool)
    requires b.signals == []
    ensures Reads(receives, b, open) == receives
  {
    var j := FirstShut(b, open, receives, 0);
    if j < |receives| { NeverNoted(b, open, LOOP_POINTS + PointsIn(receives, j) + 1); }
    hide Noted, PointsIn;
    assert Cut(receives, j) == receives;
  }

  /** An upload without SIGURGs and without an ABOR left noted: 150, and then 226, 426 or 451 as its last read found
      the end of the data, failed, or brought data that the file did not take. */
  lemma QuietStore(b: Snapshot, a: Snapshot, append: bool, t: Setup, receives: seq<Receiving>, limit: nat, was: Bytes,
                   now: Bytes, from: real, to: real, d: Storage)
    requires StoreDone(b, a, append, t, receives, limit, was, now, from, to, false, d)
    requires b.log.signals == [] && !b.log.aborted
    ensures d.Declined? ==> a.log.replies == b.log.replies + d.said
    ensures d.Stored? ==> d.rounds <= |receives| && Reads(receives, b.log, d.open) == receives
    ensures d.Stored? ==>
              var got := if d.rounds < |receives| then receives[d.rounds].got else GotData([]);
              && a.log.replies == b.log.replies
                   + [Opening150(b.settings.asciiMode, |was|),
                      if got.GotError? then BrokenNetwork426 else if got == GotData([]) then Complete226 else BrokenFile451]
              && (got.GotError? || got == GotData([]) || (got.GotData? && Failed in receives[d.rounds].writes))
    ensures d.Stored? ==>
              forall i :: 0 <= i < d.rounds ==>
                receives[i].got.GotInterrupted? || (receives[i].got.GotData? && receives[i].got.data != [])
  {
    hide *;
    if d.Stored? {
      QuietPlan(receives, b.log, d.open);
      QuietServed(b, a, append, t, receives, limit, was, now, from, to, d);
      FlagBy(b.log, UploadJob(append, b.restart), |was|, t.version, receives, d, now);
      NeverNoted(b.log, d.open, StorePassed(b.log, d.open, receives, d.rounds) + 1);
      UploadedReads(UploadJob(append, b.restart), |was|, t.version, receives, d, now);
      QuietReads(receives, b.log, d.open, d.rounds);
      EarlierReads(receives, receives, d.rounds);
      ArrivesAt(receives, d.rounds);
      VerdictBy(d.flag);
      var done := Verdict(d.flag);
      EndingIs(Opening150(b.settings.asciiMode, |was|), done, false, b.log.replies);
      assert b.log.replies + [Opening150(b.settings.asciiMode, |was|), done] + []
             == b.log.replies + [Opening150(b.settings.asciiMode, |was|), done];
    } else {
      QuietDeclined(b, a, append, t, receives, limit, was, now, from, to, d);
    }
  }

  lemma ArrivesAt(receives: seq<Receiving>, k: nat)
    ensures Arrives(receives, k).got == if k < |receives| then receives[k].got else GotData([])
    ensures k < |receives| ==> Arrives(receives, k).writes == receives[k].writes
  {
  }

  lemma VerdictBy(flag: Flag)
    ensures Verdict(flag) == if flag == NoError then Complete226 else if flag == NetworkError then BrokenNetwork426
                             else BrokenFile451
  {
  }

  lemma QuietServed(b: Snapshot, a: Snapshot, append: bool, t: Setup, receives: seq<Receiving>, limit: nat, was: Bytes,
                    now: Bytes, from: real, to: real, d: Storage)
    requires StoreDone(b, a, append, t, receives, limit, was, now, from, to, false, d) && d.Stored?
    requires b.log.signals == [] && !b.log.aborted && Reads(receives, b.log, d.open) == receives
    ensures a.log.replies
            == b.log.replies + ([Opening150(b.settings.asciiMode, |was|)] + Ending(Verdict(d.flag), false))
    ensures Uploaded(UploadJob(append, b.restart), |was|, t.version, receives, d, now)
    ensures d.flag.NetworkError? <==> BrokenOff(b.log, d.open, receives, d.rounds) || Arrives(receives, d.rounds).got.GotError?
  {
    hide Arranged, CanWrite, Uploaded, Replied, Ending, Verdict, Until, StoreMoves, BrokenOff, KeptOn, StorePassed, Arrives,
      Reads, Noted, Told;
    var points := StorePassed(b.log, d.open, receives, d.rounds) + 1;
    NeverNoted(b.log, d.open, points);
    QuietSaid(b.log, a.log, StoreReplies(b, d.open, |was|, points, d.flag), d.open, points);
  }

  lemma QuietDeclined(b: Snapshot, a: Snapshot, append: bool, t: Setup, receives: seq<Receiving>, limit: nat, was: Bytes,
                      now: Bytes, from: real, to: real, d: Storage)
    requires StoreDone(b, a, append, t, receives, limit, was, now, from, to, false, d) && d.Declined?
    requires b.log.signals == []
    ensures a.log.replies == b.log.replies + d.said
  {
    hide Arranged, CanWrite, Told, Replied, GetsLock, NoTransfer, DeclinedPoints, Cannot, Reads;
    QuietSaid(b.log, a.log, d.said, d.open, if d.said == [Cannot(t)] then DeclinedPoints(t) else 0);
  }
}
