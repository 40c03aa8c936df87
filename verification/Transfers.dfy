/** What RETR, STOR and APPE share: the file and its lock, the data connection's beginning and end,
    and SIGURG at any point in between. */
module Transfers {
  import opened Base
  import opened Streams
  import opened FileMeaning
  import opened RateLimiter
  import opened Sessions
  import opened DataConnection
  import DataChannel

  class File {
    var data: Bytes

    constructor (data: Bytes)
      ensures this.data == data
    {
      this.data := data;
    }
  }

  /** The first answer to F_SETLKW that is not an interruption is a grant. */
  predicate Granted(rets: seq<Outcome>) {
    rets == [] || rets[0].Count? || (rets[0].Interrupted? && Granted(rets[1..]))
  }

  /** Every failure comes after a grant. */
  lemma {:induction false} GrantedIs(rets: seq<Outcome>)
    ensures Granted(rets) <==> forall i :: 0 <= i < |rets| && rets[i].Failed? ==> exists j :: 0 <= j < i && rets[j].Count?
  {
    if rets != [] && rets[0].Interrupted? {
      var more := rets[1..];
      GrantedIs(more);
      if Granted(rets) {
        forall i | 0 <= i < |rets| && rets[i].Failed? ensures exists j :: 0 <= j < i && rets[j].Count? {
          var j :| 0 <= j < i - 1 && more[j].Count?;
          assert rets[j + 1].Count?;
        }
      } else {
        var i :| 0 <= i < |more| && more[i].Failed? && forall j :: 0 <= j < i ==> !more[j].Count?;
        assert rets[i + 1].Failed? && forall j :: 0 <= j < i + 1 ==> !rets[j].Count?;
      }
    }
  }

  /** lock_file_read and lock_file_write. When the lock is granted the file is what its earlier
      holders have left. */
  method LockFile(file: File, rets: seq<Outcome>, version: Bytes) returns (ret: int)
    modifies file
    ensures ret == if Granted(rets) then 0 else -1
    ensures file.data == if Granted(rets) then version else old(file.data)
  {
    var i := 0;
    while i < |rets| && rets[i].Interrupted?
      invariant 0 <= i <= |rets| && Granted(rets) == Granted(rets[i..])
    {
      assert rets[i..][1..] == rets[i + 1..];
      i := i + 1;
    }
    if i < |rets| && rets[i].Failed? { return -1; }
    file.data := version;
    return 0;
  }

  lemma WriteMore(was: Bytes, at: nat, data: Bytes, done: nat, k: nat)
    requires done + k <= |data|
    ensures WriteAt(WriteAt(was, at, data[..done]), at + done, data[done..done + k]) == WriteAt(was, at, data[..done + k])
  {
    WriteAtCompose(was, at, data[..done], data[done..done + k]);
    assert data[..done] + data[done..done + k] == data[..done + k];
  }

  /** write_n on the file, at position `at`. */
  method WriteFile(file: File, at: nat, data: Bytes, plan: seq<Outcome>) returns (ret: int, ghost n: nat)
    modifies file
    ensures n <= |data| && file.data == WriteAt(old(file.data), at, data[..n])
    ensures (ret == |data| && n == |data|) || (ret == -1 && Failed in plan)
  {
    var done, i := 0, 0;
    ghost var was := file.data;
    assert WriteAt(was, at, data[..0]) == was;
    hide WriteAt;
    while done < |data|
      invariant 0 <= done <= |data| && 0 <= i <= |plan|
      invariant file.data == WriteAt(was, at, data[..done])
      decreases |data| - done + |plan| - i
    {
      var o := if i < |plan| then plan[i] else Count(|data| - done);
      i := Min(i + 1, |plan|);
      if o.Interrupted? { continue; }
      if o.Failed? { return -1, done; }
      var k := Min(o.n, |data| - done);
      WriteMore(was, at, data, done, k);
      file.data := WriteAt(file.data, at + done, data[done..done + k]);
      done := done + k;
    }
    assert data[..done] == data;
    return |data|, |data|;
  }

  /** How the calls before the chunk loop go, how long the lock blocks, and what the file is once
      it is locked; and how many entries a listing has. */
  datatype Setup = Setup(garbage: Byte, descriptor: Option<nat>, opens: bool, stats: bool, lock: seq<Outcome>,
                         blocked: Duration, version: Bytes, truncates: bool, seeks: bool, entries: nat)

  predicate GetsLock(t: Setup) {
    t.opens && t.stats && Granted(t.lock)
  }

  /** The session after a transfer command: ready for the next. */
  ghost predicate Ready(s: Session)
    reads s
  {
    AtHead(s) && !s.activePort && !s.activePasv
  }

  /** The points up to the chunk loop: around open and around the lock. */
  const LOOP_POINTS := 3

  /** The replies of a transfer whose ABOR flag has been cleared again: exactly `said`, and one 500
      for every urgent command that was no ABOR, of the SIGURGs at the `n` points passed. */
  ghost predicate Replied(a: Log, b: Log, said: seq<Reply>, open: bool, n: nat) {
    !b.aborted && Told(a, b.(aborted := a.aborted || a.aborts < b.aborts), said, open, n)
  }

  lemma RepliesAre(a: Log, b: Log, said: seq<Reply>, open: bool, n: nat)
    requires Replied(a, b, said, open, n)
    ensures Main(b.replies) == Main(a.replies) + said
  {
    hide Main, Points, Listened, Arriving;
  }

  /** Without SIGURGs a handler's replies are just what it said. */
  lemma {:induction false} QuietSaid(a: Log, b: Log, said: seq<Reply>, open: bool, n: nat)
    requires a.signals == [] && (Told(a, b, said, open, n) || Replied(a, b, said, open, n))
    ensures b.replies == a.replies + said
  {
    NeverNoted(a, open, n);
    var more := b.replies[|a.replies|..];
    assert a.replies <= b.replies;
    assert b.replies == a.replies + more;
    MainAppend(a.replies, more);
    MainAll(more);
    assert Main(a.replies) + Main(more) == Main(a.replies) + said;
    SameTail(Main(a.replies), Main(more), said);
    hide Main, Points, Listened, Arriving;
  }

  lemma SameTail(was: seq<Reply>, x: seq<Reply>, y: seq<Reply>)
    requires was + x == was + y
    ensures x == y
  {
    assert x == (was + x)[|was|..] == (was + y)[|was|..] == y;
  }

  /** How a command that got no transfer is refused; 425 only for want of PORT and PASV. */
  function NoTransfer(b: Settings): seq<Reply> {
    (if b.activePort || b.activePasv then [] else [UsePortOrPasv425]) + [NoConnection550]
  }

  /** The closing replies: how the transfer ended, then one 226 if there was an ABOR. */
  function Ending(done: Reply, aborted: bool): seq<Reply> {
    if aborted then [done, Aborted226] else [done]
  }

  lemma NoTransferBy(b: Settings)
    ensures !b.activePort && !b.activePasv ==> NoTransfer(b) == [UsePortOrPasv425, NoConnection550]
    ensures b.activePort || b.activePasv ==> NoTransfer(b) == [NoConnection550]
  {
    assert [] + [NoConnection550] == [NoConnection550];
  }

  lemma NoTransferIs(b: Settings)
    ensures NoTransfer(b) != [CannotOpen550] && NoTransfer(b) != [CannotCreate553]
  {
    assert NoTransfer(b)[|NoTransfer(b)| - 1] == NoConnection550;
  }

  predicate OneMode(b: Settings) {
    b.activePort != b.activePasv
  }

  /** The nobody process is asked and does not answer, or a call on the socketpair is cut short. */
  predicate Unanswered(b: Snapshot, t: Setup) {
    OneMode(b.settings) && !Calm(b.pic.plan, b.pic.input, t.descriptor)
  }

  /** The exchange with the nobody process: the request of the mode that is on goes out, its answer
      is read to its end, `ok` is what it says, and `open` whether a descriptor came with it. */
  ghost predicate Arranged(b: Snapshot, a: Pair, t: Setup, ok: bool, open: bool) {
    && Rest(a.plan, b.pic.plan) && (open ==> ok)
    && (!OneMode(b.settings) ==> !ok && a.output == b.pic.output && a.input == b.pic.input)
    && (OneMode(b.settings) && Steady(b.pic.plan) ==>
          && a.output == b.pic.output + DataChannel.Encode(Request(b.settings.activePort, b.settings.portAddr))
          && a.input == AnswerRest(b.pic.input)
          && (ok <==> (if b.pic.input == [] then t.garbage else b.pic.input[0]) != DataChannel.RESULT_BAD)
          && (open <==> b.pic.input != [] && b.pic.input[0] == DataChannel.RESULT_OK))
  }

  /** The bytes of the exchange: 2 asks for a connection of the listener, 1 with the length and the address for one
      to the client; any answer but 2 is good, and a 1 brings a descriptor. */
  lemma {:induction false} ArrangedBytes(b: Snapshot, a: Pair, t: Setup, ok: bool, open: bool)
    requires Arranged(b, a, t, ok, open)
    ensures b.settings.activePort == b.settings.activePasv ==> !ok && a.output == b.pic.output && a.input == b.pic.input
    ensures b.settings.activePort != b.settings.activePasv && Steady(b.pic.plan) ==>
              a.output == b.pic.output + if b.settings.activePasv then [2] else [1, 16, 0, 0, 0] + b.settings.portAddr
    ensures b.settings.activePort != b.settings.activePasv && Steady(b.pic.plan) && b.pic.input != [] ==>
              (ok <==> b.pic.input[0] != 2) && (open <==> b.pic.input[0] == 1)
              && a.input == b.pic.input[if b.pic.input[0] == 1 then Min(2, |b.pic.input|) else 1..]
  {
    hide Steady, Rest;
    if b.settings.activePort != b.settings.activePasv && Steady(b.pic.plan) {
      assert DataChannel.Encode(DataChannel.Accept) == [2];
      assert DataChannel.Encode(DataChannel.Connect(b.settings.portAddr)) == [1, 16, 0, 0, 0] + b.settings.portAddr;
    }
    hide DataChannel.Encode;
  }

  /** SIGURGs between two steps of a handler that has said `said` since `before` and passed `n` points. */
  method Signalled(s: Session, ghost before: Log, ghost said: seq<Reply>, ghost open: bool, ghost n: nat)
    returns (exited: bool)
    requires Told(before, s.View(), said, open, n) && open == (s.dataFd != -1)
    requires s.shut == (before.aborts < s.aborts)
    modifies s`cmd, s`arg, s`receivedAbor, s`replies, s`aborts, s`others, s`signals, s`parsed, s`shut
    modifies s.control`plan, s.control`input
    ensures if exited then Short(before, 0) else Told(before, s.View(), said, open, n + 1)
    ensures !exited ==> s.shut == (before.aborts < s.aborts)
  {
    hide Told, Spoke, Short, Point, Points;
    ghost var was := s.View();
    ToldMeans(before, was, said, open, n);
    exited := s.Interrupts();
    ShortBack(before, was, said, 0);
    if exited { return; }
    OnePoint(before, was, s.View(), said, open, n);
  }

  lemma {:induction false} OnePoint(before: Log, was: Log, now: Log, said: seq<Reply>, open: bool, n: nat)
    requires Told(before, was, said, open, n) && Spoke(was, now, []) && UrgentOf(now) == Point(UrgentOf(was), open)
    ensures Told(before, now, said, open, n + 1) && before.aborts <= was.aborts
  {
    ToldMeans(before, was, said, open, n);
    SpokeGrows(before, was, said);
    SpokeOn(before, was, now, said);
    hide Spoke, Point;
  }

  /** Say something between two points. */
  method Tell(s: Session, r: Reply, ghost before: Log, ghost said: seq<Reply>, ghost open: bool, ghost n: nat)
    requires !r.UrgentUnknown500? && Told(before, s.View(), said, open, n)
    modifies s`replies
    ensures Told(before, s.View(), said + [r], open, n)
    ensures s.replies == old(s.replies) + [r]
  {
    hide Spoke, Points;
    ghost var was := s.View();
    s.Say(r);
    SpokeTrans(before, was, s.View(), said, [r]);
  }

  /** Give up before the loop: say why, close and reset. */
  method Refuse(s: Session, r: Reply, ghost before: Log, ghost open: bool, ghost n: nat) returns (exited: bool)
    requires |s.portAddr| == 16 && s.control != s.pic && !r.UrgentUnknown500?
    requires Told(before, s.View(), [], open, n) && open == (s.dataFd != -1) && s.shut == (before.aborts < s.aborts)
    modifies s`cmd, s`arg, s`receivedAbor, s`replies, s`aborts, s`others, s`signals, s`parsed, s`shut
    modifies s`dataFd, s`activePasv, s`activePort, s.control`plan, s.control`input
    ensures if exited then Short(before, 0) else Ready(s) && Told(before, s.View(), [r], open, n + 1)
  {
    hide Told, Short;
    Tell(s, r, before, [], open, n);
    assert [] + [r] == [r];
    exited := Signalled(s, before, [r], open, n);
    if exited { return; }
    s.ResetDataFd();
  }

  lemma ArrangedBy(b: Snapshot, a: Pair, t: Setup, ok: bool, fd: int)
    requires Rest(a.plan, b.pic.plan) && (!ok ==> fd == -1)
    requires !OneMode(b.settings) ==> !ok && a.output == b.pic.output && a.input == b.pic.input
    requires OneMode(b.settings) && Steady(b.pic.plan) ==>
               && a.output == b.pic.output + DataChannel.Encode(Request(b.settings.activePort, b.settings.portAddr))
               && Understood(b.pic.input, t.garbage, t.descriptor, ok, fd, a.input)
    ensures Arranged(b, a, t, ok, fd != -1)
  {
    hide Steady, Rest, DataChannel.Encode;
  }

  lemma SpokeTold(a: Log, b: Log, said: seq<Reply>, open: bool)
    requires Spoke(a, b, said) && UrgentOf(b) == UrgentOf(a)
    ensures Told(a, b, said, open, 0)
  {
    hide Spoke;
  }

  /** The replies of establish_transfer itself. */
  function Hint(b: Settings): seq<Reply> {
    if b.activePort || b.activePasv then [] else [UsePortOrPasv425]
  }

  /** establish_transfer */
  method Arrange(s: Session, t: Setup) returns (exited: bool, ok: bool)
    requires AtHead(s)
    modifies s`dataFd, s`replies, s.pic
    ensures exited ==> Unanswered(old(s.Now()), t)
    ensures !exited ==> Told(old(s.View()), s.View(), Hint(old(s.Now()).settings), s.dataFd != -1, 0)
    ensures !exited ==> Arranged(old(s.Now()), s.Now().pic, t, ok, s.dataFd != -1)
    ensures !exited && ok ==> OneMode(old(s.Now()).settings)
  {
    hide Spoke, Calm, Steady, Rest, Understood, Arranged, Told, DataChannel.Encode;
    ghost var b, before := s.Now(), s.View();
    ok, exited := EstablishTransfer(s, t.garbage, t.descriptor);
    if exited { return; }
    ArrangedBy(b, s.Now().pic, t, ok, s.dataFd);
    SpokeTold(before, s.View(), Hint(b.settings), s.dataFd != -1);
  }

  /** establish_transfer and the refusal when it fails. */
  method Establish(s: Session, t: Setup) returns (exited: bool, refused: bool, ghost said: seq<Reply>)
    requires AtHead(s)
    modifies s`dataFd, s`shut, s`replies, s`activePasv, s`activePort, s.pic
    ensures exited ==> Unanswered(old(s.Now()), t)
    ensures !exited ==> Told(old(s.View()), s.View(), said, s.dataFd != -1, 0)
    ensures !exited ==> Arranged(old(s.Now()), s.Now().pic, t, !refused, s.dataFd != -1) && !s.shut
    ensures !exited && !refused ==> said == [] && OneMode(old(s.Now()).settings)
                                    && s.activePort == old(s.activePort) && s.activePasv == old(s.activePasv)
    ensures !exited && refused ==> Ready(s) && said == NoTransfer(old(s.Now()).settings)
  {
    hide Unanswered, Arranged, Told;
    ghost var b, before := s.Now(), s.View();
    said := Hint(b.settings);
    var ok;
    exited, ok := Arrange(s, t);
    refused := !ok;
    if exited || ok { return; }
    NotOpen(b, s.Now().pic, t, s.dataFd != -1);
    s.ResetDataFd();
    Tell(s, NoConnection550, before, said, false, 0);
    said := said + [NoConnection550];
  }

  lemma NotOpen(b: Snapshot, a: Pair, t: Setup, open: bool)
    requires Arranged(b, a, t, false, open)
    ensures !open
  {
    hide Steady, Rest, DataChannel.Encode;
  }

  /** The last steps of a transfer: a point, the reset, the reply, and one answer to an ABOR. */
  method Finish(s: Session, done: Reply, ghost before: Log, ghost said: seq<Reply>, ghost open: bool, ghost n: nat)
    returns (exited: bool)
    requires |s.portAddr| == 16 && s.control != s.pic && !done.UrgentUnknown500?
    requires Told(before, s.View(), said, open, n) && open == (s.dataFd != -1) && s.shut == (before.aborts < s.aborts)
    modifies s`cmd, s`arg, s`receivedAbor, s`replies, s`aborts, s`others, s`signals, s`parsed, s`shut
    modifies s`dataFd, s`activePasv, s`activePort, s.control`plan, s.control`input
    ensures if exited then Short(before, 0)
            else Ready(s) && Replied(before, s.View(), said + Ending(done, before.aborted || Noted(before, open, n + 1)),
                                     open, n + 1)
  {
    hide Told, Short, Replied, Noted;
    exited := Signalled(s, before, said, open, n);
    if exited { return; }
    s.ResetDataFd();
    Conclude(s, done, before, said, open, n + 1);
  }

  /** The closing replies. */
  method Conclude(s: Session, done: Reply, ghost before: Log, ghost said: seq<Reply>, ghost open: bool, ghost n: nat)
    requires !done.UrgentUnknown500? && Told(before, s.View(), said, open, n)
    modifies s`replies, s`receivedAbor
    ensures Replied(before, s.View(), said + Ending(done, before.aborted || Noted(before, open, n)), open, n)
  {
    hide Told, Replied, Noted;
    Tell(s, done, before, said, open, n);
    ToldMeans(before, s.View(), said + [done], open, n);
    if s.receivedAbor {
      AnswerAbor(s, done, before, said, open, n);
    } else {
      Cleared(before, s.View(), said + [done], open, n);
    }
  }

  method AnswerAbor(s: Session, ghost done: Reply, ghost before: Log, ghost said: seq<Reply>, ghost open: bool, ghost n: nat)
    requires Told(before, s.View(), said + [done], open, n)
    modifies s`replies, s`receivedAbor
    ensures Replied(before, s.View(), said + [done, Aborted226], open, n)
  {
    hide Told, Replied;
    Tell(s, Aborted226, before, said + [done], open, n);
    assert said + [done] + [Aborted226] == said + [done, Aborted226];
    Cleared(before, s.View(), said + [done, Aborted226], open, n);
    s.receivedAbor := false;
  }

  lemma {:induction false} Cleared(a: Log, b: Log, said: seq<Reply>, open: bool, n: nat)
    requires Told(a, b, said, open, n)
    ensures Replied(a, b.(aborted := false), said, open, n)
  {
    ToldMeans(a, b, said, open, n);
    hide Spoke, Points;
    assert b.(aborted := false).(aborted := b.aborted) == b;
  }
}
