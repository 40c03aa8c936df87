/** The nobody process as it runs: the three services and the command loop, over its end of the
    socketpair. `DataChannel` has the same services one byte at a time, against the other process. */
module NobodyProcess {
  import opened Base
  import opened Streams
  import opened DataChannel

  /** The requests as they lie in the socketpair. */
  function Wire(qs: seq<Request>): seq<Byte> {
    if qs == [] then [] else Encode(qs[0]) + Wire(qs[1..])
  }

  lemma {:induction false} WireCons(q: Request, rest: seq<Request>)
    ensures Wire([q] + rest) == Encode(q) + Wire(rest)
  {
    assert ([q] + rest)[1..] == rest;
    hide Encode;
  }

  lemma {:induction false} WireAppend(qs: seq<Request>, more: seq<Request>)
    ensures Wire(qs + more) == Wire(qs) + Wire(more)
  {
    hide Encode;
    if qs == [] {
      assert [] + more == more;
    } else {
      WireAppend(qs[1..], more);
      assert qs + more == [qs[0]] + (qs[1..] + more);
      WireCons(qs[0], qs[1..] + more);
      hide Wire;
    }
  }

  function Answers(rs: seq<Reply>): seq<Byte> {
    if rs == [] then [] else Answers(rs[..|rs| - 1]) + Octets(Cells(rs[|rs| - 1]))
  }

  /** The bytes of a reply: 2 for a bad status, 1 and the byte that carries the descriptor, or a port. */
  lemma ReplyBytes(r: Reply)
    ensures Octets(Cells(r)) == match r
                                case Bad => [2]
                                case Fd(_) => [1, 0]
                                case Port(lo, hi) => [lo, hi]
  {
  }

  /** All replies in order, and all the descriptors. */
  lemma {:induction false} AnswersAre(rs: seq<Reply>, parts: seq<seq<Byte>>, objs: seq<seq<Obj>>)
    requires |parts| == |objs| == |rs|
    requires forall i :: 0 <= i < |rs| ==>
               && parts[i] == (match rs[i] case Bad => [2] case Fd(_) => [1, 0] case Port(lo, hi) => [lo, hi])
               && objs[i] == if rs[i].Fd? then [rs[i].obj] else []
    ensures Answers(rs) == Flatten(parts) && AllHanded(rs) == Flatten(objs)
  {
    hide Octets, Cells, Flatten;
    if rs == [] {
      NoParts<Byte>();
      NoParts<Obj>();
    } else {
      var n := |rs| - 1;
      AnswersAre(rs[..n], parts[..n], objs[..n]);
      ReplyBytes(rs[n]);
      FlattenSnoc(parts[..n], parts[n]);
      FlattenSnoc(objs[..n], objs[n]);
      assert parts[..n] + [parts[n]] == parts && objs[..n] + [objs[n]] == objs;
    }
  }

  lemma NoParts<T>()
    ensures Flatten<T>([]) == []
  {
  }

  function Handed(r: Reply): seq<Obj> {
    if r.Fd? then [r.obj] else []
  }

  class Nobody {
    const channel: Stream
    var pasvListenFd: int
    var fds: map<int, Obj>   // open in this process
    var passed: seq<Obj>         // sent over the socketpair, each on a byte of its own

    constructor (channel: Stream)
      ensures this.channel == channel && pasvListenFd == -1 && fds == map[] && passed == []
    {
      this.channel, pasvListenFd, fds, passed := channel, -1, map[], [];
    }

    /** send_fd: one byte with the descriptor on it, or the process ends. */
    method SendFd(obj: Obj) returns (exited: bool)
      modifies channel`plan, channel`output, this`passed
      ensures Rest(channel.plan, old(channel.plan))
      ensures exited ==> !Prompt(old(channel.plan))
      ensures !exited ==> channel.output == old(channel.output) + [NUL] && passed == old(passed) + [obj]
    {
      var ret, eintr := channel.Write([NUL]);
      if ret != 1 { return true; }
      passed := passed + [obj];
      return false;
    }

    /** A bad status. */
    method Refuse() returns (r: Reply)
      modifies channel`plan, channel`output
      ensures r == Bad && Rest(channel.plan, old(channel.plan))
      ensures Steady(old(channel.plan)) ==> channel.output == old(channel.output) + Octets(Cells(r))
    {
      SendChar(channel, RESULT_BAD);
      r := Bad;
    }

    /** A good status and the descriptor. */
    method Hand(obj: Obj) returns (exited: bool, r: Reply)
      modifies channel`plan, channel`output, this`passed
      ensures r == Fd(obj) && Rest(channel.plan, old(channel.plan))
      ensures exited ==> !Prompt(old(channel.plan))
      ensures !exited ==> passed == old(passed) + [obj]
      ensures !exited && Steady(old(channel.plan)) ==> channel.output == old(channel.output) + Octets(Cells(r))
    {
      SendChar(channel, RESULT_OK);
      exited := SendFd(obj);
      r := Fd(obj);
    }

    /** recv_buf of a socket address. */
    method ReceiveAddress() returns (ok: bool, addr: seq<Byte>)
      modifies channel`plan, channel`input
      ensures Rest(channel.plan, old(channel.plan))
      ensures Steady(old(channel.plan)) ==>
                if ok then Unframe(old(channel.input), ADDR_LEN) == Some((addr, channel.input))
                else Unframe(old(channel.input), ADDR_LEN).None?
    {
      var buf := new Byte[ADDR_LEN];
      var got;
      ok, got := RecvBuf(channel, buf, ADDR_LEN);
      addr := if ok then buf[..got] else [];
    }

    /** connect_in_actv, with what create_client and connect say. When create_client fails the address
        is left unread. */
    method ConnectInActv(created: bool, dialled: bool) returns (exited: bool, r: Reply)
      modifies this, channel
      ensures pasvListenFd == old(pasvListenFd) && (!exited ==> fds == old(fds))
      ensures Rest(channel.plan, old(channel.plan))
      ensures !exited && Steady(old(channel.plan)) ==>
                && channel.output == old(channel.output) + Octets(Cells(r))
                && passed == old(passed) + Handed(r)
                && if !created then r == Bad && channel.input == old(channel.input)
                   else var message := Unframe(old(channel.input), ADDR_LEN);
                        && message.Some? && channel.input == message.value.1
                        && r == if dialled then Fd(Dialled(message.value.0)) else Bad
      ensures exited ==> created && (!Prompt(old(channel.plan)) || Unframe(old(channel.input), ADDR_LEN).None?)
    {
      NeverFails(channel.plan);
      hide Unframe, Steady, Prompt, Octets, Cells;
      exited := false;
      if !created {
        r := Refuse();
        return;
      }
      var dataFd := Lowest(fds, 0);
      fds := fds[dataFd := Raw];
      var ok;
      var addr;
      ok, addr := ReceiveAddress();
      if !ok { return true, Bad; }
      assert Steady(old(channel.plan)) ==> Unframe(old(channel.input), ADDR_LEN) == Some((addr, channel.input));
      if !dialled {
        fds := fds - {dataFd};
        r := Refuse();
        return;
      }
      exited, r := Hand(Dialled(addr));
      fds := fds - {dataFd};
    }

    /** listen_in_pasv; no listener is the end of the process. A listener still open stays open. */
    method ListenInPasv(server: Option<(Byte, Byte)>) returns (exited: bool, r: Reply)
      modifies this, channel`plan, channel`output
      ensures exited <==> server.None?
      ensures passed == old(passed) && Rest(channel.plan, old(channel.plan))
      ensures !exited ==>
                var (lo, hi) := server.value;
                && pasvListenFd !in old(fds) && fds == old(fds)[pasvListenFd := Listener(Word16(lo, hi))] && r == Port(lo, hi)
      ensures !exited && Steady(old(channel.plan)) ==> channel.output == old(channel.output) + Octets(Cells(r))
    {
      r := Bad;
      if server.None? { return true, r; }
      var (lo, hi) := server.value;
      var listenFd := Lowest(fds, 0);
      fds := fds[listenFd := Listener(Word16(lo, hi))];
      pasvListenFd := listenFd;
      r := Port(lo, hi);
      var ret := WriteN(channel, [lo, hi]);
      return false, r;
    }

    /** accept can succeed on pasv_listen_fd. */
    predicate Accepts()
      reads this
    {
      pasvListenFd in fds && fds[pasvListenFd].Listener?
    }

    /** The port of the current listener, while it is open. */
    function Current(): Option<nat>
      reads this
    {
      if Accepts() then Some(fds[pasvListenFd].port) else None
    }

    /** accept_in_pasv, with what accept says. The listener is closed, but pasv_listen_fd keeps its
        number. */
    method AcceptInPasv(connected: bool) returns (exited: bool, r: Reply)
      modifies this, channel`plan, channel`output
      ensures pasvListenFd == old(pasvListenFd) && Rest(channel.plan, old(channel.plan))
      ensures exited ==> connected && old(Accepts()) && !Prompt(old(channel.plan))
      ensures !exited ==> fds == if connected && old(Accepts()) then old(fds) - {pasvListenFd} else old(fds)
      ensures !exited && Steady(old(channel.plan)) ==>
                && r == (if connected && old(Accepts()) then Fd(Accepted(old(fds)[pasvListenFd].port)) else Bad)
                && channel.output == old(channel.output) + Octets(Cells(r))
                && passed == old(passed) + Handed(r)
    {
      hide Steady, Prompt, Octets, Cells;
      exited := false;
      if !connected || !Accepts() {
        r := Refuse();
        return;
      }
      exited, r := Hand(Accepted(fds[pasvListenFd].port));
      fds := fds - {pasvListenFd};
    }
  }

  /** What the kernel does while one command is served: what get_char's variable held, whether
      create_client, connect and accept succeed, and the port of a new server, if there is one. */
  datatype Turn = Turn(garbage: Byte, created: bool, dialled: bool, server: Option<(Byte, Byte)>, connected: bool)

  lemma OneRequest(q: Request, more: seq<Byte>)
    requires WellFormed(q)
    ensures var w := Encode(q) + more;
            && w != [] && w[0] == Encode(q)[0]
            && (q.Connect? ==> Unframe(w[1..], ADDR_LEN) == Some((q.addr, more)))
            && (!q.Connect? ==> w[1..] == more)
  {
    var w := Encode(q) + more;
    if q.Connect? {
      AddrHeader();
      assert w[1..] == Frame(q.addr) + more;
      FrameRoundTrip(q.addr, more, ADDR_LEN);
      hide Frame, Unframe, Encode;
    } else {
      assert w[1..] == more;
    }
  }

  /** A request is cut off the wire at its own end. */
  lemma {:induction false} WireHead(qs: seq<Request>)
    requires qs != [] && WellFormed(qs[0])
    ensures var w, more := Wire(qs), Wire(qs[1..]);
            && w != [] && w[0] == Encode(qs[0])[0]
            && (qs[0].Connect? ==> Unframe(w[1..], ADDR_LEN) == Some((qs[0].addr, more)))
            && (!qs[0].Connect? ==> w[1..] == more)
  {
    OneRequest(qs[0], Wire(qs[1..]));
    hide Encode, Unframe;
  }

  lemma AnswersAppend(rs: seq<Reply>, r: Reply)
    ensures Answers(rs + [r]) == Answers(rs) + Octets(Cells(r))
  {
    assert (rs + [r])[..|rs + [r]| - 1] == rs;
  }

  /** create_client does not fail under a request. */
  predicate Serves(q: Request, t: Turn) {
    q.Connect? ==> t.created
  }

  /** `cmd` begins request `q`, and the rest of it, then `more`, is what is left to read. */
  ghost predicate Asked(cmd: Byte, input: seq<Byte>, q: Request, more: seq<Byte>) {
    && cmd == Encode(q)[0]
    && (q.Connect? ==> Unframe(input, ADDR_LEN) == Some((q.addr, more)))
    && (!q.Connect? ==> input == more)
  }

  /** The switch of the command loop. Read as request `q`, the byte is answered with the connection asked for
      if there is one, and with a bad status otherwise. */
  method Serve(n: Nobody, cmd: Byte, t: Turn, ghost q: Request, ghost more: seq<Byte>) returns (exited: bool, r: Reply)
    modifies n, n.channel
    ensures Rest(n.channel.plan, old(n.channel.plan))
    ensures !exited && Serves(q, t) && Steady(old(n.channel.plan)) && Asked(cmd, old(n.channel.input), q, more) ==>
              && n.channel.input == more
              && n.channel.output == old(n.channel.output) + Octets(Cells(r))
              && n.passed == old(n.passed) + Handed(r)
    ensures !exited && Steady(old(n.channel.plan)) && Asked(cmd, old(n.channel.input), q, more) ==>
              && (q.Connect? ==> r == if t.created && t.dialled then Fd(Dialled(q.addr)) else Bad)
              && (q.Connect? ==> n.fds == old(n.fds) && n.pasvListenFd == old(n.pasvListenFd))
              && (q.Accept? ==>
                    r == if t.connected && old(n.pasvListenFd) in old(n.fds) && old(n.fds)[old(n.pasvListenFd)].Listener?
                         then Fd(Accepted(old(n.fds)[old(n.pasvListenFd)].port)) else Bad)
              && (q.Accept? ==>
                    && n.pasvListenFd == old(n.pasvListenFd)
                    && n.fds == if r.Bad? then old(n.fds) else old(n.fds) - {n.pasvListenFd})
              && (q.Listen? ==>
                    && t.server.Some? && r == Port(t.server.value.0, t.server.value.1)
                    && n.pasvListenFd !in old(n.fds)
                    && n.fds == old(n.fds)[n.pasvListenFd := Listener(t.server.value.0 + 256 * t.server.value.1)])
    ensures exited && Serves(q, t) && Prompt(old(n.channel.plan)) && Asked(cmd, old(n.channel.input), q, more) ==>
              q.Listen? && t.server.None?
  {
    hide Steady, Prompt, Octets, Cells, Unframe;
    exited, r := false, Bad;
    if cmd == CONNECT_IN_ACTV {
      exited, r := n.ConnectInActv(t.created, t.dialled);
    } else if cmd == LISTEN_IN_PASV {
      exited, r := n.ListenInPasv(t.server);
      assert n.passed + [] == n.passed;
    } else if cmd == ACCEPT_IN_PASV {
      exited, r := n.AcceptInPasv(t.connected);
    }
  }

  function AllHanded(rs: seq<Reply>): seq<Obj> {
    if rs == [] then [] else AllHanded(rs[..|rs| - 1]) + Handed(rs[|rs| - 1])
  }

  /** The replies fit the requests, and are what was written and handed over. */
  ghost predicate Answered(qs: seq<Request>, rs: seq<Reply>, k: nat, wrote: seq<Byte>, handed: seq<Obj>) {
    && k <= |qs| && |rs| == k && (forall i :: 0 <= i < k ==> Matches(qs[i], rs[i]))
    && wrote == Answers(rs) && handed == AllHanded(rs)
  }

  lemma AnsweredAppend(qs: seq<Request>, rs: seq<Reply>, k: nat, wrote: seq<Byte>, handed: seq<Obj>, r: Reply)
    requires Answered(qs, rs, k, wrote, handed) && k < |qs| && Matches(qs[k], r)
    ensures Answered(qs, rs + [r], k + 1, wrote + Octets(Cells(r)), handed + Handed(r))
  {
    AnswersAppend(rs, r);
    assert (rs + [r])[..|rs + [r]| - 1] == rs;
  }

  predicate AllServe(qs: seq<Request>, ts: seq<Turn>) {
    |qs| == |ts| && forall i :: 0 <= i < |qs| ==> Serves(qs[i], ts[i])
  }

  /** The port of the current listener after `k` requests: that of the last server, unless a connection was
      accepted on it since. */
  function Listening(start: Option<nat>, qs: seq<Request>, ts: seq<Turn>, k: nat): Option<nat>
    requires k <= |qs| <= |ts|
  {
    if k == 0 then start
    else
      var (before, q, t) := (Listening(start, qs, ts, k - 1), qs[k - 1], ts[k - 1]);
      if q.Listen? && t.server.Some? then Some(Word16(t.server.value.0, t.server.value.1))
      else if q.Accept? && t.connected then None
      else before
  }

  /** That is: a listener on port `p` is open if and only if some earlier request got a server on that port,
      no later one got another, and no client has been accepted since. */
  lemma {:induction false} ListeningIs(qs: seq<Request>, ts: seq<Turn>, k: nat, p: nat)
    requires k <= |qs| <= |ts|
    ensures Listening(None, qs, ts, k) == Some(p)
            <==> exists i :: 0 <= i < k && qs[i].Listen? && ts[i].server.Some?
                   && p == ts[i].server.value.0 + 256 * ts[i].server.value.1
                   && forall j :: i < j < k ==> !(qs[j].Listen? && ts[j].server.Some?) && !(qs[j].Accept? && ts[j].connected)
  {
    if k > 0 { ListeningIs(qs, ts, k - 1, p); }
  }

  /** Request by request the replies are those the turns call for. */
  ghost predicate Fitting(start: Option<nat>, qs: seq<Request>, ts: seq<Turn>, rs: seq<Reply>)
    requires |rs| <= |qs| <= |ts|
  {
    forall i :: 0 <= i < |rs| ==>
      && (qs[i].Connect? ==> rs[i] == if ts[i].created && ts[i].dialled then Fd(Dialled(qs[i].addr)) else Bad)
      && (qs[i].Listen? ==> ts[i].server.Some? && rs[i] == Port(ts[i].server.value.0, ts[i].server.value.1))
      && (qs[i].Accept? ==> rs[i] == if ts[i].connected && Listening(start, qs, ts, i).Some?
                                     then Fd(Accepted(Listening(start, qs, ts, i).value)) else Bad)
  }

  lemma FitMore(start: Option<nat>, qs: seq<Request>, ts: seq<Turn>, rs: seq<Reply>, r: Reply)
    requires |rs| < |qs| <= |ts| && Fitting(start, qs, ts, rs)
    requires var (i, q, t) := (|rs|, qs[|rs|], ts[|rs|]);
             && (q.Connect? ==> r == if t.created && t.dialled then Fd(Dialled(q.addr)) else Bad)
             && (q.Listen? ==> t.server.Some? && r == Port(t.server.value.0, t.server.value.1))
             && (q.Accept? ==> r == if t.connected && Listening(start, qs, ts, i).Some?
                                    then Fd(Accepted(Listening(start, qs, ts, i).value)) else Bad)
    ensures Fitting(start, qs, ts, rs + [r]) && Matches(qs[|rs|], r)
  {
    hide Listening;
  }

  /** The process after `k` requests. */
  ghost predicate Kept(n: Nobody, start: Option<nat>, qs: seq<Request>, ts: seq<Turn>, k: nat, rs: seq<Reply>)
    requires k == |rs| <= |qs| <= |ts|
    reads n, n.channel
  {
    && n.channel.input == Wire(qs[k..]) && Answered(qs, rs, k, n.channel.output, n.passed)
    && Fitting(start, qs, ts, rs) && n.Current() == Listening(start, qs, ts, k)
  }

  /** One round of the loop. */
  method ServeNext(n: Nobody, turns: seq<Turn>, k: nat, ghost qs: seq<Request>, ghost start: Option<nat>, ghost rs: seq<Reply>,
                   ghost good: bool)
    returns (exited: bool, r: Reply)
    requires k == |rs| < |turns| == |qs| && WellFormed(qs[k])
    requires good ==> AllServe(qs, turns) && Steady(n.channel.plan) && Kept(n, start, qs, turns, k, rs)
    modifies n, n.channel
    ensures Rest(n.channel.plan, old(n.channel.plan))
    ensures !exited && good ==> Kept(n, start, qs, turns, k + 1, rs + [r])
    ensures exited && good && Prompt(old(n.channel.plan)) ==> qs[k].Listen? && turns[k].server.None?
  {
    NeverFails(n.channel.plan);
    hide Answered, Wire, Encode, Octets, Cells, Steady, Prompt, Unframe, Matches, Fitting;
    ghost var wrote, handed := n.channel.output, n.passed;
    NextRequest(qs, k);
    var cmd := GetChar(n.channel, turns[k].garbage);
    if cmd == 0 { return true, Bad; }
    exited, r := Serve(n, cmd, turns[k], qs[k], Wire(qs[k + 1..]));
    if exited { return; }
    if good {
      FitMore(start, qs, turns, rs, r);
      AnsweredAppend(qs, rs, k, wrote, handed, r);
    }
  }

  /** The nobody process's loop, given the bytes of some requests: as long as create_client succeeds it
      reads them as those requests, however they arrive, and answers them in order: a Connect with the
      connection dialled, if the client can be reached; a Listen with the port of its server; an Accept with
      a connection to the current listener, if there is one and a client connects. The process ends only
      if create_client has failed, a call on the channel is cut short, or there is no server for the
      request that comes next. */
  method NobodyLoop(n: Nobody, turns: seq<Turn>, ghost qs: seq<Request>) returns (exited: bool, ghost rs: seq<Reply>)
    requires |turns| == |qs| && n.channel.input == Wire(qs) && forall i :: 0 <= i < |qs| ==> WellFormed(qs[i])
    requires n.channel.output == [] && n.passed == []
    modifies n, n.channel
    ensures |rs| <= |qs|
    ensures var plan := old(n.channel.plan);
            && !exited && (forall i :: 0 <= i < |qs| && qs[i].Connect? ==> turns[i].created)
            && (forall i :: 0 <= i < |plan| ==> plan[i].Interrupted? || (plan[i].Count? && plan[i].n > 0)) ==>
              n.channel.input == [] && Answered(qs, rs, |qs|, n.channel.output, n.passed)
    ensures var plan := old(n.channel.plan);
            && (forall i :: 0 <= i < |qs| && qs[i].Connect? ==> turns[i].created)
            && (forall i :: 0 <= i < |plan| ==> plan[i].Interrupted? || (plan[i].Count? && plan[i].n > 0)) ==>
              forall i :: 0 <= i < |rs| ==>
                && (qs[i].Connect? ==> rs[i] == if turns[i].dialled then Fd(Dialled(qs[i].addr)) else Bad)
                && (qs[i].Listen? ==> turns[i].server.Some? && rs[i] == Port(turns[i].server.value.0, turns[i].server.value.1))
                && (qs[i].Accept? ==>
                      var listening := Listening(old(n.Current()), qs, turns, i);
                      rs[i] == if turns[i].connected && listening.Some? then Fd(Accepted(listening.value)) else Bad)
    ensures exited && (forall i :: 0 <= i < |qs| && qs[i].Connect? ==> turns[i].created) ==>
              var plan := old(n.channel.plan);
              || (exists i :: 0 <= i < |plan| && !(plan[i].Count? && plan[i].n > 0))
              || (|rs| < |qs| && qs[|rs|].Listen? && turns[|rs|].server.None?)
  {
    exited, rs := false, [];
    assert qs[0..] == qs;
    NeverFails(n.channel.plan);
    ghost var start, good := n.Current(), AllServe(qs, turns) && Steady(n.channel.plan);
    for k := 0 to |turns|
      invariant Rest(n.channel.plan, old(n.channel.plan)) && |rs| == k && !exited
      invariant good ==> Kept(n, start, qs, turns, k, rs)
    {
      hide Kept, Steady, Prompt, AllServe, WellFormed;
      var r;
      exited, r := ServeNext(n, turns, k, qs, start, rs, good);
      if exited { break; }
      rs := rs + [r];
    }
  }

  lemma NextRequest(qs: seq<Request>, k: nat)
    requires k < |qs| && WellFormed(qs[k])
    ensures var w := Wire(qs[k..]); w != [] && w[0] != 0 && Asked(w[0], w[1..], qs[k], Wire(qs[k + 1..]))
    ensures forall plan :: Steady(plan) ==> Failed !in plan
  {
    assert qs[k..][1..] == qs[k + 1..];
    WireHead(qs[k..]);
  }
}
