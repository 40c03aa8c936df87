/** The FTP process's side of opening a data connection: PORT, PASV and establish_transfer, over
    the socketpair to the nobody process. */
module DataConnection {
  import opened Base
  import opened Streams
  import opened Sessions
  import AddressCodec
  import DataChannel

  /** What a fresh command finds, and every transfer command leaves. */
  ghost predicate AtHead(s: Session)
    reads s
  {
    s.dataFd == -1 && !s.shut && |s.portAddr| == DataChannel.ADDR_LEN && s.control != s.pic
  }

  method HandlePort(s: Session, garbage: seq<nat>)
    requires |garbage| == 6
    modifies s`portAddr, s`activePort, s`replies
    ensures s.activePort && s.replies == old(s.replies) + [PortOk200]
    ensures s.portAddr == AddressCodec.SockAddr(AddressCodec.Numbers(s.arg, true, 0, garbage))
  {
    s.GetPortAddr(garbage);
    s.Say(PortOk200);
  }

  /** Ask for a listener and read its port. */
  method AskPort(pic: Stream, garbage: seq<Byte>) returns (port: nat)
    requires |garbage| == 2
    modifies pic
    ensures port < 0x1_0000 && Rest(pic.plan, old(pic.plan))
    ensures Steady(old(pic.plan)) && |old(pic.input)| >= 2 ==> port == Word16(old(pic.input)[0], old(pic.input)[1])
    ensures Steady(old(pic.plan)) ==>
              && pic.output == old(pic.output) + DataChannel.Encode(DataChannel.Listen)
              && pic.input == old(pic.input)[Min(2, |old(pic.input)|)..]
  {
    NeverFails(pic.plan);
    hide Steady, Prompt;
    SendChar(pic, DataChannel.LISTEN_IN_PASV);
    var buf := new Byte[2](i requires 0 <= i < 2 => garbage[i]);
    var ret := ReadN(pic, buf, 0, 2);
    if |old(pic.input)| >= 2 && ret != -1 { assert buf[..] == old(pic.input)[..2]; }
    return Word16(buf[0], buf[1]);
  }

  /** handle_pasv; `garbage` is what the uninitialised port held. */
  method HandlePasv(s: Session, listenAddress: seq<Byte>, garbage: seq<Byte>)
    requires |listenAddress| == 4 && |garbage| == 2
    modifies s`activePasv, s`replies, s.pic
    ensures s.activePasv
    ensures exists port: nat :: port < 0x1_0000
              && s.replies == old(s.replies) + [Passive227(AddressCodec.PasvBody(listenAddress, port))]
              && (Steady(old(s.pic.plan)) && |old(s.pic.input)| >= 2 ==>
                    port == Word16(old(s.pic.input)[0], old(s.pic.input)[1]))
    ensures Rest(s.pic.plan, old(s.pic.plan))
    ensures Steady(old(s.pic.plan)) ==>
              && s.pic.output == old(s.pic.output) + DataChannel.Encode(DataChannel.Listen)
              && s.pic.input == old(s.pic.input)[Min(2, |old(s.pic.input)|)..]
  {
    hide Steady, Rest, Spoke, Word16, AddressCodec.PasvBody, DataChannel.Encode;
    var port := AskPort(s.pic, garbage);
    s.activePasv := true;
    s.Say(Passive227(AddressCodec.PasvBody(listenAddress, port)));
  }

  /** A nobody process that announces a listener's port this way is quoted to the client in a
      reply from which PORT-style parsing gets the listen address and that port back. */
  lemma AnnouncedIsUsable(listenAddress: seq<Byte>, reply: DataChannel.Reply, garbage: seq<nat>)
    requires |listenAddress| == 4 && reply.Port? && |garbage| == 6
    ensures var sent := DataChannel.Octets(DataChannel.Cells(reply));
            var port := Word16(sent[0], sent[1]);
            var a := AddressCodec.SockAddr(AddressCodec.Numbers(AddressCodec.PasvBody(listenAddress, port), true, 0, garbage));
            DataChannel.See(reply) == DataChannel.SawPort(port) && a[4..8] == listenAddress && Word16(a[3], a[2]) == port
  {
    AddressCodec.AddressRoundTrip(listenAddress, Word16(reply.lo, reply.hi), garbage);
  }

  /** The request establish_transfer makes. */
  function Request(activePort: bool, portAddr: seq<Byte>): DataChannel.Request {
    if activePort then DataChannel.Connect(portAddr) else DataChannel.Accept
  }

  /** What is left of the socketpair after the answer to a request. */
  function AnswerRest(was: seq<Byte>): seq<Byte> {
    if was == [] then [] else if was[0] == DataChannel.RESULT_OK then was[Min(2, |was|)..] else was[1..]
  }

  /** What the FTP process makes of the bytes `was` it finds on the socketpair: whether the
      transfer is on, the descriptor it got, and what is left. At end of stream get_char returns
      `garbage`. */
  predicate Understood(was: seq<Byte>, garbage: Byte, descriptor: Option<nat>, ok: bool, fd: int, rest: seq<Byte>) {
    var status := if was == [] then garbage else was[0];
    && status != 0
    && (ok <==> status != DataChannel.RESULT_BAD)
    && if status == DataChannel.RESULT_OK then |was| >= 2 && rest == was[2..] && descriptor == Some(fd)
       else fd == -1 && rest == was[Min(1, |was|)..]
  }

  /** A reply of the nobody process is understood as what it is, to its last byte. */
  lemma ReplyUnderstood(r: DataChannel.Reply, more: seq<Byte>, garbage: Byte, d: Option<nat>, ok: bool, fd: int, rest: seq<Byte>)
    requires !r.Port? && Understood(DataChannel.Octets(DataChannel.Cells(r)) + more, garbage, d, ok, fd, rest)
    ensures rest == more && (ok <==> r.Fd?) && (ok ==> d == Some(fd)) && (!ok ==> fd == -1)
  {
  }

  /** The nobody process answers, and no call fails or is interrupted. */
  predicate Calm(plan: seq<Outcome>, input: seq<Byte>, descriptor: Option<nat>) {
    && Prompt(plan) && input != [] && input[0] != 0
    && (input[0] == DataChannel.RESULT_OK ==> |input| >= 2 && descriptor.Some?)
  }

  /** recv_fd: one byte with a descriptor on it, or the process ends. */
  method RecvFd(fd: Stream, descriptor: Option<nat>) returns (exited: bool, received: int)
    modifies fd`plan, fd`input
    ensures Rest(fd.plan, old(fd.plan))
    ensures !exited ==> |old(fd.input)| >= 1 && fd.input == old(fd.input)[1..] && descriptor == Some(received)
    ensures exited ==> !Prompt(old(fd.plan)) || old(fd.input) == [] || descriptor.None?
  {
    var buf := new Byte[1](_ => NUL);
    var ret, eintr := fd.Read(buf, 0, 1);
    if ret != 1 || descriptor.None? { return true, -1; }
    return false, descriptor.value;
  }

  /** The answer to a request: a status and, when that is good, a descriptor. */
  method ReadAnswer(s: Session, garbage: Byte, descriptor: Option<nat>) returns (ok: bool, exited: bool)
    requires s.dataFd == -1
    modifies s`dataFd, s.pic`plan, s.pic`input
    ensures Rest(s.pic.plan, old(s.pic.plan))
    ensures !exited && !ok ==> s.dataFd == -1
    ensures exited ==> !Calm(old(s.pic.plan), old(s.pic.input), descriptor)
    ensures !exited && Steady(old(s.pic.plan)) ==>
              Understood(old(s.pic.input), garbage, descriptor, ok, s.dataFd, s.pic.input)
  {
    var res := GetChar(s.pic, garbage);
    if res == 0 { return false, true; }
    if res == DataChannel.RESULT_BAD { return false, false; }
    if res == DataChannel.RESULT_OK {
      var dead, fd := RecvFd(s.pic, descriptor);
      if dead { return false, true; }
      s.dataFd := fd;
    }
    return true, false;
  }

  lemma AcceptBytes()
    ensures DataChannel.Encode(DataChannel.Accept) == [DataChannel.ACCEPT_IN_PASV]
  {
  }

  lemma ConnectBytes(addr: seq<Byte>)
    requires |addr| == DataChannel.ADDR_LEN
    ensures DataChannel.Encode(DataChannel.Connect(addr)) == [DataChannel.CONNECT_IN_ACTV] + Frame(addr)
  {
    DataChannel.AddrHeader();
  }

  /** The bytes of an active-mode request. */
  method AskToConnect(pic: Stream, addr: seq<Byte>) returns (exited: bool)
    requires |addr| == DataChannel.ADDR_LEN
    modifies pic`plan, pic`output
    ensures Rest(pic.plan, old(pic.plan)) && (exited ==> !Prompt(old(pic.plan)))
    ensures !exited && Steady(old(pic.plan)) ==>
              pic.output == old(pic.output) + DataChannel.Encode(DataChannel.Connect(addr))
  {
    hide Steady, Prompt, DataChannel.Encode, Frame;
    ConnectBytes(addr);
    SendChar(pic, DataChannel.CONNECT_IN_ACTV);
    var sent := SendBuf(pic, addr);
    return !sent;
  }

  method EstablishTransfer(s: Session, garbage: Byte, descriptor: Option<nat>) returns (ok: bool, exited: bool)
    requires AtHead(s)
    modifies s`dataFd, s`replies, s.pic
    ensures Rest(s.pic.plan, old(s.pic.plan))
    ensures !exited && !ok ==> s.dataFd == -1
    ensures exited ==> s.activePort != s.activePasv && !Calm(old(s.pic.plan), old(s.pic.input), descriptor)
    ensures Spoke(old(s.View()), s.View(), if s.activePort || s.activePasv then [] else [UsePortOrPasv425])
    ensures s.activePort == s.activePasv ==>
              !ok && !exited && s.pic.output == old(s.pic.output) && s.pic.input == old(s.pic.input)
    ensures s.activePort != s.activePasv && !exited && Steady(old(s.pic.plan)) ==>
              && s.pic.output == old(s.pic.output) + DataChannel.Encode(Request(s.activePort, s.portAddr))
              && Understood(old(s.pic.input), garbage, descriptor, ok, s.dataFd, s.pic.input)
  {
    hide Understood, Steady, Spoke, DataChannel.Encode;
    SpokeNothing(s.View());
    assert DataChannel.Encode(DataChannel.Accept) == [DataChannel.ACCEPT_IN_PASV] by { AcceptBytes(); }
    if !s.activePasv && !s.activePort { s.Say(UsePortOrPasv425); return false, false; }
    if s.activePasv && s.activePort { return false, false; }
    if s.activePort {
      var died := AskToConnect(s.pic, s.portAddr);
      if died { return false, true; }
      ok, exited := ReadAnswer(s, garbage, descriptor);
      if exited || !ok { return; }
    }
    if s.activePasv {
      SendChar(s.pic, DataChannel.ACCEPT_IN_PASV);
      ok, exited := ReadAnswer(s, garbage, descriptor);
      if exited || !ok { return; }
    }
    return true, false;
  }
}
