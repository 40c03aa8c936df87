/** The FTP process and the nobody process talking over their socketpair, one byte at a time:
    a command byte, a length-prefixed address, a status byte, a byte carrying a descriptor, or
    a two-byte port. A run is the list of steps both processes take, in any interleaving. */
module DataChannel {
  import opened Base

  const CONNECT_IN_ACTV: Byte := 1
  const ACCEPT_IN_PASV: Byte := 2
  const LISTEN_IN_PASV: Byte := 3
  const RESULT_OK: Byte := 1
  const RESULT_BAD: Byte := 2
  const ADDR_LEN := 16  // sizeof(struct sockaddr_in)
  const ADDR_HEADER: seq<Byte> := [16, 0, 0, 0]  // that length as send_buf writes it

  lemma AddrHeader()
    ensures ADDR_HEADER == Bytes32(ADDR_LEN)
  {
  }

  datatype Request = Connect(addr: seq<Byte>) | Listen | Accept

  predicate WellFormed(r: Request) {
    r.Connect? ==> |r.addr| == ADDR_LEN
  }

  /** What the FTP process writes for a request: send_char, then for CONNECT a send_buf. */
  function Encode(r: Request): seq<Byte> {
    match r
    case Connect(addr) => [CONNECT_IN_ACTV] + ADDR_HEADER + addr
    case Listen => [LISTEN_IN_PASV]
    case Accept => [ACCEPT_IN_PASV]
  }

  /** Kernel objects a descriptor can name. */
  datatype Obj = Raw | Dialled(addr: seq<Byte>) | Listener(port: nat) | Accepted(port: nat)

  /** One byte in flight; SCM_RIGHTS rides on a byte. */
  datatype Cell = Plain(b: Byte) | Carrying(b: Byte, obj: Obj)

  datatype Reply = Bad | Fd(obj: Obj) | Port(lo: Byte, hi: Byte)

  function Cells(r: Reply): seq<Cell> {
    match r
    case Bad => [Plain(RESULT_BAD)]
    case Fd(obj) => [Plain(RESULT_OK), Carrying(0, obj)]
    case Port(lo, hi) => [Plain(lo), Plain(hi)]
  }

  function Octets(cs: seq<Cell>): (o: seq<Byte>)
    ensures |o| == |cs|
  {
    seq(|cs|, i requires 0 <= i < |cs| => cs[i].b)
  }

  /** The answer a request may get. */
  predicate Matches(q: Request, r: Reply) {
    match r
    case Bad => !q.Listen?
    case Fd(obj) => (q.Connect? && obj == Dialled(q.addr)) || (q.Accept? && obj.Accepted?)
    case Port(_, _) => q.Listen?
  }

  /** What the FTP process makes of an exchange. */
  datatype Outcome = SawBad | SawFd(obj: Obj) | SawPort(port: nat) | SawNothing

  function See(r: Reply): Outcome {
    match r case Bad => SawBad case Fd(obj) => SawFd(obj) case Port(lo, hi) => SawPort(Word16(lo, hi))
  }

  datatype Ftp =
    | Idle                                // command-loop head
    | Sending(req: Request, sent: nat)
    | Waiting(req: Request, got: seq<Byte>)
    | Transferring
    | Exited

  datatype Nobody =
    | AtCommand
    | Creating                            // CONNECT read, create_client next
    | ReadingAddr(fd: int, got: seq<Byte>)
    | Dialling(fd: int, addr: seq<Byte>)
    | Listening
    | Accepting
    | Replying(reply: Reply, sent: nat, closing: seq<int>)
    | Gone

  /** A request and the reply the nobody process decided on. History only. */
  datatype Entry = Entry(req: Request, reply: Option<Reply>)

  datatype State = State(
    f: Ftp, activePasv: bool, activePort: bool, portAddr: seq<Byte>, announced: nat, dataFd: Option<Obj>,
    n: Nobody, fds: map<int, Obj>, pasvListenFd: int,
    toN: seq<Byte>, toF: seq<Cell>,
    log: seq<Entry>, seen: seq<Outcome>)

  const INITIAL := State(Idle, false, false, [], 0, None, AtCommand, map[], -1, [], [], [], [])

  datatype Event =
    // commands of the client reaching the FTP process
    | PasvCommand | PortCommand(addr: seq<Byte>) | TransferCommand | EndOfTransfer | Quit
    // the FTP process on the channel
    | FtpWrite | FtpRead | FtpReadAtEof(garbage: nat) | FtpRecvFd
    // the nobody process
    | NobodyRead | NobodyReadAtEof(stray: Byte)
    | CreateClient(newFd: Option<int>) | Dial(ok: bool)
    | CreateServer(server: Option<(int, Byte, Byte)>) | AcceptConn(connFd: Option<int>)
    | NobodyWrite | NobodyClose | NobodyReturn

  // ---- the FTP process ----

  /** reset_data_fd */
  function Reset(s: State): State {
    s.(f := Idle, dataFd := None, activePasv := false, activePort := false)
  }

  function Ask(s: State, q: Request): State {
    s.(f := Sending(q, 0), log := s.log + [Entry(q, None)])
  }

  /** establish_transfer up to its first write; a refusal resets at once. */
  function BeginTransfer(s: State): State {
    if s.activePasv == s.activePort then Reset(s)
    else if s.activePort then Ask(s, Connect(s.portAddr))
    else Ask(s, Accept)
  }

  /** read_n of the port has returned. */
  function GotPort(s: State, port: nat, o: Outcome): State {
    s.(f := Idle, activePasv := true, announced := port, seen := s.seen + [o])
  }

  /** get_char of the status has returned. */
  function GotStatus(s: State, q: Request, status: Byte): State {
    if status == 0 then s.(f := Exited)
    else if status == RESULT_BAD then Reset(s.(seen := s.seen + [SawBad]))
    else if status == RESULT_OK then s.(f := Waiting(q, [RESULT_OK]))
    else s.(f := Transferring, seen := s.seen + [SawNothing])
  }

  function FtpStep(s: State, e: Event): Option<State> {
    match (s.f, e)
    case (Idle, PasvCommand) => Some(Ask(s, Listen))
    case (Idle, PortCommand(addr)) =>
      if |addr| == ADDR_LEN then Some(s.(activePort := true, portAddr := addr)) else None
    case (Idle, TransferCommand) => Some(BeginTransfer(s))
    case (Transferring, EndOfTransfer) => Some(Reset(s))
    case (Idle, Quit) => Some(s.(f := Exited))
    case (Transferring, Quit) => Some(s.(f := Exited))
    case (Sending(q, k), FtpWrite) =>
      if k >= |Encode(q)| then None
      else if s.n.Gone? then Some(s.(f := Exited))  // SIGPIPE
      else
        Some(s.(f := if k + 1 == |Encode(q)| then Waiting(q, []) else Sending(q, k + 1),
                toN := s.toN + [Encode(q)[k]]))
    case (Waiting(q, got), FtpRead) =>
      if s.toF == [] || (!q.Listen? && got != []) then None
      else
        var (b, t) := (s.toF[0].b, s.(toF := s.toF[1..]));
        if !q.Listen? then Some(GotStatus(t, q, b))
        else if got == [] then Some(t.(f := Waiting(q, [b])))
        else Some(GotPort(t, Word16(got[0], b), SawPort(Word16(got[0], b))))
    case (Waiting(q, got), FtpReadAtEof(g)) =>
      if s.toF != [] || !s.n.Gone? then None
      else if q.Listen? then Some(GotPort(s, g, SawNothing))      // the port is left uninitialised
      else if got == [] then Some(GotStatus(s, q, g % 256))       // so is the status
      else Some(s.(f := Exited))
    case (Waiting(q, got), FtpRecvFd) =>
      if s.toF == [] || q.Listen? || got == [] then None
      else
        var c := s.toF[0];
        if c.Carrying?
        then Some(s.(f := Transferring, dataFd := Some(c.obj), toF := s.toF[1..], seen := s.seen + [SawFd(c.obj)]))
        else Some(s.(f := Exited))
    case _ => None
  }

  // ---- the nobody process ----

  function Dispatch(b: Byte): Nobody {
    if b == 0 then Gone
    else if b == CONNECT_IN_ACTV then Creating
    else if b == LISTEN_IN_PASV then Listening
    else if b == ACCEPT_IN_PASV then Accepting
    else AtCommand
  }

  /** recv_buf byte by byte: four bytes of length, then that many of address. */
  function ReadAddrByte(fd: int, got: seq<Byte>): Nobody {
    if |got| < 4 then ReadingAddr(fd, got)
    else if Word32(got) > ADDR_LEN then Gone
    else if |got| >= 4 + Word32(got) then Dialling(fd, got[4..])
    else ReadingAddr(fd, got)
  }

  function Decide(s: State, r: Reply, closing: seq<int>): State {
    var i := |s.log| - 1;
    s.(n := Replying(r, 0, closing),
       log := if s.log == [] then [] else s.log[..i] + [s.log[i].(reply := Some(r))])
  }

  function NobodyStep(s: State, e: Event): Option<State> {
    match (s.n, e)
    case (AtCommand, NobodyRead) =>
      if s.toN == [] then None else Some(s.(n := Dispatch(s.toN[0]), toN := s.toN[1..]))
    case (AtCommand, NobodyReadAtEof(g)) =>
      if s.toN == [] && s.f.Exited? then Some(s.(n := Dispatch(g))) else None
    case (ReadingAddr(fd, got), NobodyRead) =>
      if s.toN == [] then None else Some(s.(n := ReadAddrByte(fd, got + [s.toN[0]]), toN := s.toN[1..]))
    case (ReadingAddr(fd, got), NobodyReadAtEof(_)) =>
      if s.toN == [] && s.f.Exited? then Some(s.(n := Gone)) else None
    case (Creating, CreateClient(None)) => Some(Decide(s, Bad, []))
    case (Creating, CreateClient(Some(fd))) =>
      if fd in s.fds then None else Some(s.(n := ReadingAddr(fd, []), fds := s.fds[fd := Raw]))
    case (Dialling(fd, addr), Dial(ok)) =>
      if ok then Some(Decide(s, Fd(Dialled(addr)), [fd]).(fds := s.fds[fd := Dialled(addr)]))
      else Some(Decide(s, Bad, []).(fds := s.fds - {fd}))
    case (Listening, CreateServer(None)) => Some(s.(n := Gone))
    case (Listening, CreateServer(Some((fd, lo, hi)))) =>
      if fd in s.fds then None
      else Some(Decide(s, Port(lo, hi), []).(fds := s.fds[fd := Listener(Word16(lo, hi))], pasvListenFd := fd))
    case (Accepting, AcceptConn(None)) => Some(Decide(s, Bad, []))
    case (Accepting, AcceptConn(Some(fd))) =>
      if fd in s.fds || s.pasvListenFd !in s.fds || !s.fds[s.pasvListenFd].Listener? then None
      else
        var obj := Accepted(s.fds[s.pasvListenFd].port);
        Some(Decide(s, Fd(obj), [s.pasvListenFd, fd]).(fds := s.fds[fd := obj]))
    case (Replying(r, j, closing), NobodyWrite) =>
      if j >= |Cells(r)| then None
      else if s.f.Exited? then Some(s.(n := Gone))  // SIGPIPE
      else Some(s.(n := Replying(r, j + 1, closing), toF := s.toF + [Cells(r)[j]]))
    case (Replying(r, j, closing), NobodyClose) =>
      if j < |Cells(r)| || closing == [] then None
      else Some(s.(n := Replying(r, j, closing[1..]), fds := s.fds - {closing[0]}))
    case (Replying(r, j, closing), NobodyReturn) =>
      if j < |Cells(r)| || closing != [] then None else Some(s.(n := AtCommand))
    case _ => None
  }

  predicate OfFtp(e: Event) {
    e.PasvCommand? || e.PortCommand? || e.TransferCommand? || e.EndOfTransfer? || e.Quit?
    || e.FtpWrite? || e.FtpRead? || e.FtpReadAtEof? || e.FtpRecvFd?
  }

  function Step(s: State, e: Event): Option<State> {
    if OfFtp(e) then FtpStep(s, e) else NobodyStep(s, e)
  }

  function Run(es: seq<Event>): Option<State> {
    if es == [] then Some(INITIAL)
    else
      var s := Run(es[..|es| - 1]);
      if s.None? then None else Step(s.value, es[|es| - 1])
  }

  // ---- the invariant while create_client succeeds ----

  predicate Alive(s: State) { !s.f.Exited? && !s.n.Gone? }

  /** The nobody process is done with the previous request, up to closing descriptors. */
  predicate Finished(n: Nobody) {
    n.AtCommand? || (n.Replying? && n.sent == |Cells(n.reply)|)
  }

  /** How many bytes of request `q` the nobody process has read. */
  function Consumed(n: Nobody, q: Request): Option<nat> {
    match n
    case Creating => if q.Connect? then Some(1) else None
    case ReadingAddr(_, got) =>
      if q.Connect? && 1 + |got| < |Encode(q)| && got == Encode(q)[1..1 + |got|] then Some(1 + |got|) else None
    case Dialling(_, addr) => if q.Connect? && addr == q.addr then Some(|Encode(q)|) else None
    case Listening => if q.Listen? then Some(1) else None
    case Accepting => if q.Accept? then Some(1) else None
    case _ => if Finished(n) then Some(0) else None
  }

  ghost predicate Exchange(s: State, q: Request, written: nat) {
    && |s.log| == |s.seen| + 1 && s.log[|s.seen|] == Entry(q, None) && WellFormed(q)
    && s.toF == []
    && Consumed(s.n, q).Some?
    && Consumed(s.n, q).value <= written <= |Encode(q)|
    && s.toN == Encode(q)[Consumed(s.n, q).value..written]
  }

  ghost predicate Answer(s: State, q: Request, got: seq<Byte>, r: Reply) {
    && |s.log| == |s.seen| + 1 && s.log[|s.seen|] == Entry(q, Some(r)) && Matches(q, r)
    && s.toN == []
    && var sent := if s.n.Replying? then s.n.sent else |Cells(r)|;
    && (s.n.AtCommand? || (s.n.Replying? && s.n.reply == r))
    && |got| <= sent <= |Cells(r)| && |got| < |Cells(r)|
    && got == Octets(Cells(r))[..|got|]
    && s.toF == Cells(r)[|got|..sent]
  }

  ghost predicate ChannelInv(s: State) {
    match s.f
    case Idle =>
      Finished(s.n) && s.toN == [] && s.toF == [] && |s.log| == |s.seen| && s.dataFd.None?
    case Transferring =>
      Finished(s.n) && s.toN == [] && s.toF == [] && |s.log| == |s.seen| && s.dataFd.Some?
    case Sending(q, k) => k < |Encode(q)| && Exchange(s, q, k) && s.dataFd.None?
    case Waiting(q, got) =>
      && s.dataFd.None?
      && ((got == [] && Exchange(s, q, |Encode(q)|))
          || (s.log != [] && s.log[|s.log| - 1].reply.Some?
              && Answer(s, q, got, s.log[|s.log| - 1].reply.value)))
    case Exited => true
  }

  ghost predicate HistoryInv(s: State) {
    |s.seen| <= |s.log| &&
    forall i :: 0 <= i < |s.seen| ==>
      s.log[i].reply.Some? && Matches(s.log[i].req, s.log[i].reply.value) && s.seen[i] == See(s.log[i].reply.value)
  }

  /** A step that both processes survive. */
  ghost predicate Survives(s: State, e: Event) {
    Alive(s) && Step(s, e).Some? && Alive(Step(s, e).value)
  }

  lemma ChannelCommand(s: State, e: Event)
    requires ChannelInv(s) && Survives(s, e)
    requires e.PasvCommand? || e.PortCommand? || e.TransferCommand? || e.EndOfTransfer? || e.Quit?
    requires s.activePort ==> |s.portAddr| == ADDR_LEN
    ensures ChannelInv(Step(s, e).value)
  {
  }

  /** Sending or waiting, before any reply. */
  ghost predicate Asking(s: State, q: Request, written: nat) {
    && Exchange(s, q, written)
    && ((s.f == Sending(q, written) && written < |Encode(q)|) || (s.f == Waiting(q, []) && written == |Encode(q)|))
  }

  lemma FtpWriteState(s: State)
    requires Survives(s, FtpWrite)
    ensures s.f.Sending? && s.f.sent < |Encode(s.f.req)|
    ensures var (q, k) := (s.f.req, s.f.sent);
            Step(s, FtpWrite).value
            == s.(f := if k + 1 == |Encode(q)| then Waiting(q, []) else Sending(q, k + 1), toN := s.toN + [Encode(q)[k]])
  {
    hide Encode, NobodyStep;
  }

  /** One more byte of the request written. */
  lemma AskingGrows(s: State, t: State, q: Request, k: nat)
    requires Exchange(s, q, k) && k < |Encode(q)|
    requires t == s.(f := if k + 1 == |Encode(q)| then Waiting(q, []) else Sending(q, k + 1), toN := s.toN + [Encode(q)[k]])
    ensures Asking(t, q, k + 1)
  {
    var enc, c := Encode(q), Consumed(s.n, q).value;
    assert enc[c..k] + [enc[k]] == enc[c..k + 1];
    hide Encode, Consumed;
  }

  lemma ChannelFtpWrite(s: State)
    requires ChannelInv(s) && Survives(s, FtpWrite)
    ensures ChannelInv(Step(s, FtpWrite).value)
  {
    FtpWriteState(s);
    AskingGrows(s, Step(s, FtpWrite).value, s.f.req, s.f.sent);
    hide Step, Encode, Answer;
  }

  /** The next cell the FTP process reads is the next cell of the reply. */
  lemma AnswerRead(s: State, q: Request, got: seq<Byte>, r: Reply)
    requires Answer(s, q, got, r) && s.toF != []
    ensures s.toF[0] == Cells(r)[|got|]
    ensures |got| + 1 < |Cells(r)| ==> Answer(s.(toF := s.toF[1..]), q, got + [s.toF[0].b], r)
    ensures |got| + 1 == |Cells(r)| ==> s.toF[1..] == [] && Finished(s.n)
  {
  }

  lemma ChannelFtpRead(s: State, e: Event)
    requires ChannelInv(s) && Survives(s, e)
    requires e.FtpRead? || e.FtpRecvFd? || e.FtpReadAtEof?
    ensures ChannelInv(Step(s, e).value)
  {
    var q, got := s.f.req, s.f.got;
    assert Answer(s, q, got, s.log[|s.log| - 1].reply.value);
    var r := s.log[|s.log| - 1].reply.value;
    AnswerRead(s, q, got, r);
    var t := Step(s, e).value;
    if t.f.Waiting? {
      assert [] + [s.toF[0].b] == [s.toF[0].b];
      assert Answer(t, q, t.f.got, r);
    }
  }

  /** A nobody process that has started on a request has one to work on. */
  lemma SomeRequest(s: State) returns (q: Request, written: nat)
    requires ChannelInv(s) && Alive(s) && (!Finished(s.n) || s.toN != []) && !s.n.Replying?
    ensures Asking(s, q, written) && s.dataFd.None?
  {
    q := s.f.req;
    written := if s.f.Sending? then s.f.sent else |Encode(q)|;
  }

  lemma NextByte(q: Request, fd: int, got: seq<Byte>, b: Byte)
    requires WellFormed(q) && Consumed(ReadingAddr(fd, got), q).Some? && b == Encode(q)[1 + |got|]
    ensures Consumed(ReadAddrByte(fd, got + [b]), q) == Some(2 + |got|)
  {
    var enc, more := Encode(q), got + [b];
    assert more == enc[1..1 + |more|];
    if |more| >= 4 {
      assert more[0] == enc[1] == 16 && more[1] == enc[2] == 0 && more[2] == enc[3] == 0 && more[3] == enc[4] == 0;
      assert Word32(more) == ADDR_LEN;
    }
    if |more| == 4 + ADDR_LEN { assert more[4..] == q.addr; }
  }

  /** Reading one more byte of the request. */
  lemma AskingAdvances(s: State, t: State, q: Request, w: nat, c: nat)
    requires Asking(s, q, w) && Consumed(s.n, q) == Some(c) && s.toN != []
    requires t == s.(n := t.n, toN := s.toN[1..]) && Consumed(t.n, q) == Some(c + 1)
    ensures Asking(t, q, w)
  {
    hide Consumed, Encode;
    assert s.toN[1..] == Encode(q)[c + 1..w];
  }

  lemma ReadsNext(s: State, q: Request, w: nat, c: nat)
    requires Asking(s, q, w) && Consumed(s.n, q) == Some(c) && s.toN != []
    requires NobodyStep(s, NobodyRead).Some? && !NobodyStep(s, NobodyRead).value.n.Gone?
    ensures var t := NobodyStep(s, NobodyRead).value;
            t == s.(n := t.n, toN := s.toN[1..]) && Consumed(t.n, q) == Some(c + 1)
  {
    assert s.toN[0] == Encode(q)[c];
    if s.n.ReadingAddr? {
      NextByte(q, s.n.fd, s.n.got, Encode(q)[c]);
    } else {
      assert c == 0 && s.n.AtCommand?;
    }
  }

  lemma ChannelNobodyRead(s: State)
    requires ChannelInv(s) && Survives(s, NobodyRead)
    ensures ChannelInv(Step(s, NobodyRead).value)
  {
    var q, w := SomeRequest(s);
    var t := Step(s, NobodyRead).value;
    ReadsNext(s, q, w, Consumed(s.n, q).value);
    AskingAdvances(s, t, q, w, Consumed(s.n, q).value);
    hide Step, Encode, Consumed, Answer;
  }

  /** Deciding a reply turns the pending exchange into an answer none of which is sent. */
  lemma Decided(s: State, q: Request, r: Reply, closing: seq<int>)
    requires Asking(s, q, |Encode(q)|) && Matches(q, r) && Consumed(s.n, q) == Some(|Encode(q)|)
    ensures Answer(Decide(s, r, closing), q, [], r)
    ensures Decide(s, r, closing).f == Waiting(q, [])
  {
    var enc := Encode(q);
    assert enc[|enc|..|enc|] == [];
  }

  lemma ChannelCreateClient(s: State, fd: int)
    requires ChannelInv(s) && Survives(s, CreateClient(Some(fd)))
    ensures ChannelInv(Step(s, CreateClient(Some(fd))).value)
  {
    var q, w := SomeRequest(s);
    assert Asking(Step(s, CreateClient(Some(fd))).value, q, w);
  }

  /** The step `e` decides a reply that fits `q`. */
  ghost predicate DecidesFor(s: State, e: Event, q: Request) {
    Step(s, e).Some? &&
    var t := Step(s, e).value;
    t.n.Replying? && Matches(q, t.n.reply)
    && t == Decide(s, t.n.reply, t.n.closing).(fds := t.fds, pasvListenFd := t.pasvListenFd)
  }

  lemma DialDecides(s: State, ok: bool, q: Request)
    requires Survives(s, Dial(ok)) && Consumed(s.n, q) == Some(|Encode(q)|)
    ensures DecidesFor(s, Dial(ok), q)
  {
    hide FtpStep, Word16, Word32, Cells, Encode;
  }

  lemma ServerDecides(s: State, server: Option<(int, Byte, Byte)>, q: Request)
    requires Survives(s, CreateServer(server)) && Consumed(s.n, q) == Some(|Encode(q)|)
    ensures DecidesFor(s, CreateServer(server), q)
  {
    hide FtpStep, Word16, Word32, Cells, Encode;
  }

  lemma AcceptDecides(s: State, fd: Option<int>, q: Request)
    requires Survives(s, AcceptConn(fd)) && Consumed(s.n, q) == Some(|Encode(q)|)
    ensures DecidesFor(s, AcceptConn(fd), q)
  {
    hide FtpStep, Word16, Word32, Cells, Encode;
  }

  /** A decided reply answers the request the nobody process was working on. */
  lemma DecisionMatches(s: State, e: Event, q: Request)
    requires Survives(s, e) && (e.Dial? || e.CreateServer? || e.AcceptConn?) && Consumed(s.n, q) == Some(|Encode(q)|)
    ensures DecidesFor(s, e, q)
  {
    hide Survives, DecidesFor, Consumed, Encode;
    if e.Dial? { DialDecides(s, e.ok, q); }
    else if e.CreateServer? { ServerDecides(s, e.server, q); }
    else { AcceptDecides(s, e.connFd, q); }
  }

  /** A nobody process about to decide has read the whole request. */
  lemma RequestRead(s: State, e: Event) returns (q: Request)
    requires ChannelInv(s) && Survives(s, e)
    requires e.Dial? || e.CreateServer? || e.AcceptConn?
    ensures Asking(s, q, |Encode(q)|) && Consumed(s.n, q) == Some(|Encode(q)|) && s.dataFd.None?
  {
    hide ChannelInv, FtpStep, Answer, Word16, Word32, Encode;
    var w;
    q, w := SomeRequest(s);
    OneByte(q);
  }

  lemma OneByte(q: Request)
    ensures !q.Connect? ==> |Encode(q)| == 1
  {
  }

  lemma AnswerInv(t: State, q: Request, r: Reply)
    requires Answer(t, q, [], r) && t.f == Waiting(q, []) && t.dataFd.None? && t.log[|t.log| - 1].reply == Some(r)
    ensures ChannelInv(t)
  {
    hide Encode, Cells, Octets, Exchange;
  }

  lemma AnswerSame(s: State, t: State, q: Request, r: Reply)
    requires Answer(s, q, [], r) && t == s.(fds := t.fds, pasvListenFd := t.pasvListenFd)
    ensures Answer(t, q, [], r) && t.log[|t.log| - 1].reply == Some(r)
  {
    hide Encode, Cells, Octets, Matches;
  }

  lemma ChannelDecision(s: State, e: Event)
    requires ChannelInv(s) && Survives(s, e)
    requires e.Dial? || e.CreateServer? || e.AcceptConn?
    ensures ChannelInv(Step(s, e).value)
  {
    hide ChannelInv, Step, Encode, Consumed, Matches, Answer, Asking;
    var q := RequestRead(s, e);
    DecisionMatches(s, e, q);
    var t := Step(s, e).value;
    var r, closing := t.n.reply, t.n.closing;
    Decided(s, q, r, closing);
    AnswerSame(Decide(s, r, closing), t, q, r);
    AnswerInv(t, q, r);
  }

  lemma ChannelNobodyWrite(s: State)
    requires ChannelInv(s) && Survives(s, NobodyWrite)
    ensures ChannelInv(Step(s, NobodyWrite).value)
  {
    var q, got, r, j := s.f.req, s.f.got, s.log[|s.log| - 1].reply.value, s.n.sent;
    assert Answer(s, q, got, r);
    assert Cells(r)[|got|..j] + [Cells(r)[j]] == Cells(r)[|got|..j + 1];
    assert Answer(Step(s, NobodyWrite).value, q, got, r);
  }

  /** Closing descriptors and going back to the loop is invisible on the channel. */
  lemma ChannelNobodyEnd(s: State, e: Event)
    requires ChannelInv(s) && Survives(s, e)
    requires e.NobodyClose? || e.NobodyReturn?
    ensures ChannelInv(Step(s, e).value)
  {
    var t := Step(s, e).value;
    assert Finished(s.n) && Finished(t.n);
    assert t == s.(n := t.n, fds := t.fds);
    if s.f.Sending? {
      assert Exchange(t, s.f.req, s.f.sent);
    } else if s.f.Waiting? {
      EndInvisible(s, t);
    }
  }

  lemma EndInvisible(s: State, t: State)
    requires ChannelInv(s) && s.f.Waiting? && t == s.(n := t.n, fds := t.fds)
    requires s.n.Replying? && Finished(s.n) && (t.n.AtCommand? || (t.n.Replying? && t.n == s.n.(closing := t.n.closing)))
    ensures ChannelInv(t)
  {
    var q, got := s.f.req, s.f.got;
    if got == [] && Exchange(s, q, |Encode(q)|) {
      assert Exchange(t, q, |Encode(q)|);
    } else {
      assert Answer(t, q, got, s.log[|s.log| - 1].reply.value);
    }
  }

  lemma ChannelStep(s: State, e: Event)
    requires ChannelInv(s) && Survives(s, e) && e != CreateClient(None)
    requires s.activePort ==> |s.portAddr| == ADDR_LEN
    ensures ChannelInv(Step(s, e).value)
  {
    match e
    case FtpWrite => ChannelFtpWrite(s);
    case FtpRead => ChannelFtpRead(s, e);
    case FtpRecvFd => ChannelFtpRead(s, e);
    case FtpReadAtEof(_) => ChannelFtpRead(s, e);
    case NobodyRead => ChannelNobodyRead(s);
    case NobodyReadAtEof(_) =>
    case CreateClient(r) => ChannelCreateClient(s, r.value);
    case Dial(_) => ChannelDecision(s, e);
    case CreateServer(_) => ChannelDecision(s, e);
    case AcceptConn(_) => ChannelDecision(s, e);
    case NobodyWrite => ChannelNobodyWrite(s);
    case NobodyClose => ChannelNobodyEnd(s, e);
    case NobodyReturn => ChannelNobodyEnd(s, e);
    case _ => ChannelCommand(s, e);
  }

  predicate Decides(e: Event) { e.Dial? || e.CreateServer? || e.AcceptConn? }

  /** What an FTP step leaves alone: the nobody process and its descriptors; it may append a request. */
  lemma FtpChanges(s: State, e: Event)
    requires Survives(s, e) && OfFtp(e)
    ensures var t := Step(s, e).value;
            && t.n == s.n && t.fds == s.fds && t.pasvListenFd == s.pasvListenFd
            && (t.log == s.log || (t.f.Sending? && t.log == s.log + [Entry(t.f.req, None)]))
  {
    hide NobodyStep, Encode, Word16;
  }

  /** What a nobody step leaves alone: the FTP process; it may fill in the last reply. */
  lemma NobodyChanges(s: State, e: Event)
    requires Survives(s, e) && !OfFtp(e)
    ensures var t := Step(s, e).value;
            t == s.(n := t.n, fds := t.fds, pasvListenFd := t.pasvListenFd, toN := t.toN, toF := t.toF, log := t.log)
  {
    hide FtpStep, Cells, Word16, Word32, ReadAddrByte, Dispatch;
  }

  lemma NobodyLog(s: State, e: Event)
    requires Survives(s, e) && !OfFtp(e)
    ensures var t := Step(s, e).value;
            && (!Decides(e) && e != CreateClient(None) ==> t.log == s.log)
            && (Decides(e) && s.log != [] ==>
                  t.n.Replying? && t.log == s.log[..|s.log| - 1] + [s.log[|s.log| - 1].(reply := Some(t.n.reply))])
  {
    hide FtpStep, Cells, Word16, Word32, ReadAddrByte, Dispatch;
  }

  /** Every finished exchange had one reply, of the right kind, and was understood as such. */
  lemma HistoryRead(s: State, e: Event)
    requires ChannelInv(s) && HistoryInv(s) && Survives(s, e)
    requires e.FtpRead? || e.FtpRecvFd?
    ensures HistoryInv(Step(s, e).value)
  {
    var t, i := Step(s, e).value, |s.seen|;
    assert Answer(s, s.f.req, s.f.got, s.log[|s.log| - 1].reply.value);
    var r := s.log[i].reply.value;
    AnswerRead(s, s.f.req, s.f.got, r);
    assert t.log == s.log;
    assert t.seen == s.seen || t.seen == s.seen + [See(r)];
  }

  lemma HistoryStep(s: State, e: Event)
    requires ChannelInv(s) && HistoryInv(s) && Survives(s, e) && e != CreateClient(None)
    ensures HistoryInv(Step(s, e).value)
  {
    var t := Step(s, e).value;
    if e.FtpRead? || e.FtpRecvFd? {
      HistoryRead(s, e);
    } else {
      if Decides(e) { var q, w := SomeRequest(s); }
      if OfFtp(e) { FtpChanges(s, e); } else { NobodyLog(s, e); }
      SeenKept(s, e);
      HistoryPrefix(s, t);
    }
  }

  lemma SeenKept(s: State, e: Event)
    requires Survives(s, e) && !e.FtpRead? && !e.FtpRecvFd?
    ensures Step(s, e).value.seen == s.seen
  {
    if !OfFtp(e) { NobodyChanges(s, e); }
  }

  lemma HistoryPrefix(s: State, t: State)
    requires HistoryInv(s) && t.seen == s.seen && |t.log| >= |s.seen| && t.log[..|s.seen|] == s.log[..|s.seen|]
    ensures HistoryInv(t)
  {
    forall i | 0 <= i < |t.seen| ensures t.log[i] == s.log[i] {
      assert t.log[i] == t.log[..|s.seen|][i];
    }
  }

  // ---- listeners ----

  /** The listener the nobody process would accept on is open and is the announced one. */
  ghost predicate ListenerReady(s: State) {
    s.pasvListenFd in s.fds && s.fds[s.pasvListenFd] == Listener(s.announced)
  }

  ghost predicate Undecided(s: State) {
    s.f.Idle? || s.f.Sending? || (s.f.Waiting? && s.log != [] && s.log[|s.log| - 1].reply.None?)
  }

  ghost predicate ModeInv(s: State) {
    && (s.activePort ==> |s.portAddr| == ADDR_LEN)
    && (s.f.Sending? || s.f.Waiting? ==>
          (s.f.req.Connect? ==> s.activePort && !s.activePasv) && (s.f.req.Accept? ==> s.activePasv && !s.activePort))
  }

  ghost predicate ListenerInv(s: State) {
    && (s.activePasv && Undecided(s) ==> ListenerReady(s) && (s.n.Replying? ==> s.n.closing == []))
    && (s.f.Waiting? && s.f.req.Listen? && s.log != [] && s.log[|s.log| - 1].reply.Some? ==>
          var r := s.log[|s.log| - 1].reply.value;
          r.Port? && s.pasvListenFd in s.fds && s.fds[s.pasvListenFd] == Listener(Word16(r.lo, r.hi))
          && (s.n.Replying? ==> s.n.closing == []))
  }

  /** Descriptors a nobody process is working on are open and of the kind it takes them for. */
  ghost predicate OwnedInv(n: Nobody, fds: map<int, Obj>) {
    match n
    case ReadingAddr(fd, _) => fd in fds && fds[fd].Raw?
    case Dialling(fd, _) => fd in fds && fds[fd].Raw?
    case Replying(_, _, closing) =>
      || closing == []
      || (|closing| == 1 && closing[0] in fds && !fds[closing[0]].Listener?)
      || (|closing| == 2 && closing[0] in fds && closing[1] in fds
          && fds[closing[0]].Listener? && !fds[closing[1]].Listener?)
    case _ => true
  }

  function OpenListeners(fds: map<int, Obj>): set<int> {
    set fd | fd in fds && fds[fd].Listener?
  }

  /** Replies that announced a port, and replies that handed over an accepted connection. */
  function Announced(log: seq<Entry>): nat {
    if log == [] then 0
    else Announced(log[..|log| - 1]) + (if log[|log| - 1].reply.Some? && log[|log| - 1].reply.value.Port? then 1 else 0)
  }

  function TakenUp(log: seq<Entry>): nat {
    if log == [] then 0
    else TakenUp(log[..|log| - 1])
         + (if log[|log| - 1].req.Accept? && log[|log| - 1].reply.Some? && log[|log| - 1].reply.value.Fd? then 1 else 0)
  }

  ghost predicate CountInv(s: State) {
    |OpenListeners(s.fds)| + TakenUp(s.log)
    == Announced(s.log) + (if s.n.Replying? && |s.n.closing| == 2 then 1 else 0)
  }

  lemma ModeStep(s: State, e: Event)
    requires ModeInv(s) && Survives(s, e)
    ensures ModeInv(Step(s, e).value)
  {
    if OfFtp(e) { ModeFtp(s, e); } else { NobodyChanges(s, e); hide Step; }
  }

  lemma ModeFtp(s: State, e: Event)
    requires ModeInv(s) && Survives(s, e) && OfFtp(e)
    ensures ModeInv(Step(s, e).value)
  {
    hide NobodyStep, Encode, Word16;
  }

  lemma OwnedStep(s: State, e: Event)
    requires OwnedInv(s.n, s.fds) && Survives(s, e)
    ensures OwnedInv(Step(s, e).value.n, Step(s, e).value.fds)
  {
    if OfFtp(e) { FtpChanges(s, e); } else { OwnedNobody(s, e); }
  }

  lemma OwnedNobody(s: State, e: Event)
    requires OwnedInv(s.n, s.fds) && Survives(s, e) && !OfFtp(e)
    ensures OwnedInv(Step(s, e).value.n, Step(s, e).value.fds)
  {
    hide OwnedInv, Survives;
    if Decides(e) { OwnedDecision(s, e); } else { OwnedOther(s, e); }
  }

  lemma OwnedDecision(s: State, e: Event)
    requires OwnedInv(s.n, s.fds) && Survives(s, e) && Decides(e)
    ensures OwnedInv(Step(s, e).value.n, Step(s, e).value.fds)
  {
    hide FtpStep, Cells, Word16, Word32, Encode, Alive, Dispatch, ReadAddrByte;
    DecidedOwns(s, e);
    hide NobodyStep;
  }

  /** What a decision will close. */
  lemma DecidedOwns(s: State, e: Event)
    requires OwnedInv(s.n, s.fds) && Survives(s, e) && Decides(e)
    ensures var t := Step(s, e).value;
            && t.n.Replying?
            && (t.n.closing == []
                || (e.Dial? && t.n.closing == [s.n.fd] && t.n.closing[0] in t.fds && t.fds[t.n.closing[0]].Dialled?)
                || (e.AcceptConn? && e.connFd.Some? && t.n.closing == [s.pasvListenFd, e.connFd.value]
                    && t.fds == s.fds[e.connFd.value := t.fds[e.connFd.value]] && e.connFd.value !in s.fds
                    && s.pasvListenFd in s.fds && s.fds[s.pasvListenFd].Listener? && t.fds[e.connFd.value].Accepted?))
  {
    hide FtpStep, Cells, Word16, Word32, Encode;
  }

  lemma OwnedOther(s: State, e: Event)
    requires OwnedInv(s.n, s.fds) && Survives(s, e) && !OfFtp(e) && !Decides(e)
    ensures OwnedInv(Step(s, e).value.n, Step(s, e).value.fds)
  {
    hide FtpStep, Cells, Word16, Word32, Encode;
  }

  lemma ListenerFtp(s: State, e: Event)
    requires ChannelInv(s) && ModeInv(s) && ListenerInv(s)
    requires Survives(s, e) && OfFtp(e)
    ensures ListenerInv(Step(s, e).value)
  {
    if e.FtpRead? || e.FtpRecvFd? {
      assert Answer(s, s.f.req, s.f.got, s.log[|s.log| - 1].reply.value);
      AnswerRead(s, s.f.req, s.f.got, s.log[|s.log| - 1].reply.value);
    }
  }

  lemma ListenerDecision(s: State, e: Event)
    requires ChannelInv(s) && ModeInv(s) && ListenerInv(s)
    requires Survives(s, e) && Decides(e)
    ensures ListenerInv(Step(s, e).value)
  {
    var q, w := SomeRequest(s);
    assert s.f == Waiting(q, []) && w == |Encode(q)|;
    NobodyLog(s, e);
    NobodyChanges(s, e);
    DecisionReply(s, e);
    if e.CreateServer? { ListenerCreated(s, e); }
    hide Step, Octets, Cells, Encode, Consumed, ChannelInv;
  }

  lemma ListenerCreated(s: State, e: Event)
    requires Survives(s, e) && e.CreateServer? && e.server.Some?
    ensures var t, (fd, lo, hi) := Step(s, e).value, e.server.value;
            t.pasvListenFd == fd && fd in t.fds && t.fds[fd] == Listener(Word16(lo, hi))
  {
    hide FtpStep, Word16, Word32, Cells, Encode;
  }

  lemma ListenerOther(s: State, e: Event)
    requires ChannelInv(s) && ModeInv(s) && OwnedInv(s.n, s.fds) && ListenerInv(s)
    requires Survives(s, e) && !OfFtp(e) && !Decides(e) && e != CreateClient(None)
    ensures ListenerInv(Step(s, e).value)
  {
    hide FtpStep, Word32;
    NobodyLog(s, e);
    if e.CreateClient? { var q, w := SomeRequest(s); }
  }

  /** Accepting only ever happens on the announced listener. */
  lemma AcceptsReady(s: State)
    requires ChannelInv(s) && ModeInv(s) && ListenerInv(s) && Alive(s) && s.n.Accepting?
    ensures ListenerReady(s)
  {
    var q, w := SomeRequest(s);
  }

  lemma CountAppend(log: seq<Entry>, en: Entry)
    ensures Announced(log + [en]) == Announced(log) + (if en.reply.Some? && en.reply.value.Port? then 1 else 0)
    ensures TakenUp(log + [en])
            == TakenUp(log) + (if en.req.Accept? && en.reply.Some? && en.reply.value.Fd? then 1 else 0)
  {
    assert (log + [en])[..|log + [en]| - 1] == log;
  }

  lemma ListenersKept(fds: map<int, Obj>, fd: int, o: Obj)
    ensures fd !in fds || !fds[fd].Listener? ==>
              OpenListeners(fds[fd := o]) == OpenListeners(fds) + (if o.Listener? then {fd} else {})
              && fd !in OpenListeners(fds) && OpenListeners(fds - {fd}) == OpenListeners(fds)
    ensures fd in fds && fds[fd].Listener? ==>
              fd in OpenListeners(fds) && OpenListeners(fds - {fd}) == OpenListeners(fds) - {fd}
  {
  }

  /** What deciding on a reply does to the open descriptors. */
  lemma FdsChange(s: State, e: Event)
    requires OwnedInv(s.n, s.fds) && Survives(s, e) && Decides(e)
    ensures var after := Step(s, e).value.fds;
      match e
      case Dial(ok) =>
        s.n.Dialling? && after == if ok then s.fds[s.n.fd := Dialled(s.n.addr)] else s.fds - {s.n.fd}
      case CreateServer(r) =>
        r.Some? && r.value.0 !in s.fds
        && after == s.fds[r.value.0 := Listener(Word16(r.value.1, r.value.2))]
      case AcceptConn(fd) =>
        if fd.None? then after == s.fds
        else fd.value !in s.fds && exists p :: after == s.fds[fd.value := Accepted(p)]
      case _ => true
  {
    hide FtpStep, Word16, Word32, Cells;
    if e.AcceptConn? && e.connFd.Some? {
      assert Step(s, e).value.fds == s.fds[e.connFd.value := Accepted(s.fds[s.pasvListenFd].port)];
    }
  }

  lemma FdsDecision(s: State, e: Event)
    requires OwnedInv(s.n, s.fds) && Survives(s, e) && Decides(e)
    ensures |OpenListeners(Step(s, e).value.fds)| == |OpenListeners(s.fds)| + (if e.CreateServer? then 1 else 0)
  {
    FdsChange(s, e);
    if e.Dial? {
      ListenersKept(s.fds, s.n.fd, Dialled(s.n.addr));
    } else if e.CreateServer? {
      hide Step, Word16, OpenListeners;
      ListenersKept(s.fds, e.server.value.0, Listener(Word16(e.server.value.1, e.server.value.2)));
    } else if e.connFd.Some? {
      hide Step, OpenListeners;
      var p :| Step(s, e).value.fds == s.fds[e.connFd.value := Accepted(p)];
      ListenersKept(s.fds, e.connFd.value, Accepted(p));
    }
  }

  lemma FdsOther(s: State, e: Event)
    requires OwnedInv(s.n, s.fds) && Survives(s, e) && !OfFtp(e) && !Decides(e) && e != CreateClient(None)
    ensures |OpenListeners(Step(s, e).value.fds)|
         == |OpenListeners(s.fds)| - (if e.NobodyClose? && |s.n.closing| == 2 then 1 else 0)
  {
    hide FtpStep, OpenListeners, Word16, Word32, Cells, Decide;
    if e.CreateClient? {
      ListenersKept(s.fds, e.newFd.value, Raw);
    } else if e.NobodyClose? {
      ListenersKept(s.fds, s.n.closing[0], Raw);
    } else {
      assert Step(s, e).value.fds == s.fds;
    }
  }

  /** The reply decided on, and what is closed after it, by event. */
  lemma DecisionReply(s: State, e: Event)
    requires Survives(s, e) && Decides(e)
    ensures var n := Step(s, e).value.n;
      match e
      case Dial(ok) => s.n.Dialling? && n == if ok then Replying(Fd(Dialled(s.n.addr)), 0, [s.n.fd]) else Replying(Bad, 0, [])
      case CreateServer(r) => r.Some? && n == Replying(Port(r.value.1, r.value.2), 0, [])
      case AcceptConn(fd) => if fd.None? then n == Replying(Bad, 0, [])
                             else n.Replying? && n.reply.Fd? && n.closing == [s.pasvListenFd, fd.value]
      case _ => true
  {
    hide FtpStep, Word16, Word32, Cells, Encode;
  }

  lemma DecisionCounts(s: State, e: Event)
    requires Survives(s, e) && Decides(e)
    ensures var t := Step(s, e).value;
            && t.n.Replying?
            && (e.CreateServer? ==> t.n.reply.Port? && t.n.closing == [])
            && (e.AcceptConn? ==> (t.n.reply == Bad && t.n.closing == []) || (t.n.reply.Fd? && |t.n.closing| == 2))
            && (e.Dial? ==> !t.n.reply.Port? && |t.n.closing| <= 1)
  {
    DecisionReply(s, e);
    hide Step;
  }

  lemma DecisionLog(s: State, e: Event) returns (q: Request)
    requires ChannelInv(s) && Survives(s, e) && Decides(e)
    ensures var t, before := Step(s, e).value, s.log[..|s.log| - 1];
            && t.n.Replying?
            && s.log == before + [Entry(q, None)] && t.log == before + [Entry(q, Some(t.n.reply))]
            && q.Accept? == e.AcceptConn? && !s.n.Replying?
  {
    var w;
    q, w := SomeRequest(s);
    NobodyLog(s, e);
    hide FtpStep, Cells, Word16, Word32, Encode;
  }

  lemma CountDecision(s: State, e: Event)
    requires ChannelInv(s) && OwnedInv(s.n, s.fds) && CountInv(s)
    requires Survives(s, e) && Decides(e)
    ensures CountInv(Step(s, e).value)
  {
    hide ChannelInv, OwnedInv, OpenListeners, Announced, TakenUp, Step, OfFtp;
    var q := DecisionLog(s, e);
    assert !OfFtp(e) by { DecidesNotFtp(e); }
    FdsDecision(s, e);
    DecisionCounts(s, e);
    var t, before := Step(s, e).value, s.log[..|s.log| - 1];
    CountAppend(before, Entry(q, None));
    CountAppend(before, Entry(q, Some(t.n.reply)));
  }

  lemma DecidesNotFtp(e: Event)
    requires Decides(e)
    ensures !OfFtp(e)
  {
  }

  lemma CountStep(s: State, e: Event)
    requires ChannelInv(s) && OwnedInv(s.n, s.fds) && CountInv(s)
    requires Survives(s, e) && e != CreateClient(None)
    ensures CountInv(Step(s, e).value)
  {
    if Decides(e) {
      CountDecision(s, e);
    } else if OfFtp(e) {
      FtpChanges(s, e);
      var t := Step(s, e).value;
      if t.log != s.log { CountAppend(s.log, Entry(t.f.req, None)); }
    } else {
      NobodyLog(s, e);
      FdsOther(s, e);
      CountOther(s, e);
    }
  }

  lemma CountOther(s: State, e: Event)
    requires OwnedInv(s.n, s.fds) && Survives(s, e) && !OfFtp(e) && !Decides(e) && e != CreateClient(None)
    ensures var n := Step(s, e).value.n;
            (n.Replying? && |n.closing| == 2) <==> (s.n.Replying? && |s.n.closing| == 2 && !e.NobodyClose?)
  {
    hide FtpStep, Cells, Word32, Encode;
  }

  // ---- after create_client has failed ----

  /** What the FTP process has written or is committed to write and the nobody process has not read. */
  function Unread(s: State): seq<Byte> {
    s.toN + (if s.f.Sending? && s.f.sent <= |Encode(s.f.req)| then Encode(s.f.req)[s.f.sent..] else [])
  }

  /** The unread address is about to be taken for commands: its length byte 16, then a 0. */
  ghost predicate Misread(s: State) {
    && (s.n.AtCommand? || (s.n.Replying? && s.n.reply.Bad? && s.n.closing == []))
    && (s.f.Sending? ==> s.f.sent < |Encode(s.f.req)|)
    && var u := Unread(s);
    || (|u| >= 2 && u[0] == ADDR_LEN && u[1] == 0)
    || (s.n.AtCommand? && |u| >= 1 && u[0] == 0)
  }

  lemma MisreadBegins(s: State)
    requires ChannelInv(s) && Survives(s, CreateClient(None))
    ensures Misread(Step(s, CreateClient(None)).value)
  {
    var q, w := SomeRequest(s);
    var enc, t := Encode(q), Step(s, CreateClient(None)).value;
    assert t.n == Replying(Bad, 0, []) && t.toN == s.toN && t.f == s.f;
    assert s.toN == enc[1..w] && enc[1] == ADDR_LEN && enc[2] == 0 && |enc| > 2;
    hide Encode, Step, ChannelInv, Consumed;
    CutAt(enc, 1, w);
    assert Unread(t) == enc[1..];
  }

  lemma CutAt(enc: seq<Byte>, i: nat, k: nat)
    requires i <= k <= |enc|
    ensures enc[i..k] + enc[k..] == enc[i..]
    ensures k < |enc| ==> enc[i..k] + [enc[k]] == enc[i..k + 1]
  {
  }

  lemma UnreadWrite(s: State)
    requires Survives(s, FtpWrite)
    ensures var t := Step(s, FtpWrite).value;
            Unread(t) == Unread(s) && t.n == s.n && (t.f.Sending? ==> t.f.sent < |Encode(t.f.req)|)
  {
    hide Encode, NobodyStep;
    MoveByte(s.toN, Encode(s.f.req), s.f.sent);
  }

  lemma MoveByte(sent: seq<Byte>, enc: seq<Byte>, k: nat)
    requires k < |enc|
    ensures (sent + [enc[k]]) + enc[k + 1..] == sent + enc[k..]
    ensures k + 1 == |enc| ==> (sent + [enc[k]]) + [] == sent + enc[k..]
  {
  }

  lemma UnreadKept(s: State, e: Event)
    requires Survives(s, e) && OfFtp(e) && !e.FtpWrite?
    ensures var t := Step(s, e).value;
            Unread(s) <= Unread(t) && t.n == s.n && (t.f.Sending? ==> t.f.sent < |Encode(t.f.req)|)
  {
    var t := Step(s, e).value;
    assert !s.f.Sending? && t.toN == s.toN && (t.f.Sending? ==> t.f.sent == 0);
  }

  lemma MisreadLasts(s: State, e: Event)
    requires Misread(s) && Survives(s, e)
    ensures Misread(Step(s, e).value)
    ensures !Decides(e) && !e.CreateClient?
  {
    hide Encode, Word16, Word32;
    var t, u := Step(s, e).value, Unread(s);
    if e.FtpWrite? {
      UnreadWrite(s);
    } else if OfFtp(e) {
      UnreadKept(s, e);
    } else if e.NobodyRead? {
      assert s.toN[0] == u[0] && Unread(t) == u[1..];
    } else {
      assert Unread(t) == u;
    }
  }

  // ---- all runs ----

  ghost predicate Good(s: State) {
    && ChannelInv(s) && HistoryInv(s) && ModeInv(s) && ListenerInv(s)
    && OwnedInv(s.n, s.fds) && CountInv(s)
  }

  ghost predicate CreateSucceeds(es: seq<Event>) {
    forall i :: 0 <= i < |es| ==> es[i] != CreateClient(None)
  }

  lemma DeadStaysDead(s: State, e: Event)
    requires Step(s, e).Some? && !Alive(s)
    ensures !Alive(Step(s, e).value)
  {
  }

  ghost predicate Healthy(es: seq<Event>, s: State) {
    Alive(s) ==> if CreateSucceeds(es) then Good(s) else Misread(s)
  }

  lemma HealthyStep(es: seq<Event>, s: State, e: Event)
    requires Healthy(es, s) && Step(s, e).Some?
    ensures Healthy(es + [e], Step(s, e).value)
  {
    var es' := es + [e];
    assert es'[|es|] == e && forall i :: 0 <= i < |es| ==> es'[i] == es[i];
    if !Alive(s) {
      DeadStaysDead(s, e);
    } else if Survives(s, e) {
      if !CreateSucceeds(es) {
        assert !CreateSucceeds(es');
        MisreadLasts(s, e);
      } else if e == CreateClient(None) {
        assert !CreateSucceeds(es');
        MisreadBegins(s);
      } else {
        GoodStep(s, e);
      }
    }
  }

  lemma Initially()
    ensures Healthy([], INITIAL)
  {
    assert OpenListeners(map[]) == {};
  }

  lemma {:induction false} RunLast(es: seq<Event>)
    requires es != [] && Run(es).Some?
    ensures Run(es[..|es| - 1]).Some? && Run(es) == Step(Run(es[..|es| - 1]).value, es[|es| - 1])
    ensures es == es[..|es| - 1] + [es[|es| - 1]]
  {
    hide Step;
  }

  lemma {:induction false} Reachable(es: seq<Event>)
    requires Run(es).Some?
    ensures Healthy(es, Run(es).value)
  {
    hide Healthy, Step;
    if es == [] {
      Initially();
    } else {
      RunLast(es);
      hide *;
      Reachable(es[..|es| - 1]);
      HealthyStep(es[..|es| - 1], Run(es[..|es| - 1]).value, es[|es| - 1]);
    }
  }

  lemma GoodStep(s: State, e: Event)
    requires Good(s) && Survives(s, e) && e != CreateClient(None)
    ensures Good(Step(s, e).value)
  {
    ChannelStep(s, e);
    HistoryStep(s, e);
    ModeStep(s, e);
    OwnedStep(s, e);
    CountStep(s, e);
    if OfFtp(e) { ListenerFtp(s, e); } else if Decides(e) { ListenerDecision(s, e); } else { ListenerOther(s, e); }
  }

  // ---- main results ----

  /** The nobody process, about to read a command, will find nothing or exactly one request. */
  ghost predicate Aligned(s: State) {
    Unread(s) == [] || exists q :: WellFormed(q) && Unread(s) == Encode(q)
  }

  /** Framing: the nobody process is aligned whenever it reaches its command loop if and only if
      create_client never failed; one failure loses the framing for as long as both live. */
  lemma FramingIffCreateSucceeds(es: seq<Event>)
    requires Run(es).Some? && Alive(Run(es).value) && Finished(Run(es).value.n)
    ensures Aligned(Run(es).value) <==> CreateSucceeds(es)
  {
    Reachable(es);
    var s := Run(es).value;
    hide ChannelInv, Misread, Aligned, CreateSucceeds, Unread, Run;
    if CreateSucceeds(es) { GoodIsAligned(s); } else { MisreadIsNot(s); }
  }

  lemma GoodIsAligned(s: State)
    requires ChannelInv(s) && Alive(s) && Finished(s.n)
    ensures Aligned(s)
  {
    if s.toN != [] || s.f.Sending? {
      var q, w := s.f.req, if s.f.Sending? then s.f.sent else |Encode(s.f.req)|;
      assert Asking(s, q, w);
      CutAt(Encode(q), 0, w);
      assert Unread(s) == Encode(q);
    }
  }

  lemma MisreadIsNot(s: State)
    requires Misread(s)
    ensures !Aligned(s)
  {
    forall q | WellFormed(q) ensures Unread(s) != Encode(q) {
      assert Encode(q)[0] == CONNECT_IN_ACTV || Encode(q)[0] == ACCEPT_IN_PASV || Encode(q)[0] == LISTEN_IN_PASV;
    }
  }

  lemma RunAppend(es: seq<Event>, e: Event)
    requires Run(es).Some?
    ensures Run(es + [e]) == Step(Run(es).value, e)
  {
    assert (es + [e])[..|es + [e]| - 1] == es;
  }

  /** The states of the run below, one per step. */
  function Losing(addr: seq<Byte>, k: nat): State
    requires |addr| == ADDR_LEN && k <= 6
  {
    var s1 := INITIAL.(activePort := true, portAddr := addr);
    if k == 0 then INITIAL
    else if k == 1 then s1
    else
      var s2 := s1.(f := Sending(Connect(addr), 0), log := [Entry(Connect(addr), None)]);
      if k == 2 then s2
      else if k == 3 then s2.(f := Sending(Connect(addr), 1), toN := [CONNECT_IN_ACTV])
      else if k == 4 then s2.(f := Sending(Connect(addr), 1), n := Creating)
      else
        s2.(f := Sending(Connect(addr), 1), log := [Entry(Connect(addr), Some(Bad))],
            n := Replying(Bad, k - 5, []), toF := if k == 5 then [] else [Plain(RESULT_BAD)])
  }

  lemma LosingFtp(addr: seq<Byte>, k: nat, e: Event)
    requires |addr| == ADDR_LEN && k < 3
    requires e == [PortCommand(addr), TransferCommand, FtpWrite][k]
    ensures Step(Losing(addr, k), e) == Some(Losing(addr, k + 1))
  {
    if k == 1 { assert [] + [Entry(Connect(addr), None)] == [Entry(Connect(addr), None)]; }
    if k == 2 {
      assert |Encode(Connect(addr))| == 21 && Encode(Connect(addr))[0] == CONNECT_IN_ACTV;
      assert [] + [CONNECT_IN_ACTV] == [CONNECT_IN_ACTV];
    }
    hide NobodyStep, Encode;
  }

  lemma LosingNobody(addr: seq<Byte>, k: nat, e: Event)
    requires |addr| == ADDR_LEN && 3 <= k < 6
    requires e == [NobodyRead, CreateClient(None), NobodyWrite][k - 3]
    ensures Step(Losing(addr, k), e) == Some(Losing(addr, k + 1))
  {
    assert Cells(Bad) == [Plain(RESULT_BAD)];
    if k == 3 { assert [CONNECT_IN_ACTV][1..] == [] && Dispatch(CONNECT_IN_ACTV) == Creating; }
    if k == 4 { assert Losing(addr, 4).log[..0] + [Entry(Connect(addr), Some(Bad))] == Losing(addr, 5).log; }
    if k == 5 { assert [] + [Plain(RESULT_BAD)] == [Plain(RESULT_BAD)]; }
    hide FtpStep, Cells, Encode;
  }

  lemma LosingStep(addr: seq<Byte>, k: nat, e: Event)
    requires |addr| == ADDR_LEN && k < 6
    requires e == [PortCommand(addr), TransferCommand, FtpWrite, NobodyRead, CreateClient(None), NobodyWrite][k]
    ensures Step(Losing(addr, k), e) == Some(Losing(addr, k + 1))
  {
    hide *;
    if k < 3 { LosingFtp(addr, k, e); } else { LosingNobody(addr, k, e); }
  }

  /** Such a run: an active-mode transfer whose create_client fails as soon as it is asked. */
  lemma FramingCanBeLost(addr: seq<Byte>) returns (es: seq<Event>)
    requires |addr| == ADDR_LEN
    ensures Run(es).Some? && Alive(Run(es).value) && Finished(Run(es).value.n) && !Aligned(Run(es).value)
  {
    var steps := [PortCommand(addr), TransferCommand, FtpWrite, NobodyRead, CreateClient(None), NobodyWrite];
    es := [];
    for k := 0 to 6
      invariant |es| == k && Run(es) == Some(Losing(addr, k))
      invariant k == 5 || k == 6 ==> !CreateSucceeds(es)
    {
      RunAppend(es, steps[k]);
      LosingStep(addr, k, steps[k]);
      es := es + [steps[k]];
      assert k == 4 ==> es[4] == CreateClient(None);
    }
    FramingIffCreateSucceeds(es);
  }

  /** After a failure the nobody process performs no further request while both live. */
  lemma NoServiceAfterFailure(es: seq<Event>, e: Event)
    requires Run(es).Some? && !CreateSucceeds(es) && Survives(Run(es).value, e)
    ensures !Decides(e) && !e.CreateClient?
  {
    Reachable(es);
    MisreadLasts(Run(es).value, e);
  }

  /** Request and reply: the exchanges are answered one for one, each by one reply of its own
      kind that the FTP process understood, with at most the last still open; between commands
      none is open and both channels are empty. */
  lemma OneReplyEach(es: seq<Event>)
    requires Run(es).Some? && Alive(Run(es).value) && CreateSucceeds(es)
    ensures var s := Run(es).value;
            && |s.seen| <= |s.log| <= |s.seen| + 1
            && (forall i :: 0 <= i < |s.seen| ==>
                  && s.log[i].reply.Some?
                  && match (s.log[i].req, s.log[i].reply.value)
                     case (Connect(addr), Fd(obj)) => obj == Dialled(addr) && s.seen[i] == SawFd(obj)
                     case (Accept, Fd(obj)) => obj.Accepted? && s.seen[i] == SawFd(obj)
                     case (Listen, Port(lo, hi)) => s.seen[i] == SawPort(lo as int + 256 * hi as int)
                     case (q, Bad) => !q.Listen? && s.seen[i] == SawBad
                     case _ => false)
            && (s.f.Idle? || s.f.Transferring? ==> |s.log| == |s.seen| && s.toN == [] && s.toF == [])
            && (s.dataFd.Some? <==> s.f.Transferring?)
  {
    Reachable(es);
  }

  /** The byte read as a command is the command byte of the request being made. */
  lemma CommandBytesOnly(es: seq<Event>)
    requires Run(es).Some? && Alive(Run(es).value) && CreateSucceeds(es)
    requires Run(es).value.n.AtCommand? && Run(es).value.toN != []
    ensures var s := Run(es).value;
            s.log != [] && s.toN[0] == Encode(s.log[|s.log| - 1].req)[0] && s.log[|s.log| - 1].reply.None?
  {
    Reachable(es);
    var q, w := SomeRequest(Run(es).value);
  }

  /** Listener agreement: between commands with passive mode set, and whenever the nobody process
      is about to accept, its listener is open and is the one whose port was announced last. */
  lemma ListenerAgreement(es: seq<Event>)
    requires Run(es).Some? && Alive(Run(es).value) && CreateSucceeds(es)
    ensures var s := Run(es).value;
            && (s.f.Idle? && s.activePasv ==> ListenerReady(s))
            && (s.n.Accepting? ==> ListenerReady(s))
            && (forall fd :: Survives(s, AcceptConn(Some(fd))) ==>
                  Step(s, AcceptConn(Some(fd))).value.n.reply == Fd(Accepted(s.announced)))
  {
    Reachable(es);
    var s := Run(es).value;
    if s.n.Accepting? { AcceptsReady(s); }
  }

  /** The reply the nobody process decides on in a run is the connection to the address of the request, if the client
      can be reached; the port of the new server; or a connection on the port last announced, if a client connects. */
  lemma DecidedAs(es: seq<Event>, e: Event)
    requires Run(es).Some? && Alive(Run(es).value) && CreateSucceeds(es)
    requires Survives(Run(es).value, e) && (e.Dial? || e.CreateServer? || e.AcceptConn?)
    ensures var (s, t) := (Run(es).value, Step(Run(es).value, e).value);
            && |t.log| == |s.log| > 0 && t.log[..|t.log| - 1] == s.log[..|s.log| - 1]
            && var (q, entry) := (s.log[|s.log| - 1].req, t.log[|t.log| - 1]);
            && entry.req == q
            && match e
               case Dial(ok) => q.Connect? && entry.reply == Some(if ok then Fd(Dialled(q.addr)) else Bad)
               case CreateServer(server) =>
                 q.Listen? && server.Some? && entry.reply == Some(Port(server.value.1, server.value.2))
               case AcceptConn(connFd) =>
                 q.Accept? && entry.reply == Some(if connFd.Some? then Fd(Accepted(s.announced)) else Bad)
               case _ => false
  {
    Reachable(es);
    var s := Run(es).value;
    var q := RequestRead(s, e);
    NobodyLog(s, e);
    DecisionReply(s, e);
    DecidingFor(s, e, q);
    if e.AcceptConn? && e.connFd.Some? {
      ListenerAgreement(es);
      assert Survives(s, AcceptConn(Some(e.connFd.value)));
    }
    hide Step, ChannelInv, Encode, Consumed, Run, Good;
  }

  lemma DecidingFor(s: State, e: Event, q: Request)
    requires Survives(s, e) && Decides(e) && Consumed(s.n, q) == Some(|Encode(q)|)
    ensures match e
            case Dial(_) => q.Connect? && s.n.Dialling? && s.n.addr == q.addr
            case CreateServer(_) => q.Listen?
            case _ => q.Accept?
  {
    hide FtpStep, Word16, Word32, Cells, Encode;
  }

  /** And a client can be accepted whenever the nobody process is about to. */
  lemma CanAccept(es: seq<Event>, fd: int)
    requires Run(es).Some? && Alive(Run(es).value) && CreateSucceeds(es)
    requires Run(es).value.n.Accepting? && fd !in Run(es).value.fds
    ensures Survives(Run(es).value, AcceptConn(Some(fd)))
  {
    ListenerAgreement(es);
    hide Run, Decide;
  }

  /** Descriptor leak, exactly: at its command loop the nobody process holds one open listener for
      every announced port that no accepted connection took up. */
  lemma ListenersConserved(es: seq<Event>)
    requires Run(es).Some? && Alive(Run(es).value) && CreateSucceeds(es) && Run(es).value.n.AtCommand?
    ensures var s := Run(es).value; |OpenListeners(s.fds)| == Announced(s.log) - TakenUp(s.log)
  {
    Reachable(es);
  }

  /** The states of one PASV from an idle state `s`, one per step. */
  function Passive(s: State, fd: int, k: nat): State
    requires k <= 9
  {
    var (open, reply) := (Entry(Listen, None), Port(0, 0));
    var asked := s.(log := s.log + [open]);
    var decided := asked.(log := s.log + [Entry(Listen, Some(reply))], fds := s.fds[fd := Listener(0)], pasvListenFd := fd);
    var heard := decided.(f := Idle, activePasv := true, announced := 0, seen := s.seen + [SawPort(0)]);
    if k == 0 then s
    else if k == 1 then asked.(f := Sending(Listen, 0))
    else if k == 2 then asked.(f := Waiting(Listen, []), toN := [LISTEN_IN_PASV])
    else if k == 3 then asked.(f := Waiting(Listen, []), n := Listening)
    else if k == 4 then decided.(f := Waiting(Listen, []), n := Replying(reply, 0, []))
    else if k == 5 then decided.(f := Waiting(Listen, []), n := Replying(reply, 1, []), toF := [Plain(0)])
    else if k == 6 then decided.(f := Waiting(Listen, [0]), n := Replying(reply, 1, []))
    else if k == 7 then decided.(f := Waiting(Listen, [0]), n := Replying(reply, 2, []), toF := [Plain(0)])
    else if k == 8 then heard.(n := Replying(reply, 2, []))
    else heard
  }

  function PassiveEvents(fd: int): (es: seq<Event>)
    ensures |es| == 9
  {
    [PasvCommand, FtpWrite, NobodyRead, CreateServer(Some((fd, 0, 0))), NobodyWrite, FtpRead, NobodyWrite, FtpRead, NobodyReturn]
  }

  ghost predicate Resting(s: State) {
    s.f.Idle? && s.n.AtCommand? && s.toN == [] && s.toF == []
  }

  lemma PassiveFtp(s: State, fd: int, k: nat)
    requires Resting(s) && (k == 0 || k == 1 || k == 5 || k == 7)
    ensures Step(Passive(s, fd, k), PassiveEvents(fd)[k]) == Some(Passive(s, fd, k + 1))
  {
    assert Encode(Listen) == [LISTEN_IN_PASV];
    assert [] + [LISTEN_IN_PASV] == [LISTEN_IN_PASV] && [Plain(0)][1..] == [];
    hide NobodyStep, Encode;
  }

  lemma PassiveServe(s: State, fd: int, k: nat)
    requires Resting(s) && fd !in s.fds && (k == 2 || k == 3)
    ensures Step(Passive(s, fd, k), PassiveEvents(fd)[k]) == Some(Passive(s, fd, k + 1))
  {
    assert [LISTEN_IN_PASV][1..] == [];
    var log := s.log + [Entry(Listen, None)];
    assert log[..|log| - 1] == s.log;
    hide FtpStep, Cells;
  }

  lemma PassiveReply(s: State, fd: int, k: nat)
    requires Resting(s) && (k == 4 || k == 6 || k == 8)
    ensures Step(Passive(s, fd, k), PassiveEvents(fd)[k]) == Some(Passive(s, fd, k + 1))
  {
    assert Cells(Port(0, 0)) == [Plain(0), Plain(0)];
    assert [] + [Plain(0)] == [Plain(0)];
    hide FtpStep, Cells;
  }

  lemma PassiveStep(s: State, fd: int, k: nat)
    requires Resting(s) && fd !in s.fds && k < 9
    ensures Step(Passive(s, fd, k), PassiveEvents(fd)[k]) == Some(Passive(s, fd, k + 1))
  {
    hide *;
    if k == 0 || k == 1 || k == 5 || k == 7 { PassiveFtp(s, fd, k); }
    else if k == 2 || k == 3 { PassiveServe(s, fd, k); }
    else { PassiveReply(s, fd, k); }
  }

  /** One PASV more in a run. */
  lemma OnePassive(es: seq<Event>, fd: int) returns (more: seq<Event>)
    requires Run(es).Some? && Resting(Run(es).value) && fd !in Run(es).value.fds
    ensures Run(more) == Some(Passive(Run(es).value, fd, 9))
  {
    var s := Run(es).value;
    more := es;
    for k := 0 to 9
      invariant Run(more) == Some(Passive(s, fd, k))
    {
      hide *;
      RunAppend(more, PassiveEvents(fd)[k]);
      PassiveStep(s, fd, k);
      more := more + [PassiveEvents(fd)[k]];
    }
  }

  /** The leak: a client that says PASV twice leaves the nobody process with two open listeners. */
  lemma TwoListeners() returns (es: seq<Event>)
    ensures Run(es).Some? && Alive(Run(es).value) && Run(es).value.n.AtCommand?
    ensures |OpenListeners(Run(es).value.fds)| == 2
  {
    assert Resting(INITIAL) && Run([]) == Some(INITIAL);
    es := OnePassive([], 3);
    es := OnePassive(es, 4);
    assert OpenListeners(Run(es).value.fds) == {3, 4};
  }

  // ---- the end of the FTP process ----

  /** get_char's stray byte: once the FTP process has exited and the channel is empty, the nobody process
      ends at its next read if and only if the byte its variable happens to hold is 0; with a byte that is
      no command it stays where it is. */
  lemma StrayByte(es: seq<Event>, stray: Byte)
    requires Run(es).Some? && Run(es).value.f.Exited? && Run(es).value.toN == [] && Run(es).value.n.AtCommand?
    ensures var t := Run(es + [NobodyReadAtEof(stray)]);
            t.Some? && (t.value.n.Gone? <==> stray == 0) && (stray > ACCEPT_IN_PASV && stray > LISTEN_IN_PASV ==> t == Run(es))
  {
    RunAppend(es, NobodyReadAtEof(stray));
    hide Run;
  }

  /** So it can outlive the FTP process for any number of reads. */
  lemma {:induction false} Outlives(es: seq<Event>, n: nat) returns (more: seq<Event>)
    requires Run(es).Some? && Run(es).value.f.Exited? && Run(es).value.toN == [] && Run(es).value.n.AtCommand?
    ensures |more| == |es| + n && Run(more) == Run(es) && more[..|es|] == es
  {
    hide Run;
    more := es;
    for k := 0 to n
      invariant |more| == |es| + k && Run(more) == Run(es) && more[..|es|] == es
    {
      StrayByte(more, 255);
      more := more + [NobodyReadAtEof(255)];
    }
  }

  // ---- progress ----

  predicate Internal(e: Event) {
    e.FtpWrite? || e.FtpRead? || e.FtpRecvFd? || (!OfFtp(e) && !e.NobodyReadAtEof?)
  }

  function Rank(n: Nobody): nat {
    match n
    case AtCommand => 0
    case Creating => 9
    case ReadingAddr(_, _) => 8
    case Dialling(_, _) => 8
    case Listening => 8
    case Accepting => 8
    case Replying(r, j, closing) => 1 + (if j <= |Cells(r)| then 2 * (|Cells(r)| - j) else 0) + |closing|
    case Gone => 0
  }

  /** Work left in an exchange. */
  function Work(s: State): nat {
    (if s.f.Sending? && s.f.sent <= |Encode(s.f.req)| then 12 * (|Encode(s.f.req)| - s.f.sent) else 0)
    + 10 * |s.toN| + |s.toF| + Rank(s.n)
  }

  lemma WorkDecreasesFtp(s: State, e: Event)
    requires Survives(s, e) && Internal(e) && OfFtp(e)
    ensures Work(Step(s, e).value) < Work(s)
  {
    var t := Step(s, e).value;
    if e.FtpWrite? {
      assert |t.toN| == |s.toN| + 1;
    } else {
      assert |t.toF| == |s.toF| - 1 && !t.f.Sending?;
    }
  }

  /** What a step of the nobody process does to its rank. */
  lemma RankDecreases(s: State, e: Event)
    requires Survives(s, e) && Internal(e) && !OfFtp(e)
    ensures var t := Step(s, e).value;
            && t.f == s.f
            && (if e.NobodyRead? then |t.toN| == |s.toN| - 1 && t.toF == s.toF && Rank(t.n) <= Rank(s.n) + 9
                else if e.NobodyWrite? then t.toN == s.toN && |t.toF| == |s.toF| + 1 && Rank(t.n) <= Rank(s.n) - 2
                else t.toN == s.toN && t.toF == s.toF && Rank(t.n) < Rank(s.n))
  {
    hide FtpStep, Word16, Encode;
    if Decides(e) { DecisionReply(s, e); }
  }

  lemma WorkDecreasesNobody(s: State, e: Event)
    requires Survives(s, e) && Internal(e) && !OfFtp(e)
    ensures Work(Step(s, e).value) < Work(s)
  {
    RankDecreases(s, e);
    hide Step, Rank, Encode;
  }

  /** The descriptor the kernel gives: the lowest from `from` on that is not open. */
  function Lowest(fds: map<int, Obj>, from: int): (fd: int)
    ensures fd >= from && fd !in fds && forall i :: from <= i < fd ==> i in fds
    decreases |Above(fds, from)|
  {
    if from !in fds then from else AboveShrinks(fds, from); Lowest(fds, from + 1)
  }

  function Above(fds: map<int, Obj>, from: int): set<int> {
    set k | k in fds.Keys && k >= from
  }

  lemma AboveShrinks(fds: map<int, Obj>, from: int)
    requires from in fds
    ensures |Above(fds, from + 1)| < |Above(fds, from)|
  {
    assert Above(fds, from) == Above(fds, from + 1) + {from};
  }

  predicate Busy(s: State) { s.f.Sending? || s.f.Waiting? }

  /** The FTP process can go on. */
  lemma FtpGoesOn(s: State) returns (e: Event)
    requires ChannelInv(s) && Alive(s) && (s.f.Sending? || (s.f.Waiting? && s.toF != []))
    ensures Internal(e) && OfFtp(e) && Survives(s, e)
  {
    if s.f.Sending? { return FtpWrite; }
    var r := s.log[|s.log| - 1].reply.value;
    assert Answer(s, s.f.req, s.f.got, r);
    AnswerRead(s, s.f.req, s.f.got, r);
    return if s.f.req.Listen? || s.f.got == [] then FtpRead else FtpRecvFd;
  }

  /** The nobody process can go on, at its command loop and in its services. */
  lemma NobodyReads(s: State)
    requires ChannelInv(s) && Alive(s) && s.f.Waiting? && (s.n.AtCommand? || s.n.ReadingAddr?) && s.toF == []
    ensures Survives(s, NobodyRead)
  {
    var q, c := s.f.req, Consumed(s.n, s.f.req).value;
    if s.f.got == [] && Exchange(s, q, |Encode(q)|) {
      assert s.toN[0] == Encode(q)[c];
      if s.n.ReadingAddr? { NextByte(q, s.n.fd, s.n.got, s.toN[0]); }
    }
  }

  lemma NobodyServes(s: State) returns (e: Event)
    requires Alive(s) && !s.n.AtCommand? && !s.n.ReadingAddr?
    ensures Internal(e) && !OfFtp(e) && e != CreateClient(None) && Survives(s, e)
  {
    var fd := Lowest(s.fds, 0);
    hide Cells, Word16, Encode;
    match s.n
    case Creating => e := CreateClient(Some(fd));
    case Dialling(_, _) => e := Dial(false);
    case Listening => e := CreateServer(Some((fd, 0, 0)));
    case Accepting => e := AcceptConn(None);
    case Replying(r, j, closing) =>
      e := if j < |Cells(r)| then NobodyWrite else if closing != [] then NobodyClose else NobodyReturn;
  }

  lemma NobodyGoesOn(s: State) returns (e: Event)
    requires ChannelInv(s) && Alive(s) && s.f.Waiting? && s.toF == []
    ensures Internal(e) && !OfFtp(e) && e != CreateClient(None) && Survives(s, e)
  {
    hide ChannelInv, Survives;
    if s.n.AtCommand? || s.n.ReadingAddr? {
      NobodyReads(s);
      e := NobodyRead;
    } else {
      e := NobodyServes(s);
    }
  }

  /** No deadlock: in every reachable state in the middle of an exchange one of the two processes has
      a step that both survive. */
  lemma NoDeadlock(es: seq<Event>) returns (e: Event)
    requires Run(es).Some? && Alive(Run(es).value) && CreateSucceeds(es) && Busy(Run(es).value)
    ensures Internal(e) && e != CreateClient(None) && Survives(Run(es).value, e)
  {
    Reachable(es);
    e := GoesOn(Run(es).value);
  }

  lemma GoesOn(s: State) returns (e: Event)
    requires Good(s) && Alive(s) && Busy(s)
    ensures Internal(e) && e != CreateClient(None) && Survives(s, e)
  {
    hide ChannelInv, Survives, HistoryInv, ModeInv, ListenerInv, OwnedInv, CountInv;
    if s.f.Sending? || s.toF != [] { e := FtpGoesOn(s); } else { e := NobodyGoesOn(s); }
  }

  function RunFrom(s: State, es: seq<Event>): Option<State>
    decreases |es|
  {
    if es == [] then Some(s)
    else if Step(s, es[0]).None? then None
    else RunFrom(Step(s, es[0]).value, es[1..])
  }

  /** Progress: whatever the schedule, an exchange is over within its work bound. */
  lemma {:induction false} ExchangesEnd(s: State, es: seq<Event>)
    requires RunFrom(s, es).Some? && Alive(RunFrom(s, es).value)
    requires Alive(s) && forall i :: 0 <= i < |es| ==> Internal(es[i])
    ensures |es| <= Work(s)
    decreases |es|
  {
    if es != [] {
      var t := Step(s, es[0]).value;
      if !Alive(t) { DeadForever(t, es[1..]); }
      if OfFtp(es[0]) { WorkDecreasesFtp(s, es[0]); } else { WorkDecreasesNobody(s, es[0]); }
      ExchangesEnd(t, es[1..]);
    }
  }

  lemma {:induction false} Completes(s: State) returns (es: seq<Event>)
    requires Good(s) && Alive(s)
    ensures RunFrom(s, es).Some? && Alive(RunFrom(s, es).value) && !Busy(RunFrom(s, es).value)
    ensures |es| <= Work(s) && forall i :: 0 <= i < |es| ==> Internal(es[i])
    decreases Work(s)
  {
    hide Good, Internal, Work, Step;
    es := [];
    if Busy(s) {
      var e := GoesOn(s);
      GoodStep(s, e);
      if OfFtp(e) { WorkDecreasesFtp(s, e); } else { WorkDecreasesNobody(s, e); }
      var more := Completes(Step(s, e).value);
      es := [e] + more;
      assert es[1..] == more;
    }
  }

  /** Every exchange that has begun can be completed, in no more steps than its work bound. With
      `ExchangesEnd` and `NoDeadlock`: a schedule that keeps serving the two processes completes it. */
  lemma ExchangeCompletes(es: seq<Event>) returns (more: seq<Event>)
    requires Run(es).Some? && Alive(Run(es).value) && CreateSucceeds(es)
    ensures var t := RunFrom(Run(es).value, more);
            t.Some? && Alive(t.value) && !Busy(t.value) && |more| <= Work(Run(es).value)
    ensures forall i :: 0 <= i < |more| ==> Internal(more[i])
  {
    Reachable(es);
    hide Good, Work, Step, RunFrom, Internal, Run;
    more := Completes(Run(es).value);
  }

  lemma DeadForever(s: State, es: seq<Event>)
    requires RunFrom(s, es).Some? && !Alive(s)
    ensures !Alive(RunFrom(s, es).value)
    decreases |es|
  {
    if es != [] {
      DeadStaysDead(s, es[0]);
      DeadForever(Step(s, es[0]).value, es[1..]);
    }
  }
}
