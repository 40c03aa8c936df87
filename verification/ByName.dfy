/** What the server does for a client, command by command: each result is about one step of a run, by the
    name the client sent and the replies it got. */
module ByName {
  import opened Base
  import opened FileMeaning
  import RateLimiter
  import opened Sessions
  import opened Transfers
  import opened Downloads
  import opened Uploads
  import opened CommandLoop
  import AddressCodec
  import DataChannel
  import Streams

  // ---- the gate and the table ----

  /** A command that neither transfers nor talks to the nobody process. */
  lemma SimpleStep(x: Step, t: Turn, config: Config, exited: bool)
    requires config.Valid() && Performed(x, t, config, exited)
    requires var (a, c) := (x.before.settings, x.before.log.last);
             Runs(a, c) ==> !Services(c.cmd).Transfers() && !Services(c.cmd).Pasv?
    ensures SimpleDone(x.before, x.after, t, exited) && x.now == x.was && x.to == x.from
  {
    hide Services, SimpleDone, RetrDone, StoreDone, ListDone, PasvDone;
  }

  /** Before a login every command but USER and PASS is answered 500 and does nothing. */
  lemma LoginFirst(x: Step, t: Turn, config: Config, exited: bool)
    requires config.Valid() && Performed(x, t, config, exited) && !x.before.settings.loggedIn
    requires x.before.log.last.cmd != "USER" && x.before.log.last.cmd != "PASS"
    ensures !exited && x.now == x.was && x.to == x.from
    ensures x.after == x.before.(log := x.before.log.(replies := x.before.log.replies + [LoginFirst500]))
  {
    LoginsByName(x.before.log.last.cmd);
    hide Performed;
    Refused500(x, t, config, exited);
  }

  /** A name that is not in the table is answered 500 and does nothing. */
  lemma UnknownName(x: Step, t: Turn, config: Config, exited: bool)
    requires config.Valid() && Performed(x, t, config, exited) && x.before.settings.loggedIn
    requires x.before.log.last.cmd !in {
               "USER", "PASS", "SYST", "FEAT", "PWD", "TYPE", "PORT", "LIST", "PASV", "NLST", "CWD", "CDUP", "DELE", "REST",
               "MKD", "RMD", "SIZE", "RNFR", "RNTO", "RETR", "STOR", "APPE", "NOOP", "QUIT", "ABOR", "HELP", "STAT", "SITE",
               "STRU", "MODE", "MDTM", "EPRT", "EPSV"}
    ensures !exited && x.now == x.was && x.to == x.from
    ensures x.after == x.before.(log := x.before.log.(replies := x.before.log.replies + [UnknownCommand500]))
  {
    NotInTable(x.before.log.last.cmd);
    hide Services, Stol, Matches, Performed;
    SimpleStep(x, t, config, exited);
  }

  lemma NotInTable(cmd: string)
    requires cmd !in {
               "USER", "PASS", "SYST", "FEAT", "PWD", "TYPE", "PORT", "LIST", "PASV", "NLST", "CWD", "CDUP", "DELE", "REST",
               "MKD", "RMD", "SIZE", "RNFR", "RNTO", "RETR", "STOR", "APPE", "NOOP", "QUIT", "ABOR", "HELP", "STAT", "SITE",
               "STRU", "MODE", "MDTM", "EPRT", "EPSV"}
    ensures Services(cmd).Unknown?
  {
  }

  /** A name in the table without a handler is answered 502 and does nothing. */
  lemma UnimplementedName(x: Step, t: Turn, config: Config, exited: bool)
    requires config.Valid() && Performed(x, t, config, exited) && x.before.settings.loggedIn
    requires x.before.log.last.cmd in {"STRU", "MODE", "MDTM", "EPRT", "EPSV"}
    ensures !exited && x.now == x.was && x.to == x.from
    ensures x.after == x.before.(log := x.before.log.(replies := x.before.log.replies + [Unimplemented502]))
  {
    Without(x.before.log.last.cmd);
    hide Services, Stol, Matches, Performed;
    SimpleStep(x, t, config, exited);
  }

  lemma Without(cmd: string)
    requires cmd in {"STRU", "MODE", "MDTM", "EPRT", "EPSV"}
    ensures Services(cmd).Unimplemented?
  {
  }

  /** The handlers of one call and one reply touch nothing else the loop keeps. */
  lemma OneCallName(x: Step, t: Turn, config: Config, exited: bool)
    requires config.Valid() && Performed(x, t, config, exited) && x.before.settings.loggedIn
    requires x.before.log.last.cmd in {"SYST", "FEAT", "PWD", "CWD", "CDUP", "DELE", "MKD", "RMD", "SIZE", "RNFR", "RNTO",
                                       "NOOP", "HELP", "STAT", "SITE"}
    ensures !exited && x.now == x.was && x.to == x.from
    ensures x.after == x.before.(log := x.before.log.(replies := x.before.log.replies + [OneCall(x.before.log.last.cmd)]))
  {
    OneCallService(x.before.log.last.cmd);
    hide Services, Stol, Matches, Performed;
    SimpleStep(x, t, config, exited);
  }

  lemma OneCallService(cmd: string)
    requires cmd in {"SYST", "FEAT", "PWD", "CWD", "CDUP", "DELE", "MKD", "RMD", "SIZE", "RNFR", "RNTO",
                     "NOOP", "HELP", "STAT", "SITE"}
    ensures Services(cmd).Plain?
  {
  }

  // ---- USER and PASS ----

  /** USER fixes the account if none is fixed and the name is known, and is refused otherwise. */
  lemma UserName(x: Step, t: Turn, config: Config, exited: bool)
    requires config.Valid() && Performed(x, t, config, exited) && x.before.log.last.cmd == "USER"
    ensures !exited && x.now == x.was && x.to == x.from
    ensures var (a, arg) := (x.before.settings, x.before.log.last.arg);
            var accepted := a.uid.None? && arg in t.accounts.byName;
            var reply := if a.uid.Some? then AlreadyLoggedIn530 else if accepted then PasswordPlease331 else LoginIncorrect530;
            x.after == x.before.(settings := if accepted then a.(uid := Some(t.accounts.byName[arg])) else a,
                                 log := x.before.log.(replies := x.before.log.replies + [reply]))
  {
    assert Services("USER").User?;
    hide Services, Stol, Matches, Performed;
    SimpleStep(x, t, config, exited);
  }

  /** PASS logs in, as the account that USER fixed, if and only if the password crypts to the account's; it is
      answered 530 and changes nothing otherwise. */
  lemma PassName(x: Step, t: Turn, config: Config, exited: bool)
    requires config.Valid() && Performed(x, t, config, exited) && x.before.log.last.cmd == "PASS"
    ensures x.now == x.was && x.to == x.from
    ensures var (a, arg) := (x.before.settings, x.before.log.last.arg);
            var right := a.uid.Some? && a.uid.value in t.accounts.shadow
                         && t.accounts.crypt(arg, t.accounts.shadow[a.uid.value]) == t.accounts.shadow[a.uid.value];
            && (exited <==> right && !t.permitted)
            && (right && t.permitted ==>
                  x.after == x.before.(settings := a.(loggedIn := true, euid := a.uid.value),
                                       log := x.before.log.(replies := x.before.log.replies + [LoggedIn230])))
            && (!right ==>
                  x.after == x.before.(log := x.before.log.(replies := x.before.log.replies
                                         + [if a.uid.None? then UseUserFirst530 else LoginIncorrect530])))
  {
    assert Services("PASS").Pass?;
    hide Services, Stol, Performed;
    SimpleStep(x, t, config, exited);
  }

  /** In any run of a process that starts logged out, being logged in comes of a PASS whose password crypts to
      that of the account, which an earlier USER had named; no account was fixed before that USER, and the
      process runs as it. */
  lemma LoggedInByPassword(b: Snapshot, xs: seq<Step>, ts: seq<Turn>, config: Config) returns (i: nat, j: nat)
    requires config.Valid() && |xs| <= |ts| && IsRun(b, xs, ts, config)
    requires !b.settings.loggedIn && b.settings.uid.None? && End(b, xs).settings.loggedIn
    ensures i < j < |xs| && End(b, xs).settings.uid == Some(End(b, xs).settings.euid)
    ensures var (u, named, passed) := (End(b, xs).settings.euid, xs[i].before.log.last, xs[j].before.log.last);
            && named.cmd == "USER" && named.arg in ts[i].accounts.byName && ts[i].accounts.byName[named.arg] == u
            && xs[i].before.settings.uid.None?
            && passed.cmd == "PASS" && u in ts[j].accounts.shadow
            && ts[j].accounts.crypt(passed.arg, ts[j].accounts.shadow[u]) == ts[j].accounts.shadow[u]
  {
    hide *;
    var cs := Heads(xs);
    RunSettings(b, xs, ts, config);
    i, j := LoginEarned(b.settings, cs, ts);
    LoggedInIsUser(b.settings, cs, ts);
    HeadsAt(xs, i);
    HeadsAt(xs, j);
    RunPrefix(b, xs, ts, config, i);
    RunSettings(b, xs[..i], ts, config);
    ParsedSettings(End(b, xs[..i]), xs[i].before);
    LoggedInMeans(b.settings, cs, ts, End(b, xs).settings.euid, i, j);
  }

  /** And nothing but USER and PASS has any effect besides a 500 before that. */
  lemma NoEffectBefore(b: Snapshot, xs: seq<Step>, ts: seq<Turn>, config: Config, k: nat) returns (i: nat, j: nat)
    requires config.Valid() && k < |xs| <= |ts| && IsRun(b, xs, ts, config)
    requires !b.settings.loggedIn && b.settings.uid.None?
    requires xs[k].before.log.last.cmd != "USER" && xs[k].before.log.last.cmd != "PASS"
    requires var x := xs[k];
             || x.after != x.before.(log := x.before.log.(replies := x.before.log.replies + [LoginFirst500]))
             || x.now != x.was || x.to != x.from
    ensures i < j < k && xs[i].before.log.last.cmd == "USER" && xs[j].before.log.last.cmd == "PASS"
    ensures var (u, named, passed) := (xs[k].before.settings.euid, xs[i].before.log.last, xs[j].before.log.last);
            && End(b, xs).settings.uid == Some(u)
            && named.arg in ts[i].accounts.byName && ts[i].accounts.byName[named.arg] == u
            && u in ts[j].accounts.shadow
            && ts[j].accounts.crypt(passed.arg, ts[j].accounts.shadow[u]) == ts[j].accounts.shadow[u]
  {
    hide *;
    LoginsByName(xs[k].before.log.last.cmd);
    HeadsAt(xs, k);
    SaidIs(xs[k].before, LoginFirst500);
    i, j := LoginSafety(b, xs, ts, config, k);
    HeadsAt(xs, i);
    HeadsAt(xs, j);
  }

  lemma SaidIs(b: Snapshot, r: Reply)
    ensures Said(b, b.settings, b.restart, r) == b.(log := b.log.(replies := b.log.replies + [r]))
  {
  }

  // ---- settings ----

  /** TYPE A and TYPE I switch the mode, any other is refused. */
  lemma TypeName(x: Step, t: Turn, config: Config, exited: bool)
    requires config.Valid() && Performed(x, t, config, exited) && x.before.settings.loggedIn
    requires x.before.log.last.cmd == "TYPE"
    ensures !exited && x.now == x.was && x.to == x.from
    ensures var (a, arg) := (x.before.settings, x.before.log.last.arg);
            var (ascii, reply) := if arg == "A" then (true, TypeOk200(true)) else if arg == "I" then (false, TypeOk200(false))
                                  else (a.asciiMode, BadType500);
            x.after == x.before.(settings := a.(asciiMode := ascii),
                                 log := x.before.log.(replies := x.before.log.replies + [reply]))
  {
    assert Services("TYPE").Type?;
    hide Services, Stol, Matches, Performed;
    SimpleStep(x, t, config, exited);
  }

  /** REST with a number that fits a long sets the position the next transfer starts from. */
  lemma RestName(x: Step, t: Turn, config: Config, exited: bool, n: nat)
    requires config.Valid() && Performed(x, t, config, exited) && x.before.settings.loggedIn
    requires x.before.log.last.cmd == "REST" && x.before.log.last.arg == AddressCodec.Decimal(n)
    ensures x.now == x.was && x.to == x.from && (exited <==> n >= 0x8000_0000_0000_0000)
    ensures !exited ==>
              x.after == x.before.(restart := n,
                                   log := x.before.log.(replies := x.before.log.replies + [RestAccepted350(n)]))
  {
    hide *;
    assert Services("REST").Rest? by { RestOnly("REST"); }
    RestRuns(x.before, "REST");
    SimpleStep(x, t, config, exited);
    RestartRoundTrip(n);
    RestMeans(x.before, x.after, t, exited, n);
  }

  lemma RestOnly(cmd: string)
    ensures Services(cmd).Rest? <==> cmd == "REST"
  {
  }

  lemma RestRuns(b: Snapshot, cmd: string)
    requires Services(cmd).Rest? && b.settings.loggedIn && b.log.last.cmd == cmd
    ensures Runs(b.settings, b.log.last) && !Services(cmd).Transfers()
  {
    hide Services;
  }

  lemma RestMeans(b: Snapshot, a: Snapshot, t: Turn, exited: bool, n: nat)
    requires SimpleDone(b, a, t, exited) && b.settings.loggedIn && Services(b.log.last.cmd).Rest?
    requires Stol(b.log.last.arg) == if n < LONG_RANGE then Some(n) else None
    ensures exited <==> n >= 0x8000_0000_0000_0000
    ensures !exited ==> a == b.(restart := n, log := b.log.(replies := b.log.replies + [RestAccepted350(n)]))
  {
    hide Services, Stol, Matches;
    InLong(n);
  }

  lemma InLong(n: nat)
    ensures LONG_RANGE == 0x8000_0000_0000_0000 && (n < LONG_RANGE ==> n % (2 * LONG_RANGE) == n)
  {
  }

  /** REST with no number at all ends the process. */
  lemma RestNothing(x: Step, t: Turn, config: Config, exited: bool)
    requires config.Valid() && Performed(x, t, config, exited) && x.before.settings.loggedIn
    requires x.before.log.last.cmd == "REST" && x.before.log.last.arg == ""
    ensures exited && x.after == x.before
  {
    assert Services("REST").Rest? && Stol("").None?;
    hide Services, Stol, Matches, Performed;
    SimpleStep(x, t, config, exited);
  }

  /** PORT with an address printed as in a 227 is taken byte by byte, and active mode is on. */
  lemma PortName(x: Step, t: Turn, config: Config, exited: bool, addr: seq<Byte>, port: nat)
    requires config.Valid() && Performed(x, t, config, exited) && x.before.settings.loggedIn
    requires x.before.log.last.cmd == "PORT" && |addr| == 4 && port < 0x1_0000
    requires x.before.log.last.arg
             == (var d := AddressCodec.Decimal;
                 d(addr[0]) + "," + d(addr[1]) + "," + d(addr[2]) + "," + d(addr[3]) + "," + d(port / 256) + "," + d(port % 256))
    ensures !exited && x.now == x.was && x.to == x.from
    ensures x.after == x.before.(settings := x.before.settings.(activePort := true, portAddr := x.after.settings.portAddr),
                                 log := x.before.log.(replies := x.before.log.replies + [PortOk200]))
    ensures x.after.settings.portAddr
            == [2, 0, port / 256, port % 256, addr[0], addr[1], addr[2], addr[3], 0, 0, 0, 0, 0, 0, 0, 0]
  {
    hide *;
    assert Services("PORT").Port? by { PortOnly("PORT"); }
    PortRuns(x.before, "PORT");
    SimpleStep(x, t, config, exited);
    AddressCodec.AddressIs(addr, port, t.numbers);
    PortMeans(x.before, x.after, t, exited);
  }

  lemma PortOnly(cmd: string)
    ensures Services(cmd).Port? <==> cmd == "PORT"
  {
  }

  lemma PortRuns(b: Snapshot, cmd: string)
    requires Services(cmd).Port? && b.settings.loggedIn && b.log.last.cmd == cmd
    ensures Runs(b.settings, b.log.last) && !Services(cmd).Transfers()
  {
    hide Services;
  }

  lemma PortMeans(b: Snapshot, a: Snapshot, t: Turn, exited: bool)
    requires SimpleDone(b, a, t, exited) && b.settings.loggedIn && Services(b.log.last.cmd).Port?
    ensures !exited
    ensures var addr := AddressCodec.SockAddr(AddressCodec.Numbers(b.log.last.arg, true, 0, t.numbers));
            a == b.(settings := b.settings.(activePort := true, portAddr := addr),
                    log := b.log.(replies := b.log.replies + [PortOk200]))
  {
    hide Services, Stol, Matches, AddressCodec.Numbers, AddressCodec.SockAddr;
  }

  lemma SteadyIs(plan: seq<Streams.Outcome>)
    ensures Streams.Steady(plan)
            <==> forall i :: 0 <= i < |plan| ==> plan[i].Interrupted? || (plan[i].Count? && plan[i].n > 0)
  {
  }

  /** PASV turns passive mode on, asks for one listener and quotes the port it is told. */
  lemma PasvName(x: Step, t: Turn, config: Config, exited: bool)
    requires config.Valid() && Performed(x, t, config, exited) && x.before.settings.loggedIn
    requires x.before.log.last.cmd == "PASV"
    ensures !exited && x.now == x.was && x.to == x.from && x.after.restart == x.before.restart
    ensures x.after.settings == x.before.settings.(activePasv := true)
    ensures var plan := x.before.pic.plan;
            && (forall i :: 0 <= i < |plan| ==> plan[i].Interrupted? || (plan[i].Count? && plan[i].n > 0))
            && |x.before.pic.input| >= 2 ==>
              var heard := x.before.pic.input;
              var port: nat := heard[0] as int + 256 * heard[1] as int;
              && x.after.pic.output == x.before.pic.output + [3] && x.after.pic.input == heard[2..]
              && x.after.log == x.before.log.(replies := x.before.log.replies
                                  + [Passive227(AddressCodec.PasvBody(config.listenAddress, port))])
  {
    assert Services("PASV").Pasv? && DataChannel.Encode(DataChannel.Listen) == [3];
    SteadyIs(x.before.pic.plan);
    hide Services, Stol, Matches, AddressCodec.PasvBody, DataChannel.Encode, Streams.Steady, Streams.Rest;
  }

  /** QUIT says goodbye and ends the process. */
  lemma QuitName(x: Step, t: Turn, config: Config, exited: bool)
    requires config.Valid() && Performed(x, t, config, exited) && x.before.settings.loggedIn
    requires x.before.log.last.cmd == "QUIT"
    ensures exited && x.now == x.was && x.to == x.from
    ensures x.after == x.before.(log := x.before.log.(replies := x.before.log.replies + [Goodbye221]))
  {
    assert Services("QUIT").Quit?;
    hide Services, Stol, Matches, Performed;
    SimpleStep(x, t, config, exited);
  }

  /** ABOR with no transfer is answered 225. */
  lemma AborName(x: Step, t: Turn, config: Config, exited: bool)
    requires config.Valid() && Performed(x, t, config, exited) && x.before.settings.loggedIn
    requires x.before.log.last.cmd == "ABOR"
    ensures !exited && x.now == x.was && x.to == x.from
    ensures x.after == x.before.(log := x.before.log.(replies := x.before.log.replies + [NoTransfer225]))
  {
    assert Services("ABOR").Abor?;
    hide Services, Stol, Matches, Performed;
    SimpleStep(x, t, config, exited);
  }

  // ---- transfers ----

  lemma TransferNames(cmd: string)
    ensures Services(cmd).Retr? <==> cmd == "RETR"
    ensures Services(cmd).Stor? <==> cmd == "STOR"
    ensures Services(cmd).Appe? <==> cmd == "APPE"
    ensures Services(cmd).List? <==> cmd == "LIST" || cmd == "NLST"
  {
  }

  lemma TransferStep(x: Step, t: Turn, config: Config, exited: bool)
    requires config.Valid() && Performed(x, t, config, exited) && x.before.settings.loggedIn
    ensures var (b, service) := (x.before, Services(x.before.log.last.cmd));
            && (service.Retr? ==>
                  x.deed.Retrieved?
                  && RetrDone(b, x.after, t.setup, t.sends, config.maxDownloadRate, x.was, x.now, x.from, x.to, exited,
                              x.deed.sent, x.deed.download))
            && (service.Stor? || service.Appe? ==>
                  x.deed.StoredBy?
                  && StoreDone(b, x.after, service.Appe?, t.setup, t.receives, config.maxUploadRate, x.was, x.now, x.from,
                               x.to, exited, x.deed.storage))
            && (service.List? ==>
                  x.deed.ListedBy? && ListDone(b, x.after, t.setup, exited, x.deed.open, x.deed.said)
                  && x.was == x.now && x.from == x.to)
  {
    hide Services, RetrDone, StoreDone, ListDone, PasvDone, SimpleDone;
  }

  lemma RetrStep(x: Step, t: Turn, config: Config, exited: bool)
    requires config.Valid() && Performed(x, t, config, exited) && x.before.settings.loggedIn
    requires x.before.log.last.cmd == "RETR"
    ensures x.deed.Retrieved?
    ensures RetrDone(x.before, x.after, t.setup, t.sends, config.maxDownloadRate, x.was, x.now, x.from, x.to, exited,
                     x.deed.sent, x.deed.download)
  {
    hide *;
    TransferNames(x.before.log.last.cmd);
    TransferStep(x, t, config, exited);
  }

  /** RETR leaves the file to its writers and sends a prefix of it from the restart position on, however it ends. */
  lemma RetrName(x: Step, t: Turn, config: Config, exited: bool)
    requires config.Valid() && Performed(x, t, config, exited) && x.before.settings.loggedIn
    requires x.before.log.last.cmd == "RETR"
    ensures x.deed.Retrieved? && (x.now == x.was || x.now == t.setup.version)
    ensures x.deed.sent <= x.now[Min(Max(x.before.restart, 0), |x.now|)..]
    ensures !exited ==> x.after.settings == x.before.settings.(activePort := false, activePasv := false)
  {
    hide *;
    RetrStep(x, t, config, exited);
    SentFrom(x.before, x.after, t.setup, t.sends, config.maxDownloadRate, x.was, x.now, x.from, x.to, exited, x.deed.sent,
             x.deed.download);
    if !exited {
      RetrResets(x.before, x.after, t.setup, t.sends, config.maxDownloadRate, x.was, x.now, x.from, x.to, x.deed.sent,
                 x.deed.download);
    }
  }

  lemma RetrResets(b: Snapshot, a: Snapshot, t: Setup, sends: seq<Sending>, limit: nat, was: Bytes, now: Bytes,
                   from: real, to: real, sent: Bytes, d: Download)
    requires RetrDone(b, a, t, sends, limit, was, now, from, to, false, sent, d)
    ensures a.settings == b.settings.(activePort := false, activePasv := false)
    ensures d.Served? ==> Arranged(b, a.pic, t, true, d.open) && CanRead(t, b.restart) && now == t.version && a.restart == 0
    ensures d.Refused? && d.said == [CannotOpen550] ==>
              && Arranged(b, a.pic, t, true, d.open) && !CanRead(t, b.restart) && sent == []
              && a.restart == (if GetsLock(t) then 0 else b.restart) && now == (if GetsLock(t) then t.version else was)
    ensures d.Refused? && d.said != [CannotOpen550] ==>
              && Arranged(b, a.pic, t, false, d.open) && d.said == NoTransfer(b.settings) && sent == []
              && a.restart == b.restart && now == was
  {
    hide Arranged, CanRead, GetsLock, Told, Replied, NoTransfer, RefusedPoints, Downloaded, Unbroken, Broken,
      Passed, RateLimiter.Until,
      RetrMoves, RetrEnding;
  }

  /** open, fstat and the lock succeed: no failure comes before a grant. */
  lemma GetsLockIs(t: Setup)
    ensures GetsLock(t)
            <==> t.opens && t.stats
                 && forall i :: 0 <= i < |t.lock| && t.lock[i].Failed? ==> exists j :: 0 <= j < i && t.lock[j].Count?
  {
    GrantedIs(t.lock);
    hide Granted;
  }

  lemma CanReadIs(t: Setup, offset: int)
    ensures CanRead(t, offset) <==> GetsLock(t) && (offset <= 0 || t.seeks)
  {
    hide GetsLock;
  }

  /** The answers to RETR, with no SIGURG to come: with neither or both modes on 425 and 550 or 550; with one
      mode, 550 if the nobody process says 2 or the file cannot be opened, locked and positioned; and otherwise 426
      if and only if a sendfile that the size asks for failed, else 226. The restart position is used up once the
      file is locked. */
  lemma RetrSays(x: Step, t: Turn, config: Config)
    requires config.Valid() && Performed(x, t, config, false) && x.before.settings.loggedIn
    requires x.before.log.last.cmd == "RETR" && x.before.log.signals == [] && !x.before.log.aborted
    ensures var (a, b, said, heard) := (x.before.settings, x.before.restart, x.before.log.replies, x.before.pic.input);
            var plan := x.before.pic.plan;
            var steady := forall i :: 0 <= i < |plan| ==> plan[i].Interrupted? || (plan[i].Count? && plan[i].n > 0);
            var locked := t.setup.opens && t.setup.stats
                          && forall i :: 0 <= i < |t.setup.lock| && t.setup.lock[i].Failed? ==>
                               exists j :: 0 <= j < i && t.setup.lock[j].Count?;
            var count := if b > |x.was| then 0 else |x.was| - b;
            var failed := exists i :: 0 <= i < |t.sends| && i * 65536 < count && t.sends[i].ret.None?;
            && (!a.activePort && !a.activePasv ==>
                  x.after.log.replies == said + [UsePortOrPasv425, NoConnection550] && x.now == x.was && x.after.restart == b)
            && (a.activePort && a.activePasv ==>
                  x.after.log.replies == said + [NoConnection550] && x.now == x.was && x.after.restart == b)
            && (a.activePort != a.activePasv && steady && heard != [] ==>
                  if heard[0] == 2 then
                    x.after.log.replies == said + [NoConnection550] && x.now == x.was && x.after.restart == b
                  else
                    && x.now == (if locked then t.setup.version else x.was) && x.after.restart == (if locked then 0 else b)
                    && x.after.log.replies
                       == said + [if !locked || (b > 0 && !t.setup.seeks) then CannotOpen550
                                  else if failed then BrokenNetwork426 else Complete226])
  {
    hide *;
    SteadyIs(x.before.pic.plan);
    RetrStep(x, t, config, false);
    var d := x.deed.download;
    QuietRetr(x.before, x.after, t.setup, t.sends, config.maxDownloadRate, x.was, x.now, x.from, x.to, x.deed.sent, d);
    RetrResets(x.before, x.after, t.setup, t.sends, config.maxDownloadRate, x.was, x.now, x.from, x.to, x.deed.sent, d);
    ArrangedBytes(x.before, x.after.pic, t.setup, d.Served? || d.said == [CannotOpen550], d.open);
    NoTransferBy(x.before.settings);
    GetsLockIs(t.setup);
    CanReadIs(t.setup, x.before.restart);
  }

  /** What 226 means to a client of RETR, with the file not shrunk since its size was taken. */
  lemma RetrComplete(x: Step, t: Turn, config: Config)
    requires config.Valid() && Performed(x, t, config, false) && x.before.settings.loggedIn
    requires x.before.log.last.cmd == "RETR" && 0 <= x.before.restart <= |x.was| <= |x.now|
    requires |Main(x.after.log.replies)| > |Main(x.before.log.replies)|
    requires Main(x.after.log.replies)[|Main(x.before.log.replies)|] == Complete226
    ensures x.deed.Retrieved? && x.deed.sent <= x.now[x.before.restart..|x.was|]
    ensures x.deed.sent == x.now[x.before.restart..|x.was|]
            <==> forall i :: 0 <= i < |t.sends| && i * 65536 < |x.was| - x.before.restart ==>
                   t.sends[i].ret.Some? && t.sends[i].ret.value >= Min(65536, |x.was| - x.before.restart - i * 65536)
  {
    hide *;
    RetrStep(x, t, config, false);
    CompleteIffFull(x.before, x.after, t.setup, t.sends, config.maxDownloadRate, x.was, x.now, x.from, x.to, x.deed.sent,
                    x.deed.download);
  }

  lemma StoreStep(x: Step, t: Turn, config: Config, exited: bool)
    requires config.Valid() && Performed(x, t, config, exited) && x.before.settings.loggedIn
    requires x.before.log.last.cmd == "STOR" || x.before.log.last.cmd == "APPE"
    ensures x.deed.StoredBy?
    ensures StoreDone(x.before, x.after, x.before.log.last.cmd == "APPE", t.setup, t.receives, config.maxUploadRate, x.was,
                      x.now, x.from, x.to, exited, x.deed.storage)
  {
    hide *;
    TransferNames(x.before.log.last.cmd);
    TransferStep(x, t, config, exited);
  }

  /** A STOR whose second reply is 226 leaves the client's data, and after REST the version locked overwritten
      with it from there. */
  lemma StorName(x: Step, t: Turn, config: Config)
    requires config.Valid() && Performed(x, t, config, false) && x.before.settings.loggedIn
    requires x.before.log.last.cmd == "STOR" && |Main(x.after.log.replies)| > |Main(x.before.log.replies)| + 1
    requires Main(x.after.log.replies)[|Main(x.before.log.replies)| + 1] == Complete226
    ensures x.deed.StoredBy? && x.before.restart >= 0
    ensures var data := Yield(Reads(t.receives, x.before.log, x.deed.storage.open));
            && x.now == (if x.before.restart == 0 then data else WriteAt(t.setup.version, x.before.restart, data))
            && (x.before.log.signals == [] ==> data == Yield(t.receives))
  {
    hide *;
    StoreStep(x, t, config, false);
    CompleteMeansStored(x.before, x.after, false, t.setup, t.receives, config.maxUploadRate, x.was, x.now, x.from, x.to,
                        x.deed.storage);
    if x.before.log.signals == [] { QuietPlan(t.receives, x.before.log, x.deed.storage.open); }
  }

  /** An APPE whose second reply is 226 leaves the version locked followed by the client's data. */
  lemma AppeName(x: Step, t: Turn, config: Config)
    requires config.Valid() && Performed(x, t, config, false) && x.before.settings.loggedIn
    requires x.before.log.last.cmd == "APPE" && |Main(x.after.log.replies)| > |Main(x.before.log.replies)| + 1
    requires Main(x.after.log.replies)[|Main(x.before.log.replies)| + 1] == Complete226
    ensures x.deed.StoredBy?
    ensures var data := Yield(Reads(t.receives, x.before.log, x.deed.storage.open));
            && x.now == t.setup.version + data
            && (x.before.log.signals == [] ==> data == Yield(t.receives))
  {
    hide *;
    StoreStep(x, t, config, false);
    CompleteMeansStored(x.before, x.after, true, t.setup, t.receives, config.maxUploadRate, x.was, x.now, x.from, x.to,
                        x.deed.storage);
    if x.before.log.signals == [] { QuietPlan(t.receives, x.before.log, x.deed.storage.open); }
  }

  lemma StoreResets(b: Snapshot, a: Snapshot, append: bool, t: Setup, receives: seq<Receiving>, limit: nat, was: Bytes,
                    now: Bytes, from: real, to: real, d: Storage)
    requires StoreDone(b, a, append, t, receives, limit, was, now, from, to, false, d)
    ensures a.settings == b.settings.(activePort := false, activePasv := false)
    ensures d.Stored? ==> Arranged(b, a.pic, t, true, d.open) && CanWrite(t, append, b.restart) && a.restart == 0
    ensures d.Declined? && d.said == [Cannot(t)] ==>
              && Arranged(b, a.pic, t, true, d.open) && !CanWrite(t, append, b.restart)
              && a.restart == (if GetsLock(t) then 0 else b.restart)
              && now == (if !GetsLock(t) then was else if !append && b.restart == 0 && t.truncates then [] else t.version)
    ensures d.Declined? && d.said != [Cannot(t)] ==>
              && Arranged(b, a.pic, t, false, d.open) && d.said == NoTransfer(b.settings)
              && a.restart == b.restart && now == was
  {
    hide Arranged, CanWrite, GetsLock, Told, Replied, NoTransfer, DeclinedPoints, Uploaded, KeptOn, BrokenOff, StorePassed,
      RateLimiter.Until, StoreMoves, StoreReplies, Cannot, Reads, Arrives;
  }

  lemma CanWriteIs(t: Setup, append: bool, offset: int)
    ensures CanWrite(t, append, offset)
            <==> GetsLock(t) && t.seeks && (append || offset > 0 || (offset == 0 && t.truncates))
    ensures Cannot(t) == if t.opens && !t.stats then CannotOpen550 else CannotCreate553
  {
    hide GetsLock;
  }

  /** The answers to STOR and APPE, with no SIGURG to come: with neither or both modes on 425 and 550 or 550; with
      one mode, 550 if the nobody process says 2, 550 or 553 if the file cannot be opened, locked and positioned; and
      otherwise 150 with the size, and 226, 426 or 451 as the last read found the end of the data, failed, or
      brought data that the file did not take. */
  lemma StoreSays(x: Step, t: Turn, config: Config)
    requires config.Valid() && Performed(x, t, config, false) && x.before.settings.loggedIn
    requires x.before.log.last.cmd == "STOR" || x.before.log.last.cmd == "APPE"
    requires x.before.log.signals == [] && !x.before.log.aborted
    ensures x.after.settings == x.before.settings.(activePort := false, activePasv := false) && x.deed.StoredBy?
    ensures var (a, b, said, heard) := (x.before.settings, x.before.restart, x.before.log.replies, x.before.pic.input);
            var plan := x.before.pic.plan;
            var steady := forall i :: 0 <= i < |plan| ==> plan[i].Interrupted? || (plan[i].Count? && plan[i].n > 0);
            var locked := t.setup.opens && t.setup.stats
                          && forall i :: 0 <= i < |t.setup.lock| && t.setup.lock[i].Failed? ==>
                               exists j :: 0 <= j < i && t.setup.lock[j].Count?;
            var append := x.before.log.last.cmd == "APPE";
            var placed := locked && t.setup.seeks && (append || b > 0 || (b == 0 && t.setup.truncates));
            && (!a.activePort && !a.activePasv ==>
                  x.after.log.replies == said + [UsePortOrPasv425, NoConnection550] && x.now == x.was && x.after.restart == b)
            && (a.activePort && a.activePasv ==>
                  x.after.log.replies == said + [NoConnection550] && x.now == x.was && x.after.restart == b)
            && (a.activePort != a.activePasv && steady && heard != [] ==>
                  if heard[0] == 2 then
                    x.after.log.replies == said + [NoConnection550] && x.now == x.was && x.after.restart == b
                  else
                    && x.after.restart == (if locked then 0 else b) && (x.deed.storage.Stored? <==> placed)
                    && (!placed ==>
                          && x.after.log.replies
                             == said + [if t.setup.opens && !t.setup.stats then CannotOpen550 else CannotCreate553]
                          && x.now == if !locked then x.was
                                      else if !append && b == 0 && t.setup.truncates then [] else t.setup.version)
                    && (placed ==>
                          var k := x.deed.storage.rounds;
                          && k <= |t.receives|
                          && var got := if k < |t.receives| then t.receives[k].got else GotData([]);
                          && x.after.log.replies
                             == said + [Opening150(a.asciiMode, |x.was|),
                                        if got.GotError? then BrokenNetwork426
                                        else if got == GotData([]) then Complete226 else BrokenFile451]
                          && (got.GotError? || got == GotData([])
                              || (got.GotData? && Streams.Failed in t.receives[k].writes))
                          && forall i :: 0 <= i < k ==>
                               t.receives[i].got.GotInterrupted?
                               || (t.receives[i].got.GotData? && t.receives[i].got.data != [])))
  {
    hide *;
    SteadyIs(x.before.pic.plan);
    StoreStep(x, t, config, false);
    var d, append := x.deed.storage, x.before.log.last.cmd == "APPE";
    QuietStore(x.before, x.after, append, t.setup, t.receives, config.maxUploadRate, x.was, x.now, x.from, x.to, d);
    StoreResets(x.before, x.after, append, t.setup, t.receives, config.maxUploadRate, x.was, x.now, x.from, x.to, d);
    ArrangedBytes(x.before, x.after.pic, t.setup, d.Stored? || d.said == [Cannot(t.setup)], d.open);
    NoTransferBy(x.before.settings);
    GetsLockIs(t.setup);
    CanWriteIs(t.setup, append, x.before.restart);
  }

  lemma ListStep(x: Step, t: Turn, config: Config, exited: bool)
    requires config.Valid() && Performed(x, t, config, exited) && x.before.settings.loggedIn
    requires x.before.log.last.cmd == "LIST" || x.before.log.last.cmd == "NLST"
    ensures x.deed.ListedBy? && x.now == x.was && x.to == x.from
    ensures ListDone(x.before, x.after, t.setup, exited, x.deed.open, x.deed.said)
  {
    hide *;
    TransferNames(x.before.log.last.cmd);
    TransferStep(x, t, config, exited);
  }

  lemma ListLeft(b: Snapshot, a: Snapshot, t: Setup, open: bool, said: seq<Reply>)
    requires ListDone(b, a, t, false, open, said) && b.log.signals == []
    ensures a.settings == b.settings.(activePort := false, activePasv := false) && a.restart == b.restart
    ensures a.log.replies == b.log.replies + said
    ensures if said == [Listing150, Listed226] then Arranged(b, a.pic, t, true, open)
            else said == NoTransfer(b.settings) && Arranged(b, a.pic, t, false, open)
  {
    hide Arranged, Told, Replied, NoTransfer, ListDies;
    QuietSaid(b.log, a.log, said, open, if said == [Listing150, Listed226] then 2 else 0);
  }

  /** LIST and NLST, with no SIGURG to come: 150 and 226 if there is a connection, and otherwise 550, after 425 if
      neither mode was on; both modes are off then, and file, position and clock are as they were. */
  lemma ListName(x: Step, t: Turn, config: Config)
    requires config.Valid() && Performed(x, t, config, false) && x.before.settings.loggedIn
    requires x.before.log.last.cmd == "LIST" || x.before.log.last.cmd == "NLST"
    requires x.before.log.signals == []
    ensures x.now == x.was && x.to == x.from && x.after.restart == x.before.restart
    ensures x.after.settings == x.before.settings.(activePort := false, activePasv := false)
    ensures var (a, said, heard, plan) := (x.before.settings, x.before.log.replies, x.before.pic.input, x.before.pic.plan);
            var steady := forall i :: 0 <= i < |plan| ==> plan[i].Interrupted? || (plan[i].Count? && plan[i].n > 0);
            && (!a.activePort && !a.activePasv ==> x.after.log.replies == said + [UsePortOrPasv425, NoConnection550])
            && (a.activePort && a.activePasv ==> x.after.log.replies == said + [NoConnection550])
            && (a.activePort != a.activePasv && steady && heard != [] ==>
                  x.after.log.replies == said + if heard[0] == 2 then [NoConnection550] else [Listing150, Listed226])
  {
    hide *;
    SteadyIs(x.before.pic.plan);
    ListStep(x, t, config, false);
    ListLeft(x.before, x.after, t.setup, x.deed.open, x.deed.said);
    ArrangedBytes(x.before, x.after.pic, t.setup, x.deed.said == [Listing150, Listed226], x.deed.open);
    NoTransferBy(x.before.settings);
  }

  // ---- transfers that end the process ----

  lemma {:induction false} NothingShort(b: Snapshot, t: Setup)
    requires b.log.signals == [] && !b.log.fails
    requires var (a, plan, heard) := (b.settings, b.pic.plan, b.pic.input);
             || a.activePort == a.activePasv
             || ((forall i :: 0 <= i < |plan| ==> plan[i].Count? && plan[i].n > 0) && heard != [] && heard[0] != 0
                 && (heard[0] == 1 ==> |heard| >= 2 && t.descriptor.Some?))
    ensures !Unanswered(b, t) && !Short(b.log, 0)
  {
    hide LinesLeft;
  }

  /** With no SIGURG to come, and a nobody process that is not asked or answers without a call on the socketpair being
      interrupted or cut short, RETR ends the process only in a round in which select times out or the client has gone. */
  lemma RetrEnds(x: Step, t: Turn, config: Config)
    requires config.Valid() && Performed(x, t, config, true) && x.before.settings.loggedIn
    requires x.before.log.last.cmd == "RETR" && x.before.log.signals == [] && !x.before.log.fails
    requires var (a, plan, heard) := (x.before.settings, x.before.pic.plan, x.before.pic.input);
             || a.activePort == a.activePasv
             || ((forall i :: 0 <= i < |plan| ==> plan[i].Count? && plan[i].n > 0) && heard != [] && heard[0] != 0
                 && (heard[0] == 1 ==> |heard| >= 2 && t.setup.descriptor.Some?))
    ensures x.deed.Retrieved? && x.deed.download.Served? && x.deed.download.rounds < |t.sends|
    ensures var how := t.sends[x.deed.download.rounds]; how.stalled || how.killed
  {
    hide *;
    RetrStep(x, t, config, true);
    NothingShort(x.before, t.setup);
    RetrStopped(x.before, x.after, t.setup, t.sends, config.maxDownloadRate, x.was, x.now, x.from, x.to, x.deed.sent,
                x.deed.download);
  }

  lemma {:induction false} RetrStopped(b: Snapshot, a: Snapshot, t: Setup, sends: seq<Sending>, limit: nat, was: Bytes,
                                       now: Bytes, from: real, to: real, sent: Bytes, d: Download)
    requires RetrDone(b, a, t, sends, limit, was, now, from, to, true, sent, d)
    requires !Unanswered(b, t) && !Short(b.log, 0) && b.log.signals == []
    ensures d.Served? && d.rounds < |sends| && (sends[d.rounds].stalled || sends[d.rounds].killed)
  {
    if d.Served? { NeverNoted(b.log, d.open, LOOP_POINTS + 2 * d.rounds + 1); }
    hide Unanswered, Short, CanRead, SoFar, Noted, Delivers;
  }

  /** And an upload only in a round in which select times out. */
  lemma StoreEnds(x: Step, t: Turn, config: Config)
    requires config.Valid() && Performed(x, t, config, true) && x.before.settings.loggedIn
    requires x.before.log.last.cmd == "STOR" || x.before.log.last.cmd == "APPE"
    requires x.before.log.signals == [] && !x.before.log.fails
    requires var (a, plan, heard) := (x.before.settings, x.before.pic.plan, x.before.pic.input);
             || a.activePort == a.activePasv
             || ((forall i :: 0 <= i < |plan| ==> plan[i].Count? && plan[i].n > 0) && heard != [] && heard[0] != 0
                 && (heard[0] == 1 ==> |heard| >= 2 && t.setup.descriptor.Some?))
    ensures x.deed.StoredBy? && x.deed.storage.Stored? && x.deed.storage.rounds < |t.receives|
    ensures t.receives[x.deed.storage.rounds].stalled
  {
    hide *;
    StoreStep(x, t, config, true);
    NothingShort(x.before, t.setup);
    StoreStopped(x.before, x.after, x.before.log.last.cmd == "APPE", t.setup, t.receives, config.maxUploadRate, x.was, x.now,
                 x.from, x.to, x.deed.storage);
  }

  lemma {:induction false} StoreStopped(b: Snapshot, a: Snapshot, append: bool, t: Setup, receives: seq<Receiving>, limit: nat,
                                        was: Bytes, now: Bytes, from: real, to: real, d: Storage)
    requires StoreDone(b, a, append, t, receives, limit, was, now, from, to, true, d)
    requires !Unanswered(b, t) && !Short(b.log, 0) && b.log.signals == []
    ensures d.Stored? && d.rounds < |receives| && receives[d.rounds].stalled
  {
    QuietPlan(receives, b.log, d.open);
    hide Unanswered, Short, CanWrite, Uploaded, KeptOn, Reads;
  }

  /** And LIST and NLST never. */
  lemma ListGoesOn(x: Step, t: Turn, config: Config, exited: bool)
    requires config.Valid() && Performed(x, t, config, exited) && x.before.settings.loggedIn
    requires x.before.log.last.cmd == "LIST" || x.before.log.last.cmd == "NLST"
    requires x.before.log.signals == [] && !x.before.log.fails
    requires var (a, plan, heard) := (x.before.settings, x.before.pic.plan, x.before.pic.input);
             || a.activePort == a.activePasv
             || ((forall i :: 0 <= i < |plan| ==> plan[i].Count? && plan[i].n > 0) && heard != [] && heard[0] != 0
                 && (heard[0] == 1 ==> |heard| >= 2 && t.setup.descriptor.Some?))
    ensures !exited
  {
    hide *;
    ListStep(x, t, config, exited);
    NothingShort(x.before, t.setup);
    NeverNoted(x.before.log, x.deed.open, 1);
    Listable(x.before.log, t.setup, x.deed.open);
    ListStopped(x.before, x.after, t.setup, exited, x.deed.open, x.deed.said);
  }

  lemma ListStopped(b: Snapshot, a: Snapshot, t: Setup, exited: bool, open: bool, said: seq<Reply>)
    requires ListDone(b, a, t, exited, open, said)
    ensures exited ==> Unanswered(b, t) || Short(b.log, 0) || ListDies(b.log, t, open)
    ensures !exited && said == [Listing150, Listed226] ==> !ListDies(b.log, t, open)
  {
    hide Unanswered, Short, ListDies, Told, Arranged, NoTransfer;
  }

  /** A listing with an entry to write does not outlive an ABOR that comes before it. */
  lemma ListKilled(x: Step, t: Turn, config: Config)
    requires config.Valid() && Performed(x, t, config, false) && x.before.settings.loggedIn
    requires x.before.log.last.cmd == "LIST" || x.before.log.last.cmd == "NLST"
    requires Noted(x.before.log, x.deed.ListedBy? && x.deed.open, 1)
    ensures x.deed.ListedBy? && (x.deed.said == [Listing150, Listed226] ==> t.setup.entries == 0)
  {
    hide *;
    ListStep(x, t, config, false);
    ListStopped(x.before, x.after, t.setup, false, x.deed.open, x.deed.said);
    Listable(x.before.log, t.setup, x.deed.open);
  }

  // ---- what ends the process ----

  lemma ExitingNames(cmd: string)
    ensures Services(cmd).Quit? <==> cmd == "QUIT"
    ensures Services(cmd).Rest? <==> cmd == "REST"
    ensures Services(cmd).Transfers() <==> cmd in {"RETR", "STOR", "APPE", "LIST", "NLST"}
  {
  }

  lemma PasvGoesOn(x: Step, t: Turn, config: Config)
    requires config.Valid() && Performed(x, t, config, true)
    ensures Runs(x.before.settings, x.before.log.last) ==> !Services(x.before.log.last.cmd).Pasv?
  {
    hide Services, RetrDone, StoreDone, ListDone, PasvDone, SimpleDone;
  }

  lemma ExitMeans(b: Snapshot, a: Snapshot, t: Turn)
    requires SimpleDone(b, a, t, true)
    ensures Runs(b.settings, b.log.last)
    ensures var (c, uid, db) := (b.log.last, b.settings.uid, t.accounts);
            || Services(c.cmd).Quit? || (Services(c.cmd).Rest? && Stol(c.arg).None?)
            || (Services(c.cmd).Pass? && uid.Some? && !t.permitted && uid.value in db.shadow
                && db.crypt(c.arg, db.shadow[uid.value]) == db.shadow[uid.value])
  {
    hide Services, Stol, Answer, After;
  }

  lemma RunsWhen(a: Settings, c: Command)
    requires Runs(a, c)
    ensures a.loggedIn || c.cmd == "USER" || c.cmd == "PASS"
  {
    LoginsByName(c.cmd);
    hide Services;
  }

  /** A command that ends the process is QUIT, a REST whose argument is no number that fits, a PASS with the right
      password that cannot be carried out, or a transfer; after a login, PASS aside. */
  lemma EndsByName(x: Step, t: Turn, config: Config)
    requires config.Valid() && Performed(x, t, config, true)
    ensures x.before.log.last.cmd in {"QUIT", "REST", "PASS", "RETR", "STOR", "APPE", "LIST", "NLST"}
    ensures x.before.log.last.cmd == "PASS" || x.before.settings.loggedIn
    ensures x.before.log.last.cmd == "REST" ==> Stol(x.before.log.last.arg).None?
    ensures x.before.log.last.cmd == "PASS" ==>
              var (uid, db) := (x.before.settings.uid, t.accounts);
              && uid.Some? && !t.permitted && uid.value in db.shadow
              && db.crypt(x.before.log.last.arg, db.shadow[uid.value]) == db.shadow[uid.value]
  {
    hide *;
    var (a, c) := (x.before.settings, x.before.log.last);
    ExitingNames(c.cmd);
    UserOnly(c.cmd);
    PassOnly(c.cmd);
    PasvGoesOn(x, t, config);
    if !Runs(a, c) || !Services(c.cmd).Transfers() {
      SimpleStep(x, t, config, true);
      ExitMeans(x.before, x.after, t);
    }
    RunsWhen(a, c);
  }

  /** And the process ends only so, or with a control connection that fails or holds no whole line: no newline, and
      less than a buffer's 1023 bytes. */
  lemma RunEnds(b: Snapshot, xs: seq<Step>, ts: seq<Turn>, config: Config, last: Option<Step>)
    requires config.Valid() && |xs| < |ts| && Fatal(End(b, xs), last, ts[|xs|], config)
    ensures last.None? ==>
              var log := End(b, xs).log; log.fails || (|log.input| < 1023 && 10 !in log.input)
    ensures last.Some? ==>
              var x := last.value;
              && x.before.settings == End(b, xs).settings && x.before.restart == End(b, xs).restart
              && x.before.log.last.cmd in {"QUIT", "REST", "PASS", "RETR", "STOR", "APPE", "LIST", "NLST"}
              && (x.before.log.last.cmd == "PASS" || x.before.settings.loggedIn)
  {
    hide Performed, Listened, LinesLeft, Services, End;
    match last
    case None =>
      LineTaken(End(b, xs).log.input);
      NextLine(End(b, xs).log.input);
    case Some(x) =>
      EndsByName(x, ts[|xs|], config);
  }
}
