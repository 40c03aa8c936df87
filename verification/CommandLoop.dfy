/** The command loop of the FTP process: login, dispatch, and what holds over every run of it. */
module CommandLoop {
  import opened Base
  import opened FileMeaning
  import opened RateLimiter
  import opened Sessions
  import opened DataConnection
  import opened Transfers
  import opened Downloads
  import opened Uploads
  import AddressCodec
  import DataChannel
  import NobodyProcess
  import Streams

  // ---- what the commands do to the settings ----

  /** The system's accounts: getpwnam, getpwuid with getspnam, and crypt. */
  datatype Accounts = Accounts(byName: map<string, int>, shadow: map<int, string>, crypt: (string, string) -> string)

  /** The password of account `uid` is `password`. */
  predicate Matches(db: Accounts, uid: int, password: string) {
    uid in db.shadow && db.crypt(password, db.shadow[uid]) == db.shadow[uid]
  }

  type Six = v: seq<nat> | |v| == 6 witness [0, 0, 0, 0, 0, 0]
  type Port = b: seq<Byte> | |b| == 2 witness [0, 0]

  /** Everything the outside decides while one command is served. */
  datatype Turn = Turn(file: File, setup: Setup, sends: seq<Sending>, receives: seq<Receiving>,
                       accounts: Accounts, permitted: bool, numbers: Six, port: Port)

  /** config, as far as the loop uses it. */
  datatype Config = Config(listenAddress: seq<Byte>, maxUploadRate: nat, maxDownloadRate: nat) {
    predicate Valid() { |listenAddress| == 4 }
  }

  /** What the table of services holds for a name; every name not in it is Unknown, and LIST and
      NLST differ in the listing only. */
  datatype Service =
    | Unknown | Unimplemented | User | Pass | Port | Pasv | Rest | Type | Quit | Abor | Retr | Stor | Appe | List | Plain
  {
    predicate Login() { User? || Pass? }

    predicate Transfers() { Retr? || Stor? || Appe? || List? }

    predicate Handled() { !Unknown? && !Unimplemented? }
  }

  function Services(cmd: string): Service {
    match cmd
    case "USER" => User
    case "PASS" => Pass
    case "PORT" => Port
    case "PASV" => Pasv
    case "REST" => Rest
    case "TYPE" => Type
    case "QUIT" => Quit
    case "ABOR" => Abor
    case "RETR" => Service.Retr
    case "STOR" => Service.Stor
    case "APPE" => Service.Appe
    case "LIST" => List
    case "NLST" => List
    case "STRU" => Unimplemented
    case "MODE" => Unimplemented
    case "MDTM" => Unimplemented
    case "EPRT" => Unimplemented
    case "EPSV" => Unimplemented
    case "SYST" => Plain
    case "FEAT" => Plain
    case "PWD" => Plain
    case "CWD" => Plain
    case "CDUP" => Plain
    case "DELE" => Plain
    case "MKD" => Plain
    case "RMD" => Plain
    case "SIZE" => Plain
    case "RNFR" => Plain
    case "RNTO" => Plain
    case "NOOP" => Plain
    case "HELP" => Plain
    case "STAT" => Plain
    case "SITE" => Plain
    case _ => Unknown
  }

  /** The gate of the command loop and its table of handlers. */
  predicate Runs(a: Settings, c: Command) {
    (a.loggedIn || Services(c.cmd).Login()) && Services(c.cmd).Handled()
  }

  predicate Accepted(a: Settings, c: Command, t: Turn) {
    Services(c.cmd).User? && a.uid.None? && c.arg in t.accounts.byName
  }

  predicate Matched(a: Settings, c: Command, t: Turn) {
    Services(c.cmd).Pass? && a.uid.Some? && Matches(t.accounts, a.uid.value, c.arg)
  }

  /** The settings after a command that does not end the process. */
  function After(a: Settings, c: Command, t: Turn): Settings {
    if !Runs(a, c) then a
    else match Services(c.cmd)
      case User => if Accepted(a, c, t) then a.(uid := Some(t.accounts.byName[c.arg])) else a
      case Pass => if Matched(a, c, t) && t.permitted then a.(loggedIn := true, euid := a.uid.value) else a
      case Port => a.(activePort := true, portAddr := AddressCodec.SockAddr(AddressCodec.Numbers(c.arg, true, 0, t.numbers)))
      case Pasv => a.(activePasv := true)
      case Type => a.(asciiMode := c.arg == "A" || (a.asciiMode && c.arg != "I"))
      case _ => if Services(c.cmd).Transfers() then a.(activePort := false, activePasv := false) else a
  }

  /** The settings after some commands. */
  function Fold(a: Settings, cs: seq<Command>, ts: seq<Turn>): Settings
    requires |cs| <= |ts|
  {
    if cs == [] then a else After(Fold(a, cs[..|cs| - 1], ts), cs[|cs| - 1], ts[|cs| - 1])
  }

  // ---- login safety ----

  /** USER and PASS before place `k` that logged in as `u`: the first known name, then its password. */
  ghost predicate LoggedInAs(a: Settings, cs: seq<Command>, ts: seq<Turn>, u: int, i: nat, j: nat)
    requires |cs| <= |ts| && i < j < |cs|
  {
    && Accepted(Fold(a, cs[..i], ts), cs[i], ts[i]) && ts[i].accounts.byName[cs[i].arg] == u
    && Services(cs[j].cmd).Pass? && Matches(ts[j].accounts, u, cs[j].arg) && ts[j].permitted
  }

  lemma LoggedInMeans(a: Settings, cs: seq<Command>, ts: seq<Turn>, u: int, i: nat, j: nat)
    requires |cs| <= |ts| && i < j < |cs| && LoggedInAs(a, cs, ts, u, i, j)
    ensures cs[i].cmd == "USER" && cs[i].arg in ts[i].accounts.byName && ts[i].accounts.byName[cs[i].arg] == u
    ensures Fold(a, cs[..i], ts).uid.None?
    ensures cs[j].cmd == "PASS" && u in ts[j].accounts.shadow
    ensures ts[j].accounts.crypt(cs[j].arg, ts[j].accounts.shadow[u]) == ts[j].accounts.shadow[u]
  {
    UserOnly(cs[i].cmd);
    PassOnly(cs[j].cmd);
    hide Services, Fold;
  }

  lemma UserOnly(cmd: string)
    ensures Services(cmd).User? <==> cmd == "USER"
  {
  }

  lemma PassOnly(cmd: string)
    ensures Services(cmd).Pass? <==> cmd == "PASS"
  {
  }

  lemma {:induction false} FoldPrefix(a: Settings, cs: seq<Command>, ts: seq<Turn>, i: nat, k: nat)
    requires |cs| <= |ts| && i <= k <= |cs|
    ensures Fold(a, cs[..k][..i], ts) == Fold(a, cs[..i], ts)
  {
    assert cs[..k][..i] == cs[..i];
  }

  /** No command takes a login back or changes the account. */
  lemma AfterKeeps(a: Settings, c: Command, t: Turn)
    ensures a.loggedIn ==> After(a, c, t).loggedIn && (Matched(a, c, t) || After(a, c, t).euid == a.euid)
    ensures a.uid.Some? ==> After(a, c, t).uid == a.uid
    ensures !After(a, c, t).loggedIn ==> After(a, c, t) == a.(uid := After(a, c, t).uid)
    ensures After(a, c, t).loggedIn && !a.loggedIn ==>
              Matched(a, c, t) && t.permitted && After(a, c, t).euid == a.uid.value
    ensures After(a, c, t).uid.Some? && a.uid.None? ==>
              Accepted(a, c, t) && After(a, c, t).uid == Some(t.accounts.byName[c.arg])
  {
    hide Matches, Services;
  }

  /** Once an account is fixed no later command changes it, and a login is never undone. */
  lemma {:induction false} LoginStays(a: Settings, cs: seq<Command>, ts: seq<Turn>, i: nat)
    requires i <= |cs| <= |ts|
    ensures Fold(a, cs[..i], ts).uid.Some? ==> Fold(a, cs, ts).uid == Fold(a, cs[..i], ts).uid
    ensures Fold(a, cs[..i], ts).loggedIn ==> Fold(a, cs, ts).loggedIn
    decreases |cs|
  {
    if i == |cs| {
      assert cs[..i] == cs;
    } else {
      var n := |cs| - 1;
      FoldPrefix(a, cs, ts, i, n);
      LoginStays(a, cs[..n], ts, i);
      AfterKeeps(Fold(a, cs[..n], ts), cs[n], ts[n]);
      hide After, Matched, Accepted;
    }
  }

  /** A PASS that matches is for the account fixed. */
  lemma MatchedFixed(a: Settings, c: Command, t: Turn)
    requires Matched(a, c, t)
    ensures a.uid.Some? && (t.permitted ==> After(a, c, t).euid == a.uid.value && After(a, c, t).uid == a.uid)
    ensures !t.permitted ==> After(a, c, t) == a
  {
    hide Matches, Services;
  }

  /** A logged-in process has the effective user of the one account. */
  lemma {:induction false} LoggedInIsUser(a: Settings, cs: seq<Command>, ts: seq<Turn>)
    requires |cs| <= |ts| && !a.loggedIn
    ensures var s := Fold(a, cs, ts); s.loggedIn ==> s.uid.Some? && s.euid == s.uid.value
  {
    if cs != [] {
      var n := |cs| - 1;
      LoggedInIsUser(a, cs[..n], ts);
      AfterKeeps(Fold(a, cs[..n], ts), cs[n], ts[n]);
      if Matched(Fold(a, cs[..n], ts), cs[n], ts[n]) { MatchedFixed(Fold(a, cs[..n], ts), cs[n], ts[n]); }
      hide After, Matched, Accepted;
    }
  }

  /** The USER that fixed the account. */
  lemma {:induction false} AccountNamed(a: Settings, cs: seq<Command>, ts: seq<Turn>) returns (i: nat)
    requires |cs| <= |ts| && a.uid.None? && Fold(a, cs, ts).uid.Some?
    ensures i < |cs| && Accepted(Fold(a, cs[..i], ts), cs[i], ts[i])
    ensures Fold(a, cs, ts).uid == Some(ts[i].accounts.byName[cs[i].arg])
  {
    var n := |cs| - 1;
    AfterKeeps(Fold(a, cs[..n], ts), cs[n], ts[n]);
    if Fold(a, cs[..n], ts).uid.Some? {
      i := AccountNamed(a, cs[..n], ts);
      FoldPrefix(a, cs, ts, i, n);
      hide After, Accepted, Matched;
    } else {
      i := n;
    }
  }

  /** A process is logged in only because some PASS has a password that crypts to that of the account which an
      earlier USER fixed. */
  lemma {:induction false} LoginEarned(a: Settings, cs: seq<Command>, ts: seq<Turn>) returns (i: nat, j: nat)
    requires |cs| <= |ts| && !a.loggedIn && a.uid.None? && Fold(a, cs, ts).loggedIn
    ensures i < j < |cs| && Fold(a, cs, ts).uid.Some? && LoggedInAs(a, cs, ts, Fold(a, cs, ts).uid.value, i, j)
    ensures var u := Fold(a, cs, ts).uid.value;
            && cs[i].cmd == "USER" && cs[i].arg in ts[i].accounts.byName && ts[i].accounts.byName[cs[i].arg] == u
            && cs[j].cmd == "PASS" && u in ts[j].accounts.shadow
            && ts[j].accounts.crypt(cs[j].arg, ts[j].accounts.shadow[u]) == ts[j].accounts.shadow[u]
  {
    var n := |cs| - 1;
    var s := Fold(a, cs[..n], ts);
    AfterKeeps(s, cs[n], ts[n]);
    LoggedInIsUser(a, cs, ts);
    if s.loggedIn {
      LoggedInIsUser(a, cs[..n], ts);
      i, j := LoginEarned(a, cs[..n], ts);
      FoldPrefix(a, cs, ts, i, n);
      hide After, Accepted, Matched, Matches;
    } else {
      i := AccountNamed(a, cs[..n], ts);
      j := n;
      FoldPrefix(a, cs, ts, i, n);
    }
    LoggedInMeans(a, cs, ts, Fold(a, cs, ts).uid.value, i, j);
  }

  /** Before a login no setting but the account changes, and the nobody process is asked nothing. */
  lemma {:induction false} BeforeLogin(a: Settings, cs: seq<Command>, ts: seq<Turn>)
    requires |cs| <= |ts| && !Fold(a, cs, ts).loggedIn
    ensures Fold(a, cs, ts) == a.(uid := Fold(a, cs, ts).uid) && AllAsked(a, cs, ts) == []
  {
    if cs != [] {
      var n := |cs| - 1;
      AfterKeeps(Fold(a, cs[..n], ts), cs[n], ts[n]);
      LoginStays(a, cs, ts, n);
      BeforeLogin(a, cs[..n], ts);
      LoginAsksNothing(Fold(a, cs[..n], ts), cs[n]);
      hide After, Asked;
    }
  }

  lemma LoginAsksNothing(a: Settings, c: Command)
    requires !a.loggedIn
    ensures Asked(a, c) == []
  {
  }

  lemma AfterTransfer(a: Settings, c: Command, t: Turn)
    requires Services(c.cmd).Transfers() && Runs(a, c)
    ensures After(a, c, t) == a.(activePort := false, activePasv := false)
  {
    hide Matches, Services;
  }

  // ---- what the nobody process is asked ----

  function Asked(a: Settings, c: Command): seq<DataChannel.Request> {
    if !Runs(a, c) then []
    else if Services(c.cmd).Pasv? then [DataChannel.Listen]
    else if Services(c.cmd).Transfers() && OneMode(a) then [Request(a.activePort, a.portAddr)]
    else []
  }

  function AllAsked(a: Settings, cs: seq<Command>, ts: seq<Turn>): seq<DataChannel.Request>
    requires |cs| <= |ts|
  {
    if cs == [] then [] else AllAsked(a, cs[..|cs| - 1], ts) + Asked(Fold(a, cs[..|cs| - 1], ts), cs[|cs| - 1])
  }

  /** What is left of the nobody process's answers. */
  function Unheard(a: Settings, c: Command, input: seq<Byte>): seq<Byte> {
    if !Runs(a, c) then input
    else if Services(c.cmd).Pasv? then input[Min(2, |input|)..]
    else if Services(c.cmd).Transfers() && OneMode(a) then AnswerRest(input)
    else input
  }

  function AllUnheard(a: Settings, cs: seq<Command>, ts: seq<Turn>, input: seq<Byte>): seq<Byte>
    requires |cs| <= |ts|
  {
    if cs == [] then input
    else Unheard(Fold(a, cs[..|cs| - 1], ts), cs[|cs| - 1], AllUnheard(a, cs[..|cs| - 1], ts, input))
  }

  lemma OneAskedWellFormed(a: Settings, c: Command, t: Turn)
    requires |a.portAddr| == DataChannel.ADDR_LEN
    ensures |After(a, c, t).portAddr| == DataChannel.ADDR_LEN
    ensures forall q :: q in Asked(a, c) ==> DataChannel.WellFormed(q)
  {
    hide Matches, Services;
  }

  /** All requests of a run are well formed, so what `NobodyLoop` promises is promised of them. */
  lemma {:induction false} AskedWellFormed(a: Settings, cs: seq<Command>, ts: seq<Turn>)
    requires |cs| <= |ts| && |a.portAddr| == DataChannel.ADDR_LEN
    ensures |Fold(a, cs, ts).portAddr| == DataChannel.ADDR_LEN
    ensures forall i :: 0 <= i < |AllAsked(a, cs, ts)| ==> DataChannel.WellFormed(AllAsked(a, cs, ts)[i])
  {
    if cs != [] {
      var n := |cs| - 1;
      AskedWellFormed(a, cs[..n], ts);
      OneAskedWellFormed(Fold(a, cs[..n], ts), cs[n], ts[n]);
      hide After, Asked;
    }
  }

  // ---- the handlers that are no transfers ----

  const LONG_RANGE := 0x8000_0000_0000_0000

  /** std::stol; None is an exception, which nobody catches. */
  function Stol(s: string): Option<int> {
    var t := s[AddressCodec.Spaces(s)..];
    var sign := if t != "" && (t[0] == '-' || t[0] == '+') then 1 else 0;
    var n := AddressCodec.Digits(t[sign..]);
    var v: int := AddressCodec.Value(t[sign..][..n]);
    if n == 0 then None
    else if t[0] == '-' then (if v <= LONG_RANGE then Some(-v) else None)
    else if v < LONG_RANGE then Some(v) else None
  }

  /** The position a client prints is the position the next transfer starts from. */
  lemma RestartRoundTrip(n: nat)
    ensures Stol(AddressCodec.Decimal(n)) == if n < LONG_RANGE then Some(n) else None
  {
    var d := AddressCodec.Decimal(n);
    AddressCodec.DecimalValue(n);
    AddressCodec.DigitsThen(d, "");
    assert d + "" == d && AddressCodec.IsDigit(d[0]) && d[0..] == d && d[..|d|] == d;
  }

  /** A number as a client may write it: what follows the digits is ignored. */
  lemma {:induction false} StolWritten(blank: string, sign: string, d: string, rest: string)
    requires forall i :: 0 <= i < |blank| ==> blank[i] == ' ' || '\t' <= blank[i] <= '\r'
    requires sign == "" || sign == "-" || sign == "+"
    requires d != "" && AddressCodec.AllDigits(d) && (rest != "" ==> !('0' <= rest[0] <= '9'))
    ensures var n: int := AddressCodec.Value(d);
            Stol(blank + sign + d + rest)
            == if sign == "-" then (if n <= 0x8000_0000_0000_0000 then Some(-n) else None)
               else if n < 0x8000_0000_0000_0000 then Some(n) else None
  {
    AddressCodec.Written(blank, sign, d, rest);
    hide AddressCodec.Spaces, AddressCodec.Digits, AddressCodec.Value, AddressCodec.AllDigits;
  }

  method HandleUser(s: Session, db: Accounts)
    modifies s`uid, s`replies
    ensures s.uid == if old(s.uid).None? && s.arg in db.byName then Some(db.byName[s.arg]) else old(s.uid)
    ensures s.replies == old(s.replies) + [if old(s.uid).Some? then AlreadyLoggedIn530
                                           else if s.uid.Some? then PasswordPlease331 else LoginIncorrect530]
  {
    hide Spoke;
    if s.uid.Some? { s.Say(AlreadyLoggedIn530); return; }
    if s.arg !in db.byName { s.Say(LoginIncorrect530); return; }
    s.Say(PasswordPlease331);
    s.uid := Some(db.byName[s.arg]);
  }

  /** `permitted` is false when set_permissions fails, which ends the process. */
  method HandlePass(s: Session, db: Accounts, permitted: bool) returns (exited: bool)
    modifies s`loggedIn, s`euid, s`replies
    ensures var matched := s.uid.Some? && s.uid.value in db.shadow
                           && db.crypt(s.arg, db.shadow[s.uid.value]) == db.shadow[s.uid.value];
            && (exited <==> matched && !permitted)
            && (if matched && permitted then s.loggedIn && s.euid == s.uid.value
                else s.loggedIn == old(s.loggedIn) && s.euid == old(s.euid))
            && s.replies == if exited then old(s.replies)
                            else old(s.replies) + [if matched then LoggedIn230
                                                   else if s.uid.None? then UseUserFirst530 else LoginIncorrect530]
  {
    hide Spoke;
    exited := false;
    if s.uid.None? { s.Say(UseUserFirst530); return; }
    if s.uid.value !in db.shadow { s.Say(LoginIncorrect530); return; }
    var encrypted := db.crypt(s.arg, db.shadow[s.uid.value]);
    if encrypted != db.shadow[s.uid.value] { s.Say(LoginIncorrect530); return; }
    if !permitted { return true; }
    s.euid := s.uid.value;
    s.Say(LoggedIn230);
    s.loggedIn := true;
  }

  method HandleRest(s: Session) returns (exited: bool)
    modifies s`restartPosition, s`replies
    ensures exited <==> Stol(s.arg).None?
    ensures exited ==> s.restartPosition == old(s.restartPosition) && s.replies == old(s.replies)
    ensures !exited ==> Some(s.restartPosition) == Stol(s.arg)
                        && s.replies == old(s.replies) + [RestAccepted350(s.restartPosition % (2 * LONG_RANGE))]
  {
    hide Spoke, Stol;
    var v := Stol(s.arg);
    if v.None? { return true; }
    s.restartPosition := v.value;
    s.Say(RestAccepted350(s.restartPosition % (2 * LONG_RANGE)));  // printed as a size_t
    return false;
  }

  method HandleType(s: Session)
    modifies s`asciiMode, s`replies
    ensures s.asciiMode == (s.arg == "A" || (old(s.asciiMode) && s.arg != "I"))
    ensures s.replies == old(s.replies) + [if s.arg == "A" || s.arg == "I" then TypeOk200(s.asciiMode) else BadType500]
  {
    hide Spoke;
    if s.arg == "A" {
      s.asciiMode := true;
      s.Say(TypeOk200(true));
    } else if s.arg == "I" {
      s.asciiMode := false;
      s.Say(TypeOk200(false));
    } else {
      s.Say(BadType500);
    }
  }

  method SayAndWait(s: Session, r: Reply, ghost before: Log, ghost said: seq<Reply>, ghost open: bool, ghost n: nat)
    returns (exited: bool)
    requires !r.UrgentUnknown500? && Told(before, s.View(), said, open, n)
    requires open == (s.dataFd != -1) && s.shut == (before.aborts < s.aborts)
    modifies s`cmd, s`arg, s`receivedAbor, s`replies, s`aborts, s`others, s`signals, s`parsed, s`shut
    modifies s.control`plan, s.control`input
    ensures if exited then Short(before, 0) else Told(before, s.View(), said + [r], open, n + 1)
    ensures !exited ==> s.shut == (before.aborts < s.aborts) == Noted(before, open, n + 1)
  {
    hide Told, Short, Noted;
    Tell(s, r, before, said, open, n);
    exited := Signalled(s, before, said + [r], open, n);
    if !exited { ToldMeans(before, s.View(), said + [r], open, n + 1); }
  }

  /** An ABOR shuts the connection down before an entry is written to it: SIGPIPE. */
  predicate ListDies(b: Log, t: Setup, open: bool) {
    t.entries > 0 && Noted(b, open, 1)
  }

  /** LIST and NLST, the listing aside. An ABOR is noted and stays noted. */
  ghost predicate ListDone(b: Snapshot, a: Snapshot, t: Setup, exited: bool, open: bool, said: seq<Reply>) {
    if exited then Short(b.log, 0) || Unanswered(b, t) || ListDies(b.log, t, open)
    else
      && a.settings == b.settings.(activePort := false, activePasv := false) && a.restart == b.restart
      && if said == [Listing150, Listed226]
         then Told(b.log, a.log, said, open, 2) && Arranged(b, a.pic, t, true, open) && !ListDies(b.log, t, open)
         else said == NoTransfer(b.settings) && Told(b.log, a.log, said, open, 0) && Arranged(b, a.pic, t, false, open)
  }

  lemma Listable(b: Log, t: Setup, open: bool)
    ensures ListDies(b, t, open) <==> t.entries > 0 && Noted(b, open, 1)
  {
  }

  method SayListing(s: Session, t: Setup, ghost before: Log, ghost open: bool) returns (exited: bool)
    requires Told(before, s.View(), [], open, 0) && open == (s.dataFd != -1) && s.shut == (before.aborts < s.aborts)
    modifies s`cmd, s`arg, s`receivedAbor, s`replies, s`aborts, s`others, s`signals, s`parsed, s`shut
    modifies s.control`plan, s.control`input
    ensures if exited then Short(before, 0) || ListDies(before, t, open)
            else Told(before, s.View(), [Listing150, Listed226], open, 2) && !ListDies(before, t, open)
  {
    hide *;
    assert [] + [Listing150] == [Listing150] && [Listing150] + [Listed226] == [Listing150, Listed226];
    exited := SayAndWait(s, Listing150, before, [], open, 0);
    if exited { return; }
    Listable(before, t, open);
    if s.shut && t.entries > 0 { return true; }
    exited := SayAndWait(s, Listed226, before, [Listing150], open, 1);
  }

  lemma ListExits(b: Snapshot, a: Snapshot, t: Setup, open: bool, said: seq<Reply>)
    requires Short(b.log, 0) || Unanswered(b, t) || ListDies(b.log, t, open)
    ensures ListDone(b, a, t, true, open, said)
  {
    hide Short, Unanswered, Told, Arranged, NoTransfer, ListDies;
  }

  lemma ListIs(b: Snapshot, a: Snapshot, t: Setup, open: bool)
    requires a.settings == b.settings.(activePort := false, activePasv := false) && a.restart == b.restart
    requires Told(b.log, a.log, [Listing150, Listed226], open, 2) && Arranged(b, a.pic, t, true, open)
    requires !ListDies(b.log, t, open)
    ensures ListDone(b, a, t, false, open, [Listing150, Listed226])
  {
    hide Short, Unanswered, Told, Arranged, NoTransfer, ListDies;
  }

  lemma NotListed(b: Snapshot, a: Snapshot, t: Setup, said: seq<Reply>)
    requires a.settings == b.settings.(activePort := false, activePasv := false) && a.restart == b.restart
    requires Told(b.log, a.log, said, false, 0) && Arranged(b, a.pic, t, false, false) && said == NoTransfer(b.settings)
    ensures ListDone(b, a, t, false, false, said)
  {
    assert NoTransfer(b.settings)[|NoTransfer(b.settings)| - 1] == NoConnection550;
    hide Short, Unanswered, Told, Arranged, ListDies;
  }

  /** The listing, once there is a connection for it. */
  method ListFiles(s: Session, t: Setup, ghost b: Snapshot, ghost open: bool) returns (exited: bool)
    requires |s.portAddr| == 16 && s.control != s.pic
    requires s.Now().settings == b.settings && s.restartPosition == b.restart && Arranged(b, s.Now().pic, t, true, open)
    requires Told(b.log, s.View(), [], open, 0) && open == (s.dataFd != -1) && s.shut == (b.log.aborts < s.aborts)
    modifies s`cmd, s`arg, s`receivedAbor, s`replies, s`aborts, s`others, s`signals, s`parsed, s`shut
    modifies s`dataFd, s`activePasv, s`activePort, s.control`plan, s.control`input
    ensures ListDone(b, s.Now(), t, exited, open, [Listing150, Listed226])
    ensures !exited ==> Ready(s)
  {
    hide Told, Short, Arranged, Unanswered, NoTransfer, ListDone, ListDies;
    exited := SayListing(s, t, b.log, open);
    if exited {
      ListExits(b, s.Now(), t, open, [Listing150, Listed226]);
      return;
    }
    s.ResetDataFd();
    ListIs(b, s.Now(), t, open);
  }

  /** handle_list and handle_nlst */
  method HandleList(s: Session, t: Setup) returns (exited: bool, ghost open: bool, ghost said: seq<Reply>)
    requires AtHead(s)
    modifies s`cmd, s`arg, s`receivedAbor, s`replies, s`aborts, s`others, s`signals, s`parsed, s`shut
    modifies s`dataFd, s`activePasv, s`activePort, s.control`plan, s.control`input, s.pic
    ensures ListDone(old(s.Now()), s.Now(), t, exited, open, said)
    ensures !exited ==> Ready(s)
  {
    hide Told, Short, Arranged, Unanswered, NoTransfer, ListDone;
    ghost var b := s.Now();
    var refused;
    exited, refused, said := Establish(s, t);
    open := s.dataFd != -1;
    if exited {
      ListExits(b, s.Now(), t, open, said);
      return;
    }
    if refused {
      NotListed(b, s.Now(), t, said);
      return;
    }
    said := [Listing150, Listed226];
    exited := ListFiles(s, t, b, open);
  }

  // ---- one command ----

  /** The one reply to a command that is neither PASV nor a transfer that runs. */
  function Answer(a: Settings, c: Command, t: Turn): Reply {
    if !a.loggedIn && !Services(c.cmd).Login() then LoginFirst500
    else match Services(c.cmd)
      case Unknown => UnknownCommand500
      case Unimplemented => Unimplemented502
      case User => if a.uid.Some? then AlreadyLoggedIn530
                   else if Accepted(a, c, t) then PasswordPlease331 else LoginIncorrect530
      case Pass => if a.uid.None? then UseUserFirst530 else if Matched(a, c, t) then LoggedIn230 else LoginIncorrect530
      case Port => PortOk200
      case Rest => RestAccepted350((if Stol(c.arg).Some? then Stol(c.arg).value else 0) % (2 * LONG_RANGE))
      case Type => if c.arg == "A" || c.arg == "I" then TypeOk200(c.arg == "A") else BadType500
      case Quit => Goodbye221
      case Abor => NoTransfer225
      case _ => OneCall(c.cmd)
  }

  /** The commands, transfers aside, that end the process: QUIT, a REST without a number, and a PASS
      that matches when the permissions cannot be set. */
  predicate Quits(a: Settings, c: Command, t: Turn) {
    && Runs(a, c)
    && (Services(c.cmd).Quit? || (Services(c.cmd).Rest? && Stol(c.arg).None?) || (Matched(a, c, t) && !t.permitted))
  }

  function Restarted(b: Snapshot): int {
    if Runs(b.settings, b.log.last) && Services(b.log.last.cmd).Rest? && Stol(b.log.last.arg).Some?
    then Stol(b.log.last.arg).value else b.restart
  }

  /** A command that talks to nobody but the client: its setting, its reply, and nothing else. */
  ghost predicate SimpleDone(b: Snapshot, a: Snapshot, t: Turn, exited: bool) {
    var c := b.log.last;
    && (exited <==> Quits(b.settings, c, t))
    && a == if exited && !Services(c.cmd).Quit? then b
            else b.(settings := After(b.settings, c, t), restart := Restarted(b),
                    log := b.log.(replies := b.log.replies + [Answer(b.settings, c, t)]))
  }

  /** PASV: one request out, two bytes of port in and quoted. */
  ghost predicate PasvDone(b: Snapshot, a: Snapshot, config: Config)
    requires config.Valid()
  {
    && a.settings == b.settings.(activePasv := true) && a.restart == b.restart
    && Streams.Rest(a.pic.plan, b.pic.plan)
    && (exists port: nat :: port < 0x1_0000
          && a.log == b.log.(replies := b.log.replies + [Passive227(AddressCodec.PasvBody(config.listenAddress, port))])
          && (Streams.Steady(b.pic.plan) && |b.pic.input| >= 2 ==> port == Word16(b.pic.input[0], b.pic.input[1])))
    && (Streams.Steady(b.pic.plan) ==>
          && a.pic.output == b.pic.output + DataChannel.Encode(DataChannel.Listen)
          && a.pic.input == b.pic.input[Min(2, |b.pic.input|)..])
  }

  /** What a handler has to tell besides the session it leaves. */
  datatype Deed =
    NoDeed | Retrieved(sent: Bytes, download: Download) | StoredBy(storage: Storage) | ListedBy(open: bool, said: seq<Reply>)

  /** One command: the session before and after, the command's file, and the time it took. */
  datatype Step = Step(before: Snapshot, after: Snapshot, was: Bytes, now: Bytes, from: real, to: real, deed: Deed)

  /** The command last parsed ran its own handler, if it has one and may, and otherwise none. */
  ghost predicate Performed(x: Step, t: Turn, config: Config, exited: bool)
    requires config.Valid()
  {
    var (b, c) := (x.before, x.before.log.last);
    var service := if Runs(b.settings, c) then Services(c.cmd) else Unknown;
    match service
    case Retr =>
      x.deed.Retrieved? && RetrDone(b, x.after, t.setup, t.sends, config.maxDownloadRate, x.was, x.now, x.from, x.to,
                                    exited, x.deed.sent, x.deed.download)
    case Stor =>
      x.deed.StoredBy? && StoreDone(b, x.after, false, t.setup, t.receives, config.maxUploadRate, x.was, x.now, x.from,
                                    x.to, exited, x.deed.storage)
    case Appe =>
      x.deed.StoredBy? && StoreDone(b, x.after, true, t.setup, t.receives, config.maxUploadRate, x.was, x.now, x.from,
                                    x.to, exited, x.deed.storage)
    case List =>
      x.deed.ListedBy? && ListDone(b, x.after, t.setup, exited, x.deed.open, x.deed.said)
      && x.was == x.now && x.from == x.to
    case Pasv => !exited && PasvDone(b, x.after, config) && x.was == x.now && x.from == x.to
    case _ => SimpleDone(b, x.after, t, exited) && x.was == x.now && x.from == x.to
  }

  /** USER and PASS. */
  method Login(s: Session, t: Turn) returns (exited: bool)
    requires Services(s.cmd).Login()
    modifies s`uid, s`loggedIn, s`euid, s`replies
    ensures SimpleDone(old(s.Now()), s.Now(), t, exited)
  {
    hide Stol, Services;
    exited := false;
    if Services(s.cmd).User? {
      HandleUser(s, t.accounts);
    } else {
      exited := HandlePass(s, t.accounts, t.permitted);
    }
  }

  function Said(b: Snapshot, a: Settings, restart: int, r: Reply): Snapshot {
    b.(settings := a, restart := restart, log := b.log.(replies := b.log.replies + [r]))
  }

  lemma PortIs(b: Snapshot, t: Turn)
    requires b.settings.loggedIn && Services(b.log.last.cmd).Port?
    ensures var v := AddressCodec.SockAddr(AddressCodec.Numbers(b.log.last.arg, true, 0, t.numbers));
            SimpleDone(b, Said(b, b.settings.(activePort := true, portAddr := v), b.restart, PortOk200), t, false)
  {
    hide Services, Stol, Matches, AddressCodec.Numbers, AddressCodec.SockAddr;
  }

  lemma RestIs(b: Snapshot, t: Turn)
    requires b.settings.loggedIn && Services(b.log.last.cmd).Rest?
    ensures var v := Stol(b.log.last.arg);
            if v.None? then SimpleDone(b, b, t, true)
            else SimpleDone(b, Said(b, b.settings, v.value, RestAccepted350(v.value % (2 * LONG_RANGE))), t, false)
  {
    hide Services, Stol, Matches;
  }

  lemma TypeIs(b: Snapshot, t: Turn)
    requires b.settings.loggedIn && Services(b.log.last.cmd).Type?
    ensures var (arg, ascii) := (b.log.last.arg, b.log.last.arg == "A" || (b.settings.asciiMode && b.log.last.arg != "I"));
            SimpleDone(b, Said(b, b.settings.(asciiMode := ascii), b.restart,
                               if arg == "A" || arg == "I" then TypeOk200(ascii) else BadType500), t, false)
  {
    hide Services, Stol, Matches;
  }

  /** PORT, REST and TYPE. */
  method Set(s: Session, t: Turn) returns (exited: bool)
    requires s.loggedIn && |s.portAddr| == 16
    requires Services(s.cmd).Port? || Services(s.cmd).Rest? || Services(s.cmd).Type?
    modifies s`portAddr, s`activePort, s`restartPosition, s`asciiMode, s`replies
    ensures SimpleDone(old(s.Now()), s.Now(), t, exited) && |s.portAddr| == 16
  {
    hide Stol, Services, SimpleDone, AddressCodec.Numbers, AddressCodec.SockAddr;
    ghost var b := s.Now();
    exited := false;
    if Services(s.cmd).Port? {
      PortIs(b, t);
      HandlePort(s, t.numbers);
    } else if Services(s.cmd).Rest? {
      RestIs(b, t);
      exited := HandleRest(s);
    } else {
      TypeIs(b, t);
      HandleType(s);
    }
  }

  lemma FixedIs(b: Snapshot, t: Turn)
    requires b.settings.loggedIn
    ensures Services(b.log.last.cmd).Quit? ==> SimpleDone(b, Said(b, b.settings, b.restart, Goodbye221), t, true)
    ensures Services(b.log.last.cmd).Abor? ==> SimpleDone(b, Said(b, b.settings, b.restart, NoTransfer225), t, false)
    ensures Services(b.log.last.cmd).Plain? ==>
              SimpleDone(b, Said(b, b.settings, b.restart, OneCall(b.log.last.cmd)), t, false)
  {
    hide Services, Stol, Matches;
  }

  /** The handlers that only reply. */
  method Fixed(s: Session, t: Turn) returns (exited: bool)
    requires s.loggedIn && (Services(s.cmd).Quit? || Services(s.cmd).Abor? || Services(s.cmd).Plain?)
    modifies s`replies
    ensures SimpleDone(old(s.Now()), s.Now(), t, exited)
  {
    hide Services, Spoke, SimpleDone;
    FixedIs(s.Now(), t);
    exited := Services(s.cmd).Quit?;
    s.Say(if Services(s.cmd).Quit? then Goodbye221 else if Services(s.cmd).Abor? then NoTransfer225 else OneCall(s.cmd));
  }

  lemma LoginsByName(cmd: string)
    ensures Services(cmd).Login() <==> cmd == "USER" || cmd == "PASS"
  {
  }

  lemma RejectedIs(b: Snapshot, t: Turn)
    requires !Runs(b.settings, b.log.last)
    ensures var (a, service) := (b.settings, Services(b.log.last.cmd));
            var r := if !a.loggedIn && !service.Login() then LoginFirst500
                     else if service.Unknown? then UnknownCommand500 else Unimplemented502;
            SimpleDone(b, Said(b, a, b.restart, r), t, false)
  {
    hide Services, Stol, Matches;
  }

  /** The gate: whether the command runs, and otherwise only a reply. */
  method Gate(s: Session, ghost t: Turn) returns (runs: bool)
    modifies s`replies
    ensures runs <==> Runs(s.Now().settings, s.View().last)
    ensures !runs ==> SimpleDone(old(s.Now()), s.Now(), t, false)
    ensures runs ==> s.replies == old(s.replies)
  {
    LoginsByName(s.cmd);
    hide Services, Spoke, SimpleDone;
    if !Runs(s.Now().settings, s.View().last) { RejectedIs(s.Now(), t); }
    if !s.loggedIn && s.cmd != "USER" && s.cmd != "PASS" {
      s.Say(LoginFirst500);
      return false;
    }
    var service := Services(s.cmd);
    if service.Unknown? || service.Unimplemented? {
      s.Say(if service.Unknown? then UnknownCommand500 else Unimplemented502);
      return false;
    }
    return true;
  }

  lemma SimplePerformed(x: Step, t: Turn, config: Config, exited: bool)
    requires config.Valid() && SimpleDone(x.before, x.after, t, exited) && x.was == x.now && x.from == x.to
    requires var (a, c) := (x.before.settings, x.before.log.last);
             Runs(a, c) ==> !Services(c.cmd).Transfers() && !Services(c.cmd).Pasv?
    ensures Performed(x, t, config, exited)
  {
    hide SimpleDone, Services;
  }

  /** The handlers that neither transfer nor talk to the nobody process. */
  method Simple(s: Session, t: Turn) returns (exited: bool)
    requires AtHead(s) && Runs(s.Now().settings, s.View().last)
    requires !Services(s.cmd).Transfers() && !Services(s.cmd).Pasv?
    modifies s`uid, s`loggedIn, s`euid, s`portAddr, s`activePort, s`restartPosition, s`asciiMode, s`replies
    ensures SimpleDone(old(s.Now()), s.Now(), t, exited) && AtHead(s)
  {
    hide SimpleDone, Services;
    var service := Services(s.cmd);
    if service.Login() {
      exited := Login(s, t);
    } else if service.Port? || service.Rest? || service.Type? {
      exited := Set(s, t);
    } else {
      exited := Fixed(s, t);
    }
  }

  /** The transfer handlers, by command. */
  method Transfer(s: Session, t: Turn, config: Config, clock: Clock) returns (exited: bool, ghost x: Step)
    requires AtHead(s) && config.Valid() && Runs(s.Now().settings, s.View().last) && Services(s.cmd).Transfers()
    modifies s`cmd, s`arg, s`receivedAbor, s`replies, s`aborts, s`others, s`signals, s`parsed, s`shut, s`timePoint, s`restartPosition
    modifies s`dataFd, s`activePasv, s`activePort, s.control`plan, s.control`input, s.pic, t.file, clock
    ensures x == Step(old(s.Now()), s.Now(), old(t.file.data), t.file.data, old(clock.now), clock.now, x.deed)
    ensures Performed(x, t, config, exited) && (!exited ==> AtHead(s))
  {
    hide Services, RetrDone, StoreDone, ListDone;
    ghost var b, was, from := s.Now(), t.file.data, clock.now;
    ghost var deed;
    var service := Services(s.cmd);
    if service.Retr? {
      var sent;
      ghost var d;
      exited, sent, d := HandleRetr(s, t.file, t.setup, t.sends, config.maxDownloadRate, clock);
      deed := Retrieved(sent, d);
    } else if service.List? {
      ghost var open, said;
      exited, open, said := HandleList(s, t.setup);
      deed := ListedBy(open, said);
    } else {
      ghost var d;
      exited, d := UploadAuxiliary(s, t.file, service.Appe?, t.setup, t.receives, config.maxUploadRate, clock);
      deed := StoredBy(d);
    }
    x := Step(b, s.Now(), was, t.file.data, from, clock.now, deed);
  }

  /** PASV as a step. */
  method Passive(s: Session, t: Turn, config: Config)
    requires AtHead(s) && config.Valid()
    modifies s`activePasv, s`replies, s.pic
    ensures PasvDone(old(s.Now()), s.Now(), config) && AtHead(s)
  {
    hide Streams.Steady, Streams.Rest, DataChannel.Encode, Word16, AddressCodec.PasvBody;
    HandlePasv(s, config.listenAddress, t.port);
  }

  lemma PasvPerformed(x: Step, t: Turn, config: Config)
    requires config.Valid() && PasvDone(x.before, x.after, config) && x.was == x.now && x.from == x.to
    requires Runs(x.before.settings, x.before.log.last) && Services(x.before.log.last.cmd).Pasv?
    ensures Performed(x, t, config, false)
  {
    hide PasvDone, Services;
  }

  /** One command, once parsed: the gate, the table, the handler. A command that does not run leaves
      everything but the reply alone. */
  method Dispatch(s: Session, t: Turn, config: Config, clock: Clock) returns (exited: bool, ghost x: Step)
    requires AtHead(s) && config.Valid()
    modifies s, s.control`plan, s.control`input, s.pic, t.file, clock
    ensures x == Step(old(s.Now()), s.Now(), old(t.file.data), t.file.data, old(clock.now), clock.now, x.deed)
    ensures Performed(x, t, config, exited) && (!exited ==> AtHead(s))
    ensures !Runs(old(s.Now()).settings, old(s.View()).last) ==>
              && !exited && s.replies == old(s.replies) + [Answer(old(s.Now()).settings, old(s.View()).last, t)]
              && unchanged(s`cmd, s`arg, s`loggedIn, s`activePort, s`portAddr, s`activePasv, s`dataFd, s`asciiMode, s`uid,
                           s`restartPosition, s`receivedAbor, s`timePoint, s`euid, s`signals, s`aborts, s`others, s`parsed)
              && unchanged(s.control, s.pic, t.file, clock)
  {
    hide SimpleDone, PasvDone, Services, Performed, Runs, Answer;
    ghost var b, was, from := s.Now(), t.file.data, clock.now;
    exited := false;
    var runs := Gate(s, t);
    if !runs {
      x := Step(b, s.Now(), was, was, from, from, NoDeed);
      SimplePerformed(x, t, config, false);
      RejectedAnswer(b, s.Now(), t);
    } else if Services(s.cmd).Transfers() {
      exited, x := Transfer(s, t, config, clock);
    } else if Services(s.cmd).Pasv? {
      Passive(s, t, config);
      x := Step(b, s.Now(), was, was, from, from, NoDeed);
      PasvPerformed(x, t, config);
    } else {
      exited := Simple(s, t);
      x := Step(b, s.Now(), was, was, from, from, NoDeed);
      SimplePerformed(x, t, config, exited);
    }
  }

  lemma RejectedAnswer(b: Snapshot, a: Snapshot, t: Turn)
    requires !Runs(b.settings, b.log.last) && SimpleDone(b, a, t, false)
    ensures a.log.replies == b.log.replies + [Answer(b.settings, b.log.last, t)]
  {
    hide Services, Answer, After;
  }

  // ---- runs of the loop ----

  /** One line was read and parsed, and nothing else happened. */
  ghost predicate Parsed(b: Snapshot, a: Snapshot) {
    && a == b.(log := b.log.(parsed := a.log.parsed, last := a.log.last, input := a.log.input, fails := a.log.fails))
    && Listened(b.log, a.log) && |a.log.parsed| == |b.log.parsed| + 1
  }

  function End(b: Snapshot, xs: seq<Step>): Snapshot {
    if xs == [] then b else xs[|xs| - 1].after
  }

  /** From `b`, lines were parsed and their commands performed one after another. */
  ghost predicate IsRun(b: Snapshot, xs: seq<Step>, ts: seq<Turn>, config: Config)
    requires config.Valid() && |xs| <= |ts|
  {
    xs == [] ||
    var n := |xs| - 1;
    IsRun(b, xs[..n], ts, config) && Parsed(End(b, xs[..n]), xs[n].before) && Performed(xs[n], ts[n], config, false)
  }

  /** The commands of a run. */
  function Heads(xs: seq<Step>): (cs: seq<Command>)
    ensures |cs| == |xs|
  {
    if xs == [] then [] else Heads(xs[..|xs| - 1]) + [xs[|xs| - 1].before.log.last]
  }

  /** What ends the process after `b`: no line to read, or the next command. */
  ghost predicate Fatal(b: Snapshot, last: Option<Step>, t: Turn, config: Config)
    requires config.Valid()
  {
    match last
    case None => b.log.fails || LinesLeft(b.log.input) == 0
    case Some(x) => Parsed(b, x.before) && Performed(x, t, config, true)
  }

  lemma {:induction false} RunGrows(b: Snapshot, xs: seq<Step>, ts: seq<Turn>, config: Config, x: Step)
    requires config.Valid() && |xs| < |ts| && IsRun(b, xs, ts, config)
    requires Parsed(End(b, xs), x.before) && Performed(x, ts[|xs|], config, false)
    ensures IsRun(b, xs + [x], ts, config) && End(b, xs + [x]) == x.after
  {
    hide Parsed, Performed;
    assert (xs + [x])[..|xs|] == xs;
  }

  /** Read and parse the next command. */
  method Next(s: Session) returns (exited: bool)
    requires AtHead(s)
    modifies s`cmd, s`arg, s`parsed, s.control`plan, s.control`input
    ensures if exited then old(s.View()).fails || LinesLeft(old(s.View()).input) == 0
            else Parsed(old(s.Now()), s.Now()) && AtHead(s)
  {
    hide Parse, Text, Streams.LineLength, LinesLeft, Listened;
    exited := s.ParseCommand();
  }

  /** The FTP process, for as many commands as it is given: a run from the greeting on, and when it
      ends the process, what ended it. No data connection is left open between commands. */
  method StartFtpService(s: Session, turns: seq<Turn>, config: Config, clock: Clock)
    returns (exited: bool, ghost xs: seq<Step>, ghost last: Option<Step>)
    requires AtHead(s) && config.Valid()
    modifies s, s.control`plan, s.control`input, s.pic, clock, set t | t in turns :: t.file
    ensures var b := Said(old(s.Now()), old(s.Now()).settings, old(s.Now()).restart, Greeting220);
            && |xs| <= |turns| && IsRun(b, xs, turns, config)
            && (exited ==> |xs| < |turns| && Fatal(End(b, xs), last, turns[|xs|], config))
            && (!exited ==> |xs| == |turns| && s.Now() == End(b, xs) && AtHead(s))
  {
    hide Parsed, Performed, Spoke, LinesLeft, IsRun;
    s.Say(Greeting220);
    ghost var b := s.Now();
    exited, xs, last := false, [], None;
    EmptyRun(b, turns, config);
    for k := 0 to |turns|
      invariant |xs| == k && IsRun(b, xs, turns, config) && s.Now() == End(b, xs) && AtHead(s)
    {
      exited := Next(s);
      if exited { return; }
      ghost var x;
      exited, x := Dispatch(s, turns[k], config, clock);
      if exited {
        last := Some(x);
        return;
      }
      RunGrows(b, xs, turns, config, x);
      xs := xs + [x];
    }
  }

  lemma EmptyRun(b: Snapshot, ts: seq<Turn>, config: Config)
    requires config.Valid()
    ensures IsRun(b, [], ts, config) && End(b, []) == b
  {
  }

  // ---- what holds over every run ----

  /** Between `a` and `b` the loop itself took `n` lines, and every other line taken answered a SIGURG. */
  ghost predicate Took(a: Log, b: Log, n: nat) {
    var urgent := (b.aborts - a.aborts) + (b.others - a.others);
    && Listened(a, b) && a.aborts <= b.aborts && a.others <= b.others
    && |b.parsed| == |a.parsed| + n + urgent
    && Arriving(b.signals) + urgent <= Arriving(a.signals)
  }

  lemma TookTrans(a: Log, b: Log, c: Log, n: nat, m: nat)
    requires Took(a, b, n) && Took(b, c, m)
    ensures Took(a, c, n + m)
  {
    hide Listened, Arriving, LinesLeft;
    ListenedTrans(a, b, c);
  }

  /** A handler's log: what it said and the points it passed, with the ABOR flag cleared or not. */
  ghost predicate Handled(a: Log, b: Log, said: seq<Reply>, open: bool, n: nat) {
    Told(a, b, said, open, n) || Replied(a, b, said, open, n)
  }

  lemma {:induction false} HandledTook(a: Log, b: Log, said: seq<Reply>, open: bool, n: nat)
    requires Handled(a, b, said, open, n)
    ensures Took(a, b, 0)
  {
    hide Commands, Behind, Arriving, Main, Last, Points;
  }

  lemma SaidTook(a: Log, rs: seq<Reply>)
    ensures Took(a, a.(replies := rs), 0)
  {
    hide Commands, Behind, Arriving;
    ListenedNothing(a);
  }

  lemma ParsedTook(b: Snapshot, a: Snapshot)
    requires Parsed(b, a)
    ensures Took(b.log, a.log, 1)
  {
    hide Listened, Arriving;
  }

  /** How a transfer command leaves its session, done or refused. */
  ghost predicate TransferLeft(b: Snapshot, a: Snapshot, t: Setup) {
    && a.settings == b.settings.(activePort := false, activePasv := false)
    && (exists ok, open :: Arranged(b, a.pic, t, ok, open)) && (exists said, open, n :: Handled(b.log, a.log, said, open, n))
  }

  lemma LeftBy(b: Snapshot, a: Snapshot, t: Setup, ok: bool, open: bool, said: seq<Reply>, n: nat)
    requires a.settings == b.settings.(activePort := false, activePasv := false)
    requires Arranged(b, a.pic, t, ok, open) && Handled(b.log, a.log, said, open, n)
    ensures TransferLeft(b, a, t)
  {
    hide Arranged, Handled;
  }

  lemma RetrLeaves(b: Snapshot, a: Snapshot, t: Setup, sends: seq<Sending>, limit: nat, was: Bytes, now: Bytes, from: real,
                   to: real, sent: Bytes, d: Download)
    requires RetrDone(b, a, t, sends, limit, was, now, from, to, false, sent, d)
    ensures TransferLeft(b, a, t)
  {
    hide Told, Replied, Arranged, Downloaded, NoTransfer, CanRead, Until, RetrMoves, GetsLock, RetrEnding, Unbroken,
      Broken,
      Passed, RefusedPoints, TransferLeft;
    if d.Served? {
      var points := Passed(sends, d.rounds) + 1;
      LeftBy(b, a, t, true, d.open, RetrEnding(b.log, d.open, points, d.failed), points);
    } else if d.said == [CannotOpen550] {
      LeftBy(b, a, t, true, d.open, d.said, RefusedPoints(t));
    } else {
      LeftBy(b, a, t, false, d.open, d.said, 0);
    }
  }

  lemma StoreLeaves(b: Snapshot, a: Snapshot, append: bool, t: Setup, receives: seq<Receiving>, limit: nat, was: Bytes,
                    now: Bytes, from: real, to: real, d: Storage)
    requires StoreDone(b, a, append, t, receives, limit, was, now, from, to, false, d)
    ensures TransferLeft(b, a, t)
  {
    hide Told, Replied, Arranged, Uploaded, NoTransfer, CanWrite, Cannot, Until, StoreMoves, GetsLock, StoreReplies,
      Reads,
      BrokenOff, KeptOn, StorePassed, DeclinedPoints, TransferLeft, Arrives;
    if d.Stored? {
      var points := StorePassed(b.log, d.open, Reads(receives, b.log, d.open), d.rounds) + 1;
      LeftBy(b, a, t, true, d.open, StoreReplies(b, d.open, |was|, points, d.flag), points);
    } else if d.said == [Cannot(t)] {
      LeftBy(b, a, t, true, d.open, d.said, DeclinedPoints(t));
    } else {
      LeftBy(b, a, t, false, d.open, d.said, 0);
    }
  }

  lemma ListLeaves(b: Snapshot, a: Snapshot, t: Setup, open: bool, said: seq<Reply>)
    requires ListDone(b, a, t, false, open, said)
    ensures TransferLeft(b, a, t)
  {
    hide Told, Arranged, NoTransfer, ListDies, TransferLeft;
    if said == [Listing150, Listed226] {
      LeftBy(b, a, t, true, open, said, 2);
    } else {
      LeftBy(b, a, t, false, open, said, 0);
    }
  }

  lemma TransferLeaves(x: Step, t: Turn, config: Config)
    requires config.Valid() && Performed(x, t, config, false)
    requires Runs(x.before.settings, x.before.log.last) && Services(x.before.log.last.cmd).Transfers()
    ensures TransferLeft(x.before, x.after, t.setup)
  {
    hide Services, Runs, RetrDone, StoreDone, ListDone, TransferLeft;
    var (b, a) := (x.before, x.after);
    var service := Services(b.log.last.cmd);
    if service.Retr? {
      RetrLeaves(b, a, t.setup, t.sends, config.maxDownloadRate, x.was, x.now, x.from, x.to, x.deed.sent, x.deed.download);
    } else if service.List? {
      ListLeaves(b, a, t.setup, x.deed.open, x.deed.said);
    } else {
      StoreLeaves(b, a, service.Appe?, t.setup, t.receives, config.maxUploadRate, x.was, x.now, x.from, x.to, x.deed.storage);
    }
  }

  /** A command that is no transfer that runs. */
  lemma OtherLeaves(x: Step, t: Turn, config: Config)
    requires config.Valid() && Performed(x, t, config, false)
    requires !(Runs(x.before.settings, x.before.log.last) && Services(x.before.log.last.cmd).Transfers())
    ensures x.after.settings == After(x.before.settings, x.before.log.last, t)
    ensures x.after.log == x.before.log.(replies := x.after.log.replies)
    ensures if Runs(x.before.settings, x.before.log.last) && Services(x.before.log.last.cmd).Pasv?
            then PasvDone(x.before, x.after, config) else x.after.pic == x.before.pic
  {
    hide Services, Answer, Stol, Matches, DataChannel.Encode, Streams.Steady, Streams.Rest, AddressCodec.PasvBody, Word16,
      AddressCodec.Numbers, AddressCodec.SockAddr;
  }

  /** What a command leaves of the settings. */
  lemma StepSettings(x: Step, t: Turn, config: Config)
    requires config.Valid() && Performed(x, t, config, false)
    ensures x.after.settings == After(x.before.settings, x.before.log.last, t)
  {
    var (a, c) := (x.before.settings, x.before.log.last);
    if Runs(a, c) && Services(c.cmd).Transfers() {
      TransferLeaves(x, t, config);
      AfterTransfer(a, c, t);
      hide Performed, Runs, Services, After;
    } else {
      OtherLeaves(x, t, config);
      hide Performed, Runs, Services, After;
    }
  }

  lemma StepTook(x: Step, t: Turn, config: Config)
    requires config.Valid() && Performed(x, t, config, false)
    ensures Took(x.before.log, x.after.log, 0)
  {
    hide Handled, Arranged, Took, After, Services;
    var (a, c) := (x.before.settings, x.before.log.last);
    if Runs(a, c) && Services(c.cmd).Transfers() {
      TransferLeaves(x, t, config);
      var said, open, n :| Handled(x.before.log, x.after.log, said, open, n);
      HandledTook(x.before.log, x.after.log, said, open, n);
      hide Performed, Runs;
    } else {
      OtherLeaves(x, t, config);
      SaidTook(x.before.log, x.after.log.replies);
      hide Performed, Runs;
    }
  }

  /** The settings of a run are those of its commands. */
  lemma {:induction false} RunSettings(b: Snapshot, xs: seq<Step>, ts: seq<Turn>, config: Config)
    requires config.Valid() && |xs| <= |ts| && IsRun(b, xs, ts, config)
    ensures End(b, xs).settings == Fold(b.settings, Heads(xs), ts)
  {
    hide Performed, After, Listened;
    if xs != [] {
      var n := |xs| - 1;
      RunSettings(b, xs[..n], ts, config);
      StepSettings(xs[n], ts[n], config);
      assert Heads(xs)[..n] == Heads(xs[..n]);
    }
  }

  /** Every line that was parsed is one of the run's commands or answered a SIGURG. */
  lemma {:induction false} RunTook(b: Snapshot, xs: seq<Step>, ts: seq<Turn>, config: Config)
    requires config.Valid() && |xs| <= |ts| && IsRun(b, xs, ts, config)
    ensures Took(b.log, End(b, xs).log, |xs|)
  {
    hide Performed, Parsed, Took;
    if xs == [] {
      SaidTook(b.log, b.log.replies);
    } else {
      var n := |xs| - 1;
      RunTook(b, xs[..n], ts, config);
      ParsedTook(End(b, xs[..n]), xs[n].before);
      StepTook(xs[n], ts[n], config);
      TookTrans(b.log, End(b, xs[..n]).log, xs[n].before.log, n, 1);
      TookTrans(b.log, xs[n].before.log, xs[n].after.log, n + 1, 0);
    }
  }

  lemma {:induction false} HeadsAt(xs: seq<Step>, i: nat)
    requires i < |xs|
    ensures Heads(xs)[i] == xs[i].before.log.last && Heads(xs)[..i] == Heads(xs[..i])
  {
    var n := |xs| - 1;
    if i < n {
      HeadsAt(xs[..n], i);
      assert xs[..n][..i] == xs[..i];
    }
  }

  lemma {:induction false} RunPrefix(b: Snapshot, xs: seq<Step>, ts: seq<Turn>, config: Config, i: nat)
    requires config.Valid() && i < |xs| <= |ts| && IsRun(b, xs, ts, config)
    ensures IsRun(b, xs[..i], ts, config) && Parsed(End(b, xs[..i]), xs[i].before) && Performed(xs[i], ts[i], config, false)
    decreases |xs|
  {
    hide Performed, Parsed;
    var n := |xs| - 1;
    if i < n {
      RunPrefix(b, xs[..n], ts, config, i);
      assert xs[..n][..i] == xs[..i];
    }
  }

  lemma OneParsed(a: Log, b: Log)
    requires Listened(a, b) && |b.parsed| == |a.parsed| + 1
    ensures b.parsed == a.parsed + [b.last]
  {
    hide Commands, Behind;
  }

  lemma NoneParsed(a: Log, b: Log)
    requires Took(a, b, 0) && Arriving(a.signals) == 0
    ensures b.parsed == a.parsed && Arriving(b.signals) == 0
  {
    hide Commands, Behind, Arriving;
  }

  lemma {:induction false} QuietParsed(b: Snapshot, xs: seq<Step>, ts: seq<Turn>, config: Config)
    requires config.Valid() && |xs| <= |ts| && IsRun(b, xs, ts, config) && Arriving(b.log.signals) == 0
    ensures End(b, xs).log.parsed == b.log.parsed + Heads(xs) && Arriving(End(b, xs).log.signals) == 0
  {
    hide Performed, Listened, Arriving, Took;
    if xs != [] {
      var n := |xs| - 1;
      QuietParsed(b, xs[..n], ts, config);
      OneParsed(End(b, xs[..n]).log, xs[n].before.log);
      StepTook(xs[n], ts[n], config);
      NoneParsed(xs[n].before.log, xs[n].after.log);
    }
  }

  /** With no SIGURG to come, the commands of a run are the lines of the control connection, in order. */
  lemma {:induction false} QuietRun(b: Snapshot, xs: seq<Step>, ts: seq<Turn>, config: Config)
    requires config.Valid() && |xs| <= |ts| && IsRun(b, xs, ts, config) && Arriving(b.log.signals) == 0
    ensures Heads(xs) == Commands(b.log.input, b.log.last, |xs|)
  {
    hide *;
    QuietParsed(b, xs, ts, config);
    RunTook(b, xs, ts, config);
    TookThese(b.log, End(b, xs).log, Heads(xs));
  }

  lemma TookThese(a: Log, b: Log, cs: seq<Command>)
    requires Took(a, b, |cs|) && b.parsed == a.parsed + cs
    ensures cs == Commands(a.input, a.last, |cs|)
  {
    hide Commands, Behind, Arriving;
    assert b.parsed[|a.parsed|..] == cs;
  }

  lemma TookGrows(a: Log, b: Log, n: nat)
    requires Took(a, b, n)
    ensures a.parsed <= b.parsed && |a.parsed| + n <= |b.parsed|
  {
    hide Commands, Behind, Arriving;
  }

  /** The lines a step has behind it. */
  lemma StepGrows(b: Snapshot, x: Step, t: Turn, config: Config)
    requires config.Valid() && Parsed(b, x.before) && Performed(x, t, config, false)
    ensures b.log.parsed < x.before.log.parsed <= x.after.log.parsed
    ensures x.before.log.parsed[|x.before.log.parsed| - 1] == x.before.log.last
  {
    ParsedTook(b, x.before);
    StepTook(x, t, config);
    TookGrows(b.log, x.before.log, 1);
    TookGrows(x.before.log, x.after.log, 0);
    OneParsed(b.log, x.before.log);
    hide Performed, Took, Listened;
  }

  /** In any run the commands are lines of the control connection, each further on than the last. */
  lemma {:induction false} RunInOrder(b: Snapshot, xs: seq<Step>, ts: seq<Turn>, config: Config, i: nat)
    requires config.Valid() && i < |xs| <= |ts| && IsRun(b, xs, ts, config)
    ensures var (a, z) := (|xs[i].before.log.parsed|, End(b, xs).log.parsed);
            && |b.log.parsed| < a <= |z| && z[a - 1] == Heads(xs)[i]
            && (i + 1 < |xs| ==> a < |xs[i + 1].before.log.parsed|)
    decreases |xs|
  {
    hide Performed, Parsed, Took, IsRun, Heads;
    var n := |xs| - 1;
    RunPrefix(b, xs, ts, config, n);
    RunTook(b, xs[..n], ts, config);
    TookGrows(b.log, End(b, xs[..n]).log, n);
    StepGrows(End(b, xs[..n]), xs[n], ts[n], config);
    HeadsAt(xs, i);
    HeadsAt(xs, n);
    if i < n {
      RunInOrder(b, xs[..n], ts, config, i);
      HeadsAt(xs[..n], i);
      if i + 1 == n {
        RunPrefix(b, xs, ts, config, i);
        StepGrows(End(b, xs[..i]), xs[i], ts[i], config);
      }
    }
  }

  // ---- login safety, by effect ----

  /** A command other than USER and PASS that does anything but answer 500 comes after a PASS whose password
      crypts to that of the account of the first accepted USER, and runs as that account. */
  lemma {:induction false} LoginSafety(b: Snapshot, xs: seq<Step>, ts: seq<Turn>, config: Config, k: nat)
    returns (i: nat, j: nat)
    requires config.Valid() && k < |xs| <= |ts| && IsRun(b, xs, ts, config)
    requires !b.settings.loggedIn && b.settings.uid.None? && !Services(Heads(xs)[k].cmd).Login()
    requires var x := xs[k];
             || x.after != Said(x.before, x.before.settings, x.before.restart, LoginFirst500)
             || x.now != x.was || x.to != x.from
    ensures var u := xs[k].before.settings.euid;
            i < j < k && LoggedInAs(b.settings, Heads(xs), ts, u, i, j) && End(b, xs).settings.uid == Some(u)
    ensures var (u, cs) := (xs[k].before.settings.euid, Heads(xs));
            && cs[i].cmd == "USER" && cs[i].arg in ts[i].accounts.byName && ts[i].accounts.byName[cs[i].arg] == u
            && cs[j].cmd == "PASS" && u in ts[j].accounts.shadow
            && ts[j].accounts.crypt(cs[j].arg, ts[j].accounts.shadow[u]) == ts[j].accounts.shadow[u]
  {
    hide *;
    RunPrefix(b, xs, ts, config, k);
    HeadsAt(xs, k);
    if !xs[k].before.settings.loggedIn { Refused500(xs[k], ts[k], config, false); }
    RunSettings(b, xs[..k], ts, config);
    RunSettings(b, xs, ts, config);
    ParsedSettings(End(b, xs[..k]), xs[k].before);
    i, j := LoggedInBy(b.settings, Heads(xs), ts, k);
    LoggedInMeans(b.settings, Heads(xs), ts, xs[k].before.settings.euid, i, j);
  }

  lemma ParsedSettings(b: Snapshot, a: Snapshot)
    requires Parsed(b, a)
    ensures a.settings == b.settings
  {
    hide Listened;
  }

  lemma {:induction false} LoggedInBy(a: Settings, cs: seq<Command>, ts: seq<Turn>, k: nat) returns (i: nat, j: nat)
    requires k <= |cs| <= |ts| && !a.loggedIn && a.uid.None? && Fold(a, cs[..k], ts).loggedIn
    ensures var u := Fold(a, cs[..k], ts).euid;
            i < j < k && LoggedInAs(a, cs, ts, u, i, j) && Fold(a, cs, ts).uid == Some(u)
  {
    hide *;
    i, j := LoginEarned(a, cs[..k], ts);
    LoggedInIsUser(a, cs[..k], ts);
    LoginStays(a, cs, ts, k);
    EarlierLogin(a, cs, ts, Fold(a, cs[..k], ts).euid, k, i, j);
  }

  /** Before login nothing but USER and PASS ends the process, or does anything. */
  lemma Refused500(x: Step, t: Turn, config: Config, exited: bool)
    requires config.Valid() && Performed(x, t, config, exited)
    requires !x.before.settings.loggedIn && !Services(x.before.log.last.cmd).Login()
    ensures !exited && x.after == Said(x.before, x.before.settings, x.before.restart, LoginFirst500)
    ensures x.now == x.was && x.to == x.from
  {
    hide Services, Stol, Matches;
  }

  lemma {:induction false} EarlierLogin(a: Settings, cs: seq<Command>, ts: seq<Turn>, u: int, k: nat, i: nat, j: nat)
    requires k <= |cs| <= |ts| && i < j < k && LoggedInAs(a, cs[..k], ts, u, i, j)
    ensures LoggedInAs(a, cs, ts, u, i, j)
  {
    FoldPrefix(a, cs, ts, i, k);
    hide Fold, Matches, Services;
  }

  // ---- what the nobody process hears in a run ----

  lemma WireOne(q: DataChannel.Request)
    ensures NobodyProcess.Wire([q]) == DataChannel.Encode(q) && NobodyProcess.Wire([]) == []
  {
    hide DataChannel.Encode;
    assert [q][1..] == [];
  }

  /** A command's traffic with the nobody process: what it asks goes out whole, and what it hears is
      read whole. */
  ghost predicate Talked(b: Snapshot, a: Snapshot) {
    && Streams.Rest(a.pic.plan, b.pic.plan)
    && (Streams.Steady(b.pic.plan) ==>
          && a.pic.output == b.pic.output + NobodyProcess.Wire(Asked(b.settings, b.log.last))
          && a.pic.input == Unheard(b.settings, b.log.last, b.pic.input))
  }

  lemma TransferTalked(b: Snapshot, a: Snapshot, t: Setup, ok: bool, open: bool)
    requires Arranged(b, a.pic, t, ok, open) && Runs(b.settings, b.log.last) && Services(b.log.last.cmd).Transfers()
    ensures Talked(b, a)
  {
    hide Services, Runs, Streams.Steady, Streams.Rest, DataChannel.Encode, AnswerRest;
    WireOne(Request(b.settings.activePort, b.settings.portAddr));
    hide NobodyProcess.Wire;
    assert b.pic.output + [] == b.pic.output;
  }

  lemma PasvTalked(b: Snapshot, a: Snapshot, config: Config)
    requires config.Valid() && PasvDone(b, a, config) && Runs(b.settings, b.log.last) && Services(b.log.last.cmd).Pasv?
    ensures Talked(b, a)
  {
    hide Services, Runs, Streams.Steady, Streams.Rest, DataChannel.Encode, AnswerRest;
    WireOne(DataChannel.Listen);
    hide NobodyProcess.Wire;
  }

  lemma SilentTalked(b: Snapshot, a: Snapshot)
    requires a.pic == b.pic
    requires var service := Services(b.log.last.cmd);
             Runs(b.settings, b.log.last) ==> !service.Transfers() && !service.Pasv?
    ensures Talked(b, a)
  {
    hide Services, Runs, Streams.Steady;
    WireOne(DataChannel.Listen);
    hide NobodyProcess.Wire;
    assert b.pic.output + [] == b.pic.output;
  }

  lemma StepTalked(x: Step, t: Turn, config: Config)
    requires config.Valid() && Performed(x, t, config, false)
    ensures Talked(x.before, x.after)
  {
    hide Services, Runs, Talked, Arranged, PasvDone, Performed, After, Handled;
    var (a, c) := (x.before.settings, x.before.log.last);
    if Runs(a, c) && Services(c.cmd).Transfers() {
      TransferLeaves(x, t, config);
      var ok, open :| Arranged(x.before, x.after.pic, t.setup, ok, open);
      TransferTalked(x.before, x.after, t.setup, ok, open);
    } else {
      OtherLeaves(x, t, config);
      if Runs(a, c) && Services(c.cmd).Pasv? {
        PasvTalked(x.before, x.after, config);
      } else {
        SilentTalked(x.before, x.after);
      }
    }
  }

  /** Over steady calls, a run writes to the nobody process the requests of its commands, one after
      another, and reads the answers. */
  lemma {:induction false} RunAsks(b: Snapshot, xs: seq<Step>, ts: seq<Turn>, config: Config)
    requires config.Valid() && |xs| <= |ts| && IsRun(b, xs, ts, config) && Streams.Steady(b.pic.plan)
    ensures Streams.Steady(End(b, xs).pic.plan)
    ensures End(b, xs).pic.output == b.pic.output + NobodyProcess.Wire(AllAsked(b.settings, Heads(xs), ts))
    ensures End(b, xs).pic.input == AllUnheard(b.settings, Heads(xs), ts, b.pic.input)
  {
    hide Performed, Asked, Unheard, Listened, Fold, Streams.Steady, NobodyProcess.Wire;
    if xs == [] {
      WireOne(DataChannel.Listen);
      assert b.pic.output + [] == b.pic.output;
    } else {
      var n := |xs| - 1;
      RunAsks(b, xs[..n], ts, config);
      RunSettings(b, xs[..n], ts, config);
      StepTalked(xs[n], ts[n], config);
      var asked, more := AllAsked(b.settings, Heads(xs[..n]), ts), Asked(xs[n].before.settings, xs[n].before.log.last);
      NobodyProcess.WireAppend(asked, more);
      HeadsAt(xs, n);
    }
  }

  // ---- the end of a run ----

  /** select times out in the round an upload has come to. */
  predicate Stalls(x: Step, t: Turn) {
    x.deed.StoredBy? && var d := x.deed.storage;
    d.Stored? && Arrives(Reads(t.receives, x.before.log, d.open), d.rounds).stalled
  }

  /** Why a command may end the process: it is QUIT, an unreadable REST, a login that cannot be
      carried out, or a transfer that the nobody process does not answer, or that times out, loses its
      connection or has it shut down by an ABOR in the round that comes next. */
  ghost predicate Stops(x: Step, t: Turn) {
    var (b, c) := (x.before, x.before.log.last);
    match if Runs(b.settings, c) then Services(c.cmd) else Unknown
    case Retr =>
      || Unanswered(b, t.setup)
      || (x.deed.Retrieved? && x.deed.download.Served? && RoundEnds(b, |x.was|, x.now, t.sends, x.deed.download))
    case Stor => Unanswered(b, t.setup) || Stalls(x, t)
    case Appe => Unanswered(b, t.setup) || Stalls(x, t)
    case List => Unanswered(b, t.setup) || (x.deed.ListedBy? && ListDies(b.log, t.setup, x.deed.open))
    case _ => Quits(b.settings, c, t)
  }

  lemma CommandStops(x: Step, t: Turn, config: Config)
    requires config.Valid() && Performed(x, t, config, true)
    ensures Short(x.before.log, 0) || Stops(x, t)
  {
    hide Services, Runs, Told, Short, Unanswered, Uploaded, Quits, RoundEnds, ListDies, SoFar, CanRead, CanWrite,
      KeptOn, Reads,
      Arrives;
  }

  lemma ShortAfter(a: Log, b: Log, n: nat, m: nat)
    requires Took(a, b, n) && Short(b, m)
    ensures Short(a, n + m)
  {
    hide LinesLeft, Arriving, Commands, Behind;
    LengthsGrow(a, b);
  }

  /** The process ends only with the control connection (it fails, or has fewer lines than commands
      and SIGURGs that want one), or by the command it is serving. */
  lemma {:induction false} WhyItEnds(b: Snapshot, xs: seq<Step>, ts: seq<Turn>, config: Config, last: Option<Step>)
    requires config.Valid() && |xs| < |ts| && IsRun(b, xs, ts, config)
    requires Fatal(End(b, xs), last, ts[|xs|], config)
    ensures Short(b.log, |xs| + 1) || (last.Some? && Stops(last.value, ts[|xs|]))
  {
    hide IsRun, Took, Parsed, Performed, Stops, Short, End;
    RunTook(b, xs, ts, config);
    var e := End(b, xs);
    match last
    case None =>
      NoLines(e.log);
      ShortAfter(b.log, e.log, |xs|, 1);
    case Some(x) =>
      CommandStops(x, ts[|xs|], config);
      ParsedTook(e, x.before);
      if Short(x.before.log, 0) {
        TookTrans(b.log, e.log, x.before.log, |xs|, 1);
        ShortAfter(b.log, x.before.log, |xs| + 1, 0);
      }
  }

  lemma NoLines(a: Log)
    requires a.fails || LinesLeft(a.input) == 0
    ensures Short(a, 1)
  {
    hide LinesLeft;
  }
}
