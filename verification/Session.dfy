/** The Session object of one FTP process: command parsing, the mode flags, PORT, and the limiter's
    time point. Its control connection and its end of the socketpair are streams. */
module Sessions {
  import opened Base
  import opened Streams
  import opened RateLimiter
  import AddressCodec
  import Tokenizer

  const SPACES := " \t\n\U{B}\U{C}\r"
  const LINE := 1024           // sizeof(buf) in parse_command
  const BUF_ADDRESS: nat := 1  // where buf lies; only the sign of readline's result is looked at

  /** What goes out on the control connection, by message. */
  datatype Reply =
    | Greeting220 | LoginFirst500 | UnknownCommand500 | Unimplemented502 | OneCall(cmd: string)
    | PasswordPlease331 | AlreadyLoggedIn530 | UseUserFirst530 | LoginIncorrect530 | LoggedIn230
    | PortOk200 | Passive227(body: string) | TypeOk200(ascii: bool) | BadType500 | RestAccepted350(at: nat)
    | UsePortOrPasv425 | NoConnection550 | CannotOpen550 | CannotCreate553
    | Opening150(ascii: bool, size: nat) | Listing150 | Listed226
    | Complete226 | BrokenNetwork426 | BrokenFile451 | Aborted226 | DataTimeout421
    | NoTransfer225 | Goodbye221
    | UrgentUnknown500           // the SIGURG handler's own "500 Unkonwn command."

  /** The replies apart from the ones the SIGURG handler slips in. */
  function Main(rs: seq<Reply>): seq<Reply> {
    if rs == [] then []
    else Main(rs[..|rs| - 1]) + (if rs[|rs| - 1].UrgentUnknown500? then [] else [rs[|rs| - 1]])
  }

  lemma MainSay(rs: seq<Reply>, r: Reply)
    ensures Main(rs + [r]) == Main(rs) + (if r.UrgentUnknown500? then [] else [r])
  {
    assert (rs + [r])[..|rs + [r]| - 1] == rs;
  }

  lemma {:induction false} MainAppend(a: seq<Reply>, b: seq<Reply>)
    ensures Main(a + b) == Main(a) + Main(b)
  {
    if b == [] {
      assert a + b == a && Main(a) + [] == Main(a);
    } else {
      var c, r := b[..|b| - 1], b[|b| - 1];
      assert a + b == (a + c) + [r] && b == c + [r];
      MainAppend(a, c);
      MainSay(a + c, r);
    }
  }

  /** They are all the replies there are if there are as many of them. */
  lemma {:induction false} MainAll(rs: seq<Reply>)
    ensures |Main(rs)| <= |rs| && (|Main(rs)| == |rs| <==> Main(rs) == rs)
    ensures Main(rs) == rs <==> UrgentUnknown500 !in rs
  {
    if rs != [] {
      MainAll(rs[..|rs| - 1]);
      assert rs[..|rs| - 1] + [rs[|rs| - 1]] == rs;
    }
  }

  // ---- command lines ----

  function UpperChar(c: char): char {
    if 'a' <= c <= 'z' then (c as int - 32) as char else c
  }

  function Upper(s: string): (u: string)
    ensures |u| == |s|
  {
    seq(|s|, i requires 0 <= i < |s| => UpperChar(s[i]))
  }

  /** The bytes as a C string. */
  function Text(b: seq<Byte>): string {
    if b == [] || b[0] == NUL then "" else [b[0] as int as char] + Text(b[1..])
  }

  function FirstToken(s: string): string {
    var ts := Tokenizer.Tokens(s, SPACES);
    if ts == [] then "" else ts[0]
  }

  /** getline: up to the newline. */
  function UpToNewline(s: string): string {
    if s == "" || s[0] == '\n' then "" else [s[0]] + UpToNewline(s[1..])
  }

  datatype Command = Command(cmd: string, arg: string)

  /** parse_command on one line. A blank line leaves cmd as it was. */
  function Parse(line: string, was: Command): Command {
    var t := line[Tokenizer.Span(line, SPACES, true)..];
    var n := Tokenizer.Span(t, SPACES, false);
    var cmd := Upper(if t == "" then was.cmd else t[..n]);
    if cmd != "SITE" then Command(cmd, FirstToken(t[n..]))
    else Command(cmd, if t[n..] == "" then was.arg else UpToNewline(t[n..]))  // getline fails at the end
  }

  /** The command is the first token in upper case, the argument the second, whatever the spacing. */
  lemma ParseTokens(line: string, was: Command)
    requires Tokenizer.Tokens(line, SPACES) != [] && Upper(Tokenizer.Tokens(line, SPACES)[0]) != "SITE"
    ensures var ts := Tokenizer.Tokens(line, SPACES);
            Parse(line, was) == Command(Upper(ts[0]), if |ts| > 1 then ts[1] else "")
  {
    Tokenizer.TokensHead(line, SPACES);
  }

  lemma {:induction false} SpanOf(word: string, more: string, inside: bool)
    requires forall i :: 0 <= i < |word| ==> (word[i] in SPACES) == inside
    requires more != "" ==> (more[0] in SPACES) != inside
    ensures Tokenizer.Span(word + more, SPACES, inside) == |word|
  {
    if word == "" {
      assert word + more == more;
    } else {
      assert (word + more)[1..] == word[1..] + more;
      SpanOf(word[1..], more, inside);
    }
  }

  /** White space, character by character. */
  lemma SpaceIs(c: char)
    ensures c in SPACES <==> c == ' ' || c == '\t' || c == '\n' || c == '\U{B}' || c == '\U{C}' || c == '\r'
  {
    var s := SPACES;
    assert s[0] == ' ' && s[1] == '\t' && s[2] == '\n' && s[3] == '\U{B}' && s[4] == '\U{C}' && s[5] == '\r';
  }

  lemma {:induction false} CommandIs(cmd: string, rest: string, was: Command)
    requires cmd != "" && rest != "" && rest[0] in SPACES && forall i :: 0 <= i < |cmd| ==> cmd[i] !in SPACES
    ensures var c := Parse(cmd + rest, was);
            c == Command(Upper(cmd), if Upper(cmd) != "SITE" then FirstToken(rest) else UpToNewline(rest))
  {
    var line := cmd + rest;
    assert "" + line == line && line[0..] == line && line[|cmd|..] == rest && line[..|cmd|] == cmd;
    SpanOf("", line, true);
    SpanOf(cmd, rest, false);
    hide Tokenizer.Span, Tokenizer.Tokens, FirstToken, UpToNewline, Upper;
  }

  /** A line as a client sends it: the command is the first word with its letters raised, the argument the
      second word; for SITE it is the rest of the line with what is left of its ending. */
  lemma {:induction false} LineParses(cmd: string, arg: string, was: Command)
    requires cmd != "" && arg != ""
    requires forall c :: c in cmd || c in arg ==>
               c != ' ' && c != '\t' && c != '\n' && c != '\U{B}' && c != '\U{C}' && c != '\r'
    ensures var c := Parse(cmd + " " + arg + "\r\n", was);
            && |c.cmd| == |cmd|
            && (forall i :: 0 <= i < |cmd| ==> c.cmd[i] == if 'a' <= cmd[i] <= 'z' then cmd[i] - ' ' else cmd[i])
            && c.arg == if c.cmd == "SITE" then " " + arg + "\r" else arg
  {
    hide Tokenizer.Span, Tokenizer.Tokens, FirstToken, UpToNewline, Parse;
    var rest := " " + arg + "\r\n";
    assert cmd + " " + arg + "\r\n" == cmd + rest;
    SpaceIs(' ');
    SpaceIs('\r');
    forall c | c in cmd || c in arg ensures c !in SPACES { SpaceIs(c); }
    assert forall i :: 0 <= i < |cmd| ==> cmd[i] in cmd;
    assert forall i :: 0 <= i < |arg| ==> arg[i] in arg;
    CommandIs(cmd, rest, was);
    FirstTokenIs(arg, "\r\n");
    UpTo(" " + arg + "\r", "");
    assert " " + arg + "\r" + "\n" + "" == rest;
  }

  lemma {:induction false} FirstTokenIs(word: string, more: string)
    requires word != "" && more != "" && more[0] in SPACES && forall i :: 0 <= i < |word| ==> word[i] !in SPACES
    ensures FirstToken(" " + word + more) == word
  {
    SpaceIs(' ');
    var s := " " + word + more;
    var t := word + more;
    SpanOf(" ", t, true);
    SpanOf(word, more, false);
    assert " " + t == s && s[1..] == t && t[..|word|] == word;
    Tokenizer.TokensHead(s, SPACES);
    assert s[1..][..|word|] == word;
  }

  lemma {:induction false} UpTo(line: string, more: string)
    requires '\n' !in line
    ensures UpToNewline(line + "\n" + more) == line
  {
    var s := line + "\n" + more;
    if line == "" {
      assert s == "\n" + more;
    } else {
      assert s[1..] == line[1..] + "\n" + more;
      UpTo(line[1..], more);
      assert [line[0]] + line[1..] == line;
    }
  }

  /** A line without an argument. */
  lemma {:induction false} LineAlone(cmd: string, was: Command)
    requires cmd != "" && forall c :: c in cmd ==>
               c != ' ' && c != '\t' && c != '\n' && c != '\U{B}' && c != '\U{C}' && c != '\r'
    ensures var c := Parse(cmd + "\r\n", was);
            && |c.cmd| == |cmd|
            && (forall i :: 0 <= i < |cmd| ==> c.cmd[i] == if 'a' <= cmd[i] <= 'z' then cmd[i] - ' ' else cmd[i])
            && c.arg == if c.cmd == "SITE" then "\r" else ""
  {
    hide Tokenizer.Span, Tokenizer.Tokens, FirstToken, UpToNewline, Parse;
    SpaceIs('\r');
    SpaceIs('\n');
    forall c | c in cmd ensures c !in SPACES { SpaceIs(c); }
    assert forall i :: 0 <= i < |cmd| ==> cmd[i] in cmd;
    CommandIs(cmd, "\r\n", was);
    NoToken("\r\n");
    UpTo("\r", "");
    assert "\r" + "\n" + "" == "\r\n";
  }

  lemma {:induction false} NoToken(blank: string)
    requires forall i :: 0 <= i < |blank| ==> blank[i] in SPACES
    ensures FirstToken(blank) == "" && Tokenizer.Span(blank, SPACES, true) == |blank|
  {
    SpanOf(blank, "", true);
    assert blank + "" == blank && blank[|blank|..] == "";
  }

  /** A blank line repeats the command before it, without its argument. */
  lemma {:induction false} BlankLine(blank: string, was: Command)
    requires forall c :: c in blank ==> c == ' ' || c == '\t' || c == '\n' || c == '\U{B}' || c == '\U{C}' || c == '\r'
    ensures var c := Parse(blank, was);
            && |c.cmd| == |was.cmd| && c.arg == (if c.cmd == "SITE" then was.arg else "")
            && (forall i :: 0 <= i < |was.cmd| ==>
                  c.cmd[i] == if 'a' <= was.cmd[i] <= 'z' then was.cmd[i] - ' ' else was.cmd[i])
  {
    hide Tokenizer.Span, Tokenizer.Tokens, FirstToken, UpToNewline;
    forall i | 0 <= i < |blank| ensures blank[i] in SPACES {
      assert blank[i] in blank;
      SpaceIs(blank[i]);
    }
    NoToken(blank);
    NoToken("");
    assert blank[|blank|..] == "" && ""[0..] == "";
  }

  /** The bytes of a line are its characters, up to a zero byte. */
  lemma {:induction false} TextIs(b: seq<Byte>, more: seq<Byte>)
    requires 0 !in b && (more == [] || more[0] == 0)
    ensures |Text(b + more)| == |b| && forall i :: 0 <= i < |b| ==> Text(b + more)[i] as int == b[i]
  {
    if b == [] {
      assert b + more == more;
    } else {
      assert forall x :: x in b[1..] ==> x in b;
      assert (b + more)[1..] == b[1..] + more;
      TextIs(b[1..], more);
    }
  }

  /** The next line on the control connection: up to the first newline among its next 1023 bytes, or else these. */
  lemma {:induction false} NextLine(s: seq<Byte>)
    ensures Complete(s, LINE - 1) <==> |s| >= 1023 || 10 in s
    ensures var n := LineLength(s, LINE - 1);
            Complete(s, LINE - 1) ==> 0 < n <= 1023 && 10 !in s[..n - 1] && (n == 1023 || s[n - 1] == 10)
  {
    var n := LineLength(s, LINE - 1);
    if Find(s) < Min(LINE - 1, |s|) {
      LineEnds(s, LINE - 1, Find(s) + 1);
      assert s[Find(s)] in s;
    } else {
      LineFull(s, LINE - 1);
    }
    hide Find;
  }

  lemma {:induction false} LineBytes(b: seq<Byte>, more: seq<Byte>)
    requires 10 !in b && |b| <= 1022
    ensures LineLength(b + [10] + more, LINE - 1) == |b| + 1
    ensures (b + [10] + more)[..|b| + 1] == b + [10] && (b + [10] + more)[|b| + 1..] == more
  {
    var s := b + [10] + more;
    assert forall i :: 0 <= i < |b| ==> s[i] == b[i] && b[i] in b;
    assert s[|b|] == 10;
    hide Find;
    assert Find(s) == |b|;
  }

  predicate IsAbort(cmd: string) {
    cmd == "ABOR" || cmd == ['\U{FF}', '\U{F4}', '\U{FF}', '\U{F2}'] + "ABOR"
  }

  // ---- waiting ----

  type Duration = r: real | r >= 0.0

  /** One chunk's waiting time, and how its sleep goes. */
  datatype Timing = Timing(wait: Duration, took: Duration, wakes: seq<nat>, over: Duration)

  const INSTANT := Timing(0.0, 0.0, [], 0.0)

  // ---- the lines of the control connection ----

  /** The first `n` commands there are in `input`, each parsed after the one before it. */
  function Commands(input: seq<Byte>, last: Command, n: nat): seq<Command> {
    if n == 0 || !Complete(input, LINE - 1) then []
    else
      var k := LineLength(input, LINE - 1);
      var c := Parse(Text(input[..k]), last);
      [c] + Commands(input[k..], c, n - 1)
  }

  /** What is left of the input after `n` lines. */
  function Behind(input: seq<Byte>, n: nat): seq<Byte> {
    if n == 0 || !Complete(input, LINE - 1) then input else Behind(input[LineLength(input, LINE - 1)..], n - 1)
  }

  function Last(cs: seq<Command>, was: Command): Command {
    if cs == [] then was else cs[|cs| - 1]
  }

  function LinesLeft(input: seq<Byte>): nat {
    |Lines(input, LINE - 1)|
  }

  lemma LineTaken(input: seq<Byte>)
    ensures Complete(input, LINE - 1) ==> LinesLeft(input) == 1 + LinesLeft(input[LineLength(input, LINE - 1)..])
    ensures !Complete(input, LINE - 1) ==> LinesLeft(input) == 0
  {
    hide Complete, LineLength;
  }

  /** Commands are read one after another, each taking one line. */
  lemma {:induction false} CommandsAdd(input: seq<Byte>, last: Command, n: nat, m: nat)
    requires |Commands(input, last, n)| == n
    ensures var first := Commands(input, last, n);
            && Commands(input, last, n + m) == first + Commands(Behind(input, n), Last(first, last), m)
            && Behind(input, n + m) == Behind(Behind(input, n), m)
            && LinesLeft(input) == n + LinesLeft(Behind(input, n))
    decreases n
  {
    hide Complete, LineLength, Parse, Text, LinesLeft;
    if n > 0 {
      var k := LineLength(input, LINE - 1);
      var c := Parse(Text(input[..k]), last);
      var rest := Commands(input[k..], c, n - 1);
      assert Commands(input, last, n) == [c] + rest;
      CommandsAdd(input[k..], c, n - 1, m);
      LineTaken(input);
      assert Last([c] + rest, last) == Last(rest, c);
    }
  }

  // ---- SIGURG ----

  /** What SIGURGs do to a session: the abort flag, how many commands were ABOR and how many were
      not, the replies so far, all commands parsed so far and the last of them, what is left on the
      control connection, whether a read of it may fail, and how many SIGURGs arrive at each point
      to come. */
  datatype Log = Log(aborted: bool, aborts: nat, others: nat, replies: seq<Reply>, parsed: seq<Command>,
                     last: Command, input: seq<Byte>, fails: bool, signals: seq<nat>)

  /** The commands parsed from `a` to `b` are the next ones on the control connection. */
  ghost predicate Listened(a: Log, b: Log) {
    && |a.parsed| <= |b.parsed| && b.parsed[..|a.parsed|] == a.parsed
    && var n := |b.parsed| - |a.parsed|;
    && b.parsed[|a.parsed|..] == Commands(a.input, a.last, n)
    && b.input == Behind(a.input, n)
    && b.last == Last(b.parsed[|a.parsed|..], a.last)
    && (b.fails ==> a.fails)
  }

  lemma ListenedNothing(a: Log)
    ensures Listened(a, a)
  {
  }

  lemma SuffixJoin(b: seq<Command>, c: seq<Command>, i: nat)
    requires i <= |b| <= |c| && c[..|b|] == b
    ensures c[..i] == b[..i] && c[i..] == b[i..] + c[|b|..]
  {
  }

  lemma LastJoin(x: seq<Command>, y: seq<Command>, was: Command)
    ensures Last(x + y, was) == Last(y, Last(x, was))
  {
  }

  lemma ListenedTrans(a: Log, b: Log, c: Log)
    requires Listened(a, b) && Listened(b, c)
    ensures Listened(a, c)
    ensures LinesLeft(a.input) == |c.parsed| - |a.parsed| + LinesLeft(c.input)
  {
    hide Commands, Behind, LinesLeft, Last;
    var i, j, k := |a.parsed|, |b.parsed|, |c.parsed|;
    var x, y := b.parsed[i..], c.parsed[j..];
    SuffixJoin(b.parsed, c.parsed, i);
    CommandsAdd(a.input, a.last, j - i, k - j);
    CommandsAdd(b.input, b.last, k - j, 0);
    LastJoin(x, y, a.last);
    assert c.parsed[i..] == x + y && k - i == j - i + (k - j);
  }

  function Arriving(signals: seq<nat>): nat {
    if signals == [] then 0 else signals[0] + Arriving(signals[1..])
  }

  /** A read of the control connection fails, or more lines are wanted (by SIGURGs to come, and
      `more`) than are left. */
  predicate Short(a: Log, more: nat) {
    a.fails || Arriving(a.signals) + more > LinesLeft(a.input)
  }

  /** From `a` to `b` the SIGURG handler took some commands and the session itself said `said`. */
  ghost predicate Heard(a: Log, b: Log, said: seq<Reply>) {
    && a.aborts <= b.aborts && a.others <= b.others
    && b.aborted == (a.aborted || a.aborts < b.aborts)
    && a.replies <= b.replies && Main(b.replies) == Main(a.replies) + said
    && |b.replies| == |a.replies| + |said| + (b.others - a.others)
    && Listened(a, b) && |b.parsed| == |a.parsed| + (b.aborts - a.aborts) + (b.others - a.others)
  }

  /** The same, and every command so taken answered a SIGURG. */
  ghost predicate Spoke(a: Log, b: Log, said: seq<Reply>) {
    && Heard(a, b, said)
    && Arriving(b.signals) + (|b.parsed| - |a.parsed|) <= Arriving(a.signals)
  }

  lemma SpokeNothing(a: Log)
    ensures Spoke(a, a, [])
  {
    ListenedNothing(a);
  }

  lemma HeardTrans(a: Log, b: Log, c: Log, x: seq<Reply>, y: seq<Reply>)
    requires Heard(a, b, x) && Heard(b, c, y)
    ensures Heard(a, c, x + y)
    ensures LinesLeft(a.input) == |c.parsed| - |a.parsed| + LinesLeft(c.input)
  {
    hide LinesLeft, Listened, Main;
    ListenedTrans(a, b, c);
    assert |a.parsed| <= |b.parsed| by { LengthsGrow(a, b); }
    assert Main(a.replies) + x + y == Main(a.replies) + (x + y);
  }

  lemma LengthsGrow(a: Log, b: Log)
    requires Listened(a, b)
    ensures |a.parsed| <= |b.parsed| && (b.fails ==> a.fails)
    ensures LinesLeft(a.input) == |b.parsed| - |a.parsed| + LinesLeft(b.input)
  {
    ListenedNothing(b);
    ListenedTrans(a, b, b);
  }

  lemma SpokeTrans(a: Log, b: Log, c: Log, x: seq<Reply>, y: seq<Reply>)
    requires Spoke(a, b, x) && Spoke(b, c, y)
    ensures Spoke(a, c, x + y)
  {
    hide Heard;
    HeardTrans(a, b, c, x, y);
  }

  /** Nothing more said before or after. */
  lemma SpokeOn(a: Log, b: Log, c: Log, said: seq<Reply>)
    requires (Spoke(a, b, []) && Spoke(b, c, said)) || (Spoke(a, b, said) && Spoke(b, c, []))
    ensures Spoke(a, c, said)
  {
    hide Spoke;
    assert [] + said == said == said + [];
    if Spoke(a, b, []) && Spoke(b, c, said) {
      SpokeTrans(a, b, c, [], said);
    } else {
      SpokeTrans(a, b, c, said, []);
    }
  }

  lemma SpokeGrows(a: Log, b: Log, said: seq<Reply>)
    requires Spoke(a, b, said)
    ensures b.aborted == (a.aborted || a.aborts < b.aborts) && a.aborts <= b.aborts && a.others <= b.others
  {
  }

  /** Lines that run short later run short from the start. */
  lemma ShortBack(a: Log, b: Log, said: seq<Reply>, more: nat)
    requires Spoke(a, b, said)
    ensures Short(b, more) ==> Short(a, more)
  {
    hide LinesLeft, Arriving, Listened, Main;
    LengthsGrow(a, b);
  }

  // ---- SIGURGs at points ----

  /** What SIGURGs work on: the control connection, the last command, how many urgent commands there
      have been, and the SIGURGs to come. */
  datatype Urgent = Urgent(input: seq<Byte>, last: Command, aborts: nat, others: nat, signals: seq<nat>)

  function UrgentOf(a: Log): Urgent {
    Urgent(a.input, a.last, a.aborts, a.others, a.signals)
  }

  /** One SIGURG takes the next line. */
  function TakeLine(u: Urgent): Urgent {
    var k := LineLength(u.input, LINE - 1);
    var c := Parse(Text(u.input[..k]), u.last);
    var v := u.(input := u.input[k..], last := c);
    if IsAbort(c.cmd) then v.(aborts := u.aborts + 1) else v.(others := u.others + 1)
  }

  function TakeLines(u: Urgent, n: nat): Urgent {
    if n == 0 then u else TakeLine(TakeLines(u, n - 1))
  }

  /** A point between two steps: all SIGURGs that arrive there take a line each, if there is a data
      connection. */
  function Point(u: Urgent, open: bool): Urgent {
    if u.signals == [] then u
    else
      var v := u.(signals := u.signals[1..]);
      if open then TakeLines(v, u.signals[0]) else v
  }

  function Points(u: Urgent, open: bool, n: nat): Urgent {
    if n == 0 then u else Point(Points(u, open, n - 1), open)
  }

  /** An ABOR is among the lines that the SIGURGs of the next `n` points take. */
  predicate Noted(a: Log, open: bool, n: nat) {
    Points(UrgentOf(a), open, n).aborts > a.aborts
  }

  /** The session said `said` and passed `n` points. */
  ghost predicate Told(a: Log, b: Log, said: seq<Reply>, open: bool, n: nat) {
    Spoke(a, b, said) && UrgentOf(b) == Points(UrgentOf(a), open, n)
  }

  lemma {:induction false} TakeLinesOf(u: Urgent, n: nat)
    ensures var v := TakeLines(u, n);
            && v.signals == u.signals && v.aborts + v.others == u.aborts + u.others + n
            && v.aborts >= u.aborts && v.others >= u.others
  {
    hide LineLength, Parse, Text, IsAbort;
    if n > 0 { TakeLinesOf(u, n - 1); }
  }

  /** The SIGURGs of a point are all handled: with a data connection each has taken a line, without
      one none has. */
  lemma {:induction false} PointOf(u: Urgent, open: bool)
    ensures var v := Point(u, open);
            && v.signals == u.signals[Min(1, |u.signals|)..] && v.aborts >= u.aborts && v.others >= u.others
            && (open ==> v.aborts + v.others + Arriving(v.signals) == u.aborts + u.others + Arriving(u.signals))
            && (!open ==> v == u.(signals := v.signals))
  {
    hide TakeLines;
    if u.signals != [] { TakeLinesOf(u.(signals := u.signals[1..]), u.signals[0]); }
  }

  /** Every SIGURG gone from `u` to `v` has taken a line with a data connection, none without. */
  predicate Balanced(u: Urgent, v: Urgent, open: bool) {
    && v.aborts >= u.aborts && v.others >= u.others
    && (open ==> v.aborts + v.others + Arriving(v.signals) == u.aborts + u.others + Arriving(u.signals))
    && (!open ==> v == u.(signals := v.signals))
  }

  lemma {:induction false} PointsBalance(u: Urgent, open: bool, n: nat)
    ensures Balanced(u, Points(u, open, n), open)
  {
    hide Point, Arriving;
    if n > 0 {
      PointsBalance(u, open, n - 1);
      PointOf(Points(u, open, n - 1), open);
    }
  }

  lemma {:induction false} PointsSignals(u: Urgent, open: bool, n: nat)
    ensures Points(u, open, n).signals == u.signals[Min(n, |u.signals|)..]
  {
    hide Point, Arriving;
    if n > 0 {
      PointsSignals(u, open, n - 1);
      PointOf(Points(u, open, n - 1), open);
      SuffixOfSuffix(u.signals, Min(n - 1, |u.signals|));
    }
  }

  lemma SuffixOfSuffix(x: seq<nat>, i: nat)
    requires i <= |x|
    ensures x[i..][Min(1, |x| - i)..] == x[Min(i + 1, |x|)..]
  {
  }

  lemma {:induction false} PointsAdd(u: Urgent, open: bool, n: nat, m: nat)
    ensures Points(u, open, n + m) == Points(Points(u, open, n), open, m)
    decreases m
  {
    hide Point;
    if m > 0 { PointsAdd(u, open, n, m - 1); }
  }

  /** What is noted stays noted. */
  lemma {:induction false} NotedStays(a: Log, open: bool, n: nat, m: nat)
    requires n <= m
    ensures Noted(a, open, n) ==> Noted(a, open, m)
    ensures !open ==> !Noted(a, open, n)
  {
    hide Points, Arriving;
    PointsAdd(UrgentOf(a), open, n, m - n);
    PointsBalance(Points(UrgentOf(a), open, n), open, m - n);
    PointsBalance(UrgentOf(a), open, n);
  }

  /** Without SIGURGs nothing is. */
  lemma {:induction false} NeverNoted(b: Log, open: bool, n: nat)
    requires b.signals == []
    ensures Points(UrgentOf(b), open, n) == UrgentOf(b) && !Noted(b, open, n)
  {
    if n > 0 { NeverNoted(b, open, n - 1); }
  }

  lemma {:induction false} ToldMeans(a: Log, b: Log, said: seq<Reply>, open: bool, n: nat)
    requires Told(a, b, said, open, n)
    ensures Spoke(a, b, said) && (a.aborts < b.aborts <==> Noted(a, open, n))
    ensures b.aborted == (a.aborted || Noted(a, open, n))
  {
    SpokeGrows(a, b, said);
    hide Spoke, Points;
  }

  /** No SIGURG is lost and none answered twice: of those that arrive at the points passed, each has
      taken one line of the control connection. */
  lemma {:induction false} SigurgsBalance(a: Log, b: Log, said: seq<Reply>, open: bool, n: nat)
    requires Told(a, b, said, open, n)
    ensures b.signals == a.signals[Min(n, |a.signals|)..]
    ensures |b.parsed| - |a.parsed| == if open then Arriving(a.signals) - Arriving(b.signals) else 0
  {
    hide Points, Main, Listened, Arriving;
    PointsSignals(UrgentOf(a), open, n);
    PointsBalance(UrgentOf(a), open, n);
  }

  // ---- the line "ABOR" ----

  const ABOR_LINE: seq<Byte> := [65, 66, 79, 82, 13, 10]

  lemma AborText()
    ensures Text(ABOR_LINE) == "ABOR\r\n" && LineLength(ABOR_LINE, LINE - 1) == 6
  {
    var b := ABOR_LINE;
    assert b[5..][1..] == b[4..][2..] == [];
    assert Text(b[5..]) == "\n";
    assert b[4..][1..] == b[5..] && Text(b[4..]) == ['\r'] + "\n";
    assert b[3..][1..] == b[4..] && Text(b[3..]) == ['R'] + "\r\n";
    assert b[2..][1..] == b[3..] && Text(b[2..]) == ['O'] + "R\r\n";
    assert b[1..][1..] == b[2..] && Text(b[1..]) == ['B'] + "OR\r\n";
    assert b[1..][1..] == b[2..] && b[2..][1..] == b[3..] && b[3..][1..] == b[4..] && b[4..][1..] == b[5..];
    assert Find(b[5..]) == 0 && Find(b[4..]) == 1 && Find(b[3..]) == 2 && Find(b[2..]) == 3 && Find(b[1..]) == 4;
  }

  lemma AborWord()
    ensures Tokenizer.Span("ABOR\r\n", SPACES, true) == 0 && Tokenizer.Span("ABOR\r\n", SPACES, false) == 4
    ensures Upper("ABOR") == "ABOR"
  {
    var s := "ABOR\r\n";
    assert s[1..] == "BOR\r\n" && s[1..][1..] == "OR\r\n" && s[1..][1..][1..] == "R\r\n" && s[1..][1..][1..][1..] == "\r\n";
    assert Tokenizer.Span("\r\n", SPACES, false) == 0;
    assert Tokenizer.Span("R\r\n", SPACES, false) == 1;
    assert Tokenizer.Span("OR\r\n", SPACES, false) == 2;
    assert Tokenizer.Span("BOR\r\n", SPACES, false) == 3;
  }

  /** It is one line, and an ABOR. */
  lemma AborLine(last: Command, aborts: nat, others: nat, signals: seq<nat>)
    ensures TakeLine(Urgent(ABOR_LINE, last, aborts, others, signals)).aborts == aborts + 1
    ensures LinesLeft(ABOR_LINE) == 1
  {
    AborText();
    AborWord();
    var line := "ABOR\r\n";
    assert ABOR_LINE[..6] == ABOR_LINE && ABOR_LINE[6..] == [] && line[0..] == line && line[..4] == "ABOR";
    assert EndsLine(ABOR_LINE) && Complete(ABOR_LINE, LINE - 1) && !Complete([], LINE - 1);
    LineTaken(ABOR_LINE);
    LineTaken([]);
    hide LineLength, Text, Tokenizer.Span, Upper, LinesLeft, Complete;
  }

  /** What a SIGURG makes of the line it takes: it is an ABOR if and only if its letters spell that, whatever
      their case, by themselves or behind Telnet's interrupt and synch. */
  lemma {:induction false} UrgentLine(b: seq<Byte>, more: seq<Byte>, u: Urgent)
    requires b != [] && |b| <= 1000 && forall x :: x in b ==> x != 0 && x != 32 && !(9 <= x <= 13)
    requires u.input == b + [13, 10] + more
    ensures var raised := seq(|b|, i requires 0 <= i < |b| => if 97 <= b[i] <= 122 then b[i] - 32 else b[i]);
            var v, urgent := TakeLine(u), raised == [65, 66, 79, 82] || raised == [255, 244, 255, 242, 65, 66, 79, 82];
            && v.input == more && v.signals == u.signals
            && v.aborts == u.aborts + (if urgent then 1 else 0) && v.others == u.others + (if urgent then 0 else 1)
  {
    hide LineLength, Text, Parse, Upper, Complete, IsAbort;
    var line, s := b + [13], Text(b + [13, 10]);
    assert u.input == line + [10] + more && line + [10] == b + [13, 10];
    LineBytes(line, more);
    assert 0 !in b + [13, 10];
    TextIs(b + [13, 10], []);
    assert b + [13, 10] + [] == b + [13, 10];
    var word := s[..|b|];
    assert s == word + "\r\n" by {
      assert s[|b|] as int == (b + [13, 10])[|b|] && s[|b| + 1] as int == (b + [13, 10])[|b| + 1];
    }
    forall c | c in word
      ensures c != ' ' && c != '\t' && c != '\n' && c != '\U{B}' && c != '\U{C}' && c != '\r'
    {
      var i :| 0 <= i < |word| && word[i] == c;
      assert s[i] as int == (b + [13, 10])[i] == b[i] && b[i] in b;
    }
    LineAlone(word, u.last);
    var raised := seq(|b|, i requires 0 <= i < |b| => if 97 <= b[i] <= 122 then b[i] - 32 else b[i]);
    var c := Parse(s, u.last).cmd;
    forall i | 0 <= i < |b| ensures c[i] as int == raised[i] {
      assert word[i] == s[i] && s[i] as int == (b + [13, 10])[i] == b[i];
    }
    AbortSpelled(c, raised);
  }

  lemma AbortSpelled(c: string, b: seq<Byte>)
    requires |c| == |b| && forall i :: 0 <= i < |b| ==> c[i] as int == b[i]
    ensures IsAbort(c) <==> b == [65, 66, 79, 82] || b == [255, 244, 255, 242, 65, 66, 79, 82]
  {
    var abor, telnet := "ABOR", ['\U{FF}', '\U{F4}', '\U{FF}', '\U{F2}'] + "ABOR";
    assert telnet[4] == 'A' && telnet[5] == 'B' && telnet[6] == 'O' && telnet[7] == 'R';
    Spelled(c, b, abor, [65, 66, 79, 82]);
    Spelled(c, b, telnet, [255, 244, 255, 242, 65, 66, 79, 82]);
  }

  lemma Spelled(c: string, b: seq<Byte>, word: string, codes: seq<Byte>)
    requires |c| == |b| && forall i :: 0 <= i < |b| ==> c[i] as int == b[i]
    requires |word| == |codes| && forall i :: 0 <= i < |word| ==> word[i] as int == codes[i]
    ensures c == word <==> b == codes
  {
    if b == codes {
      forall i | 0 <= i < |c| ensures c[i] == word[i] { assert c[i] as int == word[i] as int; }
    }
  }

  /** The session's settings. */
  datatype Settings = Settings(loggedIn: bool, uid: Option<int>, euid: int, activePort: bool, activePasv: bool,
                               portAddr: seq<Byte>, asciiMode: bool)

  /** An end of the socketpair. */
  datatype Pair = Pair(plan: seq<Outcome>, input: seq<Byte>, output: seq<Byte>)

  /** All there is to a session between two commands. */
  datatype Snapshot = Snapshot(settings: Settings, restart: int, log: Log, pic: Pair)

  class Session {
    var cmd: string
    var arg: string
    var loggedIn: bool
    var activePort: bool
    var portAddr: seq<Byte>
    var activePasv: bool
    const control: Stream
    var dataFd: int
    var shut: bool               // shutdown has been called on the data connection
    const pic: Stream
    var asciiMode: bool
    var uid: Option<int>
    var restartPosition: int
    var receivedAbor: bool
    var timePoint: Time

    var euid: int                // the process's effective user
    var replies: seq<Reply>      // written to the control connection
    var signals: seq<nat>        // how many SIGURGs arrive at each point to come
    ghost var aborts: nat        // commands the SIGURG handler has taken
    ghost var others: nat
    ghost var parsed: seq<Command>

    constructor (control: Stream, pic: Stream, signals: seq<nat>)
      ensures this.control == control && this.pic == pic && this.signals == signals
      ensures cmd == "" && arg == "" && !loggedIn && !activePort && !activePasv && dataFd == -1 && !shut
      ensures uid.None? && euid == 0 && restartPosition == 0 && !receivedAbor && replies == [] && |portAddr| == 16
      ensures parsed == [] && aborts == 0 && others == 0
    {
      this.control, this.pic, this.signals := control, pic, signals;
      cmd, arg, loggedIn, activePort, activePasv, dataFd, shut := "", "", false, false, false, -1, false;
      portAddr := seq(16, i => 0);
      asciiMode, uid, restartPosition, receivedAbor, timePoint := false, None, 0, false, Time(0, 0);
      euid, replies, aborts, others, parsed := 0, [], 0, 0, [];
    }

    ghost function View(): Log
      reads this, control
    {
      Log(receivedAbor, aborts, others, replies, parsed, Command(cmd, arg), control.input, Failed in control.plan, signals)
    }

    ghost function Now(): Snapshot
      reads this, control, pic
    {
      Snapshot(Settings(loggedIn, uid, euid, activePort, activePasv, portAddr, asciiMode), restartPosition, View(),
               Pair(pic.plan, pic.input, pic.output))
    }

    method Say(r: Reply)
      requires !r.UrgentUnknown500?
      modifies this`replies
      ensures replies == old(replies) + [r]
      ensures Spoke(old(View()), View(), [r])
    {
      MainSay(replies, r);
      ListenedNothing(View());
      replies := replies + [r];
      hide Main, Arriving, Commands, Behind;
    }

    /** parse_command; it exits when a read fails or no line is left on the control connection. */
    method ParseCommand() returns (exited: bool)
      modifies this`cmd, this`arg, this`parsed, control`plan, control`input
      ensures exited ==> Failed in old(control.plan) || LinesLeft(old(control.input)) == 0
      ensures !exited ==>
                var s, n := old(control.input), LineLength(old(control.input), LINE - 1);
                && control.input == s[n..] && parsed == old(parsed) + [Command(cmd, arg)]
                && Command(cmd, arg) == Parse(Text(s[..n]), Command(old(cmd), old(arg)))
      ensures !exited ==> Listened(old(View()), View())
    {
      var buf := new Byte[LINE](_ => NUL);
      ghost var s, was := control.input, View();
      var ret := ReadLine(control, buf, LINE, BUF_ADDRESS);
      LineTaken(s);
      if ret == -1 { return true; }
      LineGot(s, control.input, buf[..], ret);
      hide LineLength, Complete, LineRead, Listened, Parse, LinesLeft;
      if ret == 0 { return true; }
      var text := Text(buf[..]);
      ghost var n := LineLength(s, LINE - 1);
      var c := Parse(text, Command(cmd, arg));
      cmd, arg, parsed := c.cmd, c.arg, parsed + [c];
      OneCommand(was, View());
      return false;
    }

    /** sigurg_handler */
    method SigurgHandler() returns (exited: bool)
      modifies this`cmd, this`arg, this`receivedAbor, this`shut, this`replies, this`aborts, this`others, this`parsed
      modifies control`plan, control`input
      ensures old(dataFd) == -1 ==> !exited && View() == old(View()) && shut == old(shut)
      ensures exited ==> Failed in old(control.plan) || LinesLeft(old(control.input)) == 0
      ensures !exited ==> Heard(old(View()), View(), [])
      ensures old(dataFd) != -1 && !exited ==>
                && |parsed| == |old(parsed)| + 1 && UrgentOf(View()) == TakeLine(UrgentOf(old(View())))
                && (receivedAbor, shut, aborts, others, replies)
                   == if IsAbort(cmd) then (true, true, old(aborts) + 1, old(others), old(replies))
                      else (old(receivedAbor), old(shut), old(aborts), old(others) + 1, old(replies) + [UrgentUnknown500])
    {
      ghost var was := View();
      SpokeNothing(was);
      hide Heard, Listened, Parse, Text, LinesLeft, Main, IsAbort;
      if dataFd == -1 { return false; }
      exited := ParseCommand();
      if exited { return; }
      ghost var read := View();
      if IsAbort(cmd) {
        receivedAbor, shut, aborts := true, true, aborts + 1;
      } else {
        replies, others := replies + [UrgentUnknown500], others + 1;
      }
      HeardOne(was, read, View());
    }

    /** A point between two steps of a handler, at which any number of SIGURGs may arrive. */
    method Interrupts() returns (exited: bool)
      modifies this`cmd, this`arg, this`receivedAbor, this`shut, this`replies, this`aborts, this`others, this`signals
      modifies this`parsed, control`plan, control`input
      ensures !exited ==> Spoke(old(View()), View(), [])
      ensures !exited ==> UrgentOf(View()) == Point(UrgentOf(old(View())), dataFd != -1)
      ensures !exited ==> shut == (old(shut) || old(aborts) < aborts) && old(aborts) <= aborts
      ensures exited ==> Short(old(View()), 0)
      ensures old(dataFd) == -1 ==> !exited && View().(signals := old(signals)) == old(View())
      ensures old(dataFd) != -1 && !exited ==>
                |parsed| == |old(parsed)| + (if old(signals) == [] then 0 else old(signals)[0])
    {
      SpokeNothing(View());
      if signals == [] { return false; }
      hide Heard, Spoke, LinesLeft, TakeLines;
      var n := signals[0];
      signals := signals[1..];
      exited := HandleAll(n);
      if exited {
        Shorter(old(View()), n);
        return;
      }
      HeardCounts(old(View()), View());
    }

    /** `n` SIGURGs one after another. */
    method HandleAll(n: nat) returns (exited: bool)
      modifies this`cmd, this`arg, this`receivedAbor, this`shut, this`replies, this`aborts, this`others, this`parsed
      modifies control`plan, control`input
      ensures !exited ==> Heard(old(View()), View(), []) && old(aborts) <= aborts
      ensures !exited ==> shut == (old(shut) || old(aborts) < aborts)
      ensures exited ==> dataFd != -1 && (Failed in old(control.plan) || LinesLeft(old(control.input)) < n)
      ensures old(dataFd) == -1 ==> !exited && View() == old(View())
      ensures old(dataFd) != -1 && !exited ==>
                |parsed| == |old(parsed)| + n && UrgentOf(View()) == TakeLines(UrgentOf(old(View())), n)
    {
      SpokeNothing(View());
      hide Heard, LinesLeft, TakeLine, Parse, Text, Listened, Main, IsAbort;
      ghost var u, nothing: seq<Reply> := UrgentOf(View()), [];
      assert nothing + nothing == nothing;
      for i := 0 to n
        invariant Heard(old(View()), View(), [])
        invariant dataFd != -1 ==> |parsed| == |old(parsed)| + i && UrgentOf(View()) == TakeLines(u, i)
        invariant shut == (old(shut) || old(aborts) < aborts) && old(aborts) <= aborts
        invariant dataFd == -1 ==> View() == old(View())
      {
        ghost var was := View();
        exited := SigurgHandler();
        if exited {
          StillShort(old(View()), was, i);
          return;
        }
        HeardTrans(old(View()), was, View(), nothing, nothing);
      }
      return false;
    }

    method ResetDataFd()
      modifies this`dataFd, this`shut, this`activePasv, this`activePort
      ensures dataFd == -1 && !shut && !activePasv && !activePort
    {
      dataFd, shut := -1, false;
      activePasv := false;
      activePort := false;
    }

    /** get_port_addr; `garbage` is what the uninitialised array held. */
    method GetPortAddr(garbage: seq<nat>)
      requires |garbage| == 6
      modifies this`portAddr, this`activePort
      ensures portAddr == AddressCodec.SockAddr(AddressCodec.Numbers(arg, true, 0, garbage)) && activePort
    {
      var v := AddressCodec.ParseNumbers(arg, garbage);
      portAddr := AddressCodec.SockAddr(v);
      activePort := true;
    }

    method InitTransferStartTimePoint(clock: Clock)
      modifies this`timePoint
      ensures timePoint == Reading(clock.now)
    {
      timePoint := Reading(clock.now);
    }

    /** limit_transmission_speed: from the chunk's elapsed time to the sleep and the next time point. */
    method LimitTransmissionSpeed(bytes: nat, limit: nat, clock: Clock, t: Timing)
      modifies this`timePoint, clock
      ensures clock.now == old(clock.now)
                           + Sleeps(bytes, Effective(Between(old(timePoint), Reading(old(clock.now)))), limit, t.over)
      ensures timePoint == Reading(clock.now)
    {
      hide Reading, Between, Nanos, CastRate, Sleeps, Excess, Effective;
      var elapsed := Effective(Between(timePoint, Reading(clock.now)));
      var currentRate := CastRate(bytes, elapsed);
      SleepsCases(bytes, elapsed, limit, t.over);
      if currentRate > limit && limit == 0 {
        clock.Pass(t.over);
      } else if currentRate > limit {
        var pauseTime := Excess(currentRate, limit, elapsed);
        SleepForSeconds(pauseTime, clock, t.wakes, t.over);
      }
      timePoint := Reading(clock.now);
    }
  }

  /** The sleep by the branches of limit_transmission_speed. */
  lemma SleepsCases(bytes: nat, e: real, limit: nat, over: real)
    requires e > 0.0
    ensures var r := CastRate(bytes, e);
            && (r <= limit ==> Sleeps(bytes, e, limit, over) == 0.0)
            && (r > limit == 0 ==> Sleeps(bytes, e, limit, over) == over)
            && (r > limit > 0 ==>
                  var p := Excess(r, limit, e);
                  Sleeps(bytes, e, limit, over) == Nanos(p) as real * NANO + (if p > 0.0 then over else 0.0))
  {
    NoNanos();
    hide CastRate, Nanos, Excess;
  }

  lemma NoNanos()
    ensures Nanos(0.0) as real * NANO == 0.0
  {
  }

  /** The line of a readline that did not fail. */
  lemma {:induction false} LineGot(s: seq<Byte>, rest: seq<Byte>, buf: seq<Byte>, ret: int)
    requires LineRead(s, LINE - 1, BUF_ADDRESS, rest, buf, ret) && |buf| == LINE
    ensures ret >= 0 && (ret > 0 <==> Complete(s, LINE - 1)) && rest == s[LineLength(s, LINE - 1)..]
    ensures ret > 0 ==> Text(buf) == Text(s[..LineLength(s, LINE - 1)])
  {
    SignTells(s, LINE - 1, BUF_ADDRESS, rest, buf, ret);
    hide Find, Text;
    var n := LineLength(s, LINE - 1);
    if ret > 0 {
      assert buf[..n + 1] == s[..n] + [NUL];
      TextStops(buf, s[..n]);
    }
  }

  lemma OneCommand(a: Log, b: Log)
    requires Complete(a.input, LINE - 1)
    requires var k := LineLength(a.input, LINE - 1);
             && b.parsed == a.parsed + [b.last] && b.last == Parse(Text(a.input[..k]), a.last)
             && b.input == a.input[k..] && (b.fails ==> a.fails)
    ensures Listened(a, b)
  {
    hide Complete, LineLength, Parse, Text;
    var k := LineLength(a.input, LINE - 1);
    assert b.parsed[|a.parsed|..] == [b.last];
    assert Commands(a.input[k..], b.last, 0) == [];
    assert Commands(a.input, a.last, 1) == [b.last] + [];
    assert Behind(a.input[k..], 0) == a.input[k..];
  }

  /** One command taken by the SIGURG handler. */
  lemma HeardOne(a: Log, m: Log, b: Log)
    requires Listened(a, m) && |m.parsed| == |a.parsed| + 1
    requires m.aborted == a.aborted && m.aborts == a.aborts && m.others == a.others && m.replies == a.replies
    requires b == m.(aborted := true, aborts := a.aborts + 1)
             || b == m.(others := a.others + 1, replies := a.replies + [UrgentUnknown500])
    ensures Heard(a, b, [])
  {
    MainSay(a.replies, UrgentUnknown500);
    hide Main, Commands, Behind;
    assert Main(a.replies) + [] == Main(a.replies);
  }

  /** SIGURGs that find no line left were too many from the start. */
  lemma StillShort(a: Log, b: Log, i: nat)
    requires Heard(a, b, []) && |b.parsed| == |a.parsed| + i && (b.fails || LinesLeft(b.input) == 0)
    ensures a.fails || LinesLeft(a.input) == i
  {
    hide LinesLeft, Listened, Main;
    LengthsGrow(a, b);
  }

  lemma Shorter(a: Log, n: nat)
    requires a.signals != [] && a.signals[0] == n && (a.fails || LinesLeft(a.input) < n)
    ensures Short(a, 0)
  {
    hide LinesLeft;
  }

  lemma HeardCounts(a: Log, b: Log)
    requires a.signals != [] && b.signals == a.signals[1..] && Heard(a.(signals := b.signals), b, [])
    requires |b.parsed| == |a.parsed| || |b.parsed| == |a.parsed| + a.signals[0]
    ensures Spoke(a, b, [])
  {
    hide Listened, Main;
    ListenedSame(a.(signals := b.signals), a, b);
  }

  lemma ListenedSame(a: Log, c: Log, b: Log)
    requires Listened(a, b) && c.parsed == a.parsed && c.input == a.input && c.last == a.last && c.fails == a.fails
    ensures Listened(c, b)
  {
    hide Commands, Behind;
  }

  lemma TextStops(buf: seq<Byte>, line: seq<Byte>)
    requires line + [NUL] <= buf
    ensures Text(buf) == Text(line)
    decreases |line|
  {
    if line != [] {
      assert buf[1..][..|line|] == line[1..] + [NUL];
      assert buf[0] == line[0];
      TextStops(buf[1..], line[1..]);
    }
  }
}
