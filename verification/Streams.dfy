/** Blocking stream I/O over short counts, interruptions and failures. A `Stream` holds the bytes
    the peer will ever send, the bytes written, and the kernel's plan for the coming calls; the
    loops are proved against plain sequence functions for every plan. */
module Streams {
  import opened Base

  /** A buffer with `data` laid over it from `at`. */
  function Put(b: seq<Byte>, at: nat, data: seq<Byte>): (r: seq<Byte>)
    requires at + |data| <= |b|
    ensures |r| == |b|
  {
    b[..at] + data + b[at + |data|..]
  }

  lemma PutPut(b: seq<Byte>, at: nat, x: seq<Byte>, y: seq<Byte>)
    requires at + |x| + |y| <= |b|
    ensures Put(Put(b, at, x), at + |x|, y) == Put(b, at, x + y)
  {
  }

  lemma PutNothing(b: seq<Byte>, at: nat)
    requires at <= |b|
    ensures Put(b, at, []) == b
  {
  }

  lemma PutParts(b: seq<Byte>, at: nat, data: seq<Byte>, m: nat)
    requires at + |data| <= m <= |b|
    ensures Put(b, at, data)[..at] == b[..at] && Put(b, at, data)[at..at + |data|] == data
    ensures Put(b, at, data)[..at + |data|] == b[..at] + data
    ensures Put(b, at, data)[m..] == b[m..]
  {
  }

  /** How the kernel ends one call; a count is clipped to what the call allows. When the plan has
      run out every call completes. */
  datatype Outcome = Interrupted | Failed | Count(n: nat)

  class Stream {
    var input: seq<Byte>
    var output: seq<Byte>
    var plan: seq<Outcome>

    constructor (input: seq<Byte>, plan: seq<Outcome>)
      ensures this.input == input && this.output == [] && this.plan == plan
    {
      this.input, this.output, this.plan := input, [], plan;
    }

    method Next(limit: nat) returns (o: Outcome)
      modifies this`plan
      ensures o.Count? ==> o.n <= limit
      ensures |old(plan)| == 0 ==> o == Count(limit) && plan == []
      ensures |old(plan)| > 0 ==> plan == old(plan)[1..] && (o.Failed? ==> old(plan)[0].Failed?)
      ensures Steady(old(plan)) && limit > 0 ==> o.Interrupted? || (o.Count? && o.n > 0)
      ensures |old(plan)| > 0 && old(plan)[0].Count? ==> o == Count(Min(old(plan)[0].n, limit))
    {
      if plan == [] { return Count(limit); }
      o := if plan[0].Count? then Count(Min(plan[0].n, limit)) else plan[0];
      plan := plan[1..];
    }

    /** read(2): at least one byte unless the peer has closed. -1 is an error, `eintr` its errno. */
    method Read(buf: array<Byte>, at: nat, count: nat) returns (ret: int, eintr: bool)
      requires at + count <= buf.Length && count > 0
      modifies this`plan, this`input, buf
      ensures plan == (if old(plan) == [] then [] else old(plan)[1..])
      ensures -1 <= ret <= Min(count, |old(input)|)
      ensures ret == -1 ==> old(plan) != [] && (eintr || Failed in old(plan)) && !Prompt(old(plan))
      ensures ret == 0 ==> old(input) == []
      ensures var n := if ret < 0 then 0 else ret;
              input == old(input)[n..] && buf[..] == Put(old(buf[..]), at, old(input)[..n])
      ensures ret <= 0 ==> buf[..] == old(buf[..])
    {
      var o := Next(Min(count, |input|));
      if !o.Count? { return -1, o.Interrupted?; }
      var n := if o.n == 0 && input != [] then 1 else o.n;
      Store(buf, at, n);
      input := input[n..];
      return n, false;
    }

    /** recv(2) with MSG_PEEK: the same bytes, left in place. */
    method Peek(buf: array<Byte>, at: nat, count: nat) returns (ret: int, eintr: bool)
      requires at + count <= buf.Length && count > 0
      modifies this`plan, buf
      ensures plan == (if old(plan) == [] then [] else old(plan)[1..])
      ensures -1 <= ret <= Min(count, |input|)
      ensures ret == -1 ==> old(plan) != [] && (eintr || Failed in old(plan))
      ensures ret == 0 ==> input == []
      ensures var n := if ret < 0 then 0 else ret;
              buf[..] == Put(old(buf[..]), at, input[..n])
      ensures ret <= 0 ==> buf[..] == old(buf[..])
    {
      var o := Next(Min(count, |input|));
      if !o.Count? { return -1, o.Interrupted?; }
      var n := if o.n == 0 && input != [] then 1 else o.n;
      Store(buf, at, n);
      return n, false;
    }

    method Store(buf: array<Byte>, at: nat, n: nat)
      requires at + n <= buf.Length && n <= |input|
      modifies buf
      ensures buf[..] == Put(old(buf[..]), at, input[..n])
    {
      forall i | 0 <= i < n { buf[at + i] := input[i]; }
    }

    /** write(2): any part of the data, possibly none. */
    method Write(data: seq<Byte>) returns (ret: int, eintr: bool)
      modifies this`plan, this`output
      ensures plan == (if old(plan) == [] then [] else old(plan)[1..])
      ensures -1 <= ret <= |data|
      ensures ret == -1 ==> old(plan) != [] && (eintr || Failed in old(plan))
      ensures Steady(old(plan)) && data != [] ==> ret > 0 || (ret == -1 && eintr)
      ensures old(plan) == [] || (old(plan)[0].Count? && old(plan)[0].n >= |data|) ==> ret == |data|
      ensures |data| == 1 && Prompt(old(plan)) ==> ret == 1
      ensures output == old(output) + data[..if ret < 0 then 0 else ret]
    {
      var o := Next(|data|);
      if !o.Count? { return -1, o.Interrupted?; }
      output := output + data[..o.n];
      return o.n, false;
    }
  }

  /** Every call either is interrupted or makes progress. */
  predicate Steady(plan: seq<Outcome>) {
    forall i :: 0 <= i < |plan| ==> plan[i].Interrupted? || (plan[i].Count? && plan[i].n > 0)
  }

  /** Every call makes progress. */
  predicate Prompt(plan: seq<Outcome>) {
    forall i :: 0 <= i < |plan| ==> plan[i].Count? && plan[i].n > 0
  }

  /** What is left of a plan: no longer, and nothing worse than was in it. */
  ghost predicate Rest(now: seq<Outcome>, was: seq<Outcome>) {
    && |now| <= |was| && (Failed in now ==> Failed in was)
    && (Steady(was) ==> Steady(now)) && (Prompt(was) ==> Prompt(now))
  }

  lemma RestAfter(plan: seq<Outcome>, now: seq<Outcome>)
    ensures Rest(plan, plan)
    ensures now != [] && Rest(now, plan) ==> Rest(now[1..], plan)
  {
  }

  lemma RestFails(now: seq<Outcome>, was: seq<Outcome>)
    requires Rest(now, was)
    ensures Failed in now ==> Failed in was
  {
  }

  lemma NeverFails(plan: seq<Outcome>)
    ensures Steady(plan) || Prompt(plan) ==> Failed !in plan
    ensures Prompt(plan) ==> Steady(plan)
  {
  }

  method ReadN(fd: Stream, buf: array<Byte>, at: nat, count: nat) returns (ret: int)
    requires at + count <= buf.Length
    modifies fd`plan, fd`input, buf
    ensures Rest(fd.plan, old(fd.plan))
    ensures ret == -1 ==> Failed in old(fd.plan)
    ensures ret != -1 ==> ret == Min(count, |old(fd.input)|)
    ensures exists n: nat :: n <= Min(count, |old(fd.input)|) && (ret != -1 ==> n == ret)
                        && fd.input == old(fd.input)[n..]
                        && buf[..] == Put(old(buf[..]), at, old(fd.input)[..n])
  {
    hide Put;
    ghost var was, b := fd.input, buf[..];
    PutNothing(b, at);
    var nLeft, done := count, 0;
    while nLeft > 0
      invariant nLeft == count - done && 0 <= done <= Min(count, |was|)
      invariant fd.input == was[done..]
      invariant buf[..] == Put(b, at, was[..done])
      invariant Rest(fd.plan, old(fd.plan))
      decreases nLeft + |fd.plan|
    {
      var nRead, eintr := fd.Read(buf, at + done, nLeft);
      if nRead < 0 {
        if eintr { continue; }
        return -1;
      } else if nRead == 0 {
        return count - nLeft;
      } else {
        PutPut(b, at, was[..done], was[done..][..nRead]);
        assert was[..done] + was[done..][..nRead] == was[..done + nRead];
        done, nLeft := done + nRead, nLeft - nRead;
      }
    }
    return count;
  }

  method WriteN(fd: Stream, data: seq<Byte>) returns (ret: int)
    modifies fd`plan, fd`output
    ensures Rest(fd.plan, old(fd.plan))
    ensures ret == -1 ==> Failed in old(fd.plan)
    ensures ret != -1 ==> ret == |data| && fd.output == old(fd.output) + data
    ensures exists n :: 0 <= n <= |data| && fd.output == old(fd.output) + data[..n]
  {
    var done := 0;
    while done < |data|
      invariant 0 <= done <= |data| && fd.output == old(fd.output) + data[..done]
      invariant Rest(fd.plan, old(fd.plan))
      decreases |data| - done + |fd.plan|
    {
      var n, eintr := fd.Write(data[done..]);
      if n < 0 {
        if eintr { continue; }
        return -1;
      }
      done := done + n;
    }
    assert data[..done] == data;
    return |data|;
  }

  // ---- readline ----

  /** Index of the first newline, or the length. */
  function Find(s: seq<Byte>): (i: nat)
    ensures i <= |s| && (i < |s| ==> s[i] == NEWLINE) && forall k :: 0 <= k < i ==> s[k] != NEWLINE
  {
    if s == [] || s[0] == NEWLINE then 0 else 1 + Find(s[1..])
  }

  /** Bytes the next readline takes from `s` when at most `m` fit. */
  function LineLength(s: seq<Byte>, m: nat): (n: nat)
    ensures n <= Min(m, |s|)
  {
    Min(if Find(s) < |s| then Find(s) + 1 else |s|, m)
  }

  predicate EndsLine(line: seq<Byte>) {
    line != [] && line[|line| - 1] == NEWLINE
  }

  /** A whole line, or a full buffer; otherwise the stream ended first. */
  predicate Complete(s: seq<Byte>, m: nat) {
    LineLength(s, m) == m || EndsLine(s[..LineLength(s, m)])
  }

  /** A newline among the bytes that fit ends the line. */
  lemma {:induction false} LineEnds(s: seq<Byte>, m: nat, k: nat)
    requires Find(s) < k <= Min(m, |s|)
    ensures LineLength(s, m) == Find(s) + 1 && EndsLine(s[..Find(s) + 1]) && Complete(s, m)
  {
  }

  /** Without a newline in the first `m` bytes the line is a full buffer, or the whole stream. */
  lemma {:induction false} LineFull(s: seq<Byte>, m: nat)
    requires Min(m, |s|) <= Find(s)
    ensures LineLength(s, m) == Min(m, |s|) && !EndsLine(s[..Min(m, |s|)])
    ensures Complete(s, m) <==> m <= |s|
  {
    var n := Min(m, |s|);
    if n > 0 { assert s[..n][n - 1] == s[n - 1]; }
  }

  lemma {:induction false} FindRest(s: seq<Byte>, k: nat)
    requires k <= Find(s)
    ensures Find(s[k..]) == Find(s) - k
  {
    if k == 0 {
      assert s[0..] == s;
    } else {
      FindRest(s[1..], k - 1);
      assert s[1..][k - 1..] == s[k..];
    }
  }

  method RecvPeek(fd: Stream, buf: array<Byte>, at: nat, maxLen: nat) returns (ret: int)
    requires at + maxLen <= buf.Length && maxLen > 0
    modifies fd`plan, buf
    ensures Rest(fd.plan, old(fd.plan))
    ensures -1 <= ret <= Min(maxLen, |fd.input|) && (ret == 0 ==> fd.input == [])
    ensures ret == -1 ==> Failed in old(fd.plan)
    ensures ret != -1 ==> buf[..] == Put(old(buf[..]), at, fd.input[..ret])
    ensures ret == -1 ==> buf[..] == old(buf[..])
  {
    while true
      invariant Rest(fd.plan, old(fd.plan)) && buf[..] == old(buf[..])
      decreases |fd.plan|
    {
      var n, eintr := fd.Peek(buf, at, maxLen);
      if n == -1 && eintr { continue; }
      return n;
    }
  }

  /** The scan of the peeked bytes: the first newline among them, or `count`. */
  method NewlineAt(buf: array<Byte>, at: nat, count: nat) returns (i: nat)
    requires at + count <= buf.Length
    ensures i <= count && (i < count ==> buf[at + i] == NEWLINE)
    ensures forall j :: at <= j < at + i ==> buf[j] != NEWLINE
  {
    for k := 0 to count
      invariant forall j :: at <= j < at + k ==> buf[j] != NEWLINE
    {
      if buf[at + k] == NEWLINE { return k; }
    }
    return count;
  }

  /** Terminate the line with a NUL. */
  method Terminate(buf: array<Byte>, n: nat, ghost line: seq<Byte>, ghost m: nat)
    requires n < m <= buf.Length && buf[..n] == line
    modifies buf
    ensures buf[..n + 1] == line + [NUL] && buf[m..] == old(buf[m..])
  {
    buf[n] := NUL;
  }

  /** The two read_n calls of readline: take the peeked bytes off the stream. */
  method Take(fd: Stream, buf: array<Byte>, done: nat, count: nat, ghost s: seq<Byte>, ghost m: nat) returns (ok: bool)
    requires done + count <= Min(m, |s|) && m <= buf.Length
    requires fd.input == s[done..] && buf[..done] == s[..done]
    modifies fd`plan, fd`input, buf
    ensures Rest(fd.plan, old(fd.plan))
    ensures buf[m..] == old(buf[m..])
    ensures ok ==> fd.input == s[done + count..] && buf[..done + count] == s[..done + count]
    ensures !ok ==> Failed in old(fd.plan) && exists k: nat :: k <= |s| && fd.input == s[k..]
  {
    ghost var was, input := buf[..], fd.input;
    var got := ReadN(fd, buf, done, count);
    ok := got == count;
    ghost var n: nat :| n <= Min(count, |input|) && (got != -1 ==> n == got)
                        && fd.input == input[n..] && buf[..] == Put(was, done, input[..n]);
    PutParts(was, done, input[..n], m);
    TakeSlices(s, done, n);
    assert buf[m..] == buf[..][m..] && buf[..done + n] == buf[..][..done + n];
  }

  lemma TakeSlices(s: seq<Byte>, done: nat, n: nat)
    requires done + n <= |s|
    ensures s[done..][n..] == s[done + n..] && s[..done] + s[done..][..n] == s[..done + n]
  {
  }

  /** What readline promises about the stream `s` it found, when it did not fail. */
  ghost predicate LineRead(s: seq<Byte>, m: nat, base: nat, rest: seq<Byte>, line: seq<Byte>, ret: int) {
    var n := LineLength(s, m);
    && rest == s[n..]
    && (Complete(s, m) ==> line[..Min(n + 1, |line|)] == s[..n] + [NUL]
                           && ret == if EndsLine(s[..n]) then base + n else n)
    && (!Complete(s, m) ==> ret == 0 && rest == [])
  }

  /** The newline branch of readline: take the line and terminate it. */
  method EndLine(fd: Stream, buf: array<Byte>, maxLen: nat, base: nat, start: nat, count: nat, ghost s: seq<Byte>)
    returns (ret: int)
    requires start + count < maxLen <= buf.Length && start + count <= |s| && Find(s) == start + count - 1
    requires fd.input == s[start..] && buf[..start] == s[..start]
    modifies fd`plan, fd`input, buf
    ensures Rest(fd.plan, old(fd.plan)) && buf[maxLen..] == old(buf[maxLen..])
    ensures exists k: nat :: k <= |s| && fd.input == s[k..]
    ensures ret == -1 ==> Failed in old(fd.plan)
    ensures ret != -1 ==> LineRead(s, maxLen - 1, base, fd.input, buf[..], ret)
  {
    var ok := Take(fd, buf, start, count, s, maxLen);
    if !ok { return -1; }
    LineEnds(s, maxLen - 1, start + count);
    Terminate(buf, start + count, s[..start + count], maxLen);
    assert buf[..][..start + count + 1] == s[..start + count] + [NUL];
    return base + start + count;
  }

  /** One round of readline's loop: peek, and take a line's end or all that was seen. */
  method ReadSome(fd: Stream, buf: array<Byte>, maxLen: nat, base: nat, start: nat, ghost s: seq<Byte>)
    returns (ret: Option<int>, done: nat)
    requires start < maxLen - 1 && maxLen <= buf.Length && start <= |s| && start <= Find(s)
    requires fd.input == s[start..] && buf[..start] == s[..start]
    modifies fd`plan, fd`input, buf
    ensures Rest(fd.plan, old(fd.plan)) && buf[maxLen..] == old(buf[maxLen..])
    ensures exists k: nat :: k <= |s| && fd.input == s[k..]
    ensures ret.None? ==> start < done <= Min(maxLen - 1, |s|) && done <= Find(s)
                          && fd.input == s[done..] && buf[..done] == s[..done]
    ensures ret == Some(-1) ==> Failed in old(fd.plan)
    ensures ret.Some? && ret.value != -1 ==> LineRead(s, maxLen - 1, base, fd.input, buf[..], ret.value)
  {
    hide LineLength, Complete, Find, EndsLine;
    var peeked := Peeked(fd, buf, maxLen, start, s);
    if peeked <= 0 {
      if peeked == 0 { StreamEnd(s, maxLen - 1, base, buf[..]); }
      return Some(peeked), start;
    }
    var i := NewlineAt(buf, start, peeked);
    FoundAt(s, start, buf[..start + peeked], i);
    hide LineRead;
    if i < peeked {
      var r := EndLine(fd, buf, maxLen, base, start, i + 1, s);
      return Some(r), start;
    }
    var ok := Take(fd, buf, start, peeked, s, maxLen);
    if !ok { return Some(-1), start; }
    return None, start + peeked;
  }

  lemma StreamEnd(s: seq<Byte>, m: nat, base: nat, line: seq<Byte>)
    requires |s| < m && |s| <= Find(s)
    ensures LineRead(s, m, base, s[|s|..], line, 0)
  {
    LineFull(s, m);
  }

  /** recv_peek in terms of the whole stream. */
  method Peeked(fd: Stream, buf: array<Byte>, maxLen: nat, start: nat, ghost s: seq<Byte>) returns (peeked: int)
    requires start < maxLen - 1 && maxLen <= buf.Length && start <= |s|
    requires fd.input == s[start..] && buf[..start] == s[..start]
    modifies fd`plan, buf
    ensures Rest(fd.plan, old(fd.plan)) && buf[maxLen..] == old(buf[maxLen..])
    ensures peeked == -1 ==> Failed in old(fd.plan)
    ensures -1 <= peeked <= Min(maxLen - 1, |s|) - start && (peeked == 0 ==> start == |s|)
    ensures peeked >= 0 ==> buf[..start + peeked] == s[..start + peeked]
    ensures peeked == -1 ==> buf[..start] == s[..start]
  {
    ghost var was := buf[..];
    peeked := RecvPeek(fd, buf, start, maxLen - 1 - start);
    if peeked >= 0 {
      PutParts(was, start, fd.input[..peeked], maxLen);
      TakeSlices(s, start, peeked);
    }
    assert buf[..start + Max(peeked, 0)] == buf[..][..start + Max(peeked, 0)] && buf[maxLen..] == buf[..][maxLen..];
  }

  /** readline. `base` is the address of the buffer, which readline adds to the length of a
      line that ends in a newline. Nothing outside buf[..maxLen] is touched. */
  method ReadLine(fd: Stream, buf: array<Byte>, maxLen: nat, base: nat) returns (ret: int)
    requires 1 <= maxLen <= buf.Length
    modifies fd`plan, fd`input, buf
    ensures Rest(fd.plan, old(fd.plan))
    ensures buf[maxLen..] == old(buf[maxLen..])
    ensures exists k: nat :: k <= |old(fd.input)| && fd.input == old(fd.input)[k..]
    ensures ret == -1 ==> Failed in old(fd.plan)
    ensures ret != -1 ==> LineRead(old(fd.input), maxLen - 1, base, fd.input, buf[..], ret)
  {
    ghost var s := fd.input;
    var done := 0;
    while done < maxLen - 1
      invariant 0 <= done <= Min(maxLen - 1, |s|) && done <= Find(s)
      invariant fd.input == s[done..] && buf[..done] == s[..done]
      invariant buf[maxLen..] == old(buf[maxLen..]) && Rest(fd.plan, old(fd.plan))
      decreases maxLen - done
    {
      var r, next := ReadSome(fd, buf, maxLen, base, done, s);
      if r.Some? { return r.value; }
      done := next;
    }
    LineFull(s, maxLen - 1);
    Terminate(buf, done, s[..done], maxLen);
    assert buf[..][..done + 1] == s[..done] + [NUL];
    return maxLen - 1;
  }

  /** The scan result in terms of the whole stream. */
  lemma FoundAt(s: seq<Byte>, done: nat, seen: seq<Byte>, i: nat)
    requires done <= Find(s) && seen <= s && done + i <= |seen|
    requires forall j :: done <= j < done + i ==> seen[j] != NEWLINE
    ensures Find(s) >= done + i
    ensures done + i < |seen| && seen[done + i] == NEWLINE ==> Find(s) == done + i
  {
  }

  // ---- repeated readline ----

  /** What successive calls return until the stream ends inside a line, and that unfinished rest. */
  function Lines(s: seq<Byte>, m: nat): seq<seq<Byte>>
    requires m > 0
    decreases |s|
  {
    if Complete(s, m) then [s[..LineLength(s, m)]] + Lines(s[LineLength(s, m)..], m) else []
  }

  function Unfinished(s: seq<Byte>, m: nat): seq<Byte>
    requires m > 0
    decreases |s|
  {
    if Complete(s, m) then Unfinished(s[LineLength(s, m)..], m) else s
  }

  /** A line: a newline nowhere but at its end, and there unless the buffer is full. */
  predicate IsLine(line: seq<Byte>, m: nat) {
    && 0 < |line| <= m
    && (forall i :: 0 <= i < |line| - 1 ==> line[i] != NEWLINE)
    && (EndsLine(line) || |line| == m)
  }

  predicate IsRest(rest: seq<Byte>, m: nat) {
    |rest| < m && forall i :: 0 <= i < |rest| ==> rest[i] != NEWLINE
  }

  lemma FirstLine(s: seq<Byte>, m: nat)
    requires m > 0
    ensures Complete(s, m) ==> IsLine(s[..LineLength(s, m)], m)
    ensures !Complete(s, m) ==> IsRest(s, m) && LineLength(s, m) == |s|
  {
  }

  /** Nothing is lost, repeated or split wrongly: the lines and the rest are the stream. */
  lemma {:induction false} LinesPartition(s: seq<Byte>, m: nat)
    requires m > 0
    ensures Flatten(Lines(s, m)) + Unfinished(s, m) == s
    ensures (forall line :: line in Lines(s, m) ==> IsLine(line, m)) && IsRest(Unfinished(s, m), m)
    decreases |s|
  {
    FirstLine(s, m);
    if Complete(s, m) {
      var n := LineLength(s, m);
      LinesPartition(s[n..], m);
      FlattenCons(s[..n], Lines(s[n..], m), Unfinished(s[n..], m));
      assert s[..n] + s[n..] == s;
    }
  }

  lemma FlattenCons(line: seq<Byte>, lines: seq<seq<Byte>>, rest: seq<Byte>)
    ensures Flatten([line] + lines) + rest == line + (Flatten(lines) + rest)
  {
    assert ([line] + lines)[1..] == lines;
  }

  lemma FindInFirst(line: seq<Byte>, more: seq<Byte>, m: nat)
    requires IsLine(line, m)
    ensures LineLength(line + more, m) == |line| && Complete(line + more, m)
  {
    var s, n := line + more, |line|;
    assert s[..n] == line;
    assert forall i :: 0 <= i < n - 1 ==> s[i] == line[i];
    if EndsLine(line) { assert s[n - 1] == NEWLINE && Find(s) == n - 1; }
    else { assert s[n - 1] == line[n - 1] && Find(s) >= n; }
  }

  /** That is the only way to cut the stream into lines: whatever the peeks, the calls return these. */
  lemma {:induction false} LinesUnique(parts: seq<seq<Byte>>, rest: seq<Byte>, m: nat)
    requires m > 0 && (forall i :: 0 <= i < |parts| ==> IsLine(parts[i], m)) && IsRest(rest, m)
    ensures Lines(Flatten(parts) + rest, m) == parts && Unfinished(Flatten(parts) + rest, m) == rest
  {
    if parts == [] {
      assert Flatten(parts) + rest == rest;
      assert Find(rest) == |rest|;
    } else {
      var line, more := parts[0], Flatten(parts[1..]) + rest;
      var s := Flatten(parts) + rest;
      assert s == line + more;
      FindInFirst(line, more, m);
      LinesUnique(parts[1..], rest, m);
      assert s[|line|..] == more && s[..|line|] == line;
      assert [line] + parts[1..] == parts;
    }
  }

  /** Only the address: readline's result is a length exactly when the line does not end in a
      newline, or the buffer sits at address 0. */
  lemma LengthOnlyAtZero(s: seq<Byte>, m: nat, base: nat, rest: seq<Byte>, line: seq<Byte>, ret: int)
    requires Complete(s, m) && LineRead(s, m, base, rest, line, ret)
    ensures ret == LineLength(s, m) <==> base == 0 || !EndsLine(s[..LineLength(s, m)])
  {
  }

  /** What parse_command looks at holds at every address: the result is positive if a line has been
      read and 0 if the stream ended first. */
  lemma {:induction false} SignTells(s: seq<Byte>, m: nat, base: nat, rest: seq<Byte>, line: seq<Byte>, ret: int)
    requires m > 0 && LineRead(s, m, base, rest, line, ret)
    ensures ret >= 0 && (ret > 0 <==> Complete(s, m))
  {
    hide Find;
  }

  // ---- single characters and framed messages ----

  method SendChar(fd: Stream, ch: Byte)
    modifies fd`plan, fd`output
    ensures Rest(fd.plan, old(fd.plan))
    ensures fd.output == old(fd.output) || fd.output == old(fd.output) + [ch]
    ensures Steady(old(fd.plan)) ==> fd.output == old(fd.output) + [ch]
  {
    var ret, eintr := fd.Write([ch]);
    while ret == -1 && eintr
      invariant Rest(fd.plan, old(fd.plan)) && -1 <= ret <= 1
      invariant fd.output == old(fd.output) + [ch][..if ret < 0 then 0 else ret]
      invariant Steady(old(fd.plan)) ==> ret == 1 || (ret == -1 && eintr)
      decreases |fd.plan| + (if ret == -1 then 1 else 0)
    {
      ret, eintr := fd.Write([ch]);
    }
  }

  /** get_char. `garbage` is what the uninitialised variable held; at end of stream, and after an
      error, that is the result, although the callers take 0 for end of stream. */
  method GetChar(fd: Stream, garbage: Byte) returns (res: Byte)
    modifies fd`plan, fd`input
    ensures Rest(fd.plan, old(fd.plan))
    ensures Failed !in old(fd.plan) ==>
              if old(fd.input) == [] then res == garbage && fd.input == []
              else res == old(fd.input)[0] && fd.input == old(fd.input)[1..]
  {
    hide Rest, Steady, Prompt;
    var buf := new Byte[1](_ => garbage);
    RestAfter(fd.plan, fd.plan);
    var ret, eintr := fd.Read(buf, 0, 1);
    while ret == -1 && eintr
      invariant Rest(fd.plan, old(fd.plan)) && fresh(buf) && buf.Length == 1 && -1 <= ret <= 1
      invariant ret == -1 ==> fd.input == old(fd.input) && buf[0] == garbage
      invariant ret == -1 && !eintr ==> Failed in old(fd.plan)
      invariant ret == 0 ==> old(fd.input) == [] && fd.input == [] && buf[0] == garbage
      invariant ret == 1 ==> old(fd.input) != [] && buf[0] == old(fd.input)[0] && fd.input == old(fd.input)[1..]
      decreases |fd.plan| + (if ret == -1 then 1 else 0)
    {
      ghost var now := fd.plan;
      RestAfter(old(fd.plan), now);
      RestFails(now, old(fd.plan));
      ret, eintr := fd.Read(buf, 0, 1);
    }
    return buf[0];
  }

  /** A message on the wire: four bytes of length, then the bytes. */
  function Frame(data: seq<Byte>): seq<Byte> {
    Bytes32(|data|) + data
  }

  /** What recv_buf with room for `cap` makes of a stream; None is an exit. */
  function Unframe(s: seq<Byte>, cap: nat): Option<(seq<Byte>, seq<Byte>)> {
    if |s| < 4 || Word32(s) > cap || |s| < 4 + Word32(s) then None
    else Some((s[4..4 + Word32(s)], s[4 + Word32(s)..]))
  }

  /** Round trip: a framed message that fits is received as sent, and nothing else is consumed;
      one that does not fit is refused. */
  lemma FrameRoundTrip(data: seq<Byte>, more: seq<Byte>, cap: nat)
    requires |data| < 0x1_0000_0000
    ensures Unframe(Frame(data) + more, cap) == if |data| <= cap then Some((data, more)) else None
  {
    var s := Frame(data) + more;
    Word32RoundTrip(|data|);
    assert s[0] == Bytes32(|data|)[0] && s[1] == Bytes32(|data|)[1];
    assert s[2] == Bytes32(|data|)[2] && s[3] == Bytes32(|data|)[3];
    assert Word32(s) == |data|;
    assert s[4..4 + |data|] == data && s[4 + |data|..] == more;
  }

  method SendBuf(fd: Stream, data: seq<Byte>) returns (ok: bool)
    modifies fd`plan, fd`output
    ensures Rest(fd.plan, old(fd.plan))
    ensures !ok ==> Failed in old(fd.plan) && !Prompt(old(fd.plan))
    ensures ok ==> fd.output == old(fd.output) + Frame(data)
  {
    var n := WriteN(fd, Bytes32(|data|));
    if n != 4 { return false; }
    n := WriteN(fd, data);
    return n == |data|;
  }

  method RecvBuf(fd: Stream, buf: array<Byte>, len: nat) returns (ok: bool, got: nat)
    requires len <= buf.Length
    modifies fd`plan, fd`input, buf
    ensures Rest(fd.plan, old(fd.plan)) && (ok ==> got <= len)
    ensures Failed !in old(fd.plan) ==>
              && (ok <==> Unframe(old(fd.input), len).Some?)
              && (ok ==> Unframe(old(fd.input), len) == Some((buf[..got], fd.input))
                         && buf[got..] == old(buf[got..]))
  {
    var head := new Byte[4];
    got := 0;
    var n := ReadN(fd, head, 0, 4);
    if n != 4 { return false, 0; }
    assert head[..] == old(fd.input)[..4];
    var recvLen := Word32(head[..]);
    if recvLen > len { return false, 0; }
    ghost var s, was := old(fd.input), buf[..];
    assert Word32(head[..]) == Word32(s);
    n := ReadN(fd, buf, 0, recvLen);
    if n == recvLen {
      PutParts(was, 0, s[4..][..recvLen], recvLen);
      assert buf[..recvLen] == buf[..][..recvLen] && buf[recvLen..] == buf[..][recvLen..];
      assert fd.input == s[4..][recvLen..];
      assert buf[..recvLen] == s[4..][..recvLen];
      assert s[4..][recvLen..] == s[4 + recvLen..] && s[4..][..recvLen] == s[4..4 + recvLen];
    }
    return n == recvLen, recvLen;
  }
}
