/** Many session processes running RETR, STOR and APPE on one file, one system call at a time,
    in any order the whole-file locks allow. A run is the list of system calls as they complete. */
module SharedFile {
  import opened Base
  import opened FileMeaning

  const CHUNK := 65536

  /** Where a handler stands: after open, after fstat, lock held, ftruncate done, in the chunk
      loop, or closed (and whether the loop had been entered). */
  datatype Phase = Opened | Statted | Locked | Truncated | Looping | Closed(looped: bool)

  /** A handler's local variables. `delivered` is what went out on the data connection and
      `lost` the bytes the loop counted as sent although sendfile did not take them. */
  datatype Proc = Proc(job: Job, phase: Phase, size: nat, pos: nat, buffer: Bytes, eof: bool,
                       total: nat, left: nat, lost: nat, delivered: Bytes)
  {
    predicate HoldsLock() { phase.Locked? || phase.Truncated? || phase.Looping? }
    predicate Served() { job.Retr? && (phase.Looping? || phase == Closed(true)) }
  }

  /** One completed system call of a handler. `Recv([])` is end of stream. */
  datatype Act =
    | Stat
    | Grant(job: Job)
    | Truncate
    | Seek
    | Recv(data: Bytes)
    | Write(data: Bytes)
    | Send(data: Bytes)
    | Close

  datatype Local = Stuck | Moved(proc: Proc, file: Bytes)

  function Started(job: Job): Proc {
    Proc(job, Opened, 0, 0, [], false, 0, 0, 0, [])
  }

  function Total(offset: int, size: nat): nat {
    if offset > size then 0 else size - offset
  }

  /** One step of one handler, locks aside. */
  function LocalStep(p: Proc, file: Bytes, a: Act): Local {
    match a
    case Stat =>
      if p.phase.Opened? then Moved(p.(phase := Statted, size := |file|), file) else Stuck
    case Grant(job) =>
      if p.phase.Statted? && job == p.job then Moved(p.(phase := Locked), file) else Stuck
    case Truncate =>
      if p.phase.Locked? && p.job.Stor? && p.job.offset == 0
      then Moved(p.(phase := Truncated), []) else Stuck
    case Seek => SeekStep(p, file)
    case Recv(data) =>
      if p.phase.Looping? && p.job.Uploads() && p.buffer == [] && !p.eof && |data| <= CHUNK
      then Moved(p.(buffer := data, eof := data == []), file) else Stuck
    case Write(data) =>
      if p.phase.Looping? && p.job.Uploads() && data <= p.buffer
      then Moved(p.(buffer := p.buffer[|data|..], pos := p.pos + |data|), WriteAt(file, p.pos, data))
      else Stuck
    case Send(data) =>
      if p.phase.Looping? && p.job.Retr? && p.left > 0
         && |data| <= Min(p.left, CHUNK) && (data == [] || (p.pos + |data| <= |file| && data == file[p.pos..p.pos + |data|]))
      then
        var want := Min(p.left, CHUNK);
        Moved(p.(delivered := p.delivered + data, pos := p.pos + |data|, left := p.left - want,
                 lost := p.lost + want - |data|), file)
      else Stuck
    case Close =>
      if p.phase.Closed? then Stuck else Moved(p.(phase := Closed(p.phase.Looping?)), file)
  }

  function SeekStep(p: Proc, file: Bytes): Local {
    match p.job
    case Stor(offset) =>
      if offset == 0 && p.phase.Truncated? then Moved(p.(phase := Looping, pos := 0), file)
      else if offset > 0 && p.phase.Locked? then Moved(p.(phase := Looping, pos := offset), file)
      else Stuck
    case Appe(_) =>
      if p.phase.Locked? then Moved(p.(phase := Looping, pos := |file|), file) else Stuck
    case Retr(offset) =>
      if p.phase.Locked?
      then Moved(p.(phase := Looping, pos := Max(offset, 0), total := Total(offset, p.size),
                    left := Total(offset, p.size)), file)
      else Stuck
  }

  /** The kernel's view: the file, every process, and the record locks (true is exclusive). */
  datatype State = State(file: Bytes, procs: map<nat, Proc>, locks: map<nat, bool>)

  datatype Event = Start(pid: nat, job: Job) | Do(pid: nat, act: Act)

  predicate Compatible(locks: map<nat, bool>, exclusive: bool) {
    if exclusive then locks == map[] else forall q :: q in locks ==> !locks[q]
  }

  function Step(s: State, e: Event): Option<State> {
    match e
    case Start(p, job) =>
      if p in s.procs && !s.procs[p].phase.Closed? then None
      else Some(s.(procs := s.procs[p := Started(job)]))
    case Do(p, a) =>
      if p !in s.procs then None
      else if a.Grant? && !Compatible(s.locks, a.job.Uploads()) then None
      else
        var l := LocalStep(s.procs[p], s.file, a);
        if l.Stuck? then None
        else
          var locks := if a.Grant? then s.locks[p := a.job.Uploads()]
                       else if a.Close? then s.locks - {p} else s.locks;
          Some(State(l.file, s.procs[p := l.proc], locks))
  }

  function Run(file: Bytes, es: seq<Event>): Option<State> {
    if es == [] then Some(State(file, map[], map[]))
    else
      var s := Run(file, es[..|es| - 1]);
      if s.None? then None else Step(s.value, es[|es| - 1])
  }

  /** What an observer of the run writes down: the uploads in lock-acquisition order, and for
      each process how many uploads had been granted when its latest lock was. */
  datatype History = History(uploads: seq<Upload>, position: map<nat, nat>)

  /** How one system call changes the record of the upload it belongs to. */
  function Touch(u: Upload, a: Act): Upload {
    match a
    case Truncate => u.(truncated := true)
    case Recv(d) => u.(received := u.received + d, eof := d == [])
    case Write(d) => u.(data := u.data + d)
    case _ => u
  }

  /** Touch the latest upload of process `p`. */
  function Amend(us: seq<Upload>, p: nat, a: Act): seq<Upload> {
    if us == [] then []
    else
      var i := |us| - 1;
      if us[i].pid == p then us[..i] + [Touch(us[i], a)] else Amend(us[..i], p, a) + [us[i]]
  }

  function Note(h: History, e: Event): History {
    match e
    case Start(_, _) => h
    case Do(p, Grant(job)) =>
      History(if job.Uploads() then h.uploads + [Upload(p, job, false, [], false, [])] else h.uploads,
              h.position[p := |h.uploads|])
    case Do(p, Send(_)) => h
    case Do(p, a) => h.(uploads := Amend(h.uploads, p, a))
  }

  function Observe(es: seq<Event>): History {
    if es == [] then History([], map[]) else Note(Observe(es[..|es| - 1]), es[|es| - 1])
  }

  /** The part of version `v` that a RETR at `offset` with `total` bytes to send can deliver. */
  function Slice(v: Bytes, offset: int, total: nat): Bytes {
    var lo := Max(offset, 0);
    if lo >= |v| then [] else v[lo..Min(|v|, lo + total)]
  }

  // ---- the invariant ----

  ghost predicate LocksAgree(s: State) {
    && (forall p :: p in s.locks ==> p in s.procs && s.procs[p].HoldsLock() && s.locks[p] == s.procs[p].job.Uploads())
    && (forall p :: p in s.procs && s.procs[p].HoldsLock() ==> p in s.locks)
    && (forall p, q :: p in s.locks && q in s.locks && s.locks[p] ==> p == q)
  }

  /** An upload is in progress. */
  ghost predicate Busy(locks: map<nat, bool>) {
    exists q :: q in locks && locks[q]
  }

  function Origin(prior: Bytes, u: Upload): nat {
    match u.job
    case Stor(offset) => Max(offset, 0)
    case _ => |prior|
  }

  /** The exclusive holder's upload is the last one, and its progress is the handler's. */
  ghost predicate WriterAgrees(file: Bytes, us: seq<Upload>, p: nat, pr: Proc) {
    && us != []
    && var last, prior := us[|us| - 1], Serial(file, us[..|us| - 1]);
    && last.pid == p && last.job == pr.job && last.eof == pr.eof
    && last.received == last.data + pr.buffer
    && last.truncated == (pr.job.Stor? && pr.job.offset == 0 && !pr.phase.Locked?)
    && (pr.phase.Looping? ==> pr.pos == Origin(prior, last) + |last.data|
                              && (pr.job.Stor? ==> pr.job.offset >= 0))
    && (!pr.phase.Looping? ==> last.data == [])
  }

  /** A download has sent a prefix of its slice of the version before upload number `position`. */
  ghost predicate ReaderAgrees(file: Bytes, h: History, busy: bool, p: nat, pr: Proc) {
    && p in h.position && h.position[p] <= |h.uploads|
    && (busy ==> h.position[p] < |h.uploads|)
    && pr.total == Total(pr.job.offset, pr.size)
    && |pr.delivered| + pr.lost + pr.left == pr.total
    && pr.pos == Max(pr.job.offset, 0) + |pr.delivered|
    && pr.delivered <= Slice(Serial(file, h.uploads[..h.position[p]]), pr.job.offset, pr.total)
  }

  ghost predicate ProcAgrees(file: Bytes, h: History, locks: map<nat, bool>, p: nat, pr: Proc) {
    && (p in locks && locks[p] ==> WriterAgrees(file, h.uploads, p, pr))
    && (p in locks && !locks[p] ==> p in h.position && h.position[p] == |h.uploads|)
    && (pr.Served() ==> ReaderAgrees(file, h, Busy(locks), p, pr))
    && (!pr.phase.Looping? && !pr.phase.Closed? ==>
          pr == Started(pr.job).(phase := pr.phase, size := pr.size))
  }

  /** Written bytes are a prefix of the received ones, all of them once end of stream was seen,
      and none go to a STOR at 0 before ftruncate or to a negative offset. */
  ghost predicate UploadAgrees(u: Upload) {
    && u.job.Uploads()
    && u.data <= u.received && (u.eof ==> u.data == u.received)
    && (u.truncated ==> u.job.Stor? && u.job.offset == 0)
    && (u.job.Stor? && (u.data != [] || u.eof) ==> u.job.offset > 0 || u.truncated)
  }

  ghost predicate UploadsAgree(us: seq<Upload>) {
    forall i :: 0 <= i < |us| ==> UploadAgrees(us[i])
  }

  ghost predicate Inv(file: Bytes, h: History, s: State) {
    && s.file == Serial(file, h.uploads)
    && LocksAgree(s)
    && UploadsAgree(h.uploads)
    && forall p :: p in s.procs ==> ProcAgrees(file, h, s.locks, p, s.procs[p])
  }

  lemma SerialAppend(file: Bytes, us: seq<Upload>, u: Upload)
    ensures Serial(file, us + [u]) == Apply(Serial(file, us), u)
  {
    assert (us + [u])[..|us + [u]| - 1] == us;
  }

  /** Acts that change no upload record. */
  lemma AmendIdle(us: seq<Upload>, p: nat, a: Act)
    requires !a.Truncate? && !a.Recv? && !a.Write?
    ensures Amend(us, p, a) == us
  {
    if us != [] {
      var i := |us| - 1;
      AmendIdle(us[..i], p, a);
      assert us == us[..i] + [us[i]];
    }
  }

  /** A step of process `p` leaves the record of every other process true, provided that it
      takes no lock away from others and changes the upload list at most in the last place. */
  lemma OthersAgree(file: Bytes, h: History, g: History, locks: map<nat, bool>, locks': map<nat, bool>,
                    p: nat, q: nat, pr: Proc)
    requires p != q && ProcAgrees(file, h, locks, q, pr)
    requires q in locks <==> q in locks'
    requires q in locks ==> locks[q] == locks'[q]
    requires q in h.position ==> q in g.position && g.position[q] == h.position[q]
    requires
      || (g.uploads == h.uploads && (Busy(locks') ==> Busy(locks)))
      || (q !in locks && exists u :: g.uploads == h.uploads + [u])
      || (q !in locks && Busy(locks) && |g.uploads| == |h.uploads| > 0
          && g.uploads[..|h.uploads| - 1] == h.uploads[..|h.uploads| - 1])
    ensures ProcAgrees(file, g, locks', q, pr)
  {
    if pr.Served() {
      assert ReaderAgrees(file, h, Busy(locks), q, pr);
      var k := h.position[q];
      if Busy(locks) && |g.uploads| == |h.uploads| {
        var n := |h.uploads| - 1;
        assert g.uploads[..n][..k] == g.uploads[..k] && h.uploads[..n][..k] == h.uploads[..k];
      }
      assert g.uploads[..k] == h.uploads[..k];
    }
  }

  lemma InvStart(file: Bytes, h: History, s: State, p: nat, job: Job)
    requires Inv(file, h, s) && Step(s, Start(p, job)).Some?
    ensures Inv(file, h, Step(s, Start(p, job)).value)
  {
  }

  lemma GrantLocks(s: State, p: nat, job: Job)
    requires LocksAgree(s) && Step(s, Do(p, Grant(job))).Some?
    ensures var t := Step(s, Do(p, Grant(job))).value;
            && p in s.procs && s.procs[p].phase.Statted? && s.procs[p].job == job && p !in s.locks
            && t == State(s.file, s.procs[p := s.procs[p].(phase := Locked)], s.locks[p := job.Uploads()])
            && LocksAgree(t) && !Busy(s.locks)
            && (job.Uploads() ==> s.locks == map[]) && (!job.Uploads() ==> !Busy(t.locks))
  {
  }

  lemma GrantHistory(file: Bytes, h: History, p: nat, job: Job)
    requires UploadsAgree(h.uploads)
    ensures var g := Note(h, Do(p, Grant(job)));
            && Serial(file, g.uploads) == Serial(file, h.uploads) && UploadsAgree(g.uploads)
            && g.position == h.position[p := |h.uploads|]
            && (if job.Uploads() then g.uploads == h.uploads + [Upload(p, job, false, [], false, [])]
                else g.uploads == h.uploads)
  {
    if job.Uploads() { SerialAppend(file, h.uploads, Upload(p, job, false, [], false, [])); }
  }

  lemma GrantOwn(file: Bytes, h: History, s: State, p: nat, job: Job)
    requires Inv(file, h, s) && Step(s, Do(p, Grant(job))).Some?
    ensures var t := Step(s, Do(p, Grant(job))).value;
            ProcAgrees(file, Note(h, Do(p, Grant(job))), t.locks, p, t.procs[p])
  {
    GrantLocks(s, p, job);
    GrantHistory(file, h, p, job);
    assert ProcAgrees(file, h, s.locks, p, s.procs[p]);
    var g := Note(h, Do(p, Grant(job)));
    if job.Uploads() { assert g.uploads[..|g.uploads| - 1] == h.uploads; }
  }

  lemma InvGrant(file: Bytes, h: History, s: State, p: nat, job: Job)
    requires Inv(file, h, s) && Step(s, Do(p, Grant(job))).Some?
    ensures Inv(file, Note(h, Do(p, Grant(job))), Step(s, Do(p, Grant(job))).value)
  {
    GrantLocks(s, p, job);
    GrantHistory(file, h, p, job);
    GrantOwn(file, h, s, p, job);
    var t, g := Step(s, Do(p, Grant(job))).value, Note(h, Do(p, Grant(job)));
    hide Step, Note, LocksAgree, Serial, WriterAgrees, ReaderAgrees, UploadsAgree;
    forall q | q in t.procs ensures ProcAgrees(file, g, t.locks, q, t.procs[q]) {
      if q != p {
        assert ProcAgrees(file, h, s.locks, q, s.procs[q]);
        OthersAgree(file, h, g, s.locks, t.locks, p, q, s.procs[q]);
      }
    }
  }

  /** fstat, lseek, sendfile and close move no file data. */
  lemma InvQuiet(file: Bytes, h: History, s: State, p: nat, a: Act)
    requires a.Stat? || a.Seek? || a.Send? || a.Close?
    requires Inv(file, h, s) && Step(s, Do(p, a)).Some?
    ensures Inv(file, Note(h, Do(p, a)), Step(s, Do(p, a)).value)
  {
    AmendIdle(h.uploads, p, a);
    var t := Step(s, Do(p, a)).value;
    assert Note(h, Do(p, a)) == h;
    QuietLocks(s, p, a);
    hide Step, LocalStep, Serial, WriterAgrees, ReaderAgrees, UploadsAgree, LocksAgree;
    forall q | q in t.procs ensures ProcAgrees(file, h, t.locks, q, t.procs[q]) {
      if q != p {
        OthersAgree(file, h, h, s.locks, t.locks, p, q, s.procs[q]);
      } else {
        QuietOwn(file, h, s, p, a);
      }
    }
  }

  lemma QuietLocks(s: State, p: nat, a: Act)
    requires a.Stat? || a.Seek? || a.Send? || a.Close?
    requires LocksAgree(s) && Step(s, Do(p, a)).Some?
    ensures var t := Step(s, Do(p, a)).value;
            && t.file == s.file && LocksAgree(t) && (Busy(t.locks) ==> Busy(s.locks))
            && t.procs.Keys == s.procs.Keys
            && forall q :: q != p ==> (q in t.locks <==> q in s.locks) && (q in s.locks ==> t.locks[q] == s.locks[q])
                                      && (q in s.procs ==> t.procs[q] == s.procs[q])
  {
    var t := Step(s, Do(p, a)).value;
    if a.Close? { assert t.locks == s.locks - {p}; } else { assert t.locks == s.locks; }
  }

  /** What a quiet step of the holder does to its own process. */
  lemma QuietState(s: State, p: nat, a: Act)
    requires a.Stat? || a.Seek? || a.Send? || a.Close?
    requires LocksAgree(s) && Step(s, Do(p, a)).Some?
    ensures p in s.procs && LocalStep(s.procs[p], s.file, a).Moved?
    ensures var t := Step(s, Do(p, a)).value;
            t.procs[p] == LocalStep(s.procs[p], s.file, a).proc
            && t.locks == (if a.Close? then s.locks - {p} else s.locks)
    ensures s.procs[p].phase.Looping? || s.procs[p].phase.Locked? ==> p in s.locks && s.locks[p] == s.procs[p].job.Uploads()
    ensures p in s.locks ==> s.procs[p].HoldsLock() && s.locks[p] == s.procs[p].job.Uploads()
  {
  }

  lemma NotBusy(s: State, p: nat)
    requires LocksAgree(s) && p in s.locks && !s.locks[p]
    ensures !Busy(s.locks) && !Busy(s.locks - {p})
  {
  }

  /** A quiet step of an upload. */
  lemma QuietWriter(file: Bytes, h: History, s: State, p: nat, a: Act)
    requires a.Stat? || a.Seek? || a.Close? || a.Send?
    requires Inv(file, h, s) && Step(s, Do(p, a)).Some? && p in s.procs && s.procs[p].job.Uploads()
    ensures var t := Step(s, Do(p, a)).value; ProcAgrees(file, h, t.locks, p, t.procs[p])
  {
    QuietState(s, p, a);
    assert ProcAgrees(file, h, s.locks, p, s.procs[p]);
    hide Step, Serial;
  }

  /** A quiet step of a download. */
  lemma QuietReader(file: Bytes, h: History, s: State, p: nat, a: Act)
    requires a.Stat? || a.Seek? || a.Close? || a.Send?
    requires Inv(file, h, s) && Step(s, Do(p, a)).Some? && p in s.procs && s.procs[p].job.Retr?
    ensures var t := Step(s, Do(p, a)).value; ProcAgrees(file, h, t.locks, p, t.procs[p])
  {
    QuietState(s, p, a);
    var pr, t := s.procs[p], Step(s, Do(p, a)).value;
    assert ProcAgrees(file, h, s.locks, p, pr) && s.file == Serial(file, h.uploads);
    if p in s.locks {
      NotBusy(s, p);
      assert h.uploads[..|h.uploads|] == h.uploads;
      if a.Send? { SendDelivers(pr, s.file, a.data); }
    }
    hide Step, Serial, Slice, LocksAgree, UploadsAgree, WriterAgrees;
  }

  lemma QuietOwn(file: Bytes, h: History, s: State, p: nat, a: Act)
    requires a.Stat? || a.Seek? || a.Send? || a.Close?
    requires Inv(file, h, s) && Step(s, Do(p, a)).Some?
    ensures var t := Step(s, Do(p, a)).value; ProcAgrees(file, h, t.locks, p, t.procs[p])
  {
    hide Inv, ProcAgrees, LocalStep;
    if s.procs[p].job.Retr? { QuietReader(file, h, s, p, a); } else { QuietWriter(file, h, s, p, a); }
  }

  /** sendfile appends to the delivered prefix exactly the next bytes of the slice. */
  lemma SendDelivers(pr: Proc, v: Bytes, data: Bytes)
    requires LocalStep(pr, v, Send(data)).Moved?
    requires pr.delivered <= Slice(v, pr.job.offset, pr.total)
    requires pr.pos == Max(pr.job.offset, 0) + |pr.delivered|
    requires |pr.delivered| + pr.left <= pr.total
    ensures pr.delivered + data <= Slice(v, pr.job.offset, pr.total)
  {
    if data == [] {
      assert pr.delivered + data == pr.delivered;
    } else {
      PrefixOfSlice(v, Max(pr.job.offset, 0), Min(|v|, Max(pr.job.offset, 0) + pr.total), pr.delivered, data);
    }
  }

  lemma PrefixOfSlice(v: Bytes, lo: nat, hi: nat, a: Bytes, b: Bytes)
    requires lo <= hi <= |v| && a <= v[lo..hi]
    requires lo + |a| + |b| <= hi && b == v[lo + |a|..lo + |a| + |b|]
    ensures a + b <= v[lo..hi]
  {
    var s := v[lo..hi];
    assert a == s[..|a|];
    assert s[|a|..|a| + |b|] == v[lo + |a|..lo + |a| + |b|];
    assert s[..|a| + |b|] == s[..|a|] + s[|a|..|a| + |b|];
  }

  /** The exclusive holder's last upload in terms of the file before it. */
  ghost predicate Uploading(base: Bytes, pr: Proc, last: Upload, file: Bytes) {
    && file == Apply(base, last) && UploadAgrees(last)
    && last.job == pr.job && last.received == last.data + pr.buffer && last.eof == pr.eof
    && last.truncated == (pr.job.Stor? && pr.job.offset == 0 && !pr.phase.Locked?)
    && (pr.phase.Looping? ==> pr.pos == Origin(base, last) + |last.data| && (pr.job.Stor? ==> pr.job.offset >= 0))
    && (!pr.phase.Looping? ==> last.data == [] && pr.buffer == [] && !pr.eof)
  }

  lemma UploadWrites(base: Bytes, pr: Proc, last: Upload, file: Bytes, data: Bytes)
    requires LocalStep(pr, file, Write(data)).Moved? && Uploading(base, pr, last, file)
    ensures Uploading(base, LocalStep(pr, file, Write(data)).proc, Touch(last, Write(data)),
                      LocalStep(pr, file, Write(data)).file)
  {
    WriteAtCompose(if last.truncated then [] else base, Origin(base, last), last.data, data);
    assert last.data + pr.buffer == (last.data + data) + pr.buffer[|data|..];
  }

  /** ftruncate, read and write of the exclusive holder, on its own upload. */
  lemma UploadOwn(base: Bytes, pr: Proc, last: Upload, file: Bytes, a: Act)
    requires a.Truncate? || a.Recv? || a.Write?
    requires LocalStep(pr, file, a).Moved? && Uploading(base, pr, last, file)
    ensures Uploading(base, LocalStep(pr, file, a).proc, Touch(last, a), LocalStep(pr, file, a).file)
  {
    if a.Write? {
      UploadWrites(base, pr, last, file, a.data);
    } else if a.Recv? {
      assert last.data + [] == last.data;
    }
  }

  lemma UploadState(file: Bytes, h: History, s: State, p: nat, a: Act)
    requires a.Truncate? || a.Recv? || a.Write?
    requires Inv(file, h, s) && Step(s, Do(p, a)).Some?
    ensures var m := LocalStep(s.procs[p], s.file, a);
            && m.Moved? && Step(s, Do(p, a)) == Some(State(m.file, s.procs[p := m.proc], s.locks))
            && m.proc.HoldsLock() && m.proc.job == s.procs[p].job && m.proc.phase.Looping? == s.procs[p].phase.Looping?
    ensures p in s.procs && s.procs[p].HoldsLock() && p in s.locks && s.locks[p] && Busy(s.locks)
    ensures WriterAgrees(file, h.uploads, p, s.procs[p])
    ensures Uploading(Serial(file, h.uploads[..|h.uploads| - 1]), s.procs[p], h.uploads[|h.uploads| - 1], s.file)
  {
    assert ProcAgrees(file, h, s.locks, p, s.procs[p]);
    var n := |h.uploads| - 1;
    assert h.uploads == h.uploads[..n] + [h.uploads[n]];
    SerialAppend(file, h.uploads[..n], h.uploads[n]);
  }

  lemma AmendLast(us: seq<Upload>, p: nat, a: Act)
    requires us != [] && us[|us| - 1].pid == p
    ensures var n := |us| - 1; Amend(us, p, a) == us[..n] + [Touch(us[n], a)] && Amend(us, p, a)[..n] == us[..n]
  {
  }

  /** A touched last upload is what ProcAgrees asks of its process. */
  lemma UploadingAgrees(file: Bytes, us: seq<Upload>, h: History, locks: map<nat, bool>, p: nat, pr: Proc, f: Bytes)
    requires us != [] && us == h.uploads && us[|us| - 1].pid == p && p in locks && locks[p]
    requires pr.HoldsLock() && !pr.phase.Statted? && pr.job.Uploads()
    requires Uploading(Serial(file, us[..|us| - 1]), pr, us[|us| - 1], f)
    requires !pr.phase.Looping? ==> pr == Started(pr.job).(phase := pr.phase, size := pr.size)
    ensures ProcAgrees(file, h, locks, p, pr)
  {
  }

  /** The record of the upload in progress after one of its steps. */
  lemma UploadRecord(file: Bytes, us: seq<Upload>, p: nat, a: Act, pr: Proc, f: Bytes)
    requires a.Truncate? || a.Recv? || a.Write?
    requires us != [] && us[|us| - 1].pid == p && UploadsAgree(us)
    requires Uploading(Serial(file, us[..|us| - 1]), pr, us[|us| - 1], f) && LocalStep(pr, f, a).Moved?
    ensures var m, next, n := LocalStep(pr, f, a), Amend(us, p, a), |us| - 1;
            && |next| == |us| && next[n].pid == p && UploadsAgree(next) && m.file == Serial(file, next)
            && Uploading(Serial(file, next[..n]), m.proc, next[n], m.file)
  {
    var n := |us| - 1;
    AmendLast(us, p, a);
    UploadOwn(Serial(file, us[..n]), pr, us[n], f, a);
    hide Amend, LocalStep, Serial;
    SerialAppend(file, us[..n], Touch(us[n], a));
  }

  /** ftruncate, read and write leave a handler in its loop, or fresh but for its phase. */
  lemma UploadFresh(file: Bytes, h: History, s: State, p: nat, a: Act)
    requires a.Truncate? || a.Recv? || a.Write?
    requires Inv(file, h, s) && Step(s, Do(p, a)).Some? && p in s.procs
    ensures var pr := LocalStep(s.procs[p], s.file, a).proc;
            && LocalStep(s.procs[p], s.file, a).Moved? && !pr.phase.Statted? && pr.job.Uploads()
            && (!pr.phase.Looping? ==> pr == Started(pr.job).(phase := pr.phase, size := pr.size))
  {
    assert ProcAgrees(file, h, s.locks, p, s.procs[p]);
    hide Serial, WriterAgrees, ReaderAgrees, UploadsAgree, LocksAgree;
  }

  lemma UploadAgreesOwn(file: Bytes, h: History, s: State, p: nat, a: Act)
    requires a.Truncate? || a.Recv? || a.Write?
    requires Inv(file, h, s) && Step(s, Do(p, a)).Some?
    ensures var t, g := Step(s, Do(p, a)).value, Note(h, Do(p, a));
            && t.file == Serial(file, g.uploads) && UploadsAgree(g.uploads)
            && ProcAgrees(file, g, t.locks, p, t.procs[p])
  {
    UploadState(file, h, s, p, a);
    UploadFresh(file, h, s, p, a);
    assert h.uploads != [] && h.uploads[|h.uploads| - 1].pid == p && UploadsAgree(h.uploads);
    var t, g := Step(s, Do(p, a)).value, Note(h, Do(p, a));
    assert g.uploads == Amend(h.uploads, p, a);
    hide Step, Note, LocalStep, Amend, Serial, WriterAgrees, ReaderAgrees, UploadsAgree, Uploading, ProcAgrees, Inv;
    UploadRecord(file, h.uploads, p, a, s.procs[p], s.file);
    UploadingAgrees(file, g.uploads, g, t.locks, p, t.procs[p], t.file);
  }

  /** The upload in progress is touched; every other process's record stays true. */
  lemma UploadOthers(file: Bytes, h: History, g: History, s: State, t: State, p: nat)
    requires Inv(file, h, s) && p in s.locks && s.locks[p] && Busy(s.locks) && h.uploads != []
    requires t.locks == s.locks && g.position == h.position && |g.uploads| == |h.uploads|
    requires g.uploads[..|h.uploads| - 1] == h.uploads[..|h.uploads| - 1]
    requires t.procs.Keys == s.procs.Keys && forall q :: q in s.procs && q != p ==> t.procs[q] == s.procs[q]
    ensures forall q :: q in t.procs && q != p ==> ProcAgrees(file, g, t.locks, q, t.procs[q])
  {
    hide Serial, WriterAgrees, ReaderAgrees, UploadsAgree;
    forall q | q in t.procs && q != p ensures ProcAgrees(file, g, t.locks, q, t.procs[q]) {
      assert ProcAgrees(file, h, s.locks, q, s.procs[q]) && q !in s.locks;
      hide ProcAgrees, Inv;
      OthersAgree(file, h, g, s.locks, t.locks, p, q, s.procs[q]);
    }
  }

  lemma UploadLocks(s: State, t: State, p: nat, pr: Proc)
    requires LocksAgree(s) && p in s.procs && p in s.locks && pr.HoldsLock() && pr.job == s.procs[p].job
    requires t.procs == s.procs[p := pr] && t.locks == s.locks
    ensures LocksAgree(t)
  {
  }

  /** The invariant from its parts after a step of the upload in progress. */
  lemma UploadInv(file: Bytes, h: History, g: History, s: State, t: State, p: nat, pr: Proc)
    requires Inv(file, h, s) && p in s.procs && p in s.locks && s.locks[p] && Busy(s.locks) && h.uploads != []
    requires t == State(t.file, s.procs[p := pr], s.locks) && pr.HoldsLock() && pr.job == s.procs[p].job
    requires g.position == h.position && |g.uploads| == |h.uploads|
    requires g.uploads[..|h.uploads| - 1] == h.uploads[..|h.uploads| - 1]
    requires t.file == Serial(file, g.uploads) && UploadsAgree(g.uploads) && ProcAgrees(file, g, t.locks, p, pr)
    ensures Inv(file, g, t)
  {
    UploadLocks(s, t, p, pr);
    hide Serial, UploadsAgree, ProcAgrees, LocksAgree;
    UploadOthers(file, h, g, s, t, p);
  }

  lemma InvUpload(file: Bytes, h: History, s: State, p: nat, a: Act)
    requires a.Truncate? || a.Recv? || a.Write?
    requires Inv(file, h, s) && Step(s, Do(p, a)).Some?
    ensures Inv(file, Note(h, Do(p, a)), Step(s, Do(p, a)).value)
  {
    UploadState(file, h, s, p, a);
    UploadAgreesOwn(file, h, s, p, a);
    assert h.uploads != [] && h.uploads[|h.uploads| - 1].pid == p;
    AmendLast(h.uploads, p, a);
    var t, g := Step(s, Do(p, a)).value, Note(h, Do(p, a));
    assert g == History(Amend(h.uploads, p, a), h.position);
    hide *;
    UploadInv(file, h, g, s, t, p, t.procs[p]);
  }

  lemma InvStep(file: Bytes, h: History, s: State, e: Event)
    requires Inv(file, h, s) && Step(s, e).Some?
    ensures Inv(file, Note(h, e), Step(s, e).value)
  {
    match e
    case Start(p, job) => InvStart(file, h, s, p, job);
    case Do(p, Grant(job)) => InvGrant(file, h, s, p, job);
    case Do(p, a) =>
      if a.Truncate? || a.Recv? || a.Write? { InvUpload(file, h, s, p, a); }
      else { InvQuiet(file, h, s, p, a); }
  }

  lemma {:induction false} Reachable(file: Bytes, es: seq<Event>)
    requires Run(file, es).Some?
    ensures Inv(file, Observe(es), Run(file, es).value)
  {
    if es != [] {
      var before := es[..|es| - 1];
      Reachable(file, before);
      InvStep(file, Observe(before), Run(file, before).value, es[|es| - 1]);
    }
  }

  // ---- main results ----

  /** Serialisability: in every interleaving the file equals the uploads run one at a time in
      lock-acquisition order, each with exactly the bytes it wrote; an upload that reached end
      of stream wrote all it received, any other a prefix of it. */
  lemma Serialisable(file: Bytes, es: seq<Event>)
    requires Run(file, es).Some?
    ensures Run(file, es).value.file == Serial(file, Observe(es).uploads)
    ensures UploadsAgree(Observe(es).uploads)
  {
    Reachable(file, es);
  }

  /** Whatever the chunk sizes, a completed upload turned the version before it into exactly:
      the data (STOR at 0), that version followed by the data (APPE), or that version overwritten
      from the offset. */
  lemma CompletedUpload(file: Bytes, es: seq<Event>, k: nat)
    requires Run(file, es).Some? && k < |Observe(es).uploads| && Observe(es).uploads[k].eof
    ensures var us := Observe(es).uploads;
            var u, before, after := us[k], Serial(file, us[..k]), Serial(file, us[..k + 1]);
            match u.job
            case Stor(offset) => if offset == 0 then after == u.received
                                 else offset > 0 && after == WriteAt(before, offset, u.received)
            case Appe(_) => after == before + u.received
            case Retr(_) => false
  {
    Reachable(file, es);
    var us := Observe(es).uploads;
    assert us[..k + 1][..k] == us[..k];
    assert UploadAgrees(us[k]);
    UploadMeaning(Serial(file, us[..k]), us[k], 0);
  }

  /** Concurrent appends end as the concatenation of their payloads in lock order. */
  lemma ConcurrentAppends(file: Bytes, es: seq<Event>)
    requires Run(file, es).Some?
    requires forall i :: 0 <= i < |Observe(es).uploads| ==> Observe(es).uploads[i].job.Appe?
    ensures Run(file, es).value.file == file + Payloads(Observe(es).uploads)
  {
    Reachable(file, es);
    AppendsConcatenate(file, Observe(es).uploads);
  }

  /** Snapshot reads: what a RETR delivered is a prefix of one slice of one version, namely the
      file after exactly the uploads granted before its own lock, however stale the fstat size.
      When the loop has run out, the slice is complete exactly when the bytes the loop counted
      without sending are the ones past the end of that version; for a size that is not stale,
      exactly when no sendfile was short. */
  lemma SnapshotRead(file: Bytes, es: seq<Event>, p: nat)
    requires Run(file, es).Some? && p in Run(file, es).value.procs && Run(file, es).value.procs[p].Served()
    ensures var pr, h := Run(file, es).value.procs[p], Observe(es);
            && p in h.position && h.position[p] <= |h.uploads|
            && var v := Serial(file, h.uploads[..h.position[p]]);
               var slice := Slice(v, pr.job.offset, Total(pr.job.offset, pr.size));
            && pr.delivered <= slice
            && (pr.left == 0 ==> (pr.delivered == slice <==> pr.lost == pr.total - |slice|))
            && (pr.left == 0 && 0 <= pr.job.offset && pr.size <= |v| ==> (pr.delivered == slice <==> pr.lost == 0))
  {
    Reachable(file, es);
    var s := Run(file, es).value;
    assert ProcAgrees(file, Observe(es), s.locks, p, s.procs[p]);
  }

  /** An upload step changes the record of the upload in progress and no earlier one. */
  lemma AmendKeepsEarlier(file: Bytes, h: History, s: State, q: nat, a: Act)
    requires a.Truncate? || a.Recv? || a.Write?
    requires Inv(file, h, s) && Step(s, Do(q, a)).Some?
    ensures Busy(s.locks) && h.uploads != [] && |Amend(h.uploads, q, a)| == |h.uploads|
    ensures Amend(h.uploads, q, a)[..|h.uploads| - 1] == h.uploads[..|h.uploads| - 1]
  {
    UploadState(file, h, s, q, a);
    AmendLast(h.uploads, q, a);
  }

  /** The process has its read lock, or has served its download under it. */
  ghost predicate Downloading(s: State, p: nat) {
    p in s.procs && (s.procs[p].HoldsLock() || s.procs[p].Served())
  }

  ghost predicate AtVersion(file: Bytes, h: History, p: nat, v: Bytes) {
    p in h.position && h.position[p] <= |h.uploads| && Serial(file, h.uploads[..h.position[p]]) == v
  }

  /** The version of `SnapshotRead` is the file as it stood when the read lock was granted:
      nothing that happens later, to this process or to others, rewrites it. */
  lemma {:induction false} VersionIsFileAtGrant(file: Bytes, before: seq<Event>, p: nat, offset: int, after: seq<Event>)
    requires Run(file, before + [Do(p, Grant(Retr(offset)))] + after).Some?
    requires Downloading(Run(file, before + [Do(p, Grant(Retr(offset)))] + after).value, p)
    requires forall i :: 0 <= i < |after| ==> !Locks(after[i], p)
    ensures Run(file, before).Some?
    ensures Run(file, before + [Do(p, Grant(Retr(offset)))] + after).value.procs[p].job.Retr?
    ensures AtVersion(file, Observe(before + [Do(p, Grant(Retr(offset)))] + after), p, Run(file, before).value.file)
  {
    var grant := Do(p, Grant(Retr(offset)));
    if after == [] {
      var es := before + [grant];
      assert es[..|es| - 1] == before && before + [grant] + after == es;
      Reachable(file, before);
      assert Observe(before).uploads[..|Observe(before).uploads|] == Observe(before).uploads;
    } else {
      var last, shorter := after[|after| - 1], after[..|after| - 1];
      var es := before + [grant] + shorter;
      assert (before + [grant] + after)[..|es|] == es && before + [grant] + after == es + [last];
      var s := Run(file, es).value;
      assert !Locks(last, p);
      ReadingBefore(s, last, p);
      VersionIsFileAtGrant(file, before, p, offset, shorter);
      Reachable(file, es);
      PrefixKept(file, Observe(es), s, last, p);
    }
  }

  lemma ReadingBefore(s: State, e: Event, p: nat)
    requires Step(s, e).Some? && Downloading(Step(s, e).value, p) && !Locks(e, p)
    ensures Downloading(s, p) && Step(s, e).value.procs[p].job == s.procs[p].job
  {
  }

  predicate Locks(e: Event, p: nat) {
    e.pid == p && (e.Start? || e.act.Grant?)
  }

  lemma PrefixKept(file: Bytes, h: History, s: State, e: Event, p: nat)
    requires Inv(file, h, s) && Step(s, e).Some? && !Locks(e, p)
    requires p in s.procs && p in h.position && h.position[p] <= |h.uploads|
    requires s.procs[p].job.Retr? && (s.procs[p].HoldsLock() || s.procs[p].Served())
    ensures p in Note(h, e).position && Note(h, e).position[p] == h.position[p] <= |Note(h, e).uploads|
    ensures Note(h, e).uploads[..h.position[p]] == h.uploads[..h.position[p]]
  {
    hide Inv, Step;
    var k := h.position[p];
    if e.Do? && (e.act.Truncate? || e.act.Recv? || e.act.Write?) {
      BusyElsewhere(file, h, s, e.pid, e.act, p);
      AmendKeepsEarlier(file, h, s, e.pid, e.act);
      var n, amended := |h.uploads| - 1, Amend(h.uploads, e.pid, e.act);
      assert amended[..k] == amended[..n][..k] == h.uploads[..n][..k];
    } else if e.Do? && !e.act.Grant? {
      AmendIdle(h.uploads, e.pid, e.act);
    }
  }

  /** While an upload is in progress a reader is one that has finished, before that upload. */
  lemma BusyElsewhere(file: Bytes, h: History, s: State, q: nat, a: Act, p: nat)
    requires Inv(file, h, s) && Step(s, Do(q, a)).Some? && (a.Truncate? || a.Recv? || a.Write?)
    requires p in s.procs && s.procs[p].job.Retr? && (s.procs[p].HoldsLock() || s.procs[p].Served())
    requires p in h.position
    ensures h.position[p] < |h.uploads|
  {
    UploadState(file, h, s, q, a);
    assert ProcAgrees(file, h, s.locks, p, s.procs[p]);
    assert p !in s.locks;
  }
}
