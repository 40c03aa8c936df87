/** One transfer alone: the steps a handler takes from its lock on, as a run of the shared-file
    machine, and what such a run says about the bytes that moved. */
module Handlers {
  import opened Base
  import opened FileMeaning
  import opened SharedFile

  /** A handler's own steps, from process state `p` on a file nobody else touches. */
  function LocalRun(p: Proc, file: Bytes, acts: seq<Act>): Local {
    if acts == [] then Moved(p, file)
    else
      var l := LocalRun(p, file, acts[..|acts| - 1]);
      if l.Stuck? then Stuck else LocalStep(l.proc, l.file, acts[|acts| - 1])
  }

  lemma LocalRunAppend(p: Proc, file: Bytes, acts: seq<Act>, a: Act)
    requires LocalRun(p, file, acts).Moved?
    ensures LocalRun(p, file, acts + [a])
         == LocalStep(LocalRun(p, file, acts).proc, LocalRun(p, file, acts).file, a)
  {
    assert (acts + [a])[..|acts + [a]| - 1] == acts;
  }

  function Steps(pid: nat, acts: seq<Act>): seq<Event> {
    seq(|acts|, i requires 0 <= i < |acts| => Do(pid, acts[i]))
  }

  function Continue(s: State, es: seq<Event>): Option<State> {
    if es == [] then Some(s)
    else
      var t := Continue(s, es[..|es| - 1]);
      if t.None? then None else Step(t.value, es[|es| - 1])
  }

  /** The handler's own run, from a lock that can be granted, is a run of the concurrent machine:
      so the results about all interleavings are about these handlers. */
  lemma {:induction false} HandlerInMachine(s: State, pid: nat, acts: seq<Act>)
    requires pid in s.procs && LocalRun(s.procs[pid], s.file, acts).Moved?
    requires forall i :: 0 <= i < |acts| && acts[i].Grant? ==>
               i == 0 && if acts[i].job.Retr? then forall q :: q in s.locks ==> !s.locks[q] else s.locks == map[]
    ensures var l, t := LocalRun(s.procs[pid], s.file, acts), Continue(s, Steps(pid, acts));
            t.Some? && t.value.file == l.file && t.value.procs == s.procs[pid := l.proc]
  {
    if acts == [] {
      assert s.procs == s.procs[pid := s.procs[pid]];
    } else {
      var n := |acts| - 1;
      HandlerInMachine(s, pid, acts[..n]);
      assert Steps(pid, acts)[..n] == Steps(pid, acts[..n]);
      assert Steps(pid, acts)[n] == Do(pid, acts[n]);
      if n == 0 { assert Continue(s, Steps(pid, acts[..n])) == Some(s); }
    }
  }

  /** The process as it stands when the lock is granted. */
  function AtLock(job: Job, size: nat): Proc {
    Started(job).(phase := Statted, size := size)
  }

  lemma {:induction false} RunContinues(file: Bytes, es: seq<Event>, more: seq<Event>)
    requires Run(file, es).Some?
    ensures Run(file, es + more) == Continue(Run(file, es).value, more)
  {
    hide Step;
    if more == [] {
      assert es + more == es;
    } else {
      var n := |more| - 1;
      RunContinues(file, es, more[..n]);
      assert (es + more)[..|es + more| - 1] == es + more[..n];
    }
  }

  /** After any run a process that is not at work can be given any job, and go through all of it while the locks
      are free: every handler's run is among those that the results about interleavings are about. */
  lemma {:induction false} HandlerServed(file: Bytes, es: seq<Event>, pid: nat, job: Job, acts: seq<Act>)
    requires Run(file, es).Some?
    requires var s := Run(file, es).value;
             && (pid in s.procs ==> s.procs[pid].phase.Closed?)
             && LocalRun(AtLock(job, |s.file|), s.file, acts).Moved?
             && forall i :: 0 <= i < |acts| && acts[i].Grant? ==>
                  i == 0 && if acts[i].job.Retr? then forall q :: q in s.locks ==> !s.locks[q] else s.locks == map[]
    ensures var s, t := Run(file, es).value, Run(file, es + [Start(pid, job), Do(pid, Stat)] + Steps(pid, acts));
            var l := LocalRun(AtLock(job, |s.file|), s.file, acts);
            t.Some? && t.value.file == l.file && t.value.procs == s.procs[pid := l.proc]
  {
    var s, begin := Run(file, es).value, [Start(pid, job), Do(pid, Stat)];
    RunContinues(file, es, begin);
    assert begin[..1] == [Start(pid, job)] && begin[..1][..0] == [];
    assert Continue(s, []) == Some(s);
    assert Continue(s, begin[..1]) == Step(s, Start(pid, job));
    assert Continue(s, begin) == Step(Continue(s, begin[..1]).value, Do(pid, Stat));
    RunContinues(file, es + begin, Steps(pid, acts));
    HandlerInMachine(Run(file, es + begin).value, pid, acts);
    hide Run, Continue, LocalRun;
  }

  // ---- a handler among others ----

  /** What process `p` did in a stretch of a run. */
  function OwnActs(p: nat, es: seq<Event>): seq<Act> {
    if es == [] then []
    else
      var e := es[|es| - 1];
      OwnActs(p, es[..|es| - 1]) + (if e.Do? && e.pid == p then [e.act] else [])
  }

  /** While a process holds a lock nobody else changes the file. */
  lemma FileKept(s: State, e: Event, p: nat)
    requires LocksAgree(s) && Step(s, e).Some? && p in s.procs && s.procs[p].HoldsLock() && e.pid != p
    ensures Step(s, e).value.file == s.file && p in Step(s, e).value.procs && Step(s, e).value.procs[p] == s.procs[p]
  {
    assert p in s.locks;
  }

  lemma OwnStep(s: State, p: nat, a: Act)
    requires Step(s, Do(p, a)).Some?
    ensures var m, t := LocalStep(s.procs[p], s.file, a), Step(s, Do(p, a)).value;
            p in s.procs && m.Moved? && p in t.procs && t.procs[p] == m.proc && t.file == m.file
  {
    hide LocalStep;
  }

  /** A handler that no longer holds a lock takes no step that could be its own. */
  lemma ClosedStays(pr: Proc, file: Bytes, a: Act)
    requires pr.phase.Closed?
    ensures LocalStep(pr, file, a).Stuck?
  {
  }

  lemma OthersStep(s: State, e: Event, p: nat)
    requires Step(s, e).Some? && p in s.procs && e.pid != p
    ensures p in Step(s, e).value.procs && Step(s, e).value.procs[p] == s.procs[p]
  {
    hide LocalStep;
  }

  /** The handler's view `l` of its own run agrees with the state of the whole run. */
  ghost predicate Seen(l: Local, s: State, p: nat) {
    && l.Moved? && p in s.procs && l.proc == s.procs[p]
    && (s.procs[p].HoldsLock() ==> l.file == s.file)
    && (s.procs[p].HoldsLock() || s.procs[p].phase.Closed?)
  }

  lemma SeenOwn(s: State, p: nat, a: Act, l: Local)
    requires Seen(l, s, p) && Step(s, Do(p, a)).Some? && !a.Grant?
    ensures Seen(LocalStep(l.proc, l.file, a), Step(s, Do(p, a)).value, p)
  {
    OwnStep(s, p, a);
    if s.procs[p].phase.Closed? { ClosedStays(s.procs[p], s.file, a); }
    hide Step;
  }

  lemma SeenOther(s: State, e: Event, p: nat, l: Local)
    requires LocksAgree(s) && Seen(l, s, p) && Step(s, e).Some? && e.pid != p
    ensures Seen(l, Step(s, e).value, p)
  {
    if s.procs[p].HoldsLock() { FileKept(s, e, p); } else { OthersStep(s, e, p); }
    hide Step;
  }

  lemma SeenStep(file: Bytes, es: seq<Event>, e: Event, p: nat, start: Proc, v: Bytes, acts: seq<Act>)
    requires Run(file, es).Some? && Step(Run(file, es).value, e).Some? && !Locks(e, p)
    requires Seen(LocalRun(start, v, acts), Run(file, es).value, p)
    ensures Seen(LocalRun(start, v, acts + OwnActs(p, [e])), Step(Run(file, es).value, e).value, p)
  {
    Reachable(file, es);
    var s, l := Run(file, es).value, LocalRun(start, v, acts);
    assert LocksAgree(s) && OwnActs(p, [e][..0]) == [];
    hide Inv, Seen, Run, Step;
    if e.pid == p {
      assert OwnActs(p, [e]) == [e.act];
      LocalRunAppend(start, v, acts, e.act) by { SeenMoved(l, s, p); }
      SeenOwn(s, p, e.act, l);
    } else {
      SeenOther(s, e, p, l);
      assert acts + OwnActs(p, [e]) == acts;
    }
  }

  lemma SeenMoved(l: Local, s: State, p: nat)
    requires Seen(l, s, p)
    ensures l.Moved?
  {
  }

  lemma {:induction false} OwnActsLast(p: nat, es: seq<Event>, acts: seq<Act>)
    requires es != []
    ensures acts + OwnActs(p, es) == acts + OwnActs(p, es[..|es| - 1]) + OwnActs(p, [es[|es| - 1]])
  {
    var e := es[|es| - 1];
    assert OwnActs(p, [e][..0]) == [];
    assert OwnActs(p, [e]) == if e.Do? && e.pid == p then [e.act] else [];
  }

  /** In every run, whatever the others do in between, what a process has done since its lock was
      granted is a run of its own from the file at the grant. */
  lemma {:induction false} Projected(file: Bytes, before: seq<Event>, p: nat, job: Job, after: seq<Event>)
    requires Run(file, before + [Do(p, Grant(job))] + after).Some?
    requires forall i :: 0 <= i < |after| ==> !Locks(after[i], p)
    ensures Run(file, before).Some? && p in Run(file, before).value.procs
    ensures var s0, s := Run(file, before).value, Run(file, before + [Do(p, Grant(job))] + after).value;
            Seen(LocalRun(AtLock(job, s0.procs[p].size), s0.file, [Grant(job)] + OwnActs(p, after)), s, p)
    decreases |after|
  {
    hide Step, Seen, LocalRun;
    var grant := Do(p, Grant(job));
    var es := before + [grant] + after;
    if after == [] {
      assert es[..|es| - 1] == before && es[|es| - 1] == grant;
      GrantedView(file, before, p, job);
      assert [Grant(job)] + OwnActs(p, after) == [Grant(job)];
    } else {
      var n := |after| - 1;
      var earlier := before + [grant] + after[..n];
      assert es[..|es| - 1] == earlier && es[|es| - 1] == after[n] && !Locks(after[n], p);
      assert Run(file, earlier).Some? && Run(file, es) == Step(Run(file, earlier).value, after[n]);
      hide Run;
      Projected(file, before, p, job, after[..n]);
      OwnActsLast(p, after, [Grant(job)]);
      var s0 := Run(file, before).value;
      SeenStep(file, earlier, after[n], p, AtLock(job, s0.procs[p].size), s0.file, [Grant(job)] + OwnActs(p, after[..n]));
    }
  }

  lemma GrantedView(file: Bytes, before: seq<Event>, p: nat, job: Job)
    requires Run(file, before).Some? && Step(Run(file, before).value, Do(p, Grant(job))).Some?
    ensures var s := Run(file, before).value;
            p in s.procs && Seen(LocalRun(AtLock(job, s.procs[p].size), s.file, [Grant(job)]),
                                 Step(s, Do(p, Grant(job))).value, p)
  {
    var s := Run(file, before).value;
    Reachable(file, before);
    GrantLocks(s, p, job);
    assert ProcAgrees(file, Observe(before), s.locks, p, s.procs[p]);
    assert s.procs[p] == AtLock(job, s.procs[p].size);
    LocalRunAppend(AtLock(job, s.procs[p].size), s.file, [], Grant(job));
    assert [] + [Grant(job)] == [Grant(job)];
    hide Step, Run, Observe;
  }

  // ---- downloads ----

  /** A RETR in its loop, over version `v`. */
  ghost predicate Sent(job: Job, size: nat, v: Bytes, trace: seq<Act>, p: Proc) {
    && LocalRun(AtLock(job, size), v, trace) == Moved(p, v)
    && p.job == job && job.Retr? && p.total == Total(job.offset, size)
    && p.phase.Looping?
    && p.delivered <= Slice(v, job.offset, p.total)
    && p.pos == Max(job.offset, 0) + |p.delivered|
    && |p.delivered| + p.lost + p.left == p.total
  }

  lemma SendBegins(job: Job, size: nat, v: Bytes)
    requires job.Retr?
    ensures var p := AtLock(job, size).(phase := Looping, pos := Max(job.offset, 0),
                       total := Total(job.offset, size), left := Total(job.offset, size));
            Sent(job, size, v, [Grant(job), Seek], p)
  {
    LocalRunAppend(AtLock(job, size), v, [], Grant(job));
    LocalRunAppend(AtLock(job, size), v, [Grant(job)], Seek);
    assert [] + [Grant(job)] == [Grant(job)] && [Grant(job)] + [Seek] == [Grant(job), Seek];
  }

  function AfterSend(p: Proc, data: Bytes): Proc
    requires |data| <= Min(p.left, CHUNK)
  {
    var want := Min(p.left, CHUNK);
    p.(delivered := p.delivered + data, pos := p.pos + |data|, left := p.left - want, lost := p.lost + want - |data|)
  }

  /** sendfile took some of the next bytes of the file, possibly none. */
  lemma SendContinues(job: Job, size: nat, v: Bytes, trace: seq<Act>, p: Proc, data: Bytes)
    requires Sent(job, size, v, trace, p) && p.left > 0 && |data| <= Min(p.left, CHUNK)
    requires data == [] || (p.pos + |data| <= |v| && data == v[p.pos..p.pos + |data|])
    ensures var q := AfterSend(p, data);
            && Sent(job, size, v, trace + [Send(data)], q)
            && q.left == p.left - Min(p.left, CHUNK) && q.pos == p.pos + |data| && q.delivered == p.delivered + data
  {
    LocalRunAppend(AtLock(job, size), v, trace, Send(data));
    assert LocalStep(p, v, Send(data)) == Moved(AfterSend(p, data), v);
    hide LocalRun;
    SendDelivers(p, v, data);
  }

  /** What the sendfile calls of a trace took, in order. */
  function Sends(acts: seq<Act>): seq<Bytes> {
    if acts == [] then []
    else Sends(acts[..|acts| - 1]) + (if acts[|acts| - 1].Send? then [acts[|acts| - 1].data] else [])
  }

  /** What sendfile number `i` of a loop over `count` bytes is asked to take. */
  function Wants(count: nat, i: nat): nat {
    Min(Max(count - i * CHUNK, 0), CHUNK)
  }

  predicate AllTaken(count: nat, sent: seq<Bytes>) {
    forall i :: 0 <= i < |sent| ==> |sent[i]| == Wants(count, i)
  }

  /** A RETR after some steps: what is left and lost follows from what its sendfile calls took. */
  ghost predicate Progress(job: Job, size: nat, v: Bytes, sent: seq<Bytes>, p: Proc) {
    var total := Total(job.offset, size);
    && p.job == job && !p.phase.Opened?
    && (!p.Served() ==> sent == [] && p == AtLock(job, size).(phase := p.phase))
    && (p.Served() ==>
          && p.total == total && p.left == Max(total - |sent| * CHUNK, 0)
          && |p.delivered| + p.lost + p.left == total
          && (p.lost == 0 <==> AllTaken(total, sent))
          && p.delivered <= Slice(v, job.offset, total) && p.pos == Max(job.offset, 0) + |p.delivered|)
  }

  lemma TakenAppend(count: nat, sent: seq<Bytes>, d: Bytes)
    ensures AllTaken(count, sent + [d]) <==> AllTaken(count, sent) && |d| == Wants(count, |sent|)
  {
    hide Wants;
    assert (sent + [d])[|sent|] == d && forall i :: 0 <= i < |sent| ==> (sent + [d])[i] == sent[i];
  }

  lemma ProgressStep(job: Job, size: nat, v: Bytes, sent: seq<Bytes>, p: Proc, a: Act)
    requires job.Retr? && Progress(job, size, v, sent, p) && LocalStep(p, v, a).Moved?
    ensures LocalStep(p, v, a).file == v
    ensures Progress(job, size, v, if a.Send? then sent + [a.data] else sent, LocalStep(p, v, a).proc)
  {
    if a.Send? {
      TakenAppend(p.total, sent, a.data);
      SendDelivers(p, v, a.data);
      hide AllTaken, Slice;
    } else {
      assert AllTaken(Total(job.offset, size), []);
      hide AllTaken;
    }
  }

  lemma {:induction false} ProgressHolds(job: Job, size: nat, v: Bytes, acts: seq<Act>)
    requires job.Retr? && LocalRun(AtLock(job, size), v, acts).Moved?
    ensures LocalRun(AtLock(job, size), v, acts).file == v
    ensures Progress(job, size, v, Sends(acts), LocalRun(AtLock(job, size), v, acts).proc)
  {
    hide Progress, LocalStep;
    if acts == [] {
      ProgressBegins(job, size, v);
    } else {
      var n := |acts| - 1;
      ProgressHolds(job, size, v, acts[..n]);
      ProgressStep(job, size, v, Sends(acts[..n]), LocalRun(AtLock(job, size), v, acts[..n]).proc, acts[n]);
      assert Sends(acts) == if acts[n].Send? then Sends(acts[..n]) + [acts[n].data] else Sends(acts[..n]) by {
        assert Sends(acts[..n]) + [] == Sends(acts[..n]);
      }
    }
  }

  lemma ProgressBegins(job: Job, size: nat, v: Bytes)
    ensures Progress(job, size, v, [], AtLock(job, size))
  {
  }

  /** A finished download of a size that is not stale delivered its whole slice if and only if every
      sendfile took all it was asked. */
  lemma DeliveredIffTaken(offset: nat, size: nat, v: Bytes, acts: seq<Act>)
    requires var l := LocalRun(AtLock(Retr(offset), size), v, acts);
             l.Moved? && l.proc.Served() && l.proc.left == 0
    requires size <= |v|
    ensures var p := LocalRun(AtLock(Retr(offset), size), v, acts).proc;
            p.delivered == Slice(v, offset, Total(offset, size)) <==> AllTaken(Total(offset, size), Sends(acts))
  {
    ProgressHolds(Retr(offset), size, v, acts);
    hide LocalRun, AllTaken, Sends;
  }

  /** It delivered the file from the offset on if and only if, besides, the file had not grown since
      its size was taken; or there was nothing to deliver. */
  lemma DeliveredToTheEnd(offset: nat, size: nat, v: Bytes, acts: seq<Act>)
    requires var l := LocalRun(AtLock(Retr(offset), size), v, acts);
             l.Moved? && l.proc.Served() && l.proc.left == 0
    requires offset <= size <= |v|
    ensures var p := LocalRun(AtLock(Retr(offset), size), v, acts).proc;
            p.delivered == v[offset..]
            <==> offset == |v| || (size == |v| && AllTaken(Total(offset, size), Sends(acts)))
  {
    ProgressHolds(Retr(offset), size, v, acts);
    DeliveredIffTaken(offset, size, v, acts);
    assert Slice(v, offset, Total(offset, size)) == v[offset..size];
    hide LocalRun, AllTaken, Sends;
  }

  /** The same of a RETR among others: over the file at its grant, by its own sendfile calls. */
  lemma SnapshotComplete(file: Bytes, before: seq<Event>, p: nat, offset: nat, after: seq<Event>)
    requires Run(file, before + [Do(p, Grant(Retr(offset)))] + after).Some?
    requires forall i :: 0 <= i < |after| ==> !Locks(after[i], p)
    ensures Run(file, before).Some? && p in Run(file, before).value.procs
    ensures var v, size := Run(file, before).value.file, Run(file, before).value.procs[p].size;
            var procs := Run(file, before + [Do(p, Grant(Retr(offset)))] + after).value.procs;
            && p in procs
            && (procs[p].Served() && procs[p].left == 0 && size <= |v| ==>
                  (procs[p].delivered == Slice(v, offset, Total(offset, size))
                   <==> AllTaken(Total(offset, size), Sends(OwnActs(p, after)))))
  {
    hide Run, LocalRun, Slice, AllTaken;
    Projected(file, before, p, Retr(offset), after);
    var v, size := Run(file, before).value.file, Run(file, before).value.procs[p].size;
    var acts := [Grant(Retr(offset))] + OwnActs(p, after);
    var s := Run(file, before + [Do(p, Grant(Retr(offset)))] + after).value;
    SendsAfter(Retr(offset), OwnActs(p, after));
    if s.procs[p].Served() && s.procs[p].left == 0 && size <= |v| {
      DeliveredIffTaken(offset, size, v, acts);
    }
  }

  lemma {:induction false} SendsAfter(job: Job, acts: seq<Act>)
    ensures Sends([Grant(job)] + acts) == Sends(acts)
  {
    if acts == [] {
      assert [Grant(job)] + acts == [Grant(job)] && Sends([]) + [] == [];
    } else {
      assert ([Grant(job)] + acts)[..|acts|] == [Grant(job)] + acts[..|acts| - 1];
      SendsAfter(job, acts[..|acts| - 1]);
    }
  }

  /** A single sendfile that takes nothing still runs the loop out: 226 with an empty delivery. */
  lemma ShortSendIsLost(v: Bytes)
    requires 0 < |v| <= CHUNK
    ensures var l := LocalRun(AtLock(Retr(0), |v|), v, [Grant(Retr(0)), Seek, Send([])]);
            l.Moved? && l.proc.left == 0 && l.proc.delivered == [] && Slice(v, 0, l.proc.total) == v
  {
    var job := Retr(0);
    SendBegins(job, |v|, v);
    var p := AtLock(job, |v|).(phase := Looping, total := |v|, left := |v|);
    SendContinues(job, |v|, v, [Grant(job), Seek], p, []);
    assert [Grant(job), Seek] + [Send([])] == [Grant(job), Seek, Send([])];
  }

  // ---- uploads ----

  /** An upload in its loop, over version `v`; `u` is what it has done to it. */
  ghost predicate Storing(job: Job, size: nat, v: Bytes, trace: seq<Act>, p: Proc, u: Upload, file: Bytes) {
    && LocalRun(AtLock(job, size), v, trace) == Moved(p, file)
    && p.job == job && p.phase.Looping? && job.Uploads()
    && Uploading(v, p, u, file)
  }

  /** The steps before the loop. */
  function Opening(job: Job): seq<Act> {
    if job == Stor(0) then [Grant(job), Truncate, Seek] else [Grant(job), Seek]
  }

  function Positioned(job: Job, size: nat, v: Bytes): Proc {
    AtLock(job, size).(phase := Looping, pos := if job.Stor? then Max(job.offset, 0) else |v|)
  }

  function Blank(job: Job): Upload {
    Upload(0, job, job == Stor(0), [], false, [])
  }

  lemma StoreBegins(job: Job, size: nat, v: Bytes)
    requires job.Uploads() && (job.Stor? ==> job.offset >= 0)
    ensures Storing(job, size, v, Opening(job), Positioned(job, size, v), Blank(job), if job == Stor(0) then [] else v)
  {
    var a := AtLock(job, size);
    var file := if job == Stor(0) then [] else v;
    LocalRunAppend(a, v, [], Grant(job));
    assert [] + [Grant(job)] == [Grant(job)] && [Grant(job)] + [Seek] == [Grant(job), Seek];
    if job == Stor(0) {
      LocalRunAppend(a, v, [Grant(job)], Truncate);
      LocalRunAppend(a, v, [Grant(job)] + [Truncate], Seek);
      assert [Grant(job)] + [Truncate] + [Seek] == Opening(job);
    } else {
      LocalRunAppend(a, v, [Grant(job)], Seek);
    }
    hide LocalRun;
    assert Apply(v, Blank(job)) == file;
  }

  /** read(2) has returned `data`; nothing at end of stream. */
  lemma StoreReceives(job: Job, size: nat, v: Bytes, trace: seq<Act>, p: Proc, u: Upload, file: Bytes, data: Bytes)
    requires Storing(job, size, v, trace, p, u, file) && p.buffer == [] && !p.eof && |data| <= CHUNK
    ensures Storing(job, size, v, trace + [Recv(data)], p.(buffer := data, eof := data == []),
                    Touch(u, Recv(data)), file)
  {
    LocalRunAppend(AtLock(job, size), v, trace, Recv(data));
    hide LocalRun;
    UploadOwn(v, p, u, file, Recv(data));
  }

  /** write(2) has taken the first `n` bytes of the buffer. */
  lemma StoreWrites(job: Job, size: nat, v: Bytes, trace: seq<Act>, p: Proc, u: Upload, file: Bytes, n: nat)
    requires Storing(job, size, v, trace, p, u, file) && n <= |p.buffer|
    ensures var data := p.buffer[..n];
            Storing(job, size, v, trace + [Write(data)], p.(buffer := p.buffer[n..], pos := p.pos + n),
                    Touch(u, Write(data)), WriteAt(file, p.pos, data))
  {
    LocalRunAppend(AtLock(job, size), v, trace, Write(p.buffer[..n]));
    hide LocalRun;
    UploadOwn(v, p, u, file, Write(p.buffer[..n]));
  }

  /** read(2) has returned nothing: the end of the client's data. */
  lemma StoreEnds(job: Job, size: nat, v: Bytes, trace: seq<Act>, p: Proc, u: Upload, file: Bytes)
    returns (q: Proc, w: Upload)
    requires Storing(job, size, v, trace, p, u, file) && p.buffer == [] && !p.eof
    ensures Storing(job, size, v, trace + [Recv([])], q, w, file) && w.eof && w.received == u.received && q.buffer == []
  {
    StoreReceives(job, size, v, trace, p, u, file, []);
    q, w := p.(buffer := [], eof := true), Touch(u, Recv([]));
    assert u.received + [] == u.received;
  }
}
