/** What an upload does to a file: the meaning of write(2) at an offset, of a whole upload,
    and of uploads run one after another. */
module FileMeaning {
  import opened Base

  type Bytes = seq<Byte>

  datatype Job =
    | Retr(offset: int)
    | Stor(offset: int)
    | Appe(offset: int)
  {
    predicate Uploads() { !Retr? }
  }

  function Zeros(n: nat): (z: Bytes)
    ensures |z| == n && forall i :: 0 <= i < n ==> z[i] == NUL
  {
    seq(n, i => NUL)
  }

  /** write(2) of `data` at position `at`: a gap past the old end reads as zeros. */
  function WriteAt(prior: Bytes, at: nat, data: Bytes): Bytes {
    if data == [] then prior
    else
      var padded := if at <= |prior| then prior else prior + Zeros(at - |prior|);
      padded[..at] + data + (if at + |data| <= |padded| then padded[at + |data|..] else [])
  }

  /** The value of position `i` after the write, without reference to how the write is done. */
  lemma WriteAtPointwise(prior: Bytes, at: nat, data: Bytes, i: nat)
    requires data != []
    ensures |WriteAt(prior, at, data)| == Max(|prior|, at + |data|)
    ensures i < |WriteAt(prior, at, data)| ==>
              WriteAt(prior, at, data)[i] ==
              if at <= i < at + |data| then data[i - at] else if i < |prior| then prior[i] else NUL
  {
  }

  lemma WriteAtLength(prior: Bytes, at: nat, data: Bytes)
    requires data != []
    ensures |WriteAt(prior, at, data)| == Max(|prior|, at + |data|)
  {
  }

  /** One position of the law below. */
  lemma WriteAtComposeAt(f: Bytes, at: nat, a: Bytes, b: Bytes, i: nat)
    requires a != [] && b != [] && i < Max(|f|, at + |a + b|)
    ensures |WriteAt(WriteAt(f, at, a), at + |a|, b)| == |WriteAt(f, at, a + b)| == Max(|f|, at + |a + b|)
    ensures WriteAt(WriteAt(f, at, a), at + |a|, b)[i] == WriteAt(f, at, a + b)[i]
  {
    hide WriteAt;
    var w := WriteAt(f, at, a);
    WriteAtLength(f, at, a);
    WriteAtLength(w, at + |a|, b);
    WriteAtLength(f, at, a + b);
    if i < |w| { WriteAtPointwise(f, at, a, i); }
    WriteAtPointwise(w, at + |a|, b, i);
    WriteAtPointwise(f, at, a + b, i);
  }

  /** Two writes back to back are one write of the concatenation: chunking has no meaning. */
  lemma WriteAtCompose(f: Bytes, at: nat, a: Bytes, b: Bytes)
    ensures WriteAt(WriteAt(f, at, a), at + |a|, b) == WriteAt(f, at, a + b)
  {
    if a == [] {
      assert a + b == b;
    } else if b == [] {
      assert a + b == a;
    } else {
      var n := Max(|f|, at + |a + b|);
      WriteAtComposeAt(f, at, a, b, 0);
      forall i: nat | i < n
        ensures WriteAt(WriteAt(f, at, a), at + |a|, b)[i] == WriteAt(f, at, a + b)[i]
      {
        WriteAtComposeAt(f, at, a, b, i);
      }
    }
  }

  /** One upload as an observer of the system calls sees it: who, what was asked, whether
      ftruncate ran, what was read from the data connection, whether its end was reached, and
      what was written. An aborted upload is simply one with a shorter payload. */
  datatype Upload = Upload(pid: nat, job: Job, truncated: bool, received: Bytes, eof: bool, data: Bytes)

  function Apply(prior: Bytes, u: Upload): Bytes {
    match u.job
    case Retr(_) => prior
    case Appe(_) => WriteAt(prior, |prior|, u.data)
    case Stor(offset) =>
      if u.truncated then WriteAt([], 0, u.data) else WriteAt(prior, Max(offset, 0), u.data)
  }

  /** Uploads run strictly one at a time, in list order. */
  function Serial(init: Bytes, us: seq<Upload>): Bytes {
    if us == [] then init else Apply(Serial(init, us[..|us| - 1]), us[|us| - 1])
  }

  lemma WriteAtEnds(f: Bytes, data: Bytes)
    ensures WriteAt(f, |f|, data) == f + data
    ensures WriteAt([], 0, data) == data
  {
  }

  function Payloads(us: seq<Upload>): Bytes {
    if us == [] then [] else Payloads(us[..|us| - 1]) + us[|us| - 1].data
  }

  /** Appends only ever concatenate their payloads. */
  lemma {:induction false} AppendsConcatenate(init: Bytes, us: seq<Upload>)
    requires forall i :: 0 <= i < |us| ==> us[i].job.Appe?
    ensures Serial(init, us) == init + Payloads(us)
  {
    if us == [] {
      assert init + [] == init;
    } else {
      var before, last := us[..|us| - 1], us[|us| - 1];
      AppendsConcatenate(init, before);
      calc {
        Serial(init, us);
        WriteAt(Serial(init, before), |Serial(init, before)|, last.data);
        { WriteAtEnds(Serial(init, before), last.data); }
        (init + Payloads(before)) + last.data;
        init + (Payloads(before) + last.data);
      }
    }
  }

  /** What a finished upload leaves, by kind: the whole file, the old file followed by the data,
      or the old file overwritten from the offset (zero gap, old tail kept). */
  lemma UploadMeaning(prior: Bytes, u: Upload, i: nat)
    requires u.job.Uploads()
    ensures u.job.Appe? ==> Apply(prior, u) == prior + u.data
    ensures u.job.Stor? && u.truncated ==> Apply(prior, u) == u.data
    ensures u.job.Stor? && !u.truncated && u.job.offset >= 0 && u.data != [] ==>
              |Apply(prior, u)| == Max(|prior|, u.job.offset + |u.data|) &&
              (i < |Apply(prior, u)| ==>
                 Apply(prior, u)[i] ==
                 if u.job.offset <= i < u.job.offset + |u.data| then u.data[i - u.job.offset]
                 else if i < |prior| then prior[i] else NUL)
  {
    WriteAtEnds(prior, u.data);
    if u.job.Stor? && !u.truncated && u.job.offset >= 0 && u.data != [] {
      WriteAtPointwise(prior, u.job.offset, u.data, i);
    }
  }
}
