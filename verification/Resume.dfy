/** Interrupted transfers resumed with REST: what the client gets for trusting SIZE. */
module Resume {
  import opened Base
  import opened FileMeaning
  import opened SharedFile
  import Downloads
  import Uploads

  /** One attempt of a client that holds `doc`: STOR after REST k, k at most the current size,
      sending doc[k..] and cut anywhere. */
  ghost predicate Attempt(doc: Bytes, file: Bytes, u: Upload) {
    && u.job.Stor? && 0 <= u.job.offset <= Min(|file|, |doc|)
    && UploadAgrees(u)
    && u.data <= doc[u.job.offset..]
  }

  ghost predicate Attempts(doc: Bytes, file: Bytes, us: seq<Upload>) {
    forall i :: 0 <= i < |us| ==> Attempt(doc, Serial(file, us[..i]), us[i])
  }

  lemma PrefixGrows(doc: Bytes, file: Bytes, u: Upload)
    requires Attempt(doc, file, u) && (file <= doc || u.truncated)
    ensures Apply(file, u) <= doc
    ensures u.job.offset + |u.data| == |doc| ==> Apply(file, u) == doc
  {
    var k, m := u.job.offset, |u.data|;
    if u.truncated {
      WriteAtEnds([], u.data);
    } else if u.data != [] {
      var w := Apply(file, u);
      WriteAtPointwise(file, k, u.data, 0);
      forall i | 0 <= i < |w| ensures w[i] == doc[i] {
        WriteAtPointwise(file, k, u.data, i);
        if k <= i < k + m { assert u.data[i - k] == doc[k..][i - k]; }
      }
      assert w == doc[..|w|];
    }
  }

  /** Uploading with any number of cuts: after the first attempt that got as far as ftruncate
      every intermediate file is a prefix of the document, and an attempt that writes the rest
      of it leaves exactly the document. */
  lemma {:induction false} ResumedUpload(doc: Bytes, file: Bytes, us: seq<Upload>)
    requires Attempts(doc, file, us) && us != [] && (file <= doc || us[0].truncated)
    ensures Serial(file, us) <= doc
    ensures var last := us[|us| - 1]; last.job.offset + |last.data| == |doc| ==> Serial(file, us) == doc
  {
    var n := |us| - 1;
    if n == 0 {
      assert us[..0] == [];
      PrefixGrows(doc, file, us[0]);
    } else {
      var before := us[..n];
      forall i | 0 <= i < n ensures Attempt(doc, Serial(file, before[..i]), before[i]) {
        assert before[..i] == us[..i];
      }
      ResumedUpload(doc, file, before);
      PrefixGrows(doc, Serial(file, before), us[n]);
    }
  }

  /** Resuming over a file that is not a prefix of the document leaves the difference in place. */
  lemma ResumeOver(doc: Bytes, stale: Bytes, u: Upload)
    requires Attempt(doc, stale, u)
    requires u.job.offset == Min(|stale|, |doc|) && u.data == doc[u.job.offset..]
    requires u.job.offset == 0 ==> u.truncated
    ensures Apply(stale, u) == doc <==> doc == [] || stale <= doc
  {
    var k := u.job.offset;
    if k == 0 {
      WriteAtEnds([], u.data);
    } else if k == |stale| {
      WriteAtEnds(stale, u.data);
      assert Apply(stale, u)[..k] == stale;
      if stale <= doc { assert stale + doc[k..] == doc; }
    } else {
      assert u.data == [] && Apply(stale, u) == stale;
    }
  }

  /** The one way the client is misled: a first STOR cut after the lock but before ftruncate
      leaves the old file, whose SIZE the client then trusts. Resuming from there restores the
      document exactly when the old file already was a prefix of it (or there is nothing to send). */
  lemma ResumeAfterEarlyCut(doc: Bytes, stale: Bytes, first: Upload, second: Upload)
    requires first.job == Stor(0) && !first.truncated && Attempt(doc, stale, first)
    requires Attempt(doc, Apply(stale, first), second)
    requires second.job.offset == Min(|stale|, |doc|) && second.data == doc[second.job.offset..]
    requires second.job.offset == 0 ==> second.truncated
    ensures Apply(stale, first) == stale
    ensures Serial(stale, [first, second]) == doc <==> doc == [] || stale <= doc
  {
    var us := [first, second];
    assert us[..1] == [first] && us[..1][..0] == [];
    assert Serial(stale, us[..1]) == Apply(Serial(stale, []), first);
    ResumeOver(doc, stale, second);
  }

  /** Such a client: it has the one byte 1 to store over a file with the one byte 2. */
  lemma EarlyCutMisleads()
    ensures var doc: Bytes, stale: Bytes := [1], [2];
            var first, second := Upload(0, Stor(0), false, [], false, []), Upload(0, Stor(1), false, [], true, []);
            && Attempt(doc, stale, first) && Attempt(doc, Apply(stale, first), second) && second.data == doc[1..]
            && Serial(stale, [first, second]) != doc
  {
    var doc: Bytes, stale: Bytes := [1], [2];
    var first, second := Upload(0, Stor(0), false, [], false, []), Upload(0, Stor(1), false, [], true, []);
    assert doc[1..] == [] && stale[0] != doc[0];
    assert Attempt(doc, stale, first) && Apply(stale, first) == stale && Attempt(doc, stale, second);
    ResumeAfterEarlyCut(doc, stale, first, second);
  }

  /** One RETR resumed at the bytes already received, as `SnapshotRead` lets it answer. */
  ghost predicate Delivery(doc: Bytes, got: Bytes, delivered: Bytes) {
    delivered <= Slice(doc, |got|, Total(|got|, |doc|))
  }

  ghost predicate Deliveries(doc: Bytes, parts: seq<Bytes>) {
    forall i :: 0 <= i < |parts| ==> Delivery(doc, Joined(parts[..i]), parts[i])
  }

  function Joined(parts: seq<Bytes>): Bytes {
    if parts == [] then [] else Joined(parts[..|parts| - 1]) + parts[|parts| - 1]
  }

  lemma DeliveryGrows(doc: Bytes, got: Bytes, d: Bytes)
    requires got <= doc && Delivery(doc, got, d)
    ensures got + d <= doc
    ensures d == Slice(doc, |got|, Total(|got|, |doc|)) <==> got + d == doc
  {
    var slice := Slice(doc, |got|, Total(|got|, |doc|));
    assert slice == doc[|got|..];
    assert got + slice == doc;
    assert got + d == (got + slice)[..|got| + |d|];
  }

  /** Downloading with any number of cuts: the client always holds a prefix of the document, and
      exactly the document once an attempt delivers its whole slice. */
  lemma {:induction false} ResumedDownload(doc: Bytes, parts: seq<Bytes>)
    requires Deliveries(doc, parts)
    ensures Joined(parts) <= doc
    ensures parts != [] ==>
              var got := Joined(parts[..|parts| - 1]);
              (parts[|parts| - 1] == Slice(doc, |got|, Total(|got|, |doc|)) <==> Joined(parts) == doc)
  {
    if parts != [] {
      var n := |parts| - 1;
      var before := parts[..n];
      forall i | 0 <= i < n ensures Delivery(doc, Joined(before[..i]), before[i]) {
        assert before[..i] == parts[..i];
      }
      ResumedDownload(doc, before);
      DeliveryGrows(doc, Joined(before), parts[n]);
    }
  }

  /** The round trip: a document uploaded through any cuts and downloaded through any cuts. */
  lemma RoundTrip(doc: Bytes, file: Bytes, us: seq<Upload>, parts: seq<Bytes>)
    requires Attempts(doc, file, us) && us != [] && (file <= doc || us[0].truncated)
    requires us[|us| - 1].job.offset + |us[|us| - 1].data| == |doc|
    requires Deliveries(Serial(file, us), parts) && parts != []
    requires var got := Joined(parts[..|parts| - 1]);
             parts[|parts| - 1] == Slice(Serial(file, us), |got|, Total(|got|, |Serial(file, us)|))
    ensures Joined(parts) == doc
  {
    ResumedUpload(doc, file, us);
    ResumedDownload(doc, parts);
  }

  // ---- the attempts are what the handlers do ----

  /** A RETR after REST at the bytes already received, of a file that has stayed the document. */
  lemma DownloadIsDelivery(doc: Bytes, got: Bytes, sends: seq<Downloads.Sending>, d: Downloads.Download, sent: Bytes)
    requires d.Served? && Downloads.Downloaded(|got|, |doc|, doc, sends, d, sent)
    ensures Delivery(doc, got, sent)
    ensures !d.failed && Downloads.NeverShort(sends) ==> sent == Slice(doc, |got|, Total(|got|, |doc|))
  {
    if !d.failed && Downloads.NeverShort(sends) {
      Downloads.SentWhole(|got|, |doc|, doc, sends, d, sent);
    }
  }

  /** A STOR after REST k of a client whose connection yields no more than the document from there on. */
  lemma UploadIsAttempt(doc: Bytes, file: Bytes, k: nat, size: nat, receives: seq<Uploads.Receiving>, d: Uploads.Storage,
                        now: Bytes)
    requires d.Stored? && Uploads.Uploaded(Stor(k), size, file, receives, d, now)
    requires k <= Min(|file|, |doc|) && Uploads.Yield(receives) <= doc[k..]
    ensures Attempt(doc, file, d.upload) && now == Apply(file, d.upload)
    ensures d.flag.NoError? && Uploads.Yield(receives) == doc[k..] ==> d.upload.job.offset + |d.upload.data| == |doc|
  {
  }
}
