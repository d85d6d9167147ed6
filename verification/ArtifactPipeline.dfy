/**
 Workspace files on their way from the sandboxed child to the worker.

 The child writes records [4 nameLen][name][4 dataLen][data] to a socket pair; the agent's
 `ArtifactReader` parses them incrementally; `SendArtifacts` re-frames each one as an ARTIFACT
 relay frame whose data length is implied; the worker's `DecodeArtifactFrame` takes it apart.
*/
module ArtifactPipeline {
  import opened Bytes
  import opened Seqs
  import opened Incremental
  import opened RelayCodec

  /** A record on the child's socket, its name still as octets. */
  datatype Record = Record(name: Payload, data: Payload)

  function EncodeRecord(r: Record): seq<byte>
  {
    PutU32(|r.name|) + r.name + PutU32(|r.data|) + r.data
  }

  /** Four octets of length and the name, four octets of length and the data. */
  lemma RecordLayout(r: Record)
    ensures var e, head := EncodeRecord(r), 4 + |r.name| + 4;
            && |e| == head + |r.data|
            && GetU32(e[..4]) == |r.name| && e[4..4 + |r.name|] == r.name
            && GetU32(e[4 + |r.name|..head]) == |r.data| && e[head..] == r.data
  {
    var e, head := EncodeRecord(r), 4 + |r.name| + 4;
    var pre := PutU32(|r.name|) + r.name + PutU32(|r.data|);
    assert e == pre + r.data && |pre| == head;
    GetPutU32(|r.name|, []);
    GetPutU32(|r.data|, []);
    assert e[..4] == PutU32(|r.name|) + [];
    assert e[4 + |r.name|..head] == PutU32(|r.data|) + [];
  }

  function ScanRecord(buf: seq<byte>): Step<Record>
  {
    if |buf| < 4 then More
    else
      var nameLen := GetU32(buf[..4]);
      var head := 4 + nameLen + 4;
      if |buf| < head then More
      else
        var dataLen := GetU32(buf[4 + nameLen..head]);
        if |buf| < head + dataLen then More
        else Item(Record(buf[4..4 + nameLen], buf[head..head + dataLen]), head + dataLen)
  }

  lemma ScanRecordStable(b: seq<byte>, more: seq<byte>)
    ensures Stable(ScanRecord, b, more)
  {
    if ScanRecord(b).Item? {
      var w := b + more;
      assert w[..4] == b[..4];
      var nameLen := GetU32(b[..4]);
      var head := 4 + nameLen + 4;
      assert w[4 + nameLen..head] == b[4 + nameLen..head];
      var dataLen := GetU32(b[4 + nameLen..head]);
      assert w[4..4 + nameLen] == b[4..4 + nameLen];
      assert w[head..head + dataLen] == b[head..head + dataLen];
    }
  }

  lemma RecordReadsBack(r: Record)
    ensures ReadsBack(ScanRecord, EncodeRecord, r)
  {
    var e := EncodeRecord(r);
    RecordLayout(r);
    assert e[..|e|] == e && e[4 + |r.name| + 4..|e|] == r.data;
  }

  lemma RecordSpells(b: seq<byte>)
    ensures Spells(ScanRecord, EncodeRecord, b)
  {
    if ScanRecord(b).Item? {
      var nameLen := GetU32(b[..4]);
      var head := 4 + nameLen + 4;
      PutGetU32(b[..4]);
      PutGetU32(b[4 + nameLen..head]);
      var n := ScanRecord(b).size;
      assert b[..n] == b[..4] + b[4..4 + nameLen] + b[4 + nameLen..head] + b[head..n];
    }
  }

  lemma RecordLaws()
    ensures Streamable(ScanRecord) && Inverts(ScanRecord, EncodeRecord)
  {
    forall b ensures Progresses(ScanRecord, b) {}
    forall b, more ensures Stable(ScanRecord, b, more) { ScanRecordStable(b, more); }
    forall r: Record ensures ReadsBack(ScanRecord, EncodeRecord, r) { RecordReadsBack(r); }
    forall b ensures Spells(ScanRecord, EncodeRecord, b) { RecordSpells(b); }
  }

  // ---------------------------------------------------------------- the agent

  class ArtifactReader {
    var buf: seq<byte>

    constructor ()
      ensures buf == []
    {
      buf := [];
    }

    method Feed(data: seq<byte>)
      modifies this
      ensures buf == old(buf) + data
    {
      buf := buf + data;
    }

    method IterRecords() returns (out: seq<Record>)
      requires Streamable(ScanRecord)
      modifies this
      ensures out == Items(ScanRecord, old(buf))
      ensures buf == Rest(ScanRecord, old(buf))
    {
      out := [];
      while true
        invariant out + Items(ScanRecord, buf) == Items(ScanRecord, old(buf))
        invariant Rest(ScanRecord, buf) == Rest(ScanRecord, old(buf))
        decreases |buf|
      {
        var next := FirstRecord();
        if next.More? {
          return;
        }
        assert Progresses(ScanRecord, buf);
        Assoc(out, [next.value], Items(ScanRecord, buf[next.size..]));
        buf := buf[next.size..];
        out := out + [next.value];
      }
    }

    /** The record at the front of the buffer, if it is complete. */
    method FirstRecord() returns (next: Step<Record>)
      ensures next == ScanRecord(buf)
    {
      if |buf| < 4 {
        return More;
      }
      var nameLen := GetU32(buf[..4]);
      var head := 4 + nameLen + 4;
      if |buf| < head {
        return More;
      }
      var name: Payload := buf[4..4 + nameLen];
      var dataLen := GetU32(buf[4 + nameLen..head]);
      var total := head + dataLen;
      if |buf| < total {
        return More;
      }
      var data: Payload := buf[head..total];
      next := Item(Record(name, data), total);
    }

    /** The relay loop's side: accumulate the records of every chunk the artifact socket delivers. */
    method Receive(chunks: seq<seq<byte>>) returns (out: seq<Record>)
      requires Streamable(ScanRecord)
      modifies this
      ensures out == FeedItems(ScanRecord, old(buf), chunks)
      ensures buf == FeedRest(ScanRecord, old(buf), chunks)
    {
      out := [];
      var i := 0;
      while i < |chunks|
        invariant 0 <= i <= |chunks|
        invariant out + FeedItems(ScanRecord, buf, chunks[i..]) == FeedItems(ScanRecord, old(buf), chunks)
        invariant FeedRest(ScanRecord, buf, chunks[i..]) == FeedRest(ScanRecord, old(buf), chunks)
      {
        FeedOne(ScanRecord, buf, chunks, i);
        Feed(chunks[i]);
        var records := IterRecords();
        Assoc(out, records, FeedItems(ScanRecord, buf, chunks[i + 1..]));
        out := out + records;
        i := i + 1;
      }
    }
  }

  /** The frame of this record would exceed the relay's payload cap. */
  predicate OverCap(r: Record)
  {
    4 + |r.name| + |r.data| > MAX_FRAME_PAYLOAD
  }

  function ArtifactFrame(r: Record): Frame
    requires !OverCap(r)
  {
    Frame(ARTIFACT, PutU32(|r.name|) + r.name + r.data)
  }

  function WithinCap(records: seq<Record>): (kept: seq<Record>)
    ensures forall r <- kept :: r in records && !OverCap(r)
  {
    if records == [] then []
    else if OverCap(records[0]) then WithinCap(records[1..])
    else [records[0]] + WithinCap(records[1..])
  }

  function ArtifactFrames(records: seq<Record>): (frames: seq<Frame>)
    requires forall r <- records :: !OverCap(r)
  {
    if records == [] then [] else [ArtifactFrame(records[0])] + ArtifactFrames(records[1..])
  }

  lemma {:induction false} ArtifactFramesAppend(a: seq<Record>, r: Record)
    requires forall x <- a + [r] :: !OverCap(x)
    ensures forall x <- a :: !OverCap(x)
    ensures ArtifactFrames(a + [r]) == ArtifactFrames(a) + [ArtifactFrame(r)]
  {
    forall x | x in a ensures !OverCap(x) { assert x in a + [r]; }
    if a == [] {
      assert a + [r] == [r];
    } else {
      assert (a + [r])[1..] == a[1..] + [r];
      ArtifactFramesAppend(a[1..], r);
    }
  }

  /** Record by record, in order: kept exactly if the payload of its frame fits. */
  lemma {:induction false} WithinCapAppend(a: seq<Record>, r: Record)
    ensures WithinCap(a + [r]) ==
            if 4 + |r.name| + |r.data| > MAX_FRAME_PAYLOAD then WithinCap(a) else WithinCap(a) + [r]
  {
    if a == [] {
      assert a + [r] == [r];
    } else {
      assert (a + [r])[1..] == a[1..] + [r];
      WithinCapAppend(a[1..], r);
    }
  }

  /** What has been sent, and whether anything was dropped, after these records. */
  ghost predicate SentSoFar(records: seq<Record>, frames: seq<Frame>, truncated: bool)
  {
    && frames == ArtifactFrames(WithinCap(records))
    && (truncated <==> exists r :: r in records && OverCap(r))
  }

  lemma OneMoreSent(records: seq<Record>, r: Record, frames: seq<Frame>, truncated: bool)
    requires SentSoFar(records, frames, truncated)
    ensures OverCap(r) ==> SentSoFar(records + [r], frames, true)
    ensures !OverCap(r) ==> SentSoFar(records + [r], frames + [ArtifactFrame(r)], truncated)
  {
    WithinCapAppend(records, r);
    assert forall x :: x in records + [r] <==> x in records || x == r;
    if !OverCap(r) {
      ArtifactFramesAppend(WithinCap(records), r);
    }
  }

  /** One record as a frame, unless the relay would reject it. */
  method Reframe(r: Record) returns (sent: bool, frame: Frame)
    ensures sent == !OverCap(r)
    ensures sent ==> frame == ArtifactFrame(r)
  {
    sent, frame := 4 + |r.name| + |r.data| <= MAX_FRAME_PAYLOAD, Frame(ARTIFACT, []);
    if sent {
      frame := Frame(ARTIFACT, PutU32(|r.name|) + r.name + r.data);
    }
  }

  /** _send_artifacts with a healthy connection: one frame per record within the cap, in order; the flag says
      whether any record was dropped. */
  method SendArtifacts(records: seq<Record>) returns (frames: seq<Frame>, truncated: bool)
    ensures frames == ArtifactFrames(WithinCap(records))
    ensures truncated <==> exists r :: r in records && OverCap(r)
  {
    frames, truncated := [], false;
    var i := 0;
    while i < |records|
      invariant 0 <= i <= |records|
      invariant SentSoFar(records[..i], frames, truncated)
    {
      var r := records[i];
      OneMoreSent(records[..i], r, frames, truncated);
      assert records[..i + 1] == records[..i] + [r];
      var sent, frame := Reframe(r);
      if sent {
        frames := frames + [frame];
      } else {
        truncated := true;
      }
      i := i + 1;
    }
    assert records[..i] == records;
  }

  // ---------------------------------------------------------------- the worker

  datatype Captured = Captured(name: seq<byte>, data: seq<byte>)

  datatype Decoding = Artifact(file: Captured) | TooShort | NameTooLong

  function DecodeArtifactFrame(payload: seq<byte>): Decoding
  {
    if |payload| < 4 then TooShort
    else
      var nameLen := GetU32(payload[..4]);
      if nameLen > |payload| - 4 then NameTooLong
      else Artifact(Captured(payload[4..4 + nameLen], payload[4 + nameLen..]))
  }

  /** The worker gets back the very file the agent framed, and its length cap does not reject the frame. */
  lemma DecodeFramedArtifact(r: Record)
    requires !OverCap(r)
    ensures DecodeArtifactFrame(ArtifactFrame(r).payload) == Artifact(Captured(r.name, r.data))
    ensures |ArtifactFrame(r).payload| <= MAX_FRAME_PAYLOAD && ArtifactFrame(r).ftype == ARTIFACT
    ensures var p, n := ArtifactFrame(r).payload, |r.name|;
            GetU32(p[..4]) == n && p[4..4 + n] == r.name && p[4 + n..] == r.data
  {
    var p := ArtifactFrame(r).payload;
    assert p[..4] == PutU32(|r.name|) + [];
    GetPutU32(|r.name|, []);
    assert p[4..4 + |r.name|] == r.name;
    assert p[4 + |r.name|..] == r.data;
  }

  /** A payload the decoder accepts is one the agent could have framed: the layout is unambiguous. */
  lemma DecodedArtifactReframes(payload: Payload)
    requires |payload| <= MAX_FRAME_PAYLOAD
    requires DecodeArtifactFrame(payload).Artifact?
    ensures var f := DecodeArtifactFrame(payload).file;
            |f.name| < U32_LIMIT && |f.data| < U32_LIMIT
            && !OverCap(Record(f.name, f.data)) && ArtifactFrame(Record(f.name, f.data)).payload == payload
  {
    var f := DecodeArtifactFrame(payload).file;
    PutGetU32(payload[..4]);
    assert payload == payload[..4] + f.name + f.data;
  }

  /** What the worker's reader keeps of the ARTIFACT frames it sees: malformed ones are skipped. */
  function DecodeArtifacts(frames: seq<Frame>): seq<Captured>
  {
    if frames == [] then []
    else match DecodeArtifactFrame(frames[0].payload)
      case Artifact(f) => [f] + DecodeArtifacts(frames[1..])
      case _ => DecodeArtifacts(frames[1..])
  }

  function Files(records: seq<Record>): seq<Captured>
  {
    if records == [] then [] else [Captured(records[0].name, records[0].data)] + Files(records[1..])
  }

  lemma {:induction false} DecodeFramedArtifacts(records: seq<Record>)
    requires forall r <- records :: !OverCap(r)
    ensures DecodeArtifacts(ArtifactFrames(records)) == Files(records)
    ensures forall f <- ArtifactFrames(records) :: |f.payload| <= MAX_FRAME_PAYLOAD && f.ftype == ARTIFACT
  {
    if records != [] {
      DecodeFramedArtifact(records[0]);
      DecodeFramedArtifacts(records[1..]);
    }
  }

  /**
   The agent turns a name into text (bytes that are not valid UTF-8 are replaced) and back into
   bytes before re-framing it. `recode` is that round trip; it is the identity on valid UTF-8.
  */
  function Recode(recode: seq<byte> -> Payload, records: seq<Record>): seq<Record>
  {
    if records == [] then [] else [Record(recode(records[0].name), records[0].data)] + Recode(recode, records[1..])
  }

  lemma {:induction false} RecodeIdentity(recode: seq<byte> -> Payload, records: seq<Record>)
    requires forall r <- records :: recode(r.name) == r.name
    ensures Recode(recode, records) == records
  {
    if records != [] {
      RecodeIdentity(recode, records[1..]);
    }
  }

  /** End to end, for every cutting of the child's stream: the worker holds the original files in order, minus
      exactly the over-cap ones, and its frame cap rejects nothing. */
  lemma PipelineDelivers(records: seq<Record>, chunks: seq<seq<byte>>, recode: seq<byte> -> Payload)
    requires Flatten(chunks) == EncodeAll(EncodeRecord, records)
    requires forall r <- records :: recode(r.name) == r.name
    ensures Streamable(ScanRecord)
    ensures FeedRest(ScanRecord, [], chunks) == []
    ensures var received := Recode(recode, FeedItems(ScanRecord, [], chunks));
            received == records
            && DecodeArtifacts(ArtifactFrames(WithinCap(received))) == Files(WithinCap(records))
            && forall f <- ArtifactFrames(WithinCap(received)) :: |f.payload| <= MAX_FRAME_PAYLOAD
  {
    RecordLaws();
    ChunkingIndependent(ScanRecord, [], chunks);
    assert [] + Flatten(chunks) == EncodeAll(EncodeRecord, records) + [];
    DecodeEncoded(ScanRecord, EncodeRecord, records, []);
    assert records + [] == records;
    RecodeIdentity(recode, records);
    DecodeFramedArtifacts(WithinCap(records));
  }

  /** A stream the child did not finish writing (it died): the complete records, and no fragment. */
  lemma PipelineOnCutStream(records: seq<Record>, k: nat, chunks: seq<seq<byte>>) returns (j: nat)
    requires k <= |EncodeAll(EncodeRecord, records)|
    requires Flatten(chunks) == EncodeAll(EncodeRecord, records)[..k]
    ensures Streamable(ScanRecord)
    ensures j <= |records| && FeedItems(ScanRecord, [], chunks) == records[..j]
    ensures j == |records| <==> k == |EncodeAll(EncodeRecord, records)|
  {
    RecordLaws();
    j := CutDecodes(ScanRecord, EncodeRecord, records, k);
    ChunkingIndependent(ScanRecord, [], chunks);
    assert [] + Flatten(chunks) == Flatten(chunks);
  }
}
