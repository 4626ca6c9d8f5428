/** Streaming multipart upload: a byte stream arriving in chunks of any size becomes
    numbered parts of a fixed size. */
module Multipart {
  import opened Collections

  datatype Part = Part(number: nat, body: seq<Byte>)

  function Bodies(parts: seq<Part>): seq<seq<Byte>> {
    Map((p: Part) => p.body, parts)
  }

  /** The object a list of parts assembles to. */
  function Assembled(parts: seq<Part>): seq<Byte> {
    Flatten(Bodies(parts))
  }

  /** Parts numbered from 1, every one of them exactly size bytes. */
  ghost predicate FullParts(parts: seq<Part>, size: nat) {
    forall i :: 0 <= i < |parts| ==> parts[i].number == i + 1 && |parts[i].body| == size
  }

  /** The layout promised for a stream: the parts concatenate to it, are numbered 1..k, all
      have exactly size bytes except the last, which is shorter or equal, and empty only when
      it is the single part of an empty stream. */
  ghost predicate Layout(stream: seq<Byte>, size: nat, parts: seq<Part>) {
    && parts != []
    && Assembled(parts) == stream
    && FullParts(parts[..|parts| - 1], size)
    && var last := parts[|parts| - 1];
       last.number == |parts| && |last.body| <= size && (last.body == [] ==> |parts| == 1)
  }

  lemma AssembledSnoc(parts: seq<Part>, p: Part)
    ensures Assembled(parts + [p]) == Assembled(parts) + p.body
  {
    assert Bodies(parts + [p]) == Bodies(parts) + [p.body];
    Snoc(Bodies(parts), p.body);
  }

  lemma {:induction false} FullLength(parts: seq<Part>, size: nat)
    requires FullParts(parts, size)
    ensures |Assembled(parts)| == |parts| * size
  {
    if parts != [] {
      var n := |parts| - 1;
      assert parts == parts[..n] + [parts[n]];
      FullLength(parts[..n], size);
      AssembledSnoc(parts[..n], parts[n]);
      assert (n + 1) * size == n * size + size;
    }
  }

  /** The number of parts is the least that can hold the stream, and at least one. */
  lemma PartCount(stream: seq<Byte>, size: nat, parts: seq<Part>)
    requires size >= 1 && Layout(stream, size, parts)
    ensures |stream| == (|parts| - 1) * size + |parts[|parts| - 1].body|
    ensures |parts| == if stream == [] then 1 else (|stream| + size - 1) / size
  {
    var n := |parts| - 1;
    var tail := |parts[n].body|;
    assert parts == parts[..n] + [parts[n]];
    AssembledSnoc(parts[..n], parts[n]);
    FullLength(parts[..n], size);
    if stream == [] {
      assert n * size == 0;
    } else {
      CeilDiv(n, size, tail);
    }
  }

  lemma CeilDiv(n: nat, size: nat, tail: nat)
    requires 1 <= tail <= size
    ensures (n * size + tail + size - 1) / size == n + 1
  {
    var r := tail - 1;
    assert n * size + tail + size - 1 == (n + 1) * size + r by {
      assert (n + 1) * size == n * size + size;
    }
    DivUnique((n + 1) * size + r, size, n + 1, r);
  }

  lemma DivUnique(x: nat, size: nat, q: nat, r: nat)
    requires size >= 1 && x == q * size + r && r < size
    ensures x / size == q
  {
    var d := x / size - q;
    assert x == size * (x / size) + x % size;
    assert d * size == r - x % size;
    MultipleIsFar(d, size);
  }

  lemma MultipleIsFar(d: int, size: int)
    requires size >= 1
    ensures d >= 1 ==> d * size >= size
    ensures d <= -1 ==> d * size <= 0 - size
  {
  }

  /** The layout is determined by the stream and the part size: how the stream was chunked
      leaves no trace. */
  lemma {:induction false} LayoutUnique(stream: seq<Byte>, size: nat, parts: seq<Part>, parts': seq<Part>)
    requires size >= 1 && Layout(stream, size, parts) && Layout(stream, size, parts')
    ensures parts == parts'
  {
    PartCount(stream, size, parts);
    PartCount(stream, size, parts');
    var n := |parts| - 1;
    var full, full' := parts[..n], parts'[..n];
    assert parts == full + [parts[n]] && parts' == full' + [parts'[n]];
    AssembledSnoc(full, parts[n]);
    AssembledSnoc(full', parts'[n]);
    FullLength(full, size);
    FullLength(full', size);
    assert Assembled(full) == stream[..n * size] == Assembled(full');
    assert parts[n].body == stream[n * size..] == parts'[n].body;
    FullUnique(full, full', size);
  }

  lemma {:induction false} FullUnique(parts: seq<Part>, parts': seq<Part>, size: nat)
    requires FullParts(parts, size) && FullParts(parts', size)
    requires |parts| == |parts'| && Assembled(parts) == Assembled(parts')
    ensures parts == parts'
  {
    if parts != [] {
      var n := |parts| - 1;
      assert parts == parts[..n] + [parts[n]] && parts' == parts'[..n] + [parts'[n]];
      AssembledSnoc(parts[..n], parts[n]);
      AssembledSnoc(parts'[..n], parts'[n]);
      var k := |Assembled(parts)| - size;
      assert Assembled(parts[..n]) == Assembled(parts)[..k] == Assembled(parts'[..n]);
      assert parts[n].body == Assembled(parts)[k..] == parts'[n].body;
      FullUnique(parts[..n], parts'[..n], size);
    }
  }

  /** Moving one full part from the buffer to the uploaded parts keeps the bytes in order. */
  lemma PartSent(parts: seq<Part>, buffer: seq<Byte>, size: nat)
    requires FullParts(parts, size) && |buffer| >= size
    ensures var more := parts + [Part(|parts| + 1, buffer[..size])];
            FullParts(more, size) && Assembled(more) + buffer[size..] == Assembled(parts) + buffer
  {
    AssembledSnoc(parts, Part(|parts| + 1, buffer[..size]));
    assert buffer == buffer[..size] + buffer[size..];
  }

  /** Object keys have no leading slash. */
  function ObjectKey(key: string): string {
    if key != "" && key[0] == '/' then ObjectKey(key[1..]) else key
  }

  datatype PutResult = PutResult(size: nat, digested: seq<Byte>)

  /** The store client with the bucket behind it. A failed completion may have landed. */
  class StreamingObjectStore {
    const partSize: nat
    var objects: map<string, seq<Byte>>
    var uploads: set<nat>           // ids of the open multipart uploads
    var nextId: nat

    constructor (partSize: nat)
      requires partSize >= 1
      ensures this.partSize == partSize && objects == map[] && Valid()
    {
      this.partSize := partSize;
      objects, uploads, nextId := map[], {}, 0;
    }

    ghost predicate Valid()
      reads this
    {
      partSize >= 1 && forall u :: u in uploads ==> u < nextId
    }

    method UploadPart(number: nat, body: seq<Byte>) returns (part: Part, raised: bool)
      ensures !raised ==> part == Part(number, body)
    {
      part, raised := Part(number, body), *;
    }

    method CompleteUpload(key: string, id: nat, parts: seq<Part>) returns (raised: bool)
      modifies `objects, `uploads
      ensures || (objects == old(objects)[key := Assembled(parts)] && uploads == old(uploads) - {id})
              || (raised && objects == old(objects) && uploads == old(uploads))
    {
      raised := *;
      var landed: bool := *;
      if !raised || landed {
        objects, uploads := objects[key := Assembled(parts)], uploads - {id};
      }
    }

    method AbortUpload(id: nat)
      modifies `uploads
      ensures uploads == old(uploads) - {id} || uploads == old(uploads)
    {
      var raised: bool := *;
      if !raised {
        uploads := uploads - {id};
      }
    }

    /** Uploads every full part in the buffer; what stays behind is less than one part. */
    method Drain(buffer: seq<Byte>, parts: seq<Part>, ghost sent: seq<Byte>)
      returns (rest: seq<Byte>, more: seq<Part>, raised: bool)
      requires partSize >= 1 && FullParts(parts, partSize)
      requires Assembled(parts) + buffer == sent
      ensures FullParts(more, partSize)
      ensures !raised ==> Assembled(more) + rest == sent && |rest| < partSize
    {
      rest, more, raised := buffer, parts, false;
      while |rest| >= partSize
        invariant FullParts(more, partSize)
        invariant Assembled(more) + rest == sent
        decreases |rest|
      {
        var body := rest[..partSize];
        var part;
        part, raised := UploadPart(|more| + 1, body);
        if raised {
          return;
        }
        PartSent(more, rest, partSize);
        rest, more := rest[partSize..], more + [part];
      }
    }

    /** The streaming loop: everything received is in uploaded full parts or in the buffer,
        and between chunks the buffer holds less than one part. */
    method Receive(chunks: seq<seq<Byte>>)
        returns (buffer: seq<Byte>, parts: seq<Part>, result: PutResult, raised: bool)
      requires partSize >= 1
      ensures !raised ==>
                && FullParts(parts, partSize) && |buffer| < partSize
                && Assembled(parts) + buffer == Flatten(chunks)
                && result == PutResult(|Flatten(chunks)|, Flatten(chunks))
    {
      buffer, parts, result, raised := [], [], PutResult(0, []), false;
      var i := 0;
      while i < |chunks|
        invariant i <= |chunks| && !raised
        invariant FullParts(parts, partSize) && |buffer| < partSize
        invariant Assembled(parts) + buffer == Flatten(chunks[..i])
        invariant result == PutResult(|Flatten(chunks[..i])|, Flatten(chunks[..i]))
      {
        var chunk := chunks[i];
        Snoc(chunks[..i], chunk);
        assert chunks[..i + 1] == chunks[..i] + [chunk];
        i := i + 1;
        if chunk == [] {
          continue;
        }
        result := PutResult(result.size + |chunk|, result.digested + chunk);
        assert Assembled(parts) + (buffer + chunk) == Flatten(chunks[..i]);
        buffer, parts, raised := Drain(buffer + chunk, parts, Flatten(chunks[..i]));
        if raised {
          return;
        }
      }
      var streamFailed: bool := *;
      raised := streamFailed;
      assert chunks[..|chunks|] == chunks;
    }

    /** The upload. A normal return has stored the whole stream under the key, in the promised
        parts, and reports its size and digest. Whatever raises, the key holds what it held
        before, or the whole stream if only the acknowledgement of the completion was lost:
        never part of a stream. Only a failed abort leaves the upload open. */
    method Put(path: string, chunks: seq<seq<Byte>>) returns (result: PutResult, parts: seq<Part>, raised: bool)
      requires Valid()
      modifies `objects, `uploads, `nextId
      ensures Valid()
      ensures !raised ==>
                && objects == old(objects)[ObjectKey(path) := Flatten(chunks)]
                && Layout(Flatten(chunks), partSize, parts)
                && result == PutResult(|Flatten(chunks)|, Flatten(chunks))
      ensures raised ==> objects == old(objects) || objects == old(objects)[ObjectKey(path) := Flatten(chunks)]
      ensures uploads == old(uploads) || (raised && uploads == old(uploads) + {old(nextId)})
    {
      var key := ObjectKey(path);
      result, parts := PutResult(0, []), [];
      raised := *;
      if raised {
        return;
      }
      var id := nextId;
      uploads, nextId := uploads + {id}, nextId + 1;
      var buffer;
      buffer, parts, result, raised := Receive(chunks);
      if !raised && (buffer != [] || parts == []) {
        var part;
        part, raised := UploadPart(|parts| + 1, buffer);
        AssembledSnoc(parts, part);
        parts := parts + [part];
      }
      if !raised {
        LayoutFromLoop(Flatten(chunks), parts);
        raised := CompleteUpload(key, id, parts);
      }
      if raised {
        AbortUpload(id);
      }
    }

    lemma LayoutFromLoop(stream: seq<Byte>, parts: seq<Part>)
      requires partSize >= 1 && parts != [] && Assembled(parts) == stream
      requires FullParts(parts, partSize) ||
               (FullParts(parts[..|parts| - 1], partSize)
                && var last := parts[|parts| - 1];
                   last.number == |parts| && |last.body| < partSize && (last.body == [] ==> |parts| == 1))
      ensures Layout(stream, partSize, parts)
    {
    }
  }
}
