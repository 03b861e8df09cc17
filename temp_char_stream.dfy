// A growable character buffer kept as a chain of fixed-capacity chunks
// (com.caucho.v5.vfs.TempCharStream).  The chain of TempCharBuffer nodes is
// modelled as two parallel sequences: the chunk arrays in chain order and
// each chunk's fill length.  The logical content is the concatenation of the
// filled prefixes of the chunks.
module TempCharStream {

  /** A Java `char`: one UTF-16 code unit. */
  newtype jchar = x: int | 0 <= x < 0x1_0000

  /** A Java `byte`: signed eight bits. */
  newtype jbyte = x: int | -128 <= x < 128

  /** Java's `(char) x` cast keeps the low sixteen bits of `x`. */
  function CharOf(x: int): (c: jchar)
    ensures (c as int - x) % 0x1_0000 == 0
    ensures 0 <= x < 0x1_0000 ==> c as int == x
    ensures -0x1_0000 <= x < 0 ==> c as int == x + 0x1_0000
  {
    (x % 0x1_0000) as jchar
  }

  /** Each byte cast to `char`: sign-extended, then cut to sixteen bits. */
  function CharsOfBytes(bs: seq<jbyte>): (r: seq<jchar>)
    ensures |r| == |bs|
  {
    if bs == [] then [] else CharsOfBytes(bs[..|bs| - 1]) + [CharOf(bs[|bs| - 1] as int)]
  }

  /** A non-negative byte keeps its value; a negative one gains 65536. */
  lemma {:induction false} CharsOfBytesAt(bs: seq<jbyte>, i: int)
    requires 0 <= i < |bs|
    ensures 0 <= bs[i] ==> CharsOfBytes(bs)[i] as int == bs[i] as int
    ensures bs[i] < 0 ==> CharsOfBytes(bs)[i] as int == bs[i] as int + 0x1_0000
    decreases |bs|
  {
    if i < |bs| - 1 {
      CharsOfBytesAt(bs[..|bs| - 1], i);
    }
  }

  lemma {:induction false} CharsOfBytesAppend(a: seq<jbyte>, b: seq<jbyte>)
    ensures CharsOfBytes(a + b) == CharsOfBytes(a) + CharsOfBytes(b)
    decreases |b|
  {
    if b == [] {
      assert a + b == a;
    } else {
      var n := |b| - 1;
      assert (a + b)[..|a + b| - 1] == a + b[..n];
      assert (a + b)[|a + b| - 1] == b[n];
      CharsOfBytesAppend(a, b[..n]);
    }
  }

  /** Converting a run of bytes is converting its two halves in turn. */
  lemma CharsOfBytesSplit(bs: seq<jbyte>, a: int, b: int, c: int)
    requires 0 <= a <= b <= c <= |bs|
    ensures CharsOfBytes(bs[a..c]) == CharsOfBytes(bs[a..b]) + CharsOfBytes(bs[b..c])
  {
    assert bs[a..c] == bs[a..b] + bs[b..c];
    CharsOfBytesAppend(bs[a..b], bs[b..c]);
  }

  /** Content that grew by two adjacent runs of bytes grew by their union. */
  lemma CharsOfBytesExtend(c0: seq<jchar>, c1: seq<jchar>, c2: seq<jchar>, bs: seq<jbyte>, a: int, b: int, c: int)
    requires 0 <= a <= b <= c <= |bs|
    requires c1 == c0 + CharsOfBytes(bs[a..b])
    requires c2 == c1 + CharsOfBytes(bs[b..c])
    ensures c2 == c0 + CharsOfBytes(bs[a..c])
  {
    CharsOfBytesSplit(bs, a, b, c);
  }

  /** Content that grew by `s[a..b)` and then by a prefix of `s[b..d)`
      grew by one run of `s`. */
  lemma AppendRun<T>(c0: seq<T>, c1: seq<T>, c2: seq<T>, s: seq<T>, src: seq<T>, a: int, b: int, c: int, d: int)
    requires 0 <= a <= b <= c <= d <= |s| && src == s[b..d]
    requires c1 == c0 + s[a..b]
    requires c2 == c1 + src[..c - b]
    ensures c2 == c0 + s[a..c]
  {
    assert s[a..c] == s[a..b] + src[..c - b];
  }

  function Min(a: int, b: int): int
  {
    if a < b then a else b
  }

  function Max0(a: int): int
  {
    if a < 0 then 0 else a
  }

  function Sum(xs: seq<int>): int
  {
    if xs == [] then 0 else Sum(xs[..|xs| - 1]) + xs[|xs| - 1]
  }

  /** The chunks' filled parts, joined in chain order. */
  function Flatten(chunks: seq<seq<jchar>>): seq<jchar>
  {
    if chunks == [] then [] else Flatten(chunks[..|chunks| - 1]) + chunks[|chunks| - 1]
  }

  lemma FlattenStep(chunks: seq<seq<jchar>>, i: int)
    requires 0 <= i < |chunks|
    ensures Flatten(chunks[..i + 1]) == Flatten(chunks[..i]) + chunks[i]
  {
    assert chunks[..i + 1][..i] == chunks[..i];
  }

  /** Filling more of the tail chunk appends to the joined content. */
  lemma FlattenGrowTail(chunks: seq<seq<jchar>>, src: seq<jchar>)
    requires 0 < |chunks|
    ensures Flatten(chunks[|chunks| - 1 := chunks[|chunks| - 1] + src]) == Flatten(chunks) + src
  {
    var n := |chunks| - 1;
    assert chunks[n := chunks[n] + src][..n] == chunks[..n];
  }

  /** The joined length is the sum of the chunk lengths. */
  lemma {:induction false} FlattenLength(chunks: seq<seq<jchar>>, lengths: seq<int>)
    requires |chunks| == |lengths|
    requires forall i :: 0 <= i < |chunks| ==> |chunks[i]| == lengths[i]
    ensures |Flatten(chunks)| == Sum(lengths)
    decreases |chunks|
  {
    if chunks != [] {
      var n := |chunks| - 1;
      FlattenLength(chunks[..n], lengths[..n]);
    }
  }

  lemma SumStep(xs: seq<int>, i: int)
    requires 0 <= i < |xs|
    ensures Sum(xs[..i + 1]) == Sum(xs[..i]) + xs[i]
  {
    assert xs[..i + 1][..i] == xs[..i];
  }

  class TempCharStream {
    /** The chunk arrays from head to tail. */
    var bufs: seq<array<jchar>>
    /** `_length` of each chunk: how much of it is filled. */
    var lengths: seq<int>
    /** The capacity of a buffer handed out by TempCharBuffer.allocate(). */
    const chunkSize: int
    /** The 256-char staging buffer used by the byte write. */
    const cBuf: array<jchar>
    /** The filled part of each chunk, `bufs[i][..lengths[i]]`. */
    ghost var chunks: seq<seq<jchar>>
    ghost var Repr: set<object>

    /**
     * No chunk is filled past its capacity, and every chunk before the tail
     * is full: a chunk is only appended when there is no tail or the tail is
     * full.
     */
    ghost predicate Valid()
      reads this, Repr
      ensures Valid() ==> this in Repr
    {
      this in Repr && cBuf in Repr && cBuf.Length == 256 && 0 < chunkSize &&
      |bufs| == |lengths| == |chunks| &&
      (forall i :: 0 <= i < |bufs| ==>
         bufs[i] in Repr && bufs[i].Length == chunkSize && 0 <= lengths[i] <= chunkSize) &&
      (forall i :: 0 <= i < |bufs| ==> chunks[i] == bufs[i][..lengths[i]]) &&
      (forall i :: 0 <= i < |bufs| - 1 ==> lengths[i] == chunkSize) &&
      (forall i, j :: 0 <= i < j < |bufs| ==> bufs[i] != bufs[j]) &&
      (forall i :: 0 <= i < |bufs| ==> bufs[i] != cBuf)
    }

    /** The characters written since the last reset. */
    ghost function Contents(): seq<jchar>
      reads this
    {
      Flatten(chunks)
    }

    constructor (chunkSize: int)
      requires 0 < chunkSize
      ensures Valid() && fresh(Repr)
      ensures this.chunkSize == chunkSize && Contents() == []
    {
      this.chunkSize := chunkSize;
      bufs := [];
      lengths := [];
      chunks := [];
      var c := new jchar[256];
      cBuf := c;
      Repr := {this, c};
    }

    /** openWrite: drops the chain, leaving an empty stream. */
    method OpenWrite()
      requires Valid()
      modifies this
      ensures Valid() && Repr == old(Repr)
      ensures Contents() == [] && bufs == []
    {
      bufs := [];
      lengths := [];
      chunks := [];
    }

    /** clearWrite: drops the chain, leaving an empty stream. */
    method ClearWrite()
      requires Valid()
      modifies this
      ensures Valid() && Repr == old(Repr)
      ensures Contents() == [] && bufs == []
    {
      bufs := [];
      lengths := [];
      chunks := [];
    }

    /** discard: forgets the chain without freeing it. */
    method Discard()
      requires Valid()
      modifies this
      ensures Valid() && Repr == old(Repr)
      ensures Contents() == [] && bufs == []
    {
      bufs := [];
      lengths := [];
      chunks := [];
    }

    /** destroy: closes the stream and drops the chain. */
    method Destroy()
      requires Valid()
      modifies this
      ensures Valid() && Repr == old(Repr)
      ensures Contents() == [] && bufs == []
    {
      bufs := [];
      lengths := [];
      chunks := [];
    }

    /** canWrite: a temp stream always accepts writes. */
    function CanWrite(): (r: bool)
      ensures r
    {
      true
    }

    /**
     * The branch every write starts with: add a fresh chunk when there is
     * no tail or the tail is full (addBuffer).  Afterwards the tail has room.
     */
    method EnsureTail()
      requires Valid()
      modifies this
      ensures Valid() && fresh(Repr - old(Repr))
      ensures Contents() == old(Contents())
      ensures |bufs| > 0 && lengths[|bufs| - 1] < chunkSize
      ensures if old(bufs) == [] || old(lengths[|bufs| - 1]) == chunkSize
              then bufs == old(bufs) + [bufs[|bufs| - 1]] && fresh(bufs[|bufs| - 1])
                   && lengths == old(lengths) + [0]
              else bufs == old(bufs) && lengths == old(lengths)
    {
      if bufs == [] || bufs[|bufs| - 1].Length <= lengths[|lengths| - 1] {
        var b := new jchar[chunkSize];
        bufs := bufs + [b];
        lengths := lengths + [0];
        chunks := chunks + [[]];
        Repr := Repr + {b};
        assert chunks[..|chunks| - 1] == old(chunks);
      }
    }

    /**
     * Copies `src` into the tail chunk after its filled part and advances
     * the tail's length (the arraycopy / getChars step of the writes).
     */
    method AppendToTail(src: seq<jchar>)
      requires Valid() && |bufs| > 0
      requires lengths[|bufs| - 1] + |src| <= chunkSize
      modifies this, bufs[|bufs| - 1]
      ensures Valid() && Repr == old(Repr) && bufs == old(bufs)
      ensures Contents() == old(Contents()) + src
    {
      var n := |bufs| - 1;
      var tail := bufs[n];
      var start := lengths[n];
      forall k | 0 <= k < |src| {
        tail[start + k] := src[k];
      }
      lengths := lengths[n := start + |src|];
      assert tail[..start + |src|] == old(tail[..start]) + src;
      FlattenGrowTail(chunks, src);
      chunks := chunks[n := chunks[n] + src];
    }

    /**
     * One turn of the write loops: make sure the tail has room, then copy as
     * much of `src` as fits into it.  Returns how much was copied.
     */
    method Fill(src: seq<jchar>) returns (sublen: int)
      requires Valid() && 0 < |src|
      modifies this, bufs
      ensures Valid() && fresh(Repr - old(Repr))
      ensures 0 < sublen <= |src|
      ensures Contents() == old(Contents()) + src[..sublen]
      ensures bufs == old(bufs) || (bufs == old(bufs) + [bufs[|bufs| - 1]] && fresh(bufs[|bufs| - 1]))
    {
      EnsureTail();
      var n := |bufs| - 1;
      sublen := Min(|src|, chunkSize - lengths[n]);
      AppendToTail(src[..sublen]);
    }

    /** write(int): appends one char, the low sixteen bits of `ch`. */
    method WriteChar(ch: int)
      requires Valid()
      modifies Repr
      ensures Valid() && fresh(Repr - old(Repr))
      ensures Contents() == old(Contents()) + [CharOf(ch)]
    {
      EnsureTail();
      AppendToTail([CharOf(ch)]);
    }

    /** write(char[], offset, length): appends `buf[offset..offset+length)`. */
    method WriteChars(buf: array<jchar>, offset: int, length: int)
      requires Valid()
      requires 0 <= offset <= buf.Length && length <= buf.Length - offset
      requires buf !in bufs
      modifies Repr
      ensures Valid() && fresh(Repr - old(Repr))
      ensures buf[..] == old(buf[..])
      ensures length <= 0 ==> Contents() == old(Contents())
      ensures 0 < length ==> Contents() == old(Contents()) + buf[offset..offset + length]
    {
      ghost var bs := buf[..];
      ghost var c0 := Contents();
      var index := 0;
      while index < length
        invariant Valid() && fresh(Repr - old(Repr))
        invariant 0 <= index <= Max0(length)
        invariant buf !in bufs && buf[..] == bs
        invariant Contents() == c0 + bs[offset..offset + index]
        decreases length - index
      {
        ghost var before := Contents();
        var rest := buf[index + offset..offset + length];
        assert rest == bs[index + offset..offset + length];
        var sublen := Fill(rest);
        AppendRun(c0, before, Contents(), bs, rest, offset, offset + index, offset + index + sublen, offset + length);
        index := index + sublen;
      }
      if 0 < length {
        assert buf[offset..offset + length] == bs[offset..offset + length];
      }
    }

    /** write(String, offset, length): appends `s[offset..offset+length)`. */
    method WriteString(s: seq<jchar>, offset: int, length: int)
      requires Valid()
      requires 0 <= offset <= |s| && length <= |s| - offset
      modifies Repr
      ensures Valid() && fresh(Repr - old(Repr))
      ensures length <= 0 ==> Contents() == old(Contents())
      ensures 0 < length ==> Contents() == old(Contents()) + s[offset..offset + length]
    {
      ghost var c0 := Contents();
      var off := offset;
      var len := length;
      while len > 0
        invariant Valid() && fresh(Repr - old(Repr))
        invariant offset <= off <= offset + Max0(length)
        invariant len == length - (off - offset)
        invariant Contents() == c0 + s[offset..off]
        decreases len
      {
        ghost var before := Contents();
        var rest := s[off..off + len];
        var sublen := Fill(rest);
        AppendRun(c0, before, Contents(), s, rest, offset, off, off + sublen, off + len);
        off := off + sublen;
        len := len - sublen;
      }
    }

    /** The staging loop of the byte write: `cBuf[i] = (char) buf[off + i]`. */
    method Stage(buf: array<jbyte>, off: int, sublen: int)
      requires 0 <= sublen <= cBuf.Length && 0 <= off && off + sublen <= buf.Length
      modifies cBuf
      ensures cBuf[..sublen] == CharsOfBytes(buf[off..off + sublen])
    {
      var i := 0;
      while i < sublen
        invariant 0 <= i <= sublen
        invariant cBuf[..i] == CharsOfBytes(buf[off..off + i])
      {
        cBuf[i] := CharOf(buf[off + i] as int);
        assert buf[off..off + i + 1][..i] == buf[off..off + i];
        i := i + 1;
      }
    }

    /** One turn of the byte write: stage `sublen` bytes as chars, then write them. */
    method WriteStaged(buf: array<jbyte>, off: int, sublen: int, ghost bs: seq<jbyte>, ghost c0: seq<jchar>, ghost start: int)
      requires Valid()
      requires 0 < sublen <= cBuf.Length && 0 <= start <= off && off + sublen <= buf.Length
      requires buf !in Repr && buf[..] == bs
      requires Contents() == c0 + CharsOfBytes(bs[start..off])
      modifies Repr
      ensures Valid() && fresh(Repr - old(Repr))
      ensures Contents() == old(Contents()) + CharsOfBytes(bs[off..off + sublen])
      ensures Contents() == c0 + CharsOfBytes(bs[start..off + sublen])
    {
      Stage(buf, off, sublen);
      assert buf[off..off + sublen] == bs[off..off + sublen];
      WriteChars(cBuf, 0, sublen);
      assert cBuf[0..sublen] == cBuf[..sublen];
      CharsOfBytesExtend(c0, old(Contents()), Contents(), bs, start, off, off + sublen);
    }

    /**
     * write(byte[], offset, length, isEnd): appends each byte cast to char,
     * in order, staging at most 256 of them at a time in `cBuf`.
     */
    method WriteBytes(buf: array<jbyte>, offset: int, length: int, isEnd: bool)
      requires Valid()
      requires 0 <= offset <= buf.Length && length <= buf.Length - offset
      requires buf !in Repr
      modifies Repr
      ensures Valid() && fresh(Repr - old(Repr))
      ensures length <= 0 ==> Contents() == old(Contents())
      ensures 0 < length ==> Contents() == old(Contents()) + CharsOfBytes(buf[offset..offset + length])
    {
      ghost var bs := buf[..];
      ghost var c0 := Contents();
      var off := offset;
      var len := length;
      while len > 0
        invariant Valid() && fresh(Repr - old(Repr))
        invariant offset <= off <= offset + Max0(length)
        invariant len == length - (off - offset)
        invariant buf !in Repr && buf[..] == bs
        invariant Contents() == c0 + CharsOfBytes(bs[offset..off])
        decreases len
      {
        var sublen := Min(len, cBuf.Length);
        WriteStaged(buf, off, sublen, bs, c0, offset);
        off := off + sublen;
        len := len - sublen;
      }
      if 0 < length {
        assert buf[offset..offset + length] == bs[offset..offset + length];
      }
    }

    /** getLength: the sum of the chunk lengths, the number of chars held. */
    method GetLength() returns (length: int)
      requires Valid()
      ensures length == |Contents()|
    {
      length := 0;
      var i := 0;
      while i < |bufs|
        invariant 0 <= i <= |bufs|
        invariant length == Sum(lengths[..i])
      {
        SumStep(lengths, i);
        length := length + lengths[i];
        i := i + 1;
      }
      assert lengths[..i] == lengths;
      FlattenLength(chunks, lengths);
    }

    /** readString: the concatenation of all chunks; the stream is left empty. */
    method ReadString() returns (s: seq<jchar>)
      requires Valid()
      modifies this
      ensures Valid()
      ensures Repr == old(Repr)
      ensures s == old(Contents())
      ensures Contents() == []
      ensures bufs == []
    {
      var sb: seq<jchar> := [];
      var i := 0;
      while i < |bufs|
        invariant unchanged(this)
        invariant 0 <= i <= |bufs|
        invariant sb == Flatten(chunks[..i])
      {
        FlattenStep(chunks, i);
        sb := sb + bufs[i][..lengths[i]];
        i := i + 1;
      }
      assert chunks[..i] == chunks;
      bufs := [];
      lengths := [];
      chunks := [];
      s := sb;
    }
  }

  /** Two writes read back as one: content is appended in call order. */
  method WriteThenRead(chunkSize: int, a: seq<jchar>, b: seq<jchar>) returns (s: seq<jchar>, length: int)
    requires 0 < chunkSize
    ensures s == a + b && length == |a| + |b|
  {
    var t := new TempCharStream(chunkSize);
    t.WriteString(a, 0, |a|);
    t.WriteString(b, 0, |b|);
    length := t.GetLength();
    s := t.ReadString();
  }
}
