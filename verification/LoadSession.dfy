/** `LoadSession`: metering the parts that a reader delivers, and dropping a file's first line. */
module LoadSession {
  import opened Checked
  import opened ChargedBytes

  const BOM: Bytes := [0xEF, 0xBB, 0xBF]
  const HASH: Byte := 35
  const NEWLINE: Byte := 10

  datatype Limits = Limits(source: nat, encoded: nat, work: nat, chunks: nat)

  // A byte order mark and a first line that starts with `#` are not part of the chunk.

  function WithoutMark(s: Bytes): Bytes {
    if BOM <= s then s[3..] else s
  }

  /** The place after the first newline, or the end. */
  function AfterLine(s: Bytes): (n: nat)
    ensures n <= |s| && (s != [] ==> 0 < n)
  {
    if s == [] then 0 else if s[0] == NEWLINE then 1 else 1 + AfterLine(s[1..])
  }

  function Preprocessed(s: Bytes): Bytes {
    var t := WithoutMark(s);
    if t != [] && t[0] == HASH then [NEWLINE] + t[AfterLine(t)..] else t
  }

  function Newlines(s: Bytes): nat {
    if s == [] then 0 else (if s[0] == NEWLINE then 1 else 0) + Newlines(s[1..])
  }

  lemma {:induction false} NewlinesAfterLine(s: Bytes)
    ensures Newlines(s) == Newlines(s[AfterLine(s)..]) + if NEWLINE in s then 1 else 0
  {
    if s != [] {
      if s[0] == NEWLINE {
        assert s[AfterLine(s)..] == s[1..];
      } else {
        NewlinesAfterLine(s[1..]);
        assert s[1..][AfterLine(s[1..])..] == s[AfterLine(s)..];
        assert NEWLINE in s <==> NEWLINE in s[1..];
      }
    } else {
      assert s[AfterLine(s)..] == s;
    }
  }

  lemma NewlinesAfterMark(s: Bytes)
    requires BOM <= s
    ensures Newlines(s) == Newlines(s[3..]) && (NEWLINE in s <==> NEWLINE in s[3..])
  {
    assert s[0] == BOM[0] && s[1] == BOM[1] && s[2] == BOM[2];
    assert s[1..][0] == s[1] && s[2..][0] == s[2];
    assert s[1..][1..] == s[2..] && s[2..][1..] == s[3..];
    assert Newlines(s) == Newlines(s[1..]) == Newlines(s[2..]) == Newlines(s[3..]);
    assert s == BOM + s[3..];
  }

  /** Every later line keeps its number; only a lone `#` line without an end gains one. */
  lemma LinesKeepTheirNumbers(s: Bytes)
    ensures Newlines(Preprocessed(s)) == Newlines(s)
            + if WithoutMark(s) != [] && WithoutMark(s)[0] == HASH && NEWLINE !in s then 1 else 0
  {
    hide Newlines;
    var t := WithoutMark(s);
    if BOM <= s {
      NewlinesAfterMark(s);
    }
    if t != [] && t[0] == HASH {
      NewlinesAfterLine(t);
      NewlinesOfLine(t[AfterLine(t)..]);
    }
  }

  lemma NewlinesOfLine(s: Bytes)
    ensures Newlines([NEWLINE] + s) == 1 + Newlines(s)
  {
    assert ([NEWLINE] + s)[1..] == s;
  }

  class Session {
    const limits: Limits
    const fileStyle: bool
    const source: Buffer
    var workLeft: nat
    var chunks: nat

    /** The spool's limit: the larger of the two, because the format is not known yet. */
    function SpoolLimit(): nat { Max(limits.source, limits.encoded) }

    /** Within the limits, every stored byte has been paid for with work, and copying stays linear. */
    ghost predicate Valid()
      reads this, source
    {
      && source.Valid()
      && |source.bytes| <= SpoolLimit()
      && workLeft + |source.bytes| <= limits.work
      && Amortised(|source.bytes|, source.capacity, source.copied, SpoolLimit())
    }

    constructor (limits: Limits, fileStyle: bool)
      ensures Valid() && fresh(source) && this.limits == limits && this.fileStyle == fileStyle
      ensures source.bytes == [] && workLeft == limits.work && chunks == 0
    {
      this.limits, this.fileStyle, workLeft, chunks := limits, fileStyle, limits.work, 0;
      source := new Buffer();
    }

    /** Work and chunk count stay spent when the spool refuses; the spool itself is unchanged. */
    method Append(vm: Account, bytes: Bytes) returns (r: Result)
      requires Valid() && source.capacity <= vm.charged
      modifies this, source, vm
      ensures Valid() && source.capacity <= vm.charged
      ensures vm.charged - source.capacity == old(vm.charged - source.capacity)
      ensures r.Done? ==>
                && source.bytes == old(source.bytes) + bytes
                && chunks == old(chunks) + 1 <= limits.chunks
                && workLeft == old(workLeft) - (|bytes| + 1)
      ensures r.Failed? ==> source.bytes == old(source.bytes) && source.capacity == old(source.capacity)
      ensures old(chunks) < Min(limits.chunks, USIZE_MAX) && |bytes| < old(workLeft) ==>
                && chunks == old(chunks) + 1 && workLeft == old(workLeft) - (|bytes| + 1)
                && (SpoolLimit() < old(|source.bytes|) + |bytes| ==> r == Failed(Budget))
                && (old(|source.bytes|) + |bytes| <= Min(SpoolLimit(), old(source.capacity)) ==> r.Done?)
      ensures limits.chunks <= old(chunks) || old(workLeft) <= |bytes| ==> r.Failed? && workLeft == old(workLeft)
    {
      if chunks == USIZE_MAX {
        return Failed(Budget);
      }
      chunks := chunks + 1;
      if limits.chunks < chunks {
        return Failed(Budget);
      }
      if workLeft < |bytes| + 1 {
        return Failed(Budget);
      }
      workLeft := workLeft - (|bytes| + 1);
      r := source.Append(vm, bytes, SpoolLimit());
    }

    /** Moves the bytes in place; storage and charges stay. */
    method PreprocessFile()
      requires source.Valid()
      modifies source`bytes
      ensures source.Valid()
      ensures source.bytes == if fileStyle then Preprocessed(old(source.bytes)) else old(source.bytes)
    {
      if !fileStyle {
        return;
      }
      var bytes := source.bytes;
      if BOM <= bytes {
        var length := |bytes|;
        bytes := bytes[3..] + bytes[length - 3..];
        bytes := bytes[..length - 3];
      }
      ghost var unmarked := bytes;
      assert unmarked == WithoutMark(source.bytes);
      if bytes != [] && bytes[0] == HASH {
        var skip := FirstLineLength(bytes);
        var tail := |bytes| - skip;
        bytes := bytes[..1] + bytes[skip..] + bytes[1 + tail..];
        bytes := bytes[0 := NEWLINE];
        bytes := bytes[..tail + 1];
        assert bytes == [NEWLINE] + unmarked[skip..];
      }
      source.bytes := bytes;
    }

    method FirstLineLength(bytes: Bytes) returns (skip: nat)
      ensures skip == AfterLine(bytes)
    {
      skip := 0;
      while skip < |bytes|
        invariant skip <= |bytes| && AfterLine(bytes) == skip + AfterLine(bytes[skip..])
      {
        assert bytes[skip..][0] == bytes[skip] && bytes[skip..][1..] == bytes[skip + 1..];
        skip := skip + 1;
        if bytes[skip - 1] == NEWLINE {
          return;
        }
      }
    }
  }
}
