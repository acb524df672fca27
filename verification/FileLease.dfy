/**
 * `TrustedLease`: a host file with up to three pushed-back bytes and a write buffer.
 *
 * The operating system is modelled by its state and by nondeterminism: a read returns a
 * prefix of what remains, of any positive length, a write takes any prefix, either can fail,
 * and every charge to the budget can be refused. A raw write may change `content` and `pos`
 * arbitrarily (overwriting, appending); what it took is logged in `delivered`.
 */
module FileLease {
  import opened Checked
  import opened NumberScan

  const MAX_READ: nat := 1024 * 1024
  const MAX_NUMERAL: nat := 200
  const CHUNK: nat := 4096
  const I64_MIN: int := -0x8000_0000_0000_0000

  datatype Error = IoFailed | WriteFailed(written: nat) | Budget | Denied | PlatformDifference

  datatype Result<+T> = Done(value: T) | Failed(error: Error) {
    predicate IsFailure() { Failed? }

    function PropagateFailure<U>(): Result<U>
      requires IsFailure()
    {
      Failed(error)
    }

    function Extract(): T
      requires !IsFailure()
    {
      value
    }
  }

  datatype Kind = File | Stdin | Stdout | Stderr | ProcessRead | ProcessWrite | Closed

  datatype BufferMode = Unbuffered | Full | LineWise

  datatype Format = Count(n: nat) | Line(keepNewline: bool) | All | Number

  datatype Origin = Set | Current | End

  predicate Readable(kind: Kind) { kind == File || kind == Stdin || kind == ProcessRead }

  /** A seek that is denied: no file, a negative start, or an offset below `i64`. */
  predicate Unseekable(kind: Kind, origin: Origin, offset: int, unread: nat) {
    kind != File || (origin == Set && offset < 0) || (origin == Current && offset - unread < I64_MIN)
  }

  predicate Writable(kind: Kind) { kind == File || kind == Stdout || kind == Stderr || kind == ProcessWrite }

  function RawRest(content: Bytes, pos: nat): Bytes {
    if pos <= |content| then content[pos..] else []
  }

  /** The closure `number_byte`: counts the bytes of a numeral and keeps the first 200. */
  datatype Kept = Kept(result: Bytes, scanned: nat, tooLong: bool) {
    predicate Holds(bytes: Bytes) {
      && scanned == |bytes|
      && tooLong == (MAX_NUMERAL < |bytes|)
      && (!tooLong ==> result == bytes)
    }

    /** The bytes kept so far are those of `s` from `w` up to `k`. */
    predicate HoldsRange(s: Bytes, w: nat, k: nat) {
      w <= k <= |s| && Holds(s[w..k])
    }

    function Push(byte: Byte): Result<Kept> {
      if MAX_READ < scanned + 1 then Failed(Budget)
      else if MAX_NUMERAL < scanned + 1 then Done(Kept(result, scanned + 1, true))
      else Done(Kept(result + [byte], scanned + 1, tooLong))
    }

    /** A numeral is returned unless it was refused or too long. */
    function Finish(accepted: bool): Option<Bytes> {
      if accepted && !tooLong then Some(result) else None
    }
  }

  lemma PushKeeps(kept: Kept, s: Bytes, w: nat, k: nat)
    requires kept.HoldsRange(s, w, k) && k < |s|
    ensures kept.Push(s[k]).Failed? ==> kept.Push(s[k]).error == Budget && MAX_READ <= kept.scanned
    ensures kept.Push(s[k]).Done? ==> kept.Push(s[k]).value.HoldsRange(s, w, k + 1)
  {
    assert s[w..k + 1] == s[w..k] + [s[k]];
  }

  lemma FinishReturns(kept: Kept, accepted: bool, s: Bytes, w: nat, k: nat)
    requires kept.HoldsRange(s, w, k)
    ensures w <= k <= |s| && kept.Finish(accepted) == if accepted && k - w <= MAX_NUMERAL then Some(s[w..k]) else None
  {
  }

  // What each read format returns from a stream, and what it leaves.

  predicate CountMeans(n: nat, before: Bytes, after: Bytes, result: Option<Bytes>) {
    if n == 0 then after == before && result == if before == [] then None else Some([])
    else
      var k := if n <= |before| then n else |before|;
      after == before[k..] && result == if k == 0 then None else Some(before[..k])
  }

  ghost predicate LineMeans(keep: bool, before: Bytes, after: Bytes, result: Option<Bytes>) {
    if before == [] then after == [] && result == None
    else
      && result.Some?
      && |result.value| < MAX_READ
      && exists body: Bytes :: '\n' !in body &&
           if before == body then after == [] && result.value == body
           else before == body + ['\n'] + after && result.value == if keep then body + ['\n'] else body
  }

  predicate AllMeans(before: Bytes, after: Bytes, result: Option<Bytes>) {
    after == [] && result == Some(before) && |before| <= MAX_READ
  }

  predicate NumberMeans(before: Bytes, after: Bytes, result: Option<Bytes>) {
    var text := before[WhiteLength(before)..];
    var scan := ScanNumeral(text);
    && after == text[scan.length..]
    && result == if scan.accepted && scan.length <= MAX_NUMERAL then Some(text[..scan.length]) else None
  }

  ghost predicate ReadMeans(format: Format, before: Bytes, after: Bytes, result: Option<Bytes>) {
    match format
    case Count(n) => CountMeans(n, before, after, result)
    case Line(keep) => LineMeans(keep, before, after, result)
    case All => AllMeans(before, after, result)
    case Number => NumberMeans(before, after, result)
  }

  lemma AtAgain(s0: Bytes, s1: Bytes, s2: Bytes, k: nat, j: nat)
    requires k <= |s0| && s1 == s0[k..] && j <= |s1| && s2 == s1[j..]
    ensures s2 == s0[k + j..]
  {
  }

  lemma PrefixGrows(before: Bytes, s: Bytes, k: nat, n: nat)
    requires k + n <= |s|
    ensures before + s[..k] + s[k..][..n] == before + s[..k + n]
  {
    SuffixOfSuffix(s, k, n);
    Associate(before, s[..k], s[k..k + n]);
  }

  lemma NothingAtEnd(s: Bytes)
    ensures NumeralAt(s, |s|) == Scan(|s|, false)
  {
    hide NumeralAt, UnsignedAt, BodyAt;
    NumeralAtSign(s, |s|);
    UnsignedAtCases(s, |s|);
    BodyAtStep(s, |s|, false, false, 0);
  }

  lemma NumberByPosition(s: Bytes, after: Bytes, result: Option<Bytes>)
    requires var w := WhiteEnd(s, 0);
             w <= |s| &&
             var scan := NumeralAt(s, w);
             && w <= scan.length <= |s| && after == s[scan.length..]
             && result == if scan.accepted && scan.length - w <= MAX_NUMERAL then Some(s[w..scan.length]) else None
    ensures NumberMeans(s, after, result)
  {
    hide ScanNumeral, WhiteLength;
    assert s[0..] == s;
    var w := WhiteEnd(s, 0);
    SuffixOfSuffix(s, w, NumeralAt(s, w).length - w);
  }

  lemma RestOfRest(content: Bytes, p: nat, k: nat)
    requires k <= |RawRest(content, p)|
    ensures RawRest(content, p + k) == RawRest(content, p)[k..]
  {
  }

  lemma NothingHeld(s: Bytes, w: nat)
    requires w <= |s|
    ensures Kept([], 0, false).HoldsRange(s, w, w)
  {
    assert s[w..w] == [];
  }

  predicate AllWhite(s: Bytes) { forall i :: 0 <= i < |s| ==> IsWhite(s[i]) }

  /** A number read is white space that is dropped and then a numeral, and nothing else is taken. */
  lemma NumberIsNumeral(before: Bytes, after: Bytes, number: Bytes)
    requires NumberMeans(before, after, Some(number))
    ensures exists white :: AllWhite(white) && before == white + number + after
    ensures IsNumeral(number) && |number| <= MAX_NUMERAL
  {
    hide ScanNumeral, WellFormed, Text, Ends;
    var w := WhiteLength(before);
    var text := before[w..];
    AcceptedIsNumeral(text);
    assert AllWhite(before[..w]);
    assert before == before[..w] + number + after;
  }

  /** Every numeral of at most 200 bytes that ends before `after` is read whole. */
  lemma NumeralIsRead(white: Bytes, n: Numeral, after: Bytes)
    requires AllWhite(white) && WellFormed(n) && Ends(n, after) && |Text(n)| <= MAX_NUMERAL
    ensures NumberMeans(white + Text(n) + after, after, Some(Text(n)))
  {
    hide ScanNumeral;
    var text := Text(n) + after;
    NumeralIsAccepted(n, after);
    NumeralStart(n);
    hide WellFormed, Text, Ends;
    WhiteThenOther(white, text);
    Associate(white, Text(n), after);
    assert (white + text)[|white|..] == text;
  }

  lemma NumeralStart(n: Numeral)
    requires WellFormed(n)
    ensures Text(n) != [] && !IsWhite(Text(n)[0])
  {
    hide ExponentText;
    if n.sign != [] {
      assert Text(n)[0] == n.sign[0];
    } else if n.hex != [] {
      assert Text(n)[0] == n.hex[0];
    } else {
      MantissaBytes(n, 0);
      assert Text(n)[0] == MantissaText(n)[0];
    }
  }

  lemma {:induction false} WhiteThenOther(white: Bytes, text: Bytes)
    requires AllWhite(white) && text != [] && !IsWhite(text[0])
    ensures WhiteLength(white + text) == |white|
  {
    if white == [] {
      assert white + text == text;
    } else {
      WhiteThenOther(white[1..], text);
      assert (white + text)[1..] == white[1..] + text;
    }
  }

  lemma CountOf(n: nat, before: Bytes, after: Bytes, got: Bytes)
    requires 0 < n && |got| <= n && |got| <= |before| && got == before[..|got|] && after == before[|got|..]
        && (|got| < n ==> after == [])
    ensures CountMeans(n, before, after, if got == [] then None else Some(got))
  {
    assert |got| == if n <= |before| then n else |before|;
  }

  /** Reporting a failure of the operating system pays for the message, which may be refused. */
  method Failure() returns (e: Error)
    ensures e in {IoFailed, Budget}
  {
    e := IoFailed;
    if * { e := Budget; }
  }

  class Lease {
    var kind: Kind
    // The raw file, and the log of what it took.
    var content: Bytes
    var pos: nat
    var delivered: Bytes
    // The lease's own fields.
    const unread: array<Byte>
    var unreadLen: nat
    var buffer: Bytes
    var capacity: nat
    var mode: BufferMode
    /** Every byte a write has accepted, in order. */
    ghost var taken: Bytes

    ghost predicate Shaped()
      reads this
    {
      unread.Length == 3 && unreadLen <= 3
    }

    /** Between calls at most one byte is pushed back, and nothing taken is lost or reordered. */
    ghost predicate Valid()
      reads this
    {
      && Shaped()
      && unreadLen <= 1
      && |buffer| <= capacity
      && delivered + buffer == taken
    }

    /** The logical stream. */
    ghost function Stream(): Bytes
      reads this, unread
      requires Shaped()
    {
      unread[..unreadLen] + RawRest(content, pos)
    }

    /** The logical position. */
    ghost function Position(): int
      reads this
    {
      pos - unreadLen
    }

    /** The logical stream is the file's content from the logical position on. */
    ghost predicate InStep()
      reads this, unread
      requires Shaped()
    {
      0 <= Position() && Stream() == RawRest(content, Position())
    }

    /** `k` bytes after the stream `s0` at position `p0`. */
    ghost predicate At(s0: Bytes, p0: int, k: nat)
      reads this, unread
      requires Shaped()
    {
      k <= |s0| && Stream() == s0[k..] && Position() == p0 + k
    }

    ghost predicate Within(s0: Bytes, p0: int)
      reads this, unread
      requires Shaped()
    {
      p0 <= Position() && At(s0, p0, Position() - p0)
    }

    constructor (kind: Kind, content: Bytes)
      ensures Valid() && InStep() && Position() == 0 && Stream() == content && delivered == []
      ensures fresh(unread)
    {
      this.kind, this.content, pos, delivered := kind, content, 0, [];
      unread := new Byte[3](_ => '\0');
      unreadLen, buffer, capacity, mode, taken := 0, [], 0, Unbuffered, [];
    }

    // Pushing back and reading.

    method PutBack(byte: Byte) returns (r: Result<()>)
      requires Shaped()
      modifies this`unreadLen, unread
      ensures Shaped()
      ensures r.Failed? <==> old(unreadLen) == 3
      ensures r.Failed? ==> r.error == PlatformDifference && unreadLen == old(unreadLen) && Stream() == old(Stream())
      ensures r.Done? ==>
                unreadLen == old(unreadLen) + 1 && Stream() == [byte] + old(Stream())
                    && Position() == old(Position()) - 1
    {
      if unreadLen == unread.Length {
        return Failed(PlatformDifference);
      }
      ghost var pushed := unread[..unreadLen];
      forall i | 1 <= i <= unreadLen { unread[i] := unread[i - 1]; }
      unread[0] := byte;
      unreadLen := unreadLen + 1;
      assert unread[..unreadLen] == [byte] + pushed;
      return Done(());
    }

    /** Takes the first pushed-back byte. */
    method TakeUnread() returns (byte: Byte)
      requires Shaped() && unreadLen != 0
      modifies this`unreadLen, unread
      ensures Shaped() && unreadLen == old(unreadLen) - 1
      ensures old(Stream()) == [byte] + Stream() && Position() == old(Position()) + 1
    {
      ghost var pushed := unread[..unreadLen];
      byte := unread[0];
      forall i | 0 <= i < unreadLen - 1 { unread[i] := unread[i + 1]; }
      unreadLen := unreadLen - 1;
      assert pushed == [byte] + unread[..unreadLen];
    }

    /** The operating system's read: 0 bytes exactly at the end, otherwise any prefix. */
    method RawRead(amount: nat) returns (r: Result<Bytes>)
      requires Shaped() && unreadLen == 0 && 0 < amount
      modifies this`pos
      ensures r.Failed? ==> r.error == IoFailed && pos == old(pos)
      ensures r.Done? ==> |r.value| <= amount && At(old(Stream()), old(Position()), |r.value|)
      ensures r.Done? ==> r.value == old(Stream())[..|r.value|] && (r.value == [] ==> old(Stream()) == [])
    {
      var fails := *;
      if !Readable(kind) || fails {
        return Failed(IoFailed);
      }
      var rest := RawRest(content, pos);
      if rest == [] {
        return Done([]);
      }
      var n: nat :| 1 <= n <= amount && n <= |rest|;
      pos := pos + n;
      return Done(rest[..n]);
    }

    method ReadOne() returns (r: Result<Option<Byte>>)
      requires Shaped()
      modifies this`pos, this`unreadLen, unread
      ensures Shaped() && unreadLen <= old(unreadLen) && (r.Done? && old(unreadLen) <= 1 ==> unreadLen == 0)
      ensures r.Failed? ==> r.error == IoFailed && Stream() == old(Stream()) && Position() == old(Position())
      ensures r.Done? && r.value.None? ==> old(Stream()) == [] && Stream() == [] && Position() == old(Position())
      ensures r.Done? && r.value.Some? ==>
                && old(Stream()) != [] && r.value.value == old(Stream())[0]
                && At(old(Stream()), old(Position()), 1)
    {
      if unreadLen != 0 {
        var byte := TakeUnread();
        return Done(Some(byte));
      }
      var got :- RawRead(1);
      return Done(if got == [] then None else Some(got[0]));
    }

    method Next() returns (r: Result<Option<Byte>>)
      requires Shaped()
      modifies this`pos, this`unreadLen, unread
      ensures Shaped() && unreadLen <= old(unreadLen) && (r.Done? && old(unreadLen) <= 1 ==> unreadLen == 0)
      ensures r.Failed? ==> r.error in {IoFailed, Budget} && Stream() == old(Stream()) && Position() == old(Position())
      ensures r.Done? && r.value.None? ==> old(Stream()) == [] && Stream() == [] && Position() == old(Position())
      ensures r.Done? && r.value.Some? ==>
                && old(Stream()) != [] && r.value.value == old(Stream())[0]
                && At(old(Stream()), old(Position()), 1)
    {
      if * { return Failed(Budget); }
      r := ReadOne();
      if r.Failed? {
        var e := Failure();
        r := Failed(e);
      }
    }

    method ReadChunk(amount: nat) returns (r: Result<Bytes>)
      requires Shaped() && 0 < amount
      modifies this`pos, this`unreadLen, unread
      ensures Shaped() && unreadLen <= old(unreadLen)
      ensures r.Failed? ==> r.error == IoFailed && Stream() == old(Stream()) && Position() == old(Position())
      ensures r.Done? ==> |r.value| <= amount && At(old(Stream()), old(Position()), |r.value|)
      ensures r.Done? ==> r.value == old(Stream())[..|r.value|] && (r.value == [] ==> old(Stream()) == [])
    {
      if unreadLen != 0 {
        var byte := TakeUnread();
        return Done([byte]);
      }
      r := RawRead(amount);
    }

    // Reading a number. `s` is the logical stream at the start and `k` counts what is gone.

    method NextAt(ghost s: Bytes, ghost p: int, ghost k: nat) returns (r: Result<Option<Byte>>)
      requires Shaped() && unreadLen <= 1 && At(s, p, k)
      modifies this`pos, this`unreadLen, unread
      ensures Shaped() && unreadLen <= 1 && Within(s, p)
      ensures r.Failed? ==> r.error in {IoFailed, Budget}
      ensures r.Done? ==> unreadLen == 0
      ensures r.Done? && r.value.None? ==> k == |s| && At(s, p, k)
      ensures r.Done? && r.value.Some? ==> k < |s| && r.value.value == s[k] && At(s, p, k + 1)
    {
      hide Stream, Position;
      r := Next();
    }

    /** Pushes back the byte that was read last: this is never refused. */
    method ReturnByte(byte: Byte, ghost s: Bytes, ghost p: int, ghost k: nat)
      requires Shaped() && unreadLen == 0 && At(s, p, k + 1) && byte == s[k]
      modifies this`pos, this`unreadLen, unread
      ensures Shaped() && unreadLen <= 1 && At(s, p, k) && Within(s, p)
    {
      hide Stream, Position;
      var put := PutBack(byte);
      assert put.Done?;
      assert s[k..] == [s[k]] + s[k + 1..];
    }

    /** The first byte that is not white space, already taken from the stream. */
    method SkipWhite(ghost s: Bytes, ghost p: int) returns (r: Result<Option<Byte>>)
      requires Shaped() && unreadLen <= 1 && At(s, p, 0)
      modifies this`pos, this`unreadLen, unread
      ensures Shaped() && unreadLen <= 1 && Within(s, p)
      ensures r.Failed? ==> r.error in {IoFailed, Budget}
      ensures r.Done? ==> unreadLen == 0
      ensures r.Done? ==>
                var w := WhiteEnd(s, 0);
                if r.value.None? then w == |s| && At(s, p, w) else w < |s| && r.value.value == s[w] && At(s, p, w + 1)
    {
      hide Stream, Position, WhiteEnd, At, Within, IsWhite;
      AtIsWithin(s, p, 0);
      ghost var k: nat := 0;
      while true
        invariant Shaped() && unreadLen <= 1 && k <= |s| && Within(s, p)
        invariant At(s, p, k) && WhiteEnd(s, 0) == WhiteEnd(s, k)
        decreases |s| - k
      {
        WhiteEndStep(s, k);
        var byte :- NextAt(s, p, k);
        if byte.None? || !IsWhite(byte.value) {
          return Done(byte);
        }
        k := k + 1;
        if * { return Failed(Budget); }
      }
    }

    lemma AtIsWithin(s: Bytes, p: int, k: nat)
      requires Shaped() && At(s, p, k)
      ensures Within(s, p) && k <= |s|
    {
    }

    /** The digits of an exponent, from `k` on. */
    method ReadDigits(kept0: Kept, ghost s: Bytes, ghost p: int, ghost w: nat, ghost k0: nat) returns (r: Result<Kept>)
      requires Shaped() && unreadLen <= 1 && At(s, p, k0) && kept0.HoldsRange(s, w, k0)
      modifies this`pos, this`unreadLen, unread
      ensures Shaped() && unreadLen <= 1 && Within(s, p)
      ensures r.Failed? ==> r.error in {IoFailed, Budget}
      ensures r.Done? ==> At(s, p, DigitEnd(s, k0)) && r.value.HoldsRange(s, w, DigitEnd(s, k0))
    {
      hide Stream, Position, DigitEnd, At, Within, IsDigit, Kept.HoldsRange, Kept.Push, Kept.Finish;
      AtIsWithin(s, p, k0);
      var kept := kept0;
      ghost var k := k0;
      while true
        invariant Shaped() && unreadLen <= 1 && k <= |s| && Within(s, p)
        invariant At(s, p, k) && kept.HoldsRange(s, w, k) && DigitEnd(s, k0) == DigitEnd(s, k)
        decreases |s| - k
      {
        DigitEndStep(s, k);
        var byte :- NextAt(s, p, k);
        if byte.None? { break; }
        if !IsDigit(byte.value) {
          ReturnByte(byte.value, s, p, k);
          break;
        }
        PushKeeps(kept, s, w, k);
        kept :- kept.Push(byte.value);
        k := k + 1;
      }
      return Done(kept);
    }

    /** What follows the exponent mark at `k`, which has been read but not kept. */
    method ReadExponent(mark: Byte, hex: bool, digits: nat, kept0: Kept, ghost s: Bytes, ghost p: int, ghost w: nat,
        ghost k: nat)
      returns (r: Result<(Kept, bool)>)
      requires Shaped() && unreadLen == 0 && At(s, p, k + 1) && kept0.HoldsRange(s, w, k)
      requires mark == s[k] && IsExponentMark(mark, hex) && 0 < digits
      modifies this`pos, this`unreadLen, unread
      ensures Shaped() && unreadLen <= 1 && Within(s, p)
      ensures r.Failed? ==> r.error in {IoFailed, Budget}
      ensures r.Done? ==>
                var scan := ExponentAt(s, k, hex, digits);
                At(s, p, scan.length) && r.value.0.HoldsRange(s, w, scan.length) && r.value.1 == scan.accepted
    {
      hide Stream, Position, At, Within, DigitEnd, ExponentAt, IsDigit, IsExponentMark, Kept.HoldsRange, Kept.Push,
          Kept.Finish;
      AtIsWithin(s, p, k + 1);
      ExponentAtCases(s, k, hex, digits);
      var next :- NextAt(s, p, k + 1);
      var sign: Option<Byte>, digit := None, next;
      if next.Some? && IsSign(next.value) {
        sign := next;
        digit :- NextAt(s, p, k + 2);
      }
      ghost var j := SignEnd(s, k + 1);
      DigitEndStep(s, j);
      var isDigit := digit.Some? && IsDigit(digit.value);
      if digit.Some? && !isDigit {
        ReturnByte(digit.value, s, p, j);
      }
      PushKeeps(kept0, s, w, k);
      var kept :- kept0.Push(mark);
      if sign.Some? {
        PushKeeps(kept, s, w, k + 1);
        kept :- kept.Push(sign.value);
      }
      if isDigit {
        PushKeeps(kept, s, w, j);
        kept :- kept.Push(digit.value);
        kept :- ReadDigits(kept, s, p, w, j + 1);
        DigitEndStep(s, j + 1);
      }
      return Done((kept, isDigit));
    }

    /** Mantissa and exponent from `k0` on; the flag says whether they were accepted. */
    method ReadBody(hex: bool, digits0: nat, kept0: Kept, ghost s: Bytes, ghost p: int, ghost w: nat, ghost k0: nat)
      returns (r: Result<(Kept, bool)>)
      requires Shaped() && unreadLen <= 1 && At(s, p, k0) && kept0.HoldsRange(s, w, k0)
      modifies this`pos, this`unreadLen, unread
      ensures Shaped() && unreadLen <= 1 && Within(s, p)
      ensures r.Failed? ==> r.error in {IoFailed, Budget}
      ensures r.Done? ==>
                var scan := BodyAt(s, k0, hex, false, digits0);
                At(s, p, scan.length) && r.value.0.HoldsRange(s, w, scan.length) && r.value.1 == scan.accepted
    {
      hide Stream, Position, At, Within, BodyAt, ExponentAt, IsMantissaDigit, IsExponentMark, Kept.HoldsRange,
          Kept.Push, Kept.Finish;
      AtIsWithin(s, p, k0);
      var kept, digits, dot := kept0, digits0, false;
      ghost var k := k0;
      while true
        invariant Shaped() && unreadLen <= 1 && k <= |s| && Within(s, p)
        invariant At(s, p, k) && kept.HoldsRange(s, w, k)
        invariant BodyAt(s, k0, hex, false, digits0) == BodyAt(s, k, hex, dot, digits)
        decreases |s| - k
      {
        BodyAtStep(s, k, hex, dot, digits);
        var byte :- NextAt(s, p, k);
        if byte.None? {
          return Done((kept, 0 < digits));
        }
        if IsMantissaDigit(byte.value, hex) {
          digits := digits + 1;
        } else if byte.value == '.' && !dot {
          dot := true;
        } else if 0 < digits && IsExponentMark(byte.value, hex) {
          r := ReadExponent(byte.value, hex, digits, kept, s, p, w, k);
          return;
        } else {
          ExponentAtCases(s, k, hex, digits);
          ReturnByte(byte.value, s, p, k);
          return Done((kept, 0 < digits));
        }
        PushKeeps(kept, s, w, k);
        kept :- kept.Push(byte.value);
        k := k + 1;
      }
    }

    /** A numeral without a sign, from `k` on; its first byte has been read already. */
    method ReadUnsigned(first: Byte, kept0: Kept, ghost s: Bytes, ghost p: int, ghost w: nat, ghost k: nat)
      returns (r: Result<(Kept, bool)>)
      requires Shaped() && unreadLen == 0 && At(s, p, k + 1) && first == s[k] && kept0.HoldsRange(s, w, k)
      modifies this`pos, this`unreadLen, unread
      ensures Shaped() && unreadLen <= 1 && Within(s, p)
      ensures r.Failed? ==> r.error in {IoFailed, Budget}
      ensures r.Done? ==>
                var scan := UnsignedAt(s, k);
                At(s, p, scan.length) && r.value.0.HoldsRange(s, w, scan.length) && r.value.1 == scan.accepted
    {
      hide Stream, Position, At, Within, BodyAt, UnsignedAt, Kept.HoldsRange, Kept.Push, Kept.Finish;
      AtIsWithin(s, p, k + 1);
      UnsignedAtCases(s, k);
      if first != '0' {
        ReturnByte(first, s, p, k);
        r := ReadBody(false, 0, kept0, s, p, w, k);
        return;
      }
      PushKeeps(kept0, s, w, k);
      var kept :- kept0.Push(first);
      var next :- NextAt(s, p, k + 1);
      if next.Some? && IsHexMark(next.value) {
        PushKeeps(kept, s, w, k + 1);
        kept :- kept.Push(next.value);
        r := ReadBody(true, 0, kept, s, p, w, k + 2);
        return;
      }
      if next.Some? {
        ReturnByte(next.value, s, p, k + 1);
      }
      r := ReadBody(false, 1, kept, s, p, w, k + 1);
    }

    /** A numeral from `w` on; its first byte has been read already. */
    method ReadSigned(first0: Byte, ghost s: Bytes, ghost p: int, ghost w: nat) returns (r: Result<Option<Bytes>>)
      requires Shaped() && unreadLen == 0 && At(s, p, w + 1) && first0 == s[w]
      modifies this`pos, this`unreadLen, unread
      ensures Shaped() && unreadLen <= 1 && Within(s, p)
      ensures r.Failed? ==> r.error in {IoFailed, Budget}
      ensures r.Done? ==>
                var scan := NumeralAt(s, w);
                && w <= scan.length <= |s| && At(s, p, scan.length)
                && r.value == if scan.accepted && scan.length - w <= MAX_NUMERAL then Some(s[w..scan.length]) else None
    {
      hide Stream, Position, At, Within, BodyAt, UnsignedAt, NumeralAt, Kept.HoldsRange, Kept.Push, Kept.Finish;
      AtIsWithin(s, p, w + 1);
      var first, kept := first0, Kept([], 0, false);
      NothingHeld(s, w);
      NumeralAtSign(s, w);
      if IsSign(first) {
        PushKeeps(kept, s, w, w);
        kept := kept.Push(first).Extract();
        var next :- NextAt(s, p, w + 1);
        if next.None? {
          UnsignedAtCases(s, w + 1);
          BodyAtStep(s, w + 1, false, false, 0);
          return Done(None);
        }
        first := next.value;
      }
      var body :- ReadUnsigned(first, kept, s, p, w, SignEnd(s, w));
      ghost var end := NumeralAt(s, w).length;
      FinishReturns(body.0, body.1, s, w, end);
      return Done(body.0.Finish(body.1));
    }

    /**
     * `read_number`, with the false result and its cleared buffer as `None`. No push-back is
     * refused, and the bytes returned are those taken after the white space.
     */
    method ReadNumber() returns (r: Result<Option<Bytes>>)
      requires Shaped() && unreadLen <= 1
      modifies this`pos, this`unreadLen, unread
      ensures Shaped() && unreadLen <= 1
      ensures Within(old(Stream()), old(Position()))
      ensures r.Failed? ==> r.error in {IoFailed, Budget}
      ensures r.Done? ==> NumberMeans(old(Stream()), Stream(), r.value)
    {
      ghost var s, p := Stream(), Position();
      assert At(s, p, 0);
      hide Stream, Position, WhiteEnd, NumeralAt, NumberMeans;
      ghost var w := WhiteEnd(s, 0);
      var found :- SkipWhite(s, p);
      if found.None? {
        NothingAtEnd(s);
        NumberByPosition(s, Stream(), None);
        return Done(None);
      }
      r := ReadSigned(found.value, s, p, w);
      if r.Done? {
        NumberByPosition(s, Stream(), r.value);
      }
    }

    // The other read formats.

    /** The loop of the counted and the complete read: up to `limit` bytes, fewer only at the end. */
    method ReadUpTo(limit: nat) returns (r: Result<Bytes>)
      requires Shaped() && unreadLen <= 1
      modifies this`pos, this`unreadLen, unread
      ensures Shaped() && unreadLen <= 1
      ensures Within(old(Stream()), old(Position()))
      ensures r.Failed? ==> r.error in {IoFailed, Budget}
      ensures r.Done? ==>
                && |r.value| <= limit && |r.value| <= |old(Stream())|
                && r.value == old(Stream())[..|r.value|] && Stream() == old(Stream())[|r.value|..]
                && (|r.value| < limit ==> Stream() == [])
    {
      hide Stream, Position;
      var result: Bytes := [];
      ghost var s0, p0 := Stream(), Position();
      while |result| < limit
        invariant Shaped() && unreadLen <= 1
        invariant |result| <= limit && At(s0, p0, |result|) && result == s0[..|result|]
      {
        var amount := if limit - |result| < CHUNK then limit - |result| else CHUNK;
        if * { return Failed(Budget); }
        var got := ReadChunk(amount);
        if got.Failed? {
          var e := Failure();
          return Failed(e);
        }
        var chunk := got.value;
        if chunk == [] { break; }
        AtAgain(s0, s0[|result|..], Stream(), |result|, |chunk|);
        SuffixOfSuffix(s0, |result|, |chunk|);
        result := result + chunk;
      }
      return Done(result);
    }

    method ReadLine(keepNewline: bool) returns (r: Result<Option<Bytes>>)
      requires Shaped() && unreadLen <= 1
      modifies this`pos, this`unreadLen, unread
      ensures Shaped() && unreadLen <= 1
      ensures Within(old(Stream()), old(Position()))
      ensures r.Failed? ==> r.error in {IoFailed, Budget}
      ensures r.Done? ==> LineMeans(keepNewline, old(Stream()), Stream(), r.value)
    {
      hide Stream, Position;
      var result: Bytes, sawInput := [], false;
      ghost var s0, p0 := Stream(), Position();
      assert s0[..0] == [];
      while |result| < MAX_READ
        invariant Shaped() && unreadLen <= 1
        invariant At(s0, p0, |result|) && result == s0[..|result|] && '\n' !in result
        invariant |result| <= MAX_READ && sawInput == (result != [])
      {
        ghost var k := |result|;
        var byte :- Next();
        if byte.None? { break; }
        AtAgain(s0, s0[k..], Stream(), k, 1);
        assert s0[..k + 1] == s0[..k] + [byte.value];
        sawInput := true;
        if byte.value == '\n' {
          assert s0 == result + ['\n'] + Stream();
          assert s0 != result;
          if keepNewline { result := result + [byte.value]; }
          if |result| == MAX_READ { return Failed(Budget); }
          return Done(Some(result));
        }
        result := result + [byte.value];
      }
      if |result| == MAX_READ { return Failed(Budget); }
      assert s0 == result;
      return Done(if sawInput then Some(result) else None);
    }

    /** A counted read of nothing only looks for the end. */
    method Peek() returns (r: Result<Option<Bytes>>)
      requires Shaped() && unreadLen <= 1
      modifies this`pos, this`unreadLen, unread
      ensures Shaped() && unreadLen <= 1
      ensures Within(old(Stream()), old(Position()))
      ensures r.Failed? ==> r.error in {IoFailed, Budget}
      ensures r.Done? ==> CountMeans(0, old(Stream()), Stream(), r.value)
    {
      hide Stream, Position;
      var byte :- Next();
      if byte.None? { return Done(None); }
      var put := PutBack(byte.value);
      assert put.Done?;
      return Done(Some([]));
    }

    method ReadCount(n: nat) returns (r: Result<Option<Bytes>>)
      requires Shaped() && unreadLen <= 1 && 0 < n
      modifies this`pos, this`unreadLen, unread
      ensures Shaped() && unreadLen <= 1
      ensures Within(old(Stream()), old(Position()))
      ensures r.Failed? ==> r.error in {IoFailed, Budget}
      ensures r.Done? ==> CountMeans(n, old(Stream()), Stream(), r.value)
    {
      hide Stream, Position, Within, CountMeans;
      ghost var s0 := Stream();
      var got :- ReadUpTo(n);
      CountOf(n, s0, Stream(), got);
      return Done(if got == [] then None else Some(got));
    }

    method ReadAll() returns (r: Result<Option<Bytes>>)
      requires Shaped() && unreadLen <= 1
      modifies this`pos, this`unreadLen, unread
      ensures Shaped() && unreadLen <= 1
      ensures Within(old(Stream()), old(Position()))
      ensures r.Failed? ==> r.error in {IoFailed, Budget}
      ensures r.Done? ==> AllMeans(old(Stream()), Stream(), r.value)
    {
      hide Stream, Position;
      ghost var s0, p0 := Stream(), Position();
      var got :- ReadUpTo(MAX_READ);
      if |got| == MAX_READ {
        ghost var s1 := Stream();
        var more := Next();
        if more.Failed? { return Failed(more.error); }
        if more.value.Some? {
          AtAgain(s0, s1, Stream(), |got|, 1);
          return Failed(Budget);
        }
      }
      assert |got| == |s0|;
      assert got == s0;
      return Done(Some(got));
    }

    method Read(format: Format) returns (r: Result<Option<Bytes>>)
      requires Valid()
      modifies this`pos, this`unreadLen, unread
      ensures Valid()
      ensures Within(old(Stream()), old(Position()))
      ensures old(InStep()) ==> InStep()
      ensures r.Failed? ==> r.error in {IoFailed, Budget}
      ensures r.Done? ==> ReadMeans(format, old(Stream()), Stream(), r.value)
    {
      ghost var s0, p0, c0 := Stream(), Position(), content;
      r := ReadFormat(format);
      if 0 <= p0 && s0 == RawRest(c0, p0) {
        RestOfRest(c0, p0, Position() - p0);
      }
    }

    method ReadFormat(format: Format) returns (r: Result<Option<Bytes>>)
      requires Valid()
      modifies this`pos, this`unreadLen, unread
      ensures Valid()
      ensures Within(old(Stream()), old(Position()))
      ensures r.Failed? ==> r.error in {IoFailed, Budget}
      ensures r.Done? ==> ReadMeans(format, old(Stream()), Stream(), r.value)
    {
      hide Stream, Position, CountMeans, LineMeans, AllMeans, NumberMeans;
      if format.Count? && MAX_READ < format.n {
        return Failed(Budget);
      }
      if * { return Failed(Budget); }
      match format {
        case Count(n) =>
          if n == 0 { r := Peek(); } else { r := ReadCount(n); }
        case Line(keep) => r := ReadLine(keep);
        case All => r := ReadAll();
        case Number => r := ReadNumber();
      }
    }

    // Writing.

    /** The operating system's write: takes any prefix, or fails. */
    method RawWrite(bytes: Bytes) returns (r: Result<nat>)
      modifies this`content, this`pos, this`delivered
      ensures r.Failed? ==> r.error == IoFailed && delivered == old(delivered)
      ensures r.Done? ==> r.value <= |bytes| && delivered == old(delivered) + bytes[..r.value]
    {
      var fails := *;
      if !Writable(kind) || fails {
        return Failed(IoFailed);
      }
      var n: nat :| n <= |bytes|;
      delivered := delivered + bytes[..n];
      if kind == File {
        content, pos := *, *;
      }
      return Done(n);
    }

    method FlushBuffer() returns (r: Result<()>)
      modifies this`content, this`pos, this`delivered, this`buffer
      ensures delivered + buffer == old(delivered + buffer)
      ensures |buffer| <= old(|buffer|)
      ensures r.Done? ==> buffer == []
      ensures r.Failed? ==> r.error == IoFailed && buffer != []
      ensures old(buffer) == [] ==> content == old(content) && pos == old(pos)
    {
      var bytes, written := buffer, 0;
      buffer := [];
      while written < |bytes|
        invariant written <= |bytes|
        invariant buffer == [] && delivered + bytes[written..] == old(delivered + buffer)
        invariant bytes == [] ==> content == old(content) && pos == old(pos)
      {
        ghost var rest := bytes[written..];
        var n := RawWrite(bytes[written..]);
        if n.Failed? || n.value == 0 {
          buffer := bytes[written..];
          return Failed(IoFailed);
        }
        assert rest[..n.value] + rest[n.value..] == rest;
        assert bytes[written + n.value..] == rest[n.value..];
        written := written + n.value;
      }
      assert bytes[written..] == buffer;
      return Done(());
    }

    /** What a mode may keep in the buffer: everything, or text without the end of a line. */
    static predicate Keeps(mode: BufferMode, bytes: Bytes) {
      mode == Full || (mode == LineWise && '\n' !in bytes)
    }

    /**
     * Exactly the first `count` bytes are taken: all of them on success, and as many as a
     * failed direct write reports. A buffered write whose flush fails has taken everything. A
     * successful write leaves in the buffer only what its mode keeps and what has room there.
     */
    method Write(bytes: Bytes) returns (r: Result<nat>, ghost count: nat)
      requires Valid()
      modifies this`content, this`pos, this`delivered, this`buffer, this`taken
      ensures Valid()
      ensures count <= |bytes| && taken == old(taken) + bytes[..count]
      ensures r.Done? ==> r.value == count == |bytes|
      ensures r.Failed? && r.error.WriteFailed? ==> r.error.written == count < |bytes|
      ensures r.Failed? && r.error == IoFailed ==>
                count == if mode != Unbuffered && old(|buffer|) + |bytes| <= capacity then |bytes| else 0
      ensures r.Done? ==>
                if Keeps(mode, bytes) && old(|buffer|) + |bytes| <= capacity then
                  buffer == old(buffer) + bytes && delivered == old(delivered)
                else buffer == [] && delivered == taken
    {
      count := 0;
      assert bytes[..0] == [];
      if * { return Failed(Budget), 0; }
      var flushNow := match mode case Unbuffered => true case Full => false case LineWise => '\n' in bytes;
      if mode != Unbuffered && |bytes| <= capacity - |buffer| {
        assert delivered + (buffer + bytes) == taken + bytes;
        buffer, taken, count := buffer + bytes, taken + bytes, |bytes|;
        if flushNow {
          var _ := FlushBuffer();
          if buffer != [] {
            var e := Failure();
            return Failed(e), count;
          }
        }
        return Done(|bytes|), count;
      }
      var flushed := FlushBuffer();
      if flushed.Failed? {
        var e := Failure();
        return Failed(e), 0;
      }
      var written := 0;
      ghost var taken0 := taken;
      assert delivered == taken by { assert delivered + [] == delivered; }
      while written < |bytes|
        invariant written <= |bytes| && count == written && buffer == []
        invariant taken == delivered == taken0 + bytes[..written]
      {
        var n := RawWrite(bytes[written..]);
        if n.Failed? || n.value == 0 {
          assert delivered + [] == delivered;
          if * { return Failed(Budget), count; }
          return Failed(WriteFailed(written)), count;
        }
        PrefixGrows(taken0, bytes, written, n.value);
        written := written + n.value;
        taken, count := delivered, written;
      }
      assert delivered + [] == delivered;
      return Done(written), count;
    }

    method Flush() returns (r: Result<()>)
      requires Valid()
      modifies this`content, this`pos, this`delivered, this`buffer
      ensures Valid()
      ensures r.Done? ==> buffer == [] && delivered == taken && Writable(kind)
      ensures r.Failed? && r.error == Denied ==> !Writable(kind) && buffer == []
    {
      if * { return Failed(Budget); }
      r := FlushBuffer();
      if r.Done? {
        assert delivered + [] == delivered;
        if !Writable(kind) { return Failed(Denied); }
        var fails := *;
        if !fails { return Done(()); }
      }
      var e := Failure();
      r := Failed(e);
    }

    /** Reserving never shrinks the buffer, and only this call changes its capacity. */
    method SetVBuf(name: Bytes, size: nat) returns (r: Result<()>)
      requires Valid()
      modifies this`content, this`pos, this`delivered, this`buffer, this`capacity, this`mode
      ensures Valid()
      ensures old(capacity) <= capacity
      ensures r.Done? ==> delivered == taken && name in {"no", "full", "line"}
      ensures r.Done? && name == "no" ==> mode == Unbuffered && capacity == old(capacity)
      ensures r.Done? && name != "no" ==> mode == (if name == "full" then Full else LineWise) && size <= capacity
      ensures r.Failed? ==> mode == old(mode)
    {
      if * { return Failed(Budget); }
      var flushed := FlushBuffer();
      if flushed.Failed? {
        var e := Failure();
        return Failed(e);
      }
      assert delivered + [] == delivered;
      if name !in {"no", "full", "line"} { return Failed(Denied); }
      if name != "no" {
        if * { return Failed(Budget); }
        if capacity < size {
          var reserved: nat :| size <= reserved;
          capacity := reserved;
        }
        if * { return Failed(Budget); }
      }
      mode := if name == "no" then Unbuffered else if name == "full" then Full else LineWise;
      return Done(());
    }

    // Seeking.

    /** The operating system's seek: refuses positions before the start, and may fail. */
    method RawSeek(target: int) returns (r: Result<nat>)
      modifies this`pos
      ensures r.Failed? ==> r.error == IoFailed && pos == old(pos)
      ensures r.Done? ==> r.value == pos == target
    {
      var fails := *;
      if target < 0 || fails { return Failed(IoFailed); }
      pos := target;
      return Done(pos);
    }

    /**
     * A relative seek moves the logical position by exactly the offset, `base` being the raw
     * position after the flush. A seek that fails after the flush keeps the pushed-back byte.
     */
    method Seek(origin: Origin, offset: int) returns (r: Result<nat>, ghost base: nat)
      requires Valid()
      modifies this`content, this`pos, this`delivered, this`buffer, this`unreadLen
      ensures Valid()
      ensures old(buffer) == [] ==> content == old(content) && base == old(pos)
      ensures r.Done? ==> InStep() && Position() == r.value && buffer == [] && delivered == taken
      ensures r.Done? ==>
                kind == File &&
                r.value == match origin {
                             case Set => offset
                             case Current => base - old(unreadLen) + offset
                             case End => |content| + offset
                           }
      ensures r.Failed? ==> unreadLen == old(unreadLen) && pos == base
      ensures r.Failed? && old(buffer) == [] ==> Stream() == old(Stream())
      ensures r.Failed? && r.error == Denied ==> Unseekable(kind, origin, offset, old(unreadLen))
      ensures Unseekable(kind, origin, offset, old(unreadLen)) ==> r.Failed?
    {
      base := pos;
      if * { return Failed(Budget), pos; }
      var flushed := FlushBuffer();
      base := pos;
      if flushed.Failed? {
        var e := Failure();
        return Failed(e), pos;
      }
      assert delivered + [] == delivered;
      if origin == Set && offset < 0 { return Failed(Denied), pos; }
      if origin == Current && offset - unreadLen < I64_MIN { return Failed(Denied), pos; }
      if kind != File { return Failed(Denied), pos; }
      var target := match origin
        case Set => offset
        case Current => pos + (offset - unreadLen)
        case End => |content| + offset;
      r := RawSeek(target);
      if r.Done? {
        unreadLen := 0;
        assert unread[..0] == [];
      } else {
        var e := Failure();
        r := Failed(e);
      }
    }
  }
}
