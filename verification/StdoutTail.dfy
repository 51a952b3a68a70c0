/** Truncating captured output to its last 2048 bytes without splitting a UTF-8 character. */
module StdoutTail {
  import opened Json

  type Byte = bv8
  const TAIL_BYTES := 2048

  // ---- The UTF-8 grammar (section 4 of RFC 3629) ----

  predicate Tail(b: Byte) {
    0x80 <= b <= 0xBF
  }

  /** The length of the character encoded at the front of `s`; 0 when there is none. */
  function CharLength(s: seq<Byte>): (n: nat)
    ensures n <= |s| && n <= 4
  {
    if s == [] then 0
    else if s[0] <= 0x7F then 1
    else if |s| >= 2 && 0xC2 <= s[0] <= 0xDF && Tail(s[1]) then 2
    else if |s| >= 3 && ThreeBytes(s[0], s[1]) && Tail(s[2]) then 3
    else if |s| >= 4 && FourBytes(s[0], s[1]) && Tail(s[2]) && Tail(s[3]) then 4
    else 0
  }

  predicate ThreeBytes(a: Byte, b: Byte) {
    || (a == 0xE0 && 0xA0 <= b <= 0xBF)
    || (0xE1 <= a <= 0xEC && Tail(b))
    || (a == 0xED && 0x80 <= b <= 0x9F)
    || (0xEE <= a <= 0xEF && Tail(b))
  }

  predicate FourBytes(a: Byte, b: Byte) {
    || (a == 0xF0 && 0x90 <= b <= 0xBF)
    || (0xF1 <= a <= 0xF3 && Tail(b))
    || (a == 0xF4 && 0x80 <= b <= 0x8F)
  }

  predicate Utf8(s: seq<Byte>) {
    s == [] || (CharLength(s) > 0 && Utf8(s[CharLength(s)..]))
  }

  // ---- Character boundaries ----

  /** The worker's bit test for a continuation byte. */
  predicate Continuation(b: Byte) {
    b & 0xC0 == 0x80
  }

  lemma ContinuationIsTail(b: Byte)
    ensures Continuation(b) <==> Tail(b)
  {}

  /** A character starts with a byte that is no continuation byte, and has only those after it. */
  lemma CharShape(s: seq<Byte>)
    requires CharLength(s) > 0
    ensures !Tail(s[0])
    ensures forall i :: 1 <= i < CharLength(s) ==> Tail(s[i])
  {}

  /** In valid text, the suffix from p is valid exactly when p is not inside a character. */
  lemma {:induction false} SuffixValid(s: seq<Byte>, p: nat)
    requires Utf8(s) && p <= |s|
    ensures Utf8(s[p..]) <==> p == |s| || !Tail(s[p])
    decreases |s|
  {
    if p == 0 {
      assert s[0..] == s;
      if s != [] { CharShape(s); }
    } else {
      var n := CharLength(s);
      CharShape(s);
      if p < n {
        assert s[p..][0] == s[p] && Tail(s[p]);
      } else {
        var rest := s[n..];
        SuffixValid(rest, p - n);
        assert rest[p - n..] == s[p..];
      }
    }
  }

  /** From any position of valid text, a boundary is at most three bytes away. */
  lemma {:induction false} BoundaryNear(s: seq<Byte>, p: nat)
    requires Utf8(s) && p + 3 < |s|
    ensures exists q :: p <= q <= p + 3 && !Tail(s[q])
    decreases |s|
  {
    var n := CharLength(s);
    CharShape(s);
    if p >= n {
      var rest := s[n..];
      BoundaryNear(rest, p - n);
      var q :| p - n <= q <= p - n + 3 && !Tail(rest[q]);
      assert !Tail(s[n + q]);
    } else if p == 0 {
      assert !Tail(s[0]);
    } else {
      var rest := s[n..];
      assert rest != [];
      CharShape(rest);
      assert !Tail(s[n]);
    }
  }

  // ---- The tail ----

  /** The first position from p on whose byte is no continuation byte, or the end. */
  function Align(s: seq<Byte>, p: nat): (q: nat)
    requires p <= |s|
    ensures p <= q <= |s|
    decreases |s| - p
  {
    if p < |s| && Tail(s[p]) then Align(s, p + 1) else p
  }

  lemma {:induction false} AlignMeans(s: seq<Byte>, p: nat)
    requires p <= |s|
    ensures Align(s, p) < |s| ==> !Tail(s[Align(s, p)])
    ensures forall i :: p <= i < Align(s, p) ==> Tail(s[i])
    decreases |s| - p
  {
    hide Tail;
    if p < |s| && Tail(s[p]) { AlignMeans(s, p + 1); }
  }

  function TailOf(file: seq<Byte>): seq<Byte> {
    if |file| <= TAIL_BYTES then file else file[Align(file, |file| - TAIL_BYTES)..]
  }

  lemma AlignSkips(s: seq<Byte>, p: nat)
    requires p < |s| && Continuation(s[p])
    ensures Align(s, p) == Align(s, p + 1)
  {
    ContinuationIsTail(s[p]);
  }

  lemma AlignStops(s: seq<Byte>, p: nat)
    requires p == |s| || (p < |s| && !Continuation(s[p]))
    ensures Align(s, p) == p
  {
    if p < |s| { ContinuationIsTail(s[p]); }
  }

  /** `None` is a capture file that cannot be opened. */
  method ReadStdoutTail(file: Option<seq<Byte>>) returns (tail: seq<Byte>)
    ensures file.None? ==> tail == []
    ensures file.Some? ==> tail == TailOf(file.value)
  {
    hide Tail, Continuation, Align;
    if file.None? {
      return [];
    }
    var fileSize := |file.value|;
    var readSize := if fileSize > TAIL_BYTES then TAIL_BYTES else fileSize;
    ghost var start := fileSize - readSize;
    tail := file.value[fileSize - readSize..];
    if readSize < fileSize {
      var offset := 0;
      while offset < |tail| && Continuation(tail[offset])
        invariant 0 <= offset <= |tail|
        invariant Align(file.value, start) == Align(file.value, start + offset)
      {
        assert tail[offset] == file.value[start + offset];
        AlignSkips(file.value, start + offset);
        offset := offset + 1;
      }
      assert offset < |tail| ==> tail[offset] == file.value[start + offset];
      AlignStops(file.value, start + offset);
      assert tail[offset..] == file.value[start + offset..];
      if offset > 0 {
        tail := tail[offset..];
      }
    }
  }

  /** On any bytes: a suffix, whole when it fits, and never starting inside a character when cut. */
  lemma TailOfBytes(file: seq<Byte>)
    ensures |TailOf(file)| <= 2048
    ensures TailOf(file) == file[|file| - |TailOf(file)|..]
    ensures |file| <= 2048 ==> TailOf(file) == file
    ensures |file| > 2048 && TailOf(file) != [] ==> !Continuation(TailOf(file)[0])
  {
    if |file| > TAIL_BYTES && TailOf(file) != [] {
      AlignMeans(file, |file| - TAIL_BYTES);
      ContinuationIsTail(TailOf(file)[0]);
    }
  }

  /** On valid text: the longest valid suffix that fits, at most three bytes short of the limit. */
  lemma TailOfText(file: seq<Byte>)
    requires Utf8(file)
    ensures Utf8(TailOf(file))
    ensures forall k :: 0 <= k <= |file| && |file| - k <= 2048 && Utf8(file[k..]) ==> |file| - k <= |TailOf(file)|
    ensures |file| > 2048 ==> 2045 <= |TailOf(file)|
  {
    hide Utf8, Tail, CharLength;
    if |file| > TAIL_BYTES {
      var p := |file| - TAIL_BYTES;
      var q := Align(file, p);
      AlignMeans(file, p);
      SuffixValid(file, q);
      BoundaryNear(file, p);
      forall k | 0 <= k <= |file| && |file| - k <= TAIL_BYTES && Utf8(file[k..])
        ensures k >= q
      {
        SuffixValid(file, k);
      }
    }
  }
}
