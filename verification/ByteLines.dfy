/** Bytes and lines of server-sent events, as the tracker and the bridge split
    them. */
module ByteLines {

  type byte = x: int | 0 <= x < 256
  type Bytes = seq<byte>

  const LF: byte := 10
  const CR: byte := 13
  const SPACE: byte := 32
  const COLON: byte := 58
  const DATA: Bytes := [100, 97, 116, 97]

  /** Position of the first line feed, or the length if there is none. */
  function Newline(b: Bytes): (r: nat)
    ensures r <= |b|
    ensures forall i :: 0 <= i < r ==> b[i] != LF
    ensures r < |b| ==> b[r] == LF
  {
    if b == [] || b[0] == LF then 0 else 1 + Newline(b[1..])
  }

  lemma FirstNewline(b: Bytes, r: nat)
    requires r <= |b| && (forall i :: 0 <= i < r ==> b[i] != LF) && (r < |b| ==> b[r] == LF)
    ensures Newline(b) == r
  {
    var n := Newline(b);
    assert !(n < r) && !(r < n);
  }

  /** A line feed found early stays the first one when bytes are appended. */
  lemma NewlineAppend(b: Bytes, d: Bytes)
    ensures Newline(b) < |b| ==> Newline(b + d) == Newline(b)
    ensures Newline(b) == |b| ==> Newline(b + d) == |b| + Newline(d)
  {
    if Newline(b) < |b| {
      FirstNewline(b + d, Newline(b));
    } else {
      FirstNewline(b + d, |b| + Newline(d));
    }
  }

  /** What follows the last line feed. */
  function Tail(b: Bytes): (r: Bytes)
    ensures |r| <= |b|
    ensures Newline(r) == |r|
    decreases |b|
  {
    if Newline(b) < |b| then Tail(b[Newline(b) + 1..]) else b
  }

  predicate HasPrefix(b: Bytes, p: Bytes) { |p| <= |b| && b[..|p|] == p }
  predicate HasSuffix(b: Bytes, p: Bytes) { |p| <= |b| && b[|b| - |p|..] == p }

  function TrimSuffix(b: Bytes, p: Bytes): Bytes { if HasSuffix(b, p) then b[..|b| - |p|] else b }

  predicate IsSpace(x: byte) { x == 32 || 9 <= x <= 13 }

  function TrimLeft(b: Bytes): Bytes { if b != [] && IsSpace(b[0]) then TrimLeft(b[1..]) else b }
  function TrimRight(b: Bytes): Bytes { if b != [] && IsSpace(b[|b| - 1]) then TrimRight(b[..|b| - 1]) else b }
  function TrimSpace(b: Bytes): Bytes { TrimRight(TrimLeft(b)) }

  /** Trimming takes exactly the white space at both ends. */
  lemma {:induction false} TrimmedLeft(b: Bytes) returns (i: nat)
    ensures i <= |b| && TrimLeft(b) == b[i..]
    ensures forall m :: 0 <= m < i ==> b[m] in {9, 10, 11, 12, 13, 32}
    ensures i < |b| ==> b[i] !in {9, 10, 11, 12, 13, 32}
  {
    if b != [] && IsSpace(b[0]) {
      var n := TrimmedLeft(b[1..]);
      i := n + 1;
    } else {
      i := 0;
    }
  }

  lemma {:induction false} TrimmedRight(b: Bytes) returns (j: nat)
    ensures j <= |b| && TrimRight(b) == b[..j]
    ensures forall m :: j <= m < |b| ==> b[m] in {9, 10, 11, 12, 13, 32}
    ensures j > 0 ==> b[j - 1] !in {9, 10, 11, 12, 13, 32}
  {
    j := |b|;
    if b != [] && IsSpace(b[|b| - 1]) {
      j := TrimmedRight(b[..|b| - 1]);
    }
  }

  lemma TrimsSpaceAtBothEnds(b: Bytes) returns (i: nat, j: nat)
    ensures i <= j <= |b| && TrimSpace(b) == b[i..j]
    ensures forall m :: 0 <= m < i || j <= m < |b| ==> b[m] in {9, 10, 11, 12, 13, 32}
    ensures i < j ==> b[i] !in {9, 10, 11, 12, 13, 32} && b[j - 1] !in {9, 10, 11, 12, 13, 32}
  {
    hide TrimLeft, TrimRight;
    i := TrimmedLeft(b);
    var n := TrimmedRight(b[i..]);
    j := i + n;
    assert forall m :: j <= m < |b| ==> b[m] == b[i..][m - i];
  }

  function Concat(bs: seq<Bytes>): Bytes
    decreases |bs|
  {
    if bs == [] then [] else bs[0] + Concat(bs[1..])
  }

}
