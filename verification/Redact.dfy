/** `redact.rs`: masking Bluetooth addresses in log lines. */
module Redact {
  import opened Text
  import opened Mac

  /** The 16-bit digest behind a tag; any function will do. */
  type Digest = string -> nat

  function LowerHexDigit(v: nat): (c: char)
    requires v < 16
    ensures IsHex(c)
  {
    Lower(HexDigit(v))
  }

  function Tag(digest: Digest, s: string): (t: string)
    ensures |t| == 4 && AllHex(t)
  {
    var v := digest(s);
    [LowerHexDigit(v / 4096 % 16), LowerHexDigit(v / 256 % 16), LowerHexDigit(v / 16 % 16), LowerHexDigit(v % 16)]
  }

  /** A tag is the low 16 bits of the digest in four lower-case digits. */
  lemma TagSpells(digest: Digest, s: string)
    ensures HexValue(Tag(digest, s), 4) == digest(s) % 0x1_0000
    ensures forall i :: 0 <= i < 4 ==> Tag(digest, s)[i] in LOWER
  {
    var v, t := digest(s), Tag(digest, s);
    forall d: nat | d < 16 ensures Nibble(LowerHexDigit(d)) == d && LowerHexDigit(d) == LOWER[d] {
      DigitFacts(d);
      DigitChars(d);
    }
    assert HexValue(t, 1) == v / 4096 % 16;
    assert HexValue(t, 2) == v / 4096 % 16 * 16 + v / 256 % 16;
    assert HexValue(t, 3) == (v / 4096 % 16 * 16 + v / 256 % 16) * 16 + v / 16 % 16;
    LowDigits(v);
  }

  lemma LowDigits(v: nat)
    ensures ((v / 4096 % 16 * 16 + v / 256 % 16) * 16 + v / 16 % 16) * 16 + v % 16 == v % 0x1_0000
  {
    OneDigit(v, 1);
    OneDigit(v, 16);
    OneDigit(v, 256);
    OneDigit(v, 4096);
    assert v == v / 0x1_0000 * 0x1_0000 + v % 0x1_0000;
  }

  lemma OneDigit(v: nat, scale: nat)
    requires scale in {1, 16, 256, 4096}
    ensures v / scale == v / (16 * scale) * 16 + v / scale % 16
  {
    assert v / scale / 16 == v / (16 * scale);
  }

  /** Separators dropped, digits lowercased: one key per address. */
  function Normalise(raw: string): string {
    if raw == "" then ""
    else (if IsHex(raw[0]) then [Lower(raw[0])] else "") + Normalise(raw[1..])
  }

  function MacTag(digest: Digest, raw: string): (t: string)
    ensures |t| == 8 && t[..4] == "mac#" && AllHex(t[4..])
  {
    "mac#" + Tag(digest, Normalise(raw))
  }

  // Where the colons of a dotted address are: every third place.
  predicate ColonPlace(k: int) {
    k == 2 || k == 5 || k == 8 || k == 11 || k == 14
  }

  /** The six two-digit groups of a dotted address at `i`. */
  predicate GroupsAt(b: string, i: nat) {
    i + 17 <= |b| && forall j :: i <= j < i + 17 ==> if ColonPlace(j - i) then b[j] == ':' else IsHex(b[j])
  }

  predicate HexOrColon(c: char) {
    IsHex(c) || c == ':'
  }

  /** `dotted_mac_at`: an address not embedded in a longer run. */
  predicate DottedAt(b: string, i: nat) {
    GroupsAt(b, i)
    && (i > 0 ==> !HexOrColon(b[i - 1]))
    && (i + 17 < |b| ==> !HexOrColon(b[i + 17]))
  }

  function RunEnd(b: string, i: nat): (e: nat)
    requires i <= |b|
    ensures i <= e <= |b|
    ensures forall j :: i <= j < e ==> IsHex(b[j])
    ensures e < |b| ==> !IsHex(b[e])
    decreases |b| - i
  {
    if i < |b| && IsHex(b[i]) then RunEnd(b, i + 1) else i
  }

  predicate StartsRun(b: string, i: nat)
    requires i < |b|
  {
    IsHex(b[i]) && (i == 0 || !IsHex(b[i - 1]))
  }

  predicate GuidGroup(b: string, i: nat)
    requires i < |b|
  {
    i > 0 && b[i - 1] == '-'
  }

  /** What one pass of the loop consumes at `i` and what it prints for it. */
  function Step(digest: Digest, b: string, i: nat): (r: (string, nat))
    requires i < |b|
    ensures i < r.1 <= |b| && |r.0| >= 1
  {
    if DottedAt(b, i) then (MacTag(digest, b[i..i + 17]), i + 17)
    else if StartsRun(b, i) then
      var end := RunEnd(b, i);
      assert end > i;
      if end - i >= 12 && !GuidGroup(b, i) then (MacTag(digest, b[i..end]), end)
      else (b[i..end], end)
    else ([b[i]], i + 1)
  }

  function Scan(digest: Digest, b: string, i: nat): string
    requires i <= |b|
    decreases |b| - i
  {
    if i == |b| then "" else var (piece, next) := Step(digest, b, i); piece + Scan(digest, b, next)
  }

  lemma ScanUnfolds(digest: Digest, b: string, i: nat)
    requires i < |b|
    ensures Scan(digest, b, i) == Step(digest, b, i).0 + Scan(digest, b, Step(digest, b, i).1)
  {
  }

  function Redacted(digest: Digest, line: string): string {
    Scan(digest, Bytes(line), 0)
  }

  /** `redact_addresses`. */
  method RedactAddresses(digest: Digest, line: string) returns (out: string)
    ensures out == Redacted(digest, line)
  {
    var b := Bytes(line);
    out := "";
    var i := 0;
    while i < |b|
      invariant 0 <= i <= |b|
      invariant out + Scan(digest, b, i) == Scan(digest, b, 0)
    {
      ghost var sofar := out;
      ghost var (piece, next) := Step(digest, b, i);
      if DottedAt(b, i) {
        out := out + MacTag(digest, b[i..i + 17]);
        i := i + 17;
      } else if IsHex(b[i]) && (i == 0 || !IsHex(b[i - 1])) {
        var end := i;
        while end < |b| && IsHex(b[end])
          invariant i <= end <= |b|
          invariant RunEnd(b, end) == RunEnd(b, i)
        {
          end := end + 1;
        }
        var longEnough := end - i >= 12;
        var guidGroup := i > 0 && b[i - 1] == '-';
        if longEnough && !guidGroup {
          out := out + MacTag(digest, b[i..end]);
        } else {
          out := out + b[i..end];
        }
        i := end;
      } else {
        out := out + [b[i]];
        i := i + 1;
      }
      assert out == sofar + piece && i == next;
      Reassociate(sofar, piece, Scan(digest, b, next));
    }
  }

  // -------------------------------------------------------------------------
  // What a clean line is
  // -------------------------------------------------------------------------

  /** Twelve hex digits at the start of a run that is not a GUID group. */
  predicate LongRunAt(b: string, i: nat) {
    i + 12 <= |b| && (forall j :: i <= j < i + 12 ==> IsHex(b[j]))
    && (i > 0 ==> !IsHex(b[i - 1]) && b[i - 1] != '-')
  }

  predicate AddressAt(b: string, i: nat) {
    DottedAt(b, i) || LongRunAt(b, i)
  }

  /** No address starts at or after `from`. */
  predicate CleanFrom(b: string, from: nat) {
    forall i :: from <= i < |b| ==> !AddressAt(b, i)
  }

  // -------------------------------------------------------------------------
  // The output is clean
  // -------------------------------------------------------------------------

  // The scanner never stops inside a run of hex digits.
  predicate Boundary(b: string, i: nat)
    requires i <= |b|
  {
    i == 0 || i == |b| || !IsHex(b[i]) || !IsHex(b[i - 1])
  }

  lemma StepKeepsBoundary(digest: Digest, b: string, i: nat)
    requires i < |b| && Boundary(b, i)
    ensures Boundary(b, Step(digest, b, i).1)
  {
  }

  // The output `s` of the scan from `i` repeats the input for `k` characters,
  // and the character after them continues an address exactly as the input does.
  predicate Follows(b: string, i: nat, s: string, k: nat) {
    k <= |s| && i + k <= |b|
    && (forall j :: 0 <= j < k ==> s[j] == b[i + j])
    && (i + k < |b| ==> k < |s| && (b[i + k] == ':' ==> s[k] == ':'))
    && (0 < i + k < |b| && IsHex(b[i + k]) && IsHex(b[i + k - 1]) ==> s[k] == b[i + k])
  }

  predicate ReadsOn(s: string, k: nat) {
    k <= |s| && forall j :: 0 <= j < k ==> HexOrColon(s[j])
  }

  lemma AllBehind(piece: string, rest: string, k: nat)
    requires ReadsOn(piece + rest, k) && |piece| <= k
    ensures ReadsOn(rest, k - |piece|)
  {
    forall j | 0 <= j < k - |piece| ensures HexOrColon(rest[j]) {
      assert (piece + rest)[|piece| + j] == rest[j];
    }
  }

  lemma MaskedStart(digest: Digest, b: string, i: nat)
    requires i < |b| && Step(digest, b, i).0 != b[i..Step(digest, b, i).1]
    ensures Step(digest, b, i).0[0] == 'm' && IsHex(b[i]) && (i == 0 || !IsHex(b[i - 1]))
  {
    if DottedAt(b, i) {
      assert !ColonPlace(i - i);
    }
  }

  // Where the output keeps reading like an address, it is the input itself.
  lemma {:induction false} LookAhead(digest: Digest, b: string, i: nat, k: nat)
    requires i <= |b| && Boundary(b, i) && ReadsOn(Scan(digest, b, i), k)
    ensures Follows(b, i, Scan(digest, b, i), k)
    decreases |b| - i
  {
    if i < |b| {
      var (piece, next) := Step(digest, b, i);
      var rest := Scan(digest, b, next);
      ScanUnfolds(digest, b, i);
      if piece == b[i..next] {
        var len := next - i;
        if k >= len {
          StepKeepsBoundary(digest, b, i);
          AllBehind(piece, rest, k);
          LookAhead(digest, b, next, k - len);
          CopiedInFront(b, i, next, rest, k);
        } else {
          CopiedPart(b, i, next, rest, k);
        }
      } else {
        MaskedStart(digest, b, i);
        assert (piece + rest)[0] == 'm' && k == 0;
      }
    }
  }

  lemma CopiedInFront(b: string, i: nat, next: nat, rest: string, k: nat)
    requires i < next <= |b| && next - i <= k
    requires Follows(b, next, rest, k - (next - i))
    ensures Follows(b, i, b[i..next] + rest, k)
  {
    var s, len := b[i..next] + rest, next - i;
    forall j | 0 <= j < k ensures s[j] == b[i + j] {
      if j >= len {
        assert s[j] == rest[j - len] == b[next + (j - len)];
      }
    }
  }

  lemma CopiedPart(b: string, i: nat, next: nat, rest: string, k: nat)
    requires i < next <= |b| && k < next - i
    ensures Follows(b, i, b[i..next] + rest, k)
  {
  }

  // -- Positions behind a left neighbour -------------------------------------

  // Only the kind of the left neighbour matters.
  predicate SameKind(c: char, d: char) {
    IsHex(c) == IsHex(d) && (c == ':') == (d == ':') && (c == '-') == (d == '-')
  }

  // No address in `s`, given its left neighbour.
  predicate CleanAfter(c: char, s: string) {
    CleanFrom([c] + s, 1)
  }

  lemma NeighbourKind(c: char, d: char, s: string)
    requires SameKind(c, d) && CleanAfter(c, s)
    ensures CleanAfter(d, s)
  {
    var x, y := [c] + s, [d] + s;
    assert forall j :: 1 <= j < |x| ==> x[j] == y[j];
    forall p | 1 <= p < |y| ensures !AddressAt(y, p) {
      assert !AddressAt(x, p);
    }
  }

  lemma AddressInSuffix(x: string, m: nat, p: nat)
    requires m < p < |x| && AddressAt(x, p)
    ensures AddressAt(x[m..], p - m)
  {
    var y := x[m..];
    assert forall j :: 0 <= j < |y| ==> y[j] == x[m + j];
  }

  // The end of the line counts like any separator.
  const EDGE: char := '\n'

  function LeftOf(b: string, i: nat): char
    requires i <= |b|
  {
    if i == 0 then EDGE else b[i - 1]
  }

  // No address starts within a piece that stands between `c` and `rest`.
  predicate PieceClean(c: char, piece: string, rest: string) {
    forall p :: 1 <= p <= |piece| ==> !AddressAt([c] + piece + rest, p)
  }

  // A clean first piece in front of a clean rest.
  lemma PieceInFront(c: char, piece: string, rest: string)
    requires piece != "" && CleanAfter(piece[|piece| - 1], rest)
    requires PieceClean(c, piece, rest)
    ensures CleanAfter(c, piece + rest)
  {
    var x := [c] + piece + rest;
    assert [c] + (piece + rest) == x;
    assert x[|piece|..] == [piece[|piece| - 1]] + rest;
    forall p | 1 <= p < |x| ensures !AddressAt(x, p) {
      if p > |piece| && AddressAt(x, p) {
        AddressInSuffix(x, |piece|, p);
      }
    }
  }

  // -- The three kinds of pieces ---------------------------------------------

  // A tag: its first hex run is "ac", its second has four digits and is
  // followed by a separator.
  lemma TagIsClean(c: char, tag: string, rest: string)
    requires |tag| == 8 && tag[..4] == "mac#" && AllHex(tag[4..])
    requires rest == "" || !IsHex(rest[0])
    ensures PieceClean(c, tag, rest)
  {
    var x := [c] + tag + rest;
    assert tag == tag[..4] + tag[4..];
    assert x[1] == 'm' && x[2] == 'a' && x[3] == 'c' && x[4] == '#';
    assert forall j :: 4 <= j < 8 ==> tag[j] == tag[4..][j - 4];
    assert IsHex(x[5]) && IsHex(x[6]) && IsHex(x[7]) && IsHex(x[8]);
    if rest != "" {
      assert x[9] == rest[0];
    }
    forall p | 1 <= p <= 8 ensures !AddressAt(x, p) {
      if p <= 4 {
        assert p + 3 < |x| && !IsHex(x[4]) && !IsHex(x[1]) && x[4] != ':';
      } else if p > 5 {
        assert IsHex(x[p - 1]);
      }
    }
  }

  // Behind its first digit no address starts within a run.
  lemma InsideRun(x: string, p: nat)
    requires 1 < p < |x| && IsHex(x[p - 1])
    ensures !AddressAt(x, p)
  {
  }

  // A whole run, short or a GUID group, that no dotted address starts.
  lemma RunInPlace(c: char, run: string, rest: string)
    requires run != "" && AllHex(run) && (rest == "" || !IsHex(rest[0]))
    requires |run| < 12 || c == '-'
    requires !DottedAt([c] + run + rest, 1)
    ensures PieceClean(c, run, rest)
  {
    var x := [c] + run + rest;
    assert forall j :: 0 <= j < |run| ==> x[1 + j] == run[j];
    assert x[0] == c;
    if rest != "" {
      assert x[1 + |run|] == rest[0];
    }
    forall p | 1 <= p <= |run| ensures !AddressAt(x, p) {
      if p > 1 {
        assert x[1 + (p - 2)] == run[p - 2];
        InsideRun(x, p);
      }
    }
  }

  lemma RunIsCopied(digest: Digest, b: string, i: nat)
    requires i < |b| && StartsRun(b, i) && !Masks(b, i)
    ensures Step(digest, b, i) == (b[i..RunEnd(b, i)], RunEnd(b, i))
    ensures AllHex(b[i..RunEnd(b, i)]) && (RunEnd(b, i) - i < 12 || LeftOf(b, i) == '-')
  {
  }

  lemma NotDottedInOutput(digest: Digest, b: string, i: nat, piece: string, rest: string)
    requires i < |b| && Boundary(b, i) && !DottedAt(b, i) && Scan(digest, b, i) == piece + rest
    ensures !DottedAt([LeftOf(b, i)] + piece + rest, 1)
  {
    assert [LeftOf(b, i)] + piece + rest == [LeftOf(b, i)] + (piece + rest);
    if DottedAt([LeftOf(b, i)] + piece + rest, 1) {
      CopiedDotted(digest, b, i);
    }
  }

  // A run of hex digits that the scanner copied.
  lemma RunIsClean(digest: Digest, b: string, i: nat)
    requires i < |b| && Boundary(b, i) && StartsRun(b, i) && !Masks(b, i)
    ensures var (piece, next) := Step(digest, b, i);
            piece == b[i..next] && PieceClean(LeftOf(b, i), piece, Scan(digest, b, next))
  {
    var (run, end) := Step(digest, b, i);
    var rest := Scan(digest, b, end);
    RunIsCopied(digest, b, i);
    FirstAfterRun(digest, b, i);
    NotDottedInOutput(digest, b, i, run, rest);
    RunInPlace(LeftOf(b, i), run, rest);
  }

  // What is neither a digit nor the start of an address is printed as it is.
  lemma SeparatorIsCopied(digest: Digest, b: string, i: nat)
    requires i < |b| && !IsHex(b[i])
    ensures Step(digest, b, i) == ([b[i]], i + 1)
    ensures Scan(digest, b, i) != "" && Scan(digest, b, i)[0] == b[i]
  {
    assert !ColonPlace(i - i);
    assert !GroupsAt(b, i);
    assert Scan(digest, b, i) == [b[i]] + Scan(digest, b, i + 1);
  }

  lemma FirstAfterRun(digest: Digest, b: string, i: nat)
    requires i < |b| && StartsRun(b, i)
    ensures var rest := Scan(digest, b, RunEnd(b, i)); rest == "" || !IsHex(rest[0])
  {
    var end := RunEnd(b, i);
    if end < |b| {
      SeparatorIsCopied(digest, b, end);
    }
  }

  lemma GroupsMove(x: string, p: nat, b: string, i: nat)
    requires GroupsAt(x, p) && i + 17 <= |b| && forall k :: i <= k < i + 17 ==> b[k] == x[p + (k - i)]
    ensures GroupsAt(b, i)
  {
    forall j | i <= j < i + 17 ensures if ColonPlace(j - i) then b[j] == ':' else IsHex(b[j]) {
      var m := p + (j - i);
      assert m - p == j - i && b[j] == x[m];
    }
  }

  lemma GroupsAreHexOrColon(x: string, p: nat, j: nat)
    requires GroupsAt(x, p) && p <= j < p + 17
    ensures HexOrColon(x[j])
  {
  }

  lemma DottedPrefix(c: char, s: string)
    requires DottedAt([c] + s, 1)
    ensures 17 <= |s| && forall j :: 0 <= j < 17 ==> HexOrColon(s[j])
  {
    var x := [c] + s;
    forall j | 0 <= j < 17 ensures HexOrColon(s[j]) {
      assert x[1 + j] == s[j];
      GroupsAreHexOrColon(x, 1, 1 + j);
    }
  }

  lemma DottedComesBack(b: string, i: nat, s: string)
    requires i < |b| && Follows(b, i, s, 17) && DottedAt([LeftOf(b, i)] + s, 1)
    ensures DottedAt(b, i)
  {
    var x := [LeftOf(b, i)] + s;
    assert forall j :: 0 <= j < |s| ==> x[1 + j] == s[j];
    GroupsMove(x, 1, b, i);
    assert i > 0 ==> x[0] == b[i - 1];
    if i + 17 < |b| {
      CopiedNeighbour(b, i, s, x);
    }
  }

  // A dotted address at the start of the output would have been one in the input.
  lemma CopiedDotted(digest: Digest, b: string, i: nat)
    requires i < |b| && Boundary(b, i)
    requires DottedAt([LeftOf(b, i)] + Scan(digest, b, i), 1)
    ensures DottedAt(b, i)
  {
    DottedPrefix(LeftOf(b, i), Scan(digest, b, i));
    LookAhead(digest, b, i, 17);
    DottedComesBack(b, i, Scan(digest, b, i));
  }

  // ... and neither is it embedded in a longer run there.
  lemma CopiedNeighbour(b: string, i: nat, s: string, x: string)
    requires i + 17 < |b| && Follows(b, i, s, 17) && GroupsAt(b, i)
    requires |x| == |s| + 1 && x[18] == s[17] && DottedAt(x, 1)
    ensures !HexOrColon(b[i + 17])
  {
    assert !ColonPlace(16) && IsHex(b[i + 16]);
  }

  predicate Masks(b: string, i: nat)
    requires i < |b|
  {
    DottedAt(b, i) || (StartsRun(b, i) && RunEnd(b, i) - i >= 12 && !GuidGroup(b, i))
  }

  lemma TagInFront(c: char, tag: string, last: char, rest: string)
    requires |tag| == 8 && tag[..4] == "mac#" && AllHex(tag[4..])
    requires IsHex(last) && (rest == "" || !IsHex(rest[0])) && CleanAfter(last, rest)
    ensures CleanAfter(c, tag + rest)
  {
    TagIsClean(c, tag, rest);
    assert tag[7] == tag[4..][3];
    NeighbourKind(last, tag[7], rest);
    PieceInFront(c, tag, rest);
  }

  lemma MaskIsClean(digest: Digest, b: string, i: nat)
    requires i < |b| && Boundary(b, i) && Masks(b, i)
    requires var next := Step(digest, b, i).1; CleanAfter(LeftOf(b, next), Scan(digest, b, next))
    ensures CleanAfter(LeftOf(b, i), Scan(digest, b, i))
  {
    var (piece, next) := Step(digest, b, i);
    AfterMask(digest, b, i);
    TagInFront(LeftOf(b, i), piece, b[next - 1], Scan(digest, b, next));
    ScanUnfolds(digest, b, i);
  }

  lemma AddressStartsInHex(x: string, p: nat)
    requires p < |x| && AddressAt(x, p)
    ensures IsHex(x[p])
  {
    assert !ColonPlace(p - p);
  }

  // No address starts at a separator.
  lemma SeparatorInPlace(c: char, d: char, rest: string)
    requires !IsHex(d)
    ensures PieceClean(c, [d], rest)
  {
    var x := [c] + [d] + rest;
    assert x[1] == d;
    if AddressAt(x, 1) {
      AddressStartsInHex(x, 1);
    }
  }

  // A character that the scanner copied alone.
  lemma CharIsClean(digest: Digest, b: string, i: nat)
    requires i < |b| && Boundary(b, i) && !StartsRun(b, i)
    ensures var (piece, next) := Step(digest, b, i);
            piece == b[i..next] && PieceClean(LeftOf(b, i), piece, Scan(digest, b, next))
  {
    SeparatorIsCopied(digest, b, i);
    SeparatorInPlace(LeftOf(b, i), b[i], Scan(digest, b, i + 1));
  }

  lemma CopiedInPlace(b: string, i: nat, next: nat, rest: string)
    requires i < next <= |b| && PieceClean(LeftOf(b, i), b[i..next], rest) && CleanAfter(LeftOf(b, next), rest)
    ensures CleanAfter(LeftOf(b, i), b[i..next] + rest)
  {
    PieceInFront(LeftOf(b, i), b[i..next], rest);
  }

  lemma CopyIsClean(digest: Digest, b: string, i: nat)
    requires i < |b| && Boundary(b, i) && !Masks(b, i)
    requires var next := Step(digest, b, i).1; CleanAfter(LeftOf(b, next), Scan(digest, b, next))
    ensures CleanAfter(LeftOf(b, i), Scan(digest, b, i))
  {
    if StartsRun(b, i) {
      RunIsClean(digest, b, i);
    } else {
      CharIsClean(digest, b, i);
    }
    var next := Step(digest, b, i).1;
    CopiedInPlace(b, i, next, Scan(digest, b, next));
    ScanUnfolds(digest, b, i);
  }

  lemma LastMasked(digest: Digest, b: string, i: nat)
    requires i < |b| && (DottedAt(b, i) || StartsRun(b, i))
    ensures var next := Step(digest, b, i).1; IsHex(b[next - 1]) && (next < |b| ==> !IsHex(b[next]))
  {
    if DottedAt(b, i) {
      assert !ColonPlace(16);
      assert IsHex(b[i + 16]);
    }
  }

  // What is masked ends in a hex digit and is followed by a separator.
  lemma AfterMask(digest: Digest, b: string, i: nat)
    requires i < |b| && Boundary(b, i)
    requires DottedAt(b, i) || StartsRun(b, i)
    ensures var next := Step(digest, b, i).1;
            IsHex(b[next - 1]) && (Scan(digest, b, next) == "" || !IsHex(Scan(digest, b, next)[0]))
  {
    var next := Step(digest, b, i).1;
    LastMasked(digest, b, i);
    if next < |b| {
      SeparatorIsCopied(digest, b, next);
    }
  }

  lemma {:induction false} ScanIsClean(digest: Digest, b: string, i: nat)
    requires i <= |b| && Boundary(b, i)
    ensures CleanAfter(LeftOf(b, i), Scan(digest, b, i))
    decreases |b| - i
  {
    if i < |b| {
      StepKeepsBoundary(digest, b, i);
      ScanIsClean(digest, b, Step(digest, b, i).1);
      if Masks(b, i) {
        MaskIsClean(digest, b, i);
      } else {
        CopyIsClean(digest, b, i);
      }
    }
  }

  /** NO ADDRESS SURVIVES, in either spelling, and no tag forms a new one. */
  lemma RedactedIsClean(digest: Digest, line: string)
    ensures CleanFrom(Redacted(digest, line), 0)
  {
    var s := Redacted(digest, line);
    ScanIsClean(digest, Bytes(line), 0);
    var x := [EDGE] + s;
    assert x[1..] == s;
    forall p | 0 <= p < |s| ensures !AddressAt(s, p) {
      if AddressAt(s, p) {
        AddressBehindEdge(s, p);
      }
    }
  }

  lemma AddressBehindEdge(s: string, p: nat)
    requires p < |s| && AddressAt(s, p)
    ensures AddressAt([EDGE] + s, p + 1)
  {
    var x := [EDGE] + s;
    assert forall j :: 1 <= j < |x| ==> x[j] == s[j - 1];
  }

  // -------------------------------------------------------------------------
  // Idempotence
  // -------------------------------------------------------------------------

  lemma CleanIsCopied(digest: Digest, b: string, i: nat)
    requires i < |b| && Boundary(b, i) && !AddressAt(b, i)
    ensures Step(digest, b, i).0 == b[i..Step(digest, b, i).1]
  {
    if StartsRun(b, i) {
      assert forall j :: i <= j < RunEnd(b, i) ==> IsHex(b[j]);
    }
  }

  lemma CleanLater(b: string, i: nat, j: nat)
    requires CleanFrom(b, i) && i <= j
    ensures CleanFrom(b, j)
    ensures i < |b| ==> !AddressAt(b, i)
  {
  }

  lemma {:induction false} CleanIsFixed(digest: Digest, b: string, i: nat)
    requires i <= |b| && Boundary(b, i) && CleanFrom(b, i)
    ensures Scan(digest, b, i) == b[i..]
    decreases |b| - i
  {
    if i < |b| {
      var next := Step(digest, b, i).1;
      CleanLater(b, i, next);
      CleanIsCopied(digest, b, i);
      StepKeepsBoundary(digest, b, i);
      CleanIsFixed(digest, b, next);
      ScanUnfolds(digest, b, i);
      assert b[i..] == b[i..next] + b[next..];
    }
  }

  function HighCount(s: string): nat {
    if s == "" then 0 else (if (s[0] as int) >= 128 then 1 else 0) + HighCount(s[1..])
  }

  lemma {:induction false} HighConcat(a: string, b: string)
    ensures HighCount(a + b) == HighCount(a) + HighCount(b)
    decreases |a|
  {
    if a == "" {
      assert a + b == b;
    } else {
      assert (a + b)[1..] == a[1..] + b;
      HighConcat(a[1..], b);
    }
  }

  lemma {:induction false} HighZeroIffAscii(s: string)
    ensures HighCount(s) == 0 <==> IsAscii(s)
    decreases |s|
  {
    if s != "" {
      var rest := s[1..];
      HighZeroIffAscii(rest);
      assert forall i :: 1 <= i < |s| ==> s[i] == rest[i - 1];
      assert forall i :: 0 <= i < |rest| ==> rest[i] == s[i + 1];
    }
  }

  // What is masked, and what is printed for it, is ASCII.
  lemma MaskedIsAscii(digest: Digest, b: string, i: nat)
    requires i < |b|
    ensures var (piece, next) := Step(digest, b, i);
            piece != b[i..next] ==> HighCount(piece) == 0 == HighCount(b[i..next])
  {
    var (piece, next) := Step(digest, b, i);
    if piece != b[i..next] {
      assert piece == "mac#" + piece[4..];
      HighZeroIffAscii(piece);
      HighZeroIffAscii(b[i..next]);
    }
  }

  // Masking neither adds nor removes a byte outside ASCII.
  lemma {:induction false} ScanKeepsHigh(digest: Digest, b: string, i: nat)
    requires i <= |b|
    ensures HighCount(Scan(digest, b, i)) == HighCount(b[i..])
    decreases |b| - i
  {
    if i < |b| {
      var (piece, next) := Step(digest, b, i);
      ScanKeepsHigh(digest, b, next);
      HighConcat(piece, Scan(digest, b, next));
      assert b[i..] == b[i..next] + b[next..];
      HighConcat(b[i..next], b[next..]);
      MaskedIsAscii(digest, b, i);
    } else {
      assert b[i..] == "";
    }
  }

  lemma {:induction false} AllHigh(s: string)
    requires forall x <- s :: (x as int) >= 128
    ensures HighCount(s) == |s|
    decreases |s|
  {
    if s != "" {
      assert s[0] in s && forall x <- s[1..] :: x in s;
      AllHigh(s[1..]);
    }
  }

  // Printing bytes as characters and encoding again at least doubles the high ones.
  lemma {:induction false} EncodingDoubles(s: string)
    ensures HighCount(Bytes(s)) >= 2 * HighCount(s)
    decreases |s|
  {
    if s != "" {
      EncodingDoubles(s[1..]);
      var c := CharBytes(s[0]);
      HighConcat(c, Bytes(s[1..]));
      if (s[0] as int) >= 128 {
        AllHigh(c);
      }
    }
  }

  /** A second pass changes nothing exactly when the line was ASCII; otherwise
      the bytes pushed as characters are encoded once more. */
  lemma {:induction false} IdempotentIffAscii(digest: Digest, line: string)
    ensures Redacted(digest, Redacted(digest, line)) == Redacted(digest, line) <==> IsAscii(line)
  {
    var b, out := Bytes(line), Redacted(digest, line);
    ScanKeepsHigh(digest, b, 0);
    assert b[0..] == b;
    HighZeroIffAscii(b);
    HighZeroIffAscii(out);
    if IsAscii(line) {
      AsciiBytes(line);
      AsciiBytes(out);
      RedactedIsClean(digest, line);
      CleanIsFixed(digest, out, 0);
      assert out[0..] == out;
    } else {
      SomeHighByte(line);
      EncodingDoubles(out);
      ScanKeepsHigh(digest, Bytes(out), 0);
      assert Bytes(out)[0..] == Bytes(out);
    }
  }

  // -------------------------------------------------------------------------
  // One device, one tag
  // -------------------------------------------------------------------------

  function LowerFrom(d: string, k: nat): string
    requires k <= |d|
    decreases |d| - k
  {
    if k == |d| then "" else [Lower(d[k])] + LowerFrom(d, k + 1)
  }

  lemma {:induction false} NormaliseDigits(d: string, k: nat)
    requires AllHex(d) && k <= |d|
    ensures Normalise(d[k..]) == LowerFrom(d, k)
    decreases |d| - k
  {
    if k < |d| {
      assert d[k..][1..] == d[k + 1..];
      NormaliseDigits(d, k + 1);
    }
  }

  lemma {:induction false} SameLower(d: string, h: string, k: nat)
    requires |d| == |h| && k <= |d| && forall j :: 0 <= j < |d| ==> Lower(h[j]) == Lower(d[j])
    ensures LowerFrom(h, k) == LowerFrom(d, k)
    decreases |d| - k
  {
    if k < |d| {
      SameLower(d, h, k + 1);
    }
  }

  lemma NormalisePair(x: char, y: char, rest: string)
    requires IsHex(x) && IsHex(y)
    ensures Normalise([x, y] + rest) == [Lower(x), Lower(y)] + Normalise(rest)
  {
    var s := [x, y] + rest;
    assert s[1..] == [y] + rest && s[1..][1..] == rest;
  }

  lemma NormaliseColon(rest: string)
    ensures Normalise([':'] + rest) == Normalise(rest)
  {
    assert ([':'] + rest)[1..] == rest;
  }

  lemma GroupText(d: string, g: nat)
    requires |d| == 12 && g <= 5
    ensures var f := Colons(d); f[3 * g] == d[2 * g] && f[3 * g + 1] == d[2 * g + 1] && (g < 5 ==> f[3 * g + 2] == ':')
  {
    assert 3 * g / 3 == g && (3 * g + 1) / 3 == g;
  }

  // The printed address from group `g` on.
  function FromGroup(d: string, g: nat): string
    requires |d| == 12 && g <= 5
  {
    Colons(d)[3 * g..]
  }

  lemma GroupInFront(d: string, g: nat)
    requires |d| == 12 && g <= 5
    ensures g < 5 ==> FromGroup(d, g) == [d[2 * g], d[2 * g + 1]] + ([':'] + FromGroup(d, g + 1))
    ensures g == 5 ==> FromGroup(d, g) == [d[2 * g], d[2 * g + 1]] + ""
  {
    GroupText(d, g);
    var f := Colons(d);
    if g < 5 {
      assert f[3 * g..] == [f[3 * g], f[3 * g + 1], f[3 * g + 2]] + f[3 * g + 3..];
      assert 3 * (g + 1) == 3 * g + 3;
    } else {
      assert f[15..] == [f[15], f[16]];
    }
  }

  lemma LastGroup(d: string)
    requires |d| == 12 && AllHex(d)
    ensures Normalise(FromGroup(d, 5)) == LowerFrom(d, 10)
  {
    GroupInFront(d, 5);
    TwoInFront(d, 10);
    NormalisePair(d[10], d[11], "");
  }

  lemma PairAndColon(f: string, x: char, y: char, rest: string, low: string)
    requires f == [x, y] + ([':'] + rest) && IsHex(x) && IsHex(y) && Normalise(rest) == low
    ensures Normalise(f) == [Lower(x), Lower(y)] + low
  {
    NormalisePair(x, y, [':'] + rest);
    NormaliseColon(rest);
  }

  // Twelve digits printed with colons, from group `g` on.
  lemma {:induction false} NormaliseColons(d: string, g: nat)
    requires |d| == 12 && AllHex(d) && g <= 5
    ensures Normalise(FromGroup(d, g)) == LowerFrom(d, 2 * g)
    decreases 5 - g
  {
    if g == 5 {
      LastGroup(d);
    } else {
      NormaliseColons(d, g + 1);
      GroupInFront(d, g);
      TwoInFront(d, 2 * g);
      PairAndColon(FromGroup(d, g), d[2 * g], d[2 * g + 1], FromGroup(d, g + 1), LowerFrom(d, 2 * g + 2));
    }
  }

  lemma TwoInFront(d: string, k: nat)
    requires k + 2 <= |d|
    ensures LowerFrom(d, k) == [Lower(d[k]), Lower(d[k + 1])] + LowerFrom(d, k + 2)
  {
    assert LowerFrom(d, k + 1) == [Lower(d[k + 1])] + LowerFrom(d, k + 2);
  }

  /** One address keeps one tag, dotted or as it stands in an instance ID. */
  lemma OneDeviceOneTag(digest: Digest, a: nat)
    ensures MacTag(digest, Format(a)) == MacTag(digest, Hex12(a))
  {
    var d, h := HexDigits(a), Hex12(a);
    PrintedDigits(a);
    NormaliseColons(d, 0);
    assert FromGroup(d, 0) == Format(a);
    NormaliseDigits(h, 0);
    assert h[0..] == h;
    SameLower(d, h, 0);
  }
}
