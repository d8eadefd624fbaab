/** Where in a line an address stands does not matter: masking works piece by piece
    (`redact_addresses` of `redact.rs`). */
module RedactLines {
  import opened Text
  import opened Mac
  import opened Redact

  /** A character that ends every run of digits and every dotted address, and does not
      make a GUID group of what follows. */
  predicate Bounds(c: char) {
    !HexOrColon(c) && c != '-'
  }

  // `u` ends in such a character, or is empty; `w` begins with one, or is empty.
  predicate Closed(u: string) {
    u == "" || Bounds(u[|u| - 1])
  }

  predicate Opens(w: string) {
    w == "" || !HexOrColon(w[0])
  }

  // -------------------------------------------------------------------------
  // The part in front
  // -------------------------------------------------------------------------

  lemma DottedInFront(u: string, w: string, i: nat)
    requires i < |u| && Closed(u)
    ensures DottedAt(u + w, i) <==> DottedAt(u, i)
  {
    var b := u + w;
    assert b[|u| - 1] == u[|u| - 1];
    assert forall j :: 0 <= j < |u| ==> b[j] == u[j];
  }

  lemma {:induction false} RunInFront(u: string, w: string, i: nat)
    requires i < |u| && Closed(u)
    ensures RunEnd(u + w, i) == RunEnd(u, i) < |u|
    decreases |u| - i
  {
    assert (u + w)[i] == u[i];
    if IsHex(u[i]) {
      RunInFront(u, w, i + 1);
    }
  }

  lemma StepInFront(digest: Digest, u: string, w: string, i: nat)
    requires i < |u| && Closed(u)
    ensures Step(digest, u + w, i) == Step(digest, u, i)
  {
    var b := u + w;
    DottedInFront(u, w, i);
    RunInFront(u, w, i);
    assert b[i] == u[i] && (i > 0 ==> b[i - 1] == u[i - 1]);
    if DottedAt(u, i) {
      assert b[i..i + 17] == u[i..i + 17];
    } else {
      assert b[i..RunEnd(u, i)] == u[i..RunEnd(u, i)];
    }
  }

  lemma {:induction false} ScanInFront(digest: Digest, u: string, w: string, i: nat)
    requires i <= |u| && Closed(u)
    ensures Scan(digest, u + w, i) == Scan(digest, u, i) + Scan(digest, u + w, |u|)
    decreases |u| - i
  {
    if i < |u| {
      var (piece, next) := Step(digest, u, i);
      StepInFront(digest, u, w, i);
      ScanUnfolds(digest, u, i);
      ScanUnfolds(digest, u + w, i);
      ScanInFront(digest, u, w, next);
      Reassociate(piece, Scan(digest, u, next), Scan(digest, u + w, |u|));
    }
  }

  // -------------------------------------------------------------------------
  // The part behind
  // -------------------------------------------------------------------------

  // What stands to the left of `w` does not change how it is read.
  predicate Apart(u: string, w: string) {
    Closed(u) || Opens(w)
  }

  lemma {:induction false} RunBehind(u: string, w: string, i: nat)
    requires i <= |w|
    ensures RunEnd(u + w, |u| + i) == |u| + RunEnd(w, i)
    decreases |w| - i
  {
    if i < |w| {
      assert (u + w)[|u| + i] == w[i];
      if IsHex(w[i]) {
        RunBehind(u, w, i + 1);
      }
    }
  }

  lemma GroupsBehind(u: string, w: string, i: nat)
    requires i < |w|
    ensures GroupsAt(u + w, |u| + i) <==> GroupsAt(w, i)
  {
    var b := u + w;
    assert forall j :: 0 <= j < |w| ==> b[|u| + j] == w[j];
    if GroupsAt(b, |u| + i) {
      GroupsMove(b, |u| + i, w, i);
    }
    if GroupsAt(w, i) {
      GroupsMove(w, i, b, |u| + i);
    }
  }

  // The characters around position `i` of `w` are the same behind `u`, or bound it alike.
  lemma AroundBehind(u: string, w: string, i: nat)
    requires i < |w| && Apart(u, w)
    ensures var b, k := u + w, |u| + i;
            b[k] == w[i] && (i > 0 ==> b[k - 1] == w[i - 1]) && (i + 17 < |w| ==> b[k + 17] == w[i + 17])
    ensures i == 0 && |u| > 0 ==> Bounds((u + w)[|u| - 1]) || !HexOrColon(w[0])
  {
  }

  lemma DottedBehind(u: string, w: string, i: nat)
    requires i < |w| && Apart(u, w)
    ensures DottedAt(u + w, |u| + i) <==> DottedAt(w, i)
  {
    AroundBehind(u, w, i);
    GroupsBehind(u, w, i);
    if GroupsAt(w, i) {
      assert !ColonPlace(i - i) && IsHex(w[i]);
    }
  }

  lemma RunsBehind(u: string, w: string, i: nat)
    requires i < |w| && Apart(u, w)
    ensures StartsRun(u + w, |u| + i) <==> StartsRun(w, i)
    ensures StartsRun(w, i) ==> (GuidGroup(u + w, |u| + i) <==> GuidGroup(w, i))
  {
    AroundBehind(u, w, i);
  }

  lemma StepBehind(digest: Digest, u: string, w: string, i: nat)
    requires i < |w| && Apart(u, w)
    ensures Step(digest, u + w, |u| + i) == (Step(digest, w, i).0, |u| + Step(digest, w, i).1)
  {
    var b, k := u + w, |u| + i;
    DottedBehind(u, w, i);
    RunsBehind(u, w, i);
    RunBehind(u, w, i);
    assert b[k] == w[i];
    if DottedAt(w, i) {
      SliceBehind(u, w, i, i + 17);
    } else {
      SliceBehind(u, w, i, RunEnd(w, i));
    }
  }

  lemma SliceBehind(u: string, w: string, i: nat, e: nat)
    requires i <= e <= |w|
    ensures (u + w)[|u| + i..|u| + e] == w[i..e]
  {
  }

  // The same step in two texts, and the same scan behind it.
  lemma SameScan(digest: Digest, b: string, k: nat, k': nat, w: string, i: nat, i': nat)
    requires k < |b| && k' <= |b| && i < |w| && i' <= |w|
    requires Step(digest, b, k) == (Step(digest, w, i).0, k') && Step(digest, w, i).1 == i'
    requires Scan(digest, b, k') == Scan(digest, w, i')
    ensures Scan(digest, b, k) == Scan(digest, w, i)
  {
    ScanUnfolds(digest, b, k);
    ScanUnfolds(digest, w, i);
  }

  // The scan of `b` from `k` on is the scan of `w` from `i` on.
  predicate Alike(digest: Digest, b: string, k: nat, w: string, i: nat) {
    k <= |b| && i <= |w| && Scan(digest, b, k) == Scan(digest, w, i)
  }

  lemma AlikeBehind(digest: Digest, u: string, w: string, i: nat, next: nat)
    requires i < |w| && Apart(u, w) && next == Step(digest, w, i).1 && Alike(digest, u + w, |u| + next, w, next)
    ensures Alike(digest, u + w, |u| + i, w, i)
  {
    hide Apart, Step;
    StepBehind(digest, u, w, i);
    SameScan(digest, u + w, |u| + i, |u| + next, w, i, next);
  }

  lemma {:induction false} ScanBehind(digest: Digest, u: string, w: string, i: nat)
    requires i <= |w| && Apart(u, w)
    ensures Alike(digest, u + w, |u| + i, w, i)
    decreases |w| - i
  {
    if i < |w| {
      ScanBehind(digest, u, w, Step(digest, w, i).1);
      AlikeBehind(digest, u, w, i, Step(digest, w, i).1);
    } else {
      assert |u| + i == |u + w|;
    }
  }

  // -------------------------------------------------------------------------
  // The address in between
  // -------------------------------------------------------------------------

  /** One of the two spellings: six groups, or at least twelve digits in a row. */
  predicate Spelling(raw: string) {
    (|raw| == 17 && GroupsAt(raw, 0)) || (|raw| >= 12 && AllHex(raw))
  }

  lemma AddressFirst(digest: Digest, raw: string, v: string)
    requires Spelling(raw) && Opens(v)
    ensures Scan(digest, raw + v, 0) == MacTag(digest, raw) + Scan(digest, v, 0)
  {
    var b := raw + v;
    assert forall j :: 0 <= j < |raw| ==> b[j] == raw[j];
    assert v != "" ==> b[|raw|] == v[0];
    if |raw| == 17 && GroupsAt(raw, 0) {
      GroupsMove(raw, 0, b, 0);
      assert b[0..17] == raw;
      assert DottedAt(b, 0);
    } else {
      assert !IsHex(':') && IsHex(b[2]) && ColonPlace(2 - 0);
      assert !GroupsAt(b, 0);
      WholeRun(raw, v, 0);
      assert b[0..|raw|] == raw;
    }
    assert Step(digest, b, 0) == (MacTag(digest, raw), |raw|);
    ScanUnfolds(digest, b, 0);
    ScanBehind(digest, raw, v, 0);
  }

  lemma {:induction false} WholeRun(raw: string, v: string, i: nat)
    requires AllHex(raw) && Opens(v) && i <= |raw|
    ensures RunEnd(raw + v, i) == |raw|
    decreases |raw| - i
  {
    if i < |raw| {
      assert (raw + v)[i] == raw[i];
      WholeRun(raw, v, i + 1);
    } else if v != "" {
      assert (raw + v)[i] == v[0];
    }
  }

  lemma LastByte(s: string)
    requires s != ""
    ensures Bytes(s)[|Bytes(s)| - 1] == CharBytes(s[|s| - 1])[|CharBytes(s[|s| - 1])| - 1]
  {
    var init, c := s[..|s| - 1], s[|s| - 1];
    assert s == init + [c];
    BytesConcat(init, [c]);
    assert [c][1..] == "" && Bytes([c]) == CharBytes(c) + "";
  }

  lemma BytesClosed(s: string)
    requires Closed(s)
    ensures Closed(Bytes(s))
  {
    if s != "" {
      LastByte(s);
      var last := CharBytes(s[|s| - 1]);
      assert (s[|s| - 1] as int) >= 128 ==> last[|last| - 1] in last;
    }
  }

  lemma BytesOpen(s: string)
    requires Opens(s)
    ensures Opens(Bytes(s))
  {
    if s != "" {
      var first := CharBytes(s[0]);
      assert Bytes(s)[0] == first[0] && first[0] in first;
    }
  }

  lemma SpellingIsAscii(raw: string)
    requires Spelling(raw)
    ensures Bytes(raw) == raw
  {
    forall j | 0 <= j < |raw| ensures (raw[j] as int) < 128 {
      if !AllHex(raw) {
        assert if ColonPlace(j - 0) then raw[j] == ':' else IsHex(raw[j]);
      }
    }
    AsciiBytes(raw);
  }

  /** MASKING IS LOCAL: wherever an address stands in a line, between characters that do
      not continue it, its tag takes its place, and the parts around it are masked as if
      they stood alone. */
  lemma InALine(digest: Digest, before: string, raw: string, after: string)
    requires Spelling(raw) && Closed(before) && Opens(after)
    ensures Redacted(digest, before + raw + after)
            == Redacted(digest, before) + MacTag(digest, raw) + Redacted(digest, after)
  {
    var u, v := Bytes(before), Bytes(after);
    BytesClosed(before);
    BytesOpen(after);
    SpellingIsAscii(raw);
    BytesConcat(before, raw);
    BytesConcat(before + raw, after);
    Reassociate(u, raw, v);
    ScanInFront(digest, u, raw + v, 0);
    assert Scan(digest, u + (raw + v), |u| + 0) == Scan(digest, raw + v, 0) by {
      ScanBehind(digest, u, raw + v, 0);
    }
    AddressFirst(digest, raw, v);
    Reassociate(Scan(digest, u, 0), MacTag(digest, raw), Scan(digest, v, 0));
  }

  lemma BothSpellings(a: nat)
    ensures Spelling(Format(a)) && Spelling(Hex12(a))
  {
    PrintedDigits(a);
    var f, d := Format(a), HexDigits(a);
    forall j | 0 <= j < 17 ensures if ColonPlace(j - 0) then f[j] == ':' else IsHex(f[j]) {
      assert ColonPlace(j) <==> j % 3 == 2;
    }
  }

  /** ONE ADDRESS, ONE TAG IN THE LOG: a line that shows an address leaves the same text
      behind whichever way the address is spelled. */
  lemma SameLineEitherWay(digest: Digest, before: string, a: nat, after: string)
    requires Closed(before) && Opens(after)
    ensures Redacted(digest, before + Format(a) + after) == Redacted(digest, before + Hex12(a) + after)
    ensures Redacted(digest, before + Format(a) + after)
            == Redacted(digest, before) + MacTag(digest, Hex12(a)) + Redacted(digest, after)
  {
    BothSpellings(a);
    OneDeviceOneTag(digest, a);
    InALine(digest, before, Format(a), after);
    InALine(digest, before, Hex12(a), after);
  }
}
