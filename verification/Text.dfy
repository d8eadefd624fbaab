/** `text.rs`: the command-line printer, plus the UTF-8 view of a string that
    several modules of the source work on (`as_bytes`). */
module Text {

  /** UTF-8 of one character. Bytes are shown as the characters 0..255, which is
      also what `byte as char` in the source makes of them. */
  function CharBytes(c: char): (b: string)
    ensures |b| >= 1
    ensures (c as int) < 128 ==> b == [c]
    ensures (c as int) >= 128 ==> |b| >= 2 && forall x <- b :: (x as int) >= 128
  {
    var n := c as int;
    if n < 0x80 then [c]
    else if n < 0x800 then [(0xC0 + n / 0x40) as char, (0x80 + n % 0x40) as char]
    else if n < 0x1_0000 then
      [(0xE0 + n / 0x1000) as char, (0x80 + n / 0x40 % 0x40) as char, (0x80 + n % 0x40) as char]
    else
      [(0xF0 + n / 0x4_0000) as char, (0x80 + n / 0x1000 % 0x40) as char,
       (0x80 + n / 0x40 % 0x40) as char, (0x80 + n % 0x40) as char]
  }

  function Bytes(s: string): (b: string)
    ensures |b| >= |s|
  {
    if s == "" then "" else CharBytes(s[0]) + Bytes(s[1..])
  }

  /** The code point that the bytes of one character spell, by the number of bytes. */
  function Decoded(b: string): int {
    if |b| == 1 then b[0] as int
    else if |b| == 2 then (b[0] as int - 0xC0) * 0x40 + (b[1] as int - 0x80)
    else if |b| == 3 then (b[0] as int - 0xE0) * 0x1000 + (b[1] as int - 0x80) * 0x40 + (b[2] as int - 0x80)
    else if |b| == 4 then
      (b[0] as int - 0xF0) * 0x4_0000 + (b[1] as int - 0x80) * 0x1000 + (b[2] as int - 0x80) * 0x40
      + (b[3] as int - 0x80)
    else -1
  }

  /** The encoding is UTF-8: a lead byte of the right range, continuation bytes, and
      the code point back. */
  lemma CharBytesDecode(c: char)
    ensures var b, n := CharBytes(c), c as int;
            Decoded(b) == n
            && |b| == (if n < 0x80 then 1 else if n < 0x800 then 2 else if n < 0x1_0000 then 3 else 4)
            && (forall i :: 1 <= i < |b| ==> 0x80 <= b[i] as int < 0xC0)
            && (|b| == 2 ==> 0xC0 <= b[0] as int < 0xE0) && (|b| == 3 ==> 0xE0 <= b[0] as int < 0xF0)
            && (|b| == 4 ==> 0xF0 <= b[0] as int < 0xF8)
  {
    Sextets(c as int);
  }

  // A number in sextets.
  lemma Sextets(n: nat)
    ensures n == n / 0x40 * 0x40 + n % 0x40
    ensures n / 0x40 == n / 0x1000 * 0x40 + n / 0x40 % 0x40
    ensures n / 0x1000 == n / 0x4_0000 * 0x40 + n / 0x1000 % 0x40
  {
  }

  predicate IsAscii(s: string) {
    forall i :: 0 <= i < |s| ==> (s[i] as int) < 128
  }

  /** Reading bytes back as characters is harmless exactly on ASCII. */
  lemma {:induction false} BytesIdentityIffAscii(s: string)
    ensures Bytes(s) == s <==> IsAscii(s)
    ensures !IsAscii(s) ==> |Bytes(s)| > |s|
  {
    if s != "" {
      var rest := s[1..];
      BytesIdentityIffAscii(rest);
      assert s == [s[0]] + rest;
      if IsAscii(rest) && (s[0] as int) < 128 {
        assert IsAscii(s);
      } else if (s[0] as int) < 128 {
        var i :| 0 <= i < |rest| && (rest[i] as int) >= 128;
        assert s[i + 1] == rest[i];
      }
    }
  }

  lemma AsciiBytes(s: string)
    requires IsAscii(s)
    ensures Bytes(s) == s
  {
    BytesIdentityIffAscii(s);
  }

  lemma {:induction false} BytesConcat(a: string, b: string)
    ensures Bytes(a + b) == Bytes(a) + Bytes(b)
  {
    if a == "" {
      assert a + b == b;
    } else {
      assert (a + b)[1..] == a[1..] + b;
      BytesConcat(a[1..], b);
    }
  }

  function Slashes(n: nat): (s: string)
    ensures |s| == n && forall i :: 0 <= i < n ==> s[i] == '\\'
  {
    seq(n, i => '\\')
  }

  /** What stands between the quotes, with `n` backslashes still pending. */
  function QuotedBody(b: string, n: nat): string {
    if b == "" then Slashes(2 * n)
    else if b[0] == '\\' then QuotedBody(b[1..], n + 1)
    else if b[0] == '"' then Slashes(2 * n + 1) + "\"" + QuotedBody(b[1..], 0)
    else Slashes(n) + [b[0]] + QuotedBody(b[1..], 0)
  }

  function Quoted(arg: string): string {
    "\"" + QuotedBody(Bytes(arg), 0) + "\""
  }

  // A run of `k` backslashes moves into the pending count.
  lemma {:induction false} PendingSlashes(b: string, n: nat, k: nat)
    requires k <= |b| && forall j :: 0 <= j < k ==> b[j] == '\\'
    ensures QuotedBody(b, n) == QuotedBody(b[k..], n + k)
    decreases k
  {
    if k > 0 {
      PendingSlashes(b[1..], n + 1, k - 1);
      assert b[1..][k - 1..] == b[k..];
    } else {
      assert b[0..] == b;
    }
  }

  // What one pass of the printing loop appends: the `k` backslashes at `i` and
  // the character behind them.
  function Chunk(b: string, i: nat, k: nat): string
    requires i + k <= |b|
  {
    if i + k == |b| then Slashes(k * 2)
    else if b[i + k] == '"' then Slashes(k * 2 + 1) + "\""
    else Slashes(k) + [b[i + k]]
  }

  // Where the loop stands afterwards.
  function Next(b: string, i: nat, k: nat): (j: nat)
    requires i + k <= |b|
    ensures j <= |b|
  {
    if i + k == |b| then |b| else i + k + 1
  }

  lemma ChunkStep(b: string, i: nat, k: nat)
    requires i + k <= |b| && forall j :: i <= j < i + k ==> b[j] == '\\'
    requires i + k < |b| ==> b[i + k] != '\\'
    ensures QuotedBody(b[i..], 0) == Chunk(b, i, k) + QuotedBody(b[Next(b, i, k)..], 0)
  {
    PendingSlashes(b[i..], 0, k);
    assert b[i..][k..] == b[i + k..];
    if i + k == |b| {
      assert b[i + k..] == "";
    } else {
      assert b[i + k..][1..] == b[i + k + 1..];
    }
  }

  /** The inner loop of the printer and of the parser: count the backslashes at
      `start`. */
  method CountSlashes(b: string, start: nat) returns (n: nat)
    requires start <= |b|
    ensures start + n <= |b| && forall j :: start <= j < start + n ==> b[j] == '\\'
    ensures start + n < |b| ==> b[start + n] != '\\'
  {
    n := 0;
    while start + n < |b| && b[start + n] == '\\'
      invariant start + n <= |b|
      invariant forall j :: start <= j < start + n ==> b[j] == '\\'
    {
      n := n + 1;
    }
  }

  /** `quote_arg`. */
  method QuoteArg(arg: string) returns (out: string)
    ensures out == Quoted(arg)
  {
    var bytes := Bytes(arg);
    ghost var goal := "\"" + QuotedBody(bytes, 0);
    out := "\"";
    var i := 0;
    assert bytes[0..] == bytes;
    while i < |bytes|
      invariant 0 <= i <= |bytes|
      invariant out + QuotedBody(bytes[i..], 0) == goal
    {
      ghost var start, sofar := i, out;
      var backslashes := CountSlashes(bytes, i);
      i := i + backslashes;
      ChunkStep(bytes, start, backslashes);
      if i == |bytes| {
        out := out + Slashes(backslashes * 2);
      } else if bytes[i] == '"' {
        out := out + (Slashes(backslashes * 2 + 1) + "\"");
        i := i + 1;
      } else {
        out := out + (Slashes(backslashes) + [bytes[i]]);
        i := i + 1;
      }
      Reassociate(sofar, Chunk(bytes, start, backslashes), QuotedBody(bytes[i..], 0));
    }
    assert bytes[i..] == "";
    out := out + "\"";
  }

  lemma Reassociate(a: string, b: string, c: string)
    ensures (a + b) + c == a + (b + c)
  {
  }

  // -------------------------------------------------------------------------
  // Byte by byte
  // -------------------------------------------------------------------------

  /** The backslashes at `i`, if any, are followed by a quote or by the end. */
  predicate BeforeQuote(b: string, i: nat)
    requires i <= |b|
    decreases |b| - i
  {
    i == |b| || b[i] == '"' || (b[i] == '\\' && BeforeQuote(b, i + 1))
  }

  /** Each byte by itself, with one more backslash in front if it is a quote or one
      of the backslashes before a quote or the end. */
  function Escaped(b: string, i: nat): string
    requires i <= |b|
    decreases |b| - i
  {
    if i == |b| then ""
    else (if BeforeQuote(b, i) then "\\" else "") + [b[i]] + Escaped(b, i + 1)
  }

  lemma SlashesAdd(n: nat, m: nat, rest: string)
    ensures Slashes(n) + (Slashes(m) + rest) == Slashes(n + m) + rest
    ensures Slashes(1) == "\\" && Slashes(0) + rest == rest
  {
  }

  // The three kinds of byte, with `n` backslashes pending in front of them.
  lemma SlashEscapes(b: string, i: nat, n: nat, body: string)
    requires i < |b| && b[i] == '\\'
    requires body == Slashes(if BeforeQuote(b, i + 1) then 2 * (n + 1) else n + 1) + Escaped(b, i + 1)
    ensures body == Slashes(if BeforeQuote(b, i) then 2 * n else n) + Escaped(b, i)
  {
    hide Slashes;
    var rest := Escaped(b, i + 1);
    assert [b[i]] == "\\";
    if BeforeQuote(b, i) {
      SlashesAdd(2 * n, 2, rest);
      SlashesAdd(1, 1, rest);
      Reassociate("\\", "\\", rest);
    } else {
      SlashesAdd(n, 1, rest);
      SlashesAdd(0, 0, "\\" + rest);
      assert "" + [b[i]] == "\\";
    }
  }

  lemma QuoteEscapes(b: string, i: nat, n: nat)
    requires i < |b| && b[i] == '"'
    ensures Slashes(2 * n + 1) + "\"" + Escaped(b, i + 1) == Slashes(2 * n) + Escaped(b, i)
  {
    SlashesAdd(2 * n, 1, "\"" + Escaped(b, i + 1));
  }

  lemma {:induction false} BodyEscapes(b: string, i: nat, n: nat)
    requires i <= |b|
    ensures QuotedBody(b[i..], n) == Slashes(if BeforeQuote(b, i) then 2 * n else n) + Escaped(b, i)
    decreases |b| - i
  {
    if i < |b| {
      hide Slashes;
      assert b[i..][1..] == b[i + 1..];
      if b[i] == '\\' {
        BodyEscapes(b, i + 1, n + 1);
        SlashEscapes(b, i, n, QuotedBody(b[i..], n));
      } else {
        BodyEscapes(b, i + 1, 0);
        SlashesAdd(0, 0, Escaped(b, i + 1));
        if b[i] == '"' {
          QuoteEscapes(b, i, n);
        }
      }
    }
  }

  /** WHAT QUOTING ADDS: two quotes around the argument, and a backslash exactly in
      front of each quote in it and of each backslash that a quote or the end
      follows. */
  lemma QuotingIsLocal(arg: string)
    ensures Quoted(arg) == "\"" + Escaped(Bytes(arg), 0) + "\""
  {
    BodyEscapes(Bytes(arg), 0, 0);
    assert Bytes(arg)[0..] == Bytes(arg);
    SlashesAdd(0, 0, Escaped(Bytes(arg), 0));
  }
}
