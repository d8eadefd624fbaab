/** `autostart_cmd.rs`: the command lines of the logon task, and the
    `CommandLineToArgvW` parser that undoes them. */
module Autostart {
  import opened Text
  import opened Wrappers

  const TASK_NAME := "Bluetooth Force"

  predicate IsBlank(c: char) {
    c == ' ' || c == '\t'
  }

  /** The parser as a machine that reads one character at a time: `n`
      backslashes pending, argument text `cur`, and the two flags. A run of
      backslashes that no quote follows extends `cur` but does not start an
      argument. */
  function Parse(s: string, n: nat, cur: string, inQuotes: bool, started: bool): seq<string>
    decreases |s|
  {
    if s == "" then (if started then [cur + Slashes(n)] else [])
    else
      var c, rest := s[0], s[1..];
      if c == '\\' then Parse(rest, n + 1, cur, inQuotes, started)
      else if c == '"' then
        if n % 2 == 1 then Parse(rest, 0, cur + Slashes(n / 2) + "\"", inQuotes, true)
        else Parse(rest, 0, cur + Slashes(n / 2), !inQuotes, true)
      else if IsBlank(c) && !inQuotes then
        if started then [cur + Slashes(n)] + Parse(rest, 0, "", false, false)
        else Parse(rest, 0, cur + Slashes(n), false, false)
      else Parse(rest, 0, cur + Slashes(n) + [c], inQuotes, true)
  }

  function Argv(cmdline: string): seq<string> {
    Parse(cmdline, 0, "", false, false)
  }

  lemma {:induction false} ParseSlashes(s: string, k: nat, n: nat, cur: string, q: bool, st: bool)
    requires k <= |s| && forall j :: 0 <= j < k ==> s[j] == '\\'
    ensures Parse(s, n, cur, q, st) == Parse(s[k..], n + k, cur, q, st)
    decreases k
  {
    if k > 0 {
      ParseSlashes(s[1..], k - 1, n + 1, cur, q, st);
      assert s[1..][k - 1..] == s[k..];
    } else {
      assert s[0..] == s;
    }
  }

  // `push`ing the same character `n` times.
  method PushSlashes(s: string, n: nat) returns (r: string)
    ensures r == s + Slashes(n)
  {
    r := s;
    var k := 0;
    while k < n
      invariant 0 <= k <= n && r == s + Slashes(k)
    {
      r := r + ['\\'];
      k := k + 1;
    }
  }

  // One character in front of which no backslash is pending.
  lemma PlainChar(s: string, cur: string, q: bool, st: bool)
    requires s != "" && s[0] != '\\'
    ensures s[0] == '"' ==> Parse(s, 0, cur, q, st) == Parse(s[1..], 0, cur, !q, true)
    ensures IsBlank(s[0]) && !q ==>
      Parse(s, 0, cur, q, st)
      == if st then [cur] + Parse(s[1..], 0, "", false, false) else Parse(s[1..], 0, cur, false, false)
    ensures s[0] != '"' && (!IsBlank(s[0]) || q) ==>
      Parse(s, 0, cur, q, st) == Parse(s[1..], 0, cur + [s[0]], q, true)
  {
    assert cur + Slashes(0) == cur;
  }

  // A quote behind `n` backslashes.
  lemma SlashedQuote(s: string, n: nat, cur: string, q: bool, st: bool)
    requires s != "" && s[0] == '"'
    ensures Parse(s, n, cur, q, st)
            == if n % 2 == 1 then Parse(s[1..], 0, cur + Slashes(n / 2) + "\"", q, true)
               else Parse(s[1..], 0, cur + Slashes(n / 2), !q, true)
  {
  }

  /** `argv_of`. */
  method ArgvOf(cmdline: string) returns (args: seq<string>)
    ensures args == Argv(cmdline)
  {
    var b := cmdline;
    args := [];
    var cur, inQuotes, started, i := "", false, false, 0;
    assert b[0..] == b;
    while i < |b|
      invariant 0 <= i <= |b|
      invariant args + Parse(b[i..], 0, cur, inQuotes, started) == Argv(cmdline)
      decreases |b| - i
    {
      var c := b[i];
      ghost var start := i;
      if c == '\\' {
        var n := CountSlashes(b, i);
        i := i + n;
        ParseSlashes(b[start..], n, 0, cur, inQuotes, started);
        assert b[start..][n..] == b[i..];
        if i < |b| && b[i] == '"' {
          SlashedQuote(b[i..], n, cur, inQuotes, started);
          assert b[i..][1..] == b[i + 1..];
          cur := PushSlashes(cur, n / 2);
          if n % 2 == 1 {
            cur := cur + "\"";
          } else {
            inQuotes := !inQuotes;
          }
          started := true;
          i := i + 1;
        } else {
          ghost var before := cur;
          cur := PushSlashes(cur, n);
          FlushedSlashes(b[i..], n, before, inQuotes, started);
        }
      } else {
        assert b[i..][1..] == b[i + 1..];
        PlainChar(b[i..], cur, inQuotes, started);
        if c == '"' {
          inQuotes := !inQuotes;
          started := true;
        } else if IsBlank(c) && !inQuotes {
          if started {
            args, cur := args + [cur], "";
            started := false;
          }
        } else {
          cur := cur + [c];
          started := true;
        }
        i := i + 1;
      }
    }
    assert b[i..] == "" && cur + Slashes(0) == cur;
    if started {
      args := args + [cur];
    }
  }

  lemma FlushedSlashes(s: string, n: nat, cur: string, q: bool, st: bool)
    requires s == "" || (s[0] != '"' && s[0] != '\\')
    ensures Parse(s, n, cur, q, st) == Parse(s, 0, cur + Slashes(n), q, st)
  {
    assert cur + Slashes(n) + Slashes(0) == cur + Slashes(n);
  }

  // -------------------------------------------------------------------------
  // One quoted argument
  // -------------------------------------------------------------------------

  lemma {:induction false} SlashesThen(k: nat, t: string, n: nat, cur: string, q: bool, st: bool)
    ensures Parse(Slashes(k) + t, n, cur, q, st) == Parse(t, n + k, cur, q, st)
  {
    ParseSlashes(Slashes(k) + t, k, n, cur, q, st);
    assert (Slashes(k) + t)[k..] == t;
  }

  lemma Rejoin(x: string, b: string)
    requires b != ""
    ensures x + [b[0]] + Slashes(0) + b[1..] == x + b
  {
    assert b == [b[0]] + b[1..];
  }

  lemma SlashJoins(cur: string, n: nat, b: string)
    requires b != "" && b[0] == '\\'
    ensures cur + Slashes(n + 1) + b[1..] == cur + Slashes(n) + b
  {
    assert b == [b[0]] + b[1..];
    assert Slashes(n + 1) == Slashes(n) + ['\\'];
  }

  // One printed character other than a backslash, inside the quotes.
  lemma ParsePrintedChar(n: nat, c: char, after: string, cur: string)
    requires c != '\\'
    ensures Parse(Slashes(if c == '"' then 2 * n + 1 else n) + ([c] + after), 0, cur, true, true)
         == Parse(after, 0, cur + Slashes(n) + [c], true, true)
  {
    SlashesThen(if c == '"' then 2 * n + 1 else n, [c] + after, 0, cur, true, true);
    assert ([c] + after)[1..] == after;
  }

  // The doubled backslashes in front of the closing quote.
  lemma ParseClosing(n: nat, rest: string, cur: string)
    ensures Parse(Slashes(2 * n) + ("\"" + rest), 0, cur, true, true) == Parse(rest, 0, cur + Slashes(n), false, true)
  {
    var tail := "\"" + rest;
    SlashesThen(2 * n, tail, 0, cur, true, true);
    SlashedQuote(tail, 2 * n, cur, true, true);
    assert tail[1..] == rest;
  }

  // Inside the quotes: the printed body, followed by its closing quote, appends
  // exactly the original bytes and leaves the quotes.
  lemma {:induction false} ParseQuotedBody(b: string, n: nat, rest: string, cur: string)
    ensures Parse(QuotedBody(b, n) + "\"" + rest, 0, cur, true, true)
         == Parse(rest, 0, cur + Slashes(n) + b, false, true)
    decreases |b|
  {
    if b == "" {
      assert QuotedBody(b, n) + "\"" + rest == Slashes(2 * n) + ("\"" + rest);
      ParseClosing(n, rest, cur);
      assert cur + Slashes(n) + b == cur + Slashes(n);
    } else if b[0] == '\\' {
      ParseQuotedBody(b[1..], n + 1, rest, cur);
      SlashJoins(cur, n, b);
    } else {
      var c, after := b[0], QuotedBody(b[1..], 0) + "\"" + rest;
      assert QuotedBody(b, n) + "\"" + rest == Slashes(if c == '"' then 2 * n + 1 else n) + ([c] + after);
      ParsePrintedChar(n, c, after, cur);
      ParseQuotedBody(b[1..], 0, rest, cur + Slashes(n) + [c]);
      Rejoin(cur + Slashes(n), b);
    }
  }

  /** A quoted argument cannot break out: whatever follows it, it only appends
      its own bytes to the argument being read. */
  lemma QuotedAppends(arg: string, rest: string, cur: string, st: bool)
    ensures Parse(Quoted(arg) + rest, 0, cur, false, st) == Parse(rest, 0, cur + Bytes(arg), false, true)
  {
    var body := QuotedBody(Bytes(arg), 0) + "\"" + rest;
    assert Quoted(arg) + rest == "\"" + body;
    assert ("\"" + body)[1..] == body;
    assert cur + Slashes(0) == cur;
    ParseQuotedBody(Bytes(arg), 0, rest, cur);
    assert cur + Slashes(0) + Bytes(arg) == cur + Bytes(arg);
  }

  // -------------------------------------------------------------------------
  // Command lines as lists of words
  // -------------------------------------------------------------------------

  /** A word of a command line: printed with `quote_arg`, or pushed verbatim. */
  datatype Word = Quote(arg: string) | Verbatim(text: string) {
    function Text(): string {
      match this
      case Quote(arg) => Quoted(arg)
      case Verbatim(text) => text
    }
    function Value(): string {
      match this
      case Quote(arg) => Bytes(arg)
      case Verbatim(text) => text
    }
  }

  /** A string that survives being pushed verbatim: no blank, no quote, and at
      least one character that is not a backslash. */
  predicate RawArgument(s: string) {
    (forall c <- s :: !IsBlank(c) && c != '"') && exists c <- s :: c != '\\'
  }

  function Render(words: seq<Word>): string {
    if words == [] then ""
    else if |words| == 1 then words[0].Text()
    else words[0].Text() + " " + Render(words[1..])
  }

  function Values(words: seq<Word>): seq<string> {
    seq(|words|, i requires 0 <= i < |words| => words[i].Value())
  }

  // Unquoted text without blanks and quotes is read verbatim up to the blank.
  lemma {:induction false} ParseVerbatim(t: string, tail: string, n: nat, cur: string, st: bool)
    requires forall c <- t :: !IsBlank(c) && c != '"'
    requires tail == "" || tail[0] == ' '
    ensures var started := st || exists c <- t :: c != '\\';
            Parse(t + tail, n, cur, false, st) == Parse(tail, 0, cur + Slashes(n) + t, false, started)
    decreases |t|
  {
    if t == "" {
      assert t + tail == tail;
      FlushedSlashes(tail, n, cur, false, st);
      assert cur + Slashes(n) + t == cur + Slashes(n);
    } else {
      var t' := t[1..];
      assert (t + tail)[1..] == t' + tail;
      assert forall c <- t' :: c in t;
      assert t == [t[0]] + t';
      if t[0] == '\\' {
        ParseVerbatim(t', tail, n + 1, cur, st);
        assert cur + Slashes(n + 1) + t' == cur + Slashes(n) + t;
        assert (exists c <- t' :: c != '\\') <==> (exists c <- t :: c != '\\');
      } else {
        ParseVerbatim(t', tail, 0, cur + Slashes(n) + [t[0]], true);
        assert cur + Slashes(n) + [t[0]] + Slashes(0) + t' == cur + Slashes(n) + t;
        assert t[0] in t;
      }
    }
  }

  predicate Printable(words: seq<Word>) {
    forall w <- words :: w.Verbatim? ==> RawArgument(w.text)
  }

  lemma OneWord(w: Word, tail: string)
    requires w.Verbatim? ==> RawArgument(w.text)
    requires tail == "" || tail[0] == ' '
    ensures Parse(w.Text() + tail, 0, "", false, false) == Parse(tail, 0, w.Value(), false, true)
  {
    assert "" + w.Value() == w.Value();
    match w
    case Quote(arg) => QuotedAppends(arg, tail, "", false);
    case Verbatim(text) =>
      ParseVerbatim(text, tail, 0, "", false);
      assert "" + Slashes(0) + text == text;
  }

  /** One word in front of a command line adds one argument in front. */
  lemma WordInFront(w: Word, line: string)
    requires w.Verbatim? ==> RawArgument(w.text)
    ensures Argv(w.Text() + " " + line) == [w.Value()] + Argv(line)
    ensures Argv(w.Text()) == [w.Value()]
  {
    OneWord(w, " " + line);
    assert w.Text() + " " + line == w.Text() + (" " + line);
    assert (" " + line)[1..] == line;
    OneWord(w, "");
    assert w.Text() + "" == w.Text();
    assert w.Value() + Slashes(0) == w.Value();
  }

  /** THE ROUND TRIP: parsing a rendered command line gives back its words. */
  lemma {:induction false} RenderParsesBack(words: seq<Word>)
    requires Printable(words)
    ensures Argv(Render(words)) == Values(words)
    decreases |words|
  {
    if words != [] {
      var w, rest := words[0], words[1..];
      assert Values(words) == [w.Value()] + Values(rest);
      assert w in words;
      WordInFront(w, Render(rest));
      if rest != [] {
        assert forall x <- rest :: x in words;
        RenderParsesBack(rest);
      }
    }
  }

  // -------------------------------------------------------------------------
  // The commands the daemon builds
  // -------------------------------------------------------------------------

  predicate HasAudio(audio: Option<string>) {
    audio.Some? && audio.value != ""
  }

  /** `task_action`. */
  function TaskAction(exe: string, mac: string, audio: Option<string>): string {
    Quoted(exe) + " " + mac + (if HasAudio(audio) then " " + Quoted(audio.value) else "")
  }

  /** `create_cmdline`. */
  function CreateCmdline(schtasks: string, exe: string, mac: string, audio: Option<string>): string {
    Quoted(schtasks) + " /Create /TN " + Quoted(TASK_NAME) + " /TR " + Quoted(TaskAction(exe, mac, audio))
    + " /SC ONLOGON /RL HIGHEST /F"
  }

  function DeleteCmdline(schtasks: string): string {
    Quoted(schtasks) + " /Delete /TN " + Quoted(TASK_NAME) + " /F"
  }

  function QueryCmdline(schtasks: string): string {
    Quoted(schtasks) + " /Query /TN " + Quoted(TASK_NAME)
  }

  // A fixed word of the daemon's own command lines.
  predicate Literal(text: string) {
    text != "" && text[0] != '\\' && forall i :: 0 <= i < |text| ==> !IsBlank(text[i]) && text[i] != '"'
  }

  lemma LiteralInFront(text: string, line: string)
    requires Literal(text)
    ensures Argv(text + " " + line) == [text] + Argv(line)
    ensures Argv(text) == [text]
  {
    assert text[0] in text;
    WordInFront(Verbatim(text), line);
  }

  lemma QuotedInFront(arg: string, line: string)
    ensures Argv(Quoted(arg) + " " + line) == [Bytes(arg)] + Argv(line)
    ensures Argv(Quoted(arg)) == [Bytes(arg)]
  {
    WordInFront(Quote(arg), line);
  }

  lemma FiveLiterals(a: string, b: string, c: string, d: string, e: string)
    requires Literal(a) && Literal(b) && Literal(c) && Literal(d) && Literal(e)
    ensures Argv(a + " " + (b + " " + (c + " " + (d + " " + e)))) == [a, b, c, d, e]
  {
    LiteralInFront(d, e);
    LiteralInFront(e, "");
    LiteralInFront(c, d + " " + e);
    LiteralInFront(b, c + " " + (d + " " + e));
    LiteralInFront(a, b + " " + (c + " " + (d + " " + e)));
  }

  // The program, a verb and a switch in front of a command line.
  lemma VerbInFront(schtasks: string, verb: string, tn: string, line: string)
    requires Literal(verb) && Literal(tn)
    ensures Argv(Quoted(schtasks) + " " + (verb + " " + (tn + " " + line))) == [Bytes(schtasks), verb, tn] + Argv(line)
  {
    LiteralInFront(tn, line);
    LiteralInFront(verb, tn + " " + line);
    QuotedInFront(schtasks, verb + " " + (tn + " " + line));
  }

  lemma NameAndAction(name: string, tr: string, action: string, tail: string)
    requires Literal(tr)
    ensures Argv(Quoted(name) + " " + (tr + " " + (Quoted(action) + " " + tail)))
         == [Bytes(name), tr, Bytes(action)] + Argv(tail)
  {
    QuotedInFront(action, tail);
    LiteralInFront(tr, Quoted(action) + " " + tail);
    QuotedInFront(name, tr + " " + (Quoted(action) + " " + tail));
  }

  lemma Six(a: string, b: string, c: string, d: string, e: string, f: string, tail: seq<string>)
    ensures [a, b, c] + ([d, e, f] + tail) == [a, b, c, d, e, f] + tail
  {
  }

  lemma CreateShape(schtasks: string, create: string, tn: string, name: string, tr: string, action: string,
                    tail: string)
    requires Literal(create) && Literal(tn) && Literal(tr)
    ensures Argv(Quoted(schtasks) + " " + (create + " " + (tn + " " + (Quoted(name) + " " +
                   (tr + " " + (Quoted(action) + " " + tail))))))
         == [Bytes(schtasks), create, tn, Bytes(name), tr, Bytes(action)] + Argv(tail)
  {
    VerbInFront(schtasks, create, tn, Quoted(name) + " " + (tr + " " + (Quoted(action) + " " + tail)));
    NameAndAction(name, tr, action, tail);
    Six(Bytes(schtasks), create, tn, Bytes(name), tr, Bytes(action), Argv(tail));
  }

  lemma TaskNameIsAscii()
    ensures IsAscii(TASK_NAME)
  {
  }

  lemma TaskNameBytes()
    ensures Bytes(TASK_NAME) == TASK_NAME
  {
    TaskNameIsAscii();
    AsciiBytes(TASK_NAME);
  }

  // The literal text between the quoted parts is the same either way.
  lemma Glue(a: string, b: string, c: string)
    ensures a + " /Create /TN " + b + " /TR " + c + " /SC ONLOGON /RL HIGHEST /F"
         == a + " " + ("/Create" + " " + ("/TN" + " " + (b + " " + ("/TR" + " " + (c + " " +
              ("/SC" + " " + ("ONLOGON" + " " + ("/RL" + " " + ("HIGHEST" + " " + "/F")))))))))
  {
    assert " /Create /TN " == " " + ("/Create" + (" " + ("/TN" + " ")));
    assert " /TR " == " " + ("/TR" + " ");
    assert " /SC ONLOGON /RL HIGHEST /F"
        == " " + ("/SC" + " " + ("ONLOGON" + " " + ("/RL" + " " + ("HIGHEST" + " " + "/F"))));
  }

  lemma Eleven(a: string, b: string, c: string, d: string, e: string, f: string, tail: seq<string>,
               g: string, h: string, i: string, j: string, k: string)
    requires tail == [g, h, i, j, k]
    ensures [a, b, c, d, e, f] + tail == [a, b, c, d, e, f, g, h, i, j, k]
  {
  }

  lemma NamedCreateParses(schtasks: string, name: string, action: string)
    ensures Argv(Quoted(schtasks) + " /Create /TN " + Quoted(name) + " /TR " + Quoted(action)
                 + " /SC ONLOGON /RL HIGHEST /F")
         == [Bytes(schtasks), "/Create", "/TN", Bytes(name), "/TR", Bytes(action),
             "/SC", "ONLOGON", "/RL", "HIGHEST", "/F"]
  {
    var tail := "/SC" + " " + ("ONLOGON" + " " + ("/RL" + " " + ("HIGHEST" + " " + "/F")));
    Glue(Quoted(schtasks), Quoted(name), Quoted(action));
    FiveLiterals("/SC", "ONLOGON", "/RL", "HIGHEST", "/F");
    CreateShape(schtasks, "/Create", "/TN", name, "/TR", action, tail);
    Eleven(Bytes(schtasks), "/Create", "/TN", Bytes(name), "/TR", Bytes(action), Argv(tail),
      "/SC", "ONLOGON", "/RL", "HIGHEST", "/F");
  }

  /** What `schtasks` receives: eleven arguments, the action being exactly one. */
  lemma CreateCmdlineParses(schtasks: string, exe: string, mac: string, audio: Option<string>)
    ensures Argv(CreateCmdline(schtasks, exe, mac, audio)) ==
      [Bytes(schtasks), "/Create", "/TN", TASK_NAME, "/TR", Bytes(TaskAction(exe, mac, audio)),
       "/SC", "ONLOGON", "/RL", "HIGHEST", "/F"]
  {
    TaskNameBytes();
    NamedCreateParses(schtasks, TASK_NAME, TaskAction(exe, mac, audio));
  }

  lemma DeleteShape(schtasks: string, verb: string, tn: string, name: string, f: string)
    requires Literal(verb) && Literal(tn) && Literal(f)
    ensures Argv(Quoted(schtasks) + " " + (verb + " " + (tn + " " + (Quoted(name) + " " + f))))
         == [Bytes(schtasks), verb, tn, Bytes(name), f]
    ensures Argv(Quoted(schtasks) + " " + (verb + " " + (tn + " " + Quoted(name))))
         == [Bytes(schtasks), verb, tn, Bytes(name)]
  {
    LiteralInFront(f, "");
    QuotedInFront(name, f);
    VerbInFront(schtasks, verb, tn, Quoted(name));
    VerbInFront(schtasks, verb, tn, Quoted(name) + " " + f);
  }

  lemma NamedDeleteParses(schtasks: string, name: string)
    ensures Argv(Quoted(schtasks) + " /Delete /TN " + Quoted(name) + " /F")
         == [Bytes(schtasks), "/Delete", "/TN", Bytes(name), "/F"]
    ensures Argv(Quoted(schtasks) + " /Query /TN " + Quoted(name))
         == [Bytes(schtasks), "/Query", "/TN", Bytes(name)]
  {
    DeleteShape(schtasks, "/Delete", "/TN", name, "/F");
    DeleteShape(schtasks, "/Query", "/TN", name, "/F");
    DeleteGlue(Quoted(schtasks), Quoted(name));
  }

  /** All three verbs name the same task. */
  lemma DeleteAndQueryParse(schtasks: string)
    ensures Argv(DeleteCmdline(schtasks)) == [Bytes(schtasks), "/Delete", "/TN", TASK_NAME, "/F"]
    ensures Argv(QueryCmdline(schtasks)) == [Bytes(schtasks), "/Query", "/TN", TASK_NAME]
  {
    TaskNameBytes();
    NamedDeleteParses(schtasks, TASK_NAME);
  }

  lemma DeleteGlue(a: string, b: string)
    ensures a + " /Delete /TN " + b + " /F" == a + " " + ("/Delete" + " " + ("/TN" + " " + (b + " " + "/F")))
    ensures a + " /Query /TN " + b == a + " " + ("/Query" + " " + ("/TN" + " " + b))
  {
    assert " /Delete /TN " == " " + ("/Delete" + (" " + ("/TN" + " ")));
    assert " /Query /TN " == " " + ("/Query" + (" " + ("/TN" + " ")));
    assert " /F" == " " + "/F";
  }

  /** Any list of arguments, quoted and joined by blanks, is recovered exactly
      when every argument is ASCII. */
  lemma QuotedListRoundTrip(args: seq<string>)
    ensures var line := Render(seq(|args|, i requires 0 <= i < |args| => Quote(args[i])));
            Argv(line) == args <==> forall a <- args :: IsAscii(a)
  {
    var words := seq(|args|, i requires 0 <= i < |args| => Quote(args[i]));
    RenderParsesBack(words);
    forall i | 0 <= i < |args|
      ensures Values(words)[i] == args[i] <==> IsAscii(args[i])
    {
      BytesIdentityIffAscii(args[i]);
    }
    if forall a <- args :: IsAscii(a) {
      assert Values(words) == args;
    } else {
      var a :| a in args && !IsAscii(a);
      var i :| 0 <= i < |args| && args[i] == a;
      assert Values(words)[i] != args[i];
    }
  }

  // -------------------------------------------------------------------------
  // The task action pushes the address verbatim: when is that safe?
  //
  // Every character read contributes at most its weight to the parsed
  // arguments. A blank or a quote in the address loses weight that nothing
  // later can give back, so the arguments cannot be the intended ones.
  // -------------------------------------------------------------------------

  function Weight(s: string): nat {
    if s == "" then 0 else (if s[0] == '"' then 2 else 1) + Weight(s[1..])
  }

  function TotalWeight(args: seq<string>): nat {
    if args == [] then 0 else Weight(args[0]) + TotalWeight(args[1..])
  }

  lemma {:induction false} WeightConcat(a: string, b: string)
    ensures Weight(a + b) == Weight(a) + Weight(b)
    decreases |a|
  {
    if a == "" {
      assert a + b == b;
    } else {
      assert (a + b)[1..] == a[1..] + b;
      WeightConcat(a[1..], b);
    }
  }

  lemma {:induction false} WeightSlashes(n: nat)
    ensures Weight(Slashes(n)) == n
    decreases n
  {
    if n > 0 {
      assert Slashes(n)[1..] == Slashes(n - 1);
      WeightSlashes(n - 1);
    }
  }

  lemma WeightPushed(cur: string, n: nat, c: char)
    ensures Weight(cur + Slashes(n)) == Weight(cur) + n
    ensures Weight(cur + Slashes(n) + [c]) == Weight(cur) + n + Weight([c])
    ensures Weight([c]) == if c == '"' then 2 else 1
  {
    WeightConcat(cur, Slashes(n));
    WeightSlashes(n);
    WeightConcat(cur + Slashes(n), [c]);
  }

  lemma TotalWeightCons(a: string, rest: seq<string>)
    ensures TotalWeight([a] + rest) == Weight(a) + TotalWeight(rest)
  {
    assert ([a] + rest)[1..] == rest;
  }

  // The parser between two characters.
  datatype Reader = Reader(n: nat, cur: string, q: bool, started: bool) {
    function Load(): nat {
      Weight(cur) + n
    }
    function Rest(s: string): seq<string> {
      Parse(s, n, cur, q, started)
    }
  }

  // What reading `c` loses at least.
  function Loss(r: Reader, c: char): nat {
    if c == '"' then (if r.n % 2 == 1 then 1 else 2)
    else if IsBlank(c) && !r.q then 1
    else 0
  }

  // Reading one character: the next reader, and the arguments it completes.
  function Next(r: Reader, c: char): Reader {
    if c == '\\' then r.(n := r.n + 1)
    else if c == '"' then
      if r.n % 2 == 1 then Reader(0, r.cur + Slashes(r.n / 2) + "\"", r.q, true)
      else Reader(0, r.cur + Slashes(r.n / 2), !r.q, true)
    else if IsBlank(c) && !r.q then
      if r.started then Reader(0, "", false, false) else Reader(0, r.cur + Slashes(r.n), false, false)
    else Reader(0, r.cur + Slashes(r.n) + [c], r.q, true)
  }

  function Emits(r: Reader, c: char): nat {
    if IsBlank(c) && !r.q && r.started then r.Load() else 0
  }

  lemma NextReads(r: Reader, c: char, s: string)
    ensures TotalWeight(r.Rest([c] + s)) == Emits(r, c) + TotalWeight(Next(r, c).Rest(s))
  {
    assert ([c] + s)[1..] == s;
    if IsBlank(c) && !r.q && r.started {
      TotalWeightCons(r.cur + Slashes(r.n), Next(r, c).Rest(s));
      WeightPushed(r.cur, r.n, c);
    }
  }

  lemma NextWeighs(r: Reader, c: char)
    ensures Emits(r, c) + Next(r, c).Load() + Loss(r, c) <= r.Load() + Weight([c])
    ensures c == '"' ==> Next(r, c).Load() == Weight(r.cur) + r.n / 2 + (if r.n % 2 == 1 then 2 else 0)
  {
    WeightPushed(r.cur, r.n, c);
    WeightPushed(r.cur, r.n / 2, '"');
  }

  lemma ReadOne(r: Reader, c: char, s: string)
    ensures TotalWeight(r.Rest([c] + s)) == Emits(r, c) + TotalWeight(Next(r, c).Rest(s))
    ensures Emits(r, c) + Next(r, c).Load() + Loss(r, c) <= r.Load() + Weight([c])
    ensures c == '"' ==> Next(r, c).Load() == Weight(r.cur) + r.n / 2 + (if r.n % 2 == 1 then 2 else 0)
  {
    NextReads(r, c, s);
    NextWeighs(r, c);
  }

  lemma AtEnd(r: Reader)
    ensures TotalWeight(r.Rest("")) <= r.Load()
  {
    WeightPushed(r.cur, r.n, 'x');
    var text := r.cur + Slashes(r.n);
    TotalWeightCons(text, []);
    assert [text] + [] == [text];
  }

  lemma ClosingQuoteWeight(n: nat, cur: string, q: bool, st: bool)
    ensures TotalWeight(Parse(Slashes(2 * n) + "\"", 0, cur, q, st)) <= Weight(cur) + n
  {
    var r := Reader(2 * n, cur, q, st);
    SlashesThen(2 * n, "\"", 0, cur, q, st);
    assert ['"'] + "" == "\"";
    ReadOne(r, '"', "");
    AtEnd(Next(r, '"'));
  }

  // A printed character, quoted or not, weighs what it is.
  lemma PrintedCharWeight(n: nat, c: char, after: string, cur: string, q: bool, st: bool) returns (r: Reader)
    requires c != '\\'
    ensures var k := if c == '"' then 2 * n + 1 else n;
            TotalWeight(Parse(Slashes(k) + ([c] + after), 0, cur, q, st)) + r.Load()
            <= Weight(cur) + n + Weight([c]) + TotalWeight(r.Rest(after))
    ensures r.n == 0
  {
    var k := if c == '"' then 2 * n + 1 else n;
    var before := Reader(k, cur, q, st);
    SlashesThen(k, [c] + after, 0, cur, q, st);
    r := Next(before, c);
    ReadOne(before, c, after);
    PrintedLoad(n, c, cur, q, st);
  }

  // The doubled backslashes and the escape are not part of what is read.
  lemma PrintedLoad(n: nat, c: char, cur: string, q: bool, st: bool)
    requires c != '\\'
    ensures var before := Reader(if c == '"' then 2 * n + 1 else n, cur, q, st);
            Emits(before, c) + Next(before, c).Load() <= Weight(cur) + n + Weight([c])
  {
    NextWeighs(Reader(if c == '"' then 2 * n + 1 else n, cur, q, st), c);
    WeightPushed(cur, n, c);
  }

  // A printed body never weighs more than its argument, whatever the state.
  lemma {:induction false} BodyWeight(b: string, n: nat, cur: string, q: bool, st: bool)
    ensures TotalWeight(Parse(QuotedBody(b, n) + "\"", 0, cur, q, st)) <= Weight(cur) + n + Weight(b)
    decreases |b|
  {
    if b == "" {
      ClosingQuoteWeight(n, cur, q, st);
    } else {
      var b', c := b[1..], b[0];
      if c == '\\' {
        BodyWeight(b', n + 1, cur, q, st);
      } else {
        var after := QuotedBody(b', 0) + "\"";
        assert QuotedBody(b, n) + "\"" == Slashes(if c == '"' then 2 * n + 1 else n) + ([c] + after);
        WeightPushed("", 0, c);
        var r := PrintedCharWeight(n, c, after, cur, q, st);
        BodyWeight(b', 0, r.cur, r.q, r.started);
      }
    }
  }

  // What follows the address in a task action.
  function AudioTail(audio: Option<string>): string {
    if HasAudio(audio) then " " + Quoted(audio.value) else ""
  }

  function AudioArgs(audio: Option<string>): seq<string> {
    if HasAudio(audio) then [Bytes(audio.value)] else []
  }

  // Inside quotes the separating blank is content, hence the extra unit.
  lemma TailWeight(audio: Option<string>, r: Reader)
    ensures TotalWeight(r.Rest(AudioTail(audio))) <= r.Load() + TotalWeight(AudioArgs(audio)) + (if r.q then 1 else 0)
  {
    if HasAudio(audio) {
      var b := Bytes(audio.value);
      var body := QuotedBody(b, 0) + "\"";
      assert AudioTail(audio) == [' '] + (['"'] + body);
      var r1 := Next(r, ' ');
      var r2 := Next(r1, '"');
      ReadOne(r, ' ', ['"'] + body);
      ReadOne(r1, '"', body);
      BodyWeight(b, 0, r2.cur, r2.q, r2.started);
      TotalWeightCons(b, []);
      assert [b] + [] == [b];
    } else {
      AtEnd(r);
    }
  }

  // A quote, or a blank met outside quotes: text that cannot come back verbatim.
  predicate Damaging(s: string, q: bool) {
    '"' in s || (!q && exists c <- s :: IsBlank(c))
  }

  // Damage shows up as a loss now, or lies ahead.
  lemma DamageNowOrLater(c: char, s: string, r: Reader)
    ensures Damaging([c] + s, r.q) ==> Loss(r, c) > 0 || Damaging(s, r.q)
  {
    if Damaging([c] + s, r.q) && Loss(r, c) == 0 && '"' !in s {
      var d :| d in [c] + s && IsBlank(d);
      assert d in s;
    }
  }

  function One(b: bool): nat {
    if b then 1 else 0
  }

  // A quote that flips the quoting loses two units, everything else keeps it.
  lemma QuoteBalance(c: char, s: string, r: Reader)
    ensures One(Next(r, c).q) + One(Damaging([c] + s, r.q))
         <= One(r.q) + One(Damaging(s, Next(r, c).q)) + Loss(r, c)
  {
    DamageNowOrLater(c, s, r);
  }

  lemma LossStep(c: char, s: string, tail: string, r: Reader)
    ensures TotalWeight(r.Rest([c] + s + tail)) + Next(r, c).Load() + Loss(r, c)
         <= TotalWeight(Next(r, c).Rest(s + tail)) + r.Load() + Weight([c])
  {
    assert [c] + s + tail == [c] + (s + tail);
    ReadOne(r, c, s + tail);
  }

  lemma {:induction false} DamageIsLost(s: string, audio: Option<string>, r: Reader)
    ensures TotalWeight(r.Rest(s + AudioTail(audio))) + One(Damaging(s, r.q))
         <= r.Load() + Weight(s) + TotalWeight(AudioArgs(audio)) + One(r.q)
    decreases |s|
  {
    if s == "" {
      assert s + AudioTail(audio) == AudioTail(audio);
      TailWeight(audio, r);
    } else {
      var c, s' := s[0], s[1..];
      assert s == [c] + s';
      LossStep(c, s', AudioTail(audio), r);
      WeightConcat([c], s');
      QuoteBalance(c, s', r);
      DamageIsLost(s', audio, Next(r, c));
    }
  }

  /** The action of the logon task parses into exe, address and audio name
      exactly when the address is a raw argument. */
  lemma TaskActionParsesIffRaw(exe: string, mac: string, audio: Option<string>)
    ensures Argv(TaskAction(exe, mac, audio)) == [Bytes(exe), mac] + AudioArgs(audio) <==> RawArgument(mac)
  {
    var tail := AudioTail(audio);
    var r := Reader(0, "", false, false);
    assert TaskAction(exe, mac, audio) == Quoted(exe) + " " + (mac + tail);
    QuotedInFront(exe, mac + tail);
    var rest := r.Rest(mac + tail);
    assert Argv(TaskAction(exe, mac, audio)) == [Bytes(exe)] + rest;
    assert [Bytes(exe), mac] + AudioArgs(audio) == [Bytes(exe)] + ([mac] + AudioArgs(audio));
    assert Argv(TaskAction(exe, mac, audio)) == [Bytes(exe), mac] + AudioArgs(audio)
           <==> rest == [mac] + AudioArgs(audio) by {
      assert ([Bytes(exe)] + rest)[1..] == rest;
      assert ([Bytes(exe)] + ([mac] + AudioArgs(audio)))[1..] == [mac] + AudioArgs(audio);
    }
    if Damaging(mac, false) {
      DamageIsLost(mac, audio, r);
      TotalWeightCons(mac, AudioArgs(audio));
      assert Weight("") == 0;
      var c :| c in mac && (IsBlank(c) || c == '"');
    } else {
      UndamagedAddress(mac, audio);
      forall c <- mac ensures !IsBlank(c) && c != '"' {}
    }
  }

  lemma UndamagedAddress(mac: string, audio: Option<string>)
    requires !Damaging(mac, false)
    ensures Argv(mac + AudioTail(audio)) == [mac] + AudioArgs(audio) <==> exists c <- mac :: c != '\\'
  {
    var tail := AudioTail(audio);
    var started := exists c <- mac :: c != '\\';
    ParseVerbatim(mac, tail, 0, "", false);
    assert "" + Slashes(0) + mac == mac;
    assert Argv(mac + tail) == Parse(tail, 0, mac, false, started);
    assert mac + Slashes(0) == mac;
    if HasAudio(audio) {
      var q := Quoted(audio.value);
      assert tail[1..] == q;
      assert q + "" == q;
      QuotedAppends(audio.value, "", if started then "" else mac, false);
      var text := if started then "" + Bytes(audio.value) else mac + Bytes(audio.value);
      assert text + Slashes(0) == text;
      assert "" + Bytes(audio.value) == Bytes(audio.value);
    }
  }

  lemma AsciiConcat(a: string, b: string)
    requires IsAscii(a) && IsAscii(b)
    ensures IsAscii(a + b)
  {
  }

  lemma AsciiAction(exe: string, mac: string, audio: Option<string>)
    requires IsAscii(exe) && IsAscii(mac) && (audio.Some? ==> IsAscii(audio.value))
    ensures Bytes(TaskAction(exe, mac, audio)) == TaskAction(exe, mac, audio)
    ensures Bytes(exe) == exe && (audio.Some? ==> Bytes(audio.value) == audio.value)
  {
    AsciiQuoted(exe);
    AsciiConcat(Quoted(exe), " ");
    AsciiConcat(Quoted(exe) + " ", mac);
    if audio.Some? {
      AsciiQuoted(audio.value);
      AsciiConcat(" ", Quoted(audio.value));
    }
    AsciiConcat(Quoted(exe) + " " + mac, if HasAudio(audio) then " " + Quoted(audio.value) else "");
    AsciiBytes(TaskAction(exe, mac, audio));
  }

  /** Which arguments those are: the audio name is the third one unless it is missing
      or empty. */
  lemma ActionArguments(exe: string, mac: string, audio: string)
    requires RawArgument(mac)
    ensures Argv(TaskAction(exe, mac, None)) == [Bytes(exe), mac]
    ensures Argv(TaskAction(exe, mac, Some(""))) == [Bytes(exe), mac]
    ensures audio != "" ==> Argv(TaskAction(exe, mac, Some(audio))) == [Bytes(exe), mac, Bytes(audio)]
  {
    TaskActionParsesIffRaw(exe, mac, None);
    TaskActionParsesIffRaw(exe, mac, Some(""));
    TaskActionParsesIffRaw(exe, mac, Some(audio));
  }

  /** Both levels of quoting together: `schtasks` stores one argument, and the
      task later starts the exe with exactly the configured arguments. */
  lemma NestedActionSurvives(schtasks: string, exe: string, mac: string, audio: Option<string>)
    requires IsAscii(exe) && IsAscii(mac) && (audio.Some? ==> IsAscii(audio.value))
    ensures var action := TaskAction(exe, mac, audio);
            Argv(CreateCmdline(schtasks, exe, mac, audio)) ==
              [Bytes(schtasks), "/Create", "/TN", TASK_NAME, "/TR", action, "/SC", "ONLOGON", "/RL", "HIGHEST", "/F"]
            && (Argv(action) == [exe, mac] + (if HasAudio(audio) then [audio.value] else []) <==> RawArgument(mac))
  {
    AsciiAction(exe, mac, audio);
    CreateCmdlineParses(schtasks, exe, mac, audio);
    TaskActionParsesIffRaw(exe, mac, audio);
  }

  lemma AsciiQuoted(arg: string)
    requires IsAscii(arg)
    ensures IsAscii(Quoted(arg)) && Bytes(arg) == arg
  {
    AsciiBytes(arg);
    AsciiBody(arg, 0);
  }

  lemma {:induction false} AsciiBody(b: string, n: nat)
    requires IsAscii(b)
    ensures IsAscii(QuotedBody(b, n))
    decreases |b|
  {
    if b != "" {
      AsciiBody(b[1..], n + 1);
      AsciiBody(b[1..], 0);
    }
  }
}
