/** `dedup.rs`: a fixed table of slots against the unbounded map it stands for. */
module Dedup {
  import opened Config
  import opened Numeric
  import opened Wrappers

  /** What the caller should print. */
  datatype Action = Print | Suppress(n: u32) | PrintWithCount(n: u32, since: int)

  /** A nonzero hash; 0 marks an empty slot. */
  type Key = k: nat | k != 0 witness 1

  /** One call of `decide` for a line that may be suppressed, and its answer. */
  datatype Entry = Entry(key: Key, now: int, action: Action)

  // -------------------------------------------------------------------------
  // The reference: an unbounded map, read off the history of calls
  // -------------------------------------------------------------------------

  /** When `key` was last printed. */
  function LastPrint(h: seq<Entry>, key: Key): Option<int> {
    if h == [] then None
    else
      var e := h[|h| - 1];
      if e.key == key && !e.action.Suppress? then Some(e.now) else LastPrint(h[..|h| - 1], key)
  }

  /** How many lines of `key` were suppressed since then. */
  function Hidden(h: seq<Entry>, key: Key): nat {
    if h == [] then 0
    else
      var e := h[|h| - 1];
      if e.key != key then Hidden(h[..|h| - 1], key)
      else if e.action.Suppress? then 1 + Hidden(h[..|h| - 1], key)
      else 0
  }

  function Saturated(n: nat): u32 {
    Min(n, U32_MAX)
  }

  /** The answer of a map with one entry per key and no bound. */
  function Reference(h: seq<Entry>, key: Key, now: int): Action {
    match LastPrint(h, key)
    case None => Print
    case Some(last) =>
      var since := now - last;
      if since >= DEDUP_WINDOW_MS || since < 0 then
        (if Hidden(h, key) == 0 then Print else PrintWithCount(Saturated(Hidden(h, key)), since))
      else Suppress(Saturated(Hidden(h, key) + 1))
  }

  function Keys(h: seq<Entry>): set<Key> {
    set e <- h :: e.key
  }

  /** Either the reference's answer, or a plain print of a key that a table of
      this size cannot be expected to remember. */
  predicate Allowed(h: seq<Entry>, e: Entry) {
    e.action == Reference(h, e.key, e.now)
    || (e.action == Print && |Keys(h + [e])| > DEDUP_SLOTS)
  }

  predicate Faithful(h: seq<Entry>) {
    forall i :: 0 <= i < |h| ==> Allowed(h[..i], h[i])
  }

  // -------------------------------------------------------------------------
  // The table
  // -------------------------------------------------------------------------

  datatype Slot = Slot(key: nat, lastPrint: int, pending: u32)

  predicate Tracked(slots: seq<Slot>, key: nat) {
    exists i :: 0 <= i < |slots| && slots[i].key == key
  }

  /** The slots mirror the history for the keys they hold. */
  predicate Mirrors(slots: seq<Slot>, h: seq<Entry>) {
    (forall i, j :: 0 <= i < j < |slots| && slots[i].key != 0 ==> slots[i].key != slots[j].key)
    && (forall i :: 0 <= i < |slots| && slots[i].key != 0 ==>
          LastPrint(h, slots[i].key) == Some(slots[i].lastPrint)
          && slots[i].pending == Saturated(Hidden(h, slots[i].key)))
    && ((forall k :: k in Keys(h) ==> Tracked(slots, k)) || |Keys(h)| > DEDUP_SLOTS)
  }

  /** What `decide` does to the table: the slot it writes and what it answers. */
  predicate Updates(slots: seq<Slot>, key: Key, now: int, i: nat, slots': seq<Slot>, action: Action) {
    i < |slots|
    && if Tracked(slots, key) then
         var s, since := slots[i], now - slots[i].lastPrint;
         s.key == key
         && if since >= DEDUP_WINDOW_MS || since < 0 then
              slots' == slots[i := s.(lastPrint := now, pending := 0)]
              && action == if s.pending == 0 then Print else PrintWithCount(s.pending, since)
            else
              slots' == slots[i := s.(pending := SatInc(s.pending))] && action == Suppress(SatInc(s.pending))
       else
         slots' == slots[i := Slot(key, now, 0)] && action == Print
         && (slots[i].key == 0
             || (!Tracked(slots, 0) && forall j :: 0 <= j < |slots| ==> slots[i].lastPrint <= slots[j].lastPrint))
  }

  lemma LastPrintSnoc(h: seq<Entry>, e: Entry, key: Key)
    ensures LastPrint(h + [e], key) == if e.key == key && !e.action.Suppress? then Some(e.now) else LastPrint(h, key)
    ensures Hidden(h + [e], key)
         == if e.key != key then Hidden(h, key) else if e.action.Suppress? then 1 + Hidden(h, key) else 0
  {
    assert (h + [e])[..|h|] == h;
  }

  lemma {:induction false} PrintedKeyIsInHistory(h: seq<Entry>, key: Key)
    requires LastPrint(h, key).Some?
    ensures key in Keys(h)
    decreases |h|
  {
    var e := h[|h| - 1];
    if e.key != key || e.action.Suppress? {
      PrintedKeyIsInHistory(h[..|h| - 1], key);
    } else {
      assert e in h;
    }
  }

  // The distinct nonzero keys of a full table are as many as its slots.
  lemma {:induction false} DistinctKeys(slots: seq<Slot>, n: nat) returns (keys: set<nat>)
    requires n <= |slots|
    requires forall i, j :: 0 <= i < j < |slots| && slots[i].key != 0 ==> slots[i].key != slots[j].key
    requires !Tracked(slots, 0)
    ensures |keys| == n && keys == set i | 0 <= i < n :: slots[i].key
    decreases n
  {
    if n == 0 {
      keys := {};
    } else {
      keys := DistinctKeys(slots, n - 1);
      assert slots[n - 1].key !in keys;
      keys := keys + {slots[n - 1].key};
    }
  }

  lemma KeysSnoc(h: seq<Entry>, e: Entry)
    ensures Keys(h + [e]) == Keys(h) + {e.key}
    ensures |Keys(h)| <= |Keys(h + [e])|
  {
    var a, b := Keys(h), Keys(h + [e]);
    assert b == a + {e.key};
    SubsetSize(a, b);
  }

  lemma SubsetSize<T>(a: set<T>, b: set<T>)
    requires a <= b
    ensures |a| <= |b|
  {
    assert b == a + (b - a);
    assert |b| == |a| + |b - a|;
  }

  // A key pushed out of, or missing from, a full table means too many keys.
  lemma FullTable(slots: seq<Slot>, h: seq<Entry>, e: Entry)
    requires |slots| == DEDUP_SLOTS && Mirrors(slots, h)
    requires !Tracked(slots, e.key) && !Tracked(slots, 0)
    ensures |Keys(h + [e])| > DEDUP_SLOTS
  {
    KeysSnoc(h, e);
    if |Keys(h)| <= DEDUP_SLOTS {
      var keys := DistinctKeys(slots, |slots|);
      forall k | k in keys ensures k in Keys(h) {
        var i :| 0 <= i < |slots| && slots[i].key == k;
        assert k != 0;
        PrintedKeyIsInHistory(h, k);
      }
      var known: set<nat> := Keys(h);
      assert keys <= known;
      SubsetSize(keys + {e.key as nat}, known + {e.key as nat});
      assert e.key !in keys;
      SameSize(Keys(h + [e]), known + {e.key as nat});
    }
  }

  lemma SameSize(a: set<Key>, b: set<nat>)
    requires forall k: nat :: k in b <==> k != 0 && k in a
    requires forall k: Key :: k in a ==> (k as nat) in b
    ensures |a| == |b|
    decreases |a|
  {
    if a == {} {
      assert b == {};
    } else {
      var k: Key :| k in a;
      SameSize(a - {k}, b - {k as nat});
    }
  }

  /** A tracked key gets exactly the reference's answer. */
  lemma TrackedAnswer(slots: seq<Slot>, h: seq<Entry>, key: Key, now: int, i: nat, slots': seq<Slot>, action: Action)
    requires Mirrors(slots, h) && Updates(slots, key, now, i, slots', action)
    requires Tracked(slots, key)
    ensures action == Reference(h, key, now)
  {
  }

  /** Every answer is allowed: the reference's, or a plain print of a key the
      table had to forget. */
  lemma AnswerAllowed(slots: seq<Slot>, h: seq<Entry>, key: Key, now: int, i: nat, slots': seq<Slot>, action: Action)
    requires |slots| == DEDUP_SLOTS && Mirrors(slots, h) && Updates(slots, key, now, i, slots', action)
    ensures Allowed(h, Entry(key, now, action))
  {
    var e := Entry(key, now, action);
    if Tracked(slots, key) {
      TrackedAnswer(slots, h, key, now, i, slots', action);
    } else if Tracked(slots, 0) || |Keys(h)| > DEDUP_SLOTS {
      KeysSnoc(h, e);
      if |Keys(h)| <= DEDUP_SLOTS && LastPrint(h, key).Some? {
        PrintedKeyIsInHistory(h, key);
      }
    } else {
      FullTable(slots, h, e);
    }
  }

  /** The table keeps mirroring the history. */
  lemma UpdateKeepsMirror(slots: seq<Slot>, h: seq<Entry>, key: Key, now: int, i: nat, slots': seq<Slot>,
                          action: Action)
    requires |slots| == DEDUP_SLOTS && Mirrors(slots, h) && Updates(slots, key, now, i, slots', action)
    ensures Mirrors(slots', h + [Entry(key, now, action)])
  {
    var e := Entry(key, now, action);
    var h' := h + [e];
    KeysSnoc(h, e);
    forall j | 0 <= j < |slots'| && slots'[j].key != 0
      ensures LastPrint(h', slots'[j].key) == Some(slots'[j].lastPrint)
      ensures slots'[j].pending == Saturated(Hidden(h', slots'[j].key))
    {
      LastPrintSnoc(h, e, slots'[j].key);
      if j != i {
        assert slots'[j] == slots[j];
        assert slots[j].key != key;
      }
    }
    if |Keys(h')| <= DEDUP_SLOTS {
      if !Tracked(slots, key) && !Tracked(slots, 0) {
        FullTable(slots, h, e);
      }
      forall k | k in Keys(h') ensures Tracked(slots', k) {
        if k == key {
          assert slots'[i].key == key;
        } else {
          var j :| 0 <= j < |slots| && slots[j].key == k;
          assert slots'[j].key == k;
        }
      }
    }
  }

  /** WHO IS FORGOTTEN: a key drops out only when the table is full and a new one
      comes, and no key in the table was printed earlier. */
  lemma OldestIsForgotten(
      slots: seq<Slot>, h: seq<Entry>, key: Key, now: int, i: nat, slots': seq<Slot>, action: Action, lost: Key)
    requires Mirrors(slots, h) && Updates(slots, key, now, i, slots', action)
    requires Tracked(slots, lost) && !Tracked(slots', lost)
    ensures !Tracked(slots, key) && !Tracked(slots, 0) && Tracked(slots', key)
    ensures LastPrint(h, lost).Some?
    ensures forall n :: 0 <= n < |slots| ==>
              slots[n].key != 0 && LastPrint(h, slots[n].key).Some?
              && LastPrint(h, lost).value <= LastPrint(h, slots[n].key).value
  {
    var j :| 0 <= j < |slots| && slots[j].key == lost;
    assert slots'[i].key == key;
    assert slots[j] == slots'[j] || j == i;
  }

  // -------------------------------------------------------------------------
  // The source's object
  // -------------------------------------------------------------------------

  predicate Contains(text: string, part: string) {
    exists i :: 0 <= i <= |text| && part <= text[i..]
  }

  /** `always_show`: state changes are never suppressed. */
  predicate AlwaysShow(msg: string) {
    Contains(msg, "link UP") || Contains(msg, "link DOWN") || Contains(msg, "link down for")
    || Contains(msg, "forcing a reconnect") || Contains(msg, "driver re-installed")
    || Contains(msg, "RE-ENABLE") || Contains(msg, "debt") || Contains(msg, "btf: start")
    || Contains(msg, "REBOOT") || Contains(msg, "MUTED")
  }

  class Dedup {
    const slots: array<Slot>
    const hash: string -> Key
    ghost var history: seq<Entry>

    ghost predicate Valid()
      reads this, slots
    {
      slots.Length == DEDUP_SLOTS && Mirrors(slots[..], history) && Faithful(history)
    }

    constructor (hash: string -> Key)
      ensures Valid() && fresh(slots) && history == [] && this.hash == hash
    {
      this.hash := hash;
      slots := new Slot[DEDUP_SLOTS](_ => Slot(0, 0, 0));
      history := [];
    }

    method Decide(msg: string, now: int) returns (action: Action)
      requires Valid()
      modifies this, slots
      ensures Valid()
      ensures AlwaysShow(msg) ==> action == Print && history == old(history) && slots[..] == old(slots[..])
      ensures !AlwaysShow(msg) ==> history == old(history) + [Entry(hash(msg), now, action)]
      ensures !AlwaysShow(msg) ==> exists i :: Updates(old(slots[..]), hash(msg), now, i, slots[..], action)
    {
      if AlwaysShow(msg) { return Print; }
      var key := hash(msg);
      ghost var before := slots[..];
      var i := Find(key);
      if i < slots.Length {
        assert before[i].key == key;
        var since := now - slots[i].lastPrint;
        if since >= DEDUP_WINDOW_MS || since < 0 {
          var pending := slots[i].pending;
          slots[i] := slots[i].(lastPrint := now, pending := 0);
          action := if pending == 0 then Print else PrintWithCount(pending, since);
        } else {
          slots[i] := slots[i].(pending := SatInc(slots[i].pending));
          action := Suppress(slots[i].pending);
        }
      } else {
        i := Find(0);
        if i == slots.Length {
          i := Oldest();
        } else {
          assert before[i].key == 0;
        }
        slots[i] := Slot(key, now, 0);
        action := Print;
      }
      assert slots[..] == before[i := slots[i]];
      assert Updates(before, key, now, i, slots[..], action);
      AnswerAllowed(before, history, key, now, i, slots[..], action);
      UpdateKeepsMirror(before, history, key, now, i, slots[..], action);
      FaithfulSnoc(history, Entry(key, now, action));
      history := history + [Entry(key, now, action)];
    }

    /** `position`: the first slot holding `key`, or the table size. */
    method Find(key: nat) returns (i: nat)
      ensures i <= slots.Length
      ensures i < slots.Length ==> slots[i].key == key && Tracked(slots[..], key)
      ensures i == slots.Length ==> !Tracked(slots[..], key)
    {
      i := 0;
      while i < slots.Length
        invariant 0 <= i <= slots.Length
        invariant forall j :: 0 <= j < i ==> slots[j].key != key
      {
        if slots[i].key == key {
          assert slots[..][i].key == key;
          return;
        }
        i := i + 1;
      }
    }

    /** The least recently printed slot, the first one among equals. */
    method Oldest() returns (oldest: nat)
      requires slots.Length > 0
      ensures oldest < slots.Length
      ensures forall j :: 0 <= j < slots.Length ==> slots[oldest].lastPrint <= slots[j].lastPrint
      ensures forall j :: 0 <= j < oldest ==> slots[oldest].lastPrint < slots[j].lastPrint
    {
      oldest := 0;
      var j := 0;
      while j < slots.Length
        invariant 0 <= j <= slots.Length && oldest < slots.Length
        invariant forall k :: 0 <= k < j ==> slots[oldest].lastPrint <= slots[k].lastPrint
        invariant forall k :: 0 <= k < oldest ==> slots[oldest].lastPrint < slots[k].lastPrint
      {
        if slots[j].lastPrint < slots[oldest].lastPrint {
          oldest := j;
        }
        j := j + 1;
      }
    }
  }

  lemma FaithfulSnoc(h: seq<Entry>, e: Entry)
    requires Faithful(h) && Allowed(h, e)
    ensures Faithful(h + [e])
  {
    var h' := h + [e];
    forall i | 0 <= i < |h'| ensures Allowed(h'[..i], h'[i]) {
      if i < |h| {
        assert h'[..i] == h[..i];
      } else {
        assert h'[..i] == h;
      }
    }
  }

  // -------------------------------------------------------------------------
  // Whole runs
  // -------------------------------------------------------------------------

  lemma KeysOfPrefix(h: seq<Entry>, i: nat)
    requires i <= |h|
    ensures |Keys(h[..i])| <= |Keys(h)|
  {
    assert Keys(h[..i]) <= Keys(h);
    SubsetSize(Keys(h[..i]), Keys(h));
  }

  /** While no more keys are seen than there are slots, the table is the
      unbounded map. */
  lemma FewKeysAgree(h: seq<Entry>)
    requires Faithful(h) && |Keys(h)| <= DEDUP_SLOTS
    ensures forall i :: 0 <= i < |h| ==> h[i].action == Reference(h[..i], h[i].key, h[i].now)
  {
    forall i | 0 <= i < |h| ensures h[i].action == Reference(h[..i], h[i].key, h[i].now) {
      assert Allowed(h[..i], h[i]);
      assert h[..i] + [h[i]] == h[..i + 1];
      KeysOfPrefix(h, i + 1);
    }
  }

  /** `LastPrint` names a real entry: a print of that key at that time. */
  lemma {:induction false} LastPrintIsAnEntry(h: seq<Entry>, key: Key) returns (i: nat)
    requires LastPrint(h, key).Some?
    ensures i < |h| && h[i].key == key && !h[i].action.Suppress? && h[i].now == LastPrint(h, key).value
    ensures forall j :: i < j < |h| && h[j].key == key ==> h[j].action.Suppress?
    decreases |h|
  {
    i := |h| - 1;
    if h[i].key != key || h[i].action.Suppress? {
      i := LastPrintIsAnEntry(h[..|h| - 1], key);
    }
  }

  /** However many keys are seen: a suppressed line was printed less than one
      window earlier. */
  lemma SuppressedWasJustPrinted(h: seq<Entry>, i: nat) returns (p: nat)
    requires Faithful(h) && i < |h| && h[i].action.Suppress?
    ensures p < i && h[p].key == h[i].key && !h[p].action.Suppress?
    ensures 0 <= h[i].now - h[p].now < DEDUP_WINDOW_MS
  {
    assert Allowed(h[..i], h[i]);
    p := LastPrintIsAnEntry(h[..i], h[i].key);
  }

  function SuppressedBetween(h: seq<Entry>, key: Key, lo: nat, hi: nat): nat
    requires lo <= hi <= |h|
    decreases hi
  {
    if lo == hi then 0
    else SuppressedBetween(h, key, lo, hi - 1)
         + (if h[hi - 1].key == key && h[hi - 1].action.Suppress? then 1 else 0)
  }

  lemma {:induction false} HiddenCounts(h: seq<Entry>, key: Key, p: nat, n: nat)
    requires p < n <= |h| && h[p].key == key && !h[p].action.Suppress?
    requires forall j :: p < j < n && h[j].key == key ==> h[j].action.Suppress?
    ensures Hidden(h[..n], key) == SuppressedBetween(h, key, p + 1, n)
    decreases n
  {
    assert h[..n][..n - 1] == h[..n - 1];
    if n > p + 1 {
      HiddenCounts(h, key, p, n - 1);
    }
  }

  /** A reported count is exactly the number of copies suppressed since the
      key's last print, up to the width of the counter. */
  lemma {:induction false} ReportedCountIsExact(h: seq<Entry>, i: nat) returns (p: nat)
    requires Faithful(h) && i < |h| && h[i].action.PrintWithCount?
    ensures p < i && h[p].key == h[i].key && !h[p].action.Suppress?
    ensures forall j :: p < j < i && h[j].key == h[i].key ==> h[j].action.Suppress?
    ensures h[i].action.n == Saturated(SuppressedBetween(h, h[i].key, p + 1, i)) > 0
    ensures h[i].action.since == h[i].now - h[p].now
  {
    assert Allowed(h[..i], h[i]);
    p := LastPrintIsAnEntry(h[..i], h[i].key);
    HiddenCounts(h, h[i].key, p, i);
  }

  // What the prints of `key` have reported so far.
  function Reported(h: seq<Entry>, key: Key): nat {
    if h == [] then 0
    else
      var e := h[|h| - 1];
      Reported(h[..|h| - 1], key) + (if e.key == key && e.action.PrintWithCount? then e.action.n else 0)
  }

  /** Copies of `key` that a plain print passed over without reporting them. */
  function Dropped(h: seq<Entry>, key: Key): nat {
    if h == [] then 0
    else
      var e, init := h[|h| - 1], h[..|h| - 1];
      Dropped(init, key) + (if e.key == key && e.action.Print? then Hidden(init, key) else 0)
  }

  lemma FaithfulPrefix(h: seq<Entry>, n: nat)
    requires Faithful(h) && n <= |h|
    ensures Faithful(h[..n])
  {
    forall i | 0 <= i < n ensures Allowed(h[..n][..i], h[..n][i]) {
      assert h[..n][..i] == h[..i];
      assert Allowed(h[..i], h[i]);
    }
  }

  lemma LastIsAllowed(h: seq<Entry>)
    requires Faithful(h) && h != []
    ensures var n := |h| - 1; Faithful(h[..n]) && Allowed(h[..n], h[n]) && h == h[..n] + [h[n]]
  {
    FaithfulPrefix(h, |h| - 1);
  }

  /** Each suppressed line was reported, is pending, or was passed over. */
  predicate Accounted(h: seq<Entry>, key: Key) {
    SuppressedBetween(h, key, 0, |h|) == Reported(h, key) + Hidden(h, key) + Dropped(h, key) <= |h|
  }

  /** CONSERVATION, for every history of the table: each suppressed line was
      reported by a later print, is still pending, or was passed over by a plain
      print of a key that the table had forgotten. */
  lemma {:induction false} EveryLineIsAccounted(h: seq<Entry>, key: Key)
    requires Faithful(h) && |h| <= U32_MAX
    ensures Accounted(h, key)
    decreases |h|
  {
    if h != [] {
      LastIsAllowed(h);
      EveryLineIsAccounted(h[..|h| - 1], key);
      StaysAccounted(h[..|h| - 1], h[|h| - 1], key);
    }
  }

  lemma StaysAccounted(h: seq<Entry>, e: Entry, key: Key)
    requires Faithful(h) && Allowed(h, e) && |h| < U32_MAX
    requires Accounted(h, key)
    ensures Accounted(h + [e], key)
  {
    OneMoreEntry(h, e, key);
    SuppressedSnoc(h, e, key);
  }

  lemma SuppressedSnoc(h: seq<Entry>, e: Entry, key: Key)
    ensures SuppressedBetween(h + [e], key, 0, |h| + 1)
            == SuppressedBetween(h, key, 0, |h|) + (if e.key == key && e.action.Suppress? then 1 else 0)
  {
    SuppressedInPrefix(h + [e], key, |h|, |h|);
    assert (h + [e])[..|h|] == h;
  }

  lemma OneMoreEntry(h: seq<Entry>, e: Entry, key: Key)
    requires Faithful(h) && Allowed(h, e)
    requires Hidden(h, key) <= |h| < U32_MAX
    ensures var h' := h + [e];
            Reported(h', key) + Hidden(h', key) + Dropped(h', key)
            == Reported(h, key) + Hidden(h, key) + Dropped(h, key)
               + (if e.key == key && e.action.Suppress? then 1 else 0)
  {
    LastPrintSnoc(h, e, key);
    assert (h + [e])[..|h|] == h;
    if e.key == key && LastPrint(h, key).None? {
      NeverPrinted(h, key);
    }
  }

  /** While no more keys are seen than there are slots, nothing is passed over: no
      suppressed line drops out of the counts. */
  lemma {:induction false} NoLineIsLost(h: seq<Entry>, key: Key)
    requires Faithful(h) && |h| <= U32_MAX
    ensures |Keys(h)| <= DEDUP_SLOTS ==> Dropped(h, key) == 0
    ensures |Keys(h)| <= DEDUP_SLOTS ==> SuppressedBetween(h, key, 0, |h|) == Reported(h, key) + Hidden(h, key)
    decreases |h|
  {
    EveryLineIsAccounted(h, key);
    if h != [] && |Keys(h)| <= DEDUP_SLOTS {
      var n := |h| - 1;
      FaithfulPrefix(h, n);
      KeysOfPrefix(h, n);
      NoLineIsLost(h[..n], key);
      FewKeysAgree(h);
      if h[n].key == key && h[n].action.Print? && LastPrint(h[..n], key).None? {
        NeverPrinted(h[..n], key);
      }
    }
  }

  /** The lines that are lost, exactly: a call passes copies of its key over if and
      only if no slot tracks that key any more, and then it loses all of them. */
  lemma DropsWhatIsForgotten(slots: seq<Slot>, h: seq<Entry>, key: Key, now: int, i: nat, slots': seq<Slot>,
                             action: Action)
    requires |slots| == DEDUP_SLOTS && Mirrors(slots, h) && Updates(slots, key, now, i, slots', action)
    ensures var h' := h + [Entry(key, now, action)];
            Dropped(h', key) == Dropped(h, key) + (if Tracked(slots, key) then 0 else Hidden(h, key))
    ensures forall other: Key :: other != key ==>
              Dropped(h + [Entry(key, now, action)], other) == Dropped(h, other)
  {
    var e := Entry(key, now, action);
    assert (h + [e])[..|h|] == h;
    if Tracked(slots, key) {
      TrackedAnswer(slots, h, key, now, i, slots', action);
    }
  }

  lemma {:induction false} SuppressedInPrefix(h: seq<Entry>, key: Key, n: nat, hi: nat)
    requires hi <= n <= |h|
    ensures SuppressedBetween(h[..n], key, 0, hi) == SuppressedBetween(h, key, 0, hi)
    decreases hi
  {
    if hi > 0 {
      SuppressedInPrefix(h, key, n, hi - 1);
    }
  }

  // A key that was never printed was never suppressed either.
  lemma {:induction false} NeverPrinted(h: seq<Entry>, key: Key)
    requires Faithful(h) && LastPrint(h, key).None?
    ensures Hidden(h, key) == 0
    decreases |h|
  {
    if h != [] {
      var init := h[..|h| - 1];
      assert forall i :: 0 <= i < |init| ==> init[..i] == h[..i];
      assert Allowed(h[..|h| - 1], h[|h| - 1]);
      NeverPrinted(init, key);
    }
  }

  // -------------------------------------------------------------------------
  // One key too many
  // -------------------------------------------------------------------------

  function Empty(): seq<Slot> {
    seq(DEDUP_SLOTS, _ => Slot(0, 0, 0))
  }

  /** A run of the table from its start: the calls, and the table after each. */
  ghost predicate Plays(tables: seq<seq<Slot>>, h: seq<Entry>) {
    |tables| == |h| + 1 && tables[0] == Empty()
    && forall n :: 0 <= n < |h| ==> Performs(tables[n], h[n], tables[n + 1])
  }

  ghost predicate Performs(slots: seq<Slot>, e: Entry, slots': seq<Slot>) {
    exists i :: Updates(slots, e.key, e.now, i, slots', e.action)
  }

  lemma PlaysOn(tables: seq<seq<Slot>>, h: seq<Entry>, e: Entry, i: nat, slots': seq<Slot>)
    requires Plays(tables, h) && Updates(tables[|h|], e.key, e.now, i, slots', e.action)
    ensures Plays(tables + [slots'], h + [e])
  {
    var tables', h' := tables + [slots'], h + [e];
    assert Performs(tables[|h|], e, slots');
    forall n | 0 <= n < |h'| ensures Performs(tables'[n], h'[n], tables'[n + 1]) {
      if n < |h| {
        assert Performs(tables[n], h[n], tables[n + 1]);
      }
    }
  }

  lemma DroppedSnoc(h: seq<Entry>, e: Entry, key: Key)
    ensures Dropped(h + [e], key) == Dropped(h, key) + (if e.key == key && e.action.Print? then Hidden(h, key) else 0)
  {
    assert (h + [e])[..|h|] == h;
  }

  // Key 1 was printed at 0 and suppressed at 1, the keys up to `k` were printed
  // once each, at the time of their number.
  function Filled(k: nat): seq<Slot> {
    seq(DEDUP_SLOTS, i requires i >= 0 =>
      if i == 0 then Slot(1, 0, 1) else if i < k then Slot(i + 1, i + 1, 0) else Slot(0, 0, 0))
  }

  // What is known of the history behind `Filled(k)`.
  ghost predicate OneHidden(h: seq<Entry>, k: nat) {
    Hidden(h, 1) == 1 && Dropped(h, 1) == 0 && |Keys(h)| == k && forall key <- Keys(h) :: key <= k
  }

  lemma HideOne() returns (tables: seq<seq<Slot>>, h: seq<Entry>)
    ensures Plays(tables, h) && tables[|h|] == Filled(1) && OneHidden(h, 1)
  {
    var first, second := Entry(1, 0, Print), Entry(1, 1, Suppress(1));
    var once := Empty()[0 := Slot(1, 0, 0)];
    assert Empty()[0].key == 0 && once[0].key == 1;
    PlaysOn([Empty()], [], first, 0, once);
    assert Tracked(once, 1) && once[0 := Slot(1, 0, 1)] == Filled(1);
    PlaysOn([Empty()] + [once], [] + [first], second, 0, Filled(1));
    tables, h := [Empty()] + [once] + [Filled(1)], [] + [first] + [second];
    LastPrintSnoc([] + [first], second, 1);
    LastPrintSnoc([], first, 1);
    DroppedSnoc([] + [first], second, 1);
    DroppedSnoc([], first, 1);
    assert Keys(h) == {1};
  }

  lemma FreshKey(tables: seq<seq<Slot>>, h: seq<Entry>, k: nat, i: nat, slots': seq<Slot>)
    requires k > 1 && Plays(tables, h) && OneHidden(h, k - 1)
    requires Updates(tables[|h|], k, k, i, slots', Print)
    ensures Plays(tables + [slots'], h + [Entry(k, k, Print)]) && OneHidden(h + [Entry(k, k, Print)], k)
  {
    var e := Entry(k, k, Print);
    PlaysOn(tables, h, e, i, slots');
    LastPrintSnoc(h, e, 1);
    DroppedSnoc(h, e, 1);
    KeysSnoc(h, e);
    assert e.key !in Keys(h);
  }

  lemma {:induction false} FillUp(k: nat) returns (tables: seq<seq<Slot>>, h: seq<Entry>)
    requires 1 <= k <= DEDUP_SLOTS
    ensures Plays(tables, h) && tables[|h|] == Filled(k) && OneHidden(h, k)
    decreases k
  {
    if k == 1 {
      tables, h := HideOne();
    } else {
      tables, h := FillUp(k - 1);
      var slots := tables[|h|];
      assert slots[k - 1].key == 0 && !Tracked(slots, k) && slots[k - 1 := Slot(k, k, 0)] == Filled(k);
      FreshKey(tables, h, k, k - 1, Filled(k));
      tables, h := tables + [Filled(k)], h + [Entry(k, k, Print)];
    }
  }

  // Key 33 takes the slot of key 1, the least recently printed.
  function PushedOut(): seq<Slot> {
    Filled(DEDUP_SLOTS)[0 := Slot(33, 33, 0)]
  }

  lemma PushOut() returns (tables: seq<seq<Slot>>, h: seq<Entry>)
    ensures Plays(tables, h) && tables[|h|] == PushedOut() && OneHidden(h, DEDUP_SLOTS + 1)
  {
    tables, h := FillUp(DEDUP_SLOTS);
    var full := Filled(DEDUP_SLOTS);
    assert !Tracked(full, 33) && !Tracked(full, 0);
    assert Updates(full, 33, 33, 0, PushedOut(), Print);
    FreshKey(tables, h, 33, 0, PushedOut());
    tables, h := tables + [PushedOut()], h + [Entry(33, 33, Print)];
  }

  // ... and key 1 comes back into the slot of key 2.
  lemma ComesBack() returns (slots: seq<Slot>)
    ensures Updates(PushedOut(), 1, 34, 1, slots, Print)
  {
    var t := PushedOut();
    slots := t[1 := Slot(1, 34, 0)];
    assert !Tracked(t, 1) && !Tracked(t, 0);
  }

  /** THE BOUND OF `NoLineIsLost` IS SHARP: from an empty table, 33 distinct keys are
      enough to lose a line. Key 1 is printed and suppressed, 32 other keys push it
      out, and its next print reports nothing. */
  lemma OneKeyTooMany() returns (tables: seq<seq<Slot>>, h: seq<Entry>)
    ensures Plays(tables, h) && |Keys(h)| == DEDUP_SLOTS + 1
    ensures Dropped(h, 1) == 1 && Hidden(h, 1) == 0 && h[|h| - 1] == Entry(1, 34, Print)
  {
    tables, h := PushOut();
    var e := Entry(1, 34, Print);
    var slots := ComesBack();
    PlaysOn(tables, h, e, 1, slots);
    LastPrintSnoc(h, e, 1);
    DroppedSnoc(h, e, 1);
    KeysSnoc(h, e);
    HiddenKeyIsKnown(h, 1);
    assert Keys(h + [e]) == Keys(h);
    tables, h := tables + [slots], h + [e];
  }

  lemma {:induction false} HiddenKeyIsKnown(h: seq<Entry>, key: Key)
    requires Hidden(h, key) > 0
    ensures key in Keys(h)
    decreases |h|
  {
    var e := h[|h| - 1];
    assert e in h;
    if e.key != key {
      HiddenKeyIsKnown(h[..|h| - 1], key);
    }
  }
}
