/** The journal of control operations (internal/control/operations.go): every
    running operation has room reserved for its completion, so finishing one
    never fails for space, and a key names at most one operation. */
module OpJournal {
  import opened Intent

  const MAX_JOURNAL: nat := 0x200000
  const MAX_RESULT: nat := 0x40000
  const RESERVE: nat := MAX_RESULT + 512
  /** The reserve of n running operations. */
  function Reserved(n: nat): nat { 262656 * n }

  const MAX_ENTRIES: nat := 512
  const MAX_RUNNING: nat := 16
  const DAY: nat := 86400

  // ----- entries and their encoded size

  datatype OpState = Running | Pending | Succeeded | FailedOp

  /** A time and the length of its text, at most 30 characters in UTC. */
  datatype Stamp = Stamp(at: nat, width: nat)

  /** `fixed`: the encoded bytes of all that never changes, names and
      punctuation included.  `result`: the encoded size, None when omitted. */
  datatype Entry = Entry(
    id: string, key: string, hash: string, created: nat, fixed: nat,
    state: OpState, completed: Option<Stamp>, revision: nat, code: string, result: Option<nat>)

  function StateWidth(s: OpState): nat {
    match s
    case Running => 7
    case Pending => 7
    case Succeeded => 9
    case FailedOp => 6
  }

  function Digits(n: nat): nat { if n < 10 then 1 else 1 + Digits(n / 10) }

  /** Empty fields are omitted; the others come with a comma and their name. */
  function Size(e: Entry): nat {
    e.fixed + StateWidth(e.state)
    + (if e.completed.None? then 0 else 16 + 2 + e.completed.value.width)
    + (if e.revision == 0 then 0 else 12 + Digits(e.revision))
    + (if e.code == "" then 0 else 14 + 2 + |e.code|)
    + (if e.result.None? then 0 else 10 + e.result.value)
  }

  /** The entries with one separator each. */
  function Bytes(entries: seq<Entry>): nat {
    if entries == [] then 0 else Bytes(entries[..|entries| - 1]) + Size(entries[|entries| - 1]) + 1
  }

  /** The stored file: brackets, entries, commas between them. */
  function Encoded(entries: seq<Entry>): nat { if entries == [] then 2 else Bytes(entries) + 1 }

  predicate Live(e: Entry) { e.state.Running? || e.state.Pending? }

  function LiveCount(entries: seq<Entry>): nat {
    if entries == [] then 0
    else LiveCount(entries[..|entries| - 1]) + if Live(entries[|entries| - 1]) then 1 else 0
  }

  // ----- the invariant

  /** A running operation has nothing of its completion yet. */
  predicate Unfinished(e: Entry) { e.completed.None? && e.revision == 0 && e.code == "" && e.result.None? }

  predicate Sound(entries: seq<Entry>) {
    && Encoded(entries) + Reserved(LiveCount(entries)) <= MAX_JOURNAL
    && |entries| <= MAX_ENTRIES && LiveCount(entries) <= MAX_RUNNING
    && LiveUnfinished(entries) && Different(entries)
  }

  predicate LiveUnfinished(entries: seq<Entry>) {
    forall i :: 0 <= i < |entries| && Live(entries[i]) ==> Unfinished(entries[i])
  }

  /** No key and no identity occurs twice. */
  predicate Different(entries: seq<Entry>) {
    forall i, j :: 0 <= i < j < |entries| ==> entries[i].key != entries[j].key && entries[i].id != entries[j].id
  }

  /** One more entry would break a bound. */
  predicate Full(entries: seq<Entry>, fixed: nat) {
    || |entries| >= 512 || LiveCount(entries) >= 16
    || Bytes(entries) + fixed + 7 + 2 + 262656 * (LiveCount(entries) + 1) > 0x200000
  }

  // ----- completing an entry

  predicate PlainChar(c: char) {
    c == '_' || c == '-' || c == '.' || c == ':' || '0' <= c <= '9' || 'a' <= c <= 'z' || 'A' <= c <= 'Z'
  }

  function BoundedCode(code: string): string {
    if |code| > 128 || exists i :: 0 <= i < |code| && !PlainChar(code[i]) then "operation_error_unavailable" else code
  }

  const REF_NAMES: seq<nat> := [2, 14, 9, 7, 11, 16, 19]

  /** What the caller offers: its encoded size and, for each of the seven known
      references, the length of the identifier found there, 0 for none usable. */
  datatype Offer = Offer(size: nat, refs: seq<nat>)

  function RefBytes(refs: seq<nat>, names: seq<nat>): nat
    requires |refs| == |names|
  {
    if refs == [] then 0
    else (if refs[0] == 0 then 0 else names[0] + refs[0] + 5 + 1) + RefBytes(refs[1..], names[1..])
  }

  predicate UsableRefs(refs: seq<nat>) { |refs| == 7 && forall i :: 0 <= i < |refs| ==> refs[i] <= 80 }

  /** A result that is too large is replaced by a note with its references; the
      last separator makes way for the closing brace. */
  function BoundedResult(offer: Option<Offer>): Option<nat>
    requires offer.Some? ==> UsableRefs(offer.value.refs)
  {
    if offer.None? then None
    else if offer.value.size <= MAX_RESULT then (if offer.value.size <= 2 then None else Some(offer.value.size))
    else
      var refs := RefBytes(offer.value.refs, REF_NAMES);
      Some(if refs == 0 then 70 else 70 + 16 + refs - 1)
  }

  function Completed(e: Entry, revision: nat, offer: Option<Offer>, code: string, now: Stamp): Entry
    requires offer.Some? ==> UsableRefs(offer.value.refs)
  {
    var c := BoundedCode(code);
    e.(state := if c == "" then Succeeded else FailedOp, code := c, revision := revision,
       result := BoundedResult(offer), completed := Some(now))
  }

  function Interrupted(e: Entry, now: Stamp): Entry {
    if Live(e) then e.(state := FailedOp, code := "interrupted_check_current_state", completed := Some(now)) else e
  }

  // ----- how much a completion can add

  function Power(k: nat): nat { if k == 0 then 1 else 10 * Power(k - 1) }

  lemma {:induction false} DigitsBound(n: nat, k: nat)
    requires k > 0 && n < Power(k)
    ensures Digits(n) <= k
  {
    assert Power(1) == 10 * Power(0);
    if n >= 10 {
      DigitsBound(n / 10, k - 1);
    }
  }

  lemma {:induction false} RefBytesBound(refs: seq<nat>, names: seq<nat>)
    requires |refs| == |names|
    requires forall i :: 0 <= i < |refs| ==> refs[i] <= 80 && names[i] <= 19
    ensures RefBytes(refs, names) <= 105 * |refs|
  {
    if refs != [] { RefBytesBound(refs[1..], names[1..]); }
  }

  lemma ResultBound(offer: Option<Offer>)
    requires offer.Some? ==> UsableRefs(offer.value.refs)
    ensures BoundedResult(offer).Some? ==> BoundedResult(offer).value <= MAX_RESULT
  {
    if offer.Some? { RefBytesBound(offer.value.refs, REF_NAMES); }
  }

  /** The reserve covers whatever a completion adds to a running entry. */
  lemma CompletionFits(e: Entry, revision: nat, offer: Option<Offer>, code: string, now: Stamp)
    requires Live(e) && Unfinished(e) && revision < 0x1_0000_0000_0000_0000 && now.width <= 30
    requires offer.Some? ==> UsableRefs(offer.value.refs)
    ensures Size(Completed(e, revision, offer, code, now)) <= Size(e) + RESERVE
  {
    assert Power(4) == 10000 && Power(8) == 10000 * Power(4) && Power(12) == 10000 * Power(8);
    assert Power(16) == 10000 * Power(12) && Power(20) == 10000 * Power(16);
    DigitsBound(revision, 20);
    ResultBound(offer);
    assert |BoundedCode(code)| <= 128;
  }

  lemma InterruptionFits(e: Entry, now: Stamp)
    requires (Live(e) ==> Unfinished(e)) && now.width <= 30
    ensures Size(Interrupted(e, now)) <= Size(e) + if Live(e) then RESERVE else 0
  {
  }

  // ----- sums over entries

  lemma {:induction false} Replaced(entries: seq<Entry>, i: nat, e: Entry)
    requires i < |entries|
    ensures Bytes(entries[i := e]) + Size(entries[i]) == Bytes(entries) + Size(e)
    ensures LiveCount(entries[i := e]) + (if Live(entries[i]) then 1 else 0) == LiveCount(entries) + if Live(e) then 1 else 0
    decreases |entries|
  {
    var n := |entries| - 1;
    var after := entries[i := e];
    if i == n {
      assert after[..n] == entries[..n];
    } else {
      assert after[..n] == entries[..n][i := e] && after[n] == entries[n];
      Replaced(entries[..n], i, e);
    }
  }

  lemma {:induction false} SomeLive(entries: seq<Entry>, i: nat)
    requires i < |entries| && Live(entries[i])
    ensures LiveCount(entries) >= 1
    decreases |entries|
  {
    if i < |entries| - 1 { SomeLive(entries[..|entries| - 1], i); }
  }

  lemma Appended(entries: seq<Entry>, e: Entry)
    ensures Bytes(entries + [e]) == Bytes(entries) + Size(e) + 1
    ensures LiveCount(entries + [e]) == LiveCount(entries) + if Live(e) then 1 else 0
  {
    assert (entries + [e])[..|entries|] == entries;
  }

  /** A finished entry replaces a running one: the sum it counted for shrinks. */
  lemma ReplacedSound(entries: seq<Entry>, i: nat, e: Entry)
    requires Sound(entries) && i < |entries| && Live(entries[i]) && !Live(e)
    requires Size(e) <= Size(entries[i]) + RESERVE && e.key == entries[i].key && e.id == entries[i].id
    ensures Sound(entries[i := e])
  {
    Replaced(entries, i, e);
    SomeLive(entries, i);
    var after := entries[i := e];
  }

  // ----- forgetting old entries

  predicate Keeps(e: Entry, now: nat) { now < e.created + DAY || e.completed.None? }

  function Recent(entries: seq<Entry>, now: nat): seq<Entry> {
    if entries == [] then []
    else
      var rest := Recent(entries[..|entries| - 1], now);
      if Keeps(entries[|entries| - 1], now) then rest + [entries[|entries| - 1]] else rest
  }

  lemma {:induction false} RecentSubset(entries: seq<Entry>, now: nat)
    ensures |Recent(entries, now)| <= |entries| && Bytes(Recent(entries, now)) <= Bytes(entries)
    ensures forall e :: e in Recent(entries, now) <==> e in entries && Keeps(e, now)
  {
    if entries != [] {
      var front, last := entries[..|entries| - 1], entries[|entries| - 1];
      RecentSubset(front, now);
      assert entries == front + [last];
      Appended(Recent(front, now), last);
    }
  }

  /** A running entry is never forgotten. */
  lemma {:induction false} RecentLive(entries: seq<Entry>, now: nat)
    requires LiveUnfinished(entries)
    ensures LiveCount(Recent(entries, now)) == LiveCount(entries)
  {
    if entries != [] {
      var front, last := entries[..|entries| - 1], entries[|entries| - 1];
      RecentLive(front, now);
      Appended(Recent(front, now), last);
    }
  }

  lemma {:induction false} RecentDifferent(entries: seq<Entry>, now: nat)
    requires Different(entries)
    ensures Different(Recent(entries, now))
  {
    if entries != [] {
      var front, last := entries[..|entries| - 1], entries[|entries| - 1];
      assert Different(front);
      RecentDifferent(front, now);
      RecentSubset(front, now);
      var rest := Recent(front, now);
      forall i | 0 <= i < |rest| ensures rest[i].key != last.key && rest[i].id != last.id {
        assert rest[i] in front;
      }
    }
  }

  lemma RecentSound(entries: seq<Entry>, now: nat)
    requires Sound(entries)
    ensures Sound(Recent(entries, now))
  {
    RecentSubset(entries, now);
    RecentLive(entries, now);
    RecentDifferent(entries, now);
    var kept := Recent(entries, now);
    forall i | 0 <= i < |kept| && Live(kept[i]) ensures Unfinished(kept[i]) {
      assert kept[i] in entries;
    }
  }

  // ----- interrupting all that ran

  function InterruptedAll(entries: seq<Entry>, now: Stamp): seq<Entry> {
    seq(|entries|, i requires 0 <= i < |entries| => Interrupted(entries[i], now))
  }

  lemma {:induction false} InterruptedSound(entries: seq<Entry>, now: Stamp)
    requires Sound(entries) && now.width <= 30
    ensures Sound(InterruptedAll(entries, now)) && LiveCount(InterruptedAll(entries, now)) == 0
  {
    InterruptedSums(entries, now);
  }

  lemma {:induction false} InterruptedSums(entries: seq<Entry>, now: Stamp)
    requires LiveUnfinished(entries)
    requires now.width <= 30
    ensures LiveCount(InterruptedAll(entries, now)) == 0
    ensures Bytes(InterruptedAll(entries, now)) <= Bytes(entries) + Reserved(LiveCount(entries))
  {
    if entries != [] {
      var front, last := entries[..|entries| - 1], entries[|entries| - 1];
      InterruptedSums(front, now);
      InterruptionFits(last, now);
      assert InterruptedAll(entries, now) == InterruptedAll(front, now) + [Interrupted(last, now)];
      Appended(InterruptedAll(front, now), Interrupted(last, now));
    }
  }

  // ----- the journal

  datatype Saved = Stored | TooLarge | NotStored
  datatype Begun = Started(entry: Entry) | Existing(entry: Entry) | Conflict | QueueFull | NotSaved
  datatype Finished = Recorded(entry: Entry) | NotFound | Unsaved(why: Saved)

  /** A code that is short and plain is stored as it is, any other is replaced. */
  predicate CodeLaw(code: string, stored: string) {
    if |code| <= 128 && forall i :: 0 <= i < |code| ==> PlainChar(code[i]) then stored == code
    else stored == "operation_error_unavailable"
  }

  /** A result within the bound is stored at its own size, an empty one not at all,
      a larger one is replaced by a note. */
  predicate ResultLaw(offer: Option<Offer>, stored: Option<nat>) {
    && (offer.None? || offer.value.size <= 2 ==> stored.None?)
    && (offer.Some? && 2 < offer.value.size <= MAX_RESULT ==> stored == Some(offer.value.size))
    && (offer.Some? && offer.value.size > MAX_RESULT ==> stored.Some? && 70 <= stored.value <= 820)
  }

  /** The outcome of an operation that was running: it succeeded if and only if it
      was given no error code, and all that identifies it is as it was. */
  predicate OutcomeLaw(was: Entry, e: Entry, revision: nat, offer: Option<Offer>, code: string, now: Stamp) {
    && (e.id, e.key, e.hash, e.created, e.fixed) == (was.id, was.key, was.hash, was.created, was.fixed)
    && (e.state.Succeeded? <==> code == "") && (e.state.FailedOp? <==> code != "")
    && CodeLaw(code, e.code) && e.revision == revision && e.completed == Some(now) && ResultLaw(offer, e.result)
  }

  lemma CompletedMeans(e: Entry, revision: nat, offer: Option<Offer>, code: string, now: Stamp)
    requires offer.Some? ==> UsableRefs(offer.value.refs)
    ensures OutcomeLaw(e, Completed(e, revision, offer, code, now), revision, offer, code, now)
  {
    if offer.Some? { RefBytesBound(offer.value.refs, REF_NAMES); }
  }

  /** After a restart: what ran has failed, with a code that says why, and nothing
      else of it has changed. */
  predicate InterruptedLaw(was: Entry, e: Entry, now: Stamp) {
    if was.state.Running? || was.state.Pending? then
      e == was.(state := FailedOp, code := "interrupted_check_current_state", completed := Some(now))
    else e == was
  }

  /** A running operation gets its completion; a finished one is only reported. */
  predicate EndsAt(before: seq<Entry>, after: seq<Entry>, i: nat, id: string, e: Entry,
                   revision: nat, offer: Option<Offer>, code: string, now: Stamp)
    requires i < |before| && (offer.Some? ==> UsableRefs(offer.value.refs))
  {
    && before[i].id == id && after == before[i := e]
    && e == if Live(before[i]) then Completed(before[i], revision, offer, code, now) else before[i]
  }

  class Journal {
    var entries: seq<Entry>
    var disk: seq<Entry>

    ghost predicate Valid()
      reads this
    {
      Sound(entries) && Sound(disk)
    }

    constructor ()
      ensures Valid() && entries == [] && disk == []
    {
      entries, disk := [], [];
    }

    /** The file may have been replaced although the call failed. */
    method Save() returns (r: Saved)
      requires Valid()
      modifies this`disk
      ensures Valid() && r != TooLarge
      ensures disk == entries || (disk == old(disk) && r == NotStored)
    {
      if Encoded(entries) > MAX_JOURNAL { return TooLarge; }
      var ok, written: bool := *, *;
      if ok || written { disk := entries; }
      return if ok then Stored else NotStored;
    }

    /** Filters in place, counting what runs. */
    method Prune(now: nat) returns (running: nat)
      requires Valid()
      modifies this`entries
      ensures entries == Recent(old(entries), now) && running == LiveCount(old(entries))
    {
      var all := entries;
      var kept: seq<Entry> := [];
      running := 0;
      for i := 0 to |all|
        invariant kept == Recent(all[..i], now) && running == LiveCount(all[..i])
        invariant entries == all
      {
        assert all[..i + 1][..i] == all[..i];
        if Live(all[i]) { running := running + 1; }
        if Keeps(all[i], now) { kept := kept + [all[i]]; }
      }
      assert all[..|all|] == all;
      entries := kept;
    }

    method FindKey(key: string) returns (i: nat)
      ensures i <= |entries| && (i < |entries| ==> entries[i].key == key)
      ensures i == |entries| <==> forall j :: 0 <= j < |entries| ==> entries[j].key != key
    {
      i := 0;
      while i < |entries| && entries[i].key != key
        invariant i <= |entries| && forall j :: 0 <= j < i ==> entries[j].key != key
      {
        i := i + 1;
      }
    }

    /** Records an operation before any side effect.  `id` is a fresh random
        identity, `fixed` the encoded size of what will not change. */
    method Begin(key: string, hash: string, id: string, fixed: nat, now: nat) returns (r: Begun)
      requires Valid() && forall i :: 0 <= i < |entries| ==> entries[i].id != id
      modifies this
      ensures Valid()
      ensures r.Existing? || r.Conflict? ==> entries == old(entries) && disk == old(disk)
      ensures r.Existing? ==> r.entry in entries && r.entry.key == key && r.entry.hash == hash
      ensures r.Conflict? ==> exists i :: 0 <= i < |entries| && entries[i].key == key && entries[i].hash != hash
      ensures (exists i :: 0 <= i < |old(entries)| && old(entries)[i].key == key) <==> r.Existing? || r.Conflict?
      ensures r.Started? ==>
                && r.entry == Entry(id, key, hash, now, fixed, Running, None, 0, "", None)
                && entries == Recent(old(entries), now) + [r.entry] && disk == entries
      ensures r.QueueFull? || r.NotSaved? ==> entries == Recent(old(entries), now)
      ensures r.QueueFull? || r.NotSaved? || r.Started? ==>
                && (r.QueueFull? <==> Full(Recent(old(entries), now), fixed))
                && forall e :: e in Recent(old(entries), now) <==> e in old(entries) && (now < e.created + 86400 || e.completed.None?)
    {
      var k := FindKey(key);
      if k < |entries| {
        return if entries[k].hash != hash then Conflict else Existing(entries[k]);
      }
      RecentSubset(entries, now);
      r := Admit(key, hash, id, fixed, now);
    }

    /** Room is made, the reserve is checked, and only then is it recorded. */
    method Admit(key: string, hash: string, id: string, fixed: nat, now: nat) returns (r: Begun)
      requires Valid() && forall i :: 0 <= i < |entries| ==> entries[i].id != id && entries[i].key != key
      modifies this
      ensures Valid() && !r.Existing? && !r.Conflict?
      ensures r.Started? ==>
                && r.entry == Entry(id, key, hash, now, fixed, Running, None, 0, "", None)
                && entries == Recent(old(entries), now) + [r.entry] && disk == entries
      ensures r.QueueFull? || r.NotSaved? ==> entries == Recent(old(entries), now)
      ensures r.QueueFull? <==> Full(Recent(old(entries), now), fixed)
    {
      ghost var before := entries;
      assert LiveCount(Recent(before, now)) == LiveCount(before) && Sound(Recent(before, now)) by {
        RecentSound(before, now);
        RecentLive(before, now);
      }
      var running := Prune(now);
      r := Enter(Entry(id, key, hash, now, fixed, Running, None, 0, "", None), running, before, now);
    }

    /** The bounds are checked, and only then is the entry recorded. */
    method Enter(e: Entry, running: nat, ghost before: seq<Entry>, ghost now: nat) returns (r: Begun)
      requires Valid() && entries == Recent(before, now) && running == LiveCount(entries) && Unfinished(e) && e.state.Running?
      requires forall i :: 0 <= i < |before| ==> before[i].key != e.key && before[i].id != e.id
      modifies this
      ensures Valid() && (r == Started(e) || r == QueueFull || r == NotSaved)
      ensures r == Started(e) ==> entries == old(entries) + [e] && disk == entries
      ensures r != Started(e) ==> entries == old(entries)
      ensures r == QueueFull <==> Full(old(entries), e.fixed)
    {
      if |entries| >= MAX_ENTRIES || running >= MAX_RUNNING { return QueueFull; }
      RoomMeans(entries, e);
      if Encoded(entries + [e]) + Reserved(running + 1) > MAX_JOURNAL { return QueueFull; }
      assert Sound(entries + [e]) by { StartedFits(before, entries, e, now); }
      r := Record(e);
    }

    /** The entry is stored, or taken back. */
    method Record(e: Entry) returns (r: Begun)
      requires Valid() && Sound(entries + [e])
      modifies this
      ensures Valid() && (r == Started(e) || r == NotSaved)
      ensures r == Started(e) ==> entries == old(entries) + [e] && disk == entries
      ensures r == NotSaved ==> entries == old(entries)
    {
      var kept := entries;
      entries := kept + [e];
      var saved := Save();
      if saved != Stored {
        entries := kept;
        return NotSaved;
      }
      return Started(e);
    }

    method FindId(id: string) returns (i: nat)
      ensures i <= |entries| && (i < |entries| ==> entries[i].id == id)
      ensures i == |entries| <==> forall j :: 0 <= j < |entries| ==> entries[j].id != id
    {
      i := 0;
      while i < |entries| && entries[i].id != id
        invariant i <= |entries| && forall j :: 0 <= j < i ==> entries[j].id != id
      {
        i := i + 1;
      }
    }

    /** Completion never fails for want of space; when it cannot be stored the
        operation is still running. */
    method Finish(id: string, revision: nat, offer: Option<Offer>, code: string, now: Stamp) returns (r: Finished, ghost at: nat)
      requires Valid() && revision < 0x1_0000_0000_0000_0000 && now.width <= 30
      requires offer.Some? ==> UsableRefs(offer.value.refs)
      modifies this
      ensures Valid() && r != Unsaved(TooLarge)
      ensures r.NotFound? <==> forall i :: 0 <= i < |old(entries)| ==> old(entries)[i].id != id
      ensures r.NotFound? || r.Unsaved? ==> entries == old(entries)
      ensures r.Recorded? ==> at < |old(entries)| && EndsAt(old(entries), entries, at, id, r.entry, revision, offer, code, now)
      ensures r.Recorded? ==> disk == entries || (entries == old(entries) && disk == old(disk))
      ensures r.Recorded? ==>
                if old(entries)[at].state.Running? || old(entries)[at].state.Pending? then
                  disk == entries && OutcomeLaw(old(entries)[at], r.entry, revision, offer, code, now)
                else entries == old(entries) && r.entry == old(entries)[at]
    {
      var i := FindId(id);
      at := i;
      if i == |entries| { r := NotFound; return; }
      if !Live(entries[i]) {
        assert entries == entries[i := entries[i]];
        r := Recorded(entries[i]);
        return;
      }
      var before := entries;
      var e := Completed(entries[i], revision, offer, code, now);
      CompletionFits(entries[i], revision, offer, code, now);
      CompletedMeans(entries[i], revision, offer, code, now);
      ReplacedSound(entries, i, e);
      entries := entries[i := e];
      var saved := Save();
      if saved != Stored {
        entries := before;
        r := Unsaved(saved);
        return;
      }
      r := Recorded(e);
    }

    /** After a restart whatever was running is reported as interrupted, which
        always fits; nothing is forgotten and no key is freed. */
    method Reopen(now: Stamp) returns (r: Saved)
      requires Valid() && now.width <= 30
      modifies this
      ensures Valid() && r != TooLarge
      ensures entries == InterruptedAll(old(disk), now) && LiveCount(entries) == 0
      ensures |entries| == |old(disk)| && forall i :: 0 <= i < |entries| ==> InterruptedLaw(old(disk)[i], entries[i], now)
      ensures disk == entries || (disk == old(disk) && r == NotStored)
    {
      var loaded := disk;
      var out := loaded;
      var changed := false;
      for i := 0 to |loaded|
        invariant |out| == |loaded|
        invariant forall j :: 0 <= j < i ==> out[j] == Interrupted(loaded[j], now)
        invariant forall j :: i <= j < |out| ==> out[j] == loaded[j]
        invariant !changed ==> out == loaded
      {
        if Live(out[i]) {
          out := out[i := Interrupted(out[i], now)];
          changed := true;
        }
      }
      assert out == InterruptedAll(loaded, now);
      InterruptedSound(loaded, now);
      entries := out;
      r := Stored;
      if changed { r := Save(); }
    }
  }

  /** The encoded size that is checked is what the bound speaks of. */
  lemma RoomMeans(kept: seq<Entry>, e: Entry)
    requires Unfinished(e) && e.state.Running? && |kept| < MAX_ENTRIES && LiveCount(kept) < MAX_RUNNING
    ensures Encoded(kept + [e]) + Reserved(LiveCount(kept) + 1) > MAX_JOURNAL <==> Full(kept, e.fixed)
  {
    Appended(kept, e);
  }

  lemma StartedFits(before: seq<Entry>, kept: seq<Entry>, e: Entry, now: nat)
    requires Sound(kept) && kept == Recent(before, now) && Unfinished(e) && e.state.Running?
    requires forall i :: 0 <= i < |before| ==> before[i].key != e.key && before[i].id != e.id
    requires |kept| < MAX_ENTRIES && LiveCount(kept) < MAX_RUNNING
    requires Encoded(kept + [e]) + Reserved(LiveCount(kept) + 1) <= MAX_JOURNAL
    ensures Sound(kept + [e])
  {
    RecentSubset(before, now);
    Appended(kept, e);
    StartedDifferent(before, kept, e);
    StartedUnfinished(kept, e);
    StartedSound(kept, kept + [e]);
  }

  lemma StartedDifferent(entries: seq<Entry>, kept: seq<Entry>, e: Entry)
    requires Different(kept) && (forall k :: k in kept ==> k in entries)
    requires forall i :: 0 <= i < |entries| ==> entries[i].key != e.key && entries[i].id != e.id
    ensures Different(kept + [e])
  {
    forall i | 0 <= i < |kept| ensures kept[i].key != e.key && kept[i].id != e.id {
      assert kept[i] in entries;
    }
  }

  lemma StartedUnfinished(kept: seq<Entry>, e: Entry)
    requires LiveUnfinished(kept) && Unfinished(e)
    ensures LiveUnfinished(kept + [e])
  {
  }

  lemma StartedSound(kept: seq<Entry>, all: seq<Entry>)
    requires Different(all) && LiveUnfinished(all) && |all| == |kept| + 1 && LiveCount(all) == LiveCount(kept) + 1
    requires |kept| < MAX_ENTRIES && LiveCount(kept) < MAX_RUNNING
    requires Encoded(all) + Reserved(LiveCount(kept) + 1) <= MAX_JOURNAL
    ensures Sound(all)
  {
  }
}
