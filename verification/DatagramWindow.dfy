/** The sliding bitmap that filters repeated datagrams and repeated flow
    identities (internal/continuity/peer.go, datagramWindow). */
module DatagramWindow {
  import opened Words

  const SPAN: nat := 4096
  const MAX_U64: nat := 0xffff_ffff_ffff_ffff

  /** What the bitmap stands for: the numbers accepted so far and the highest. */
  datatype Seen = Seen(high: nat, added: set<nat>) {

    predicate Contains(n: nat) {
      n == 0 || (high >= n && high - n >= SPAN) || n in added
    }

    function Add(n: nat): Seen {
      Seen(if n > high then n else high, added + {n})
    }

    ghost predicate Valid() {
      forall n :: n in added ==> 0 < n <= high
    }
  }

  /** Distinct numbers closer than SPAN never share a word and a lane. */
  lemma NoAlias(n: nat, m: nat)
    requires n < m < n + SPAN
    ensures (n % SPAN) / 64 != (m % SPAN) / 64 || n % 64 != m % 64
  {
    TurnRowColumn(n);
    TurnRowColumn(m);
  }

  /** A number as turn, row and column. */
  lemma TurnRowColumn(n: nat)
    ensures n == 4096 * (n / 4096) + n % 4096 && n % 4096 == 64 * ((n % 4096) / 64) + n % 64
  {
    var q, r := n / 4096, n % 4096;
    assert n == 64 * (64 * q + r / 64) + r % 64;
  }

  function Row(n: nat): nat { (n % SPAN) / 64 }

  predicate MarkedAt(words: seq<bv64>, masks: seq<bv64>, row: nat, column: nat)
    requires |words| == 64 && |masks| == 64 && row < 64 && column < 64
  {
    Has(words[row], masks[column])
  }

  predicate Marked(words: seq<bv64>, masks: seq<bv64>, n: nat)
    requires |words| == 64 && |masks| == 64
  {
    MarkedAt(words, masks, Row(n), n % 64)
  }

  predicate Near(n: nat, m: nat) { n < m < n + SPAN || m < n < m + SPAN }

  lemma NearApart(n: nat, m: nat)
    requires Near(n, m)
    ensures Row(n) != Row(m) || n % 64 != m % 64
  {
    if n < m { NoAlias(n, m); } else { NoAlias(m, n); }
  }

  lemma OwnMark(words: seq<bv64>, masks: seq<bv64>, row: nat, column: nat)
    requires |words| == 64 && Columns(masks) && row < 64 && column < 64
    ensures MarkedAt(words[row := With(words[row], masks[column])], masks, row, column)
    ensures !MarkedAt(words[row := Without(words[row], masks[column])], masks, row, column)
  {
    OwnColumn(words[row], masks[column]);
  }

  lemma OtherMarks(words: seq<bv64>, masks: seq<bv64>, row: nat, column: nat, row': nat, column': nat)
    requires |words| == 64 && Columns(masks) && row < 64 && column < 64 && row' < 64 && column' < 64
    requires row != row' || column != column'
    ensures Unmoved(words, words[row := With(words[row], masks[column])], masks, row', column')
    ensures Unmoved(words, words[row := Without(words[row], masks[column])], masks, row', column')
  {
    if row == row' {
      assert masks[column] & masks[column'] == 0 by { ColumnsApart(masks, column', column); }
      SetInRow(words, masks, row, column, column');
      ClearedInRow(words, masks, row, column, column');
    } else {
      Elsewhere(words, masks, row, row', column', With(words[row], masks[column]));
      Elsewhere(words, masks, row, row', column', Without(words[row], masks[column]));
    }
  }

  predicate Unmoved(words: seq<bv64>, words': seq<bv64>, masks: seq<bv64>, row: nat, column: nat)
    requires |words| == 64 && |words'| == 64 && |masks| == 64 && row < 64 && column < 64
  {
    MarkedAt(words', masks, row, column) == MarkedAt(words, masks, row, column)
  }

  lemma SetInRow(words: seq<bv64>, masks: seq<bv64>, row: nat, column: nat, column': nat)
    requires |words| == 64 && |masks| == 64 && row < 64 && column < 64 && column' < 64
    requires masks[column] & masks[column'] == 0
    ensures Unmoved(words, words[row := With(words[row], masks[column])], masks, row, column')
  {
    InPlace(words, masks, row, column', With(words[row], masks[column])) by { OtherSet(words[row], masks[column], masks[column']); }
  }

  lemma ClearedInRow(words: seq<bv64>, masks: seq<bv64>, row: nat, column: nat, column': nat)
    requires |words| == 64 && |masks| == 64 && row < 64 && column < 64 && column' < 64
    requires masks[column] & masks[column'] == 0
    ensures Unmoved(words, words[row := Without(words[row], masks[column])], masks, row, column')
  {
    InPlace(words, masks, row, column', Without(words[row], masks[column])) by { OtherCleared(words[row], masks[column], masks[column']); }
  }

  lemma InPlace(words: seq<bv64>, masks: seq<bv64>, row: nat, column: nat, word: bv64)
    requires |words| == 64 && |masks| == 64 && row < 64 && column < 64
    requires Has(word, masks[column]) == Has(words[row], masks[column])
    ensures Unmoved(words, words[row := word], masks, row, column)
  {
  }

  lemma Elsewhere(words: seq<bv64>, masks: seq<bv64>, row: nat, row': nat, column: nat, word: bv64)
    requires |words| == 64 && |masks| == 64 && row < 64 && row' < 64 && column < 64 && row != row'
    ensures Unmoved(words, words[row := word], masks, row', column)
  {
  }

  /** Bit n mod 64 of word (n mod 4096) / 64 stands for n. */
  class Window {
    var high: nat
    var bits: array<bv64>
    /** 1 << k for each column. */
    const masks: seq<bv64>
    ghost var added: set<nat>

    ghost predicate Valid()
      reads this, bits
    {
      && bits.Length == 64 && Columns(masks)
      && high <= MAX_U64
      && View().Valid()
      && forall n: nat :: 0 < n <= high < n + SPAN ==> (Marked(bits[..], masks, n) <==> n in added)
    }

    ghost function View(): Seen
      reads this
    {
      Seen(high, added)
    }

    constructor ()
      ensures Valid() && fresh(bits) && masks == Shifts(64)
      ensures View() == Seen(0, {})
    {
      high, added, masks := 0, {}, Shifts(64);
      bits := new bv64[64](_ => 0);
      ShiftsAreColumns();
    }

    method Contains(n: nat) returns (r: bool)
      requires Valid()
      ensures r == View().Contains(n)
    {
      if n == 0 {
        return true;
      }
      if high >= n && high - n >= SPAN {
        return true;
      }
      r := n <= high && Marked(bits[..], masks, n);
    }

    method SetMark(n: nat)
      requires bits.Length == 64 && Columns(masks)
      modifies bits
      ensures Marked(bits[..], masks, n)
      ensures forall m: nat :: Near(n, m) ==> Marked(bits[..], masks, m) == old(Marked(bits[..], masks, m))
    {
      ghost var words := bits[..];
      bits[Row(n)] := With(bits[Row(n)], masks[n % 64]);
      assert bits[..] == words[Row(n) := With(words[Row(n)], masks[n % 64])];
      OwnMark(words, masks, Row(n), n % 64);
      forall m: nat | Near(n, m) ensures Marked(bits[..], masks, m) == Marked(words, masks, m) {
        NearApart(n, m);
        OtherMarks(words, masks, Row(n), n % 64, Row(m), m % 64);
      }
    }

    method ClearMark(n: nat)
      requires bits.Length == 64 && Columns(masks)
      modifies bits
      ensures !Marked(bits[..], masks, n)
      ensures forall m: nat :: Near(n, m) ==> Marked(bits[..], masks, m) == old(Marked(bits[..], masks, m))
    {
      ghost var words := bits[..];
      bits[Row(n)] := Without(bits[Row(n)], masks[n % 64]);
      assert bits[..] == words[Row(n) := Without(words[Row(n)], masks[n % 64])];
      OwnMark(words, masks, Row(n), n % 64);
      forall m: nat | Near(n, m) ensures Marked(bits[..], masks, m) == Marked(words, masks, m) {
        NearApart(n, m);
        OtherMarks(words, masks, Row(n), n % 64, Row(m), m % 64);
      }
    }

    /** Moves the window up to n, clearing the marks it moves onto. */
    method Slide(n: nat)
      requires Valid() && high < n <= MAX_U64
      modifies this, bits
      ensures Valid() && fresh({bits} - {old(bits)})
      ensures high == n && added == old(added)
    {
      if n - high >= SPAN {
        bits := new bv64[64](_ => 0);
      } else {
        var k := high + 1;
        while true
          invariant high < k <= n && bits == old(bits)
          invariant high == old(high) && added == old(added)
          invariant forall m: nat :: 0 < m <= high && k - 1 < m + SPAN ==> (Marked(bits[..], masks, m) <==> m in added)
          invariant forall m: nat :: high < m < k ==> !Marked(bits[..], masks, m)
          decreases n - k
        {
          ClearMark(k);
          if k == n { break; }
          k := k + 1;
        }
      }
      high := n;
    }

    /** Both callers ask Contains first; without that guard a number below the
        window would mark the slot of a newer one. */
    method Add(n: nat)
      requires Valid() && n <= MAX_U64
      requires !View().Contains(n)
      modifies this, bits
      ensures Valid() && fresh({bits} - {old(bits)})
      ensures View() == old(View()).Add(n)
    {
      if n > high {
        Slide(n);
      }
      assert n <= high < n + SPAN;
      label marked:
      SetMark(n);
      forall m: nat | 0 < m <= high < m + SPAN
        ensures Marked(bits[..], masks, m) <==> m in added + {n}
      {
        if m != n { assert Marked(bits[..], masks, m) == old@marked(Marked(bits[..], masks, m)); }
      }
      added := added + {n};
    }
  }

  // ----- what the guard promises over any sequence of arrivals

  /** Arrivals are offered one by one; those not contained are accepted. */
  function Accept(s: Seen, arrivals: seq<nat>): (r: (Seen, seq<nat>))
    decreases |arrivals|
  {
    if arrivals == [] then (s, [])
    else if s.Contains(arrivals[0]) then Accept(s, arrivals[1..])
    else
      var t := Accept(s.Add(arrivals[0]), arrivals[1..]);
      (t.0, [arrivals[0]] + t.1)
  }

  /** Once contained, always contained: falling out of the window keeps it so. */
  lemma {:induction false} ContainsIsPermanent(s: Seen, arrivals: seq<nat>, n: nat)
    requires s.Contains(n)
    ensures Accept(s, arrivals).0.Contains(n)
    ensures n !in Accept(s, arrivals).1
    decreases |arrivals|
  {
    if arrivals != [] {
      if s.Contains(arrivals[0]) {
        ContainsIsPermanent(s, arrivals[1..], n);
      } else {
        ContainsIsPermanent(s.Add(arrivals[0]), arrivals[1..], n);
      }
    }
  }

  /** Nothing fresh is refused: numbers that differ, none zero and none 4096 or more
      below an earlier one or the highest so far, are all accepted. */
  lemma {:induction false} FreshAccepted(s: Seen, arrivals: seq<nat>)
    requires s.Valid() && forall i :: 0 <= i < |arrivals| ==> arrivals[i] > 0 && arrivals[i] !in s.added && s.high < arrivals[i] + 4096
    requires forall i, j :: 0 <= i < j < |arrivals| ==> arrivals[i] != arrivals[j] && arrivals[i] < arrivals[j] + 4096
    ensures Accept(s, arrivals).1 == arrivals
    decreases |arrivals|
  {
    if arrivals != [] {
      var n := arrivals[0];
      assert !s.Contains(n);
      forall i | 0 <= i < |arrivals[1..]| ensures arrivals[1..][i] == arrivals[i + 1] && arrivals[0] != arrivals[i + 1] {
      }
      FreshAccepted(s.Add(n), arrivals[1..]);
    }
  }

  /** No number is accepted twice and, afterwards, exactly the numbers that are
      zero, too old or accepted are contained. */
  lemma {:induction false} AcceptedAtMostOnce(s: Seen, arrivals: seq<nat>)
    requires s.Valid()
    ensures var (t, out) := Accept(s, arrivals);
            && t.Valid()
            && t.added == s.added + (set x | x in out)
            && (forall i, j :: 0 <= i < j < |out| ==> out[i] != out[j])
            && (forall i :: 0 <= i < |out| ==> out[i] in arrivals && !s.Contains(out[i]))
            && (forall i :: 0 <= i < |arrivals| ==> t.Contains(arrivals[i]))
    decreases |arrivals|
  {
    if arrivals != [] {
      var n := arrivals[0];
      if s.Contains(n) {
        AcceptedAtMostOnce(s, arrivals[1..]);
        ContainsIsPermanent(s, arrivals[1..], n);
        assert forall i :: 0 < i < |arrivals| ==> arrivals[i] == arrivals[1..][i - 1];
      } else {
        var u := s.Add(n);
        AcceptedAtMostOnce(u, arrivals[1..]);
        ContainsIsPermanent(u, arrivals[1..], n);
        var (t, out) := Accept(s, arrivals);
        assert out[1..] == Accept(u, arrivals[1..]).1;
        assert forall x :: x in out <==> x == n || x in out[1..];
        assert forall i :: 0 < i < |arrivals| ==> arrivals[i] == arrivals[1..][i - 1];
        forall i, j | 0 <= i < j < |out| ensures out[i] != out[j] {
          if i == 0 { assert out[j] == out[1..][j - 1]; }
          else { assert out[i] == out[1..][i - 1] && out[j] == out[1..][j - 1]; }
        }
      }
    }
  }
}
