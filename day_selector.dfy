/**
  * components/ui/day-selector.tsx: the row of weekday buttons of a weekly
  * reminder. Clicking a day removes it when it is selected and otherwise
  * appends it and sorts the list.
  */
module DaySelector {

  import opened Seqs
  import opened Text

  /** The weekdays the row offers, Sunday = 0 to Saturday = 6. */
  const Days: seq<int> := [0, 1, 2, 3, 4, 5, 6]

  /** A selection as the row keeps it: ascending, without repeats. */
  predicate WellFormed(days: seq<int>)
  {
    StrictlyAscending(days)
  }

  /** `toggleDay(dayValue)`: the list handed to `onChange`. */
  function ToggleDay(selectedDays: seq<int>, dayValue: int): (r: seq<int>)
    ensures dayValue in r <==> dayValue !in selectedDays
    ensures forall d :: d != dayValue ==> (d in r <==> d in selectedDays)
    ensures WellFormed(selectedDays) ==> WellFormed(r)
  {
    if dayValue in selectedDays then
      var kept := Filter(selectedDays, (d: int) => d != dayValue);
      FilterIn(selectedDays, (d: int) => d != dayValue);
      FilterStrictlyAscending(selectedDays, (d: int) => d != dayValue);
      kept
    else
      SortAscendingMembers(selectedDays + [dayValue]);
      AddedKeepsWellFormed(selectedDays, dayValue);
      SortAscending(selectedDays + [dayValue])
  }

  /** Adding an absent day to a well-formed selection and sorting keeps it well formed. */
  lemma AddedKeepsWellFormed(selectedDays: seq<int>, dayValue: int)
    requires dayValue !in selectedDays
    ensures WellFormed(selectedDays) ==> WellFormed(SortAscending(selectedDays + [dayValue]))
  {
    if WellFormed(selectedDays) {
      AddedStaysStrict(selectedDays, dayValue);
    }
  }

  /** A day selected twice is back where it started. */
  lemma ToggleTwiceRestores(selectedDays: seq<int>, dayValue: int)
    requires WellFormed(selectedDays)
    ensures ToggleDay(ToggleDay(selectedDays, dayValue), dayValue) == selectedDays
  {
    var twice := ToggleDay(ToggleDay(selectedDays, dayValue), dayValue);
    SameMembersSame(twice, selectedDays);
  }

  /**
    * `Array.prototype.sort` without a comparator orders the days by their
    * text; for the one-digit days of the row that is their numeric order.
    */
  lemma TextOrderIsNumericOrder(a: nat, b: nat)
    requires a < 10 && b < 10
    ensures |NatToString(a)| == 1 && |NatToString(b)| == 1
    ensures NatToString(a)[0] < NatToString(b)[0] <==> a < b
  {
  }

  /** Every weekday of the row sorts by its text as by its number. */
  lemma RowSortsNumerically()
    ensures forall i, j :: 0 <= i < |Days| && 0 <= j < |Days| ==>
      (NatToString(Days[i])[0] < NatToString(Days[j])[0] <==> Days[i] < Days[j])
  {
    forall i, j | 0 <= i < |Days| && 0 <= j < |Days|
      ensures NatToString(Days[i])[0] < NatToString(Days[j])[0] <==> Days[i] < Days[j]
    {
      TextOrderIsNumericOrder(Days[i], Days[j]);
    }
  }

  // ---------------------------------------------------------------------
  // Ascending sequences
  // ---------------------------------------------------------------------

  /** Sorting a strictly ascending sequence with one new element keeps it strictly ascending. */
  lemma AddedStaysStrict(s: seq<int>, x: int)
    requires StrictlyAscending(s) && x !in s
    ensures StrictlyAscending(SortAscending(s + [x]))
  {
    var sorted := SortAscending(s + [x]);
    DistinctAtMostOnce(s);
    assert multiset(s + [x]) == multiset(s) + multiset{x};
    forall y
      ensures multiset(sorted)[y] <= 1
    {
      assert x !in multiset(s);
    }
    OnceEachIsStrict(sorted);
  }

  /** Filtering keeps a sequence strictly ascending. */
  lemma {:induction false} FilterStrictlyAscending(s: seq<int>, p: int -> bool)
    ensures StrictlyAscending(s) ==> StrictlyAscending(Filter(s, p))
    decreases |s|
  {
    if s != [] && StrictlyAscending(s) {
      FilterStrictlyAscending(s[1..], p);
      FilterIn(s[1..], p);
      var rest := Filter(s[1..], p);
      forall i | 0 <= i < |rest|
        ensures s[0] < rest[i]
      {
        assert rest[i] in s[1..];
      }
    }
  }

  /** Each element of a sequence without repeats occurs once. */
  lemma {:induction false} DistinctAtMostOnce(s: seq<int>)
    requires StrictlyAscending(s)
    ensures forall x :: multiset(s)[x] <= 1
    decreases |s|
  {
    if s != [] {
      DistinctAtMostOnce(s[1..]);
      assert s == [s[0]] + s[1..];
      assert s[0] !in s[1..];
      assert multiset(s) == multiset{s[0]} + multiset(s[1..]);
    }
  }

  /** An ascending sequence in which no element occurs twice is strictly ascending. */
  lemma OnceEachIsStrict(r: seq<int>)
    requires Ascending(r)
    requires forall x :: multiset(r)[x] <= 1
    ensures StrictlyAscending(r)
  {
    forall i, j | 0 <= i < j < |r|
      ensures r[i] < r[j]
    {
      if r[i] == r[j] {
        CountedTwice(r, i, j);
      }
    }
  }

  /** A value at two positions occurs at least twice. */
  lemma CountedTwice(r: seq<int>, i: nat, j: nat)
    requires i < j < |r| && r[i] == r[j]
    ensures multiset(r)[r[i]] >= 2
  {
    assert r == r[..j] + r[j..];
    assert r[i] in r[..j] && r[j] in r[j..];
    assert multiset(r) == multiset(r[..j]) + multiset(r[j..]);
  }

  /** Two strictly ascending sequences with the same members are the same sequence. */
  lemma {:induction false} SameMembersSame(a: seq<int>, b: seq<int>)
    requires StrictlyAscending(a) && StrictlyAscending(b)
    requires forall x :: x in a <==> x in b
    ensures a == b
    decreases |a|
  {
    assert a != [] ==> a[0] in a;
    assert b != [] ==> b[0] in b;
    if a != [] && b != [] {
      assert a[0] in b && b[0] in a;
      assert a[0] == b[0];
      forall x
        ensures x in a[1..] <==> x in b[1..]
      {
        if x in a[1..] {
          assert x in b;
        }
        if x in b[1..] {
          assert x in a;
        }
      }
      SameMembersSame(a[1..], b[1..]);
      assert a == [a[0]] + a[1..] && b == [b[0]] + b[1..];
    }
  }
}
