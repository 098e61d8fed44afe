/**
 * `details.sort((a, b) => a.name.localeCompare(b.name))`: a stable sort of
 * the normalised records by name under the collation comparator. Stable
 * insertion sort stands in for the engine's algorithm; both yield the
 * records ordered by name and keep every record.
 */
module NameSort {
  import opened Collation
  import opened CountryDtos

  /** Every record's name is not after any later record's name. */
  ghost predicate SortedByName(cmp: Comparator, s: seq<CountryDetails>) {
    forall i, j :: 0 <= i < j < |s| ==> cmp(s[i].name, s[j].name) <= 0
  }

  /** No name in `s` comes before `key`. */
  ghost predicate NoneBefore(cmp: Comparator, key: string, s: seq<CountryDetails>) {
    forall i :: 0 <= i < |s| ==> cmp(key, s[i].name) <= 0
  }

  /** Places `x` in front of the first record whose name is not before `x`'s. */
  function Insert(cmp: Comparator, x: CountryDetails, s: seq<CountryDetails>): (r: seq<CountryDetails>)
    ensures |r| == |s| + 1
    ensures multiset(r) == multiset(s) + multiset{x}
  {
    if s == [] || cmp(x.name, s[0].name) <= 0 then [x] + s
    else
      assert s == [s[0]] + s[1..];
      [s[0]] + Insert(cmp, x, s[1..])
  }

  /** A lower bound on every record of `s` and on `x` bounds the insertion result. */
  lemma {:induction false} InsertKeepsBound(cmp: Comparator, key: string, x: CountryDetails, s: seq<CountryDetails>)
    requires NoneBefore(cmp, key, s) && cmp(key, x.name) <= 0
    ensures NoneBefore(cmp, key, Insert(cmp, x, s))
  {
    if s != [] && cmp(x.name, s[0].name) > 0 {
      InsertKeepsBound(cmp, key, x, s[1..]);
    }
  }

  lemma {:induction false} InsertKeepsSorted(cmp: Comparator, x: CountryDetails, s: seq<CountryDetails>)
    requires IsConsistentComparator(cmp)
    requires SortedByName(cmp, s)
    ensures SortedByName(cmp, Insert(cmp, x, s))
  {
    if s == [] {
    } else if cmp(x.name, s[0].name) <= 0 {
      forall j | 0 <= j < |s| ensures cmp(x.name, s[j].name) <= 0 {
        if j > 0 { assert cmp(s[0].name, s[j].name) <= 0; }
      }
    } else {
      var tail := s[1..];
      InsertKeepsSorted(cmp, x, tail);
      InsertKeepsBound(cmp, s[0].name, x, tail);
    }
  }

  /** The records of `s` by name, `s[0]` inserted last; equal names keep their input order. */
  function SortByName(cmp: Comparator, s: seq<CountryDetails>): (r: seq<CountryDetails>)
    ensures |r| == |s|
    ensures multiset(r) == multiset(s)
  {
    if s == [] then []
    else
      assert s == [s[0]] + s[1..];
      Insert(cmp, s[0], SortByName(cmp, s[1..]))
  }

  /** Under a consistent comparator the sort's output is in name order. */
  lemma {:induction false} SortByNameSorted(cmp: Comparator, s: seq<CountryDetails>)
    requires IsConsistentComparator(cmp)
    ensures SortedByName(cmp, SortByName(cmp, s))
  {
    if s != [] {
      SortByNameSorted(cmp, s[1..]);
      InsertKeepsSorted(cmp, s[0], SortByName(cmp, s[1..]));
    }
  }
}
