/**
 * The transaction history list: a type filter (all, income only, expense
 * only) combined with a case-insensitive substring search over the
 * description and the category.
 */
module TransactionHistory {
  import opened Transactions

  /** The value of the type selector. */
  datatype TypeFilter = All | OnlyKind(kind: Kind)

  /** `toLowerCase` on one character, for the ASCII letters. */
  function LowerChar(c: char): char {
    if 'A' <= c <= 'Z' then (c as int + 32) as char else c
  }

  /** `toUpperCase` on one character, for the ASCII letters. */
  function UpperChar(c: char): char {
    if 'a' <= c <= 'z' then (c as int - 32) as char else c
  }

  function Lower(s: string): (r: string)
    ensures |r| == |s|
    ensures forall i :: 0 <= i < |s| ==> r[i] == LowerChar(s[i])
  {
    seq(|s|, i requires 0 <= i < |s| => LowerChar(s[i]))
  }

  function Upper(s: string): (r: string)
    ensures |r| == |s|
    ensures forall i :: 0 <= i < |s| ==> r[i] == UpperChar(s[i])
  {
    seq(|s|, i requires 0 <= i < |s| => UpperChar(s[i]))
  }

  /** `needle` sits in `hay` starting at position `i`. */
  predicate OccursAt(hay: string, needle: string, i: int) {
    0 <= i && i + |needle| <= |hay| && hay[i..i + |needle|] == needle
  }

  /** `hay.includes(needle)`: tries each starting position from the left. */
  function Includes(hay: string, needle: string): bool
    decreases |hay|
  {
    (|needle| <= |hay| && hay[..|needle|] == needle) || (|hay| > 0 && Includes(hay[1..], needle))
  }

  /** `includes` finds the needle exactly when it occurs at some position; the empty needle occurs everywhere. */
  lemma {:induction false} IncludesMeansOccurs(hay: string, needle: string)
    ensures Includes(hay, needle) <==> exists i :: OccursAt(hay, needle, i)
    ensures Includes(hay, [])
    decreases |hay|
  {
    assert OccursAt(hay, [], 0);
    if |needle| <= |hay| && hay[..|needle|] == needle {
      assert OccursAt(hay, needle, 0);
    } else if |hay| > 0 {
      IncludesMeansOccurs(hay[1..], needle);
      if i :| OccursAt(hay[1..], needle, i) {
        assert hay[1..][i..i + |needle|] == hay[i + 1..i + 1 + |needle|];
        assert OccursAt(hay, needle, i + 1);
      }
      if i :| OccursAt(hay, needle, i) {
        assert i != 0;
        assert hay[1..][i - 1..i - 1 + |needle|] == hay[i..i + |needle|];
        assert OccursAt(hay[1..], needle, i - 1);
      }
    }
  }

  predicate MatchesFilter(f: TypeFilter, t: Transaction) {
    f.All? || t.kind == f.kind
  }

  predicate MatchesSearch(search: string, t: Transaction) {
    Includes(Lower(t.description), Lower(search)) || Includes(Lower(t.category), Lower(search))
  }

  predicate Keep(f: TypeFilter, search: string, t: Transaction) {
    MatchesFilter(f, t) && MatchesSearch(search, t)
  }

  /** The transactions the history shows, in their original order. */
  function Filtered(s: seq<Transaction>, f: TypeFilter, search: string): (r: seq<Transaction>)
    ensures |r| <= |s|
  {
    if s == [] then []
    else
      var last := s[|s| - 1];
      Filtered(s[..|s| - 1], f, search) + (if Keep(f, search, last) then [last] else [])
  }

  /**
   * Where each shown transaction sits in the input: strictly increasing
   * positions, so the history is an order-preserving subsequence.
   */
  function KeptPositions(s: seq<Transaction>, f: TypeFilter, search: string): (idx: seq<nat>)
    ensures |idx| == |Filtered(s, f, search)|
    ensures forall i :: 0 <= i < |idx| ==> idx[i] < |s| && Filtered(s, f, search)[i] == s[idx[i]]
    ensures forall i, j :: 0 <= i < j < |idx| ==> idx[i] < idx[j]
    ensures forall j :: 0 <= j < |s| && Keep(f, search, s[j]) ==> j in idx
  {
    if s == [] then []
    else
      var last := s[|s| - 1];
      KeptPositions(s[..|s| - 1], f, search) + (if Keep(f, search, last) then [|s| - 1] else [])
  }

  /** A transaction is shown exactly when it is in the input and passes both tests. */
  lemma {:induction false} FilteredMembers(s: seq<Transaction>, f: TypeFilter, search: string, t: Transaction)
    ensures t in Filtered(s, f, search) <==> t in s && Keep(f, search, t)
  {
    if s != [] {
      FilteredMembers(s[..|s| - 1], f, search, t);
      assert s == s[..|s| - 1] + [s[|s| - 1]];
    }
  }

  /** With "all" selected and an empty search, nothing is hidden. */
  lemma {:induction false} ShowAll(s: seq<Transaction>)
    ensures Filtered(s, All, "") == s
  {
    if s != [] {
      ShowAll(s[..|s| - 1]);
      IncludesMeansOccurs(Lower(s[|s| - 1].description), "");
      assert s == s[..|s| - 1] + [s[|s| - 1]];
    }
  }

  /** With a kind selected, every shown transaction has that kind. */
  lemma OnlySelectedKind(s: seq<Transaction>, k: Kind, search: string)
    ensures forall t :: t in Filtered(s, OnlyKind(k), search) ==> t.kind == k
  {
    forall t | t in Filtered(s, OnlyKind(k), search) ensures t.kind == k {
      FilteredMembers(s, OnlyKind(k), search, t);
    }
  }

  lemma LowerOfUpper(q: string)
    ensures Lower(Upper(q)) == Lower(q)
  {
  }

  /** Typing the search in capitals finds the same transactions. */
  lemma SearchIgnoresCase(s: seq<Transaction>, f: TypeFilter, search: string)
    ensures Filtered(s, f, Upper(search)) == Filtered(s, f, search)
  {
    LowerOfUpper(search);
  }

  /** One more transaction lands in the full view and in exactly one of the kind views. */
  lemma FilteredStep(s: seq<Transaction>, search: string)
    requires s != []
    ensures var init, last := s[..|s| - 1], s[|s| - 1];
      var keep := if MatchesSearch(search, last) then [last] else [];
      && Filtered(s, All, search) == Filtered(init, All, search) + keep
      && Filtered(s, OnlyKind(Income), search)
        == Filtered(init, OnlyKind(Income), search) + (if last.kind == Income then keep else [])
      && Filtered(s, OnlyKind(Expense), search)
        == Filtered(init, OnlyKind(Expense), search) + (if last.kind == Expense then keep else [])
  {
  }

  /** For a fixed search, the income view and the expense view split the full view between them. */
  lemma {:induction false} KindsPartition(s: seq<Transaction>, search: string)
    ensures multiset(Filtered(s, All, search))
      == multiset(Filtered(s, OnlyKind(Income), search)) + multiset(Filtered(s, OnlyKind(Expense), search))
  {
    if s != [] {
      KindsPartition(s[..|s| - 1], search);
      FilteredStep(s, search);
    }
  }

  /** The two kind views together are as long as the full view. */
  lemma KindsPartitionLength(s: seq<Transaction>, search: string)
    ensures |Filtered(s, All, search)|
      == |Filtered(s, OnlyKind(Income), search)| + |Filtered(s, OnlyKind(Expense), search)|
  {
    KindsPartition(s, search);
    assert |multiset(Filtered(s, All, search))| == |Filtered(s, All, search)|;
  }
}
