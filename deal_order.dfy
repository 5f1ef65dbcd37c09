/**
 * The two orders the deal table is read in, and a sort that realises them.
 * The store's tie order is unspecified, so only sortedness and permutation
 * are promised.
 */
module DealOrder {
  import opened Text
  import opened DailyDealTypes

  /** `.order('discount_amount', {ascending: false})` and `.order('created_at', {ascending: false})`. */
  datatype Order = DiscountDesc | CreatedAtDesc

  /** a may come before b. Timestamps are ISO strings compared by character code. */
  predicate Precedes(o: Order, a: DailyDeal, b: DailyDeal)
  {
    match o
    case DiscountDesc => a.discount_amount >= b.discount_amount
    case CreatedAtDesc => LexLe(b.created_at, a.created_at)
  }

  lemma PrecedesTotal(o: Order, a: DailyDeal, b: DailyDeal)
    ensures Precedes(o, a, b) || Precedes(o, b, a)
  {
    if o == CreatedAtDesc {
      LexLeTotal(a.created_at, b.created_at);
    }
  }

  lemma PrecedesTransitive(o: Order, a: DailyDeal, b: DailyDeal, c: DailyDeal)
    requires Precedes(o, a, b) && Precedes(o, b, c)
    ensures Precedes(o, a, c)
  {
    if o == CreatedAtDesc {
      LexLeTransitive(c.created_at, b.created_at, a.created_at);
    }
  }

  predicate Sorted(o: Order, s: seq<DailyDeal>)
  {
    forall i, j :: 0 <= i < j < |s| ==> Precedes(o, s[i], s[j])
  }

  /** A row that may precede the head of a sorted sequence may go in front of it. */
  lemma SortedFront(o: Order, d: DailyDeal, s: seq<DailyDeal>)
    requires Sorted(o, s) && s != [] && Precedes(o, d, s[0])
    ensures Sorted(o, [d] + s)
  {
    var t := [d] + s;
    forall i, j | 0 <= i < j < |t| ensures Precedes(o, t[i], t[j]) {
      assert t[j] == s[j - 1];
      if i == 0 && j > 1 {
        PrecedesTransitive(o, d, s[0], s[j - 1]);
      } else if i > 0 {
        assert t[i] == s[i - 1];
      }
    }
  }

  /** The head of a sorted sequence may precede every row of the rest with d inserted, when d does not go first. */
  lemma SortedBehindHead(o: Order, d: DailyDeal, s: seq<DailyDeal>, rest: seq<DailyDeal>)
    requires Sorted(o, s) && s != [] && !Precedes(o, d, s[0])
    requires Sorted(o, rest) && multiset(rest) == multiset(s[1..]) + multiset{d}
    ensures Sorted(o, [s[0]] + rest)
  {
    PrecedesTotal(o, d, s[0]);
    forall j | 0 <= j < |rest| ensures Precedes(o, s[0], rest[j]) {
      assert rest[j] in multiset(rest);
      if rest[j] != d {
        assert rest[j] in multiset(s[1..]);
        var k :| 0 <= k < |s[1..]| && s[1..][k] == rest[j];
        assert s[k + 1] == rest[j];
      }
    }
    var t := [s[0]] + rest;
    forall i, j | 0 <= i < j < |t| ensures Precedes(o, t[i], t[j]) {
      assert t[j] == rest[j - 1];
      if i > 0 {
        assert t[i] == rest[i - 1];
      }
    }
  }

  /** d placed before the first row it may precede. */
  function Insert(o: Order, d: DailyDeal, s: seq<DailyDeal>): (r: seq<DailyDeal>)
    requires Sorted(o, s)
    ensures Sorted(o, r)
    ensures multiset(r) == multiset(s) + multiset{d}
    decreases |s|
  {
    if s == [] then [d]
    else if Precedes(o, d, s[0]) then
      SortedFront(o, d, s);
      [d] + s
    else
      assert Sorted(o, s[1..]);
      var rest := Insert(o, d, s[1..]);
      SortedBehindHead(o, d, s, rest);
      assert s == [s[0]] + s[1..];
      [s[0]] + rest
  }

  /** The rows in the order o; the same rows, each as often as before. */
  function SortBy(o: Order, s: seq<DailyDeal>): (r: seq<DailyDeal>)
    ensures Sorted(o, r)
    ensures multiset(r) == multiset(s)
    decreases |s|
  {
    if s == [] then []
    else
      assert s == [s[0]] + s[1..];
      Insert(o, s[0], SortBy(o, s[1..]))
  }
}
