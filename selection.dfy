/** `ProcessRss`: the items of a fetched feed whose link is not yet a key of
    the feed's bucket, newest first. */
module Selection {
  import opened Feed
  import opened SeenStore

  /** The items of `items`, in feed order and with repetitions, whose link
      is not in `seen`. */
  function Unsent(items: seq<Item>, seen: set<string>): (r: seq<Item>)
    ensures |r| <= |items|
  {
    if items == [] then []
    else
      var v := items[|items| - 1];
      Unsent(items[..|items| - 1], seen) + (if v.link in seen then [] else [v])
  }

  /** Filtering keeps every item whose link is unseen as often as the feed
      lists it, and drops every other item. */
  lemma {:induction false} UnsentCount(items: seq<Item>, seen: set<string>, x: Item)
    ensures multiset(Unsent(items, seen))[x] == if x.link in seen then 0 else multiset(items)[x]
  {
    if items != [] {
      var init, v := items[..|items| - 1], items[|items| - 1];
      assert items == init + [v];
      UnsentCount(init, seen, x);
    }
  }

  lemma UnsentMember(items: seq<Item>, seen: set<string>, x: Item)
    ensures x in Unsent(items, seen) <==> x in items && x.link !in seen
  {
    UnsentCount(items, seen, x);
  }

  /** Unsent links only: no selected item has a link in `seen`, and every
      item whose link is not in `seen` is selected. */
  lemma UnsentAvoidsSeen(items: seq<Item>, seen: set<string>)
    ensures forall x :: x in Unsent(items, seen) ==> x.link !in seen
    ensures forall x :: x in items && x.link !in seen ==> x in Unsent(items, seen)
  {
    forall x | x in Unsent(items, seen) || (x in items && x.link !in seen)
      ensures x in Unsent(items, seen) <==> x in items && x.link !in seen
    {
      UnsentMember(items, seen, x);
    }
  }

  /** When every link is seen, nothing is selected. */
  lemma {:induction false} UnsentAllSeen(items: seq<Item>, seen: set<string>)
    requires forall x :: x in items ==> x.link in seen
    ensures Unsent(items, seen) == []
  {
    if items != [] {
      assert items[|items| - 1] in items;
      assert forall x :: x in items[..|items| - 1] ==> x in items;
      UnsentAllSeen(items[..|items| - 1], seen);
    }
  }

  /** `ByPubDate.Swap`. */
  method Swap(a: array<Item>, i: int, j: int)
    requires 0 <= i < a.Length && 0 <= j < a.Length
    modifies a
    ensures a[..] == old(a[..])[i := old(a[j])][j := old(a[i])]
    ensures multiset(a[..]) == old(multiset(a[..]))
  {
    a[i], a[j] := a[j], a[i];
  }

  /** `sort.Sort(ByPubDate(a))`: sorts `a` in place, through `Less` and
      `Swap` only, into a permutation whose dates never increase. The
      algorithm is an insertion sort; `sort.Sort` promises no more than
      this result. */
  method SortByPubDate(a: array<Item>, parse: DateParser)
    modifies a
    ensures SortedByDate(parse, a[..])
    ensures multiset(a[..]) == old(multiset(a[..]))
  {
    var i := 0;
    while i < a.Length
      invariant 0 <= i <= a.Length
      invariant forall k, l :: 0 <= k < l < i ==> Key(parse, a[k]) >= Key(parse, a[l])
      invariant multiset(a[..]) == old(multiset(a[..]))
    {
      Insert(a, parse, i);
      i := i + 1;
    }
  }

  /** One round of the insertion sort: moves `a[i]` down past every newer
      item, so that the sorted prefix grows by one, and leaves the elements
      after it alone; the new prefix is thus a permutation of the old. */
  method Insert(a: array<Item>, parse: DateParser, i: nat)
    requires i < a.Length
    requires forall k, l :: 0 <= k < l < i ==> Key(parse, a[k]) >= Key(parse, a[l])
    modifies a
    ensures forall k, l :: 0 <= k < l <= i ==> Key(parse, a[k]) >= Key(parse, a[l])
    ensures multiset(a[..]) == old(multiset(a[..]))
    ensures a[i + 1..] == old(a[i + 1..])
  {
    var j := i;
    while j > 0 && Less(parse, a[j], a[j - 1])
      invariant 0 <= j <= i
      invariant forall k, l :: 0 <= k < l <= i && k != j && l != j ==> Key(parse, a[k]) >= Key(parse, a[l])
      invariant forall l :: j < l <= i ==> Key(parse, a[j]) > Key(parse, a[l])
      invariant multiset(a[..]) == old(multiset(a[..]))
      invariant a[i + 1..] == old(a[i + 1..])
    {
      Swap(a, j - 1, j);
      j := j - 1;
    }
  }

  /** The selection: `None` (Go's nil) when nothing is left, otherwise the
      unsent items as a permutation sorted newest first. Creating the
      feed's bucket when it is missing is the only change to the store. */
  method ProcessRss(items: seq<Item>, db: Db, rssname: string, parse: DateParser)
    returns (send: Option<seq<Item>>)
    modifies db
    ensures db.buckets == old(db.buckets)[rssname := BucketOf(old(db.buckets), rssname)]
    ensures send.None? <==> Unsent(items, db.buckets[rssname].Keys) == []
    ensures send.Some? ==> multiset(send.value) == multiset(Unsent(items, db.buckets[rssname].Keys))
    ensures send.Some? ==> SortedByDate(parse, send.value)
  {
    db.CreateBucketIfNotExists(rssname);
    ghost var seen := db.buckets[rssname].Keys;
    var list: seq<Item> := [];
    for n := 0 to |items|
      invariant db.buckets == old(db.buckets)[rssname := BucketOf(old(db.buckets), rssname)]
      invariant list == Unsent(items[..n], seen)
    {
      var v := items[n];
      var flag := db.HasKey(rssname, v.link);
      assert items[..n + 1][..n] == items[..n];
      if !flag {
        list := list + [v];
      }
    }
    assert items[..|items|] == items;
    var a := new Item[|list|](k requires 0 <= k < |list| => list[k]);
    assert a[..] == list;
    SortByPubDate(a, parse);
    if a.Length > 0 {
      send := Some(a[..]);
    } else {
      send := None;
    }
  }

  /** An item whose date does not parse sorts after every item dated later
      than the zero time. */
  lemma FailedDatesLast(parse: DateParser, s: seq<Item>, i: nat, j: nat)
    requires SortedByDate(parse, s)
    requires i < |s| && j < |s|
    requires parse(s[i].pubDate).None? && Key(parse, s[j]) > ZeroUnix
    ensures j < i
  {
  }

  /** Items with pairwise different dates have one sorted order only: any
      two sorted permutations of them are equal. */
  predicate DistinctDates(parse: DateParser, s: seq<Item>)
  {
    forall i, j :: 0 <= i < j < |s| ==> Key(parse, s[i]) != Key(parse, s[j])
  }

  lemma SortedHeadsAgree(parse: DateParser, s: seq<Item>, t: seq<Item>)
    requires SortedByDate(parse, s) && SortedByDate(parse, t)
    requires multiset(s) == multiset(t) && s != []
    requires DistinctDates(parse, s)
    ensures t != [] && s[0] == t[0]
  {
    assert s[0] in multiset(t);
    var k :| 0 <= k < |t| && t[k] == s[0];
    assert t[0] in multiset(s);
    var m :| 0 <= m < |s| && s[m] == t[0];
    assert Key(parse, s[0]) >= Key(parse, s[m]) == Key(parse, t[0]) >= Key(parse, t[k]) == Key(parse, s[0]);
  }

  lemma TailMultiset(s: seq<Item>, t: seq<Item>)
    requires s != [] && t != [] && s[0] == t[0] && multiset(s) == multiset(t)
    ensures multiset(s[1..]) == multiset(t[1..])
  {
    assert s == [s[0]] + s[1..] && t == [t[0]] + t[1..];
    assert multiset(s) == multiset{s[0]} + multiset(s[1..]);
    assert multiset(t) == multiset{t[0]} + multiset(t[1..]);
    assert multiset(s[1..]) == multiset(s) - multiset{s[0]};
    assert multiset(t[1..]) == multiset(t) - multiset{t[0]};
  }

  lemma {:induction false} SortedOrderUnique(parse: DateParser, s: seq<Item>, t: seq<Item>)
    requires SortedByDate(parse, s) && SortedByDate(parse, t)
    requires multiset(s) == multiset(t)
    requires DistinctDates(parse, s)
    ensures s == t
    decreases |s|
  {
    if s == [] {
      assert |t| == |multiset(t)| == 0;
    } else {
      SortedHeadsAgree(parse, s, t);
      TailMultiset(s, t);
      SortedOrderUnique(parse, s[1..], t[1..]);
      assert s == [s[0]] + s[1..] && t == [t[0]] + t[1..];
    }
  }
}
