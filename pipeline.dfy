/** One feed's turn in `main`'s loop: select, then deliver when anything was
    selected. Reading the configuration and fetching the feed happen before
    this and are not part of the model; the fetched items are the input. */
module Pipeline {
  import opened Feed
  import opened SeenStore
  import opened Normalizer
  import opened Selection
  import opened Delivery

  /** `None` is "Nothing to send": nothing is sent and only the feed's
      bucket is created. Otherwise `sel` is the selection, sorted newest
      first, and its messages go out oldest first: all of them after a
      complete delivery, and those after the failed item after an abort,
      each one recorded as `Recorded` says. After a complete delivery,
      selecting from the same items again finds only the items whose link
      Bolt refused as a key. Whatever the outcome, no stored record is lost
      or changed, because only unseen links are put. Only the items not
      stored yet are normalised, so only their descriptions matter. */
  method PollFeed(items: seq<Item>, db: Db, rssname: string, parse: DateParser, tokenize: Tokenizer, chat: Chat)
    returns (r: Option<Outcome>, ghost sel: seq<Item>)
    requires forall v :: v in items && v.link !in BucketOf(db.buckets, rssname).Keys ==> ImgTagsHaveAttrs(tokenize(v.description))
    modifies db, chat
    ensures rssname in db.buckets
    ensures multiset(sel) == multiset(Unsent(items, BucketOf(old(db.buckets), rssname).Keys))
    ensures SortedByDate(parse, sel)
    ensures r.None? ==> Unsent(items, db.buckets[rssname].Keys) == [] && sel == []
    ensures r.None? ==> chat.delivered == old(chat.delivered)
    ensures r.None? ==> db.buckets == old(db.buckets)[rssname := BucketOf(old(db.buckets), rssname)]
    ensures r == Some(Delivered) ==> chat.delivered == old(chat.delivered) + Outgoing(rssname, sel, tokenize)
    ensures r == Some(Delivered) ==>
              db.buckets == Recorded(old(db.buckets)[rssname := BucketOf(old(db.buckets), rssname)], rssname, sel)
    ensures r.Some? && r.value.Aborted? ==> r.value.at < |sel|
    ensures r.Some? && r.value.Aborted? ==>
              chat.delivered == old(chat.delivered) + Outgoing(rssname, sel[r.value.at + 1..], tokenize)
    ensures r.Some? && r.value.Aborted? ==>
              db.buckets == Recorded(old(db.buckets)[rssname := BucketOf(old(db.buckets), rssname)], rssname, sel[r.value.at + 1..])
    ensures r == Some(Delivered) ==>
              forall x :: x in Unsent(items, db.buckets[rssname].Keys)
                      <==> x in Unsent(items, BucketOf(old(db.buckets), rssname).Keys) && !StorableKey(x.link)
    ensures BucketOf(old(db.buckets), rssname).Keys <= db.buckets[rssname].Keys
    ensures forall k :: k in BucketOf(old(db.buckets), rssname) ==>
              k in db.buckets[rssname] && db.buckets[rssname][k] == BucketOf(old(db.buckets), rssname)[k]
  {
    var send := ProcessRss(items, db, rssname, parse);
    ghost var before := db.buckets;
    ghost var seen := before[rssname].Keys;
    assert seen == BucketOf(old(db.buckets), rssname).Keys;
    if send.Some? && |send.value| > 0 {
      var sent := send.value;
      sel := sent;
      forall v | v in sent
        ensures ImgTagsHaveAttrs(tokenize(v.description))
      {
        assert v in multiset(sent);
        UnsentMember(items, seen, v);
        assert v in items && v.link !in BucketOf(old(db.buckets), rssname).Keys;
      }
      var outcome := SendAndWriteToDB(sent, db, rssname, tokenize, chat);
      var done := if outcome.Delivered? then sent else sent[outcome.at + 1..];
      RecordedBucket(before, rssname, done);
      RecordedKeys(before, rssname, done);
      forall k | k in before[rssname]
        ensures k in db.buckets[rssname] && db.buckets[rssname][k] == before[rssname][k]
      {
        if k in Links(done) {
          var v :| v in done && StorableKey(v.link) && v.link == k;
          assert v in sent;
          assert v in multiset(sent);
          UnsentMember(items, seen, v);
        }
        CommittedKeepsOthers(before[rssname], done, k);
      }
      if outcome.Delivered? {
        forall x
          ensures x in Unsent(items, db.buckets[rssname].Keys) <==> x in Unsent(items, seen) && !StorableKey(x.link)
        {
          SecondSelection(items, seen, sent, x);
        }
      }
      r := Some(outcome);
    } else {
      r := None;
      sel := [];
    }
  }

  /** The two-item feed: `a` newer than `b`, neither delivered before. The
      selection must be `[a, b]`, and `b` is sent before `a`. */
  lemma TwoItemFeed(parse: DateParser, a: Item, b: Item, seen: set<string>, selected: seq<Item>,
                    rssname: string, tokenize: Tokenizer)
    requires a.link !in seen && b.link !in seen && Key(parse, a) > Key(parse, b)
    requires SortedByDate(parse, selected) && multiset(selected) == multiset(Unsent([a, b], seen))
    ensures selected == [a, b]
    ensures Outgoing(rssname, selected, tokenize) == [MessageOf(rssname, b, tokenize), MessageOf(rssname, a, tokenize)]
  {
    TwoItemSelection(parse, a, b, seen, selected);
    TwoItemOutgoing(rssname, a, b, tokenize);
  }

  lemma TwoItemSelection(parse: DateParser, a: Item, b: Item, seen: set<string>, selected: seq<Item>)
    requires a.link !in seen && b.link !in seen && Key(parse, a) > Key(parse, b)
    requires SortedByDate(parse, selected) && multiset(selected) == multiset(Unsent([a, b], seen))
    ensures selected == [a, b]
  {
    assert [a, b][..1] == [a] && [a][..0] == [];
    assert Unsent([a], seen) == [a];
    assert Unsent([a, b], seen) == [a, b];
    assert SortedByDate(parse, [a, b]) && DistinctDates(parse, [a, b]);
    SortedOrderUnique(parse, [a, b], selected);
  }

  lemma TwoItemOutgoing(rssname: string, a: Item, b: Item, tokenize: Tokenizer)
    ensures Outgoing(rssname, [a, b], tokenize) == [MessageOf(rssname, b, tokenize), MessageOf(rssname, a, tokenize)]
  {
    assert [a, b][1..] == [b] && [b][1..] == [];
    assert Outgoing(rssname, [b], tokenize) == [MessageOf(rssname, b, tokenize)];
  }
}
