/** `SendAndWriteToDB`: delivers the selected items oldest first and records
    each item's link in the feed's bucket only after its message went out. */
module Delivery {
  import opened Feed
  import opened SeenStore
  import opened Normalizer
  import Selection

  /** The Telegram chat, seen from this program: a fallible `Send` and, for
      the proofs only, the messages it accepted so far. A failure stands
      for both the bot that cannot be created and the message that cannot
      be sent. */
  class Chat {
    ghost var delivered: seq<string>

    constructor ()
      ensures delivered == []
    {
      delivered := [];
    }

    method Send(text: string) returns (ok: bool)
      modifies this
      ensures delivered == old(delivered) + (if ok then [text] else [])
    {
      ok := *;
      if ok {
        delivered := delivered + [text];
      }
    }
  }

  /** The HTML tokenizer run over the unescaped description. */
  type Tokenizer = string -> seq<Token>

  /** The message template: feed name in italics, title in bold, the
      normalised description, and the link. */
  function Message(rssname: string, v: Item, body: string): string
  {
    "<i>" + rssname + "</i>\n\n" + "<b>" + v.title + "</b>\n\n" + body + "\n\n" + v.link
  }

  function MessageOf(rssname: string, v: Item, tokenize: Tokenizer): string
  {
    Message(rssname, v, Normalized(tokenize(v.description)))
  }

  /** The messages for `items`, in the order the loop sends them: from the
      last item to the first. */
  function Outgoing(rssname: string, items: seq<Item>, tokenize: Tokenizer): seq<string>
  {
    if items == [] then []
    else Outgoing(rssname, items[1..], tokenize) + [MessageOf(rssname, items[0], tokenize)]
  }

  /** Delivery order: the `k`-th message sent is the one for the item `k`
      places from the end, so the newest-first selection goes out oldest
      first. */
  lemma {:induction false} OutgoingOrder(rssname: string, items: seq<Item>, tokenize: Tokenizer, k: nat)
    requires k < |items|
    ensures |Outgoing(rssname, items, tokenize)| == |items|
    ensures Outgoing(rssname, items, tokenize)[k] == MessageOf(rssname, items[|items| - 1 - k], tokenize)
    decreases |items|
  {
    if k < |items| - 1 {
      OutgoingOrder(rssname, items[1..], tokenize, k);
    } else {
      OutgoingLength(rssname, items[1..], tokenize);
    }
  }

  lemma {:induction false} OutgoingLength(rssname: string, items: seq<Item>, tokenize: Tokenizer)
    ensures |Outgoing(rssname, items, tokenize)| == |items|
    decreases |items|
  {
    if items != [] {
      OutgoingLength(rssname, items[1..], tokenize);
    }
  }

  /** The bucket after `Put(v.Link, v)` for every item of `items`, from the
      last to the first; a `Put` whose key Bolt refuses stores nothing. */
  function Committed(m: Bucket, items: seq<Item>): Bucket
  {
    if items == [] then m
    else
      var rest := Committed(m, items[1..]);
      if StorableKey(items[0].link) then rest[items[0].link := items[0]] else rest
  }

  /** The links of `items` that Bolt accepts as keys. */
  function Links(items: seq<Item>): set<string>
  {
    set v | v in items && StorableKey(v.link) :: v.link
  }

  /** The buckets after the items `sent` went out and were recorded, one
      transaction per item, from the last to the first. A transaction whose
      `Put` fails is rolled back whole, the creation of the bucket included. */
  function Recorded(buckets: map<string, Bucket>, rssname: string, sent: seq<Item>): map<string, Bucket>
  {
    if sent == [] then buckets
    else
      var before := Recorded(buckets, rssname, sent[1..]);
      if StorableKey(sent[0].link) then before[rssname := BucketOf(before, rssname)[sent[0].link := sent[0]]]
      else before
  }

  /** Recording changes the feed's bucket as committing the items does, and
      no other bucket; a feed bucket that exists keeps existing. */
  lemma {:induction false} RecordedBucket(buckets: map<string, Bucket>, rssname: string, sent: seq<Item>)
    ensures BucketOf(Recorded(buckets, rssname, sent), rssname) == Committed(BucketOf(buckets, rssname), sent)
    ensures forall n :: n != rssname ==> BucketOf(Recorded(buckets, rssname, sent), n) == BucketOf(buckets, n)
    ensures rssname in buckets ==> rssname in Recorded(buckets, rssname, sent)
    decreases |sent|
  {
    if sent != [] {
      RecordedBucket(buckets, rssname, sent[1..]);
    }
  }

  /** Committing adds exactly the links of `items` to the keys. */
  lemma {:induction false} CommittedKeys(m: Bucket, items: seq<Item>)
    ensures Committed(m, items).Keys == m.Keys + Links(items)
    decreases |items|
  {
    if items != [] {
      CommittedKeys(m, items[1..]);
      assert Links(items) == (if StorableKey(items[0].link) then {items[0].link} else {}) + Links(items[1..]) by {
        assert forall v :: v in items <==> v == items[0] || v in items[1..];
      }
    }
  }

  /** No record but those under the links of `items` changes. */
  lemma {:induction false} CommittedKeepsOthers(m: Bucket, items: seq<Item>, key: string)
    requires key in m && key !in Links(items)
    ensures key in Committed(m, items) && Committed(m, items)[key] == m[key]
    decreases |items|
  {
    if items != [] {
      assert items[0] in items;
      assert Links(items[1..]) <= Links(items) by {
        assert forall v :: v in items[1..] ==> v in items;
      }
      CommittedKeepsOthers(m, items[1..], key);
    }
  }

  /** A storable link that several items share ends up holding the first of
      them, the one written last. */
  lemma {:induction false} CommittedValue(m: Bucket, items: seq<Item>, k: nat)
    requires k < |items|
    requires StorableKey(items[k].link)
    requires forall j :: 0 <= j < k ==> items[j].link != items[k].link
    ensures items[k].link in Committed(m, items) && Committed(m, items)[items[k].link] == items[k]
    decreases k
  {
    if k > 0 {
      assert forall j :: 0 <= j < k - 1 ==> items[1..][j] == items[j + 1];
      CommittedValue(m, items[1..], k - 1);
    }
  }

  /** `Put` overwrites: committing the same items twice gives the store
      committing them once gives. */
  lemma {:induction false} CommitIdempotent(m: Bucket, items: seq<Item>)
    ensures Committed(Committed(m, items), items) == Committed(m, items)
  {
    CommitIsUnion(m, items);
    CommitIsUnion(Committed(m, items), items);
    assert m + Committed(map[], items) + Committed(map[], items) == m + Committed(map[], items);
  }

  lemma {:induction false} CommitIsUnion(m: Bucket, items: seq<Item>)
    ensures Committed(m, items) == m + Committed(map[], items)
    decreases |items|
  {
    if items != [] {
      CommitIsUnion(m, items[1..]);
    }
  }

  /** How delivery ended: every item sent, or a failed send of `items[at]`. */
  datatype Outcome = Delivered | Aborted(at: nat)

  /** The loop of the source, from the last item to the first: build the
      message, send it, and only then record the item's link. A failed send
      aborts, as the source's panic does; everything sent before it stays
      recorded and the failed item is not recorded. */
  method SendAndWriteToDB(items: seq<Item>, db: Db, rssname: string, tokenize: Tokenizer, chat: Chat)
    returns (r: Outcome)
    requires forall v :: v in items ==> ImgTagsHaveAttrs(tokenize(v.description))
    modifies db, chat
    ensures r.Delivered? ==> db.buckets == Recorded(old(db.buckets), rssname, items)
    ensures r.Delivered? ==> chat.delivered == old(chat.delivered) + Outgoing(rssname, items, tokenize)
    ensures r.Aborted? ==> r.at < |items|
    ensures r.Aborted? ==> db.buckets == Recorded(old(db.buckets), rssname, items[r.at + 1..])
    ensures r.Aborted? ==> chat.delivered == old(chat.delivered) + Outgoing(rssname, items[r.at + 1..], tokenize)
  {
    var i := |items| - 1;
    while i >= 0
      invariant -1 <= i < |items|
      invariant db.buckets == Recorded(old(db.buckets), rssname, items[i + 1..])
      invariant chat.delivered == old(chat.delivered) + Outgoing(rssname, items[i + 1..], tokenize)
    {
      var v := items[i];
      assert v in items;
      var ok := SendItem(rssname, v, tokenize, chat);
      if !ok {
        return Aborted(i);
      }
      OutgoingStep(rssname, items, tokenize, i);
      assert chat.delivered == old(chat.delivered) + Outgoing(rssname, items[i..], tokenize);
      RecordStep(old(db.buckets), rssname, items, i);
      StoreItem(db, rssname, v);
      i := i - 1;
    }
    assert items[0..] == items;
    return Delivered;
  }

  /** The first half of an iteration: normalise the description, fill in
      the template and hand the message to the chat. */
  method SendItem(rssname: string, v: Item, tokenize: Tokenizer, chat: Chat) returns (ok: bool)
    requires ImgTagsHaveAttrs(tokenize(v.description))
    modifies chat
    ensures chat.delivered == old(chat.delivered) + (if ok then [MessageOf(rssname, v, tokenize)] else [])
  {
    var body := NormalizeHtmlForTelegram(tokenize(v.description));
    var s := Message(rssname, v, body);
    ok := chat.Send(s);
  }

  /** The second half of an iteration, the `db.Update` transaction: create
      the feed's bucket if need be and put the item under its link. When
      `Put` returns an error, the function returns it and Bolt rolls the
      transaction back; the source ignores that error. */
  method StoreItem(db: Db, rssname: string, v: Item)
    modifies db
    ensures db.buckets == if StorableKey(v.link)
                          then old(db.buckets)[rssname := BucketOf(old(db.buckets), rssname)[v.link := v]]
                          else old(db.buckets)
  {
    var snapshot := db.buckets;
    db.CreateBucketIfNotExists(rssname);
    var ok := db.Put(rssname, v.link, v);
    if !ok {
      db.buckets := snapshot;
    }
  }

  /** One iteration of the loop records `items[i]` on top of what the later
      items recorded. */
  lemma RecordStep(buckets: map<string, Bucket>, rssname: string, items: seq<Item>, i: nat)
    requires i < |items|
    ensures var before := Recorded(buckets, rssname, items[i + 1..]);
            Recorded(buckets, rssname, items[i..])
            == if StorableKey(items[i].link)
               then before[rssname := BucketOf(before, rssname)[items[i].link := items[i]]]
               else before
  {
    assert items[i..][0] == items[i] && items[i..][1..] == items[i + 1..];
  }

  /** One iteration of the loop sends the message for `items[i]` after
      those of the later items. */
  lemma OutgoingStep(rssname: string, items: seq<Item>, tokenize: Tokenizer, i: nat)
    requires i < |items|
    ensures Outgoing(rssname, items[i..], tokenize)
         == Outgoing(rssname, items[i + 1..], tokenize) + [MessageOf(rssname, items[i], tokenize)]
  {
    assert items[i..][0] == items[i] && items[i..][1..] == items[i + 1..];
  }

  // ---------------------------------------------------------------------
  // The store across runs

  /** Keys of the feed's bucket after `sent` was recorded: the old keys and
      the storable links sent, and no other; no other bucket changes. */
  lemma RecordedKeys(buckets: map<string, Bucket>, rssname: string, sent: seq<Item>)
    ensures BucketOf(Recorded(buckets, rssname, sent), rssname).Keys == BucketOf(buckets, rssname).Keys + Links(sent)
    ensures forall n :: n != rssname ==> BucketOf(Recorded(buckets, rssname, sent), n) == BucketOf(buckets, n)
  {
    RecordedBucket(buckets, rssname, sent);
    CommittedKeys(BucketOf(buckets, rssname), sent);
  }

  /** Once every selected item has been delivered and recorded, selecting
      again from the same feed finds exactly the selected items whose link
      Bolt refused as a key: those are sent again on every run, and no other
      item is. */
  lemma SecondSelection(items: seq<Item>, seen: set<string>, sent: seq<Item>, x: Item)
    requires multiset(sent) == multiset(Selection.Unsent(items, seen))
    ensures x in Selection.Unsent(items, seen + Links(sent))
        <==> x in Selection.Unsent(items, seen) && !StorableKey(x.link)
  {
    Selection.UnsentMember(items, seen, x);
    Selection.UnsentMember(items, seen + Links(sent), x);
    if x in items && x.link !in seen && StorableKey(x.link) {
      assert x in multiset(sent);
      assert x in sent;
    }
    if x.link in Links(sent) {
      var v :| v in sent && StorableKey(v.link) && v.link == x.link;
    }
  }

  /** With every link storable, the second selection is empty. */
  lemma SecondSelectionEmpty(items: seq<Item>, seen: set<string>, sent: seq<Item>)
    requires multiset(sent) == multiset(Selection.Unsent(items, seen))
    ensures (forall v :: v in items ==> StorableKey(v.link)) ==> Selection.Unsent(items, seen + Links(sent)) == []
  {
    if forall v :: v in items ==> StorableKey(v.link) {
      forall x | x in items
        ensures x.link in seen + Links(sent)
      {
        Selection.UnsentMember(items, seen, x);
        if x.link !in seen {
          assert x in multiset(sent);
          assert x in sent;
        }
      }
      Selection.UnsentAllSeen(items, seen + Links(sent));
    }
  }

  /** At-least-once delivery: an item whose send failed, and whose link was
      neither recorded before nor recorded for an item sent before it, is
      selected again on the next run. */
  lemma FailedItemSelectedAgain(
    buckets: map<string, Bucket>, rssname: string, items: seq<Item>, at: nat, feed: seq<Item>)
    requires at < |items| && items[at] in feed
    requires items[at].link !in BucketOf(buckets, rssname).Keys
    requires items[at].link !in Links(items[at + 1..])
    ensures items[at] in Selection.Unsent(feed, BucketOf(Recorded(buckets, rssname, items[at + 1..]), rssname).Keys)
  {
    RecordedKeys(buckets, rssname, items[at + 1..]);
    Selection.UnsentMember(feed, BucketOf(Recorded(buckets, rssname, items[at + 1..]), rssname).Keys, items[at]);
  }
}
