/** Feed items and the publication-date order `ByPubDate` sorts them by. */
module Feed {

  datatype Option<T> = None | Some(value: T)

  /** One `<item>` of an RSS 2.0 channel; `description` and `content` hold
      the raw HTML of the item's body. */
  datatype Item = Item(
    title: string,
    link: string,
    description: string,
    content: string,
    pubDate: string,
    comments: string)

  /** Go's `time.Parse("Mon, 02 Jan 2006 15:04:05 -0700", d)` followed by
      `Unix()`, given as a parameter: the Unix time of `d`, or `None` when `d`
      does not parse. */
  type DateParser = string -> Option<int>

  /** `time.Time{}.Unix()`: the zero time, 1 January of year 1, UTC, which
      `time.Parse` returns with its error. */
  const ZeroUnix := -62135596800

  /** The Unix time `ByPubDate.Less` computes for a date; the parse error is
      dropped, leaving the zero time. */
  function UnixTime(parse: DateParser, pubDate: string): int
  {
    match parse(pubDate)
    case Some(u) => u
    case None => ZeroUnix
  }

  function Key(parse: DateParser, v: Item): int
  {
    UnixTime(parse, v.pubDate)
  }

  /** `ByPubDate.Less`: `x` sorts before `y` when it is strictly newer. */
  predicate Less(parse: DateParser, x: Item, y: Item)
  {
    Key(parse, x) > Key(parse, y)
  }

  /** What `sort.Sort` asks of `Less`: a strict weak ordering (irreflexive,
      transitive, and with transitive incomparability). */
  lemma LessIsStrictWeakOrder(parse: DateParser, x: Item, y: Item, z: Item)
    ensures !Less(parse, x, x)
    ensures Less(parse, x, y) && Less(parse, y, z) ==> Less(parse, x, z)
    ensures !Less(parse, x, y) && !Less(parse, y, x) && !Less(parse, y, z) && !Less(parse, z, y)
            ==> !Less(parse, x, z) && !Less(parse, z, x)
  {
  }

  /** The postcondition of `sort.Sort(ByPubDate(s))`: no element is `Less`
      than one before it, so dates never increase along `s`. */
  predicate SortedByDate(parse: DateParser, s: seq<Item>)
  {
    forall i, j :: 0 <= i < j < |s| ==> Key(parse, s[i]) >= Key(parse, s[j])
  }
}
