/** The Bolt database of delivered items: one bucket per feed, named after
    the feed, whose keys are the links of delivered items and whose values
    are JSON snapshots of them. A snapshot is modelled by the item itself.
    Opening the file is not part of this model; of Bolt's errors, the model
    keeps the ones `Put` returns for the key. */
module SeenStore {
  import opened Feed
  import opened GoStrings

  type Bucket = map<string, Item>

  /** The bucket called `name`, or an empty one when there is none yet. */
  function BucketOf(buckets: map<string, Bucket>, name: string): Bucket
  {
    if name in buckets then buckets[name] else map[]
  }

  /** Bolt's `MaxKeySize`, in bytes. */
  const MaxKeySize := 32768

  /** The keys Bolt's `Put` accepts: not empty and at most `MaxKeySize`
      bytes; any other key makes it return an error and store nothing. */
  predicate StorableKey(key: string)
  {
    0 < Utf8Len(key) <= MaxKeySize
  }

  class Db {
    var buckets: map<string, Bucket>

    constructor (buckets: map<string, Bucket>)
      ensures this.buckets == buckets
    {
      this.buckets := buckets;
    }

    /** `tx.CreateBucketIfNotExists`: adds an empty bucket called `name`
        unless there is one; an existing bucket keeps its records. */
    method CreateBucketIfNotExists(name: string)
      modifies this
      ensures buckets == old(buckets)[name := BucketOf(old(buckets), name)]
    {
      if name !in buckets {
        buckets := buckets[name := map[]];
      }
    }

    /** The cursor walk of `ProcessRss`: visits the keys of bucket `name`,
        in no particular order, until one equals `key`. */
    method HasKey(name: string, key: string) returns (found: bool)
      requires name in buckets
      ensures found <==> key in buckets[name]
    {
      var unvisited := buckets[name].Keys;
      found := false;
      while unvisited != {}
        invariant unvisited <= buckets[name].Keys
        invariant key !in buckets[name].Keys - unvisited
        decreases |unvisited|
      {
        var k :| k in unvisited;
        if key == k {
          found := true;
          return;
        }
        unvisited := unvisited - {k};
      }
    }

    /** `b.Put(key, value)` on bucket `name`: adds the record, or overwrites
        the one already under `key`, and reports success; a key Bolt
        refuses changes nothing and is reported as an error. */
    method Put(name: string, key: string, value: Item) returns (ok: bool)
      requires name in buckets
      modifies this
      ensures ok <==> StorableKey(key)
      ensures buckets == if ok then old(buckets)[name := old(buckets)[name][key := value]] else old(buckets)
    {
      if !StorableKey(key) {
        return false;
      }
      buckets := buckets[name := buckets[name][key := value]];
      return true;
    }
  }
}
