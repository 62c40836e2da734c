/** DeletePrefix: the keys of a paged listing, deleted in batches of at most a thousand. */
module Prefix {

  import opened Wrappers

  const LIMIT := 1000

  /** One answer to a listing request: a page whose entries may lack their key, or an error. */
  datatype Page = Listed(contents: seq<Option<string>>) | Unlisted

  function Keys(contents: seq<Option<string>>): seq<string> {
    if contents == [] then []
    else
      var last := contents[|contents| - 1];
      Keys(contents[..|contents| - 1]) + (if last.Some? then [last.value] else [])
  }

  /** The keys on the pages before the first error. */
  function Listing(pages: seq<Page>): seq<string> {
    if pages == [] || pages[0].Unlisted? then [] else Keys(pages[0].contents) + Listing(pages[1..])
  }

  predicate AllListed(pages: seq<Page>) {
    forall i :: 0 <= i < |pages| ==> pages[i].Listed?
  }

  /** Some entry of some page is this key. */
  ghost predicate Named(pages: seq<Page>, k: string) {
    exists p :: 0 <= p < |pages| && pages[p].Listed? && Some(k) in pages[p].contents
  }

  lemma {:induction false} KeysAre(contents: seq<Option<string>>)
    ensures forall k :: k in Keys(contents) <==> Some(k) in contents
  {
    if contents != [] {
      var most, last := contents[..|contents| - 1], contents[|contents| - 1];
      KeysAre(most);
      assert forall e :: e in contents <==> e in most || e == last;
    }
  }

  lemma {:induction false} ListingNames(pages: seq<Page>)
    ensures forall k :: k in Listing(pages) ==> Named(pages, k)
    ensures AllListed(pages) ==> forall k :: Named(pages, k) ==> k in Listing(pages)
  {
    if pages != [] && pages[0].Listed? {
      var rest := pages[1..];
      ListingNames(rest);
      KeysAre(pages[0].contents);
      forall k
        ensures Named(pages, k) <==> Some(k) in pages[0].contents || Named(rest, k)
      {
        NamedSplit(pages, k);
      }
    }
  }

  lemma NamedSplit(pages: seq<Page>, k: string)
    requires pages != [] && pages[0].Listed?
    ensures Named(pages, k) <==> Some(k) in pages[0].contents || Named(pages[1..], k)
  {
    if Named(pages[1..], k) {
      var p :| 0 <= p < |pages[1..]| && pages[1..][p].Listed? && Some(k) in pages[1..][p].contents;
      assert pages[p + 1] == pages[1..][p];
    }
    if Named(pages, k) && Some(k) !in pages[0].contents {
      var p :| 0 <= p < |pages| && pages[p].Listed? && Some(k) in pages[p].contents;
      assert pages[1..][p - 1] == pages[p];
    }
  }

  /** The batches for a listing: thousands, and the rest. */
  function Batches(keys: seq<string>): seq<seq<string>> {
    if keys == [] then []
    else if |keys| <= LIMIT then [keys]
    else [keys[..LIMIT]] + Batches(keys[LIMIT..])
  }

  function Concat(batches: seq<seq<string>>): seq<string> {
    if batches == [] then [] else batches[0] + Concat(batches[1..])
  }

  /** No key is lost or repeated, and every batch has 1 to 1000 keys. */
  lemma {:induction false} BatchesPartition(keys: seq<string>)
    ensures Concat(Batches(keys)) == keys
    ensures forall i :: 0 <= i < |Batches(keys)| ==> 1 <= |Batches(keys)[i]| <= 1000
    ensures forall i :: 0 <= i < |Batches(keys)| - 1 ==> |Batches(keys)[i]| == 1000
  {
    if |keys| > LIMIT {
      BatchesPartition(keys[LIMIT..]);
      assert keys[..LIMIT] + keys[LIMIT..] == keys;
    } else if keys != [] {
      assert Concat([keys]) == keys + Concat([]);
    }
  }

  /** Whole thousands. */
  predicate Whole(keys: seq<string>) {
    |keys| % LIMIT == 0
  }

  lemma {:induction false} BatchesAppend(full: seq<string>, more: seq<string>)
    requires Whole(full)
    ensures Batches(full + more) == Batches(full) + Batches(more)
  {
    if full == [] {
      assert full + more == more;
    } else {
      var rest := full[LIMIT..];
      BatchesAppend(rest, more);
      assert full[..LIMIT] + rest == full;
      assert (full + more)[..LIMIT] == full[..LIMIT] && (full + more)[LIMIT..] == rest + more;
      if rest == [] {
        assert full[..LIMIT] == full && Batches(full) == [full];
        assert more == [] ==> Batches(full + more) == Batches(full);
      } else {
        assert Batches(full) == [full[..LIMIT]] + Batches(rest);
      }
    }
  }

  /** The listing does not depend on where pages end: only their keys matter. */
  lemma {:induction false} ListingConcat(pages: seq<Page>, more: seq<Page>)
    requires AllListed(pages)
    ensures Listing(pages + more) == Listing(pages) + Listing(more)
  {
    if pages == [] {
      assert pages + more == more;
    } else {
      assert (pages + more)[1..] == pages[1..] + more;
      ListingConcat(pages[1..], more);
    }
  }

  lemma ListingThen(seen: seq<Page>, page: Page, rest: seq<Page>)
    requires AllListed(seen) && page.Listed?
    ensures Listing(seen + ([page] + rest)) == Listing(seen) + (Keys(page.contents) + Listing(rest))
    ensures Listing(seen) + Keys(page.contents) <= Listing(seen + ([page] + rest))
  {
    ListingConcat(seen, [page] + rest);
    assert ([page] + rest)[1..] == rest;
    PrefixOfAll(Listing(seen), Keys(page.contents), Listing(rest));
  }

  lemma PrefixOfAll(a: seq<string>, b: seq<string>, c: seq<string>)
    ensures a + b <= a + (b + c)
  {
    assert a + (b + c) == (a + b) + c;
  }

  lemma ListingUpTo(pages: seq<Page>, p: nat)
    requires p < |pages| && AllListed(pages[..p]) && pages[p].Listed?
    ensures Listing(pages[..p + 1]) == Listing(pages[..p]) + Keys(pages[p].contents)
  {
    ListingThen(pages[..p], pages[p], []);
    assert pages[..p + 1] == pages[..p] + ([pages[p]] + []);
  }

  lemma PagesAround(pages: seq<Page>, p: nat)
    requires p < |pages|
    ensures pages == pages[..p] + ([pages[p]] + pages[p + 1..])
  {
  }

  lemma ListingFrom(pages: seq<Page>, p: nat)
    requires p < |pages| && AllListed(pages[..p]) && pages[p].Listed?
    ensures Listing(pages[..p]) + Keys(pages[p].contents) <= Listing(pages)
  {
    PagesAround(pages, p);
    ListingThen(pages[..p], pages[p], pages[p + 1..]);
  }

  /** What was seen of the listing: whole thousands that were sent, and the batch. */
  predicate Sent(sent: seq<seq<string>>, full: seq<string>, batch: seq<string>) {
    Whole(full) && |batch| < LIMIT && sent == Batches(full)
  }

  /** Sending a full batch, or the last one, follows the batches of the whole listing. */
  lemma SendBatch(sent: seq<seq<string>>, full: seq<string>, batch: seq<string>, listing: seq<string>)
    requires Whole(full) && sent == Batches(full) && 0 < |batch| <= LIMIT
    requires full + batch <= listing && (|batch| == LIMIT || full + batch == listing)
    ensures sent + [batch] <= Batches(listing)
    ensures sent + [batch] == Batches(full + batch)
  {
    var rest := listing[|full + batch|..];
    assert listing == full + (batch + rest);
    BatchesAppend(full, batch);
    BatchesAppend(full, batch + rest);
    if rest != [] {
      assert (batch + rest)[..LIMIT] == batch;
    } else {
      assert batch + rest == batch;
    }
  }

  /** After an error, the keys sent so far are the first ones of the listing. */
  lemma {:induction false} SentInOrder(sent: seq<seq<string>>, listing: seq<string>)
    requires sent <= Batches(listing)
    ensures Concat(sent) <= listing
  {
    if sent != [] {
      assert sent[0] == Batches(listing)[0];
      if |listing| > LIMIT {
        SentInOrder(sent[1..], listing[LIMIT..]);
      } else {
        assert sent == [listing];
      }
    }
  }

  function Set(keys: seq<string>): set<string> {
    set k | k in keys
  }

  /** The bucket, and the delete requests it was sent. */
  class Bucket {
    var objects: set<string>
    var sent: seq<seq<string>>

    constructor (objects: set<string>)
      ensures this.objects == objects && sent == []
    {
      this.objects := objects;
      sent := [];
    }

    /** One DeleteObjects request. It may fail, and may have been carried out nevertheless. */
    method DeleteObjects(keys: seq<string>, works: bool) returns (ok: bool)
      modifies this
      ensures ok == works && sent == old(sent) + [keys]
      ensures ok ==> objects == old(objects) - Set(keys)
      ensures objects == old(objects) || objects == old(objects) - Set(keys)
    {
      ok := works;
      sent := sent + [keys];
      var applied: bool := *;
      if works || applied {
        objects := objects - Set(keys);
      }
    }

    /** Sends the batch, if there is one. */
    method Flush(batch: seq<string>, works: bool) returns (ok: bool)
      modifies this
      ensures batch == [] ==> ok && sent == old(sent)
      ensures batch != [] ==> ok == works && sent == old(sent) + [batch]
      ensures ok ==> objects == old(objects) - Set(batch)
      ensures objects == old(objects) || objects == old(objects) - Set(batch)
    {
      if |batch| == 0 {
        return true;
      }
      ok := DeleteObjects(batch, works);
    }

    /** One more key: the batch is sent once it is full. */
    method Add(batch: seq<string>, key: string, works: nat -> bool, ghost full: seq<string>,
               ghost listing: seq<string>, ghost before: set<string>)
        returns (ok: bool, left: seq<string>, ghost done: seq<string>)
      requires Sent(sent, full, batch) && objects == before - Set(full)
      requires full + (batch + [key]) <= listing
      modifies this
      ensures ok ==> done + left == full + (batch + [key]) && Sent(sent, done, left) && objects == before - Set(done)
      ensures !ok ==> Failed(works, listing, before)
    {
      left, done, ok := batch + [key], full, true;
      if |left| == LIMIT {
        SendBatch(sent, full, left, listing);
        ok := Flush(left, works(|sent|));
        assert Set(full + left) == Set(full) + Set(left);
        assert Set(full + left) <= Set(listing);
        if ok {
          left, done := [], full + left;
        }
      }
    }

    /** The state after a delete request that failed. */
    ghost predicate Failed(works: nat -> bool, listing: seq<string>, before: set<string>)
      reads this
    {
      sent != [] && !works(|sent| - 1) && sent <= Batches(listing) && before - Set(listing) <= objects <= before
    }

    /** The keys of one page. */
    method AddPage(contents: seq<Option<string>>, batch: seq<string>, works: nat -> bool, ghost full: seq<string>,
                   ghost listing: seq<string>, ghost before: set<string>)
        returns (ok: bool, left: seq<string>, ghost done: seq<string>)
      requires Sent(sent, full, batch) && objects == before - Set(full)
      requires full + batch + Keys(contents) <= listing
      modifies this
      ensures ok ==> done + left == full + batch + Keys(contents)
      ensures ok ==> Sent(sent, done, left) && objects == before - Set(done)
      ensures !ok ==> Failed(works, listing, before)
    {
      ok, left, done := true, batch, full;
      for i := 0 to |contents|
        invariant ok && done + left == full + batch + Keys(contents[..i])
        invariant Sent(sent, done, left) && objects == before - Set(done)
      {
        var obj := contents[i];
        KeysNext(contents, i);
        if obj.None? {
          continue;
        }
        AppendOne(done, left, obj.value, full + batch, Keys(contents[..i]));
        ok, left, done := Add(left, obj.value, works, done, listing, before);
        if !ok {
          return;
        }
      }
      assert contents[..|contents|] == contents;
    }

    /** Success deletes exactly the listed keys, in the batches of the listing, however it was paged.
        After an error, what was sent is a prefix of those batches, and no other key was touched.
        `works` says which requests succeed. */
    method DeletePrefix(pages: seq<Page>, works: nat -> bool) returns (ok: bool)
      requires sent == []
      modifies this
      ensures ok ==> AllListed(pages) && sent == Batches(Listing(pages))
      ensures ok ==> objects == old(objects) - Set(Listing(pages))
      ensures sent <= Batches(Listing(pages))
      ensures old(objects) - Set(Listing(pages)) <= objects <= old(objects)
      ensures !ok ==> !AllListed(pages) || Failed(works, Listing(pages), old(objects))
      // By the entries of the pages: success deletes what is named there and nothing else.
      ensures ok ==> forall k :: k in objects <==> k in old(objects) && !Named(pages, k)
      ensures forall k :: k in old(objects) && !Named(pages, k) ==> k in objects
    {
      ListingNames(pages);
      var batch: seq<string> := [];
      ghost var full: seq<string> := [];   // the keys already sent
      ghost var listing, before := Listing(pages), objects;
      for p := 0 to |pages|
        invariant AllListed(pages[..p]) && full + batch == Listing(pages[..p])
        invariant Sent(sent, full, batch) && objects == before - Set(full)
      {
        var page := pages[p];
        if page.Unlisted? {
          Stopped(pages, p, full, batch);
          return false;
        }
        ListingUpTo(pages, p);
        ListingFrom(pages, p);
        ok, batch, full := AddPage(page.contents, batch, works, full, listing, before);
        if !ok {
          return;
        }
      }
      assert pages[..|pages|] == pages;
      if |batch| > 0 {
        SendBatch(sent, full, batch, listing);
      }
      assert batch == [] ==> full == full + batch;
      assert full + batch == listing && Set(listing) == Set(full) + Set(batch);
      ok := Flush(batch, works(|sent|));
    }
  }

  lemma AppendOne(done: seq<string>, left: seq<string>, key: string, before: seq<string>, keys: seq<string>)
    requires done + left == before + keys
    ensures done + (left + [key]) == before + (keys + [key])
  {
    assert done + (left + [key]) == done + left + [key];
  }

  lemma KeysNext(contents: seq<Option<string>>, i: nat)
    requires i < |contents|
    ensures Keys(contents[..i + 1]) == Keys(contents[..i]) + (if contents[i].Some? then [contents[i].value] else [])
    ensures Keys(contents[..i + 1]) <= Keys(contents)
    decreases |contents|
  {
    assert contents[..i + 1][..i] == contents[..i];
    if i == |contents| - 1 {
      assert contents[..i + 1] == contents;
    } else {
      var most := contents[..|contents| - 1];
      KeysNext(most, i);
      assert most[..i + 1] == contents[..i + 1];
    }
  }

  /** A failed listing request: what was seen before it is all that counts as listed. */
  lemma Stopped(pages: seq<Page>, p: nat, full: seq<string>, batch: seq<string>)
    requires p < |pages| && AllListed(pages[..p]) && pages[p].Unlisted?
    requires full + batch == Listing(pages[..p]) && Whole(full)
    ensures full + batch == Listing(pages) && Batches(full) <= Batches(Listing(pages))
  {
    assert pages == pages[..p] + pages[p..];
    ListingConcat(pages[..p], pages[p..]);
    BatchesAppend(full, batch);
  }
}
