/** The feed of clip records held in the component's `recordings` state and the three
    pure transformations the handlers write into it: prepend-and-slice
    (src/App.js:143), the play-count map (src/App.js:164-166) and the delete filter
    (src/App.js:173). */
module Feed {

  /** The feed keeps at most this many records (`slice(0, 20)`). */
  const MaxFeedLength: nat := 20

  /** One clip record as built at src/App.js:132-141. The duration is in tenths of a
      second; the timestamp, the audio URL and the rating are opaque strings. */
  datatype Clip = Clip(
    id: int,
    user: string,
    audioUrl: string,
    durationTenths: nat,
    tokens: nat,
    timestamp: string,
    plays: nat,
    rating: string)

  function Min(a: nat, b: nat): nat
  {
    if a <= b then a else b
  }

  /** `s.slice(0, n)` */
  function Slice<T>(s: seq<T>, n: nat): (r: seq<T>)
    ensures |r| == Min(|s|, n)
    ensures r == s[..|r|]
  {
    if |s| <= n then s else s[..n]
  }

  /** `[c, ...feed].slice(0, 20)`: the new record first, then the old feed's newest
      records, at most twenty in all. */
  function Prepend(c: Clip, feed: seq<Clip>): (r: seq<Clip>)
    ensures 1 <= |r| <= MaxFeedLength
    ensures r[0] == c
    ensures r[1..] == feed[..Min(|feed|, MaxFeedLength - 1)]
  {
    var r := Slice([c] + feed, MaxFeedLength);
    assert r[1..] == ([c] + feed)[1..|r|];
    r
  }

  /** The record the play-count map writes for `c` (src/App.js:165). */
  function Bump(c: Clip, id: int): Clip
  {
    if c.id == id then c.(plays := c.plays + 1) else c
  }

  /** `feed.map(r => r.id === id ? { ...r, plays: r.plays + 1 } : r)` */
  function IncrementPlays(feed: seq<Clip>, id: int): (r: seq<Clip>)
    ensures |r| == |feed|
    ensures forall i :: 0 <= i < |feed| ==>
      r[i] == if feed[i].id == id then feed[i].(plays := feed[i].plays + 1) else feed[i]
  {
    if feed == [] then [] else [Bump(feed[0], id)] + IncrementPlays(feed[1..], id)
  }

  /** `feed.filter(r => r.id !== id)` */
  function RemoveId(feed: seq<Clip>, id: int): (r: seq<Clip>)
    ensures |r| + Count(feed, id) == |feed|
    ensures forall c :: c in r <==> c in feed && c.id != id
  {
    if feed == [] then []
    else (if feed[0].id == id then [] else [feed[0]]) + RemoveId(feed[1..], id)
  }

  /** The number of records of `feed` whose id is `id`. */
  function Count(feed: seq<Clip>, id: int): nat
  {
    if feed == [] then 0 else (if feed[0].id == id then 1 else 0) + Count(feed[1..], id)
  }

  predicate HasId(feed: seq<Clip>, id: int)
  {
    exists i :: 0 <= i < |feed| && feed[i].id == id
  }

  /** No two records share an id. React's `key={recording.id}` (src/App.js:307) expects
      it; the code does not check it. */
  predicate UniqueIds(feed: seq<Clip>)
  {
    forall i, j :: 0 <= i < j < |feed| ==> feed[i].id != feed[j].id
  }

  /** Newest first: ids (creation timestamps) strictly decrease along the feed. */
  predicate NewestFirst(feed: seq<Clip>)
  {
    forall i, j :: 0 <= i < j < |feed| ==> feed[i].id > feed[j].id
  }

  /** The sum of the play counts of a feed. */
  function TotalPlays(feed: seq<Clip>): nat
  {
    if feed == [] then 0 else feed[0].plays + TotalPlays(feed[1..])
  }

  // ---------------------------------------------------------------------------
  // Prepend-and-slice

  /** Below the cap nothing is evicted; at the cap exactly the oldest (last) record is. */
  lemma PrependEvictsOnlyTheOldest(c: Clip, feed: seq<Clip>)
    ensures |feed| < MaxFeedLength ==> Prepend(c, feed) == [c] + feed
    ensures |feed| == MaxFeedLength ==> Prepend(c, feed) == [c] + feed[..|feed| - 1]
  {
    var r := Prepend(c, feed);
    assert r == [r[0]] + r[1..];
    if |feed| < MaxFeedLength {
      assert feed[..|feed|] == feed;
    }
  }

  /** A record newer than every record of a newest-first feed keeps it newest first. */
  lemma PrependKeepsNewestFirst(c: Clip, feed: seq<Clip>)
    requires NewestFirst(feed)
    requires forall i :: 0 <= i < |feed| ==> feed[i].id < c.id
    ensures NewestFirst(Prepend(c, feed))
  {
    var r := Prepend(c, feed);
    forall i, j | 0 <= i < j < |r| ensures r[i].id > r[j].id {
      assert r[j] == r[1..][j - 1] == feed[j - 1];
      if i > 0 {
        assert r[i] == r[1..][i - 1] == feed[i - 1];
      }
    }
  }

  // ---------------------------------------------------------------------------
  // Play-count map

  /** Incrementing an id that is not in the feed leaves the feed as it was. */
  lemma IncrementPlaysAbsent(feed: seq<Clip>, id: int)
    requires !HasId(feed, id)
    ensures IncrementPlays(feed, id) == feed
  {
    var r := IncrementPlays(feed, id);
    forall i | 0 <= i < |feed| ensures r[i] == feed[i] {
      assert feed[i].id != id;
    }
  }

  /** With unique ids, exactly the one record with the id changes, and only in its
      play count. */
  lemma IncrementPlaysChangesExactlyOne(feed: seq<Clip>, id: int, k: nat)
    requires UniqueIds(feed)
    requires k < |feed| && feed[k].id == id
    ensures IncrementPlays(feed, id) == feed[k := feed[k].(plays := feed[k].plays + 1)]
  {
    var r := IncrementPlays(feed, id);
    forall i | 0 <= i < |feed| && i != k ensures r[i] == feed[i] {
      if i < k { assert feed[i].id != feed[k].id; }
      else { assert feed[k].id != feed[i].id; }
    }
  }

  /** The total of the play counts rises by the number of records with the id. */
  lemma {:induction false} IncrementPlaysTotal(feed: seq<Clip>, id: int)
    ensures TotalPlays(IncrementPlays(feed, id)) == TotalPlays(feed) + Count(feed, id)
  {
    if feed != [] {
      var r := IncrementPlays(feed, id);
      assert r[1..] == IncrementPlays(feed[1..], id);
      IncrementPlaysTotal(feed[1..], id);
    }
  }

  /** The play-count map keeps the ids, so it keeps uniqueness and the newest-first order. */
  lemma IncrementPlaysKeepsOrder(feed: seq<Clip>, id: int)
    ensures UniqueIds(feed) ==> UniqueIds(IncrementPlays(feed, id))
    ensures NewestFirst(feed) ==> NewestFirst(IncrementPlays(feed, id))
  {
    var r := IncrementPlays(feed, id);
    assert forall i :: 0 <= i < |feed| ==> r[i].id == feed[i].id;
  }

  // ---------------------------------------------------------------------------
  // Delete filter

  /** Filtering distributes over concatenation: the kept records stay in their relative
      order. */
  lemma {:induction false} RemoveIdAppend(a: seq<Clip>, b: seq<Clip>, id: int)
    ensures RemoveId(a + b, id) == RemoveId(a, id) + RemoveId(b, id)
  {
    if a == [] {
      assert a + b == b;
    } else {
      assert (a + b)[1..] == a[1..] + b;
      RemoveIdAppend(a[1..], b, id);
    }
  }

  /** Deleting an id that is not in the feed leaves the feed as it was. */
  lemma {:induction false} RemoveIdAbsent(feed: seq<Clip>, id: int)
    requires !HasId(feed, id)
    ensures RemoveId(feed, id) == feed
  {
    if feed != [] {
      assert feed[0].id != id;
      forall i | 0 <= i < |feed[1..]| ensures feed[1..][i].id != id {
        assert feed[1..][i] == feed[i + 1];
      }
      RemoveIdAbsent(feed[1..], id);
      assert feed == [feed[0]] + feed[1..];
    }
  }

  /** Deleting the same id twice is the same as deleting it once. */
  lemma RemoveIdIdempotent(feed: seq<Clip>, id: int)
    ensures RemoveId(RemoveId(feed, id), id) == RemoveId(feed, id)
  {
    var r := RemoveId(feed, id);
    forall i | 0 <= i < |r| ensures r[i].id != id {
      assert r[i] in r;
    }
    RemoveIdAbsent(r, id);
  }

  /** A record is deleted exactly when its id is present: the length falls iff the id
      was in the feed. */
  lemma {:induction false} CountPositiveIffPresent(feed: seq<Clip>, id: int)
    ensures Count(feed, id) > 0 <==> HasId(feed, id)
  {
    if feed != [] {
      CountPositiveIffPresent(feed[1..], id);
      if HasId(feed[1..], id) {
        var i :| 0 <= i < |feed[1..]| && feed[1..][i].id == id;
        assert feed[i + 1].id == id;
      }
      if HasId(feed, id) && feed[0].id != id {
        var i :| 0 <= i < |feed| && feed[i].id == id;
        assert feed[1..][i - 1].id == id;
      }
    }
  }

  /** Saving a clip with a fresh id into a feed below the cap, then deleting that id,
      gives back the feed. */
  lemma PrependThenRemove(c: Clip, feed: seq<Clip>)
    requires |feed| < MaxFeedLength
    requires !HasId(feed, c.id)
    ensures RemoveId(Prepend(c, feed), c.id) == feed
  {
    PrependEvictsOnlyTheOldest(c, feed);
    RemoveIdAppend([c], feed, c.id);
    RemoveIdAbsent(feed, c.id);
  }
}
