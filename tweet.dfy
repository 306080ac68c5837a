/**
 * The record store: the collection `TweetDB` of tweets, addressed by position, and
 * the four operations of `Service` that read it or change it in place.
 */
module TweetService {
  import opened Wrappers
  import opened GoInt

  /** The text of the error that the bounds-checked operations return. */
  const RECORD_NOT_FOUND: string := "record doesn't exist"

  datatype Tweet = Tweet(message: string, author: string, likes: int)

  /** The one tweet `TweetDB` holds when the process starts. */
  const SEED: Tweet := Tweet("1st Tweet", "Pholawat Tangsatit", 0)

  /**
   * The guard `ID > uint(len(TweetDB)-1) || len(TweetDB) == 0`, with Go's wrap-around.
   * For every length a Go slice can have, it rejects exactly the identifiers that are
   * not positions of the collection.
   */
  predicate RecordMissing(id: Uint64, len: nat)
    ensures len <= MAX_INT ==> (RecordMissing(id, len) <==> id >= len)
  {
    id > ToUint64(len - 1) || len == 0
  }

  /**
   * On an empty collection `uint(len-1)` wraps to the largest `uint`, so the first
   * half of the guard lets every identifier through; only `len == 0` rejects them.
   */
  lemma EmptyCollectionNeedsLengthTest(id: Uint64)
    ensures ToUint64(0 - 1) == MAX_UINT64
    ensures !(id > ToUint64(0 - 1)) && RecordMissing(id, 0)
  {
  }

  /**
   * The parallel assignment `s[j], s[i] = s[i], s[j]`: positions i and j exchange
   * their elements and every other position keeps its own.
   */
  function Swap<T>(s: seq<T>, i: nat, j: nat): (r: seq<T>)
    requires i < |s| && j < |s|
    ensures |r| == |s| && r[i] == s[j] && r[j] == s[i]
    ensures forall k :: 0 <= k < |s| && k != i && k != j ==> r[k] == s[k]
  {
    s[j := s[i]][i := s[j]]
  }

  /** A swap neither loses nor duplicates an element. */
  lemma SwapPreservesMultiset<T>(s: seq<T>, i: nat, j: nat)
    requires i < |s| && j < |s|
    ensures multiset(Swap(s, i, j)) == multiset(s)
  {
    var r := Swap(s, i, j);
    if i != j {
      var t := s[j := s[i]];
      assert multiset(t) == multiset(s) - multiset{s[j]} + multiset{s[i]};
      assert multiset(r) == multiset(t) - multiset{t[i]} + multiset{s[j]};
    }
  }

  /** Swapping the same two positions twice restores the sequence. */
  lemma SwapIsInvolution<T>(s: seq<T>, i: nat, j: nat)
    requires i < |s| && j < |s|
    ensures Swap(Swap(s, i, j), i, j) == s
  {
    var r := Swap(Swap(s, i, j), i, j);
    assert forall k :: 0 <= k < |s| ==> r[k] == s[k];
  }

  /** Swapping a position with itself changes nothing. */
  lemma SwapWithItself<T>(s: seq<T>, i: nat)
    requires i < |s|
    ensures Swap(s, i, i) == s
  {
    assert forall k :: 0 <= k < |s| ==> Swap(s, i, i)[k] == s[k];
  }

  /**
   * `Service` together with the package-level slice `TweetDB` it works on. Each
   * service owns its collection here, while in Go every service shares the one
   * slice; the source builds at most one handler, so one collection per `Service`
   * does the same job.
   */
  class Service {
    var tweetDB: seq<Tweet>

    /** A Go slice never holds more than `MAX_INT` elements. */
    ghost predicate Valid()
      reads this
    {
      |tweetDB| <= MAX_INT
    }

    /** Appending one more tweet keeps the slice within Go's length limit. */
    ghost predicate HasRoom()
      reads this
    {
      |tweetDB| < MAX_INT
    }

    /** `NewService`, over `TweetDB` as it is at process start. */
    constructor ()
      ensures Valid() && HasRoom()
      ensures tweetDB == [SEED]
    {
      tweetDB := [SEED];
    }

    /** Removal by swap: slot `id` and the last slot exchange, the length is kept. */
    method DeleteTweetByID(id: Uint64) returns (r: Result<()>)
      requires Valid()
      modifies this
      ensures Valid()
      ensures r.Err? <==> id >= |old(tweetDB)|
      ensures r.Err? ==> r.error == RECORD_NOT_FOUND && tweetDB == old(tweetDB)
      ensures r.Ok? ==> tweetDB == Swap(old(tweetDB), id, |old(tweetDB)| - 1)
      ensures |tweetDB| == |old(tweetDB)| && multiset(tweetDB) == multiset(old(tweetDB))
    {
      if RecordMissing(id, |tweetDB|) {
        return Err(RECORD_NOT_FOUND);
      }
      var last := |tweetDB| - 1;
      SwapPreservesMultiset(tweetDB, id, last);
      tweetDB := tweetDB[last := tweetDB[id]][id := tweetDB[last]];
      r := Ok(());
    }

    /** The whole collection, in order; never an error. */
    method GetAllTweet() returns (r: Result<seq<Tweet>>)
      ensures r == Ok(tweetDB)
    {
      r := Ok(tweetDB);
    }

    /** Bounds-checked read of slot `id`. */
    method GetTweetByID(id: Uint64) returns (r: Result<Tweet>)
      requires Valid()
      ensures r.Err? <==> id >= |tweetDB|
      ensures r.Err? ==> r.error == RECORD_NOT_FOUND
      ensures r.Ok? ==> id < |tweetDB| && r.value == tweetDB[id]
    {
      if RecordMissing(id, |tweetDB|) {
        return Err(RECORD_NOT_FOUND);
      }
      r := Ok(tweetDB[id]);
    }

    /** Append; the tweet comes back unchanged and no error is possible. */
    method CreateTweet(t: Tweet) returns (r: Result<Tweet>)
      requires Valid() && HasRoom()
      modifies this
      ensures Valid()
      ensures r == Ok(t)
      ensures tweetDB == old(tweetDB) + [t]
    {
      tweetDB := tweetDB + [t];
      r := Ok(t);
    }
  }

  /** Deleting the last position of a non-empty collection succeeds and changes nothing. */
  method DeleteLastKeepsContents(service: Service) returns (r: Result<()>)
    requires service.Valid() && service.tweetDB != []
    modifies service
    ensures r.Ok? && service.tweetDB == old(service.tweetDB)
  {
    ghost var before := service.tweetDB;
    r := service.DeleteTweetByID(|service.tweetDB| - 1);
    SwapWithItself(before, |before| - 1);
  }

  /** Deleting the same valid position twice succeeds both times and restores the collection. */
  method DeleteTwiceRestores(service: Service, id: Uint64) returns (first: Result<()>, second: Result<()>)
    requires service.Valid() && id < |service.tweetDB|
    modifies service
    ensures first.Ok? && second.Ok? && service.tweetDB == old(service.tweetDB)
  {
    ghost var before := service.tweetDB;
    first := service.DeleteTweetByID(id);
    second := service.DeleteTweetByID(id);
    SwapIsInvolution(before, id, |before| - 1);
  }
}
