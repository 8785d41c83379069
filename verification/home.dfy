/**
 * The feed page of src/pages/Home.tsx: paging through the feed, the list of
 * items shown, the optimistic rating update over the query cache, and the
 * comment rules.
 */
module Home {
  import opened Types

  /** The feed asks for pages of this many videos. */
  const PageSize: int := 5

  /* ---------------- Paging ---------------- */

  /** One page of the feed as the server returns it; any field may be missing. */
  datatype FeedPage = FeedPage(data: Option<seq<Video>>, page: Option<int>, hasMore: Option<bool>)

  /**
   * `getNextPageParam`: the page after the last one when the server says
   * there is more (page 1 assumed when it did not say which page it sent),
   * otherwise no next page.
   */
  function NextPageParam(last: Option<FeedPage>): (next: Option<int>)
    ensures next.Some? <==> last.Some? && last.value.hasMore == Some(true)
    ensures next.Some? && last.value.page.Some? ==> next.value == last.value.page.value + 1
    ensures next.Some? && last.value.page.None? ==> next.value == 2
  {
    match last
    case None => None
    case Some(p) =>
      if p.hasMore == Some(true) then
        Some((if p.page.Some? then p.page.value else 1) + 1)
      else None
  }

  /** The videos of one page; a missing page or missing data counts as none. */
  function DataOf(p: Option<FeedPage>): seq<Video>
  {
    if p.Some? && p.value.data.Some? then p.value.data.value else []
  }

  /** The items shown: every page's videos, page after page. */
  function Flatten(pages: seq<Option<FeedPage>>): seq<Video>
  {
    if pages == [] then [] else DataOf(pages[0]) + Flatten(pages[1..])
  }

  /**
   * `items`: no pages loaded at all shows nothing; otherwise a video is
   * shown exactly when some loaded page holds it.
   */
  function Items(pages: Option<seq<Option<FeedPage>>>): (items: seq<Video>)
    ensures pages.None? ==> items == []
    ensures forall v :: v in items <==> pages.Some? && exists i :: 0 <= i < |pages.value| && v in DataOf(pages.value[i])
  {
    if pages.Some? then
      assert forall v :: v in Flatten(pages.value) <==> exists i :: 0 <= i < |pages.value| && v in DataOf(pages.value[i]) by {
        forall v {
          ShownIffOnSomePage(pages.value, v);
        }
      }
      Flatten(pages.value)
    else []
  }

  /** Loading two runs of pages shows the first run's items, then the second's. */
  lemma {:induction false} FlattenConcat(a: seq<Option<FeedPage>>, b: seq<Option<FeedPage>>)
    ensures Flatten(a + b) == Flatten(a) + Flatten(b)
  {
    if a == [] {
      assert a + b == b;
    } else {
      assert (a + b)[1..] == a[1..] + b;
      FlattenConcat(a[1..], b);
    }
  }

  /** Fetching the next page appends its videos and keeps every item already shown in place. */
  lemma NextPageAppends(pages: seq<Option<FeedPage>>, p: Option<FeedPage>)
    ensures Flatten(pages + [p]) == Flatten(pages) + DataOf(p)
    ensures Flatten(pages) <= Flatten(pages + [p])
  {
    FlattenConcat(pages, [p]);
    assert Flatten([p]) == DataOf(p) + Flatten([]);
  }

  /**
   * Loading one more page shows the items shown before, in the same
   * places, followed by that page's videos.
   */
  lemma ItemsNextPage(pages: seq<Option<FeedPage>>, p: Option<FeedPage>)
    ensures Items(Some(pages + [p])) == Items(Some(pages)) + DataOf(p)
    ensures Items(Some(pages)) <= Items(Some(pages + [p]))
  {
    NextPageAppends(pages, p);
  }

  /** A video is shown exactly when some loaded page contains it. */
  lemma {:induction false} ShownIffOnSomePage(pages: seq<Option<FeedPage>>, v: Video)
    ensures v in Flatten(pages) <==> exists i :: 0 <= i < |pages| && v in DataOf(pages[i])
  {
    if pages != [] {
      ShownIffOnSomePage(pages[1..], v);
      if v in Flatten(pages[1..]) {
        var i :| 0 <= i < |pages[1..]| && v in DataOf(pages[1..][i]);
        assert v in DataOf(pages[i + 1]);
      }
      if exists i :: 0 <= i < |pages| && v in DataOf(pages[i]) {
        var i :| 0 <= i < |pages| && v in DataOf(pages[i]);
        if i > 0 {
          assert pages[1..][i - 1] == pages[i];
        }
      }
    }
  }

  /**
   * A server that numbers the pages it sends is asked for the page after the
   * one it sent last, as long as it says there is more.
   */
  lemma FollowsServerNumbering(n: int, data: Option<seq<Video>>)
    ensures NextPageParam(Some(FeedPage(data, Some(n), Some(true)))) == Some(n + 1)
    ensures NextPageParam(Some(FeedPage(data, Some(n), Some(false)))) == None
    ensures NextPageParam(Some(FeedPage(data, Some(n), None))) == None
  {
  }

  /* ---------------- Optimistic rating ---------------- */

  /**
   * The rating aggregate with one more rating folded in: the count grows by
   * one and the new average times the new count is the old total plus the
   * new rating.
   */
  function AddRating(avg: real, count: nat, rating: real): (r: (real, nat))
    ensures r.1 == count + 1
    ensures r.0 * (r.1 as real) == avg * (count as real) + rating
  {
    var newCount := count + 1;
    ((avg * (count as real) + rating) / (newCount as real), newCount)
  }

  /**
   * An average within a range stays within it when a rating within the same
   * range is added (for an empty aggregate only the rating matters).
   */
  lemma AddRatingBounded(avg: real, count: nat, rating: real, lo: real, hi: real)
    requires count == 0 || lo <= avg <= hi
    requires lo <= rating <= hi
    ensures lo <= AddRating(avg, count, rating).0 <= hi
  {
    var r := AddRating(avg, count, rating);
    var c := count as real;
    if count == 0 {
      assert r.0 * 1.0 == rating;
    } else {
      TotalBounded(avg, c, rating, lo, hi);
      QuotientBounded(r.0, c + 1.0, lo, hi);
    }
  }

  /** Ten ratings averaging 4 plus a rating of 5: eleven ratings averaging 45/11. */
  lemma AddRatingExample()
    ensures AddRating(4.0, 10, 5.0) == (45.0 / 11.0, 11)
  {
  }

  /** With `c` ratings averaging within [lo, hi], the total after one more such rating is within c + 1 times the bounds. */
  lemma TotalBounded(avg: real, c: real, rating: real, lo: real, hi: real)
    requires c > 0.0 && lo <= avg <= hi && lo <= rating <= hi
    ensures lo * (c + 1.0) <= avg * c + rating <= hi * (c + 1.0)
  {
    assert lo * c <= avg * c;
    assert avg * c <= hi * c;
  }

  /** A value whose multiple by a positive factor lies between the bounds' multiples lies between the bounds. */
  lemma QuotientBounded(q: real, n: real, lo: real, hi: real)
    requires n > 0.0 && lo * n <= q * n <= hi * n
    ensures lo <= q <= hi
  {
  }

  /** The query keys the feed uses: the feed itself, one video's detail, one video's comments. */
  datatype Key = FeedKey(pageSize: int) | VideoKey(id: int) | CommentsKey(id: int)

  /** A cached value: a video detail `{ok, video}`, or anything else the page does not look into. */
  datatype Entry = DetailEntry(ok: bool, video: Option<Video>) | OtherEntry(tag: nat)

  /** Whether the cache holds a detail with a video under the key (`prevDetail?.video`). */
  predicate HasDetail(entries: map<Key, Entry>, k: Key)
  {
    k in entries && entries[k].DetailEntry? && entries[k].video.Some?
  }

  /** The cache after `onMutate`: the detail, if there is one, takes the feed item's aggregate plus the rating. */
  function RateDetail(entries: map<Key, Entry>, item: Video, rating: real): map<Key, Entry>
  {
    var k := VideoKey(item.id);
    if HasDetail(entries, k) then
      var agg := AddRating(item.avg_rating, item.rating_count, rating);
      entries[k := DetailEntry(true, Some(entries[k].video.value.(avg_rating := agg.0, rating_count := agg.1)))]
    else entries
  }

  /**
   * What `onMutate` does to the cache: only the video's own detail entry
   * changes, and only when it holds a video; that video keeps every field
   * but the two aggregate ones, which are computed from the feed item and
   * not from the cached detail.
   */
  lemma RateDetailEffect(entries: map<Key, Entry>, item: Video, rating: real)
    ensures var after := RateDetail(entries, item, rating);
      && after.Keys == entries.Keys
      && (forall k :: k in entries && k != VideoKey(item.id) ==> after[k] == entries[k])
      && (!HasDetail(entries, VideoKey(item.id)) ==> after == entries)
      && (HasDetail(entries, VideoKey(item.id)) ==>
            var before := entries[VideoKey(item.id)].video.value;
            && after[VideoKey(item.id)] == DetailEntry(true, Some(after[VideoKey(item.id)].video.value))
            && after[VideoKey(item.id)].video.value.(avg_rating := before.avg_rating, rating_count := before.rating_count) == before
            && after[VideoKey(item.id)].video.value.rating_count == item.rating_count + 1
            && after[VideoKey(item.id)].video.value.avg_rating * ((item.rating_count + 1) as real)
               == item.avg_rating * (item.rating_count as real) + rating)
  {
  }

  /**
   * Rating twice from the same feed item before the feed is refetched
   * leaves the same detail as rating once: the second write recomputes
   * from the item and does not count the first rating again.
   */
  lemma RateTwiceCountsOnce(entries: map<Key, Entry>, item: Video, rating: real)
    ensures RateDetail(RateDetail(entries, item, rating), item, rating) == RateDetail(entries, item, rating)
  {
  }

  /** The query cache the page writes to and invalidates. */
  class QueryCache {
    var entries: map<Key, Entry>
    /** The keys invalidated so far, to be refetched. */
    var stale: set<Key>

    constructor (entries: map<Key, Entry>)
      ensures this.entries == entries && stale == {}
    {
      this.entries := entries;
      stale := {};
    }

    /** `rateMut.onMutate`: returns the previous detail, if any, and writes the optimistic one. */
    method OnRateMutate(item: Video, rating: real) returns (prevDetail: Option<Entry>)
      modifies this
      ensures prevDetail.Some? <==> VideoKey(item.id) in old(entries)
      ensures prevDetail.Some? ==> prevDetail.value == old(entries)[VideoKey(item.id)]
      ensures entries == RateDetail(old(entries), item, rating)
      ensures stale == old(stale)
    {
      var k := VideoKey(item.id);
      prevDetail := if k in entries then Some(entries[k]) else None;
      if prevDetail.Some? && prevDetail.value.DetailEntry? && prevDetail.value.video.Some? {
        var agg := AddRating(item.avg_rating, item.rating_count, rating);
        entries := entries[k := DetailEntry(true, Some(prevDetail.value.video.value.(avg_rating := agg.0, rating_count := agg.1)))];
      }
    }

    /** `rateMut.onSettled`, after success and failure alike: the feed and the video's detail go stale. */
    method OnRateSettled(videoId: int)
      modifies this
      ensures stale == old(stale) + {FeedKey(PageSize), VideoKey(videoId)}
      ensures entries == old(entries)
    {
      stale := stale + {FeedKey(PageSize), VideoKey(videoId)};
    }

    /** A comment was added or deleted: the video's comment list goes stale. */
    method OnCommentChanged(videoId: int)
      modifies this
      ensures stale == old(stale) + {CommentsKey(videoId)}
      ensures entries == old(entries)
    {
      stale := stale + {CommentsKey(videoId)};
    }
  }

  /**
   * A rating that the server rejects: `onError` only shows a dialog, so the
   * optimistic detail stays in the cache (the previous one is not put back)
   * until the refetch that `onSettled` asks for replaces it.
   */
  method RatingRejected(entries: map<Key, Entry>, item: Video, rating: real)
    returns (after: map<Key, Entry>, stale: set<Key>, prevDetail: Option<Entry>)
    ensures after == RateDetail(entries, item, rating)
    ensures stale == {FeedKey(PageSize), VideoKey(item.id)}
    ensures prevDetail.Some? <==> VideoKey(item.id) in entries
    ensures HasDetail(entries, VideoKey(item.id)) ==> after[VideoKey(item.id)].video.value.rating_count == item.rating_count + 1
  {
    var cache := new QueryCache(entries);
    prevDetail := cache.OnRateMutate(item, rating);
    cache.OnRateSettled(item.id);
    after, stale := cache.entries, cache.stale;
  }

  /** The Like button submits a rating of 5, and is wired only for a signed-in viewer. */
  function LikeRating(accessToken: Option<string>): (rating: Option<real>)
    ensures rating.Some? <==> Truthy(accessToken)
    ensures rating.Some? ==> rating.value == 5.0
  {
    if Truthy(accessToken) then Some(5.0) else None
  }

  /* ---------------- Comments ---------------- */

  /** `isOwner`: the viewer uploaded the video; an anonymous viewer owns nothing. */
  predicate IsOwner(viewer: Option<User>, video: Video)
  {
    viewer.Some? && viewer.value.id == video.uploader_id
  }

  /** Delete is offered to the video's uploader for every comment and to each comment's author. */
  function CanDelete(viewer: Option<User>, video: Video, c: Comment): (allowed: bool)
    ensures allowed <==> viewer.Some? && (viewer.value.id == video.uploader_id || viewer.value.id == c.user_id)
  {
    IsOwner(viewer, video) || (viewer.Some? && c.user_id == viewer.value.id)
  }

  /** Nobody signed out can delete, and an uploader can delete every comment on the video. */
  lemma DeletePermission(viewer: Option<User>, video: Video, c: Comment)
    ensures viewer.None? ==> !CanDelete(viewer, video, c)
    ensures IsOwner(viewer, video) ==> CanDelete(viewer, video, c)
    ensures viewer.Some? && viewer.value.id != video.uploader_id && viewer.value.id != c.user_id ==> !CanDelete(viewer, video, c)
  {
  }

  datatype CommentIssue = CommentEmpty | CommentTooLong

  const MaxComment: nat := 500

  /** CommentSchema: between 1 and 500 characters. */
  function ValidateComment(text: string): (r: Result<string, CommentIssue>)
    ensures r.Ok? <==> 1 <= |text| <= MaxComment
    ensures r.Ok? ==> r.value == text
    ensures r == Err(CommentEmpty) <==> text == []
    ensures r == Err(CommentTooLong) <==> |text| > MaxComment
  {
    if |text| < 1 then Err(CommentEmpty)
    else if |text| > MaxComment then Err(CommentTooLong)
    else Ok(text)
  }
}
