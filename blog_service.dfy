/** Blog reads decorated with their author and the viewer's like, the like toggle, the
    first likers, and the scrolling feed read from a user's inbox. */
module BlogService {
  import opened Common
  import opened Redis
  import opened Db

  const BLOG_LIKED_KEY := "blog:liked:"
  const FEED_KEY := "feed:"
  const BLOG_MISSING := "博客不存在！"
  const FEED_PAGE := 3

  function LikedKey(blogId: int): string { BLOG_LIKED_KEY + Str(blogId) }
  function FeedKey(userId: int): string { FEED_KEY + Str(userId) }

  /** isBlogLiked(blog): the user has a score in the blog's liked sorted set. */
  function IsBlogLiked(store: Store, blogId: int, userId: int): (liked: bool)
    reads store`zsets
    ensures liked <==> Str(userId) in Members(store.ZSet(LikedKey(blogId)))
  {
    store.ZScore(LikedKey(blogId), Str(userId)).Some?
  }

  /** setBlogIsLike(blog): with nobody logged in the blog is left as it is; otherwise
      isLike records whether the viewer liked it. */
  function SetBlogIsLike(store: Store, blog: Blog, viewer: Option<int>): (b: Blog)
    reads store`zsets
    ensures b == blog.(isLike := b.isLike)
    ensures viewer.None? ==> b == blog
    ensures viewer.Some? ==> (b.isLike <==> Str(viewer.value) in Members(store.ZSet(LikedKey(blog.id))))
  {
    if viewer.None? then blog else blog.(isLike := IsBlogLiked(store, blog.id, viewer.value))
  }

  /** queryBlogUser(blog): the author's nick name and icon; an author without a row is a
      NullPointerException, here None. */
  function QueryBlogUser(users: seq<User>, blog: Blog): (b: Option<Blog>)
    ensures b.None? <==> forall u :: u in users ==> u.id != blog.userId
    ensures b.Some? ==> exists u :: u in users && u.id == blog.userId
                                    && b.value == blog.(name := u.nickName, icon := u.icon)
  {
    match UserById(users, blog.userId)
    case None => None
    case Some(u) => Some(blog.(name := u.nickName, icon := u.icon))
  }

  /** queryBlogById(id): fails when no blog has the id; otherwise the row with its author
      and the viewer's like filled in. */
  function QueryBlogById(store: Store, db: Tables, id: int, viewer: Option<int>): (r: Result<Blog>)
    reads store`zsets, db`blogs, db`users
    ensures r.Fail? <==> id !in db.blogs
    ensures r.Fail? ==> r == Fail(BLOG_MISSING)
    ensures r.Raised? <==> id in db.blogs && QueryBlogUser(db.users, db.blogs[id]).None?
    ensures r.Ok? ==> var blog := db.blogs[id];
                      var author := UserById(db.users, blog.userId);
                      && author.Some?
                      && r.data == blog.(name := author.value.nickName, icon := author.value.icon,
                                         isLike := if viewer.Some? then IsBlogLiked(store, blog.id, viewer.value)
                                                   else blog.isLike)
  {
    if id !in db.blogs then Fail(BLOG_MISSING)
    else
      match QueryBlogUser(db.users, db.blogs[id])
      case None => Raised("NullPointerException")
      case Some(b) => Ok(SetBlogIsLike(store, b, viewer))
  }

  /** The like count of a blog is the number of users in its liked set. */
  predicate LikesMirror(store: Store, db: Tables, id: int)
    reads store`zsets, db`blogs
  {
    id in db.blogs ==> db.blogs[id].liked == |Members(store.ZSet(LikedKey(id)))|
  }

  /** likeBlog(id): a liker is removed with the count decremented, anyone else is added
      (scored by the clock) with the count incremented, each set change only after the
      row update succeeded; the answer is the row as read before the update. A missing
      blog is a NullPointerException before anything changes. */
  method LikeBlog(store: Store, db: Tables, id: int, userId: int, now: int) returns (r: Result<Blog>)
    requires store.ZsetsValid()
    modifies store`zsets, db`blogs
    ensures store.ZsetsValid()
    ensures id !in old(db.blogs) ==> r.Raised? && unchanged(store, db)
    ensures id in old(db.blogs) ==>
              var key := LikedKey(id);
              && r == Ok(old(db.blogs)[id])
              && (old(IsBlogLiked(store, id, userId)) ==>
                    && db.blogs == old(db.blogs)[id := old(db.blogs)[id].(liked := old(db.blogs)[id].liked - 1)]
                    && store.zsets == old(store.zsets)[key := ZRemove(old(store.ZSet(key)), Str(userId))]
                    && !IsBlogLiked(store, id, userId))
              && (!old(IsBlogLiked(store, id, userId)) ==>
                    && db.blogs == old(db.blogs)[id := old(db.blogs)[id].(liked := old(db.blogs)[id].liked + 1)]
                    && store.zsets == old(store.zsets)[key := ZAddTo(old(store.ZSet(key)), Str(userId), now)]
                    && store.ZScore(key, Str(userId)) == Some(now))
    ensures old(LikesMirror(store, db, id)) ==> LikesMirror(store, db, id)
  {
    if id !in db.blogs {
      return Raised("NullPointerException");
    }
    var blog := db.blogs[id];
    if IsBlogLiked(store, id, userId) {
      Unlike(store, db, id, userId);
    } else {
      Like(store, db, id, userId, now);
    }
    r := Ok(blog);
  }

  /** The liked branch: one like fewer on the row, then the user leaves the liked set. */
  method Unlike(store: Store, db: Tables, id: int, userId: int)
    requires store.ZsetsValid() && id in db.blogs && IsBlogLiked(store, id, userId)
    modifies store`zsets, db`blogs
    ensures store.ZsetsValid()
    ensures db.blogs == old(db.blogs)[id := old(db.blogs)[id].(liked := old(db.blogs)[id].liked - 1)]
    ensures store.zsets == old(store.zsets)[LikedKey(id) := ZRemove(old(store.ZSet(LikedKey(id))), Str(userId))]
    ensures !IsBlogLiked(store, id, userId)
    ensures old(LikesMirror(store, db, id)) ==> LikesMirror(store, db, id)
  {
    ghost var before := store.ZSet(LikedKey(id));
    var isSuccess := db.AddLiked(id, -1);
    if isSuccess {
      store.ZRem(LikedKey(id), Str(userId));
      UnlikeShrinks(before, Str(userId));
    }
  }

  /** The other branch: one like more on the row, then the user joins the liked set with
      the clock as score. */
  method Like(store: Store, db: Tables, id: int, userId: int, now: int)
    requires store.ZsetsValid() && id in db.blogs && !IsBlogLiked(store, id, userId)
    modifies store`zsets, db`blogs
    ensures store.ZsetsValid()
    ensures db.blogs == old(db.blogs)[id := old(db.blogs)[id].(liked := old(db.blogs)[id].liked + 1)]
    ensures store.zsets == old(store.zsets)[LikedKey(id) := ZAddTo(old(store.ZSet(LikedKey(id))), Str(userId), now)]
    ensures store.ZScore(LikedKey(id), Str(userId)) == Some(now)
    ensures old(LikesMirror(store, db, id)) ==> LikesMirror(store, db, id)
  {
    ghost var before := store.ZSet(LikedKey(id));
    var isSuccess := db.AddLiked(id, 1);
    if isSuccess {
      store.ZAdd(LikedKey(id), Str(userId), now);
      LikeGrows(before, Str(userId), now);
    }
  }

  lemma UnlikeShrinks(z: seq<ZEntry>, member: string)
    requires ZValid(z) && member in Members(z)
    ensures |Members(ZRemove(z, member))| == |Members(z)| - 1
  {
    ZRemoveValid(z, member);
  }

  lemma LikeGrows(z: seq<ZEntry>, member: string, score: int)
    requires ZValid(z) && member !in Members(z)
    ensures |Members(ZAddTo(z, member, score))| == |Members(z)| + 1
  {
    ZAddToValid(z, member, score);
  }

  /** queryBlogLikes(id): the first five likers in score order, as users in that order; an
      empty liked set gives an empty list. */
  function QueryBlogLikes(store: Store, db: Tables, id: int): (r: Result<seq<User>>)
    reads store`zsets, db`users
    ensures store.ZSet(LikedKey(id)) == [] ==> r == Ok([])
    ensures r.Raised? <==> !AllParse(store.ZRange(LikedKey(id), 0, 4))
    ensures r.Ok? ==> |r.data| <= 5
    ensures r.Ok? ==> var ids := ParseAll(store.ZRange(LikedKey(id), 0, 4));
                      && (forall u :: u in r.data <==> u.id in ids && UserById(db.users, u.id) == Some(u))
                      && (forall i, j :: 0 <= i < j < |r.data| ==>
                            FirstIndex(ids, r.data[i].id) < FirstIndex(ids, r.data[j].id))
  {
    var top5 := store.ZRange(LikedKey(id), 0, 4);
    if top5 == [] then Ok([])
    else if !AllParse(top5) then Raised("NumberFormatException")
    else Ok(UsersByIds(db.users, ParseAll(top5)))
  }

  // ----- the scrolling feed -----

  datatype ScrollResult = ScrollResult(list: seq<Blog>, minTime: int, offset: int)

  function Last(s: seq<int>): int
    requires s != []
  {
    s[|s| - 1]
  }

  /** The length of the run of entries equal to the last one at the end of `s`. */
  function TrailingRun(s: seq<int>): (n: nat)
    ensures s == [] <==> n == 0
    ensures n <= |s|
    ensures forall i :: |s| - n <= i < |s| ==> s[i] == Last(s)
    ensures 0 < n < |s| ==> s[|s| - n - 1] != Last(s)
  {
    if |s| <= 1 then |s|
    else if s[|s| - 2] == s[|s| - 1] then 1 + TrailingRun(s[..|s| - 1])
    else 1
  }

  /** One parse step of the scan over a page's members. */
  lemma ParseStep(names: seq<string>, i: int)
    requires 0 <= i < |names| && AllParse(names[..i]) && ParseLong(names[i]).Some?
    ensures AllParse(names[..i + 1])
    ensures ParseAll(names[..i + 1]) == ParseAll(names[..i]) + [ParseLong(names[i]).value]
  {
    assert names[..i + 1] == names[..i] + [names[i]];
    ParseAllAppend(names[..i], names[i]);
  }

  /** One scan step over the scores: the scan state after i + 1 entries. */
  lemma ScoreStep(scores: seq<int>, i: int)
    requires 0 <= i < |scores|
    ensures Last([0] + scores[..i + 1]) == scores[i]
    ensures TrailingRun([0] + scores[..i + 1]) ==
              if Last([0] + scores[..i]) == scores[i] then TrailingRun([0] + scores[..i]) + 1 else 1
  {
    assert [0] + scores[..i + 1] == ([0] + scores[..i]) + [scores[i]];
    RunStep([0] + scores[..i], scores[i]);
  }

  /** One scan step: an entry equal to the last one extends the run, any other starts a
      new run of 1. */
  lemma RunStep(t: seq<int>, x: int)
    requires t != []
    ensures Last(t + [x]) == x
    ensures TrailingRun(t + [x]) == if Last(t) == x then TrailingRun(t) + 1 else 1
  {
    assert (t + [x])[..|t|] == t;
  }

  /** For a non-empty page of positive scores, the virtual leading 0 the scan starts from
      never joins the trailing run. */
  lemma {:induction false} PositiveRunIgnoresSeed(s: seq<int>)
    requires s != [] && forall i :: 0 <= i < |s| ==> s[i] > 0
    ensures TrailingRun([0] + s) == TrailingRun(s)
  {
    var t := [0] + s;
    if |s| > 1 {
      assert t[..|t| - 1] == [0] + s[..|s| - 1];
      if s[|s| - 2] == s[|s| - 1] {
        PositiveRunIgnoresSeed(s[..|s| - 1]);
      }
    }
  }

  /** The inbox page: members with scores in [0, max], descending, skipping `offset`,
      at most FEED_PAGE of them; a negative offset reads nothing. */
  function FeedPage(store: Store, userId: int, max: int, offset: int): (page: seq<ZEntry>)
    reads store`zsets
  {
    if offset < 0 then [] else ZRevRangeByScore(store.ZSet(FeedKey(userId)), 0, max, offset, FEED_PAGE)
  }

  function Scores(page: seq<ZEntry>): (s: seq<int>)
    ensures |s| == |page| && forall i :: 0 <= i < |page| ==> s[i] == page[i].score
  {
    seq(|page|, i requires 0 <= i < |page| => page[i].score)
  }

  function MemberNames(page: seq<ZEntry>): (s: seq<string>)
    ensures |s| == |page| && forall i :: 0 <= i < |page| ==> s[i] == page[i].member
  {
    seq(|page|, i requires 0 <= i < |page| => page[i].member)
  }

  /** One blog of the feed, with its author and the reader's like. */
  function Decorate(store: Store, users: seq<User>, blog: Blog, userId: int): Option<Blog>
    reads store`zsets
  {
    match QueryBlogUser(users, blog)
    case None => None
    case Some(b) => Some(SetBlogIsLike(store, b, Some(userId)))
  }

  /** The scan over a feed page: the parsed blog ids in page order, minTime left at the
      last score and nextOffset at the length of its run, the scan starting from score 0
      with a run of 1. A member that does not parse stops the scan (None). */
  method ScanPage(page: seq<ZEntry>) returns (ids: Option<seq<int>>, minTime: int, nextOffset: int)
    ensures ids.Some? <==> AllParse(MemberNames(page))
    ensures ids.Some? ==> && ids.value == ParseAll(MemberNames(page))
                          && minTime == Last([0] + Scores(page))
                          && nextOffset == TrailingRun([0] + Scores(page))
  {
    ghost var scores := Scores(page);
    ghost var names := MemberNames(page);
    minTime := 0;
    nextOffset := 1;
    var parsed: seq<int> := [];
    var i := 0;
    while i < |page|
      invariant 0 <= i <= |page|
      invariant AllParse(names[..i]) && parsed == ParseAll(names[..i])
      invariant minTime == Last([0] + scores[..i])
      invariant nextOffset == TrailingRun([0] + scores[..i])
    {
      var id := ParseLong(page[i].member);
      if id.None? {
        assert names[i] == page[i].member;
        return None, minTime, nextOffset;
      }
      ParseStep(names, i);
      parsed := parsed + [id.value];
      var minTimeNew := page[i].score;
      ScoreStep(scores, i);
      if minTime == minTimeNew {
        nextOffset := nextOffset + 1;
      } else {
        minTime := minTimeNew;
        nextOffset := 1;
      }
      i := i + 1;
    }
    assert names[..i] == names && scores[..i] == scores;
    ids := Some(parsed);
  }

  /** Every blog of the list has an author row. */
  predicate AuthorsPresent(users: seq<User>, blogs: seq<Blog>)
  {
    forall i :: 0 <= i < |blogs| ==> QueryBlogUser(users, blogs[i]).Some?
  }

  /** `list` is `blogs` with each author and the reader's like filled in, in order. */
  predicate DecoratedList(store: Store, users: seq<User>, blogs: seq<Blog>, userId: int, list: seq<Blog>)
    reads store`zsets
  {
    |list| == |blogs| && forall i :: 0 <= i < |blogs| ==> Decorate(store, users, blogs[i], userId) == Some(list[i])
  }

  /** The loop filling in each blog's author and the reader's like; a blog whose author
      has no row is a NullPointerException (None). */
  method DecorateBlogs(store: Store, users: seq<User>, blogs: seq<Blog>, userId: int) returns (list: Option<seq<Blog>>)
    ensures list.None? <==> !AuthorsPresent(users, blogs)
    ensures list.Some? ==> DecoratedList(store, users, blogs, userId, list.value)
  {
    var out: seq<Blog> := [];
    var j := 0;
    while j < |blogs|
      invariant 0 <= j <= |blogs| && |out| == j
      invariant forall k :: 0 <= k < j ==> Decorate(store, users, blogs[k], userId) == Some(out[k])
    {
      var b := Decorate(store, users, blogs[j], userId);
      if b.None? {
        assert QueryBlogUser(users, blogs[j]).None?;
        return None;
      }
      out := out + [b.value];
      j := j + 1;
    }
    list := Some(out);
  }

  /** qeuryBlogOfFollow(max, offset): an empty page answers ok with no data; otherwise the
      page is scanned, its blogs read in page order and decorated, and the next cursor is
      (minTime, nextOffset) from the scan. */
  method QeuryBlogOfFollow(store: Store, db: Tables, userId: int, max: int, offset: int)
    returns (r: Result<ScrollResult>)
    ensures var page := FeedPage(store, userId, max, offset);
            && (page == [] ==> r == OkEmpty)
            && (page != [] && !AllParse(MemberNames(page)) ==> r.Raised?)
            && (page != [] && AllParse(MemberNames(page)) ==>
                  var blogs := BlogsByIds(db.blogs, ParseAll(MemberNames(page)));
                  && (!AuthorsPresent(db.users, blogs) ==> r.Raised?)
                  && (AuthorsPresent(db.users, blogs) ==>
                        && r.Ok? && DecoratedList(store, db.users, blogs, userId, r.data.list)
                        && r.data.minTime == Last(Scores(page))
                        && r.data.offset == TrailingRun([0] + Scores(page))))
  {
    var page := FeedPage(store, userId, max, offset);
    if page == [] {
      return OkEmpty;
    }
    var ids, minTime, nextOffset := ScanPage(page);
    if ids.None? {
      return Raised("NumberFormatException");
    }
    assert Last([0] + Scores(page)) == Last(Scores(page));
    var blogs := BlogsByIds(db.blogs, ids.value);
    var list := DecorateBlogs(store, db.users, blogs, userId);
    if list.None? {
      return Raised("NullPointerException");
    }
    r := Ok(ScrollResult(list.value, minTime, nextOffset));
  }
}
