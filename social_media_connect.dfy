/** Social media accounts: connecting an account or its API, and the recent-posts
    feed built from every connected account. */
module SocialMediaConnect {
  import opened Seqs

  datatype Platform = Instagram | TikTok | YouTube | Facebook | Spotify

  /** Engagement is kept in tenths of a percent. */
  datatype AccountMetrics = AccountMetrics(
    followers: int, posts: int, avgLikes: int, avgComments: int,
    avgViews: Option<int>, engagement: int)

  datatype Post = Post(
    id: string, caption: string, likes: int, comments: int, views: Option<int>,
    timestamp: int)

  datatype Account = Account(
    platform: Platform, username: string, isConnected: bool, isApiConnected: bool,
    metrics: AccountMetrics, recentPosts: seq<Post>)

  const Day := 86400000

  /** The accounts the screen starts with; post times are relative to `now`. */
  function InitialAccounts(now: int): seq<Account> {
    [ Account(Instagram, "@fitness_alex", true, false,
        AccountMetrics(12450, 156, 890, 45, None, 75),
        [ Post("1", "Morning workout routine \U{1F4AA}", 1200, 89, None, now - Day),
          Post("2", "Healthy meal prep ideas \U{1F957}", 980, 67, None, now - 2 * Day),
          Post("3", "Weekend hike adventures \U{1F3D4}\U{FE0F}", 1450, 123, None, now - 3 * Day) ]),
      Account(YouTube, "FitnessAlex", true, true,
        AccountMetrics(8900, 89, 450, 23, Some(12000), 53),
        [ Post("1", "Full Body HIIT Workout", 520, 34, Some(15800), now - Day),
          Post("2", "Meal Prep Sunday Routine", 380, 28, Some(9200), now - 2 * Day) ]),
      Account(TikTok, "@fitness_alex", false, false,
        AccountMetrics(0, 0, 0, 0, None, 0), []) ]
  }

  predicate HasAccount(accs: seq<Account>, p: Platform) {
    exists i :: 0 <= i < |accs| && accs[i].platform == p
  }

  /** Facebook and Spotify have connection cards but no account entry. */
  lemma InitialPlatforms(now: int)
    ensures HasAccount(InitialAccounts(now), Instagram)
    ensures HasAccount(InitialAccounts(now), YouTube)
    ensures HasAccount(InitialAccounts(now), TikTok)
    ensures !HasAccount(InitialAccounts(now), Facebook)
    ensures !HasAccount(InitialAccounts(now), Spotify)
  {
    var a := InitialAccounts(now);
    assert a[0].platform == Instagram && a[1].platform == YouTube && a[2].platform == TikTok;
  }

  // ---------------------------------------------------------------------------
  // Connecting.

  /** The list update of `connectAccount`: every account of platform `p` becomes
      connected, with its API, and every other field of every account is kept. */
  function Connect(accs: seq<Account>, p: Platform): (r: seq<Account>)
    ensures |r| == |accs|
    ensures forall i :: 0 <= i < |accs| && accs[i].platform == p ==>
      r[i].isConnected && r[i].isApiConnected
    ensures forall i :: 0 <= i < |accs| && accs[i].platform == p ==>
      r[i].platform == p && r[i].username == accs[i].username &&
      r[i].metrics == accs[i].metrics && r[i].recentPosts == accs[i].recentPosts
    ensures forall i :: 0 <= i < |accs| && accs[i].platform != p ==> r[i] == accs[i]
  {
    seq(|accs|, i requires 0 <= i < |accs| =>
      if accs[i].platform == p then accs[i].(isConnected := true, isApiConnected := true)
      else accs[i])
  }

  /** The list update of `connectViaApi`: only `isApiConnected` is set, and only on
      platform `p`. */
  function ConnectApi(accs: seq<Account>, p: Platform): (r: seq<Account>)
    ensures |r| == |accs|
    ensures forall i :: 0 <= i < |accs| && accs[i].platform == p ==>
      r[i].isApiConnected && r[i].isConnected == accs[i].isConnected &&
      r[i].platform == p && r[i].username == accs[i].username &&
      r[i].metrics == accs[i].metrics && r[i].recentPosts == accs[i].recentPosts
    ensures forall i :: 0 <= i < |accs| && accs[i].platform != p ==> r[i] == accs[i]
  {
    seq(|accs|, i requires 0 <= i < |accs| =>
      if accs[i].platform == p then accs[i].(isApiConnected := true) else accs[i])
  }

  /** A platform with no account entry connects to nothing. */
  lemma ConnectWithoutAccount(accs: seq<Account>, p: Platform)
    requires !HasAccount(accs, p)
    ensures Connect(accs, p) == accs
    ensures ConnectApi(accs, p) == accs
  {
  }

  /** Connecting twice is connecting once; an API connection after a full one adds
      nothing. */
  lemma ConnectIdempotent(accs: seq<Account>, p: Platform)
    ensures Connect(Connect(accs, p), p) == Connect(accs, p)
    ensures ConnectApi(Connect(accs, p), p) == Connect(accs, p)
  {
    var c := Connect(accs, p);
    assert forall i :: 0 <= i < |c| && c[i].platform == p ==>
      c[i].(isConnected := true, isApiConnected := true) == c[i];
  }

  function OnPlatform(q: Platform): Account -> bool {
    (a: Account) => a.platform == q
  }

  /** Connecting one platform leaves the connection state of the others alone. */
  lemma {:induction false} ConnectOthersKept(accs: seq<Account>, p: Platform, q: Platform)
    requires p != q
    ensures Filter(Connect(accs, p), OnPlatform(q)) == Filter(accs, OnPlatform(q))
  {
    if accs != [] {
      var c := Connect(accs, p);
      var f := OnPlatform(q);
      ConnectOthersKept(accs[1..], p, q);
      assert c[1..] == Connect(accs[1..], p);
      assert f(c[0]) == f(accs[0]);
      assert f(accs[0]) ==> c[0] == accs[0];
      assert Filter(c, f) == (if f(c[0]) then [c[0]] else []) + Filter(c[1..], f);
    }
  }

  // ---------------------------------------------------------------------------
  // The recent-posts feed.

  datatype FeedPost = FeedPost(post: Post, platform: Platform, username: string)

  function Tagged(a: Account, p: Post): FeedPost {
    FeedPost(p, a.platform, a.username)
  }

  predicate Shown(a: Account) {
    a.isConnected && |a.recentPosts| > 0
  }

  /** `flatMap` of the posts of each account, each tagged with its account. */
  function AllPosts(accs: seq<Account>): (r: seq<FeedPost>)
    ensures forall x :: x in r ==>
      exists a, p :: a in accs && p in a.recentPosts && x == Tagged(a, p)
    ensures forall a, p :: a in accs && p in a.recentPosts ==> Tagged(a, p) in r
  {
    if accs == [] then []
    else
      var a := accs[0];
      var head := seq(|a.recentPosts|, k requires 0 <= k < |a.recentPosts| => Tagged(a, a.recentPosts[k]));
      var rest := AllPosts(accs[1..]);
      assert forall x :: x in head ==> exists k :: 0 <= k < |a.recentPosts| && x == Tagged(a, a.recentPosts[k]);
      assert forall p :: p in a.recentPosts ==> Tagged(a, p) in head by {
        forall p | p in a.recentPosts ensures Tagged(a, p) in head {
          var k :| 0 <= k < |a.recentPosts| && a.recentPosts[k] == p;
          assert head[k] == Tagged(a, p);
        }
      }
      assert forall b :: b in accs ==> b == a || b in accs[1..];
      head + rest
  }

  function Newest(x: FeedPost): int { -x.post.timestamp }

  /** `[...posts].sort((a, b) => b.timestamp - a.timestamp).slice(0, 9)` */
  function NewestNine(c: seq<FeedPost>): seq<FeedPost> {
    Take(StableSort(c, Newest), 9)
  }

  /** The nine newest candidates, or all of them when there are fewer, newest first. */
  lemma NewestNineFacts(c: seq<FeedPost>)
    ensures |NewestNine(c)| == if |c| <= 9 then |c| else 9
    ensures multiset(NewestNine(c)) <= multiset(c)
    ensures forall i, j :: 0 <= i < j < |NewestNine(c)| ==>
      NewestNine(c)[i].post.timestamp >= NewestNine(c)[j].post.timestamp
    ensures forall x, y :: x in c && x !in NewestNine(c) && y in NewestNine(c) ==>
      y.post.timestamp >= x.post.timestamp
  {
    TakeMultiset(StableSort(c, Newest), 9);
    NewestNineOrder(c);
  }

  lemma NewestNineOrder(c: seq<FeedPost>)
    ensures forall i, j :: 0 <= i < j < |NewestNine(c)| ==>
      NewestNine(c)[i].post.timestamp >= NewestNine(c)[j].post.timestamp
    ensures forall x, y :: x in c && x !in NewestNine(c) && y in NewestNine(c) ==>
      y.post.timestamp >= x.post.timestamp
  {
    var sorted := StableSort(c, Newest);
    var r := Take(sorted, 9);
    TakeSmallest(sorted, Newest, 9);
    assert forall x :: x in c ==> x in multiset(sorted);
    assert forall i, j :: 0 <= i < j < |r| ==> Newest(sorted[i]) <= Newest(sorted[j]);
  }

  /** The feed: posts of shown accounts, newest first, the nine newest. */
  function Feed(accs: seq<Account>): (r: seq<FeedPost>)
    ensures |r| <= 9
    ensures |r| == if |AllPosts(Filter(accs, Shown))| <= 9 then |AllPosts(Filter(accs, Shown))| else 9
    ensures multiset(r) <= multiset(AllPosts(Filter(accs, Shown)))
    ensures forall x :: x in r ==>
      exists a, p :: a in accs && a.isConnected && p in a.recentPosts && x == Tagged(a, p)
    ensures forall i, j :: 0 <= i < j < |r| ==> r[i].post.timestamp >= r[j].post.timestamp
    ensures forall x, y :: x in AllPosts(Filter(accs, Shown)) && x !in r && y in r ==>
      y.post.timestamp >= x.post.timestamp
  {
    var candidates := AllPosts(Filter(accs, Shown));
    NewestNineFacts(candidates);
    var r := NewestNine(candidates);
    forall x | x in r
      ensures exists a, p :: a in accs && a.isConnected && p in a.recentPosts && x == Tagged(a, p)
    {
      CandidateFrom(accs, candidates, r, x);
    }
    r
  }

  lemma CandidateFrom(accs: seq<Account>, candidates: seq<FeedPost>, r: seq<FeedPost>, x: FeedPost)
    requires candidates == AllPosts(Filter(accs, Shown))
    requires multiset(r) <= multiset(candidates)
    requires x in r
    ensures exists a, p :: a in accs && a.isConnected && p in a.recentPosts && x == Tagged(a, p)
  {
    assert x in multiset(r);
    assert x in candidates;
    var a, p :| a in Filter(accs, Shown) && p in a.recentPosts && x == Tagged(a, p);
    assert a in accs && Shown(a);
  }

  /** With nine posts or fewer on connected accounts, the feed shows all of them. */
  lemma FeedComplete(accs: seq<Account>)
    requires |AllPosts(Filter(accs, Shown))| <= 9
    ensures multiset(Feed(accs)) == multiset(AllPosts(Filter(accs, Shown)))
  {
  }

  /** A post of a disconnected account never reaches the feed. */
  lemma DisconnectedNotInFeed(accs: seq<Account>, x: FeedPost)
    requires forall a :: a in accs && a.platform == x.platform ==> !a.isConnected
    ensures x !in Feed(accs)
  {
  }

  // ---------------------------------------------------------------------------

  class SocialMediaConnect {
    var accounts: seq<Account>
    var isConnecting: Option<Platform>

    constructor (now: int)
      ensures accounts == InitialAccounts(now) && isConnecting == None
    {
      accounts := InitialAccounts(now);
      isConnecting := None;
    }

    /** `connectAccount`, once its simulated delay is over. */
    method ConnectAccount(p: Platform)
      modifies this
      ensures accounts == Connect(old(accounts), p)
      ensures isConnecting == None
    {
      isConnecting := Some(p);
      accounts := Connect(accounts, p);
      isConnecting := None;
    }

    /** `connectViaApi`, once its simulated delay is over. */
    method ConnectViaApi(p: Platform)
      modifies this
      ensures accounts == ConnectApi(old(accounts), p)
      ensures isConnecting == None
    {
      isConnecting := Some(p);
      accounts := ConnectApi(accounts, p);
      isConnecting := None;
    }

    /** `refreshMetrics` only waits. */
    method RefreshMetrics(p: Platform)
      ensures unchanged(this)
    {
    }

    function RecentPosts(): (r: seq<FeedPost>)
      reads this
      ensures |r| <= 9
      ensures r == Feed(accounts)
    {
      Feed(accounts)
    }
  }
}
