/** `GET /api/me` (`app/api/me/route.ts`): the signed-in user's profile with their rank, every
    active quest marked completed or not, and their ten newest posts. Read-only. */
module Profile {
  import opened Common
  import opened Tables

  const PostsShown: nat := 10

  datatype QuestStatus = QuestStatus(quest: Quest, completed: bool)
  datatype RankedUser = RankedUser(user: User, rank: int)
  datatype MeResponse =
    | Found(user: RankedUser, quests: seq<QuestStatus>, posts: seq<Post>)
    | MeFailure(status: int, error: string)

  /** `get('twitter_id') || get('twitterId')`: the snake-case parameter unless it is absent or
      empty. */
  function TwitterIdParam(snake: Option<string>, camel: Option<string>): (r: Option<string>)
    ensures snake.Some? && snake.value != "" ==> r == snake
    ensures !(snake.Some? && snake.value != "") ==> r == camel
  {
    if snake.Some? && snake.value != "" then snake else camel
  }

  /** The condition "has strictly more points than `u`". */
  function MorePointsThan(u: User): User -> bool {
    (v: User) => v.points > u.points
  }

  /** One plus the number of users with strictly more points. */
  function Rank(users: seq<User>, u: User): (r: int)
    ensures 1 <= r <= |users| + 1
  {
    1 + |Filter(users, MorePointsThan(u))|
  }

  /** Counting with a weaker condition never gives less, and gives more when some row meets
      only the weaker one. */
  lemma {:induction false} FilterCountMonotone<T(!new)>(xs: seq<T>, p: T -> bool, q: T -> bool)
    requires forall x :: p(x) ==> q(x)
    ensures |Filter(xs, p)| <= |Filter(xs, q)|
    ensures (exists x :: x in xs && q(x) && !p(x)) ==> |Filter(xs, p)| < |Filter(xs, q)|
    decreases |xs|
  {
    if xs != [] {
      FilterCountMonotone(xs[1..], p, q);
      assert forall x :: x in xs ==> x == xs[0] || x in xs[1..];
    }
  }

  /** Nobody outranks the top scorer, tied users share a rank, and strictly more points give a
      strictly better rank to anyone on the table. */
  lemma RankOrder(users: seq<User>, u: User, v: User)
    ensures (forall w :: w in users ==> w.points <= u.points) ==> Rank(users, u) == 1
    ensures u.points == v.points ==> Rank(users, u) == Rank(users, v)
    ensures u.points >= v.points ==> Rank(users, u) <= Rank(users, v)
    ensures u.points > v.points && u in users ==> Rank(users, u) < Rank(users, v)
  {
    var above := Filter(users, MorePointsThan(u));
    if above != [] {
      assert above[0] in above;
    }
    if u.points >= v.points {
      FilterCountMonotone(users, MorePointsThan(u), MorePointsThan(v));
      if u in users && u.points > v.points {
        assert u in users && MorePointsThan(v)(u) && !MorePointsThan(u)(u);
      }
    }
    if u.points <= v.points {
      FilterCountMonotone(users, MorePointsThan(v), MorePointsThan(u));
    }
  }

  /** Whether some completion row names the quest. */
  predicate HasCompleted(done: seq<Completion>, questId: string) {
    exists i :: 0 <= i < |done| && done[i].questId == questId
  }

  /** `completedQuests.some(cq => cq.quest_id === id)`, stated over the rows themselves. */
  lemma HasCompletedIff(done: seq<Completion>, questId: string)
    ensures HasCompleted(done, questId) <==> exists c :: c in done && c.questId == questId
  {
    if HasCompleted(done, questId) {
      var i :| 0 <= i < |done| && done[i].questId == questId;
      assert done[i] in done;
    } else {
      forall c | c in done ensures c.questId != questId {
        var i :| 0 <= i < |done| && done[i] == c;
      }
    }
  }

  /** `allQuests.map(q => ({ ...q, completed: completedQuests.some(cq => cq.quest_id === q.id) }))`
      over the active quests. */
  function QuestsWithStatus(quests: seq<Quest>, done: seq<Completion>): (r: seq<QuestStatus>)
    ensures |r| == |Filter(quests, (q: Quest) => q.active)|
    ensures forall i :: 0 <= i < |r| ==> r[i].quest == Filter(quests, (q: Quest) => q.active)[i]
    ensures forall i :: 0 <= i < |r| ==> r[i].quest.active && r[i].quest in quests
    ensures forall i :: 0 <= i < |r| ==>
      (r[i].completed <==> exists c :: c in done && c.questId == r[i].quest.id)
  {
    var active := Filter(quests, (q: Quest) => q.active);
    var r := seq(|active|, i requires 0 <= i < |active| => QuestStatus(active[i], HasCompleted(done, active[i].id)));
    forall i | 0 <= i < |r|
      ensures r[i].quest.active && r[i].quest in quests
      ensures r[i].completed <==> exists c :: c in done && c.questId == r[i].quest.id
    {
      assert r[i].quest == active[i] && active[i] in active;
      HasCompletedIff(done, active[i].id);
    }
    r
  }

  function OwnedBy(userId: string): Post -> bool {
    (p: Post) => p.userId == userId
  }

  function AwardedAt(p: Post): int {
    p.awardedAt
  }

  /** The user's posts, newest first. */
  function NewestFirst(posts: seq<Post>, userId: string): seq<Post> {
    SortDesc(Filter(posts, OwnedBy(userId)), AwardedAt)
  }

  /** The user's posts, newest first, at most ten. */
  function RecentPosts(posts: seq<Post>, userId: string): seq<Post> {
    Take(NewestFirst(posts, userId), PostsShown)
  }

  /** Every post in the newest-first list is one of the user's posts. */
  lemma NewestFirstOwned(posts: seq<Post>, userId: string)
    ensures forall p :: p in NewestFirst(posts, userId) ==> p.userId == userId && p in posts
  {
    var owned := Filter(posts, OwnedBy(userId));
    forall p | p in NewestFirst(posts, userId) ensures p.userId == userId && p in posts {
      assert p in multiset(NewestFirst(posts, userId));
      assert p in multiset(owned);
      assert p in owned;
      assert OwnedBy(userId)(p);
    }
  }

  /** At most ten posts, all the user's, newest first. */
  lemma RecentPostsAreTheUsers(posts: seq<Post>, userId: string)
    ensures var r := RecentPosts(posts, userId);
      && |r| <= PostsShown
      && (forall i :: 0 <= i < |r| ==> r[i].userId == userId && r[i] in posts)
      && (forall i, j :: 0 <= i < j < |r| ==> r[i].awardedAt >= r[j].awardedAt)
  {
    var sorted := NewestFirst(posts, userId);
    var r := RecentPosts(posts, userId);
    assert r == sorted[..|r|];
    NewestFirstOwned(posts, userId);
    forall i | 0 <= i < |r| ensures r[i].userId == userId && r[i] in posts {
      assert r[i] == sorted[i] && sorted[i] in sorted;
    }
    forall i, j | 0 <= i < j < |r| ensures r[i].awardedAt >= r[j].awardedAt {
      assert r[i] == sorted[i] && r[j] == sorted[j];
      assert AwardedAt(sorted[i]) >= AwardedAt(sorted[j]);
    }
  }

  /** None of the user's posts left out is newer than a post shown. */
  lemma RecentPostsAreNewest(posts: seq<Post>, userId: string, p: Post)
    requires p in posts && p.userId == userId && p !in RecentPosts(posts, userId)
    ensures forall i :: 0 <= i < |RecentPosts(posts, userId)| ==> RecentPosts(posts, userId)[i].awardedAt >= p.awardedAt
  {
    var sorted := NewestFirst(posts, userId);
    var r := RecentPosts(posts, userId);
    assert r == sorted[..|r|];
    assert p in Filter(posts, OwnedBy(userId));
    assert p in multiset(sorted);
    var j :| 0 <= j < |sorted| && sorted[j] == p;
    assert j >= |r|;
    forall i | 0 <= i < |r| ensures r[i].awardedAt >= p.awardedAt {
      assert r[i] == sorted[i];
      assert AwardedAt(sorted[i]) >= AwardedAt(sorted[j]);
    }
  }

  /** The route over the four tables and the two query parameters. */
  function Me(users: seq<User>, quests: seq<Quest>, completions: seq<Completion>, posts: seq<Post>,
              snake: Option<string>, camel: Option<string>): (r: MeResponse)
    ensures var id := TwitterIdParam(snake, camel);
      && (!(id.Some? && id.value != "") <==> r == MeFailure(400, "Twitter ID required"))
      && (id.Some? && id.value != "" ==>
            var matched := Filter(users, (u: User) => u.twitterId == id.value);
            && (|matched| != 1 <==> r == MeFailure(404, "User not found"))
            && (|matched| == 1 ==>
                  && r.Found? && r.user == RankedUser(matched[0], Rank(users, matched[0]))
                  && r.quests == QuestsWithStatus(quests, Filter(completions, (c: Completion) => c.userId == matched[0].id))
                  && r.posts == RecentPosts(posts, matched[0].id)))
  {
    var id := TwitterIdParam(snake, camel);
    if !(id.Some? && id.value != "") then MeFailure(400, "Twitter ID required")
    else
      match Single(Filter(users, (u: User) => u.twitterId == id.value))
      case None => MeFailure(404, "User not found")
      case Some(user) =>
        Found(RankedUser(user, Rank(users, user)),
              QuestsWithStatus(quests, Filter(completions, (c: Completion) => c.userId == user.id)),
              RecentPosts(posts, user.id))
  }
}
