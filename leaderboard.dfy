/** `GET /api/leaderboard` (`app/api/leaderboard/route.ts`): one page of users ordered by points,
    each with its global position as rank and a flag for the signed-in user, and the page count. */
module Leaderboard {
  import opened Common
  import opened Tables
  import Profile

  const DefaultPage: int := 1
  const DefaultLimit: int := 100

  datatype Row = Row(user: User, rank: int, isCurrentUser: bool)
  datatype Pagination = Pagination(page: int, limit: int, total: int, totalPages: int)
  datatype Board = Board(data: seq<Row>, pagination: Pagination)

  /** The route's answer: the board, or the internal error of its `catch`. */
  datatype Answer = Served(board: Board) | ServerError(status: int)

  /** `parseInt(searchParams.get(name) || default)` for a parameter that is absent (or empty),
      or that holds an integer. */
  function ParamOr(v: Option<int>, default: int): (r: int)
    ensures v.None? ==> r == default
    ensures v.Some? ==> r == v.value
  {
    v.GetOr(default)
  }

  function Points(u: User): int {
    u.points
  }

  /** `.order('points', { ascending: false })` over the whole table. */
  function ByPoints(users: seq<User>): (r: seq<User>)
    ensures |r| == |users| && multiset(r) == multiset(users)
    ensures forall i, j :: 0 <= i < j < |r| ==> r[i].points >= r[j].points
  {
    var r := SortDesc(users, Points);
    assert |r| == |multiset(r)|;
    assert forall i, j :: 0 <= i < j < |r| ==> Points(r[i]) >= Points(r[j]);
    r
  }

  /** `(page - 1) * limit`: how many rows the earlier pages hold. */
  function Offset(page: int, limit: int): (r: nat)
    requires page >= 1 && limit >= 1
    ensures r == (page - 1) * limit
  {
    MulNonNegative(page - 1, limit);
    (page - 1) * limit
  }

  lemma MulNonNegative(a: int, b: int)
    requires a >= 0 && b >= 0
    ensures a * b >= 0
  {
  }

  /** `.range(from, from + limit - 1)` over the ordered users, each row with its position as rank. */
  function Rows(sorted: seq<User>, from: nat, limit: int, session: Option<string>): (d: seq<Row>)
    requires limit >= 1
    ensures |d| == if from >= |sorted| then 0 else Min(limit, |sorted| - from)
    ensures forall i :: 0 <= i < |d| ==>
      d[i] == Row(sorted[from + i], from + i + 1, IsCurrentUser(session, sorted[from + i]))
  {
    if from >= |sorted| then []
    else
      var rows := sorted[from..Min(from + limit, |sorted|)];
      seq(|rows|, i requires 0 <= i < |rows| => Row(rows[i], from + i + 1, IsCurrentUser(session, rows[i])))
  }

  /** `Math.ceil(total / limit)` for a positive limit. */
  function CeilDiv(total: nat, limit: int): (r: nat)
    requires limit > 0
    ensures r * limit >= total
    ensures total > 0 ==> (r - 1) * limit < total
    ensures total == 0 ==> r == 0
  {
    var q := (total + limit - 1) / limit;
    assert q * limit + (total + limit - 1) % limit == total + limit - 1;
    q
  }

  /** `session?.user?.id === user.twitter_id`: no row is the current user's without a session,
      and with one exactly the rows carrying its Twitter id are. */
  function IsCurrentUser(session: Option<string>, u: User): (r: bool)
    ensures session.None? ==> !r
    ensures r <==> session == Some(u.twitterId)
  {
    session.Some? && session.value == u.twitterId
  }

  /** The route for a page and a limit that are positive integers. */
  function Page(users: seq<User>, page: int, limit: int, session: Option<string>): (r: Board)
    requires page >= 1 && limit >= 1
    ensures |r.data| == if Offset(page, limit) >= |users| then 0 else Min(limit, |users| - Offset(page, limit))
    ensures |r.data| <= limit
    ensures forall i :: 0 <= i < |r.data| ==>
      && r.data[i].rank == Offset(page, limit) + i + 1
      && r.data[i].user == ByPoints(users)[r.data[i].rank - 1]
      && (r.data[i].isCurrentUser <==> IsCurrentUser(session, r.data[i].user))
    ensures r.pagination == Pagination(page, limit, |users|, CeilDiv(|users|, limit))
  {
    Board(Rows(ByPoints(users), Offset(page, limit), limit, session),
          Pagination(page, limit, |users|, CeilDiv(|users|, limit)))
  }

  /** The `GET` handler with its query parameters: an absent page is the first page, an absent
      limit is 100 rows. Without parameters the board is the top 100, ranked from 1. With an
      exact count, PostgREST refuses a range that starts past the last row (416 Range Not
      Satisfiable); the client hands that back as an error, which the route throws and answers
      with 500. A range starting exactly at the end is an empty page. */
  function Route(users: seq<User>, pageParam: Option<int>, limitParam: Option<int>,
                 session: Option<string>): (r: Answer)
    requires ParamOr(pageParam, DefaultPage) >= 1 && ParamOr(limitParam, DefaultLimit) >= 1
    ensures var page, limit := ParamOr(pageParam, DefaultPage), ParamOr(limitParam, DefaultLimit);
      r.ServerError? <==> Offset(page, limit) > |users|
    ensures r.ServerError? ==> r.status == 500
    ensures pageParam.None? ==> r.Served? && r.board.pagination.page == 1
    ensures pageParam.None? ==> forall i :: 0 <= i < |r.board.data| ==> r.board.data[i].rank == i + 1
    ensures limitParam.None? && r.Served? ==>
      r.board.pagination.limit == 100 && |r.board.data| <= 100
    ensures pageParam.None? && limitParam.None? ==>
      |r.board.data| == Min(100, |users|) && r.board.pagination.totalPages == CeilDiv(|users|, 100)
  {
    var page, limit := ParamOr(pageParam, DefaultPage), ParamOr(limitParam, DefaultLimit);
    if Offset(page, limit) > |users| then ServerError(500)
    else Served(Page(users, page, limit, session))
  }

  /** Ranks on page `p` lie strictly above the `(p - 1) * limit` rows of the earlier pages and
      within the first `p * limit`; page 1 starts at rank 1. */
  lemma PageRankBounds(users: seq<User>, p: int, limit: int, session: Option<string>)
    requires p >= 1 && limit >= 1
    ensures var a := Page(users, p, limit, session).data;
      forall i :: 0 <= i < |a| ==> (p - 1) * limit < a[i].rank <= p * limit
    ensures p == 1 && Page(users, p, limit, session).data != [] ==> Page(users, p, limit, session).data[0].rank == 1
  {
    assert p * limit == (p - 1) * limit + limit;
  }

  lemma MulMonotone(a: int, b: int, c: int)
    requires a <= b && c >= 0
    ensures a * c <= b * c
  {
    MulNonNegative(b - a, c);
    assert b * c - a * c == (b - a) * c;
  }

  /** Every rank on an earlier page is smaller than every rank on a later one, so no user is
      listed on two pages. */
  lemma PagesPartitionRanks(users: seq<User>, p: int, q: int, limit: int, session: Option<string>)
    requires 1 <= p < q && limit >= 1
    ensures var a, b := Page(users, p, limit, session).data, Page(users, q, limit, session).data;
      forall i, j :: 0 <= i < |a| && 0 <= j < |b| ==> a[i].rank < b[j].rank
  {
    PageRankBounds(users, p, limit, session);
    PageRankBounds(users, q, limit, session);
    MulMonotone(p, q - 1, limit);
  }

  /** A page followed by a non-empty page is full, and the next page's first rank follows its
      last rank. */
  lemma ConsecutivePagesContiguous(users: seq<User>, p: int, limit: int, session: Option<string>)
    requires p >= 1 && limit >= 1
    ensures var a, b := Page(users, p, limit, session).data, Page(users, p + 1, limit, session).data;
      b != [] ==> |a| == limit && b[0].rank == a[|a| - 1].rank + 1
  {
    assert Offset(p + 1, limit) == Offset(p, limit) + limit by {
      assert p * limit == (p - 1) * limit + limit;
    }
  }

  /** Position `k` of `n` rows falls on a page the page count reaches. */
  lemma PageWithinCount(k: nat, n: nat, limit: int)
    requires limit >= 1 && k < n
    ensures k / limit + 1 <= CeilDiv(n, limit)
  {
    var c, d := CeilDiv(n, limit), k / limit;
    assert d * limit <= k by {
      assert k == d * limit + k % limit;
    }
    if d >= c {
      MulMonotone(c, d, limit);
      assert false;
    }
  }

  /** The page position `k` falls on, and its row on that page. */
  function PageOf(k: nat, limit: int): (p: int)
    requires limit >= 1
    ensures p >= 1 && Offset(p, limit) == k - SlotOf(k, limit)
  {
    assert k == (k / limit) * limit + k % limit;
    k / limit + 1
  }

  function SlotOf(k: nat, limit: int): (i: nat)
    requires limit >= 1
    ensures i < limit && i <= k
  {
    k % limit
  }

  /** The pages together list every user exactly where the points order puts them: position `k`
      is row `k % limit` of page `k / limit + 1`, and the page count reaches that page. */
  lemma EveryUserOnItsPage(users: seq<User>, limit: int, session: Option<string>, k: nat)
    requires limit >= 1 && k < |users|
    ensures var data := Page(users, PageOf(k, limit), limit, session).data;
      && SlotOf(k, limit) < |data|
      && data[SlotOf(k, limit)].user == ByPoints(users)[k] && data[SlotOf(k, limit)].rank == k + 1
    ensures PageOf(k, limit) <= CeilDiv(|users|, limit)
  {
    var page, i := PageOf(k, limit), SlotOf(k, limit);
    assert Offset(page, limit) + i == k;
    assert i < |Page(users, page, limit, session).data|;
    PageWithinCount(k, |users|, limit);
  }

  /** In rows ordered by points, fewer rows than the position of a row have more points. */
  lemma AboveOnlyBefore(sorted: seq<User>, pos: nat)
    requires pos < |sorted|
    requires forall i, j :: 0 <= i < j < |sorted| ==> sorted[i].points >= sorted[j].points
    ensures |Filter(sorted, Profile.MorePointsThan(sorted[pos]))| <= pos
  {
    var above := Profile.MorePointsThan(sorted[pos]);
    assert sorted == sorted[..pos] + sorted[pos..];
    FilterAppend(sorted[..pos], sorted[pos..], above);
    FilterNone(sorted[pos..], above);
  }

  /** A row's leaderboard rank is never better than its rank on the profile route: everyone with
      more points is listed above it, but tied users get distinct leaderboard ranks. */
  lemma RankNotBetterThanProfileRank(users: seq<User>, page: int, limit: int, session: Option<string>, i: nat)
    requires page >= 1 && limit >= 1 && i < |Page(users, page, limit, session).data|
    ensures var row := Page(users, page, limit, session).data[i];
      Profile.Rank(users, row.user) <= row.rank
  {
    var row := Page(users, page, limit, session).data[i];
    var sorted := ByPoints(users);
    FilterCountPermutation(users, sorted, Profile.MorePointsThan(row.user));
    AboveOnlyBefore(sorted, row.rank - 1);
  }

  /** Down a page points never increase. */
  lemma PageOrderedByPoints(users: seq<User>, page: int, limit: int, session: Option<string>)
    requires page >= 1 && limit >= 1
    ensures var d := Page(users, page, limit, session).data;
      forall i, j :: 0 <= i < j < |d| ==> d[i].user.points >= d[j].user.points
  {
    var d := Page(users, page, limit, session).data;
    forall i, j | 0 <= i < j < |d| ensures d[i].user.points >= d[j].user.points {
      assert Points(ByPoints(users)[d[i].rank - 1]) >= Points(ByPoints(users)[d[j].rank - 1]);
    }
  }
}
