/** The signed-in user's card (`components/features/user-card.tsx`): the daily quests, whose click
    opens the Twitter action and later asks the quest route to credit it, and the user's posts,
    each of which can claim its engagement bonus once. The points shown are updated locally by
    the amount a completion or a claim reports. */
module UserCard {
  import opened Common
  import QuestCompletion

  const DripAction := "drip_action"

  /** `getBonusPoints`: the bonus a post's engagement kind is worth. */
  function BonusPoints(bonusType: string): (r: int)
    ensures bonusType == "reply" <==> r == 25
    ensures bonusType == "repost" <==> r == 50
    ensures bonusType == "quote" <==> r == 120
    ensures bonusType == "viral" <==> r == 500
    ensures r >= 0 && (r == 0 <==> bonusType !in BonusKinds)
  {
    match bonusType
    case "reply" => 25
    case "repost" => 50
    case "quote" => 120
    case "viral" => 500
    case _ => 0
  }

  const BonusKinds: set<string> := {"reply", "repost", "quote", "viral"}

  /** The Bonus Points tab, line by line: the engagement kind each line names and the amount it
      prints. */
  const BonusTab: seq<(string, int)> := [("repost", 50), ("reply", 25), ("quote", 120), ("viral", 500)]

  /** The tab promises what a claim pays, and lists every kind that pays anything exactly once. */
  lemma BonusTabMatchesClaims()
    ensures forall i :: 0 <= i < |BonusTab| ==> BonusPoints(BonusTab[i].0) == BonusTab[i].1
    ensures forall k :: BonusPoints(k) != 0 <==> exists i :: 0 <= i < |BonusTab| && BonusTab[i].0 == k
    ensures forall i, j :: 0 <= i < j < |BonusTab| ==> BonusTab[i].0 != BonusTab[j].0
  {
    forall k | BonusPoints(k) != 0 ensures exists i :: 0 <= i < |BonusTab| && BonusTab[i].0 == k {
      if k == "repost" { assert BonusTab[0].0 == k; }
      else if k == "reply" { assert BonusTab[1].0 == k; }
      else if k == "quote" { assert BonusTab[2].0 == k; }
      else { assert BonusTab[3].0 == k; }
    }
  }

  /** `updatePoints`: the points on display grow by `n` when user data is loaded, and nothing is
      shown (or changed) otherwise. */
  function AddPoints(shown: Option<int>, n: int): (r: Option<int>)
    ensures r.Some? <==> shown.Some?
  {
    if shown.Some? then Some(shown.value + n) else None
  }

  /** Local updates accumulate: two updates show the same total as one update by their sum. */
  lemma {:induction false} AddPointsSum(shown: Option<int>, amounts: seq<int>)
    ensures AddAll(shown, amounts) == AddPoints(shown, Sum(amounts))
    decreases |amounts|
  {
    if amounts != [] {
      AddPointsSum(shown, amounts[..|amounts| - 1]);
    }
  }

  function AddAll(shown: Option<int>, amounts: seq<int>): Option<int>
    decreases |amounts|
  {
    if amounts == [] then shown else AddPoints(AddAll(shown, amounts[..|amounts| - 1]), amounts[|amounts| - 1])
  }

  function Sum(xs: seq<int>): int
    decreases |xs|
  {
    if xs == [] then 0 else Sum(xs[..|xs| - 1]) + xs[|xs| - 1]
  }

  /** One post in the My Posts tab and its claim button. `claims` records each call of
      `onClaimBonus`, as (post id, points). */
  class TweetCard {
    const postId: string
    const bonusType: string
    var claimed: bool
    var claims: seq<(string, int)>

    /** The button has been used exactly when one claim, for this post's bonus, went out. */
    ghost predicate Valid()
      reads this
    {
      && (claimed <==> claims != [])
      && (claims == [] || claims == [(postId, BonusPoints(bonusType))])
    }

    constructor (postId: string, bonusType: string)
      ensures Valid() && !claimed && claims == []
      ensures this.postId == postId && this.bonusType == bonusType
    {
      this.postId, this.bonusType := postId, bonusType;
      claimed, claims := false, [];
    }

    /** `handleClaim`: the first click claims this post's bonus; later clicks do nothing. */
    method HandleClaim()
      requires Valid()
      modifies this
      ensures Valid() && claimed
      ensures old(claimed) ==> claims == old(claims)
      ensures !old(claimed) ==> claims == old(claims) + [(postId, BonusPoints(bonusType))]
      ensures |claims| == 1
    {
      if !claimed {
        claimed := true;
        claims := claims + [(postId, BonusPoints(bonusType))];
      }
    }
  }

  /** `questActions`: the page a quest kind opens. */
  const QuestActions: map<string, string> := map[
    "follow" := "https://twitter.com/intent/follow?screen_name=grindcoin",
    "post" := "https://twitter.com/intent/tweet?text=Just%20joined%20%40grindcoin%20%24GRIND%20community!%20%F0%9F%9A%80",
    "reply" := "https://twitter.com/grindcoin",
    "repost" := "https://twitter.com/grindcoin",
    DripAction := "#"
  ]

  /** A quest as the card lists it. */
  datatype QuestItem = QuestItem(id: string, kind: string, points: int, completed: bool)

  /** A completion request waiting on its two-second timer: the quest, the POST body, and the
      points the display showed at the click. The timer's callback closes over the render of
      the click, so `updatePoints` adds to that value, not to the one shown when it fires. */
  datatype PendingCompletion = PendingCompletion(questId: string, kind: string, twitterId: string, base: Option<int>)

  /** The state of the card's quest list and points display. `shown` is the loaded user's
      points (none before data arrives), `openedPages` the pages opened so far, `pending` the timers
      not yet fired, and `sent` the completion requests posted so far. */
  class QuestPanel {
    const authUser: Option<string>
    var completingQuest: Option<string>
    var shown: Option<int>
    var openedPages: seq<string>
    var pending: seq<PendingCompletion>
    var sent: seq<PendingCompletion>

    /** No DRIP quest ever waits for, or is sent to, the completion route, and every request is
        for the signed-in user. */
    ghost predicate Valid()
      reads this
    {
      && (forall i :: 0 <= i < |pending| ==> pending[i].kind != DripAction && Some(pending[i].twitterId) == authUser)
      && (forall i :: 0 <= i < |sent| ==> sent[i].kind != DripAction && Some(sent[i].twitterId) == authUser)
    }

    constructor (authUser: Option<string>, shown: Option<int>)
      ensures Valid() && this.authUser == authUser && this.shown == shown
      ensures completingQuest == None && openedPages == [] && pending == [] && sent == []
    {
      this.authUser, this.shown := authUser, shown;
      completingQuest, openedPages, pending, sent := None, [], [], [];
    }

    /** `handleQuestClick`: a completed quest, a signed-out card or a DRIP quest changes nothing;
        otherwise the quest's page opens when it has one, the quest is marked as completing and a
        completion request for it is scheduled. */
    method HandleQuestClick(quest: QuestItem)
      requires Valid()
      modifies this
      ensures Valid()
      ensures shown == old(shown) && sent == old(sent)
      ensures quest.completed || authUser.None? || quest.kind == DripAction ==>
        completingQuest == old(completingQuest) && openedPages == old(openedPages) && pending == old(pending)
      ensures !(quest.completed || authUser.None? || quest.kind == DripAction) ==>
        && completingQuest == Some(quest.id)
        && openedPages == old(openedPages) + (if quest.kind in QuestActions then [QuestActions[quest.kind]] else [])
        && pending == old(pending) + [PendingCompletion(quest.id, quest.kind, authUser.value, shown)]
    {
      if quest.completed || authUser.None? {
        return;
      }
      if quest.kind == DripAction {
        return;
      }
      if quest.kind in QuestActions {
        openedPages := openedPages + [QuestActions[quest.kind]];
      }
      completingQuest := Some(quest.id);
      pending := pending + [PendingCompletion(quest.id, quest.kind, authUser.value, shown)];
    }

    /** The timer of the `i`-th scheduled request fires: the request is posted and, with its
        reply (`None` when the request itself fails), an ok answer sets the display to the
        points shown at the click plus the points it reports (nothing happens when no points
        were shown then). Points added since the click, by a bonus claim or an earlier
        completion, are overwritten. Whatever the outcome, no quest is marked as completing
        afterwards. */
    method FireCompletion(i: nat, reply: Option<QuestCompletion.Response>)
      requires Valid() && i < |pending|
      modifies this
      ensures Valid()
      ensures pending == old(pending[..i] + pending[i + 1..])
      ensures sent == old(sent) + [old(pending[i])]
      ensures completingQuest == None && openedPages == old(openedPages)
      ensures shown == if reply.Some? && reply.value.Completed? && old(pending[i]).base.Some?
                       then Some(old(pending[i]).base.value + reply.value.points) else old(shown)
    {
      var request := pending[i];
      pending := pending[..i] + pending[i + 1..];
      sent := sent + [request];
      if reply.Some? && reply.value.Completed? && request.base.Some? {
        shown := AddPoints(request.base, reply.value.points);
      }
      completingQuest := None;
    }

    /** `handleClaimBonus`: a claimed bonus adds exactly its points to the display. */
    method HandleClaimBonus(postId: string, bonusPoints: int)
      modifies this
      ensures shown == AddPoints(old(shown), bonusPoints)
      ensures completingQuest == old(completingQuest) && openedPages == old(openedPages)
      ensures pending == old(pending) && sent == old(sent)
    {
      shown := AddPoints(shown, bonusPoints);
    }
  }
}
