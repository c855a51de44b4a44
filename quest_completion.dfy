/** `POST /api/quests/complete` (`app/api/quests/complete/route.ts`): find the user by Twitter id
    and the quest by id, refuse a quest the user already completed, then record the completion,
    add the quest's points to the user and log the DRIP sync. The outcomes of the writes are
    inputs. */
module QuestCompletion {
  import opened Common
  import opened Tables

  /** The parsed JSON body; each field is absent (or null) or a string. */
  datatype CompleteRequest = CompleteRequest(questId: Option<string>, twitterId: Option<string>)

  /** The route's JSON answer: the success body, or an error with its HTTP status. */
  datatype Response = Completed(points: int, totalPoints: int) | Failure(status: int, error: string)

  /** Which writes fail: the completion insert, the points update and the insert into the DRIP
      log (whose error the route ignores). The DRIP sync call itself never rejects: its client
      catches every error and reports `synced: false`, which the route does not read, so the log
      row says `success: true` even after a failed sync. */
  datatype Faults = Faults(insertFails: bool, updateFails: bool, logFails: bool)

  const InternalError := Failure(500, "Internal server error")

  /** JavaScript truthiness of an optional string: present and non-empty. */
  predicate Truthy(v: Option<string>) {
    v.Some? && v.value != ""
  }

  /** `.from('users').eq('twitter_id', twitterId)`. */
  function UsersWithTwitterId(users: seq<User>, twitterId: string): seq<User> {
    Filter(users, (u: User) => u.twitterId == twitterId)
  }

  /** `.from('quests').eq('id', questId)`. */
  function QuestsWithId(quests: seq<Quest>, questId: string): seq<Quest> {
    Filter(quests, (q: Quest) => q.id == questId)
  }

  /** `.from('user_quests').eq('user_id', userId).eq('quest_id', questId)`. */
  function CompletionsOf(rows: seq<Completion>, userId: string, questId: string): seq<Completion> {
    Filter(rows, (c: Completion) => c.userId == userId && c.questId == questId)
  }

  /** The reads before any write: the outcome of each guard, in the route's order. */
  datatype Check = Rejected(response: Response) | Accepted(user: User, quest: Quest, questId: string)

  function CheckRequest(users: seq<User>, quests: seq<Quest>, userQuests: seq<Completion>,
                        body: Option<CompleteRequest>): (r: Check)
    // a body that is not JSON is an internal error; a missing id is a client error
    ensures body.None? ==> r == Rejected(InternalError)
    ensures body.Some? && !(Truthy(body.value.questId) && Truthy(body.value.twitterId)) ==>
      r == Rejected(Failure(400, "Quest ID and Twitter ID required"))
    // the user and the quest must each be matched by exactly one row
    ensures body.Some? && Truthy(body.value.questId) && Truthy(body.value.twitterId) ==>
      var users' := UsersWithTwitterId(users, body.value.twitterId.value);
      var quests' := QuestsWithId(quests, body.value.questId.value);
      && (|users'| != 1 ==> r == Rejected(Failure(404, "User not found")))
      && (|users'| == 1 && |quests'| != 1 ==> r == Rejected(Failure(404, "Quest not found")))
      && (|users'| == 1 && |quests'| == 1 ==>
            var done := CompletionsOf(userQuests, users'[0].id, body.value.questId.value);
            && (|done| == 1 ==> r == Rejected(Failure(400, "Quest already completed")))
            && (|done| != 1 ==> r == Accepted(users'[0], quests'[0], body.value.questId.value)))
    ensures r.Accepted? ==> r.user in users && r.quest in quests && r.quest.id == r.questId
    // an accepted request names one user, one quest and a pair not recorded exactly once
    ensures r.Accepted? ==>
      && body.Some? && Truthy(body.value.questId) && Truthy(body.value.twitterId)
      && r.questId == body.value.questId.value
      && UsersWithTwitterId(users, body.value.twitterId.value) == [r.user]
      && QuestsWithId(quests, r.questId) == [r.quest]
      && |CompletionsOf(userQuests, r.user.id, r.questId)| != 1
  {
    if body.None? then Rejected(InternalError)
    else if !Truthy(body.value.questId) || !Truthy(body.value.twitterId) then
      Rejected(Failure(400, "Quest ID and Twitter ID required"))
    else
      var questId, twitterId := body.value.questId.value, body.value.twitterId.value;
      match Single(UsersWithTwitterId(users, twitterId))
      case None => Rejected(Failure(404, "User not found"))
      case Some(user) =>
        match Single(QuestsWithId(quests, questId))
        case None => Rejected(Failure(404, "Quest not found"))
        case Some(quest) =>
          if Single(CompletionsOf(userQuests, user.id, questId)).Some? then
            Rejected(Failure(400, "Quest already completed"))
          else Accepted(user, quest, questId)
  }

  /** No (user, quest) pair is recorded twice. */
  ghost predicate NoDuplicateCompletions(rows: seq<Completion>) {
    forall i, j :: 0 <= i < j < |rows| ==> rows[i] != rows[j]
  }

  /** Without duplicates, a recorded completion is matched by exactly one row. */
  lemma {:induction false} RecordedCompletionIsSingle(rows: seq<Completion>, userId: string, questId: string)
    requires NoDuplicateCompletions(rows)
    ensures Completion(userId, questId) in rows ==> |CompletionsOf(rows, userId, questId)| == 1
    ensures Completion(userId, questId) !in rows ==> CompletionsOf(rows, userId, questId) == []
    decreases |rows|
  {
    if rows != [] {
      assert NoDuplicateCompletions(rows[1..]) by {
        forall i, j | 0 <= i < j < |rows[1..]| ensures rows[1..][i] != rows[1..][j] {
          assert rows[1..][i] == rows[i + 1] && rows[1..][j] == rows[j + 1];
        }
      }
      RecordedCompletionIsSingle(rows[1..], userId, questId);
      if rows[0] == Completion(userId, questId) {
        assert Completion(userId, questId) !in rows[1..] by {
          forall k | 0 <= k < |rows[1..]| ensures rows[1..][k] != rows[0] {
            assert rows[1..][k] == rows[k + 1];
          }
        }
      }
    }
  }

  /** The points update `.update({ points, updated_at }).eq('id', userId)`: every row with that
      id gets the new total and time, and no other row changes. */
  function SetPoints(users: seq<User>, userId: string, points: int, now: string): (r: seq<User>)
    ensures |r| == |users|
    ensures forall i :: 0 <= i < |users| && users[i].id != userId ==> r[i] == users[i]
    ensures forall i :: 0 <= i < |users| && users[i].id == userId ==>
      r[i] == users[i].(points := points, updatedAt := now)
  {
    seq(|users|, i requires 0 <= i < |users| =>
      if users[i].id == userId then users[i].(points := points, updatedAt := now) else users[i])
  }

  /** The points update changes no Twitter id or user id, so the user lookup finds the same
      user afterwards. */
  lemma {:induction false} SetPointsKeepsLookup(users: seq<User>, userId: string, points: int, now: string, twitterId: string)
    ensures var before, after := UsersWithTwitterId(users, twitterId), UsersWithTwitterId(SetPoints(users, userId, points, now), twitterId);
      |after| == |before| && forall i :: 0 <= i < |after| ==> after[i].id == before[i].id
    decreases |users|
  {
    if users != [] {
      assert SetPoints(users, userId, points, now)[1..] == SetPoints(users[1..], userId, points, now);
      SetPointsKeepsLookup(users[1..], userId, points, now, twitterId);
    }
  }

  /** Recording a pair that is not yet recorded keeps the table free of duplicates. */
  lemma RecordingKeepsNoDuplicates(rows: seq<Completion>, c: Completion)
    requires NoDuplicateCompletions(rows) && c !in rows
    ensures NoDuplicateCompletions(rows + [c])
  {
    var rows' := rows + [c];
    forall i, j | 0 <= i < j < |rows'| ensures rows'[i] != rows'[j] {
      assert rows'[i] == rows[i];
      if j == |rows| {
        assert rows[i] in rows;
      } else {
        assert rows'[j] == rows[j];
      }
    }
  }

  /** A well-formed request for a user and a quest that each match one row is refused once the
      pair is recorded. */
  lemma RecordedPairIsRefused(users: seq<User>, quests: seq<Quest>, rows: seq<Completion>, body: Option<CompleteRequest>)
    requires body.Some? && Truthy(body.value.questId) && Truthy(body.value.twitterId)
    requires |UsersWithTwitterId(users, body.value.twitterId.value)| == 1
    requires |QuestsWithId(quests, body.value.questId.value)| == 1
    requires NoDuplicateCompletions(rows)
    requires Completion(UsersWithTwitterId(users, body.value.twitterId.value)[0].id, body.value.questId.value) in rows
    ensures CheckRequest(users, quests, rows, body) == Rejected(Failure(400, "Quest already completed"))
  {
    RecordedCompletionIsSingle(rows, UsersWithTwitterId(users, body.value.twitterId.value)[0].id, body.value.questId.value);
  }

  /** A quest is credited to a user at most once: after a request has been accepted and its
      completion recorded, the same request is refused as already completed, whether or not the
      points update went through, as long as no pair was recorded twice before. */
  lemma CreditedAtMostOnce(users: seq<User>, quests: seq<Quest>, userQuests: seq<Completion>,
                           body: Option<CompleteRequest>, now: string)
    requires NoDuplicateCompletions(userQuests)
    requires CheckRequest(users, quests, userQuests, body).Accepted?
    ensures var c := CheckRequest(users, quests, userQuests, body);
      var recorded := userQuests + [Completion(c.user.id, c.questId)];
      var credited := SetPoints(users, c.user.id, c.user.points + c.quest.points, now);
      && NoDuplicateCompletions(recorded)
      && CheckRequest(users, quests, recorded, body) == Rejected(Failure(400, "Quest already completed"))
      && CheckRequest(credited, quests, recorded, body) == Rejected(Failure(400, "Quest already completed"))
  {
    var c := CheckRequest(users, quests, userQuests, body);
    var twitterId := body.value.twitterId.value;
    var pair := Completion(c.user.id, c.questId);
    var recorded := userQuests + [pair];
    var credited := SetPoints(users, c.user.id, c.user.points + c.quest.points, now);
    RecordedCompletionIsSingle(userQuests, c.user.id, c.questId);
    RecordingKeepsNoDuplicates(userQuests, pair);
    assert pair in recorded;
    assert UsersWithTwitterId(users, twitterId) == [c.user];
    RecordedPairIsRefused(users, quests, recorded, body);
    SetPointsKeepsLookup(users, c.user.id, c.user.points + c.quest.points, now, twitterId);
    assert |UsersWithTwitterId(credited, twitterId)| == 1 && UsersWithTwitterId(credited, twitterId)[0].id == c.user.id;
    RecordedPairIsRefused(credited, quests, recorded, body);
  }

  /** The tables the route reads and writes. */
  class Database {
    var users: seq<User>
    var quests: seq<Quest>
    var userQuests: seq<Completion>
    var dripLog: seq<DripLog>

    constructor (users: seq<User>, quests: seq<Quest>, userQuests: seq<Completion>)
      ensures this.users == users && this.quests == quests && this.userQuests == userQuests
      ensures dripLog == []
    {
      this.users, this.quests, this.userQuests, dripLog := users, quests, userQuests, [];
    }
  }

  /** The writes of an accepted request: record the completion, then credit the points, then
      log the DRIP sync; a failed insert or update stops there with an internal error. */
  method Record(db: Database, user: User, quest: Quest, questId: string, faults: Faults, now: string)
    returns (resp: Response)
    modifies db
    ensures db.quests == old(db.quests)
    ensures NoDuplicateCompletions(old(db.userQuests)) && Completion(user.id, questId) !in old(db.userQuests) ==>
      NoDuplicateCompletions(db.userQuests)
    ensures faults.insertFails ==>
      resp == InternalError && db.users == old(db.users) && db.userQuests == old(db.userQuests)
      && db.dripLog == old(db.dripLog)
    ensures !faults.insertFails ==> db.userQuests == old(db.userQuests) + [Completion(user.id, questId)]
    ensures !faults.insertFails && faults.updateFails ==>
      resp == InternalError && db.users == old(db.users) && db.dripLog == old(db.dripLog)
    ensures !faults.insertFails && !faults.updateFails ==>
      && resp == Completed(quest.points, user.points + quest.points)
      && db.users == SetPoints(old(db.users), user.id, user.points + quest.points, now)
      && db.dripLog == old(db.dripLog)
           + (if faults.logFails then []
              else [DripLog(user.id, "quest_complete", questId, quest.points, true)])
  {
    if faults.insertFails {
      return InternalError;
    }
    if NoDuplicateCompletions(db.userQuests) && Completion(user.id, questId) !in db.userQuests {
      RecordingKeepsNoDuplicates(db.userQuests, Completion(user.id, questId));
    }
    db.userQuests := db.userQuests + [Completion(user.id, questId)];
    var newPoints := user.points + quest.points;
    if faults.updateFails {
      return InternalError;
    }
    db.users := SetPoints(db.users, user.id, newPoints, now);
    if !faults.logFails {
      db.dripLog := db.dripLog + [DripLog(user.id, "quest_complete", questId, quest.points, true)];
    }
    return Completed(quest.points, newPoints);
  }

  /** The route handler. */
  method CompleteQuest(db: Database, body: Option<CompleteRequest>, faults: Faults, now: string)
    returns (resp: Response)
    modifies db
    ensures db.quests == old(db.quests)
    ensures NoDuplicateCompletions(old(db.userQuests)) ==> NoDuplicateCompletions(db.userQuests)
    // a refused request writes nothing
    ensures var c := CheckRequest(old(db.users), old(db.quests), old(db.userQuests), body);
      c.Rejected? ==>
        resp == c.response && db.users == old(db.users) && db.userQuests == old(db.userQuests)
        && db.dripLog == old(db.dripLog)
    // an accepted one records the completion first; a failed insert is an internal error
    ensures var c := CheckRequest(old(db.users), old(db.quests), old(db.userQuests), body);
      c.Accepted? && faults.insertFails ==>
        resp == InternalError && db.users == old(db.users) && db.userQuests == old(db.userQuests)
        && db.dripLog == old(db.dripLog)
    // a failed points update leaves the completion recorded but answers with an error
    ensures var c := CheckRequest(old(db.users), old(db.quests), old(db.userQuests), body);
      c.Accepted? && !faults.insertFails && faults.updateFails ==>
        resp == InternalError && db.users == old(db.users)
        && db.userQuests == old(db.userQuests) + [Completion(c.user.id, c.questId)]
        && db.dripLog == old(db.dripLog)
    // otherwise the user's total grows by the quest's points, and the log row is written unless
    // its own insert fails
    ensures var c := CheckRequest(old(db.users), old(db.quests), old(db.userQuests), body);
      c.Accepted? && !faults.insertFails && !faults.updateFails ==>
        var total := c.user.points + c.quest.points;
        && resp == Completed(c.quest.points, total)
        && db.userQuests == old(db.userQuests) + [Completion(c.user.id, c.questId)]
        && db.users == SetPoints(old(db.users), c.user.id, total, now)
        && db.dripLog == old(db.dripLog)
             + (if faults.logFails then []
                else [DripLog(c.user.id, "quest_complete", c.questId, c.quest.points, true)])
  {
    ghost var check := CheckRequest(db.users, db.quests, db.userQuests, body);
    if body.None? {
      return InternalError;
    }
    var questId, twitterId := body.value.questId, body.value.twitterId;
    if !Truthy(questId) || !Truthy(twitterId) {
      return Failure(400, "Quest ID and Twitter ID required");
    }
    var user := Single(UsersWithTwitterId(db.users, twitterId.value));
    if user.None? {
      return Failure(404, "User not found");
    }
    var quest := Single(QuestsWithId(db.quests, questId.value));
    if quest.None? {
      return Failure(404, "Quest not found");
    }
    var existing := Single(CompletionsOf(db.userQuests, user.value.id, questId.value));
    if existing.Some? {
      return Failure(400, "Quest already completed");
    }
    assert check == Accepted(user.value, quest.value, questId.value);
    if NoDuplicateCompletions(db.userQuests) {
      RecordedCompletionIsSingle(db.userQuests, user.value.id, questId.value);
    }
    resp := Record(db, user.value, quest.value, questId.value, faults, now);
  }
}
