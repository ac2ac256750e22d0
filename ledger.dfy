/** The server's in-memory database: world records, rankings and the event
    log, with the operations that update them in place (`ensureWorld`,
    `updateRankingFromBattle`, `updateRankingPosition`, `recordEvent`) and
    the coin-accrual and daily-refresh rules of `GET /api/world`. index.js
    and api.js carry the same code; `GetWorld` follows index.js and
    `ApiGetWorld` follows api.js, which differ in those two rules. */
module Ledger {
  import opened Common
  import opened Missions
  import opened Ratings

  datatype Profile = Profile(displayName: string, avatarEmoji: string)

  /** The part of a saved client state the server reads or writes. */
  datatype StateBlob = StateBlob(
    profile: Profile, name: string, archetype: string,
    level: int, energyMax: int, chaos: int, profitHour: int, coins: int,
    missions: seq<Mission>, lastDailyDate: Option<string>,
    travelWorlds: int, dailyQuestsDone: int, dailyQuestsTotal: int)

  datatype WorldRecord = WorldRecord(
    userId: string, state: Option<StateBlob>, lastUpdate: int,
    lastDailyDate: Option<string>, dailyMissions: seq<Mission>, dailyWorlds: int)

  /** An event of the log; the payload is kept as its JSON text. */
  datatype Event = Event(id: int, userId: string, kind: string, payload: string, createdAt: int)

  /** The reply of `GET /api/world`: 400 without a user id, `{ state: null }`
      for a world never saved, or the state with the user's ranking. */
  datatype WorldReply =
    | MissingUser
    | NoWorldState
    | WorldView(state: StateBlob, rating: int, position: nat, wins: int, losses: int, coinsAccrued: int)

  /** The log keeps at most this many events. */
  const MaxEvents: nat := 5000

  const MsPerHour: int := 3600000

  /** `order` enumerates the keys of `m`, each once. */
  ghost predicate KeyOrder<V>(order: seq<string>, m: map<string, V>) {
    && (forall i, j :: 0 <= i < j < |order| ==> order[i] != order[j])
    && (forall k :: k in m <==> k in order)
  }

  lemma {:induction false} KeyOrderSize<V>(order: seq<string>, m: map<string, V>)
    requires KeyOrder(order, m)
    ensures |m| == |order|
  {
    if order == [] {
      assert m.Keys == {};
    } else {
      var rest := m - {order[0]};
      forall k ensures k in rest <==> k in order[1..] {
        if k in order[1..] {
          var j :| 0 <= j < |order[1..]| && order[1..][j] == k;
          assert order[j + 1] == k;
        }
        if k in rest {
          var j :| 0 <= j < |order| && order[j] == k;
          assert j != 0 && order[1..][j - 1] == k;
        }
      }
      KeyOrderSize(order[1..], rest);
      assert m.Keys == rest.Keys + {order[0]};
    }
  }

  /** The record `ensureWorld` creates for a user seen for the first time. */
  function NewWorld(userId: string, now: int): WorldRecord {
    WorldRecord(userId, None, now, None, [], 0)
  }

  /** The ranking `updateRankingFromBattle` creates for a first battle. */
  function NewRanking(userId: string, now: int): Ranking {
    Ranking(userId, DefaultRating, 0, 0, now)
  }

  /** The last `n` elements of `s`: what is left after the oldest entries
      beyond `n` are spliced away. */
  function KeepLast<T>(s: seq<T>, n: nat): (r: seq<T>)
    ensures |r| == Min(|s|, n)
    ensures forall i :: 0 <= i < |r| ==> r[i] == s[|s| - |r| + i]
  {
    if |s| > n then s[|s| - n..] else s
  }

  /** Event ids increase along the log and none exceeds the counter. */
  ghost predicate EventIdsBelow(events: seq<Event>, lastId: int) {
    && (forall i, j :: 0 <= i < j < |events| ==> events[i].id < events[j].id)
    && (forall i :: 0 <= i < |events| ==> events[i].id <= lastId)
  }

  lemma EventAppended(events: seq<Event>, e: Event)
    requires EventIdsBelow(events, e.id - 1)
    ensures EventIdsBelow(events + [e], e.id)
  {
    var log := events + [e];
    forall i, j | 0 <= i < j < |log| ensures log[i].id < log[j].id {
      assert log[i] == events[i];
    }
  }

  lemma EventsSuffix(events: seq<Event>, lastId: int, k: nat)
    requires k <= |events| && EventIdsBelow(events, lastId)
    ensures EventIdsBelow(events[k..], lastId)
  {
    var r := events[k..];
    forall i, j | 0 <= i < j < |r| ensures r[i].id < r[j].id {
      assert r[i] == events[k + i] && r[j] == events[k + j];
    }
    forall i | 0 <= i < |r| ensures r[i].id <= lastId {
      assert r[i] == events[k + i];
    }
  }

  /** index.js: coins earned since `lastUpdate` at `profitHour` per hour, the
      elapsed time clamped at zero. */
  function AccrualGain(profitHour: int, lastUpdate: int, now: int): (g: int)
    ensures profitHour >= 0 ==> g >= 0
    ensures now <= OrInt(lastUpdate, now) ==> g == 0
  {
    var elapsed := Max(0, now - OrInt(lastUpdate, now));
    (OrInt(profitHour, 0) * elapsed) / MsPerHour
  }

  /** api.js: the same product, unclamped, with the gain clamped at zero. */
  function ApiAccrualGain(profitHour: int, lastUpdate: int, now: int): (g: int)
    ensures g >= 0
  {
    Max(0, (OrInt(profitHour, 0) * (now - OrInt(lastUpdate, now))) / MsPerHour)
  }

  /** For a non-negative income the two accrual rules agree. */
  lemma AccrualRulesAgree(profitHour: int, lastUpdate: int, now: int)
    requires profitHour >= 0
    ensures AccrualGain(profitHour, lastUpdate, now) == ApiAccrualGain(profitHour, lastUpdate, now)
  {
    var p, e := OrInt(profitHour, 0), now - OrInt(lastUpdate, now);
    if e < 0 {
      assert p * e <= 0;
    }
  }

  /** A longer wait never earns fewer coins. A record without a last update
      falls back to `now` and earns nothing either way. */
  lemma AccrualMonotone(profitHour: int, lastUpdate: int, now: int, later: int)
    requires profitHour >= 0 && now <= later
    ensures lastUpdate != 0 ==> AccrualGain(profitHour, lastUpdate, now) <= AccrualGain(profitHour, lastUpdate, later)
    ensures lastUpdate == 0 ==> AccrualGain(profitHour, lastUpdate, now) == AccrualGain(profitHour, lastUpdate, later) == 0
  {
    if lastUpdate != 0 {
      var e1, e2 := Max(0, now - lastUpdate), Max(0, later - lastUpdate);
      assert profitHour * e1 <= profitHour * e2;
    }
  }

  /** index.js refreshes the missions on a new day or when there are none. */
  predicate NeedsRefresh(lastDailyDate: Option<string>, missions: seq<Mission>, today: string) {
    lastDailyDate != Some(today) || |missions| == 0
  }

  /** api.js refreshes them on a new day only. */
  predicate ApiNeedsRefresh(lastDailyDate: Option<string>, today: string) {
    lastDailyDate != Some(today)
  }

  /** The fields of a state that `GET /api/world` leaves alone. */
  predicate SameWorld(a: StateBlob, b: StateBlob) {
    && a.profile == b.profile && a.name == b.name && a.archetype == b.archetype
    && a.level == b.level && a.energyMax == b.energyMax && a.chaos == b.chaos
    && a.profitHour == b.profitHour
  }

  class Db {
    var lastEventId: int
    var events: seq<Event>
    var worlds: map<string, WorldRecord>
    var worldOrder: seq<string>
    var rankings: map<string, Ranking>
    var rankingOrder: seq<string>

    ghost predicate Valid()
      reads this
    {
      && KeyOrder(worldOrder, worlds) && KeyOrder(rankingOrder, rankings)
      && (forall u :: u in worlds ==> worlds[u].userId == u)
      && (forall u :: u in rankings ==> rankings[u].userId == u)
      && (forall u :: u in rankings ==> rankings[u].rating >= RatingFloor
                                        && rankings[u].wins >= 0 && rankings[u].losses >= 0)
      && |events| <= MaxEvents
      && EventIdsBelow(events, lastEventId)
    }

    /** The empty database `loadDb` starts from when no file exists. */
    constructor ()
      ensures Valid()
      ensures lastEventId == 0 && events == [] && worlds == map[] && rankings == map[]
    {
      lastEventId := 0;
      events := [];
      worlds := map[];
      worldOrder := [];
      rankings := map[];
      rankingOrder := [];
    }

    /** `ensureWorld(userId)`: the user's record, created on first sight. */
    method EnsureWorld(userId: string, now: int) returns (rec: WorldRecord)
      requires Valid()
      modifies this`worlds, this`worldOrder
      ensures Valid()
      ensures userId in worlds && rec == worlds[userId]
      ensures old(userId in worlds) ==> worlds == old(worlds) && worldOrder == old(worldOrder)
      ensures old(userId !in worlds) ==>
        && rec == NewWorld(userId, now)
        && worlds == old(worlds)[userId := rec]
        && worldOrder == old(worldOrder) + [userId]
    {
      if userId !in worlds {
        worlds := worlds[userId := NewWorld(userId, now)];
        worldOrder := worldOrder + [userId];
      }
      rec := worlds[userId];
    }

    /** `updateRankingFromBattle(userId, { win })`. */
    method UpdateRankingFromBattle(userId: string, win: bool, now: int)
      requires Valid()
      modifies this`rankings, this`rankingOrder
      ensures Valid()
      ensures rankingOrder == old(if userId in rankings then rankingOrder else rankingOrder + [userId])
      ensures forall v :: v != userId ==> (v in rankings <==> v in old(rankings))
      ensures forall v :: v != userId && v in rankings ==> rankings[v] == old(rankings[v])
      ensures userId in rankings
      ensures var prev := old(if userId in rankings then rankings[userId] else NewRanking(userId, now));
        && rankings[userId].userId == userId
        && rankings[userId].rating == BattleRating(prev.rating, win)
        && rankings[userId].wins == prev.wins + (if win then 1 else 0)
        && rankings[userId].losses == prev.losses + (if win then 0 else 1)
        && rankings[userId].updatedAt == now
    {
      if userId !in rankings {
        rankings := rankings[userId := NewRanking(userId, now)];
        rankingOrder := rankingOrder + [userId];
      }
      var ranking := rankings[userId];
      var rating := BattleRating(ranking.rating, win);
      if win {
        ranking := ranking.(rating := rating, wins := ranking.wins + 1);
      } else {
        ranking := ranking.(rating := rating, losses := ranking.losses + 1);
      }
      ranking := ranking.(updatedAt := now);
      rankings := rankings[userId := ranking];
    }

    /** `updateRankingPosition(userId)`: the user's 1-based place on the
        leaderboard, or one past the last place for an unranked user. */
    method UpdateRankingPosition(userId: string) returns (pos: nat)
      requires Valid()
      ensures 1 <= pos <= |rankings| + 1
      ensures pos == |rankings| + 1 <==> userId !in rankings
      ensures var board := Leaderboard(rankingOrder, rankings);
        && |board| == |rankings|
        && (pos <= |board| ==> (board[pos - 1].id == userId
                                && forall i :: 0 <= i < pos - 1 ==> board[i].rating >= board[pos - 1].rating))
    {
      var board := Leaderboard(rankingOrder, rankings);
      LeaderboardFacts(rankingOrder, rankings, userId);
      KeyOrderSize(rankingOrder, rankings);
      pos := RankingPosition(board, userId);
    }

    /** `recordEvent({ userId, type, payload })`: the next id, appended, the
        oldest events dropped beyond the cap. */
    method RecordEvent(userId: string, kind: string, payload: string, now: int)
      requires Valid()
      modifies this`lastEventId, this`events
      ensures Valid()
      ensures lastEventId == old(lastEventId) + 1
      ensures events == KeepLast(old(events) + [Event(lastEventId, userId, kind, payload, now)], MaxEvents)
      ensures |events| == Min(|old(events)| + 1, MaxEvents)
      ensures events[|events| - 1] == Event(lastEventId, userId, kind, payload, now)
    {
      lastEventId := lastEventId + 1;
      var log := events + [Event(lastEventId, userId, kind, payload, now)];
      EventAppended(events, Event(lastEventId, userId, kind, payload, now));
      if |log| > MaxEvents {
        EventsSuffix(log, lastEventId, |log| - MaxEvents);
        log := log[|log| - MaxEvents..];
      }
      events := log;
    }

    /** Stores the updated record of a known user. */
    method UpdateWorld(userId: string, rec: WorldRecord)
      requires Valid() && userId in worlds && rec.userId == userId
      modifies this`worlds
      ensures Valid()
      ensures worlds == old(worlds)[userId := rec]
    {
      worlds := worlds[userId := rec];
    }

    /** `GET /api/world` as index.js serves it. */
    method GetWorld(userId: string, now: int, today: string) returns (reply: WorldReply)
      requires Valid()
      modifies this`worlds, this`worldOrder
      ensures Valid()
      ensures userId == "" ==> reply == MissingUser && worlds == old(worlds) && worldOrder == old(worldOrder)
      ensures userId != "" ==> userId in worlds && worlds.Keys == old(worlds.Keys) + {userId}
      ensures userId != "" ==> worldOrder == old(if userId in worlds then worldOrder else worldOrder + [userId])
      ensures forall v :: v != userId && v in old(worlds) ==> worlds[v] == old(worlds[v])
      ensures userId != "" && old(userId !in worlds) ==> reply == NoWorldState && worlds[userId] == NewWorld(userId, now)
      ensures userId != "" && old(userId in worlds) && old(worlds[userId].state.None?) ==>
        reply == NoWorldState && worlds[userId] == old(worlds[userId])
      ensures userId != "" && userId in old(worlds) && old(worlds[userId].state.Some?) ==>
        && reply.WorldView?
        && Served(old(worlds[userId]), worlds[userId], now, today)
        && worlds[userId].state == Some(reply.state)
        && reply.coinsAccrued == AccrualGain(old(worlds[userId].state.value.profitHour), old(worlds[userId].lastUpdate), now)
        && RankingReply(reply, userId, rankings)
    {
      if userId == "" {
        return MissingUser;
      }
      var rec := EnsureWorld(userId, now);
      if rec.state.None? {
        return NoWorldState;
      }
      reply := ServeSaved(userId, now, today);
    }

    /** The saved-world path of GetWorld: the record brought up to date and
        stored, and the reply built from it and the user's ranking. */
    method ServeSaved(userId: string, now: int, today: string) returns (reply: WorldReply)
      requires Valid() && userId in worlds && worlds[userId].state.Some?
      modifies this`worlds
      ensures Valid()
      ensures worlds == old(worlds)[userId := worlds[userId]]
      ensures reply.WorldView?
      ensures Served(old(worlds[userId]), worlds[userId], now, today)
      ensures worlds[userId].state == Some(reply.state)
      ensures reply.coinsAccrued == AccrualGain(old(worlds[userId].state.value.profitHour), old(worlds[userId].lastUpdate), now)
      ensures RankingReply(reply, userId, rankings)
    {
      var rec, gain := Accrue(worlds[userId], now, today);
      UpdateWorld(userId, rec);
      var ranking := if userId in rankings then rankings[userId] else NewRanking(userId, 0);
      var position := UpdateRankingPosition(userId);
      reply := WorldView(rec.state.value, ranking.rating, position, ranking.wins, ranking.losses, gain);
    }

    /** `GET /api/world` as api.js serves it. */
    method ApiGetWorld(userId: string, now: int, today: string) returns (reply: WorldReply)
      requires Valid()
      modifies this`worlds, this`worldOrder
      ensures Valid()
      ensures userId == "" ==> reply == MissingUser && worlds == old(worlds) && worldOrder == old(worldOrder)
      ensures userId != "" ==> userId in worlds && worlds.Keys == old(worlds.Keys) + {userId}
      ensures userId != "" ==> worldOrder == old(if userId in worlds then worldOrder else worldOrder + [userId])
      ensures forall v :: v != userId && v in old(worlds) ==> worlds[v] == old(worlds[v])
      ensures userId != "" && old(userId !in worlds) ==> reply == NoWorldState && worlds[userId] == NewWorld(userId, now)
      ensures userId != "" && old(userId in worlds) && old(worlds[userId].state.None?) ==>
        reply == NoWorldState && worlds[userId] == old(worlds[userId])
      ensures userId != "" && userId in old(worlds) && old(worlds[userId].state.Some?) ==>
        && reply.WorldView?
        && ApiServed(old(worlds[userId]), worlds[userId], now, today)
        && worlds[userId].state == Some(reply.state)
        && reply.coinsAccrued == ApiAccrualGain(old(worlds[userId].state.value.profitHour), old(worlds[userId].lastUpdate), now)
        && RankingReply(reply, userId, rankings)
    {
      if userId == "" {
        return MissingUser;
      }
      var rec := EnsureWorld(userId, now);
      if rec.state.None? {
        return NoWorldState;
      }
      reply := ApiServeSaved(userId, now, today);
    }

    /** The saved-world path of ApiGetWorld: the record brought up to date and
        stored, and the reply built from it and the user's ranking. */
    method ApiServeSaved(userId: string, now: int, today: string) returns (reply: WorldReply)
      requires Valid() && userId in worlds && worlds[userId].state.Some?
      modifies this`worlds
      ensures Valid()
      ensures worlds == old(worlds)[userId := worlds[userId]]
      ensures reply.WorldView?
      ensures ApiServed(old(worlds[userId]), worlds[userId], now, today)
      ensures worlds[userId].state == Some(reply.state)
      ensures reply.coinsAccrued == ApiAccrualGain(old(worlds[userId].state.value.profitHour), old(worlds[userId].lastUpdate), now)
      ensures RankingReply(reply, userId, rankings)
    {
      var rec, gain := ApiAccrue(worlds[userId], now, today);
      UpdateWorld(userId, rec);
      var ranking := if userId in rankings then rankings[userId] else NewRanking(userId, 0);
      var position := UpdateRankingPosition(userId);
      reply := WorldView(rec.state.value, ranking.rating, position, ranking.wins, ranking.losses, gain);
    }

    /** `POST /api/world`: 400 without a user id or a state; otherwise the
        user's record (created on first sight) takes the saved state, the
        time of the save, the state's missions and travel count, and a date
        key: the state's, else the record's, else today's. */
    method SaveWorld(userId: string, state: Option<StateBlob>, now: int, today: string) returns (status: int)
      requires Valid()
      modifies this`worlds, this`worldOrder
      ensures Valid()
      ensures status == 400 <==> userId == "" || state.None?
      ensures status == 400 ==> worlds == old(worlds) && worldOrder == old(worldOrder)
      ensures status != 400 ==>
        && status == 200
        && worldOrder == old(if userId in worlds then worldOrder else worldOrder + [userId])
        && worlds.Keys == old(worlds.Keys) + {userId}
        && (forall v :: v != userId && v in old(worlds) ==> worlds[v] == old(worlds[v]))
        && var prior := old(if userId in worlds then worlds[userId] else NewWorld(userId, now));
        && var rec := worlds[userId];
        && rec.userId == userId && rec.state == state && rec.lastUpdate == now
        && rec.dailyMissions == state.value.missions
        && rec.dailyWorlds == state.value.travelWorlds
        && rec.lastDailyDate == (if DateSet(state.value.lastDailyDate) then state.value.lastDailyDate
                                 else if DateSet(prior.lastDailyDate) then prior.lastDailyDate
                                 else Some(today))
    {
      if userId == "" || state.None? {
        return 400;
      }
      var rec := EnsureWorld(userId, now);
      var saved := state.value;
      var date := if DateSet(saved.lastDailyDate) then saved.lastDailyDate
                  else if DateSet(rec.lastDailyDate) then rec.lastDailyDate
                  else Some(today);
      rec := rec.(state := state, lastUpdate := now, dailyMissions := saved.missions,
                  dailyWorlds := saved.travelWorlds, lastDailyDate := date);
      UpdateWorld(userId, rec);
      return 200;
    }

    /** `POST /api/events`: 400 without a user id, a type or a state;
        otherwise the event is logged, and a finished battle also updates the
        user's ranking with the reported outcome. `payload` is the event's
        JSON text and `win` whether the reported extra says the battle was won. */
    method ReportEvent(userId: string, kind: string, hasState: bool, payload: string, win: bool, now: int)
      returns (status: int)
      requires Valid()
      modifies this`lastEventId, this`events, this`rankings, this`rankingOrder
      ensures Valid()
      ensures status == 400 <==> userId == "" || kind == "" || !hasState
      ensures status == 400 ==>
        && lastEventId == old(lastEventId) && events == old(events)
        && rankings == old(rankings) && rankingOrder == old(rankingOrder)
      ensures status != 400 ==>
        && status == 200
        && lastEventId == old(lastEventId) + 1
        && events == KeepLast(old(events) + [Event(lastEventId, userId, kind, payload, now)], MaxEvents)
      ensures status != 400 && kind != "battle_finished" ==>
        rankings == old(rankings) && rankingOrder == old(rankingOrder)
      ensures status != 400 && kind == "battle_finished" ==>
        && userId in rankings
        && (forall v :: v != userId ==> (v in rankings <==> v in old(rankings)))
        && (forall v :: v != userId && v in rankings ==> rankings[v] == old(rankings[v]))
        && var prev := old(if userId in rankings then rankings[userId] else NewRanking(userId, now));
        && rankings[userId].rating == BattleRating(prev.rating, win)
        && rankings[userId].wins == prev.wins + (if win then 1 else 0)
        && rankings[userId].losses == prev.losses + (if win then 0 else 1)
    {
      if userId == "" || kind == "" || !hasState {
        return 400;
      }
      RecordEvent(userId, kind, payload, now);
      if kind == "battle_finished" {
        UpdateRankingFromBattle(userId, win, now);
      }
      return 200;
    }
  }

  /** A date key JavaScript treats as true: present and not empty. */
  predicate DateSet(d: Option<string>) {
    d.Some? && d.value != ""
  }

  /** The ranking part of a world reply: the stored rating, wins and losses
      (1200, 0, 0 for an unranked user) and a position in 1..n+1 that is n+1
      exactly when the user is unranked. */
  ghost predicate RankingReply(reply: WorldReply, userId: string, rankings: map<string, Ranking>)
    requires reply.WorldView?
  {
    && 1 <= reply.position <= |rankings| + 1
    && (reply.position == |rankings| + 1 <==> userId !in rankings)
    && (userId in rankings ==>
          (reply.rating == rankings[userId].rating
           && reply.wins == rankings[userId].wins && reply.losses == rankings[userId].losses))
    && (userId !in rankings ==> reply.rating == DefaultRating && reply.wins == 0 && reply.losses == 0)
  }

  /** How index.js brings a saved world `o` up to date as `rec`: coins accrued
      (advancing `lastUpdate` only on a positive gain), missions refreshed on a
      new day or when there are none, and the day's bookkeeping copied into
      the state. Nothing else in the state changes. */
  ghost predicate Served(o: WorldRecord, rec: WorldRecord, now: int, today: string)
    requires o.state.Some?
  {
    var s := o.state.value;
    var gain := AccrualGain(s.profitHour, o.lastUpdate, now);
    && rec.userId == o.userId
    && rec.state.Some?
    && var t := rec.state.value;
    && SameWorld(t, s)
    && t.coins == s.coins + Max(0, gain)
    && rec.lastUpdate == (if gain > 0 then now else o.lastUpdate)
    && (NeedsRefresh(o.lastDailyDate, o.dailyMissions, today) ==>
          && rec.dailyMissions == ServerDailyMissions(OrInt(s.level, 1), today)
          && rec.lastDailyDate == Some(today) && rec.dailyWorlds == 0
          && t.dailyQuestsDone == 0 && t.dailyQuestsTotal == DailyCount)
    && (!NeedsRefresh(o.lastDailyDate, o.dailyMissions, today) ==>
          && rec.dailyMissions == o.dailyMissions
          && rec.lastDailyDate == o.lastDailyDate && rec.dailyWorlds == o.dailyWorlds
          && t.dailyQuestsDone == s.dailyQuestsDone && t.dailyQuestsTotal == s.dailyQuestsTotal)
    && t.missions == rec.dailyMissions
    && t.lastDailyDate == rec.lastDailyDate
    && t.travelWorlds == rec.dailyWorlds
  }

  /** The api.js rules: the gain clamped at zero, a refresh on a new day only,
      and the quest counters of the state left as they were. */
  ghost predicate ApiServed(o: WorldRecord, rec: WorldRecord, now: int, today: string)
    requires o.state.Some?
  {
    var s := o.state.value;
    var gain := ApiAccrualGain(s.profitHour, o.lastUpdate, now);
    && rec.userId == o.userId
    && rec.state.Some?
    && var t := rec.state.value;
    && SameWorld(t, s)
    && t.coins == s.coins + gain
    && rec.lastUpdate == (if gain > 0 then now else o.lastUpdate)
    && (ApiNeedsRefresh(o.lastDailyDate, today) ==>
          && rec.dailyMissions == ServerDailyMissions(OrInt(s.level, 1), today)
          && rec.lastDailyDate == Some(today) && rec.dailyWorlds == 0)
    && (!ApiNeedsRefresh(o.lastDailyDate, today) ==>
          && rec.dailyMissions == o.dailyMissions
          && rec.lastDailyDate == o.lastDailyDate && rec.dailyWorlds == o.dailyWorlds)
    && t.dailyQuestsDone == s.dailyQuestsDone && t.dailyQuestsTotal == s.dailyQuestsTotal
    && t.missions == rec.dailyMissions
    && t.lastDailyDate == rec.lastDailyDate
    && t.travelWorlds == rec.dailyWorlds
  }

  /** The in-place updates index.js makes to a saved world's record. */
  method Accrue(o: WorldRecord, now: int, today: string) returns (rec: WorldRecord, gain: int)
    requires o.state.Some?
    ensures Served(o, rec, now, today)
    ensures gain == AccrualGain(o.state.value.profitHour, o.lastUpdate, now)
  {
    rec := o;
    var st := rec.state.value;
    gain := AccrualGain(st.profitHour, rec.lastUpdate, now);
    if gain > 0 {
      st := st.(coins := OrInt(st.coins, 0) + gain);
      rec := rec.(lastUpdate := now);
    }
    if NeedsRefresh(rec.lastDailyDate, rec.dailyMissions, today) {
      var missions := GenerateDailyMissions(OrInt(st.level, 1), today);
      rec := rec.(dailyMissions := missions, dailyWorlds := 0, lastDailyDate := Some(today));
      st := st.(dailyQuestsDone := 0, dailyQuestsTotal := |missions|, travelWorlds := 0);
    }
    st := st.(missions := rec.dailyMissions, lastDailyDate := rec.lastDailyDate, travelWorlds := rec.dailyWorlds);
    rec := rec.(state := Some(st));
  }

  /** The in-place updates api.js makes to a saved world's record. */
  method ApiAccrue(o: WorldRecord, now: int, today: string) returns (rec: WorldRecord, gain: int)
    requires o.state.Some?
    ensures ApiServed(o, rec, now, today)
    ensures gain == ApiAccrualGain(o.state.value.profitHour, o.lastUpdate, now)
  {
    rec := o;
    var st := rec.state.value;
    gain := ApiAccrualGain(st.profitHour, rec.lastUpdate, now);
    if gain > 0 {
      st := st.(coins := OrInt(st.coins, 0) + gain);
      rec := rec.(lastUpdate := now);
    }
    if ApiNeedsRefresh(rec.lastDailyDate, today) {
      var missions := GenerateDailyMissions(OrInt(st.level, 1), today);
      rec := rec.(lastDailyDate := Some(today), dailyMissions := missions, dailyWorlds := 0);
    }
    st := st.(missions := rec.dailyMissions, lastDailyDate := rec.lastDailyDate, travelWorlds := rec.dailyWorlds);
    rec := rec.(state := Some(st));
  }

  /** The worlds in the database's key order, as `Object.values(db.worlds)`
      lists them. */
  function WorldValues(order: seq<string>, worlds: map<string, WorldRecord>): (r: seq<WorldRecord>)
    requires forall i :: 0 <= i < |order| ==> order[i] in worlds
    ensures |r| == |order|
    ensures forall i :: 0 <= i < |order| ==> r[i] == worlds[order[i]]
  {
    if order == [] then [] else [worlds[order[0]]] + WorldValues(order[1..], worlds)
  }
}
