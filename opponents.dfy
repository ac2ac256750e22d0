/** The snapshots the matchmaking queue hands out: an opponent built from a
    saved world, the requester's own snapshot, and a random opponent that
    falls back to a roster bot when no other world exists. The random index
    is a parameter, `roll`, standing for `Math.random()`. */
module Opponents {
  import opened Common
  import opened Ratings
  import opened Ledger

  datatype Snapshot = Snapshot(
    userId: string, codename: string, avatar: string, worldName: string, archetype: string,
    rating: int, wins: int, losses: int, level: int, energy: int, regen: int, power: int,
    isBot: bool)

  const DefaultAvatar: string := "\U{1F6F0}\U{FE0F}"
  const UnknownWorld: string := "Неизвестный мир"
  const DefaultCodename: string := "Пилот"

  /** The roster used when no other player has a world. */
  const Roster: seq<Snapshot> := [
    Snapshot("bot_zenith", "ZENITH", "\U{1F6E1}\U{FE0F}", "Осколок Гармонии", "harmony",
             1350, 18, 4, 12, 980, 14, 38, false),
    Snapshot("bot_nebula", "NEBULA", "\U{1FA90}", "Туманность Архива", "tech",
             1290, 10, 3, 10, 860, 12, 34, false),
    Snapshot("bot_rogue", "ROGUE-13", "\U{1F525}", "Рубеж Хаоса", "chaos",
             1210, 8, 6, 9, 920, 11, 32, false)
  ]

  function RatingOf(ranking: Option<Ranking>): int {
    if ranking.Some? then OrInt(ranking.value.rating, DefaultRating) else DefaultRating
  }

  function WinsOf(ranking: Option<Ranking>): int {
    if ranking.Some? then ranking.value.wins else 0
  }

  function LossesOf(ranking: Option<Ranking>): int {
    if ranking.Some? then ranking.value.losses else 0
  }

  /** `db.rankings[userId]`, possibly missing. */
  function Lookup(rankings: map<string, Ranking>, userId: string): Option<Ranking> {
    if userId in rankings then Some(rankings[userId]) else None
  }

  /** `buildOpponentFromWorld(record, ranking)`: nothing for a world never
      saved; otherwise the world's owner with its figures, regen at least 5
      and power at least 20. */
  function OpponentFromWorld(rec: WorldRecord, ranking: Option<Ranking>): (r: Option<Snapshot>)
    ensures r.None? <==> rec.state.None?
    ensures r.Some? ==> r.value.userId == rec.userId && !r.value.isBot
    ensures r.Some? ==> r.value.regen >= 5 && r.value.power >= 20
    ensures r.Some? ==> r.value.rating == RatingOf(ranking)
  {
    match rec.state
    case None => None
    case Some(st) =>
      var codename := OrStr(st.profile.displayName, OrStr(st.name, DefaultCodename));
      Some(Snapshot(
        rec.userId, codename, OrStr(st.profile.avatarEmoji, DefaultAvatar),
        OrStr(st.name, UnknownWorld), OrStr(st.archetype, "tech"),
        RatingOf(ranking), WinsOf(ranking), LossesOf(ranking),
        OrInt(st.level, 1), OrInt(st.energyMax, 1000),
        Max(5, Round(OrInt(st.energyMax, 800) as real / 80.0)),
        Max(20, Round(OrInt(st.level, 1) as real * 4.2 + OrInt(st.chaos, 0) as real * 0.1)),
        false))
  }

  /** Upper-casing of the ASCII letters: each of `a`..`z` becomes its
      capital, every other character stays. */
  function Upper(s: string): (r: string)
    ensures |r| == |s|
    ensures forall i :: 0 <= i < |s| ==> r[i] == (if 'a' <= s[i] <= 'z' then (s[i] as int - 32) as char else s[i])
  {
    if s == [] then []
    else [if 'a' <= s[0] <= 'z' then (s[0] as int - 32) as char else s[0]] + Upper(s[1..])
  }

  /** The last four characters of an id, or all of a shorter one. */
  function LastFour(s: string): (r: string)
    ensures |r| == Min(|s|, 4)
    ensures r == s[|s| - |r|..]
  {
    if |s| <= 4 then s else s[|s| - 4..]
  }

  /** `buildPlayerSnapshot(userId)` after `ensureWorld`: the opponent built
      from the requester's own world, or, for a world never saved, a pilot
      named after the id's last four characters with the starting figures. */
  function PlayerSnapshot(userId: string, rec: WorldRecord, ranking: Option<Ranking>): (r: Snapshot)
    ensures !r.isBot && r.regen >= 5 && r.power >= 20
    ensures rec.userId == userId ==> r.userId == userId
    ensures rec.state.Some? ==> Some(r) == OpponentFromWorld(rec, ranking)
    ensures rec.state.None? ==>
      && r.userId == userId && r.codename == "PILOT-" + Upper(LastFour(userId))
      && r.level == 1 && r.energy == 900 && r.regen == 9 && r.power == 24
  {
    var opponent := OpponentFromWorld(rec, ranking);
    if opponent.Some? then opponent.value
    else
      Snapshot(
        userId, "PILOT-" + Upper(LastFour(userId)), DefaultAvatar, UnknownWorld, "tech",
        RatingOf(ranking), WinsOf(ranking), LossesOf(ranking),
        1, 900,
        Max(5, Round(800 as real / 90.0)),
        Max(24, Round(1.0 * 3.5 + 18.0)),
        false)
  }

  /** The worlds `pickRandomOpponent` may choose from: other users' worlds
      that have a state, in enumeration order. */
  function Candidates(worlds: seq<WorldRecord>, userId: string): (r: seq<WorldRecord>)
    ensures |r| <= |worlds|
    ensures forall w :: w in r <==> w in worlds && w.userId != userId && w.state.Some?
  {
    if worlds == [] then []
    else
      var rest := Candidates(worlds[1..], userId);
      if worlds[0].userId != userId && worlds[0].state.Some? then [worlds[0]] + rest else rest
  }

  /** `pickRandomOpponent(userId)`: a random candidate, or a random roster bot
      marked as a bot when there is none. */
  function PickRandomOpponent(worlds: seq<WorldRecord>, rankings: map<string, Ranking>,
                              userId: string, roll: real): (r: Snapshot)
    requires 0.0 <= roll < 1.0
    ensures r.isBot <==> Candidates(worlds, userId) == []
    ensures r.isBot ==> exists i :: 0 <= i < |Roster| && r == Roster[i].(isBot := true)
    ensures !r.isBot ==> r.userId != userId
    ensures !r.isBot ==> exists w :: w in worlds && w.userId == r.userId && w.state.Some?
    ensures !r.isBot ==> exists w :: w in Candidates(worlds, userId) && w.state.Some?
                                     && r == OpponentFromWorld(w, Lookup(rankings, w.userId)).value
    ensures r.regen >= 5 && r.power >= 20
  {
    var candidates := Candidates(worlds, userId);
    if |candidates| > 0 then
      var candidate := candidates[RandomIndex(roll, |candidates|)];
      assert candidate in candidates;
      OpponentFromWorld(candidate, Lookup(rankings, candidate.userId)).value
    else
      Roster[RandomIndex(roll, |Roster|)].(isBot := true)
  }
}
