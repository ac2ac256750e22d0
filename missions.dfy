/** Daily missions: the four templates and the three missions built from
    them each day, with rewards scaled by the world's level. The server
    (index.js and api.js) and the client (main.js) build the same missions
    and differ only in the mission id. */
module Missions {
  import opened Common

  datatype Template = Template(id: string, title: string, desc: string,
                               baseCoins: int, baseXp: int, baseEnergy: int)

  datatype Mission = Mission(id: string, title: string, desc: string,
                             rewardCoins: int, rewardXp: int, energyCost: int, done: bool)

  const Templates: seq<Template> := [
    Template("stabilize_flow", "Стабилизировать магический поток",
             "Снизить уровень хаоса, проведя ритуал калибровки.", 800, 120, 60),
    Template("send_expedition", "Отправить экспедицию в соседний мир",
             "Разведать аномалию в соседних слоях MetaWorlds.", 1200, 160, 90),
    Template("fortify_core", "Укрепить кристальный кодекс",
             "Повысить устойчивость ядра мира и уменьшить хаос.", 1500, 220, 120),
    Template("trade_hub", "Запустить торговый узел",
             "Наладить обмен ресурсами с соседними мирами.", 2000, 260, 130)
  ]

  /** How many missions a day brings. */
  const DailyCount: nat := 3

  /** The base reward scaled by 1 + 0.15 per level and floored, in exact arithmetic. */
  function LevelScaled(base: int, level: int): int {
    (base * (100 + 15 * level)) / 100
  }

  /** The base cost scaled by 0.8 + 0.1 per slot index and floored, in exact arithmetic. */
  function CostScaled(base: int, i: nat): int {
    (base * (8 + i)) / 10
  }

  /** The `i`-th mission of a day, from template `i mod 4`. */
  function DailyMission(level: int, i: nat, id: string): Mission {
    var tpl := Templates[i % |Templates|];
    Mission(id, tpl.title, tpl.desc, LevelScaled(tpl.baseCoins, level),
            LevelScaled(tpl.baseXp, level), CostScaled(tpl.baseEnergy, i), false)
  }

  /** The server's id: `${tpl.id}_${today}_${i}`. */
  function ServerMissionId(i: nat, today: string): string
    requires i < 10
  {
    Templates[i % |Templates|].id + "_" + today + "_" + DigitText(i)
  }

  /** The client's id: `tpl.id + "_d" + today + "_" + i`. */
  function ClientMissionId(i: nat, today: string): string
    requires i < 10
  {
    Templates[i % |Templates|].id + "_d" + today + "_" + DigitText(i)
  }

  /** The day's missions on the server, all three at once. */
  function ServerDailyMissions(level: int, today: string): seq<Mission> {
    seq(DailyCount, i requires 0 <= i < DailyCount => DailyMission(level, i, ServerMissionId(i, today)))
  }

  /** The day's missions on the client, whose ids carry a `d` before the date. */
  function ClientDailyMissions(level: int, today: string): seq<Mission> {
    seq(DailyCount, i requires 0 <= i < DailyCount => DailyMission(level, i, ClientMissionId(i, today)))
  }

  /** A mission a world can hold: no negative reward or cost. */
  predicate MissionOk(m: Mission) {
    m.rewardCoins >= 0 && m.rewardXp >= 0 && m.energyCost >= 0
  }

  /** From level 0 on, every daily mission is one a world can hold, and none
      is done yet. */
  lemma DailyMissionsOk(level: int, i: nat, id: string)
    requires level >= 0
    ensures MissionOk(DailyMission(level, i, id)) && !DailyMission(level, i, id).done
  {
    var tpl := Templates[i % |Templates|];
    RewardsGrowWithLevel(tpl.baseCoins, level, level);
    RewardsGrowWithLevel(tpl.baseXp, level, level);
  }

  /** `generateDailyMissions(level)` of the server: a push loop. */
  method GenerateDailyMissions(level: int, today: string) returns (missions: seq<Mission>)
    ensures missions == ServerDailyMissions(level, today)
    ensures |missions| == DailyCount
    ensures forall i :: 0 <= i < |missions| ==>
      && missions[i].title == Templates[i % 4].title
      && missions[i].desc == Templates[i % 4].desc
      && !missions[i].done
  {
    missions := [];
    for i := 0 to DailyCount
      invariant |missions| == i
      invariant forall k :: 0 <= k < i ==> missions[k] == DailyMission(level, k, ServerMissionId(k, today))
    {
      missions := missions + [DailyMission(level, i, ServerMissionId(i, today))];
    }
  }

  /** At level 0 or above, rewards are at least the template's base and grow
      with the level. */
  lemma RewardsGrowWithLevel(base: int, level: int, higher: int)
    requires base >= 0 && 0 <= level <= higher
    ensures base <= LevelScaled(base, level) <= LevelScaled(base, higher)
  {
    assert base * (100 + 15 * level) <= base * (100 + 15 * higher) by {
      assert base * (100 + 15 * higher) - base * (100 + 15 * level) == 15 * base * (higher - level);
    }
    assert base * 100 <= base * (100 + 15 * level);
  }

  /** The three ids of a day are distinct: they end in different digits. */
  lemma DailyIdsDistinct(i: nat, j: nat, today: string)
    requires i < 10 && j < 10 && i != j
    ensures ServerMissionId(i, today) != ServerMissionId(j, today)
    ensures ClientMissionId(i, today) != ClientMissionId(j, today)
  {
    var a, b := ServerMissionId(i, today), ServerMissionId(j, today);
    assert a[|a| - 1] == DigitText(i)[0] != DigitText(j)[0] == b[|b| - 1];
    var c, d := ClientMissionId(i, today), ClientMissionId(j, today);
    assert c[|c| - 1] == DigitText(i)[0] != DigitText(j)[0] == d[|d| - 1];
  }

  /** The number of missions flagged done. */
  function DoneCount(missions: seq<Mission>): (n: nat)
    ensures n <= |missions|
  {
    if missions == [] then 0
    else (if missions[0].done then 1 else 0) + DoneCount(missions[1..])
  }

  /** The index of the first mission whose id is `id`, as the mission lookup
      finds it. `Client.FindBoost` is the same search over the boosts. */
  function FindMission(missions: seq<Mission>, id: string): (r: Option<nat>)
    ensures r.Some? ==> (r.value < |missions| && missions[r.value].id == id
                         && forall k :: 0 <= k < r.value ==> missions[k].id != id)
    ensures r.None? ==> forall k :: 0 <= k < |missions| ==> missions[k].id != id
  {
    if missions == [] then None
    else if missions[0].id == id then Some(0)
    else match FindMission(missions[1..], id)
      case None => None
      case Some(k) => Some(k + 1)
  }

  /** No mission of a fresh list is done. */
  lemma {:induction false} NoneDone(missions: seq<Mission>)
    requires forall i :: 0 <= i < |missions| ==> !missions[i].done
    ensures DoneCount(missions) == 0
  {
    if missions != [] {
      NoneDone(missions[1..]);
    }
  }

  /** Marking one undone mission done raises the done count by exactly one. */
  lemma {:induction false} MarkDoneCount(missions: seq<Mission>, k: nat)
    requires k < |missions| && !missions[k].done
    ensures DoneCount(missions[k := missions[k].(done := true)]) == DoneCount(missions) + 1
  {
    var after := missions[k := missions[k].(done := true)];
    if k > 0 {
      MarkDoneCount(missions[1..], k - 1);
      assert after[1..] == missions[1..][k - 1 := missions[k].(done := true)];
    } else {
      assert after[1..] == missions[1..];
    }
  }
}
