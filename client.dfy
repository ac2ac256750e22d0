/** The world state the mini-app keeps in the browser and the rules that
    change it: choosing an archetype, gaining experience, completing a
    mission, using a boost, the passive energy regeneration, the outcome of a
    battle and the daily missions. Each rule updates the one shared
    `worldState` object in place, so the state is a class and each rule a
    method on it. Random rolls and the day key are parameters. */
module Client {
  import opened Common
  import opened Missions

  datatype Boost = Boost(id: string, title: string, desc: string, costCoins: int, effect: string, used: bool)

  /** The figures `gainXp` updates. */
  datatype Progress = Progress(xp: int, level: int, nextLevelXp: int, energyMax: int, profitHour: int)

  /** The outcome of pressing the battle button. */
  datatype BattleResult = Refused | Fought(win: bool, leftHp: int, rightHp: int)

  /** The two boosts a new world starts with: +25% energy for 2000 coins and
      +20% income for 3500, both unused. */
  const StartingBoosts: seq<Boost> := [
    Boost("b1", "Энергетический импульс", "Мгновенно восстановить 25% энергии.", 2000, "energy", false),
    Boost("b2", "Финансовый резонанс", "Временно увеличить прибыль в час на 20%.", 3500, "profit", false)
  ]

  /** The energy a battle needs. */
  const BattleEnergy: int := 40

  /** `gainXp`'s loop as a recursive definition: while the experience covers
      the next level, pay for it and level up. */
  function Settle(p: Progress): Progress
    requires p.nextLevelXp >= 1
    decreases p.xp
  {
    if p.xp < p.nextLevelXp then p
    else Settle(LevelUp(p))
  }

  /** One level up: `nextLevelXp * 1.35` and `profitHour * 1.08`, floored,
      and 40 more maximum energy. */
  function LevelUp(p: Progress): (q: Progress)
    requires p.nextLevelXp >= 1
    ensures q.nextLevelXp >= p.nextLevelXp >= 1
  {
    Progress(p.xp - p.nextLevelXp, p.level + 1, (p.nextLevelXp * 135) / 100,
             p.energyMax + 40, (p.profitHour * 108) / 100)
  }

  /** After `gainXp` the experience is below the next threshold, the level has
      grown by some number of level-ups, the maximum energy by 40 for each, and
      income and experience have not turned negative. */
  lemma {:induction false} SettleFacts(p: Progress)
    requires p.nextLevelXp >= 1
    ensures var q := Settle(p);
      && q.xp < q.nextLevelXp
      && q.nextLevelXp >= p.nextLevelXp
      && q.level >= p.level
      && q.energyMax == p.energyMax + 40 * (q.level - p.level)
      && (p.xp >= 0 ==> q.xp >= 0)
      && (p.profitHour >= 0 ==> q.profitHour >= p.profitHour)
    ensures p.xp < p.nextLevelXp <==> Settle(p) == p
    decreases p.xp
  {
    if p.xp >= p.nextLevelXp {
      var n := LevelUp(p);
      SettleFacts(n);
      assert Settle(p) == Settle(n);
      assert Settle(p).level > p.level;
    }
  }

  /** The index of the first boost whose id is `id`, as the boost lookup finds
      it. `Missions.FindMission` is the same search over the missions. */
  function FindBoost(boosts: seq<Boost>, id: string): (r: Option<nat>)
    ensures r.Some? ==> (r.value < |boosts| && boosts[r.value].id == id
                         && forall k :: 0 <= k < r.value ==> boosts[k].id != id)
    ensures r.None? ==> forall k :: 0 <= k < |boosts| ==> boosts[k].id != id
  {
    if boosts == [] then None
    else if boosts[0].id == id then Some(0)
    else match FindBoost(boosts[1..], id)
      case None => None
      case Some(k) => Some(k + 1)
  }

  /** A battle hp: 100 less a random whole number below 70. */
  function BattleHp(roll: real): (hp: int)
    requires 0.0 <= roll < 1.0
    ensures 31 <= hp <= 100
  {
    100 - RandomIndex(roll, 70)
  }

  class WorldState {
    var name: string
    var level: int
    var xp: int
    var nextLevelXp: int
    var energyNow: int
    var energyMax: int
    var profitHour: int
    var chaos: int
    var order: int
    var coins: int
    var dailyQuestsDone: int
    var dailyQuestsTotal: int
    var travelWorlds: int
    var lastDailyDate: Option<string>
    var missions: seq<Mission>
    var boosts: seq<Boost>
    var archetype: Option<string>

    function ProgressNow(): Progress
      reads this
    {
      Progress(xp, level, nextLevelXp, energyMax, profitHour)
    }

    /** What every rule keeps: energy within its maximum, chaos a percentage
        with order its complement, no negative coins or income, a positive
        level threshold, and the quest counters matching the missions. */
    ghost predicate Valid()
      reads this
    {
      && level >= 1 && nextLevelXp >= 1
      && 0 <= energyNow <= energyMax
      && 0 <= chaos <= 100 && order == 100 - chaos
      && coins >= 0 && profitHour >= 0
      && (forall i :: 0 <= i < |missions| ==> MissionOk(missions[i]))
      && (forall i :: 0 <= i < |boosts| ==> boosts[i].costCoins >= 0)
      && dailyQuestsDone == DoneCount(missions)
      && dailyQuestsTotal == |missions|
    }

    /** The state the app starts with. */
    constructor ()
      ensures Valid()
      ensures level == 7 && xp == 1200 && nextLevelXp == 2000
      ensures energyNow == 860 && energyMax == 1000 && profitHour == 4320
      ensures chaos == 62 && order == 38 && coins == 493232
      ensures missions == [] && lastDailyDate == None && archetype == None
      ensures name == "Magotech Grad" && travelWorlds == 3 && dailyQuestsDone == 0 && dailyQuestsTotal == 0
      ensures boosts == StartingBoosts && !boosts[0].used && !boosts[1].used
    {
      name := "Magotech Grad";
      level := 7;
      xp := 1200;
      nextLevelXp := 2000;
      energyNow := 860;
      energyMax := 1000;
      profitHour := 4320;
      chaos := 62;
      order := 38;
      coins := 493232;
      dailyQuestsDone := 0;
      dailyQuestsTotal := 0;
      travelWorlds := 3;
      lastDailyDate := None;
      missions := [];
      boosts := StartingBoosts;
      archetype := None;
    }

    /** `applyArchetype(arch)`: the archetype is recorded, and the three known
        ones reset energy (full), income, chaos and order. */
    method ApplyArchetype(arch: string)
      requires Valid()
      modifies this`archetype, this`energyMax, this`energyNow, this`profitHour, this`chaos, this`order
      ensures Valid()
      ensures archetype == Some(arch)
      ensures arch == "tech" ==> energyMax == 900 && energyNow == 900 && profitHour == 5200 && chaos == 45
      ensures arch == "harmony" ==> energyMax == 1000 && energyNow == 1000 && profitHour == 4500 && chaos == 50
      ensures arch == "chaos" ==> energyMax == 1200 && energyNow == 1200 && profitHour == 4800 && chaos == 65
      ensures arch != "tech" && arch != "harmony" && arch != "chaos" ==>
        energyMax == old(energyMax) && energyNow == old(energyNow)
        && profitHour == old(profitHour) && chaos == old(chaos) && order == old(order)
    {
      archetype := Some(arch);
      if arch == "tech" {
        energyMax, energyNow, profitHour, chaos, order := 900, 900, 5200, 45, 55;
      } else if arch == "harmony" {
        energyMax, energyNow, profitHour, chaos, order := 1000, 1000, 4500, 50, 50;
      } else if arch == "chaos" {
        energyMax, energyNow, profitHour, chaos, order := 1200, 1200, 4800, 65, 35;
      }
    }

    /** `gainXp(amount)`: adds the experience, then levels up while it covers
        the next threshold. */
    method GainXp(amount: int)
      requires Valid()
      modifies this`xp, this`level, this`nextLevelXp, this`energyMax, this`profitHour
      ensures Valid()
      ensures ProgressNow() == Settle(old(ProgressNow()).(xp := old(xp) + amount))
      ensures xp < nextLevelXp
    {
      xp := xp + amount;
      ghost var start := ProgressNow();
      while xp >= nextLevelXp
        invariant nextLevelXp >= 1 && level >= 1 && profitHour >= 0
        invariant energyMax >= old(energyMax)
        invariant Settle(ProgressNow()) == Settle(start)
        decreases xp
      {
        xp := xp - nextLevelXp;
        level := level + 1;
        nextLevelXp := (nextLevelXp * 135) / 100;
        energyMax := energyMax + 40;
        profitHour := (profitHour * 108) / 100;
      }
    }

    /** `completeMission(id)`: nothing happens for a missing or done mission
        or when energy is short; otherwise energy pays for the mission, coins
        and experience are rewarded, the mission is marked done, one more
        daily quest counts as done, and chaos drops by 2. */
    method CompleteMission(id: string)
      requires Valid()
      modifies this`energyNow, this`coins, this`xp, this`level, this`nextLevelXp, this`energyMax,
               this`profitHour, this`missions, this`dailyQuestsDone, this`chaos, this`order
      ensures Valid()
      ensures var k := FindMission(old(missions), id);
        if k.None? || old(missions[k.value].done) || old(energyNow) < old(missions[k.value].energyCost) then
          unchanged(this)
        else
          var m := old(missions[k.value]);
          && energyNow == old(energyNow) - m.energyCost
          && coins == old(coins) + m.rewardCoins
          && ProgressNow() == Settle(old(ProgressNow()).(xp := old(xp) + m.rewardXp))
          && missions == old(missions)[k.value := m.(done := true)]
          && dailyQuestsDone == old(dailyQuestsDone) + 1
          && chaos == Max(0, old(chaos) - 2) && order == 100 - chaos
          && boosts == old(boosts) && lastDailyDate == old(lastDailyDate)
    {
      var k := FindMission(missions, id);
      if k.None? || missions[k.value].done {
        return;
      }
      if energyNow < missions[k.value].energyCost {
        return;
      }
      Accomplish(k.value);
    }

    /** The successful part of `completeMission` for the `k`-th mission. */
    method Accomplish(k: nat)
      requires Valid()
      requires k < |missions| && !missions[k].done && energyNow >= missions[k].energyCost
      modifies this`energyNow, this`coins, this`xp, this`level, this`nextLevelXp, this`energyMax,
               this`profitHour, this`missions, this`dailyQuestsDone, this`chaos, this`order
      ensures Valid()
      ensures var m := old(missions[k]);
        && energyNow == old(energyNow) - m.energyCost
        && coins == old(coins) + m.rewardCoins
        && ProgressNow() == Settle(old(ProgressNow()).(xp := old(xp) + m.rewardXp))
        && missions == old(missions)[k := m.(done := true)]
        && dailyQuestsDone == old(dailyQuestsDone) + 1
        && chaos == Max(0, old(chaos) - 2) && order == 100 - chaos
    {
      var mission := missions[k];
      energyNow := energyNow - mission.energyCost;
      coins := coins + mission.rewardCoins;
      GainXp(mission.rewardXp);
      MarkDone(k);
    }

    /** The mission flagged done, the done count recomputed, and chaos down by 2. */
    method MarkDone(k: nat)
      requires Valid() && k < |missions| && !missions[k].done
      modifies this`missions, this`dailyQuestsDone, this`chaos, this`order
      ensures Valid()
      ensures missions == old(missions)[k := old(missions[k]).(done := true)]
      ensures dailyQuestsDone == old(dailyQuestsDone) + 1
      ensures chaos == Max(0, old(chaos) - 2) && order == 100 - chaos
    {
      MarkDoneCount(missions, k);
      missions := missions[k := missions[k].(done := true)];
      dailyQuestsDone := DoneCount(missions);
      chaos := Max(0, chaos - 2);
      order := 100 - chaos;
    }

    /** `useBoost(id)`: nothing happens for a missing or used boost or when
        coins are short; otherwise the cost is paid, the boost takes effect
        (a quarter of the maximum energy, capped at the maximum, or 20% more
        income) and it is marked used, so it applies at most once. */
    method UseBoost(id: string)
      requires Valid()
      modifies this`coins, this`energyNow, this`profitHour, this`boosts
      ensures Valid()
      ensures var k := FindBoost(old(boosts), id);
        if k.None? || old(boosts[k.value].used) || old(coins) < old(boosts[k.value].costCoins) then
          unchanged(this)
        else
          var b := old(boosts[k.value]);
          && coins == old(coins) - b.costCoins
          && boosts == old(boosts)[k.value := b.(used := true)]
          && (b.effect == "energy" ==> energyNow == Min(energyMax, old(energyNow) + energyMax / 4))
          && (b.effect != "energy" ==> energyNow == old(energyNow))
          && (b.effect == "profit" ==> profitHour == (old(profitHour) * 12) / 10)
          && (b.effect != "profit" ==> profitHour == old(profitHour))
          && energyMax == old(energyMax) && missions == old(missions)
    {
      var k := FindBoost(boosts, id);
      if k.None? || boosts[k.value].used {
        return;
      }
      var boost := boosts[k.value];
      if coins < boost.costCoins {
        return;
      }
      coins := coins - boost.costCoins;
      if boost.effect == "energy" {
        var add := (energyMax * 25) / 100;
        energyNow := Min(energyMax, energyNow + add);
      }
      if boost.effect == "profit" {
        profitHour := (profitHour * 12) / 10;
      }
      boosts := boosts[k.value := boost.(used := true)];
    }

    /** The 15-second regeneration tick: 5 energy, never past the maximum. */
    method RegenTick()
      requires Valid()
      modifies this`energyNow
      ensures Valid()
      ensures old(energyNow) < energyMax ==> energyNow == Min(energyMax, old(energyNow) + 5)
      ensures old(energyNow) >= energyMax ==> energyNow == old(energyNow)
      ensures old(energyNow) <= energyNow <= energyMax
    {
      if energyNow < energyMax {
        energyNow := Min(energyMax, energyNow + 5);
      }
    }

    /** The battle button: refused below 40 energy; otherwise two hp rolls,
        a tie broken against the opponent, and the winner is the side with
        more hp. A win pays 3500 coins, costs 80 energy and 3 chaos and gives
        180 experience; a loss costs 50 energy, adds 4 chaos and gives 90. */
    method Battle(leftRoll: real, rightRoll: real) returns (result: BattleResult)
      requires Valid()
      requires 0.0 <= leftRoll < 1.0 && 0.0 <= rightRoll < 1.0
      modifies this`coins, this`energyNow, this`chaos, this`order,
               this`xp, this`level, this`nextLevelXp, this`energyMax, this`profitHour
      ensures Valid()
      ensures result.Refused? <==> old(energyNow) < BattleEnergy
      ensures result.Refused? ==> unchanged(this)
      ensures result.Fought? ==>
        && result.leftHp != result.rightHp
        && (result.win <==> result.leftHp > result.rightHp)
        && result.leftHp == BattleHp(leftRoll)
        && result.rightHp == BattleHp(rightRoll) - (if BattleHp(leftRoll) == BattleHp(rightRoll) then 5 else 0)
        && order == 100 - chaos
        && missions == old(missions) && boosts == old(boosts)
      ensures result.Fought? && result.win ==>
        && coins == old(coins) + 3500
        && energyNow == Max(0, old(energyNow) - 80)
        && chaos == Max(0, old(chaos) - 3)
        && ProgressNow() == Settle(old(ProgressNow()).(xp := old(xp) + 180))
      ensures result.Fought? && !result.win ==>
        && coins == old(coins)
        && energyNow == Max(0, old(energyNow) - 50)
        && chaos == Min(100, old(chaos) + 4)
        && ProgressNow() == Settle(old(ProgressNow()).(xp := old(xp) + 90))
    {
      if energyNow < BattleEnergy {
        return Refused;
      }
      var leftHp := BattleHp(leftRoll);
      var rightHp := BattleHp(rightRoll);
      if leftHp == rightHp {
        rightHp := rightHp - 5;
      }
      var win := leftHp > rightHp;
      if win {
        coins := coins + 3500;
        energyNow := Max(0, energyNow - 80);
        chaos := Max(0, chaos - 3);
        order := 100 - chaos;
        GainXp(180);
      } else {
        energyNow := Max(0, energyNow - 50);
        chaos := Min(100, chaos + 4);
        order := 100 - chaos;
        GainXp(90);
      }
      result := Fought(win, leftHp, rightHp);
    }

    /** `generateDailyMissions()` of the client: nothing on a day that already
        has missions; otherwise the day's three undone missions, none done. */
    method GenerateDailyMissions(today: string)
      requires Valid()
      modifies this`lastDailyDate, this`missions, this`dailyQuestsDone, this`dailyQuestsTotal
      ensures Valid()
      ensures old(lastDailyDate) == Some(today) && old(|missions|) > 0 ==>
        missions == old(missions) && lastDailyDate == old(lastDailyDate) && dailyQuestsDone == old(dailyQuestsDone)
      ensures !(old(lastDailyDate) == Some(today) && old(|missions|) > 0) ==>
        && lastDailyDate == Some(today)
        && missions == ClientDailyMissions(level, today)
        && dailyQuestsDone == 0 && dailyQuestsTotal == DailyCount
    {
      if lastDailyDate == Some(today) && |missions| > 0 {
        return;
      }
      var daily := ClientMissionList(level, today);
      NoneDone(daily);
      lastDailyDate, missions, dailyQuestsDone, dailyQuestsTotal := Some(today), daily, 0, |daily|;
    }
  }

  /** The loop of the client's `generateDailyMissions`: one mission per
      template slot, each with the client's `_d` id. */
  method ClientMissionList(level: int, today: string) returns (missions: seq<Mission>)
    ensures missions == ClientDailyMissions(level, today)
    ensures |missions| == DailyCount
    ensures forall j :: 0 <= j < |missions| ==> !missions[j].done
    ensures level >= 0 ==> forall j :: 0 <= j < |missions| ==> MissionOk(missions[j])
  {
    missions := [];
    for i := 0 to DailyCount
      invariant |missions| == i
      invariant forall j :: 0 <= j < i ==> missions[j] == DailyMission(level, j, ClientMissionId(j, today))
      invariant level >= 0 ==> forall j :: 0 <= j < i ==> MissionOk(missions[j])
    {
      if level >= 0 {
        DailyMissionsOk(level, i, ClientMissionId(i, today));
      }
      missions := missions + [DailyMission(level, i, ClientMissionId(i, today))];
    }
  }
}
