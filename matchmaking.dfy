/** The matchmaking long-poll queue of api.js. `GET /api/matchmaking` either
    pairs the requester at once with the oldest waiting player or parks the
    request in `waitingPlayers` until a partner arrives, its timer fires (the
    requester then gets a random opponent) or the client goes away.

    A request, a timer firing and a connection closing are each one JavaScript
    callback, so each is one method here. Clocks and randomness are
    parameters: `Math.random()` becomes a `roll` in [0, 1) and the generated
    match id is passed in. */
module Matchmaking {
  import opened Common
  import opened Ratings
  import opened Ledger
  import opened Opponents

  datatype Payload =
    | MatchFound(opponent: Snapshot, etaSeconds: int, matchId: string, matched: bool)
    | Failure(error: string)

  /** What `sendJson` writes: a status and a JSON body. */
  datatype Delivery = Delivery(status: int, payload: Payload)

  /** An HTTP response handle. `ended` is Node's `writableEnded`; `sent` lists
      the replies written to it. */
  class Response {
    var ended: bool
    var sent: seq<Delivery>

    /** A response carries no reply until it ends, and exactly one after. */
    ghost predicate Valid()
      reads this
    {
      (!ended && sent == []) || (ended && |sent| == 1)
    }

    constructor ()
      ensures Valid() && !ended && sent == []
    {
      ended := false;
      sent := [];
    }

    /** `sendJson(res, status, payload)`: Node refuses to write a response
        that has already ended, so every caller must know it has not. */
    method SendJson(status: int, payload: Payload)
      requires Valid() && !ended
      modifies this
      ensures Valid() && ended
      ensures sent == [Delivery(status, payload)]
    {
      sent := sent + [Delivery(status, payload)];
      ended := true;
    }
  }

  /** The `etaSeconds` of a reply: 1 for a real match, 2 to 4 for a fallback. */
  function Eta(matched: bool, roll: real): (eta: int)
    requires 0.0 <= roll < 1.0
    ensures matched ==> eta == 1
    ensures !matched ==> 2 <= eta <= 4
  {
    if matched then 1 else 2 + RandomIndex(roll, 3)
  }

  /** `respondMatch(res, opponent, matched)`: a response that has already
      ended is left alone; otherwise it gets the opponent. */
  method RespondMatch(res: Response, opponent: Snapshot, matched: bool, roll: real, matchId: string)
    requires 0.0 <= roll < 1.0
    requires res.Valid()
    modifies res
    ensures res.Valid() && res.ended
    ensures old(res.ended) ==> res.sent == old(res.sent)
    ensures !old(res.ended) ==> res.sent == [Delivery(200, MatchFound(opponent, Eta(matched, roll), matchId, matched))]
  {
    if res.ended {
      return;
    }
    var eta := Eta(matched, roll);
    res.SendJson(200, MatchFound(opponent, eta, matchId, matched));
  }

  /** An entry of `waitingPlayers`: a parked request. `armed` says whether its
      timer is still pending. */
  class Entry {
    const userId: string
    const res: Response
    const snapshot: Snapshot
    var armed: bool

    constructor (userId: string, res: Response, snapshot: Snapshot)
      ensures this.userId == userId && this.res == res && this.snapshot == snapshot
      ensures !armed
    {
      this.userId := userId;
      this.res := res;
      this.snapshot := snapshot;
      armed := false;
    }
  }

  /** The keys of the waiting map, in insertion order. */
  function KeysOf(q: seq<Entry>): (keys: seq<string>)
    ensures |keys| == |q|
    ensures forall i :: 0 <= i < |q| ==> keys[i] == q[i].userId
  {
    seq(|q|, i requires 0 <= i < |q| => q[i].userId)
  }

  function ResponsesOf(q: seq<Entry>): set<Response> {
    set i | 0 <= i < |q| :: q[i].res
  }

  function EntriesOf(q: seq<Entry>): set<Entry> {
    set i | 0 <= i < |q| :: q[i]
  }

  /** `q` without its `k`-th entry. */
  function Without(q: seq<Entry>, k: nat): (r: seq<Entry>)
    requires k < |q|
    ensures |r| == |q| - 1
    ensures forall j :: 0 <= j < k ==> r[j] == q[j]
    ensures forall j :: k <= j < |r| ==> r[j] == q[j + 1]
  {
    q[..k] + q[k + 1..]
  }

  /** The lookup of `key` in the waiting map: where its entry sits. */
  function IndexOfKey(keys: seq<string>, key: string): (r: Option<nat>)
    ensures r.Some? ==> r.value < |keys| && keys[r.value] == key
    ensures r.None? ==> key !in keys
  {
    if keys == [] then None
    else if keys[0] == key then Some(0)
    else match IndexOfKey(keys[1..], key)
      case None => None
      case Some(k) => Some(k + 1)
  }

  /** The first key that is not `exclude`: the entry `dequeueOpponent` takes. */
  function FirstOther(keys: seq<string>, exclude: string): (r: Option<nat>)
    ensures r.Some? ==> (r.value < |keys| && keys[r.value] != exclude
                         && forall j :: 0 <= j < r.value ==> keys[j] == exclude)
    ensures r.None? ==> forall j :: 0 <= j < |keys| ==> keys[j] == exclude
  {
    if keys == [] then None
    else if keys[0] != exclude then Some(0)
    else match FirstOther(keys[1..], exclude)
      case None => None
      case Some(k) => Some(k + 1)
  }

  /** Distinct keys: the waiting map holds one entry per user. */
  predicate DistinctKeys(keys: seq<string>) {
    forall i, j :: 0 <= i < j < |keys| ==> keys[i] != keys[j]
  }

  /** With distinct keys `exclude` occurs at most once, so the partner of a
      user who is not waiting is always the oldest entry, and there is one
      exactly when the queue is not empty. */
  lemma {:induction false} PartnerIsOldest(keys: seq<string>, exclude: string)
    requires DistinctKeys(keys)
    ensures exclude !in keys ==> (FirstOther(keys, exclude).Some? <==> keys != [])
    ensures exclude !in keys && keys != [] ==> FirstOther(keys, exclude) == Some(0)
    ensures exclude in keys ==> (FirstOther(keys, exclude).Some? <==> |keys| >= 2)
  {
    if exclude in keys && |keys| >= 2 {
      var k :| 0 <= k < |keys| && keys[k] == exclude;
      var other := if k == 0 then 1 else 0;
      assert keys[other] != exclude;
    }
  }

  /** Removing an entry keeps the keys distinct and drops exactly that entry. */
  lemma WithoutFacts(q: seq<Entry>, k: nat)
    requires k < |q| && DistinctKeys(KeysOf(q))
    ensures DistinctKeys(KeysOf(Without(q, k)))
    ensures forall e :: e in Without(q, k) <==> e in q && e != q[k]
    ensures ResponsesOf(Without(q, k)) <= ResponsesOf(q)
  {
    var r := Without(q, k);
    forall e | e in q && e != q[k] ensures e in r {
      var j :| 0 <= j < |q| && q[j] == e;
      if j < k { assert r[j] == e; } else { assert r[j - 1] == e; }
    }
    forall e | e in r ensures e in q && e != q[k] {
      var j :| 0 <= j < |r| && r[j] == e;
      if j < k {
        assert q[j] == e;
        assert KeysOf(q)[j] != KeysOf(q)[k];
      } else {
        assert q[j + 1] == e;
        assert KeysOf(q)[j + 1] != KeysOf(q)[k];
      }
    }
    forall x | x in ResponsesOf(r) ensures x in ResponsesOf(q) {
      var j :| 0 <= j < |r| && r[j].res == x;
      if j < k { assert q[j].res == x; } else { assert q[j + 1].res == x; }
    }
  }

  class Matchmaker {
    const db: Db
    var waiting: seq<Entry>
    /** Every entry ever parked; each timer belongs to one. */
    ghost var timers: set<Entry>

    function Keys(): seq<string>
      reads this
    {
      KeysOf(waiting)
    }

    ghost predicate Valid()
      reads this, db, timers, ResponsesOf(waiting)
    {
      && db.Valid()
      && DistinctKeys(Keys())
      && (forall i, j :: 0 <= i < j < |waiting| ==> waiting[i].res != waiting[j].res)
      && EntriesOf(waiting) <= timers
      && (forall e :: e in timers ==> (e.armed <==> e in waiting))
      && (forall i :: 0 <= i < |waiting| ==>
            waiting[i].userId != "" && waiting[i].res.Valid() && !waiting[i].res.ended)
    }

    constructor (db: Db)
      requires db.Valid()
      ensures Valid() && this.db == db && waiting == [] && timers == {}
    {
      this.db := db;
      waiting := [];
      timers := {};
    }

    /** `dequeueOpponent(excludeUserId)`: the oldest entry of another user,
        taken out of the queue with its timer cleared, or null. */
    method DequeueOpponent(exclude: string) returns (entry: Entry?)
      requires Valid()
      modifies EntriesOf(waiting), this`waiting
      ensures Valid()
      ensures var k := FirstOther(old(Keys()), exclude);
        && (k.None? <==> entry == null)
        && (k.None? ==> waiting == old(waiting))
        && (k.Some? ==> entry == old(waiting[k.value]) && waiting == old(Without(waiting, k.value)) && !entry.armed)
      ensures forall e :: e in old(waiting) && e != entry ==> e.armed == old(e.armed)
    {
      var i := 0;
      while i < |waiting|
        invariant 0 <= i <= |waiting| && waiting == old(waiting)
        invariant forall j :: 0 <= j < i ==> waiting[j].userId == exclude
      {
        var candidate := waiting[i];
        if candidate.userId != exclude {
          assert FirstOther(Keys(), exclude) == Some(i) by {
            FirstOtherAt(Keys(), exclude, i);
          }
          RemoveAt(i);
          return candidate;
        }
        i := i + 1;
      }
      return null;
    }

    /** `handleMatchmaking` for `userId` on the response `res`. A missing id
        gets 400 and a user already waiting 409, both leaving the queue as it
        was. Otherwise the requester pairs with the oldest waiting player, both
        getting the other's snapshot at once, or is parked with its timer set. */
    method Request(userId: string, res: Response, now: int, partnerMatchId: string, ownMatchId: string)
      requires Valid()
      requires res.Valid() && !res.ended && res !in ResponsesOf(waiting)
      modifies this, db`worlds, db`worldOrder, res, ResponsesOf(waiting), EntriesOf(waiting)
      ensures Valid()
      ensures userId == "" ==> res.sent == [Delivery(400, Failure("userId is required"))]
      ensures userId != "" && userId in old(Keys()) ==> res.sent == [Delivery(409, Failure("already_searching"))]
      ensures userId == "" || userId in old(Keys()) ==>
        && waiting == old(waiting) && unchanged(db)
        && forall e :: e in old(waiting) ==>
             (e.armed == old(e.armed) && e.res.sent == old(e.res.sent) && e.res.ended == old(e.res.ended))
      ensures userId != "" && userId !in old(Keys()) ==>
        && userId in db.worlds
        && (userId in old(db.worlds) ==> db.worlds == old(db.worlds) && db.worldOrder == old(db.worldOrder))
        && (userId !in old(db.worlds) ==>
              db.worlds == old(db.worlds)[userId := NewWorld(userId, now)]
              && db.worldOrder == old(db.worldOrder) + [userId])
        && var mine := PlayerSnapshot(userId, db.worlds[userId], Lookup(db.rankings, userId));
        && (old(waiting) != [] ==>
              var partner := old(waiting[0]);
              && waiting == old(waiting[1..])
              && !partner.armed
              && partner.res.sent == [Delivery(200, MatchFound(mine, 1, partnerMatchId, true))]
              && res.sent == [Delivery(200, MatchFound(partner.snapshot, 1, ownMatchId, true))]
              && forall e :: e in old(waiting) && e != partner ==>
                   (e.armed == old(e.armed) && e.res.sent == old(e.res.sent) && e.res.ended == old(e.res.ended)))
        && (old(waiting) == [] ==>
              && |waiting| == 1 && fresh(waiting[0])
              && waiting[0].userId == userId && waiting[0].res == res
              && waiting[0].snapshot == mine && waiting[0].armed
              && res.sent == [])
      ensures old(|waiting|) <= 1 ==> |waiting| <= 1
    {
      if userId == "" {
        res.SendJson(400, Failure("userId is required"));
        return;
      }
      if userId in Keys() {
        res.SendJson(409, Failure("already_searching"));
        return;
      }
      Admit(userId, res, now, partnerMatchId, ownMatchId);
    }

    /** A request that is neither rejected: the requester's snapshot is built,
        then it pairs with the oldest waiting player or is parked. */
    method Admit(userId: string, res: Response, now: int, partnerMatchId: string, ownMatchId: string)
      requires Valid()
      requires userId != "" && userId !in Keys()
      requires res.Valid() && !res.ended && res !in ResponsesOf(waiting)
      modifies this, db`worlds, db`worldOrder, res, ResponsesOf(waiting), EntriesOf(waiting)
      ensures Valid()
      ensures userId in db.worlds
        && (userId in old(db.worlds) ==> db.worlds == old(db.worlds) && db.worldOrder == old(db.worldOrder))
        && (userId !in old(db.worlds) ==>
              db.worlds == old(db.worlds)[userId := NewWorld(userId, now)]
              && db.worldOrder == old(db.worldOrder) + [userId])
        && var mine := PlayerSnapshot(userId, db.worlds[userId], Lookup(db.rankings, userId));
        && (old(waiting) != [] ==>
              var partner := old(waiting[0]);
              && waiting == old(waiting[1..])
              && !partner.armed
              && partner.res.sent == [Delivery(200, MatchFound(mine, 1, partnerMatchId, true))]
              && res.sent == [Delivery(200, MatchFound(partner.snapshot, 1, ownMatchId, true))])
        && (old(waiting) == [] ==>
              && |waiting| == 1 && fresh(waiting[0])
              && waiting[0].userId == userId && waiting[0].res == res
              && waiting[0].snapshot == mine && waiting[0].armed
              && res.sent == [])
      ensures old(|waiting|) <= 1 ==> |waiting| <= 1
    {
      var rec := db.EnsureWorld(userId, now);
      var mine := PlayerSnapshot(userId, rec, Lookup(db.rankings, userId));
      Seat(userId, res, mine, partnerMatchId, ownMatchId);
    }

    /** `dequeueOpponent(userId)` and what follows: a pairing with the oldest
        waiting player when there is one, else the requester is parked. */
    method Seat(userId: string, res: Response, mine: Snapshot, partnerMatchId: string, ownMatchId: string)
      requires Valid()
      requires userId != "" && userId !in Keys()
      requires res.Valid() && !res.ended && res !in ResponsesOf(waiting)
      modifies this`waiting, this`timers, res, ResponsesOf(waiting), EntriesOf(waiting)
      ensures Valid()
      ensures old(waiting) != [] ==>
        var partner := old(waiting[0]);
        && waiting == old(waiting[1..])
        && !partner.armed
        && partner.res.sent == [Delivery(200, MatchFound(mine, 1, partnerMatchId, true))]
        && res.sent == [Delivery(200, MatchFound(partner.snapshot, 1, ownMatchId, true))]
      ensures old(waiting) == [] ==>
        && |waiting| == 1 && fresh(waiting[0])
        && waiting[0].userId == userId && waiting[0].res == res
        && waiting[0].snapshot == mine && waiting[0].armed
        && res.sent == []
    {
      PartnerIsOldest(Keys(), userId);
      ghost var queue := waiting;
      var partner := DequeueOpponent(userId);
      if partner != null {
        assert partner == queue[0] && waiting == queue[1..];
        assert partner.res !in ResponsesOf(waiting) && res !in ResponsesOf(waiting) by {
          forall j | 0 <= j < |waiting| ensures waiting[j].res != partner.res && waiting[j].res != res {
            assert waiting[j] == queue[j + 1];
          }
        }
        Pair(partner, mine, res, partnerMatchId, ownMatchId);
        return;
      }
      assert waiting == queue == [];
      var entry := Park(userId, res, mine);
    }

    /** Both sides of a pairing get the other's snapshot with `matched` true. */
    method Pair(partner: Entry, mine: Snapshot, res: Response, partnerMatchId: string, ownMatchId: string)
      requires Valid()
      requires partner.res.Valid() && !partner.res.ended && res.Valid() && !res.ended && partner.res != res
      requires partner.res !in ResponsesOf(waiting) && res !in ResponsesOf(waiting)
      modifies partner.res, res
      ensures Valid()
      ensures partner.res.sent == [Delivery(200, MatchFound(mine, 1, partnerMatchId, true))]
      ensures res.sent == [Delivery(200, MatchFound(partner.snapshot, 1, ownMatchId, true))]
    {
      RespondMatch(partner.res, mine, true, 0.0, partnerMatchId);
      RespondMatch(res, partner.snapshot, true, 0.0, ownMatchId);
    }

    /** `waitingPlayers.set(userId, entry)` and `setTimeout`: the requester
        becomes the newest entry, with its timer pending. */
    method Park(userId: string, res: Response, mine: Snapshot) returns (entry: Entry)
      requires Valid()
      requires userId != "" && userId !in Keys()
      requires res.Valid() && !res.ended && res !in ResponsesOf(waiting)
      modifies this`waiting, this`timers
      ensures Valid()
      ensures fresh(entry) && waiting == old(waiting) + [entry]
      ensures entry.userId == userId && entry.res == res && entry.snapshot == mine && entry.armed
    {
      entry := new Entry(userId, res, mine);
      ghost var before := waiting;
      waiting := waiting + [entry];
      assert Keys() == KeysOf(before) + [userId];
      entry.armed := true;
      timers := timers + {entry};
    }

    /** Takes the `k`-th entry out of the queue and clears its timer. */
    method RemoveAt(k: nat)
      requires Valid() && k < |waiting|
      modifies this`waiting, waiting[k]
      ensures Valid()
      ensures waiting == old(Without(waiting, k)) && !old(waiting[k]).armed
      ensures old(waiting[k].res) !in ResponsesOf(waiting)
    {
      var pending := waiting[k];
      ghost var q := waiting;
      WithoutFacts(q, k);
      waiting := Without(waiting, k);
      pending.armed := false;
      forall i, j | 0 <= i < j < |waiting| ensures waiting[i].res != waiting[j].res {
        var i' := if i < k then i else i + 1;
        var j' := if j < k then j else j + 1;
        assert waiting[i] == q[i'] && waiting[j] == q[j'];
      }
      forall j | 0 <= j < |waiting| ensures waiting[j].res != pending.res {
        var j' := if j < k then j else j + 1;
        assert waiting[j] == q[j'];
      }
      forall e | e in timers ensures e.armed <==> e in waiting {
        if e != pending {
          assert e.armed == old(e.armed);
        }
      }
      forall e | e in EntriesOf(waiting) ensures e in timers {
        assert e in waiting;
      }
    }

    /** The timer callback's membership test and delete, for a pending timer:
        its entry is found under its user's key and taken out. */
    method Unpark(e: Entry)
      requires Valid() && e in timers && e.armed
      modifies this`waiting, e
      ensures Valid()
      ensures !e.armed
      ensures e.userId in old(Keys())
      ensures var k := IndexOfKey(old(Keys()), e.userId).value;
        && old(waiting[k]) == e
        && waiting == old(Without(waiting, k))
      ensures e.res !in ResponsesOf(waiting)
    {
      var k := IndexOfKey(Keys(), e.userId);
      assert e in EntriesOf(waiting);
      assert k.Some? by {
        var j :| 0 <= j < |waiting| && waiting[j] == e;
        assert Keys()[j] == e.userId;
      }
      var i := k.value;
      assert waiting[i] == e by {
        var j :| 0 <= j < |waiting| && waiting[j] == e;
        assert Keys()[j] == Keys()[i];
      }
      RemoveAt(i);
    }

    /** The timer of a parked entry fires. Only a pending timer can fire, and
        such an entry is still waiting (see `Valid`), so the `has` guard finds
        it; the entry leaves the queue and its request gets a random opponent
        with `matched` false. */
    method TimeoutFire(e: Entry, etaRoll: real, pickRoll: real, matchId: string)
      requires Valid() && e in timers && e.armed
      requires 0.0 <= etaRoll < 1.0 && 0.0 <= pickRoll < 1.0
      modifies this`waiting, e, e.res
      ensures Valid()
      ensures !e.armed
      ensures e.userId in old(Keys())
      ensures var k := IndexOfKey(old(Keys()), e.userId).value;
        && old(waiting[k]) == e
        && waiting == old(Without(waiting, k))
      ensures e.res.sent == [Delivery(200, MatchFound(
                PickRandomOpponent(WorldValues(db.worldOrder, db.worlds), db.rankings, e.userId, pickRoll),
                Eta(false, etaRoll), matchId, false))]
    {
      Unpark(e);
      var fallback := PickRandomOpponent(WorldValues(db.worldOrder, db.worlds), db.rankings, e.userId, pickRoll);
      RespondMatch(e.res, fallback, false, etaRoll, matchId);
    }

    /** The `close` handler of the request of `userId` on `res`: the waiting
        entry is dropped, and its timer cleared, only if it still holds this
        very response. Otherwise (already paired, timed out, or replaced by a
        newer request) nothing happens. No reply is written either way. */
    method Close(userId: string, res: Response)
      requires Valid()
      modifies this`waiting, EntriesOf(waiting)
      ensures Valid()
      ensures var k := IndexOfKey(old(Keys()), userId);
        && (k.Some? && old(waiting[k.value].res) == res ==>
              waiting == old(Without(waiting, k.value)) && !old(waiting[k.value]).armed)
        && (!(k.Some? && old(waiting[k.value].res) == res) ==> waiting == old(waiting))
      ensures forall e :: e in old(waiting) && e.res != res ==> e.armed == old(e.armed)
    {
      var k := IndexOfKey(Keys(), userId);
      if k.Some? && waiting[k.value].res == res {
        RemoveAt(k.value);
      }
    }
  }

  lemma FirstOtherAt(keys: seq<string>, exclude: string, i: nat)
    requires i < |keys| && keys[i] != exclude
    requires forall j :: 0 <= j < i ==> keys[j] == exclude
    ensures FirstOther(keys, exclude) == Some(i)
  {
    var r := FirstOther(keys, exclude);
    assert r.Some?;
  }
}
