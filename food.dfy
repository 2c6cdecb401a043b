/** Eating (src/food.rs): the player eats every Food entity on its tile; the
    Eat events then add score, switch on Frightened for an Energizer, and
    despawn everything eaten except ghosts. */
module Food {
  import opened Wrappers
  import opened Grid
  import opened ActorMode
  import opened Score

  /** Entities are numbered; a despawned one leaves an empty slot. */
  type EntityId = nat

  /** The components the food systems look at. `food` is the Food
      component's points (a frightened ghost carries one too). */
  datatype Entity = Entity(loc: GridLocation, food: Option<nat>, energizer: bool, isGhost: bool)

  predicate IsFoodAt(world: seq<Option<Entity>>, id: EntityId, loc: GridLocation)
  {
    id < |world| && world[id].Some? && world[id].value.food.Some? && world[id].value.loc == loc
  }

  /** The ids below `n` of food entities on `loc`, in increasing order. */
  function FoodAt(world: seq<Option<Entity>>, loc: GridLocation, n: nat): (ids: seq<EntityId>)
    requires n <= |world|
    ensures forall id: EntityId :: id in ids <==> id < n && IsFoodAt(world, id, loc)
    ensures forall i | 0 <= i < |ids| :: ids[i] < n
    ensures forall i, j | 0 <= i < j < |ids| :: ids[i] < ids[j]
    decreases n
  {
    if n == 0 then []
    else
      var before := FoodAt(world, loc, n - 1);
      if IsFoodAt(world, n - 1, loc) then before + [n - 1] else before
  }

  /** The Eat events of one frame: for each player in turn, the food on its tile. */
  function EatEvents(world: seq<Option<Entity>>, players: seq<GridLocation>): seq<EntityId>
    decreases |players|
  {
    if players == [] then []
    else EatEvents(world, players[..|players| - 1]) + FoodAt(world, players[|players| - 1], |world|)
  }

  /** With the one player there is one event per food entity on its tile and
      none for food elsewhere. */
  lemma EatOnePlayer(world: seq<Option<Entity>>, player: GridLocation)
    ensures var events := EatEvents(world, [player]);
            && (forall id: EntityId :: id in events <==> IsFoodAt(world, id, player))
            && (forall i, j | 0 <= i < j < |events| :: events[i] != events[j])
  {
    assert [player][..0] == [];
  }

  lemma FoodAtStep(world: seq<Option<Entity>>, loc: GridLocation, n: nat)
    requires n < |world|
    ensures FoodAt(world, loc, n + 1) == FoodAt(world, loc, n) + if IsFoodAt(world, n, loc) then [n] else []
  {
  }

  lemma EatEventsStep(world: seq<Option<Entity>>, players: seq<GridLocation>, p: nat)
    requires p < |players|
    ensures EatEvents(world, players[..p + 1]) == EatEvents(world, players[..p]) + FoodAt(world, players[p], |world|)
  {
    assert players[..p + 1][..p] == players[..p];
  }

  /** The inner loop of `eat`: every food entity on `loc`, in entity order. */
  method FoodOnTile(world: seq<Option<Entity>>, loc: GridLocation) returns (ids: seq<EntityId>)
    ensures ids == FoodAt(world, loc, |world|)
  {
    ids := [];
    var i := 0;
    while i < |world|
      invariant 0 <= i <= |world|
      invariant ids == FoodAt(world, loc, i)
    {
      FoodAtStep(world, loc, i);
      if IsFoodAt(world, i, loc) {
        ids := ids + [i];
      }
      i := i + 1;
    }
  }

  /** `eat`: for each player, an Eat event per food entity on its tile. */
  method Eat(world: seq<Option<Entity>>, players: seq<GridLocation>) returns (events: seq<EntityId>)
    ensures events == EatEvents(world, players)
  {
    events := [];
    var p := 0;
    while p < |players|
      invariant 0 <= p <= |players|
      invariant events == EatEvents(world, players[..p])
    {
      var eaten := FoodOnTile(world, players[p]);
      EatEventsStep(world, players, p);
      events := events + eaten;
      p := p + 1;
    }
    assert players[..|players|] == players;
  }

  /** The points the events are worth, or None when one of them is not Food. */
  function Points(world: seq<Option<Entity>>, events: seq<EntityId>): (r: Option<nat>)
    ensures r.None? <==> exists k | 0 <= k < |events| :: !IsFood(world, events[k])
    decreases |events|
  {
    if events == [] then Some(0)
    else
      var n := |events| - 1;
      var before := Points(world, events[..n]);
      if !IsFood(world, events[n]) then None
      else if before.None? then
        assert exists k | 0 <= k < n :: !IsFood(world, events[..n][k]);
        None
      else Some(before.value + world[events[n]].value.food.value)
  }

  predicate IsFood(world: seq<Option<Entity>>, id: EntityId)
  {
    id < |world| && world[id].Some? && world[id].value.food.Some?
  }

  /** Eating food adds its points: the score of two batches of events is the sum of both. */
  lemma {:induction false} PointsAppend(world: seq<Option<Entity>>, a: seq<EntityId>, b: seq<EntityId>)
    requires Points(world, a).Some? && Points(world, b).Some?
    ensures Points(world, a + b) == Some(Points(world, a).value + Points(world, b).value)
    decreases |b|
  {
    if b == [] {
      assert a + b == a;
    } else {
      var n := |b| - 1;
      assert (a + b)[..|a| + n] == a + b[..n];
      assert (a + b)[|a| + n] == b[n];
      PointsAppend(world, a, b[..n]);
    }
  }

  /** `add_score`: adds each eaten entity's points in turn. `ok` is false
      where the source panics: an eaten entity that is not Food ("Eaten
      thing is not Food"), or a sum past the u32 range. */
  method AddScore(world: seq<Option<Entity>>, events: seq<EntityId>, board: Scoreboard) returns (ok: bool)
    requires forall id: EntityId | IsFood(world, id) :: IsU32(world[id].value.food.value)
    modifies board
    ensures ok <==> Points(world, events).Some? && IsU32(old(board.score) + Points(world, events).value)
    ensures ok ==> board.score == old(board.score) + Points(world, events).value
    ensures board.high == old(board.high)
  {
    var i := 0;
    while i < |events|
      invariant 0 <= i <= |events|
      invariant Points(world, events[..i]).Some?
      invariant board.score == old(board.score) + Points(world, events[..i]).value
      invariant IsU32(board.score)
      invariant board.high == old(board.high)
    {
      var food := events[i];
      assert events[..i + 1][..i] == events[..i];
      if !IsFood(world, food) {
        assert !Points(world, events).Some? by {
          assert !IsFood(world, events[i]);
        }
        return false;
      }
      var points := world[food].value.food.value;
      if !IsU32(board.score + points) {
        if Points(world, events).Some? {
          PointsPrefix(world, events, i + 1);
        }
        return false;
      }
      board.Add(points);
      i := i + 1;
    }
    assert events[..|events|] == events;
    return true;
  }

  /** A prefix of payable events is payable and worth no more than the whole. */
  lemma {:induction false} PointsPrefix(world: seq<Option<Entity>>, events: seq<EntityId>, k: nat)
    requires k <= |events| && Points(world, events).Some?
    ensures Points(world, events[..k]).Some?
    ensures Points(world, events[..k]).value <= Points(world, events).value
    decreases |events|
  {
    if k < |events| {
      var n := |events| - 1;
      assert events[..n][..k] == events[..k];
      PointsPrefix(world, events[..n], k);
    } else {
      assert events[..k] == events;
    }
  }

  predicate IsEnergizer(world: seq<Option<Entity>>, id: EntityId)
  {
    id < |world| && world[id].Some? && world[id].value.energizer
  }

  /** `eat_energizer`: returns the new FrightenedMode and whether it was written. */
  method EatEnergizer(world: seq<Option<Entity>>, events: seq<EntityId>, fm: FrightenedMode)
    returns (mode: FrightenedMode, written: bool)
    ensures written <==> exists k | 0 <= k < |events| :: IsEnergizer(world, events[k])
    ensures mode == if written then Enabled else fm
  {
    mode := fm;
    written := false;
    var i := 0;
    while i < |events|
      invariant 0 <= i <= |events|
      invariant written <==> exists k | 0 <= k < i :: IsEnergizer(world, events[k])
      invariant mode == if written then Enabled else fm
    {
      if IsEnergizer(world, events[i]) {
        mode := Enabled;
        written := true;
      }
      i := i + 1;
    }
  }

  /** The entities alive after despawning everything eaten except ghosts. */
  function Despawned(world: seq<Option<Entity>>, events: seq<EntityId>): (r: seq<Option<Entity>>)
    ensures |r| == |world|
    ensures forall id | 0 <= id < |world| ::
              r[id] == if id in events && !(world[id].Some? && world[id].value.isGhost) then None else world[id]
  {
    seq(|world|, id requires 0 <= id < |world| =>
          if id in events && !(world[id].Some? && world[id].value.isGhost) then None else world[id])
  }

  /** The entities, as the systems that despawn them see them. */
  class World {
    var slots: seq<Option<Entity>>

    constructor (entities: seq<Option<Entity>>)
      ensures slots == entities
    {
      slots := entities;
    }

    /** `destroy`: every eaten entity that is not a ghost is despawned. */
    method Destroy(events: seq<EntityId>)
      modifies this
      ensures slots == Despawned(old(slots), events)
    {
      var i := 0;
      while i < |events|
        invariant 0 <= i <= |events|
        invariant |slots| == |old(slots)|
        invariant forall id | 0 <= id < |slots| ::
                    slots[id] == if id in events[..i] && !(old(slots)[id].Some? && old(slots)[id].value.isGhost)
                                 then None else old(slots)[id]
      {
        var food := events[i];
        if food < |slots| && !(slots[food].Some? && slots[food].value.isGhost) {
          slots := slots[food := None];
        }
        assert events[..i + 1] == events[..i] + [food];
        i := i + 1;
      }
      assert events[..|events|] == events;
    }
  }
}
