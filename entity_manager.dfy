/**
 * `EntityManager`: the entities of a level. Building it numbers the
 * entities, sorts them into those that are simulated (have a physics
 * component), drawn (a visibility component) and controlled (a yoke
 * component of a type other than "None"), and finds the one player.
 */
module EntityManager {
  import opened Common

  /**
   * An entity, as far as the manager looks at it: its identifier, which
   * the manager sets, and the components it has. What `Entity::save`
   * writes is a parameter of `Save`.
   */
  class Entity {
    var id: int
    const entityType: string
    const hasPhysics: bool
    const hasVisibility: bool
    /** The yoke component's type, or None without a yoke component. */
    const yokeType: Option<string>

    constructor(id: int, entityType: string, hasPhysics: bool, hasVisibility: bool, yokeType: Option<string>)
      ensures this.id == id && this.entityType == entityType && this.hasPhysics == hasPhysics
      ensures this.hasVisibility == hasVisibility && this.yokeType == yokeType
    {
      this.id := id;
      this.entityType := entityType;
      this.hasPhysics := hasPhysics;
      this.hasVisibility := hasVisibility;
      this.yokeType := yokeType;
    }
  }

  datatype AABB = AABB(minimum: Vec3, maximum: Vec3)

  const PlayerType := "Player"
  const NoYoke := "None"
  const OnlyOnePlayer := "There can only be one player in a level"
  const PlayerMustExist := "The player must exist"

  function IsSimulable(e: Entity): bool { e.hasPhysics }
  function IsVisible(e: Entity): bool { e.hasVisibility }
  function IsYokeable(e: Entity): bool { e.yokeType.Some? && e.yokeType.value != NoYoke }
  function IsPlayer(e: Entity): bool { e.entityType == PlayerType }

  /** The players among the entities, in order. */
  function Players(es: seq<Entity>): seq<Entity> { Kept(IsPlayer, es) }

  /** The entities are distinct objects. */
  predicate Distinct(es: seq<Entity>)
  {
    forall i, j :: 0 <= i < j < |es| ==> es[i] != es[j]
  }

  class EntityManager {
    const entities: seq<Entity>
    const aabbs: seq<AABB>
    const entDefFilename: string
    const simulables: seq<Entity>
    const visibles: seq<Entity>
    const yokeables: seq<Entity>
    const player: Entity

    constructor(entities: seq<Entity>, aabbs: seq<AABB>, entDefFilename: string,
                simulables: seq<Entity>, visibles: seq<Entity>, yokeables: seq<Entity>, player: Entity)
      ensures this.entities == entities && this.aabbs == aabbs && this.entDefFilename == entDefFilename
      ensures this.simulables == simulables && this.visibles == visibles && this.yokeables == yokeables
      ensures this.player == player
    {
      this.entities := entities;
      this.aabbs := aabbs;
      this.entDefFilename := entDefFilename;
      this.simulables := simulables;
      this.visibles := visibles;
      this.yokeables := yokeables;
      this.player := player;
    }

    /**
     * `save`: the `Entities` block holding a `DefinitionFile` block with the
     * definitions file's name and an `Instances` block with the number of
     * entities followed by what each entity writes, in order.
     */
    method Save(entitySave: Entity -> string) returns (out: string)
      ensures out == EntitiesSection(entDefFilename, entities, entitySave)
    {
      var count := |entities|;
      out := Unlines(EntitiesHead(entDefFilename, count));
      for i := 0 to count
        invariant out == Unlines(EntitiesHead(entDefFilename, count)) + EntitiesText(entities[..i], entitySave)
      {
        assert entities[..i + 1][..i] == entities[..i];
        out := out + entitySave(entities[i]);
      }
      assert entities[..count] == entities;
      out := out + "}\n}\n";
    }
  }

  /**
   * The constructor: entity i gets id i; the simulated, drawn and
   * controlled entities are gathered in order; a second player is an error
   * as soon as it is met (the entities before it, and it, have their ids by
   * then), and so is having no player at all.
   */
  method Create(entities: seq<Entity>, aabbs: seq<AABB>, entDefFilename: string) returns (r: Result<EntityManager>)
    requires Distinct(entities)
    modifies set e | e in entities
    ensures r.Ok? <==> |Players(entities)| == 1
    ensures r.Err? ==> r.error == if |Players(entities)| == 0 then PlayerMustExist else OnlyOnePlayer
    ensures forall i :: 0 <= i < |entities| ==>
      entities[i].id == if |Players(entities[..i])| <= 1 then i else old(entities[i].id)
    ensures r.Ok? ==> (fresh(r.value)
      && r.value.entities == entities && r.value.aabbs == aabbs && r.value.entDefFilename == entDefFilename
      && r.value.simulables == Kept(IsSimulable, entities)
      && r.value.visibles == Kept(IsVisible, entities)
      && r.value.yokeables == Kept(IsYokeable, entities)
      && r.value.player == Players(entities)[0])
  {
    var simulables, visibles, yokeables: seq<Entity> := [], [], [];
    var player: Option<Entity> := None;
    var count := |entities|;
    for i := 0 to count
      invariant Sorted(entities[..i], simulables, visibles, yokeables)
      invariant PlayerSoFar(entities[..i], player)
      invariant forall k :: 0 <= k < count ==> entities[k].id == if k < i then k else old(entities[k].id)
    {
      var second: bool;
      simulables, visibles, yokeables, player, second := Visit(entities, i, simulables, visibles, yokeables, player);
      if second {
        SecondPlayer(entities, i);
        forall k | 0 <= k < count
          ensures entities[k].id == if |Players(entities[..k])| <= 1 then k else old(entities[k].id)
        {
          if k <= i {
            PlayersGrow(entities, k, i);
          }
        }
        return Err(OnlyOnePlayer);
      }
    }
    assert entities[..count] == entities;
    forall k | 0 <= k < count
      ensures entities[k].id == if |Players(entities[..k])| <= 1 then k else old(entities[k].id)
    {
      PlayersGrow(entities, k, count);
    }
    if player.None? {
      return Err(PlayerMustExist);
    }
    var manager := new EntityManager(entities, aabbs, entDefFilename, simulables, visibles, yokeables, player.value);
    r := Ok(manager);
  }

  /**
   * One turn of the constructor's loop: entity i gets id i and is sorted
   * into the lists; second tells whether it is a second player.
   */
  method Visit(entities: seq<Entity>, i: int, simulables: seq<Entity>, visibles: seq<Entity>, yokeables: seq<Entity>,
               player: Option<Entity>)
    returns (simulables': seq<Entity>, visibles': seq<Entity>, yokeables': seq<Entity>, player': Option<Entity>, second: bool)
    requires 0 <= i < |entities| && Sorted(entities[..i], simulables, visibles, yokeables) && PlayerSoFar(entities[..i], player)
    modifies entities[i]
    ensures entities[i].id == i
    ensures Sorted(entities[..i + 1], simulables', visibles', yokeables')
    ensures second <==> |Players(entities[..i + 1])| >= 2
    ensures !second ==> PlayerSoFar(entities[..i + 1], player')
  {
    var e := entities[i];
    SortStep(entities, i, simulables, visibles, yokeables, player);
    e.id := i;
    simulables', visibles', yokeables' := SortEntity(e, simulables, visibles, yokeables);
    player', second := player, false;
    if e.entityType == PlayerType {
      if player.None? {
        player' := Some(e);
      } else {
        second := true;
      }
    }
  }

  /** The constructor's tests of one entity: appended to each list it belongs in. */
  method SortEntity(e: Entity, simulables: seq<Entity>, visibles: seq<Entity>, yokeables: seq<Entity>)
    returns (simulables': seq<Entity>, visibles': seq<Entity>, yokeables': seq<Entity>)
    ensures simulables' == simulables + (if IsSimulable(e) then [e] else [])
    ensures visibles' == visibles + (if IsVisible(e) then [e] else [])
    ensures yokeables' == yokeables + (if IsYokeable(e) then [e] else [])
  {
    simulables', visibles', yokeables' := simulables, visibles, yokeables;
    if e.hasPhysics { simulables' := simulables' + [e]; }
    if e.hasVisibility { visibles' := visibles' + [e]; }
    if e.yokeType.Some? {
      if e.yokeType.value != NoYoke { yokeables' := yokeables' + [e]; }
    }
  }

  /** The simulated, drawn and controlled entities among es, in order. */
  ghost predicate Sorted(es: seq<Entity>, simulables: seq<Entity>, visibles: seq<Entity>, yokeables: seq<Entity>)
  {
    simulables == Kept(IsSimulable, es) && visibles == Kept(IsVisible, es) && yokeables == Kept(IsYokeable, es)
  }

  /** At most one player among es, and player is it when there is one. */
  ghost predicate PlayerSoFar(es: seq<Entity>, player: Option<Entity>)
  {
    |Players(es)| <= 1 && (player.None? <==> |Players(es)| == 0) && (player.Some? ==> player.value == Players(es)[0])
  }

  /** One step of the constructor's loop, on the lists it gathers. */
  lemma SortStep(es: seq<Entity>, i: int, simulables: seq<Entity>, visibles: seq<Entity>, yokeables: seq<Entity>, player: Option<Entity>)
    requires 0 <= i < |es| && Sorted(es[..i], simulables, visibles, yokeables) && PlayerSoFar(es[..i], player)
    ensures var e := es[i];
      Sorted(es[..i + 1], simulables + (if IsSimulable(e) then [e] else []), visibles + (if IsVisible(e) then [e] else []),
        yokeables + (if IsYokeable(e) then [e] else []))
    ensures var e := es[i];
      (!IsPlayer(e) ==> PlayerSoFar(es[..i + 1], player))
      && (IsPlayer(e) && player.None? ==> PlayerSoFar(es[..i + 1], Some(e)))
      && (IsPlayer(e) && player.Some? ==> |Players(es[..i + 1])| >= 2)
  {
    var e := es[i];
    assert es[..i + 1] == es[..i] + [e];
    KeptSnoc(IsSimulable, es[..i], e);
    KeptSnoc(IsVisible, es[..i], e);
    KeptSnoc(IsYokeable, es[..i], e);
    KeptSnoc(IsPlayer, es[..i], e);
  }

  /** Once a second player has been met, every later prefix has at least two players too. */
  lemma SecondPlayer(es: seq<Entity>, i: int)
    requires 0 <= i < |es| && |Players(es[..i + 1])| >= 2
    ensures |Players(es)| >= 2
    ensures forall k :: i < k <= |es| ==> |Players(es[..k])| >= 2
  {
    forall k | i < k <= |es| ensures |Players(es[..k])| >= 2 {
      PlayersGrow(es, i + 1, k);
    }
    assert es[..|es|] == es;
  }

  /** A longer prefix has at least as many players. */
  lemma {:induction false} PlayersGrow(es: seq<Entity>, j: int, k: int)
    requires 0 <= j <= k <= |es|
    ensures |Players(es[..j])| <= |Players(es[..k])|
    decreases k - j
  {
    if j < k {
      assert es[..k] == es[..k - 1] + [es[k - 1]];
      KeptSnoc(IsPlayer, es[..k - 1], es[k - 1]);
      PlayersGrow(es, j, k - 1);
    }
  }

  //#################### SAVING ####################

  function EntitiesHead(entDefFilename: string, count: nat): seq<string>
  {
    ["Entities", "{", "DefinitionFile", "{", entDefFilename, "}", "Instances", "{", IntToString(count)]
  }

  /** What the entities write, one after another. */
  function EntitiesText(es: seq<Entity>, entitySave: Entity -> string): string
  {
    if |es| == 0 then "" else EntitiesText(es[..|es| - 1], entitySave) + entitySave(es[|es| - 1])
  }

  function EntitiesSection(entDefFilename: string, es: seq<Entity>, entitySave: Entity -> string): string
  {
    Unlines(EntitiesHead(entDefFilename, |es|)) + EntitiesText(es, entitySave) + "}\n}\n"
  }

  /**
   * Read back line by line, the saved section starts with the nine header
   * lines, the definitions file's name fifth and the entity count, which
   * reads back as a number, ninth.
   */
  lemma SectionReadsBack(entDefFilename: string, es: seq<Entity>, entitySave: Entity -> string, rest: string)
    requires IsLine(entDefFilename) && |es| <= IntMax
    ensures var ls := SplitLines(EntitiesSection(entDefFilename, es, entitySave) + rest);
      |ls| >= 9 && ls[..9] == EntitiesHead(entDefFilename, |es|) && ParseInt(ls[8]) == Some(|es|)
  {
    var head := EntitiesHead(entDefFilename, |es|);
    var tail := EntitiesText(es, entitySave) + "}\n}\n" + rest;
    IntToStringToken(|es|);
    assert IsLine(head[8]);
    assert AllLines(head);
    assert EntitiesSection(entDefFilename, es, entitySave) + rest == Unlines(head) + tail;
    SplitLinesOfUnlines(head, tail);
    assert (head + SplitLines(tail))[..9] == head;
    ParseIntToString(|es|);
  }
}
