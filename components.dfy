/**
 * Three small game-object components whose state is a few fields updated
 * by guarded setters: `CmpUsable` (named hotspots with optional positions
 * and orientations), `CmpOwnable` (an attach point and an owner) and the
 * entity-level `CollisionComponent` (AABB indices and a pose).
 */
module Components {
  import opened Common
  import opened ObjectProperties

  //#################### CmpUsable ####################

  const UsableName := "Usable"
  const GroupKey := "Group"
  const HotspotsKey := "Hotspots"
  const ScriptKey := "Script"
  const NoSuchHotspot := "No such hotspot: "

  /** What `CmpUsable::load` reads: the usable group, the hotspot names and the script name. */
  datatype UsableSettings = UsableSettings(usableGroup: string, hotspots: seq<string>, scriptName: string)

  function LoadUsable(props: Properties): (r: Result<UsableSettings>)
    ensures r.Ok? <==> GetText(props, GroupKey).Ok? && GetTextList(props, HotspotsKey).Ok? && GetText(props, ScriptKey).Ok?
    ensures r.Ok? ==> r.value == UsableSettings(props[GroupKey].text, props[HotspotsKey].texts, props[ScriptKey].text)
  {
    var group :- GetText(props, GroupKey);
    var hotspots :- GetTextList(props, HotspotsKey);
    var script :- GetText(props, ScriptKey);
    Ok(UsableSettings(group, hotspots, script))
  }

  class CmpUsable {
    const usableGroup: string
    /** The names of the hotspots; the only names the getters and setters accept. */
    const hotspots: seq<string>
    const scriptName: string
    var hotspotPositions: map<string, Vec3>
    var hotspotOrientations: map<string, Vec3>

    /** Only named hotspots ever get a position or an orientation. */
    ghost predicate Valid()
      reads this
    {
      (forall n :: n in hotspotPositions ==> n in hotspots) && (forall n :: n in hotspotOrientations ==> n in hotspots)
    }

    /** The constructor: no hotspot has a position or an orientation yet. */
    constructor(usableGroup: string, hotspots: seq<string>, scriptName: string)
      ensures this.usableGroup == usableGroup && this.hotspots == hotspots && this.scriptName == scriptName
      ensures hotspotPositions == map[] && hotspotOrientations == map[]
      ensures Valid()
    {
      this.usableGroup := usableGroup;
      this.hotspots := hotspots;
      this.scriptName := scriptName;
      hotspotPositions := map[];
      hotspotOrientations := map[];
    }

    /** `verify_hotspot_name`: an error naming the hotspot unless it is one of the component's hotspots. */
    function VerifyHotspotName(name: string): (r: Result<()>)
      ensures r.Ok? <==> name in hotspots
      ensures r.Err? ==> r.error == NoSuchHotspot + name
    {
      if name in hotspots then Ok(()) else Err(NoSuchHotspot + name)
    }

    /** `hotspot_position`: the position set for a named hotspot, none when none was set. */
    function HotspotPosition(name: string): (r: Result<Option<Vec3>>)
      reads this
      ensures r.Err? <==> name !in hotspots
      ensures r.Err? ==> r.error == NoSuchHotspot + name
      ensures r.Ok? ==> (r.value.Some? <==> name in hotspotPositions)
      ensures r.Ok? && r.value.Some? ==> r.value.value == hotspotPositions[name]
    {
      var _ :- VerifyHotspotName(name);
      if name in hotspotPositions then Ok(Some(hotspotPositions[name])) else Ok(None)
    }

    /** `hotspot_orientation`: the same, for orientations. */
    function HotspotOrientation(name: string): (r: Result<Option<Vec3>>)
      reads this
      ensures r.Err? <==> name !in hotspots
      ensures r.Err? ==> r.error == NoSuchHotspot + name
      ensures r.Ok? ==> (r.value.Some? <==> name in hotspotOrientations)
      ensures r.Ok? && r.value.Some? ==> r.value.value == hotspotOrientations[name]
    {
      var _ :- VerifyHotspotName(name);
      if name in hotspotOrientations then Ok(Some(hotspotOrientations[name])) else Ok(None)
    }

    /**
     * `set_hotspot_position`: the name is checked first, so an unknown name
     * changes nothing; otherwise only that hotspot's position changes, and
     * reading it back gives the value set.
     */
    method SetHotspotPosition(name: string, position: Vec3) returns (r: Result<()>)
      modifies this
      ensures r == VerifyHotspotName(name)
      ensures hotspotPositions == if r.Ok? then old(hotspotPositions)[name := position] else old(hotspotPositions)
      ensures hotspotOrientations == old(hotspotOrientations)
      ensures r.Ok? ==> HotspotPosition(name) == Ok(Some(position))
      ensures forall n :: n != name ==> HotspotPosition(n) == old(HotspotPosition(n))
      ensures old(Valid()) ==> Valid()
    {
      r := VerifyHotspotName(name);
      if r.Ok? {
        hotspotPositions := hotspotPositions[name := position];
      }
    }

    /** `set_hotspot_orientation`: the same, for orientations. */
    method SetHotspotOrientation(name: string, orientation: Vec3) returns (r: Result<()>)
      modifies this
      ensures r == VerifyHotspotName(name)
      ensures hotspotOrientations == if r.Ok? then old(hotspotOrientations)[name := orientation] else old(hotspotOrientations)
      ensures hotspotPositions == old(hotspotPositions)
      ensures r.Ok? ==> HotspotOrientation(name) == Ok(Some(orientation))
      ensures forall n :: n != name ==> HotspotOrientation(n) == old(HotspotOrientation(n))
      ensures old(Valid()) ==> Valid()
    {
      r := VerifyHotspotName(name);
      if r.Ok? {
        hotspotOrientations := hotspotOrientations[name := orientation];
      }
    }

    /** `save`: Group, Hotspots and Script under `Usable`, which `load` reads back. */
    function Save(): (s: Saved)
      ensures s.component == UsableName
      ensures s.properties.Keys == {GroupKey, HotspotsKey, ScriptKey}
      ensures LoadUsable(s.properties) == Ok(UsableSettings(usableGroup, hotspots, scriptName))
    {
      Saved(UsableName, map[GroupKey := Text(usableGroup), HotspotsKey := TextList(hotspots), ScriptKey := Text(scriptName)])
    }
  }

  /** `CmpUsable::load`: a component with the loaded settings and no hotspot set. */
  method LoadCmpUsable(props: Properties) returns (r: Result<CmpUsable>)
    ensures r.Ok? <==> LoadUsable(props).Ok?
    ensures r.Ok? ==> (fresh(r.value)
      && UsableSettings(r.value.usableGroup, r.value.hotspots, r.value.scriptName) == LoadUsable(props).value
      && r.value.hotspotPositions == map[] && r.value.hotspotOrientations == map[])
  {
    var settings :- LoadUsable(props);
    var c := new CmpUsable(settings.usableGroup, settings.hotspots, settings.scriptName);
    r := Ok(c);
  }

  //#################### CmpOwnable ####################

  const OwnableName := "Ownable"
  const AttachPointKey := "AttachPoint"
  const OwnerKey := "Owner"

  /** What `CmpOwnable::load` reads: the attach point and the owner. */
  datatype OwnableSettings = OwnableSettings(attachPoint: string, owner: ObjectID)

  function LoadOwnable(props: Properties): (r: Result<OwnableSettings>)
    ensures r.Ok? <==> GetText(props, AttachPointKey).Ok? && GetObject(props, OwnerKey).Ok?
    ensures r.Ok? ==> r.value == OwnableSettings(props[AttachPointKey].text, props[OwnerKey].id)
  {
    var attachPoint :- GetText(props, AttachPointKey);
    var owner :- GetObject(props, OwnerKey);
    Ok(OwnableSettings(attachPoint, owner))
  }

  class CmpOwnable {
    /** The attach point; no method changes it. */
    const attachPoint: string
    var owner: ObjectID

    constructor(attachPoint: string, owner: ObjectID)
      ensures this.attachPoint == attachPoint && this.owner == owner
    {
      this.attachPoint := attachPoint;
      this.owner := owner;
    }

    /** `set_owner`: the owner becomes the argument. */
    method SetOwner(owner: ObjectID)
      modifies this
      ensures this.owner == owner
    {
      this.owner := owner;
    }

    /** `clear_owner`: the owner becomes the default identifier, which denotes no object. */
    method ClearOwner()
      modifies this
      ensures owner == NoObject && !owner.IsValid()
    {
      owner := NoObject;
    }

    /** `save`: AttachPoint and Owner under `Ownable`, which `load` reads back. */
    function Save(): (s: Saved)
      reads this
      ensures s.component == OwnableName
      ensures s.properties.Keys == {AttachPointKey, OwnerKey}
      ensures LoadOwnable(s.properties) == Ok(OwnableSettings(attachPoint, owner))
    {
      Saved(OwnableName, map[AttachPointKey := Text(attachPoint), OwnerKey := Object(owner)])
    }
  }

  /** `CmpOwnable::load`. */
  method LoadCmpOwnable(props: Properties) returns (r: Result<CmpOwnable>)
    ensures r.Ok? <==> LoadOwnable(props).Ok?
    ensures r.Ok? ==> fresh(r.value) && OwnableSettings(r.value.attachPoint, r.value.owner) == LoadOwnable(props).value
  {
    var settings :- LoadOwnable(props);
    var c := new CmpOwnable(settings.attachPoint, settings.owner);
    r := Ok(c);
  }

  //#################### CollisionComponent ####################

  const AABBsField := "AABBs"
  const PoseField := "Pose"
  const MissingField := "Missing field: "

  /** A field as the field reader and writer see it: a name and an integer array or an integer. */
  datatype FieldValue = IntArray(ints: seq<int>) | IntValue(number: int)
  datatype Field = Field(name: string, value: FieldValue)

  /** Reading the next field, which must carry the given name and an integer array. */
  function ReadIntArrayField(fs: seq<Field>, name: string): (r: Result<(seq<int>, seq<Field>)>)
    ensures r.Ok? <==> |fs| > 0 && fs[0].name == name && fs[0].value.IntArray?
    ensures r.Ok? ==> r.value == (fs[0].value.ints, fs[1..])
  {
    if |fs| > 0 && fs[0].name == name && fs[0].value.IntArray? then Ok((fs[0].value.ints, fs[1..]))
    else Err(MissingField + name)
  }

  /** Reading the next field, which must carry the given name and an integer. */
  function ReadIntField(fs: seq<Field>, name: string): (r: Result<(int, seq<Field>)>)
    ensures r.Ok? <==> |fs| > 0 && fs[0].name == name && fs[0].value.IntValue?
    ensures r.Ok? ==> r.value == (fs[0].value.number, fs[1..])
  {
    if |fs| > 0 && fs[0].name == name && fs[0].value.IntValue? then Ok((fs[0].value.number, fs[1..]))
    else Err(MissingField + name)
  }

  /** What the stream constructor reads: the AABBs field, then the Pose field. */
  function ReadCollision(fs: seq<Field>): (r: Result<(seq<int>, int, seq<Field>)>)
    ensures r.Ok? <==> (|fs| >= 2 && fs[0].name == AABBsField && fs[0].value.IntArray?
      && fs[1].name == PoseField && fs[1].value.IntValue?)
    ensures r.Ok? ==> r.value == (fs[0].value.ints, fs[1].value.number, fs[2..])
  {
    var (aabbIndices, afterAABBs) :- ReadIntArrayField(fs, AABBsField);
    var (pose, rest) :- ReadIntField(afterAABBs, PoseField);
    Ok((aabbIndices, pose, rest))
  }

  /**
   * The collision component; Transition stands for the tree-transition
   * record the world-collision code stores, and None for a null pointer.
   */
  class CollisionComponent<Transition> {
    /** The indices of the AABBs the entity may use; never changed. */
    const aabbIndices: seq<int>
    var pose: int
    var lastTransition: Option<Transition>

    constructor(aabbIndices: seq<int>, pose: int)
      ensures this.aabbIndices == aabbIndices && this.pose == pose && lastTransition.None?
    {
      this.aabbIndices := aabbIndices;
      this.pose := pose;
      lastTransition := None;
    }

    /** `save`: the AABBs field, then the Pose field, which the stream constructor reads back in that order. */
    function Save(): (fs: seq<Field>)
      reads this
      ensures |fs| == 2 && fs[0].name == AABBsField && fs[1].name == PoseField
      ensures forall rest :: ReadCollision(fs + rest) == Ok((aabbIndices, pose, rest))
    {
      [Field(AABBsField, IntArray(aabbIndices)), Field(PoseField, IntValue(pose))]
    }

    /** `set_pose`: the pose changes exactly when the new one is among the AABB indices; otherwise nothing happens. */
    method SetPose(pose: int)
      modifies this
      ensures this.pose == if pose in aabbIndices then pose else old(this.pose)
      ensures lastTransition == old(lastTransition)
    {
      if pose in aabbIndices {
        this.pose := pose;
      }
    }

    /** `update_last_transition`: replaces the stored transition and leaves the pose alone. */
    method UpdateLastTransition(lastTransition: Option<Transition>)
      modifies this
      ensures this.lastTransition == lastTransition && pose == old(pose)
    {
      this.lastTransition := lastTransition;
    }
  }

  /** The stream constructor: the component read from the fields, and the fields after them. */
  method LoadCollisionComponent<Transition>(fs: seq<Field>) returns (r: Result<(CollisionComponent<Transition>, seq<Field>)>)
    ensures r.Ok? <==> ReadCollision(fs).Ok?
    ensures r.Ok? ==> (fresh(r.value.0) && r.value.0.aabbIndices == ReadCollision(fs).value.0
      && r.value.0.pose == ReadCollision(fs).value.1 && r.value.0.lastTransition.None?
      && r.value.1 == ReadCollision(fs).value.2)
  {
    var read :- ReadCollision(fs);
    var c := new CollisionComponent(read.0, read.1);
    r := Ok((c, read.2));
  }
}
