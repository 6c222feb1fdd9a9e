/** Attributes of a catalog entity: partial updates of a server map the provider owns only in part. */
module EntityAttributes {
  import opened Wrappers
  import opened GoStrings

  const QUALIFIED_NAME := "qualifiedName"

  type Attributes = map<string, string>

  // ---- Steps ----

  /** An entity is known by its type and its qualified name. */
  datatype EntityKey = EntityKey(entityType: string, entityName: string)

  type Entities = map<EntityKey, Attributes>

  datatype Resource = Resource(id: string, entityType: string, entityName: string, attributes: Attributes)

  datatype World = World(entities: Entities, state: Resource)

  datatype Faults = Faults(update: bool, get: bool)

  datatype StepError = ApiFailure | ImmutableAttribute | InvalidImportId

  datatype Outcome = Done | Failed(error: StepError)

  function KeyOf(r: Resource): EntityKey {
    EntityKey(r.entityType, r.entityName)
  }

  function EntityId(entityType: string, entityName: string): string {
    entityType + "/" + entityName
  }

  /** A partial update overlays the attributes it names; the qualified name always goes along. */
  function Overlaid(entity: Attributes, attributes: Attributes, entityName: string): Attributes {
    entity + attributes[QUALIFIED_NAME := entityName]
  }

  /** The tracked attributes as the server has them; what it lacks reads as empty. */
  function Tracked(tracked: set<string>, entity: Attributes): Attributes {
    map k | k in tracked && k != QUALIFIED_NAME :: if k in entity then entity[k] else ""
  }

  function ReadStep(w: World, isNew: bool, f: Faults): (World, Outcome) {
    var key := KeyOf(w.state);
    if f.get then (w, Failed(ApiFailure))
    else if key !in w.entities then
      if isNew then (w, Failed(ApiFailure)) else (w.(state := w.state.(id := "")), Done)
    else
      (w.(state := w.state.(attributes := Tracked(w.state.attributes.Keys, w.entities[key]),
                            id := EntityId(key.entityType, key.entityName))), Done)
  }

  function SendStep(w: World, attributes: Attributes, f: Faults): (World, Outcome) {
    var key := KeyOf(w.state);
    if f.update || key !in w.entities then (w, Failed(ApiFailure))
    else (w.(entities := w.entities[key := Overlaid(w.entities[key], attributes, w.state.entityName)]), Done)
  }

  function CreateStep(w: World, planned: Resource, f: Faults): (World, Outcome) {
    var (sent, out) := SendStep(w.(state := planned), planned.attributes, f);
    if out.Failed? then (sent, out)
    else ReadStep(sent.(state := planned.(id := EntityId(planned.entityType, planned.entityName))), true, f)
  }

  /** A failed update leaves the planned values in the state, as Terraform saves them. */
  function UpdateStep(w: World, planned: Resource, f: Faults): (World, Outcome) {
    var w' := w.(state := planned);
    if KeyOf(planned) != KeyOf(w.state) then (w', Failed(ImmutableAttribute))
    else if planned.attributes == w.state.attributes then ReadStep(w', false, f)
    else
      var (sent, out) := SendStep(w', planned.attributes, f);
      if out.Failed? then (sent, out)
      else ReadStep(sent.(state := planned.(id := EntityId(planned.entityType, planned.entityName))), false, f)
  }

  function Blanked(attributes: Attributes): Attributes {
    map k | k in attributes :: ""
  }

  /** Deletion resets what is tracked; it removes nothing from the server. */
  function DeleteStep(w: World, f: Faults): (World, Outcome) {
    SendStep(w, Blanked(w.state.attributes), f)
  }

  // ---- Import lists ----

  /** The names of a comma-separated list, each blank until read. */
  function Listed(list: string): Attributes {
    map name | name in TrimmedFields(list) && name != "" && name != QUALIFIED_NAME :: ""
  }

  function TrimmedFields(list: string): set<string> {
    set f | f in Split(list, ',') :: TrimSpace(f)
  }

  /** Imports `<schema registry cluster>/<entity type>/<entity name>/<names>`. */
  function ImportStep(entities: Entities, importId: string, f: Faults): (World, Outcome) {
    var parts := Split(importId, '/');
    if |parts| != 4 then (World(entities, Resource(importId, "", "", map[])), Failed(InvalidImportId))
    else ReadStep(World(entities, Resource(importId, parts[1], parts[2], Listed(parts[3]))), true, f)
  }

  method ParseImportAttributes(list: string) returns (attributes: Attributes)
    ensures attributes == Listed(list)
  {
    if list == "" {
      assert Split(list, ',') == [""];
      assert TrimmedFields(list) == {""} by {
        TrimSpaceTrims("");
      }
      return map[];
    }
    var names := Split(list, ',');
    attributes := map[];
    for i := 0 to |names|
      invariant forall k :: k in attributes <==>
                  k != "" && k != QUALIFIED_NAME && exists j :: 0 <= j < i && TrimSpace(names[j]) == k
      invariant forall k :: k in attributes ==> attributes[k] == ""
    {
      var name := TrimSpace(names[i]);
      if name != "" && name != QUALIFIED_NAME {
        attributes := attributes[name := ""];
      }
    }
    forall k ensures k in TrimmedFields(list) <==> exists j :: 0 <= j < |names| && TrimSpace(names[j]) == k
    {
    }
  }

  // ---- The provider ----

  class Provider {
    var entities: Entities
    var d: Resource

    constructor (entities: Entities, d: Resource)
      ensures this.entities == entities && this.d == d
    {
      this.entities := entities;
      this.d := d;
    }

    ghost function Now(): World
      reads this
    {
      World(entities, d)
    }

    method FilterAttributes(entity: Attributes) returns (kept: Attributes)
      ensures kept == Tracked(d.attributes.Keys, entity)
    {
      var remaining := d.attributes.Keys;
      kept := map[];
      while remaining != {}
        invariant remaining <= d.attributes.Keys
        invariant kept == Tracked(d.attributes.Keys - remaining, entity)
        decreases remaining
      {
        var name :| name in remaining;
        remaining := remaining - {name};
        if name == QUALIFIED_NAME {
          continue;
        }
        if name !in entity {
          kept := kept[name := ""];
        } else {
          kept := kept[name := entity[name]];
        }
      }
      assert d.attributes.Keys - {} == d.attributes.Keys;
    }

    static method ResetAttributes(attributes: Attributes) returns (reset: Attributes)
      ensures reset == Blanked(attributes)
    {
      reset := attributes;
      var remaining := attributes.Keys;
      while remaining != {}
        invariant remaining <= attributes.Keys == reset.Keys
        invariant forall k :: k in attributes.Keys - remaining ==> reset[k] == ""
        decreases remaining
      {
        var name :| name in remaining;
        reset := reset[name := ""];
        remaining := remaining - {name};
      }
    }

    /** The partial update API: the entity is found by type and qualified name. */
    method PartialUpdate(typeName: string, attributes: Attributes, fault: bool) returns (ok: bool)
      requires QUALIFIED_NAME in attributes
      modifies this`entities
      ensures var key := EntityKey(typeName, attributes[QUALIFIED_NAME]);
              && (ok <==> !fault && key in old(entities))
              && entities == if ok then old(entities)[key := old(entities)[key] + attributes] else old(entities)
    {
      var key := EntityKey(typeName, attributes[QUALIFIED_NAME]);
      if fault || key !in entities {
        return false;
      }
      entities := entities[key := entities[key] + attributes];
      return true;
    }

    method Read(isNew: bool, f: Faults) returns (r: Outcome)
      modifies this`d
      ensures (Now(), r) == ReadStep(old(Now()), isNew, f)
    {
      if f.get {
        return Failed(ApiFailure);
      }
      var key := EntityKey(d.entityType, d.entityName);
      if key !in entities {
        if !isNew {
          d := d.(id := "");
          return Done;
        }
        return Failed(ApiFailure);
      }
      var kept := FilterAttributes(entities[key]);
      d := d.(attributes := kept);
      d := d.(id := EntityId(d.entityType, d.entityName));
      return Done;
    }

    method Create(planned: Resource, f: Faults) returns (r: Outcome)
      modifies this
      ensures (Now(), r) == CreateStep(old(Now()), planned, f)
    {
      d := planned;
      var attributes := d.attributes;
      attributes := attributes[QUALIFIED_NAME := d.entityName];
      var ok := PartialUpdate(d.entityType, attributes, f.update);
      if !ok {
        return Failed(ApiFailure);
      }
      d := d.(id := EntityId(d.entityType, d.entityName));
      r := Read(true, f);
    }

    method Update(planned: Resource, f: Faults) returns (r: Outcome)
      modifies this
      ensures (Now(), r) == UpdateStep(old(Now()), planned, f)
    {
      var before := d;
      d := planned;
      if d.entityType != before.entityType || d.entityName != before.entityName {
        return Failed(ImmutableAttribute);
      }
      if d.attributes != before.attributes {
        var attributes := d.attributes;
        attributes := attributes[QUALIFIED_NAME := d.entityName];
        var ok := PartialUpdate(d.entityType, attributes, f.update);
        if !ok {
          return Failed(ApiFailure);
        }
        d := d.(id := EntityId(d.entityType, d.entityName));
      }
      r := Read(false, f);
    }

    method Delete(f: Faults) returns (r: Outcome)
      modifies this`entities
      ensures (Now(), r) == DeleteStep(old(Now()), f)
    {
      var attributes := ResetAttributes(d.attributes);
      attributes := attributes[QUALIFIED_NAME := d.entityName];
      var ok := PartialUpdate(d.entityType, attributes, f.update);
      return if ok then Done else Failed(ApiFailure);
    }

    method Import(importId: string, f: Faults) returns (r: Outcome)
      modifies this`d
      ensures (Now(), r) == ImportStep(entities, importId, f)
    {
      d := Resource(importId, "", "", map[]);
      var parts := Split(importId, '/');
      if |parts| != 4 {
        return Failed(InvalidImportId);
      }
      var attributes := ParseImportAttributes(parts[3]);
      d := d.(attributes := attributes);
      d := d.(entityName := parts[2]);
      d := d.(entityType := parts[1]);
      r := Read(true, f);
    }
  }
}
