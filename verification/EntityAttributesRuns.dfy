/** What becomes of an entity's attributes over the life of the resource, and what an import tracks. */
module EntityAttributesRuns {
  import opened Wrappers
  import opened GoStrings
  import opened EntityAttributes

  const NO_FAULTS := Faults(false, false)

  // ---- Runs with failures ----

  datatype Event =
    | Refresh(f: Faults)
    | Change(attributes: Attributes, f: Faults)

  function StepOf(w: World, e: Event): (World, Outcome) {
    match e
    case Refresh(f) => ReadStep(w, false, f)
    case Change(attributes, f) => UpdateStep(w, w.state.(attributes := attributes), f)
  }

  function Run(w: World, events: seq<Event>): World
    decreases |events|
  {
    if events == [] then w else Run(StepOf(w, events[0]).0, events[1..])
  }

  /** The attributes a step sends and the server takes. */
  function LandedBy(w: World, e: Event): Attributes {
    if e.Change? && e.attributes != w.state.attributes && !e.f.update then e.attributes else map[]
  }

  /** All that landed in a run, later values over earlier ones. */
  function Ledger(w: World, events: seq<Event>): Attributes
    decreases |events|
  {
    if events == [] then map[]
    else LandedBy(w, events[0]) + Ledger(StepOf(w, events[0]).0, events[1..])
  }

  /** The entity is there under the resource's key, with its qualified name. */
  predicate Holds(w: World, key: EntityKey, entity: Attributes, others: Entities) {
    && KeyOf(w.state) == key
    && key in w.entities && w.entities[key] == entity && QUALIFIED_NAME in entity
    && entity[QUALIFIED_NAME] == key.entityName
    && w.entities - {key} == others
  }

  function Under(entity: Attributes, landed: Attributes): Attributes
    requires QUALIFIED_NAME in entity
  {
    (entity + landed)[QUALIFIED_NAME := entity[QUALIFIED_NAME]]
  }

  lemma StepHolds(w: World, e: Event, key: EntityKey, entity: Attributes, others: Entities)
    requires Holds(w, key, entity, others)
    ensures Holds(StepOf(w, e).0, key, Under(entity, LandedBy(w, e)), others)
  {
    assert entity + map[] == entity;
  }

  lemma UnderTwice(entity: Attributes, a: Attributes, b: Attributes)
    requires QUALIFIED_NAME in entity
    ensures Under(Under(entity, a), b) == Under(entity, a + b)
  {
  }

  /** Over any run, failed steps among them, the entity holds what it held before under all that
      landed, its qualified name, and no other entity is touched. */
  lemma {:induction false} RunHolds(w: World, events: seq<Event>, key: EntityKey, entity: Attributes, others: Entities)
    requires Holds(w, key, entity, others)
    ensures Holds(Run(w, events), key, Under(entity, Ledger(w, events)), others)
    decreases |events|
  {
    if events == [] {
      assert entity + map[] == entity;
    } else {
      hide StepOf, Holds, Under, LandedBy;
      StepHolds(w, events[0], key, entity, others);
      HoldsName(StepOf(w, events[0]).0, key, Under(entity, LandedBy(w, events[0])), others);
      RunHolds(StepOf(w, events[0]).0, events[1..], key, Under(entity, LandedBy(w, events[0])), others);
      UnderTwice(entity, LandedBy(w, events[0]), Ledger(StepOf(w, events[0]).0, events[1..]));
    }
  }

  lemma HoldsName(w: World, key: EntityKey, entity: Attributes, others: Entities)
    requires Holds(w, key, entity, others)
    ensures QUALIFIED_NAME in entity
  {
  }

  /** The entity with its tracked attributes blanked. */
  function BlankedIn(entity: Attributes, tracked: set<string>, entityName: string): Attributes {
    map k | k in entity.Keys + tracked + {QUALIFIED_NAME} ::
      if k == QUALIFIED_NAME then entityName else if k in tracked then "" else entity[k]
  }

  /** Deletion blanks what the state tracks and leaves the rest: what landed and is no longer tracked
      stays as an orphan. */
  lemma DeleteBlanksTracked(w: World, key: EntityKey, entity: Attributes, others: Entities, f: Faults)
    requires Holds(w, key, entity, others)
    ensures var (w', out) := DeleteStep(w, f);
            && (out == Done <==> !f.update)
            && (out == Done ==>
                  && w'.entities - {key} == others && key in w'.entities
                  && w'.entities[key] == BlankedIn(entity, w.state.attributes.Keys, key.entityName))
  {
  }

  // ---- Lives without failures ----

  /** create(A0), then an update to each of the following. */
  function Live(w: World, updates: seq<Attributes>): World
    decreases |updates|
  {
    if updates == [] then w
    else Live(UpdateStep(w, w.state.(attributes := updates[0]), NO_FAULTS).0, updates[1..])
  }

  function AllNamed(named: seq<Attributes>): Attributes {
    if named == [] then map[] else named[0] + AllNamed(named[1..])
  }

  /** The value of the last map that names the attribute. */
  lemma {:induction false} AllNamedIsLast(named: seq<Attributes>, k: string)
    ensures k in AllNamed(named) <==> exists i :: 0 <= i < |named| && k in named[i]
    ensures forall i :: 0 <= i < |named| && k in named[i] && (forall j :: i < j < |named| ==> k !in named[j]) ==>
              k in AllNamed(named) && AllNamed(named)[k] == named[i][k]
  {
    if named != [] {
      var rest := named[1..];
      AllNamedIsLast(rest, k);
      assert forall i :: 0 < i < |named| ==> named[i] == rest[i - 1];
      assert forall i :: 0 <= i < |rest| ==> rest[i] == named[i + 1];
    }
  }

  function WithoutName(attributes: Attributes): Attributes {
    attributes - {QUALIFIED_NAME}
  }

  /** The state tracks an update exactly, with the server's values, which are those sent. */
  predicate Tracks(w: World, key: EntityKey, entity: Attributes, others: Entities, last: Attributes) {
    && Holds(w, key, entity, others)
    && w.state.attributes == WithoutName(last)
    && (forall k :: k in last && k != QUALIFIED_NAME ==> k in entity && entity[k] == last[k])
  }

  lemma TrackedUnder(entity: Attributes, next: Attributes)
    requires QUALIFIED_NAME in entity
    ensures Tracked(next.Keys, Under(entity, next)) == WithoutName(next)
  {
  }

  lemma OverlaidIsUnder(entity: Attributes, next: Attributes, entityName: string)
    requires QUALIFIED_NAME in entity && entity[QUALIFIED_NAME] == entityName
    ensures Overlaid(entity, next, entityName) == Under(entity, next)
    ensures QUALIFIED_NAME in Under(entity, next) && Under(entity, next)[QUALIFIED_NAME] == entityName
    ensures forall k :: k in next && k != QUALIFIED_NAME ==>
              k in Under(entity, next) && Under(entity, next)[k] == next[k]
  {
  }

  lemma UpdateTracks(w: World, key: EntityKey, entity: Attributes, others: Entities, last: Attributes, next: Attributes)
    requires Tracks(w, key, entity, others, last)
    ensures var w' := UpdateStep(w, w.state.(attributes := next), NO_FAULTS).0;
            Tracks(w', key, Under(entity, next), others, next)
  {
    if next == w.state.attributes {
      assert Under(entity, next) == entity;
    }
    TrackedUnder(entity, next);
    hide EntityId, Tracked, WithoutName, Under;
    OverlaidIsUnder(entity, next, key.entityName);
  }

  lemma {:induction false} LiveTracks(w: World, key: EntityKey, entity: Attributes, others: Entities, last: Attributes,
                                      updates: seq<Attributes>)
    requires Tracks(w, key, entity, others, last)
    ensures Tracks(Live(w, updates), key, Under(entity, AllNamed(updates)), others,
                   if updates == [] then last else updates[|updates| - 1])
    decreases |updates|
  {
    if updates == [] {
      assert Under(entity, map[]) == entity;
    } else {
      hide UpdateStep, Under, Tracks;
      UpdateTracks(w, key, entity, others, last, updates[0]);
      TracksName(w, key, entity, others, last);
      var w' := UpdateStep(w, w.state.(attributes := updates[0]), NO_FAULTS).0;
      TracksName(w', key, Under(entity, updates[0]), others, updates[0]);
      LiveTracks(w', key, Under(entity, updates[0]), others, updates[0], updates[1..]);
      UnderTwice(entity, updates[0], AllNamed(updates[1..]));
    }
  }

  lemma TracksName(w: World, key: EntityKey, entity: Attributes, others: Entities, last: Attributes)
    requires Tracks(w, key, entity, others, last)
    ensures QUALIFIED_NAME in entity
  {
  }

  lemma CreateTracks(w: World, planned: Resource)
    requires KeyOf(planned) in w.entities
    ensures var key := KeyOf(planned);
            var entity := (w.entities[key] + planned.attributes)[QUALIFIED_NAME := planned.entityName];
            var (w', out) := CreateStep(w, planned, NO_FAULTS);
            out == Done && Tracks(w', key, entity, w.entities - {key}, planned.attributes)
  {
    hide EntityId;
    var key := KeyOf(planned);
    var entity := (w.entities[key] + planned.attributes)[QUALIFIED_NAME := planned.entityName];
    assert Overlaid(w.entities[key], planned.attributes, planned.entityName) == entity;
    assert Tracked(planned.attributes.Keys, entity) == WithoutName(planned.attributes);
  }

  /** How an entity ends: an attribute tracked last is blank; one that an earlier map named keeps the
      last value given to it, an orphan; any other is as it was; the qualified name is the entity's. */
  function Ended(entity: Attributes, last: Attributes, named: Attributes, entityName: string): Attributes {
    map k | k in entity.Keys + named.Keys + {QUALIFIED_NAME} ::
      if k == QUALIFIED_NAME then entityName
      else if k in last then ""
      else if k in named then named[k]
      else entity[k]
  }

  lemma BlankedIsEnded(entity: Attributes, first: Attributes, rest: Attributes, last: Attributes, entityName: string)
    requires last.Keys <= (first + rest).Keys
    ensures BlankedIn(Under((entity + first)[QUALIFIED_NAME := entityName], rest), WithoutName(last).Keys, entityName)
            == Ended(entity, last, first + rest, entityName)
  {
  }

  /** create(A0), update(A1), ..., update(An), delete: before the deletion the state holds An, and
      after it the entity ends as described, with other entities untouched. */
  lemma LifeOfAttributes(w: World, planned: Resource, updates: seq<Attributes>)
    requires KeyOf(planned) in w.entities
    ensures var key := KeyOf(planned);
            var all := [planned.attributes] + updates;
            var before := Live(CreateStep(w, planned, NO_FAULTS).0, updates);
            var (after, out) := DeleteStep(before, NO_FAULTS);
            && before.state.attributes == WithoutName(all[|all| - 1])
            && out == Done && key in after.entities
            && after.entities[key] == Ended(w.entities[key], all[|all| - 1], AllNamed(all), planned.entityName)
            && after.entities - {key} == w.entities - {key}
  {
    var key := KeyOf(planned);
    var others := w.entities - {key};
    var entity := (w.entities[key] + planned.attributes)[QUALIFIED_NAME := planned.entityName];
    var created := CreateStep(w, planned, NO_FAULTS).0;
    CreateTracks(w, planned);
    LiveTracks(created, key, entity, others, planned.attributes, updates);
    hide CreateStep, Live, DeleteStep, Under, Ended, BlankedIn;
    DeleteBlanksTracked(Live(created, updates), key, Under(entity, AllNamed(updates)), others, NO_FAULTS);
    var all := [planned.attributes] + updates;
    assert all[1..] == updates;
    NamedIncludesLast(all);
    BlankedIsEnded(w.entities[key], planned.attributes, AllNamed(updates), all[|all| - 1], planned.entityName);
  }

  lemma {:induction false} NamedIncludesLast(named: seq<Attributes>)
    requires named != []
    ensures named[|named| - 1].Keys <= AllNamed(named).Keys
  {
    if |named| > 1 {
      NamedIncludesLast(named[1..]);
    }
  }

  // ---- Import ----

  /** The names a list of fields amounts to. */
  function NamesIn(fields: seq<string>): set<string> {
    set f | f in fields && TrimSpace(f) !in {"", QUALIFIED_NAME} :: TrimSpace(f)
  }

  lemma ListedNamesIn(fields: seq<string>)
    requires fields != [] && forall f :: f in fields ==> ',' !in f
    ensures Listed(Join(fields, ',')).Keys == NamesIn(fields)
  {
    SplitOfJoin(fields, ',');
  }

  /** Two lists import alike exactly when they hold the same trimmed names, but for empty ones and the
      qualified name. */
  lemma ImportIgnoresForm(a: seq<string>, b: seq<string>)
    requires a != [] && forall f :: f in a ==> ',' !in f
    requires b != [] && forall f :: f in b ==> ',' !in f
    ensures Listed(Join(a, ',')) == Listed(Join(b, ',')) <==> NamesIn(a) == NamesIn(b)
  {
    ListedNamesIn(a);
    ListedNamesIn(b);
    var la, lb := Listed(Join(a, ',')), Listed(Join(b, ','));
    assert forall n :: n in la ==> la[n] == "";
    assert forall n :: n in lb ==> lb[n] == "";
  }

  /** So order does not matter, */
  lemma ImportIgnoresOrder(a: seq<string>, b: seq<string>)
    requires a != [] && multiset(a) == multiset(b) && forall f :: f in a ==> ',' !in f
    ensures Listed(Join(a, ',')) == Listed(Join(b, ','))
  {
    assert forall f :: f in a <==> f in multiset(a);
    assert forall f :: f in b <==> f in multiset(b);
    ImportIgnoresForm(a, b);
  }

  /** nor repetition, */
  lemma ImportIgnoresRepetition(a: seq<string>, again: seq<string>)
    requires a != [] && (forall f :: f in a ==> ',' !in f) && forall f :: f in again ==> f in a
    ensures Listed(Join(a + again, ',')) == Listed(Join(a, ','))
  {
    ImportIgnoresForm(a + again, a);
  }

  /** nor spaces around names. */
  lemma ImportIgnoresPadding(left: seq<string>, names: seq<string>, right: seq<string>, padded: seq<string>)
    requires names != [] && |left| == |names| == |right| == |padded|
    requires forall n :: n in names ==> Trimmed(n) && ',' !in n
    requires forall i :: 0 <= i < |names| ==>
               AllSpaces(left[i] + right[i]) && padded[i] == left[i] + names[i] + right[i]
    ensures Listed(Join(padded, ',')) == Listed(Join(names, ','))
  {
    forall i | 0 <= i < |names| ensures TrimSpace(padded[i]) == TrimSpace(names[i]) && ',' !in padded[i]
    {
      assert names[i] in names;
      PaddingIsIgnored(left[i], names[i], right[i]);
      SpacesHoldNoComma(left[i] + right[i]);
    }
    TrimmedAlike(padded, names);
    ImportIgnoresForm(padded, names);
  }

  predicate AllSpaces(s: string) {
    forall c :: c in s ==> IsSpace(c)
  }

  lemma SpacesHoldNoComma(s: string)
    requires AllSpaces(s)
    ensures ',' !in s
  {
  }

  lemma TrimmedAlike(a: seq<string>, b: seq<string>)
    requires |a| == |b| && forall i :: 0 <= i < |a| ==> TrimSpace(a[i]) == TrimSpace(b[i])
    ensures NamesIn(a) == NamesIn(b)
  {
    hide TrimSpace;
    forall n ensures n in NamesIn(a) <==> n in NamesIn(b)
    {
      if n in NamesIn(a) {
        var i :| 0 <= i < |a| && TrimSpace(a[i]) == n;
        assert b[i] in b;
      }
      if n in NamesIn(b) {
        var i :| 0 <= i < |b| && TrimSpace(b[i]) == n;
        assert a[i] in a;
      }
    }
  }

  /** Importing "<cluster>/<type>/<name>/<names>" gives that type and name, the id made of them, and for
      each listed name the value the server has under it, or none. */
  lemma ImportReadsTheEntity(entities: Entities, cluster: string, key: EntityKey, names: string, f: Faults)
    requires '/' !in cluster && '/' !in key.entityType && '/' !in key.entityName && '/' !in names
    ensures var importId := cluster + "/" + key.entityType + "/" + key.entityName + "/" + names;
            var (w, out) := ImportStep(entities, importId, f);
            && (out == Done <==> !f.get && key in entities)
            && w.entities == entities
            && (out == Done ==>
                  && w.state.entityType == key.entityType && w.state.entityName == key.entityName
                  && w.state.id == key.entityType + "/" + key.entityName
                  && forall n :: n in w.state.attributes ==>
                       w.state.attributes[n] == if n in entities[key] then entities[key][n] else "")
  {
    var importId := cluster + "/" + key.entityType + "/" + key.entityName + "/" + names;
    var fields := [cluster, key.entityType, key.entityName, names];
    assert fields[2..][1..] == fields[3..] && fields[1..][1..] == fields[2..];
    assert Join(fields[3..], '/') == names;
    assert Join(fields[2..], '/') == key.entityName + "/" + names;
    assert Join(fields[1..], '/') == key.entityType + "/" + key.entityName + "/" + names;
    assert Join(fields, '/') == importId;
    SplitOfJoin(fields, '/');
    assert Split(importId, '/') == fields;
    hide Listed;
  }

  /** A refresh of an entity gone from the server forgets the id and nothing else. */
  lemma VanishedEntityIsForgotten(w: World, f: Faults)
    requires EntityKey(w.state.entityType, w.state.entityName) !in w.entities && !f.get
    ensures ReadStep(w, false, f) == (World(w.entities, w.state.(id := "")), Done)
    ensures ReadStep(w, true, f) == (w, Failed(ApiFailure))
  {
  }

  /** An update may change neither type nor name of the entity. */
  lemma ImmutableIsRefused(w: World, planned: Resource, f: Faults)
    ensures var same := w.state.entityType == planned.entityType && w.state.entityName == planned.entityName;
            var (w', out) := UpdateStep(w, planned, f);
            && (out == Failed(ImmutableAttribute) <==> !same)
            && (!same ==> w' == World(w.entities, planned))
  {
  }

  predicate Importable(name: string) {
    ',' !in name && Trimmed(name) && name != "" && name != QUALIFIED_NAME
  }

  lemma ListedNames(list: string, name: string)
    requires name in Listed(list)
    ensures Importable(name)
  {
    var f :| f in Split(list, ',') && TrimSpace(f) == name;
    TrimSpaceTrims(f);
  }

  /** A joined list of names imports as just these names exactly when each is free of commas and of
      surrounding spaces, not empty and not the qualified name. */
  lemma ImportOfJoinedNames(names: seq<string>)
    requires names != []
    ensures Listed(Join(names, ',')).Keys == (set n | n in names) <==> forall n :: n in names ==> Importable(n)
  {
    var list := Join(names, ',');
    if Listed(list).Keys == (set n | n in names) {
      forall n | n in names ensures Importable(n)
      {
        assert n in Listed(list);
        ListedNames(list, n);
      }
    }
    if forall n :: n in names ==> Importable(n) {
      SplitOfJoin(names, ',');
      assert Split(list, ',') == names;
      forall n | n in names ensures TrimSpace(n) == n
      {
        TrimSpaceTrims(n);
      }
      assert TrimmedFields(list) == set n | n in names;
    }
  }

  /** The id in the state gives back type and name exactly when neither holds a slash. */
  lemma EntityIdSplits(entityType: string, entityName: string)
    ensures Split(EntityId(entityType, entityName), '/') == [entityType, entityName]
            <==> '/' !in entityType && '/' !in entityName
  {
    SplitOfPair(entityType, entityName, '/');
  }

  /** A padded field is the field. */
  lemma PaddingIsIgnored(left: string, name: string, right: string)
    requires Trimmed(name) && forall c :: c in left + right ==> IsSpace(c)
    ensures TrimSpace(left + name + right) == TrimSpace(name)
  {
    TrimSpaceIgnoresPadding(left, name, right);
    TrimSpaceTrims(name);
  }

  /** An import, and every read after it, tracks exactly the listed names, whatever the server holds. */
  lemma ImportTracksTheList(entities: Entities, importId: string, entities': Entities, f: Faults, g: Faults)
    requires ImportStep(entities, importId, f).1 == Done
    ensures |Split(importId, '/')| == 4
    ensures var w := ImportStep(entities, importId, f).0;
            var names := Listed(Split(importId, '/')[3]).Keys;
            && w.state.attributes.Keys == names && QUALIFIED_NAME !in names
            && ReadStep(World(entities', w.state), false, g).0.state.attributes.Keys == names
  {
  }
}
