/** The migration planner: how an old system's objects and fields line up with a target's. */
module Planner {
  import opened Values
  import opened Contracts

  datatype SystemKind = Old | Selected

  datatype SystemObject = SystemObject(key: string, label_: string, fieldKeys: seq<string>, recordCount: nat)

  datatype Snapshot = Snapshot(kind: SystemKind, key: string, objects: seq<SystemObject>)

  datatype MappingStatus = Mapped | TypeMismatch | AddedInTarget | DroppedFromSource | MissingRequiredInTarget

  datatype FieldMapping = FieldMapping(
    source: Option<string>,
    target: Option<string>,
    sourceType: Option<FieldType>,
    targetType: Option<FieldType>,
    status: MappingStatus)

  datatype ObjectMapping = ObjectMapping(
    source: Option<string>,
    target: Option<string>,
    label_: string,
    recordCount: nat,
    fields: seq<FieldMapping>)

  datatype ConflictKind = UnmappedObject | MismatchedType | MissingRequired | DroppedField

  datatype PlanConflict = PlanConflict(kind: ConflictKind, object_: string, field: Option<string>)

  datatype Summary = Summary(
    sourceObjects: nat,
    targetObjects: nat,
    mappedObjects: nat,
    sourceRecords: nat,
    recordsMappable: nat,
    recordsUnmapped: int,
    conflicts: nat)

  datatype Plan = Plan(
    source: Snapshot, target: Snapshot, mappings: seq<ObjectMapping>, conflicts: seq<PlanConflict>, summary: Summary)

  /** A template's object definition, as far as planning reads it. */
  datatype TargetDef = TargetDef(key: string, label_: string, fields: seq<FieldDef>)

  type Counts = map<string, nat>

  function CountOf(counts: Counts, key: string): nat {
    if key in counts then counts[key] else 0
  }

  function FieldKeys(fields: seq<FieldDef>): (r: seq<string>)
    ensures |r| == |fields| && forall i | 0 <= i < |fields| :: r[i] == fields[i].key
  {
    if fields == [] then [] else FieldKeys(fields[..|fields| - 1]) + [fields[|fields| - 1].key]
  }

  // ---- fields ----------------------------------------------------------------------------------

  /** The mapping of one target field. */
  function MapTargetField(source: seq<FieldDef>, tf: FieldDef): FieldMapping {
    match FieldOf(source, tf.key)
    case Some(sf) =>
      FieldMapping(Some(sf.key), Some(tf.key), Some(sf.fieldType), Some(tf.fieldType),
                   if sf.fieldType == tf.fieldType then Mapped else TypeMismatch)
    case None =>
      FieldMapping(None, Some(tf.key), None, Some(tf.fieldType),
                   if tf.required then MissingRequiredInTarget else AddedInTarget)
  }

  function DroppedMapping(sf: FieldDef): FieldMapping {
    FieldMapping(Some(sf.key), None, Some(sf.fieldType), None, DroppedFromSource)
  }

  predicate IsProblem(status: MappingStatus) {
    status.TypeMismatch? || status.MissingRequiredInTarget? || status.DroppedFromSource?
  }

  /** The conflict a problem mapping raises on an object. */
  function ConflictFor(targetKey: string, m: FieldMapping): PlanConflict {
    PlanConflict(match m.status
             case TypeMismatch => MismatchedType
             case MissingRequiredInTarget => MissingRequired
             case _ => DroppedField,
             targetKey,
             if m.status.DroppedFromSource? then m.source else m.target)
  }

  function ConflictsOf(targetKey: string, ms: seq<FieldMapping>): seq<PlanConflict> {
    if ms == [] then []
    else
      var last := ms[|ms| - 1];
      ConflictsOf(targetKey, ms[..|ms| - 1])
      + (if IsProblem(last.status) then [ConflictFor(targetKey, last)] else [])
  }

  function MapTargetFields(source: seq<FieldDef>, target: seq<FieldDef>): (r: seq<FieldMapping>)
    ensures |r| == |target|
    ensures forall i | 0 <= i < |target| :: r[i] == MapTargetField(source, target[i])
  {
    if target == [] then []
    else MapTargetFields(source, target[..|target| - 1]) + [MapTargetField(source, target[|target| - 1])]
  }

  /** The source fields without a home, in order. */
  function MapDropped(source: seq<FieldDef>, targetKeys: seq<string>): seq<FieldMapping> {
    if source == [] then []
    else
      var last := source[|source| - 1];
      MapDropped(source[..|source| - 1], targetKeys)
      + (if last.key !in targetKeys then [DroppedMapping(last)] else [])
  }

  function MapFields(source: seq<FieldDef>, target: seq<FieldDef>): seq<FieldMapping> {
    MapTargetFields(source, target) + MapDropped(source, FieldKeys(target))
  }

  lemma ConflictsAppend(targetKey: string, ms: seq<FieldMapping>, m: FieldMapping)
    ensures ConflictsOf(targetKey, ms + [m])
            == ConflictsOf(targetKey, ms) + (if IsProblem(m.status) then [ConflictFor(targetKey, m)] else [])
  {
  }

  /** What one target field adds: its mapping, and a conflict if the types differ or a required
      field has no source. */
  method MapOneField(targetKey: string, source: seq<FieldDef>, tf: FieldDef, conflicts: seq<PlanConflict>)
    returns (m: FieldMapping, conflicts': seq<PlanConflict>)
    ensures m == MapTargetField(source, tf)
    ensures conflicts' == conflicts + (if IsProblem(m.status) then [ConflictFor(targetKey, m)] else [])
  {
    conflicts' := conflicts;
    var sf := FieldOf(source, tf.key);
    if sf.Some? {
      if sf.value.fieldType == tf.fieldType {
        m := FieldMapping(Some(sf.value.key), Some(tf.key), Some(sf.value.fieldType), Some(tf.fieldType), Mapped);
      } else {
        conflicts' := conflicts' + [PlanConflict(MismatchedType, targetKey, Some(tf.key))];
        m := FieldMapping(Some(sf.value.key), Some(tf.key), Some(sf.value.fieldType), Some(tf.fieldType), TypeMismatch);
      }
    } else if tf.required {
      conflicts' := conflicts' + [PlanConflict(MissingRequired, targetKey, Some(tf.key))];
      m := FieldMapping(None, Some(tf.key), None, Some(tf.fieldType), MissingRequiredInTarget);
    } else {
      m := FieldMapping(None, Some(tf.key), None, Some(tf.fieldType), AddedInTarget);
    }
  }

  /** The first loop: every target field. */
  method MapHomes(targetKey: string, source: seq<FieldDef>, target: seq<FieldDef>, conflicts: seq<PlanConflict>)
    returns (mappings: seq<FieldMapping>, conflicts': seq<PlanConflict>)
    ensures mappings == MapTargetFields(source, target)
    ensures conflicts' == conflicts + ConflictsOf(targetKey, mappings)
  {
    mappings, conflicts' := [], conflicts;
    for i := 0 to |target|
      invariant |mappings| == i && forall k | 0 <= k < i :: mappings[k] == MapTargetField(source, target[k])
      invariant conflicts' == conflicts + ConflictsOf(targetKey, mappings)
    {
      var m, more := MapOneField(targetKey, source, target[i], conflicts');
      ConflictsAppend(targetKey, mappings, m);
      mappings, conflicts' := mappings + [m], more;
    }
  }

  /** The second loop: every source field without a home. */
  method MapHomeless(
    targetKey: string, source: seq<FieldDef>, targetKeys: seq<string>, homes: seq<FieldMapping>, cs: seq<PlanConflict>)
    returns (mappings: seq<FieldMapping>, conflicts: seq<PlanConflict>)
    ensures mappings == homes + MapDropped(source, targetKeys)
    ensures forall before :: cs == before + ConflictsOf(targetKey, homes)
                             ==> conflicts == before + ConflictsOf(targetKey, mappings)
  {
    mappings, conflicts := homes, cs;
    for i := 0 to |source|
      invariant mappings == homes + MapDropped(source[..i], targetKeys)
      invariant forall before :: cs == before + ConflictsOf(targetKey, homes)
                                 ==> conflicts == before + ConflictsOf(targetKey, mappings)
    {
      assert source[..i + 1][..i] == source[..i];
      if source[i].key !in targetKeys {
        var m := DroppedMapping(source[i]);
        ConflictsAppend(targetKey, mappings, m);
        conflicts := conflicts + [PlanConflict(DroppedField, targetKey, Some(source[i].key))];
        mappings := mappings + [m];
      }
    }
    assert source[..|source|] == source;
  }

  /** Both loops. Conflicts go to the caller's list, one for each problem mapping and in the
      same order. */
  method BuildFieldMappings(
    targetKey: string, source: seq<FieldDef>, target: seq<FieldDef>, conflicts: seq<PlanConflict>)
    returns (mappings: seq<FieldMapping>, conflicts': seq<PlanConflict>)
    ensures mappings == MapFields(source, target)
    ensures conflicts' == conflicts + ConflictsOf(targetKey, mappings)
  {
    var homes, cs := MapHomes(targetKey, source, target, conflicts);
    mappings, conflicts' := MapHomeless(targetKey, source, FieldKeys(target), homes, cs);
  }

  // ---- objects -----------------------------------------------------------------------------------

  /** The old objects by key; of two with one key the later wins. */
  function ByKey(objects: seq<ObjectType>): (m: map<string, ObjectType>)
    ensures forall k :: k in m <==> exists o | o in objects :: o.key == k
    ensures forall k | k in m :: m[k] in objects && m[k].key == k
  {
    if objects == [] then map[]
    else
      var last := objects[|objects| - 1];
      ByKey(objects[..|objects| - 1])[last.key := last]
  }

  function TargetKeys(targets: seq<TargetDef>): (s: set<string>)
    ensures forall k :: k in s <==> exists t | t in targets :: t.key == k
  {
    set t | t in targets :: t.key
  }

  function MapTarget(oldByKey: map<string, ObjectType>, counts: Counts, def: TargetDef): ObjectMapping {
    if def.key in oldByKey then
      ObjectMapping(Some(def.key), Some(def.key), def.label_, CountOf(counts, def.key),
                    MapFields(oldByKey[def.key].fields, def.fields))
    else
      ObjectMapping(None, Some(def.key), def.label_, 0, NewFields(def.fields))
  }

  function NewFields(fields: seq<FieldDef>): (r: seq<FieldMapping>)
    ensures |r| == |fields|
    ensures forall i | 0 <= i < |r| ::
              r[i] == FieldMapping(None, Some(fields[i].key), None, Some(fields[i].fieldType), AddedInTarget)
  {
    if fields == [] then []
    else NewFields(fields[..|fields| - 1])
         + [FieldMapping(None, Some(fields[|fields| - 1].key), None, Some(fields[|fields| - 1].fieldType),
                         AddedInTarget)]
  }

  function LeftFields(fields: seq<FieldDef>): (r: seq<FieldMapping>)
    ensures |r| == |fields|
    ensures forall i | 0 <= i < |r| :: r[i] == DroppedMapping(fields[i])
  {
    if fields == [] then []
    else LeftFields(fields[..|fields| - 1]) + [DroppedMapping(fields[|fields| - 1])]
  }

  function MapLeft(counts: Counts, source: ObjectType): ObjectMapping {
    ObjectMapping(Some(source.key), None, source.label_, CountOf(counts, source.key), LeftFields(source.fields))
  }

  predicate TwoSided(m: ObjectMapping) {
    m.source.Some? && m.target.Some?
  }

  function MapTargets(oldByKey: map<string, ObjectType>, counts: Counts, targets: seq<TargetDef>): seq<ObjectMapping> {
    if targets == [] then []
    else MapTargets(oldByKey, counts, targets[..|targets| - 1]) + [MapTarget(oldByKey, counts, targets[|targets| - 1])]
  }

  function MapLeftovers(targetKeys: set<string>, counts: Counts, objects: seq<ObjectType>): seq<ObjectMapping> {
    if objects == [] then []
    else
      var last := objects[|objects| - 1];
      MapLeftovers(targetKeys, counts, objects[..|objects| - 1])
      + (if last.key !in targetKeys then [MapLeft(counts, last)] else [])
  }

  /** The conflicts one object mapping raises. */
  function ObjectConflicts(m: ObjectMapping): seq<PlanConflict> {
    if TwoSided(m) then ConflictsOf(m.target.value, m.fields)
    else if m.source.Some? then [PlanConflict(UnmappedObject, m.source.value, None)]
    else []
  }

  function AllConflicts(ms: seq<ObjectMapping>): seq<PlanConflict> {
    if ms == [] then []
    else AllConflicts(ms[..|ms| - 1]) + ObjectConflicts(ms[|ms| - 1])
  }

  function CountTwoSided(ms: seq<ObjectMapping>): nat {
    if ms == [] then 0
    else CountTwoSided(ms[..|ms| - 1]) + if TwoSided(ms[|ms| - 1]) then 1 else 0
  }

  /** Which mappings a record total ranges over. */
  datatype Side = Every | Both | SourceOnly

  predicate OnSide(m: ObjectMapping, side: Side) {
    match side
    case Every => true
    case Both => TwoSided(m)
    case SourceOnly => m.source.Some? && m.target.None?
  }

  function RecordsOn(ms: seq<ObjectMapping>, side: Side): nat {
    if ms == [] then 0
    else RecordsOn(ms[..|ms| - 1], side) + if OnSide(ms[|ms| - 1], side) then ms[|ms| - 1].recordCount else 0
  }

  function SnapshotObjects(objects: seq<ObjectType>, counts: Counts): (r: seq<SystemObject>)
    ensures |r| == |objects|
  {
    if objects == [] then []
    else
      var o := objects[|objects| - 1];
      SnapshotObjects(objects[..|objects| - 1], counts)
      + [SystemObject(o.key, o.label_, FieldKeys(o.fields), CountOf(counts, o.key))]
  }

  const INSTALLED := "installed"

  function OldSnapshot(objects: seq<ObjectType>, counts: Counts): Snapshot {
    Snapshot(Old, INSTALLED, SnapshotObjects(objects, counts))
  }

  function TargetObjects(
    targets: seq<TargetDef>, oldByKey: map<string, ObjectType>, counts: Counts): seq<SystemObject>
  {
    if targets == [] then []
    else
      var def := targets[|targets| - 1];
      TargetObjects(targets[..|targets| - 1], oldByKey, counts)
      + [SystemObject(def.key, def.label_, FieldKeys(def.fields),
                      if def.key in oldByKey then CountOf(counts, def.key) else 0)]
  }

  function TotalRecords(objects: seq<SystemObject>): nat {
    if objects == [] then 0
    else TotalRecords(objects[..|objects| - 1]) + objects[|objects| - 1].recordCount
  }

  function PlanMappings(objects: seq<ObjectType>, counts: Counts, targets: seq<TargetDef>): seq<ObjectMapping> {
    MapTargets(ByKey(objects), counts, targets) + MapLeftovers(TargetKeys(targets), counts, objects)
  }

  /** The plan around finished mappings, conflicts and counters. */
  function AssemblePlan(
    targetKey: string, objects: seq<ObjectType>, counts: Counts, targets: seq<TargetDef>, ms: seq<ObjectMapping>,
    conflicts: seq<PlanConflict>, mapped: nat, mappable: nat): Plan
  {
    var source := OldSnapshot(objects, counts);
    var total := TotalRecords(source.objects);
    Plan(source, Snapshot(Selected, targetKey, TargetObjects(targets, ByKey(objects), counts)), ms, conflicts,
         Summary(|objects|, |targets|, mapped, total, mappable, total - mappable, |conflicts|))
  }

  function PlanFor(targetKey: string, objects: seq<ObjectType>, counts: Counts, targets: seq<TargetDef>): Plan {
    var ms := PlanMappings(objects, counts, targets);
    AssemblePlan(targetKey, objects, counts, targets, ms, AllConflicts(ms), CountTwoSided(ms), RecordsOn(ms, Both))
  }

  lemma MappingAppend(ms: seq<ObjectMapping>, m: ObjectMapping, side: Side)
    ensures AllConflicts(ms + [m]) == AllConflicts(ms) + ObjectConflicts(m)
    ensures CountTwoSided(ms + [m]) == CountTwoSided(ms) + if TwoSided(m) then 1 else 0
    ensures RecordsOn(ms + [m], side) == RecordsOn(ms, side) + if OnSide(m, side) then m.recordCount else 0
  {
  }

  /** One target object: matched to an old object of its key, or brand new. */
  method MapOneTarget(
    oldByKey: map<string, ObjectType>, counts: Counts, def: TargetDef, conflicts: seq<PlanConflict>)
    returns (m: ObjectMapping, conflicts': seq<PlanConflict>)
    ensures m == MapTarget(oldByKey, counts, def)
    ensures conflicts' == conflicts + ObjectConflicts(m)
  {
    if def.key in oldByKey {
      var fields, cs := BuildFieldMappings(def.key, oldByKey[def.key].fields, def.fields, conflicts);
      m := ObjectMapping(Some(def.key), Some(def.key), def.label_, CountOf(counts, def.key), fields);
      conflicts' := cs;
    } else {
      m := ObjectMapping(None, Some(def.key), def.label_, 0, NewFields(def.fields));
      conflicts' := conflicts;
    }
  }

  /** The target loop, with running counters and conflicts. */
  method MapTargetObjects(oldByKey: map<string, ObjectType>, counts: Counts, targets: seq<TargetDef>)
    returns (mappings: seq<ObjectMapping>, conflicts: seq<PlanConflict>, mapped: nat, mappable: nat)
    ensures mappings == MapTargets(oldByKey, counts, targets)
    ensures conflicts == AllConflicts(mappings)
    ensures mapped == CountTwoSided(mappings) && mappable == RecordsOn(mappings, Both)
  {
    hide MapTarget, ObjectConflicts;
    mappings, conflicts, mapped, mappable := [], [], 0, 0;
    for i := 0 to |targets|
      invariant mappings == MapTargets(oldByKey, counts, targets[..i])
      invariant conflicts == AllConflicts(mappings)
      invariant mapped == CountTwoSided(mappings) && mappable == RecordsOn(mappings, Both)
    {
      assert targets[..i + 1][..i] == targets[..i];
      var m, cs := MapOneTarget(oldByKey, counts, targets[i], conflicts);
      MappingAppend(mappings, m, Both);
      if TwoSided(m) {
        mapped, mappable := mapped + 1, mappable + m.recordCount;
      }
      mappings, conflicts := mappings + [m], cs;
    }
    assert targets[..|targets|] == targets;
  }

  lemma LeftoversAppend(targetKeys: set<string>, counts: Counts, objects: seq<ObjectType>, i: nat)
    requires i < |objects|
    ensures MapLeftovers(targetKeys, counts, objects[..i + 1])
            == MapLeftovers(targetKeys, counts, objects[..i])
               + (if objects[i].key !in targetKeys then [MapLeft(counts, objects[i])] else [])
  {
    assert objects[..i + 1][..i] == objects[..i];
  }

  /** The source loop: objects without a counterpart stay in the old system. */
  method MapLeftObjects(
    targetKeys: set<string>, counts: Counts, objects: seq<ObjectType>, ms: seq<ObjectMapping>, cs: seq<PlanConflict>)
    returns (mappings: seq<ObjectMapping>, conflicts: seq<PlanConflict>)
    requires cs == AllConflicts(ms)
    ensures mappings == ms + MapLeftovers(targetKeys, counts, objects)
    ensures conflicts == AllConflicts(mappings)
    ensures CountTwoSided(mappings) == CountTwoSided(ms) && RecordsOn(mappings, Both) == RecordsOn(ms, Both)
  {
    hide AllConflicts, CountTwoSided, RecordsOn;
    mappings, conflicts := ms, cs;
    for i := 0 to |objects|
      invariant mappings == ms + MapLeftovers(targetKeys, counts, objects[..i])
      invariant conflicts == AllConflicts(mappings)
      invariant CountTwoSided(mappings) == CountTwoSided(ms) && RecordsOn(mappings, Both) == RecordsOn(ms, Both)
    {
      LeftoversAppend(targetKeys, counts, objects, i);
      if objects[i].key !in targetKeys {
        var m := MapLeft(counts, objects[i]);
        MappingAppend(mappings, m, Both);
        conflicts := conflicts + [PlanConflict(UnmappedObject, objects[i].key, None)];
        mappings := mappings + [m];
      }
    }
    assert objects[..|objects|] == objects;
  }

  method BuildPlan(targetKey: string, objects: seq<ObjectType>, counts: Counts, targets: seq<TargetDef>)
    returns (plan: Plan)
    ensures plan == PlanFor(targetKey, objects, counts, targets)
  {
    var oldByKey := ByKey(objects);
    var ms, cs, mapped, mappable := MapTargetObjects(oldByKey, counts, targets);
    var mappings, conflicts := MapLeftObjects(TargetKeys(targets), counts, objects, ms, cs);
    plan := AssemblePlan(targetKey, objects, counts, targets, mappings, conflicts, mapped, mappable);
  }
}
