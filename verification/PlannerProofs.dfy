/** What a migration plan promises: no record or field is lost or counted twice, and zero
    conflicts means exactly that everything old has a home. */
module PlannerProofs {
  import opened Values
  import opened Contracts
  import opened Planner

  // ---- keys --------------------------------------------------------------------------------------

  predicate Distinct(keys: seq<string>) {
    forall i, j | 0 <= i < j < |keys| :: keys[i] != keys[j]
  }

  function ObjectKeys(objects: seq<ObjectType>): (r: seq<string>)
    ensures |r| == |objects| && forall i | 0 <= i < |r| :: r[i] == objects[i].key
  {
    if objects == [] then [] else ObjectKeys(objects[..|objects| - 1]) + [objects[|objects| - 1].key]
  }

  function DefKeys(targets: seq<TargetDef>): (r: seq<string>)
    ensures |r| == |targets| && forall i | 0 <= i < |r| :: r[i] == targets[i].key
  {
    if targets == [] then [] else DefKeys(targets[..|targets| - 1]) + [targets[|targets| - 1].key]
  }

  function MappingKey(m: ObjectMapping): string {
    if m.target.Some? then m.target.value else if m.source.Some? then m.source.value else ""
  }

  function MappingKeys(ms: seq<ObjectMapping>): (r: seq<string>)
    ensures |r| == |ms| && forall i | 0 <= i < |r| :: r[i] == MappingKey(ms[i])
  {
    if ms == [] then [] else MappingKeys(ms[..|ms| - 1]) + [MappingKey(ms[|ms| - 1])]
  }

  /** The keys in (or not in) the set, in order. */
  function Filter(keys: seq<string>, s: set<string>, inside: bool): (r: seq<string>)
    ensures forall k :: k in r <==> k in keys && ((k in s) == inside)
    ensures Distinct(keys) ==> Distinct(r)
  {
    if keys == [] then []
    else
      var last, rest := keys[|keys| - 1], Filter(keys[..|keys| - 1], s, inside);
      assert keys == keys[..|keys| - 1] + [last];
      assert Distinct(keys) ==> forall i | 0 <= i < |keys| - 1 :: keys[i] != last;
      if (last in s) == inside then rest + [last] else rest
  }

  function SumOver(keys: seq<string>, counts: Counts): nat {
    if keys == [] then 0 else SumOver(keys[..|keys| - 1], counts) + CountOf(counts, keys[|keys| - 1])
  }

  lemma {:induction false} SumOverConcat(a: seq<string>, b: seq<string>, counts: Counts)
    ensures SumOver(a + b, counts) == SumOver(a, counts) + SumOver(b, counts)
  {
    if b == [] {
      assert a + b == a;
    } else {
      assert (a + b)[..|a + b| - 1] == a + b[..|b| - 1];
      SumOverConcat(a, b[..|b| - 1], counts);
    }
  }

  /** A sum over distinct keys depends only on which keys they are, not on their order. */
  lemma {:induction false} SumOverSameKeys(a: seq<string>, b: seq<string>, counts: Counts)
    requires Distinct(a) && Distinct(b) && forall k :: k in a <==> k in b
    ensures SumOver(a, counts) == SumOver(b, counts)
    decreases |a|
  {
    if a == [] {
      assert forall i | 0 <= i < |b| :: b[i] in a;
    } else {
      var x, a' := a[|a| - 1], a[..|a| - 1];
      assert x in a;
      var i :| 0 <= i < |b| && b[i] == x;
      var front, back := b[..i], b[i + 1..];
      assert b == front + [x] + back;
      RemovalKeepsTheRest(a, b, i);
      SumOverSameKeys(a', front + back, counts);
      SumOverConcat(front, back, counts);
      SumOverConcat(front + [x], back, counts);
      SumOverConcat(front, [x], counts);
      assert [x][..0] == [];
    }
  }

  lemma RemovalKeepsTheRest(a: seq<string>, b: seq<string>, i: nat)
    requires a != [] && Distinct(a) && Distinct(b) && (forall k :: k in a <==> k in b)
    requires i < |b| && b[i] == a[|a| - 1]
    ensures var a', b' := a[..|a| - 1], b[..i] + b[i + 1..];
            Distinct(a') && Distinct(b') && forall k :: k in a' <==> k in b'
  {
    var x, a', b' := a[|a| - 1], a[..|a| - 1], b[..i] + b[i + 1..];
    assert a == a' + [x] && b == b[..i] + [x] + b[i + 1..];
    assert x !in a' && x !in b[..i] && x !in b[i + 1..];
    forall k ensures k in a' <==> k in b' {
      assert k in a <==> k in a' || k == x;
      assert k in b <==> k in b' || k == x;
    }
  }

  lemma {:induction false} SumSplits(keys: seq<string>, s: set<string>, counts: Counts)
    ensures SumOver(Filter(keys, s, true), counts) + SumOver(Filter(keys, s, false), counts) == SumOver(keys, counts)
  {
    if keys != [] {
      var last := keys[|keys| - 1];
      SumSplits(keys[..|keys| - 1], s, counts);
      var rest := Filter(keys[..|keys| - 1], s, last in s);
      assert (rest + [last])[..|rest|] == rest;
    }
  }

  // ---- the plan's record totals as key sums --------------------------------------------------------

  lemma {:induction false} TargetRecords(
    oldByKey: map<string, ObjectType>, counts: Counts, targets: seq<TargetDef>, side: Side)
    ensures RecordsOn(MapTargets(oldByKey, counts, targets), side)
            == if side.SourceOnly? then 0 else SumOver(Filter(DefKeys(targets), oldByKey.Keys, true), counts)
  {
    if targets != [] {
      var init, def := targets[..|targets| - 1], targets[|targets| - 1];
      TargetRecords(oldByKey, counts, init, side);
      MappingAppend(MapTargets(oldByKey, counts, init), MapTarget(oldByKey, counts, def), side);
      SumAppend(Filter(DefKeys(init), oldByKey.Keys, true), def.key, counts);
    }
  }

  lemma {:induction false} TargetSnapshotRecords(
    oldByKey: map<string, ObjectType>, counts: Counts, targets: seq<TargetDef>)
    ensures TotalRecords(TargetObjects(targets, oldByKey, counts))
            == SumOver(Filter(DefKeys(targets), oldByKey.Keys, true), counts)
  {
    if targets != [] {
      var init, def := targets[..|targets| - 1], targets[|targets| - 1];
      TargetSnapshotRecords(oldByKey, counts, init);
      SumAppend(Filter(DefKeys(init), oldByKey.Keys, true), def.key, counts);
    }
  }

  lemma {:induction false} TargetMappingKeys(oldByKey: map<string, ObjectType>, counts: Counts, targets: seq<TargetDef>)
    ensures MappingKeys(MapTargets(oldByKey, counts, targets)) == DefKeys(targets)
  {
    if targets != [] {
      TargetMappingKeys(oldByKey, counts, targets[..|targets| - 1]);
    }
  }

  lemma SumAppend(keys: seq<string>, key: string, counts: Counts)
    ensures SumOver(keys + [key], counts) == SumOver(keys, counts) + CountOf(counts, key)
  {
  }

  lemma {:induction false} LeftoverRecords(
    targetKeys: set<string>, counts: Counts, objects: seq<ObjectType>, side: Side)
    ensures RecordsOn(MapLeftovers(targetKeys, counts, objects), side)
            == if side.Both? then 0 else SumOver(Filter(ObjectKeys(objects), targetKeys, false), counts)
  {
    hide MapLeftovers, Filter, ObjectKeys;
    if objects != [] {
      var init, o := objects[..|objects| - 1], objects[|objects| - 1];
      LeftoverRecords(targetKeys, counts, init, side);
      LeftoverStep(targetKeys, counts, objects);
      if o.key !in targetKeys {
        MappingAppend(MapLeftovers(targetKeys, counts, init), MapLeft(counts, o), side);
        SumAppend(Filter(ObjectKeys(init), targetKeys, false), o.key, counts);
      } else {
        assert MapLeftovers(targetKeys, counts, init) + [] == MapLeftovers(targetKeys, counts, init);
        assert Filter(ObjectKeys(init), targetKeys, false) + [] == Filter(ObjectKeys(init), targetKeys, false);
      }
    } else {
      NothingLeft(targetKeys, counts, side);
    }
  }

  lemma NothingLeft(targetKeys: set<string>, counts: Counts, side: Side)
    ensures RecordsOn(MapLeftovers(targetKeys, counts, []), side) == 0
    ensures SumOver(Filter(ObjectKeys([]), targetKeys, false), counts) == 0
  {
  }

  lemma {:induction false} LeftoverMappingKeys(targetKeys: set<string>, counts: Counts, objects: seq<ObjectType>)
    ensures MappingKeys(MapLeftovers(targetKeys, counts, objects)) == Filter(ObjectKeys(objects), targetKeys, false)
  {
    if objects != [] {
      var init, o := objects[..|objects| - 1], objects[|objects| - 1];
      LeftoverMappingKeys(targetKeys, counts, init);
      if o.key !in targetKeys {
        MappingKeysConcat(MapLeftovers(targetKeys, counts, init), [MapLeft(counts, o)]);
      }
      LeftoverStep(targetKeys, counts, objects);
    }
  }

  lemma LeftoverStep(targetKeys: set<string>, counts: Counts, objects: seq<ObjectType>)
    requires objects != []
    ensures var init, o := objects[..|objects| - 1], objects[|objects| - 1];
            && MapLeftovers(targetKeys, counts, objects)
               == MapLeftovers(targetKeys, counts, init) + (if o.key !in targetKeys then [MapLeft(counts, o)] else [])
            && Filter(ObjectKeys(objects), targetKeys, false)
               == Filter(ObjectKeys(init), targetKeys, false) + (if o.key !in targetKeys then [o.key] else [])
            && MappingKeys([MapLeft(counts, o)]) == [o.key]
  {
  }

  lemma {:induction false} SourceTotal(counts: Counts, objects: seq<ObjectType>)
    ensures TotalRecords(SnapshotObjects(objects, counts)) == SumOver(ObjectKeys(objects), counts)
  {
    if objects != [] {
      SourceTotal(counts, objects[..|objects| - 1]);
    }
  }

  lemma {:induction false} RecordsOnConcat(a: seq<ObjectMapping>, b: seq<ObjectMapping>, side: Side)
    ensures RecordsOn(a + b, side) == RecordsOn(a, side) + RecordsOn(b, side)
  {
    if b == [] {
      assert a + b == a;
    } else {
      assert (a + b)[..|a + b| - 1] == a + b[..|b| - 1];
      RecordsOnConcat(a, b[..|b| - 1], side);
    }
  }

  /** With unique object keys on each side, no record is lost or counted twice: the mappings'
      record counts add up to the source total, the two-sided ones to the mappable total and to
      the target snapshot's total, and the source-only ones to the unmapped total. */
  lemma PlanConservesRecords(targetKey: string, objects: seq<ObjectType>, counts: Counts, targets: seq<TargetDef>)
    requires Distinct(ObjectKeys(objects)) && Distinct(DefKeys(targets))
    ensures var p := PlanFor(targetKey, objects, counts, targets);
            && RecordsOn(p.mappings, Every) == p.summary.sourceRecords == TotalRecords(p.source.objects)
            && RecordsOn(p.mappings, Both) == p.summary.recordsMappable == TotalRecords(p.target.objects)
            && RecordsOn(p.mappings, SourceOnly) == p.summary.recordsUnmapped
  {
    hide MapTargets, MapLeftovers, SumOver, Filter, PlanMappings, RecordsOn, SnapshotObjects, TotalRecords,
      TargetObjects;
    SourceTotal(counts, objects);
    SumSplits(ObjectKeys(objects), TargetKeys(targets), counts);
    SharedKeys(objects, targets);
    SumOverSameKeys(Filter(DefKeys(targets), ByKey(objects).Keys, true),
                    Filter(ObjectKeys(objects), TargetKeys(targets), true), counts);
    TargetSnapshotRecords(ByKey(objects), counts, targets);
    PlanRecords(objects, counts, targets, Every);
    PlanRecords(objects, counts, targets, Both);
    PlanRecords(objects, counts, targets, SourceOnly);
  }

  lemma PlanRecords(objects: seq<ObjectType>, counts: Counts, targets: seq<TargetDef>, side: Side)
    ensures RecordsOn(PlanMappings(objects, counts, targets), side)
            == (if side.SourceOnly? then 0 else SumOver(Filter(DefKeys(targets), ByKey(objects).Keys, true), counts))
             + (if side.Both? then 0 else SumOver(Filter(ObjectKeys(objects), TargetKeys(targets), false), counts))
  {
    var front, back := MapTargets(ByKey(objects), counts, targets), MapLeftovers(TargetKeys(targets), counts, objects);
    RecordsOnConcat(front, back, side);
    TargetRecords(ByKey(objects), counts, targets, side);
    LeftoverRecords(TargetKeys(targets), counts, objects, side);
  }

  lemma KeyMembership(objects: seq<ObjectType>, targets: seq<TargetDef>, k: string)
    ensures k in ByKey(objects) <==> k in ObjectKeys(objects)
    ensures k in TargetKeys(targets) <==> k in DefKeys(targets)
  {
  }

  lemma SharedKeys(objects: seq<ObjectType>, targets: seq<TargetDef>)
    ensures forall k :: k in Filter(DefKeys(targets), ByKey(objects).Keys, true)
                        <==> k in Filter(ObjectKeys(objects), TargetKeys(targets), true)
  {
  }

  lemma MappingKeysConcat(a: seq<ObjectMapping>, b: seq<ObjectMapping>)
    ensures MappingKeys(a + b) == MappingKeys(a) + MappingKeys(b)
  {
  }

  /** The plan has exactly one entry for each object key of either side. */
  lemma PlanCoversEachObjectOnce(targetKey: string, objects: seq<ObjectType>, counts: Counts, targets: seq<TargetDef>)
    requires Distinct(ObjectKeys(objects)) && Distinct(DefKeys(targets))
    ensures var keys := MappingKeys(PlanFor(targetKey, objects, counts, targets).mappings);
            Distinct(keys) && forall k :: k in keys <==> k in ObjectKeys(objects) || k in DefKeys(targets)
  {
    var oldByKey, targetKeys := ByKey(objects), TargetKeys(targets);
    var front, back := MapTargets(oldByKey, counts, targets), MapLeftovers(targetKeys, counts, objects);
    TargetMappingKeys(oldByKey, counts, targets);
    LeftoverMappingKeys(targetKeys, counts, objects);
    MappingKeysConcat(front, back);
    var keys := MappingKeys(front + back);
    assert keys == DefKeys(targets) + Filter(ObjectKeys(objects), targetKeys, false);
    forall k ensures k in keys <==> k in ObjectKeys(objects) || k in DefKeys(targets) {
      KeyMembership(objects, targets, k);
    }
    forall i, j | 0 <= i < j < |keys| ensures keys[i] != keys[j] {
      if i < |targets| <= j {
        assert keys[j] in Filter(ObjectKeys(objects), targetKeys, false);
        KeyMembership(objects, targets, keys[j]);
        assert keys[i] == DefKeys(targets)[i];
      }
    }
  }

  // ---- fields ----------------------------------------------------------------------------------------

  /** How many mappings name the key as their source, or as their target. */
  function Naming(ms: seq<FieldMapping>, key: string, asSource: bool): nat {
    if ms == [] then 0
    else
      var m := ms[|ms| - 1];
      Naming(ms[..|ms| - 1], key, asSource) + if (if asSource then m.source else m.target) == Some(key) then 1 else 0
  }

  function Occurrences(keys: seq<string>, key: string): nat {
    if keys == [] then 0
    else Occurrences(keys[..|keys| - 1], key) + if keys[|keys| - 1] == key then 1 else 0
  }

  lemma {:induction false} DistinctOccursOnce(keys: seq<string>, key: string)
    requires Distinct(keys)
    ensures Occurrences(keys, key) == if key in keys then 1 else 0
  {
    if keys != [] {
      var init, last := keys[..|keys| - 1], keys[|keys| - 1];
      assert keys == init + [last];
      DistinctOccursOnce(init, key);
    }
  }

  lemma {:induction false} NamingConcat(a: seq<FieldMapping>, b: seq<FieldMapping>, key: string, asSource: bool)
    ensures Naming(a + b, key, asSource) == Naming(a, key, asSource) + Naming(b, key, asSource)
  {
    if b == [] {
      assert a + b == a;
    } else {
      assert (a + b)[..|a + b| - 1] == a + b[..|b| - 1];
      NamingConcat(a, b[..|b| - 1], key, asSource);
    }
  }

  lemma {:induction false} HomesName(source: seq<FieldDef>, target: seq<FieldDef>, key: string)
    ensures Naming(MapTargetFields(source, target), key, false) == Occurrences(FieldKeys(target), key)
    ensures Naming(MapTargetFields(source, target), key, true)
            == if FieldOf(source, key).Some? then Occurrences(FieldKeys(target), key) else 0
  {
    if target != [] {
      HomesName(source, target[..|target| - 1], key);
    }
  }

  lemma {:induction false} DroppedName(source: seq<FieldDef>, targetKeys: seq<string>, key: string)
    ensures Naming(MapDropped(source, targetKeys), key, false) == 0
    ensures Naming(MapDropped(source, targetKeys), key, true)
            == if key in targetKeys then 0 else Occurrences(FieldKeys(source), key)
  {
    if source != [] {
      var last, rest := source[|source| - 1], MapDropped(source[..|source| - 1], targetKeys);
      DroppedName(source[..|source| - 1], targetKeys, key);
      assert (rest + [DroppedMapping(last)])[..|rest|] == rest;
      assert rest + [] == rest;
    }
  }

  lemma FieldKeyMembership(fields: seq<FieldDef>, key: string)
    ensures key in FieldKeys(fields) <==> FieldOf(fields, key).Some?
  {
  }

  lemma UniqueKeysDistinct(fields: seq<FieldDef>)
    requires UniqueKeys(fields)
    ensures Distinct(FieldKeys(fields))
  {
  }

  /** Each target field and each source field of a matched object appears in exactly one
      mapping, and nothing else does. */
  lemma EachFieldMappedOnce(source: seq<FieldDef>, target: seq<FieldDef>, key: string)
    requires UniqueKeys(source) && UniqueKeys(target)
    ensures Naming(MapFields(source, target), key, false) == if FieldOf(target, key).Some? then 1 else 0
    ensures Naming(MapFields(source, target), key, true) == if FieldOf(source, key).Some? then 1 else 0
  {
    var homes, dropped := MapTargetFields(source, target), MapDropped(source, FieldKeys(target));
    NamingConcat(homes, dropped, key, false);
    NamingConcat(homes, dropped, key, true);
    HomesName(source, target, key);
    DroppedName(source, FieldKeys(target), key);
    UniqueKeysDistinct(source);
    UniqueKeysDistinct(target);
    DistinctOccursOnce(FieldKeys(source), key);
    DistinctOccursOnce(FieldKeys(target), key);
    FieldKeyMembership(source, key);
    FieldKeyMembership(target, key);
  }

  lemma {:induction false} DroppedAre(source: seq<FieldDef>, targetKeys: seq<string>, m: FieldMapping)
    ensures m in MapDropped(source, targetKeys) <==>
            exists sf | sf in source :: sf.key !in targetKeys && m == DroppedMapping(sf)
  {
    if source != [] {
      var init, last := source[..|source| - 1], source[|source| - 1];
      assert source == init + [last];
      DroppedAre(init, targetKeys, m);
    }
  }

  /** A mapping pairs a source with a target exactly when their keys agree, and its status says
      how their types and the requirement compare. */
  lemma MappingsPairByKey(source: seq<FieldDef>, target: seq<FieldDef>, m: FieldMapping)
    requires m in MapFields(source, target)
    ensures m.source.Some? && m.target.Some? ==>
              && m.source == m.target
              && FieldOf(source, m.source.value).Some?
              && m.sourceType == Some(FieldOf(source, m.source.value).value.fieldType)
              && m.status == (if m.sourceType == m.targetType then Mapped else TypeMismatch)
    ensures m.source.None? ==>
              && m.target.Some? && FieldOf(source, m.target.value).None?
    ensures m.target.Some? ==>
              exists tf | tf in target ::
                && m.target == Some(tf.key) && m.targetType == Some(tf.fieldType)
                && (m.source.None? ==> m.status == if tf.required then MissingRequiredInTarget else AddedInTarget)
    ensures m.target.None? ==>
              m.source.Some? && FieldOf(target, m.source.value).None? && m.status.DroppedFromSource?
  {
    var homes, dropped := MapTargetFields(source, target), MapDropped(source, FieldKeys(target));
    if m in dropped {
      DroppedAre(source, FieldKeys(target), m);
      FieldKeyMembership(target, m.source.value);
    } else {
      var i :| 0 <= i < |homes| && homes[i] == m;
      assert target[i] in target;
    }
  }

  // ---- conflicts ---------------------------------------------------------------------------------------

  function Problems(ms: seq<FieldMapping>): nat {
    if ms == [] then 0
    else Problems(ms[..|ms| - 1]) + if IsProblem(ms[|ms| - 1].status) then 1 else 0
  }

  /** The problem mappings of matched objects, plus one for each unmapped source object. */
  function PlanProblems(ms: seq<ObjectMapping>): nat {
    if ms == [] then 0
    else
      var m := ms[|ms| - 1];
      PlanProblems(ms[..|ms| - 1]) + (if TwoSided(m) then Problems(m.fields) else if m.source.Some? then 1 else 0)
  }

  lemma {:induction false} FieldConflictsCountProblems(targetKey: string, ms: seq<FieldMapping>)
    ensures |ConflictsOf(targetKey, ms)| == Problems(ms)
  {
    if ms != [] {
      FieldConflictsCountProblems(targetKey, ms[..|ms| - 1]);
    }
  }

  lemma {:induction false} ConflictsCountProblems(ms: seq<ObjectMapping>)
    ensures |AllConflicts(ms)| == PlanProblems(ms)
  {
    if ms != [] {
      var m := ms[|ms| - 1];
      ConflictsCountProblems(ms[..|ms| - 1]);
      if TwoSided(m) { FieldConflictsCountProblems(m.target.value, m.fields); }
    }
  }

  lemma {:induction false} NoProblems(ms: seq<FieldMapping>)
    ensures Problems(ms) == 0 <==> forall m | m in ms :: !IsProblem(m.status)
  {
    if ms != [] {
      assert ms == ms[..|ms| - 1] + [ms[|ms| - 1]];
      NoProblems(ms[..|ms| - 1]);
    }
  }

  lemma {:induction false} NoPlanProblems(ms: seq<ObjectMapping>)
    ensures PlanProblems(ms) == 0 <==>
            forall m | m in ms :: (TwoSided(m) ==> Problems(m.fields) == 0) && (m.source.Some? ==> m.target.Some?)
  {
    if ms != [] {
      assert ms == ms[..|ms| - 1] + [ms[|ms| - 1]];
      NoPlanProblems(ms[..|ms| - 1]);
    }
  }

  /** Every old field has a home of its key and type, and every required target field a source. */
  predicate FitsCleanly(source: seq<FieldDef>, target: seq<FieldDef>) {
    && (forall sf | sf in source :: exists tf | tf in target :: tf.key == sf.key && tf.fieldType == sf.fieldType)
    && (forall tf | tf in target :: tf.required ==> exists sf | sf in source :: sf.key == tf.key)
  }

  lemma {:induction false} AllHoused(source: seq<FieldDef>, targetKeys: seq<string>)
    requires forall sf | sf in source :: sf.key in targetKeys
    ensures MapDropped(source, targetKeys) == []
  {
    if source != [] {
      AllHoused(source[..|source| - 1], targetKeys);
      assert source[|source| - 1] in source;
    }
  }

  lemma CleanFieldsFit(source: seq<FieldDef>, target: seq<FieldDef>)
    requires UniqueKeys(source) && UniqueKeys(target)
    requires Problems(MapFields(source, target)) == 0
    ensures FitsCleanly(source, target)
  {
    var homes, dropped := MapTargetFields(source, target), MapDropped(source, FieldKeys(target));
    NoProblems(homes + dropped);
    forall sf | sf in source ensures exists tf | tf in target :: tf.key == sf.key && tf.fieldType == sf.fieldType {
      UniqueFieldOf(source, sf);
      DroppedAre(source, FieldKeys(target), DroppedMapping(sf));
      assert sf.key !in FieldKeys(target) ==> DroppedMapping(sf) in homes + dropped;
      var i :| 0 <= i < |target| && FieldKeys(target)[i] == sf.key;
      assert homes[i] in homes + dropped;
      assert target[i] in target;
    }
    forall tf | tf in target && tf.required ensures exists sf | sf in source :: sf.key == tf.key {
      var i :| 0 <= i < |target| && target[i] == tf;
      assert homes[i] in homes + dropped;
    }
  }

  lemma FittingFieldsClean(source: seq<FieldDef>, target: seq<FieldDef>)
    requires UniqueKeys(source) && UniqueKeys(target)
    requires FitsCleanly(source, target)
    ensures Problems(MapFields(source, target)) == 0
  {
    var homes := MapTargetFields(source, target);
    forall sf | sf in source ensures sf.key in FieldKeys(target) {
      var tf :| tf in target && tf.key == sf.key;
      FieldKeyMembership(target, sf.key);
    }
    AllHoused(source, FieldKeys(target));
    assert MapFields(source, target) == homes;
    NoProblems(homes);
    forall m: FieldMapping | m in homes ensures !IsProblem(m.status) {
      var i :| 0 <= i < |homes| && homes[i] == m;
      FittingFieldClean(source, target, target[i]);
    }
  }

  lemma FittingFieldClean(source: seq<FieldDef>, target: seq<FieldDef>, t: FieldDef)
    requires UniqueKeys(target) && FitsCleanly(source, target) && t in target
    ensures !IsProblem(MapTargetField(source, t).status)
  {
  }

  /** The number of conflicts is the number of problem mappings of matched objects plus the
      number of unmapped source objects. */
  lemma ConflictsAreTheProblems(targetKey: string, objects: seq<ObjectType>, counts: Counts, targets: seq<TargetDef>)
    ensures var p := PlanFor(targetKey, objects, counts, targets);
            p.summary.conflicts == |p.conflicts| == PlanProblems(p.mappings)
  {
    ConflictsCountProblems(PlanMappings(objects, counts, targets));
  }

  lemma {:induction false} TargetMappingsAre(
    oldByKey: map<string, ObjectType>, counts: Counts, targets: seq<TargetDef>, m: ObjectMapping)
    ensures m in MapTargets(oldByKey, counts, targets)
            <==> exists t | t in targets :: m == MapTarget(oldByKey, counts, t)
  {
    if targets != [] {
      assert targets == targets[..|targets| - 1] + [targets[|targets| - 1]];
      TargetMappingsAre(oldByKey, counts, targets[..|targets| - 1], m);
    }
  }

  lemma {:induction false} LeftoverMappingsAre(
    targetKeys: set<string>, counts: Counts, objects: seq<ObjectType>, m: ObjectMapping)
    ensures m in MapLeftovers(targetKeys, counts, objects) <==>
            exists o | o in objects :: o.key !in targetKeys && m == MapLeft(counts, o)
  {
    if objects != [] {
      assert objects == objects[..|objects| - 1] + [objects[|objects| - 1]];
      LeftoverMappingsAre(targetKeys, counts, objects[..|objects| - 1], m);
    }
  }

  lemma {:induction false} UniqueObjectIs(objects: seq<ObjectType>, o: ObjectType)
    requires Distinct(ObjectKeys(objects)) && o in objects
    ensures o.key in ByKey(objects) && ByKey(objects)[o.key] == o
  {
    var init, last := objects[..|objects| - 1], objects[|objects| - 1];
    if o != last {
      assert objects == init + [last];
      assert ObjectKeys(objects) == ObjectKeys(init) + [last.key];
      var i :| 0 <= i < |init| && init[i] == o;
      assert ObjectKeys(objects)[i] != ObjectKeys(objects)[|init|];
      UniqueObjectIs(init, o);
    }
  }

  /** Every old object has a target of its key, and fits it cleanly. */
  predicate EverythingHasAHome(objects: seq<ObjectType>, targets: seq<TargetDef>) {
    && (forall o | o in objects :: exists t | t in targets :: t.key == o.key)
    && (forall o, t | o in objects && t in targets && o.key == t.key :: FitsCleanly(o.fields, t.fields))
  }

  /** A plan has no conflicts exactly when every old object has a target of its key, every old
      field of it a target field of its key and type, and no required target field of a matched
      object lacks a source. */
  lemma NoConflictsExactlyWhenAllFits(
    targetKey: string, objects: seq<ObjectType>, counts: Counts, targets: seq<TargetDef>)
    requires Distinct(ObjectKeys(objects)) && Distinct(DefKeys(targets))
    requires forall o | o in objects :: UniqueKeys(o.fields)
    requires forall t | t in targets :: UniqueKeys(t.fields)
    ensures PlanFor(targetKey, objects, counts, targets).summary.conflicts == 0
            <==> EverythingHasAHome(objects, targets)
  {
    var ms := PlanMappings(objects, counts, targets);
    ConflictsCountProblems(ms);
    NoPlanProblems(ms);
    if PlanProblems(ms) == 0 {
      ConflictFreeHasHomes(objects, counts, targets);
    }
    if EverythingHasAHome(objects, targets) {
      HomesAreConflictFree(objects, counts, targets);
    }
  }

  lemma ConflictFreeHasHomes(objects: seq<ObjectType>, counts: Counts, targets: seq<TargetDef>)
    requires Distinct(ObjectKeys(objects)) && Distinct(DefKeys(targets))
    requires forall o | o in objects :: UniqueKeys(o.fields)
    requires forall t | t in targets :: UniqueKeys(t.fields)
    requires forall m | m in PlanMappings(objects, counts, targets) ::
               (TwoSided(m) ==> Problems(m.fields) == 0) && (m.source.Some? ==> m.target.Some?)
    ensures EverythingHasAHome(objects, targets)
  {
    forall o | o in objects ensures exists t | t in targets :: t.key == o.key {
      LeftoverMappingsAre(TargetKeys(targets), counts, objects, MapLeft(counts, o));
      assert o.key !in TargetKeys(targets) ==> MapLeft(counts, o) in PlanMappings(objects, counts, targets);
    }
    forall o, t | o in objects && t in targets && o.key == t.key ensures FitsCleanly(o.fields, t.fields) {
      UniqueObjectIs(objects, o);
      MatchedMappingPlanned(objects, counts, targets, t);
      CleanFieldsFit(o.fields, t.fields);
    }
  }

  lemma MatchedMappingPlanned(objects: seq<ObjectType>, counts: Counts, targets: seq<TargetDef>, t: TargetDef)
    requires t in targets
    ensures MapTarget(ByKey(objects), counts, t) in PlanMappings(objects, counts, targets)
  {
    TargetMappingsAre(ByKey(objects), counts, targets, MapTarget(ByKey(objects), counts, t));
  }

  lemma HomesAreConflictFree(objects: seq<ObjectType>, counts: Counts, targets: seq<TargetDef>)
    requires Distinct(ObjectKeys(objects)) && Distinct(DefKeys(targets))
    requires forall o | o in objects :: UniqueKeys(o.fields)
    requires forall t | t in targets :: UniqueKeys(t.fields)
    requires EverythingHasAHome(objects, targets)
    ensures forall m | m in PlanMappings(objects, counts, targets) ::
              (TwoSided(m) ==> Problems(m.fields) == 0) && (m.source.Some? ==> m.target.Some?)
  {
    var oldByKey, ms := ByKey(objects), PlanMappings(objects, counts, targets);
    forall m | m in ms ensures (TwoSided(m) ==> Problems(m.fields) == 0) && (m.source.Some? ==> m.target.Some?) {
      if m in MapTargets(oldByKey, counts, targets) {
        TargetMappingsAre(oldByKey, counts, targets, m);
        var t :| t in targets && m == MapTarget(oldByKey, counts, t);
        if t.key in oldByKey {
          FittingFieldsClean(oldByKey[t.key].fields, t.fields);
        }
      } else {
        LeftoverMappingsAre(TargetKeys(targets), counts, objects, m);
      }
    }
  }

  // ---- what a conflict says ---------------------------------------------------------------------

  lemma {:induction false} ConflictsComeFromMappings(ms: seq<ObjectMapping>, c: PlanConflict)
    ensures c in AllConflicts(ms) <==> exists m | m in ms :: c in ObjectConflicts(m)
  {
    hide ObjectConflicts;
    if ms != [] {
      assert ms == ms[..|ms| - 1] + [ms[|ms| - 1]];
      ConflictsComeFromMappings(ms[..|ms| - 1], c);
    }
  }

  lemma {:induction false} ConflictsComeFromFields(key: string, ms: seq<FieldMapping>, c: PlanConflict)
    ensures c in ConflictsOf(key, ms) <==> exists m | m in ms :: IsProblem(m.status) && c == ConflictFor(key, m)
  {
    hide IsProblem, ConflictFor;
    if ms != [] {
      assert ms == ms[..|ms| - 1] + [ms[|ms| - 1]];
      ConflictsComeFromFields(key, ms[..|ms| - 1], c);
    }
  }

  /** The old object and the target of one key disagree on a field, in the way the kind says. */
  ghost predicate FieldConflict(kind: ConflictKind, field: string, source: seq<FieldDef>, target: seq<FieldDef>) {
    match kind
    case MismatchedType =>
      exists sf, tf | sf in source && tf in target ::
        sf.key == field && tf.key == field && sf.fieldType != tf.fieldType
    case MissingRequired =>
      (exists tf | tf in target :: tf.key == field && tf.required) && forall sf | sf in source :: sf.key != field
    case DroppedField =>
      (exists sf | sf in source :: sf.key == field) && forall tf | tf in target :: tf.key != field
    case UnmappedObject => false
  }

  lemma FieldConflictsExactly(
    key: string, source: seq<FieldDef>, target: seq<FieldDef>, kind: ConflictKind, field: Option<string>)
    requires UniqueKeys(source) && UniqueKeys(target)
    ensures PlanConflict(kind, key, field) in ConflictsOf(key, MapFields(source, target))
            <==> field.Some? && FieldConflict(kind, field.value, source, target)
  {
    hide MapFields, ConflictsOf;
    var c, ms := PlanConflict(kind, key, field), MapFields(source, target);
    ConflictsComeFromFields(key, ms, c);
    if m :| m in ms && IsProblem(m.status) && c == ConflictFor(key, m) {
      ProblemIsConflict(source, target, m);
    }
    if field.Some? && FieldConflict(kind, field.value, source, target) {
      var m := ConflictIsProblem(source, target, kind, field.value);
      assert c == ConflictFor(key, m);
    }
  }

  /** The kind of conflict a status stands for. */
  function KindOf(status: MappingStatus): ConflictKind {
    match status
    case TypeMismatch => MismatchedType
    case MissingRequiredInTarget => MissingRequired
    case _ => DroppedField
  }

  lemma ProblemIsConflict(source: seq<FieldDef>, target: seq<FieldDef>, m: FieldMapping)
    requires UniqueKeys(source) && m in MapFields(source, target) && IsProblem(m.status)
    ensures m.status.DroppedFromSource? ==> m.source.Some?
    ensures !m.status.DroppedFromSource? ==> m.target.Some?
    ensures FieldConflict(KindOf(m.status), if m.status.DroppedFromSource? then m.source.value else m.target.value,
                          source, target)
  {
    var homes := MapTargetFields(source, target);
    if m in homes {
      var i :| 0 <= i < |homes| && homes[i] == m;
      assert target[i] in target;
    } else {
      DroppedAre(source, FieldKeys(target), m);
      var sf :| sf in source && sf.key !in FieldKeys(target) && m == DroppedMapping(sf);
      forall tf | tf in target ensures tf.key != sf.key {
        FieldKeyMembership(target, sf.key);
      }
    }
  }

  lemma ConflictIsProblem(source: seq<FieldDef>, target: seq<FieldDef>, kind: ConflictKind, field: string)
    returns (m: FieldMapping)
    requires UniqueKeys(source) && FieldConflict(kind, field, source, target)
    ensures m in MapFields(source, target) && IsProblem(m.status) && KindOf(m.status) == kind
    ensures (if m.status.DroppedFromSource? then m.source else m.target) == Some(field)
  {
    var homes := MapTargetFields(source, target);
    if kind.DroppedField? {
      var sf :| sf in source && sf.key == field;
      FieldKeyMembership(target, field);
      DroppedAre(source, FieldKeys(target), DroppedMapping(sf));
      m := DroppedMapping(sf);
    } else {
      var tf :| tf in target && tf.key == field
                && (kind.MismatchedType? ==>
                      exists sf | sf in source :: sf.key == field && sf.fieldType != tf.fieldType)
                && (kind.MissingRequired? ==> tf.required);
      if kind.MismatchedType? {
        var sf :| sf in source && sf.key == field && sf.fieldType != tf.fieldType;
        UniqueFieldOf(source, sf);
      }
      var i :| 0 <= i < |target| && target[i] == tf;
      m := homes[i];
    }
  }

  /** What a conflict of a plan says of the two systems. */
  ghost predicate Conflicting(objects: seq<ObjectType>, targets: seq<TargetDef>, c: PlanConflict) {
    if c.kind.UnmappedObject? then
      && c.field == None && (exists o | o in objects :: o.key == c.object_)
      && forall t | t in targets :: t.key != c.object_
    else
      c.field.Some?
      && exists o, t | o in objects && t in targets ::
           o.key == c.object_ && t.key == c.object_ && FieldConflict(c.kind, c.field.value, o.fields, t.fields)
  }

  lemma PlannedConflictHolds(
    objects: seq<ObjectType>, counts: Counts, targets: seq<TargetDef>, m: ObjectMapping, c: PlanConflict)
    requires forall o | o in objects :: UniqueKeys(o.fields)
    requires forall t | t in targets :: UniqueKeys(t.fields)
    requires m in PlanMappings(objects, counts, targets) && c in ObjectConflicts(m)
    ensures Conflicting(objects, targets, c)
  {
    hide ConflictsOf, MapFields, FieldConflict;
    var oldByKey := ByKey(objects);
    if m in MapTargets(oldByKey, counts, targets) {
      TargetMappingsAre(oldByKey, counts, targets, m);
      var t :| t in targets && m == MapTarget(oldByKey, counts, t);
      assert t.key in oldByKey;
      ConflictNamesObject(t.key, m.fields, c);
      FieldConflictsExactly(t.key, oldByKey[t.key].fields, t.fields, c.kind, c.field);
      NoFieldUnmapped(oldByKey[t.key].fields, t.fields, c);
    } else {
      LeftoverMappingsAre(TargetKeys(targets), counts, objects, m);
    }
  }

  lemma ConflictNamesObject(key: string, ms: seq<FieldMapping>, c: PlanConflict)
    requires c in ConflictsOf(key, ms)
    ensures c.object_ == key && !c.kind.UnmappedObject?
  {
    ConflictsComeFromFields(key, ms, c);
  }

  lemma NoFieldUnmapped(source: seq<FieldDef>, target: seq<FieldDef>, c: PlanConflict)
    requires c.field.Some? && FieldConflict(c.kind, c.field.value, source, target)
    ensures !c.kind.UnmappedObject?
  {
  }

  lemma ConflictIsPlanned(objects: seq<ObjectType>, counts: Counts, targets: seq<TargetDef>, c: PlanConflict)
    requires Distinct(ObjectKeys(objects))
    requires forall o | o in objects :: UniqueKeys(o.fields)
    requires forall t | t in targets :: UniqueKeys(t.fields)
    requires Conflicting(objects, targets, c)
    ensures exists m | m in PlanMappings(objects, counts, targets) :: c in ObjectConflicts(m)
  {
    hide ConflictsOf, MapFields, FieldConflict, Distinct;
    if c.kind.UnmappedObject? {
      var o :| o in objects && o.key == c.object_;
      LeftoverMappingsAre(TargetKeys(targets), counts, objects, MapLeft(counts, o));
      assert c in ObjectConflicts(MapLeft(counts, o));
    } else {
      var o, t :| o in objects && t in targets && o.key == c.object_ && t.key == c.object_
                  && FieldConflict(c.kind, c.field.value, o.fields, t.fields);
      UniqueObjectIs(objects, o);
      MatchedMappingPlanned(objects, counts, targets, t);
      FieldConflictsExactly(t.key, o.fields, t.fields, c.kind, c.field);
      assert c in ObjectConflicts(MapTarget(ByKey(objects), counts, t));
    }
  }

  /** A plan has a conflict exactly when it is true of the two systems: an object unmapped that no
      target has, a field of both with different types, a required target field without a source, or
      an old field without a home; each under the object and the field it is about. */
  lemma ConflictsAreTrue(
    targetKey: string, objects: seq<ObjectType>, counts: Counts, targets: seq<TargetDef>, c: PlanConflict)
    requires Distinct(ObjectKeys(objects))
    requires forall o | o in objects :: UniqueKeys(o.fields)
    requires forall t | t in targets :: UniqueKeys(t.fields)
    ensures c in PlanFor(targetKey, objects, counts, targets).conflicts <==> Conflicting(objects, targets, c)
  {
    hide PlanMappings, AllConflicts, ObjectConflicts, Conflicting, Distinct;
    var ms := PlanMappings(objects, counts, targets);
    ConflictsComeFromMappings(ms, c);
    if m :| m in ms && c in ObjectConflicts(m) {
      PlannedConflictHolds(objects, counts, targets, m, c);
    }
    if Conflicting(objects, targets, c) {
      ConflictIsPlanned(objects, counts, targets, c);
    }
  }

  // ---- record counts --------------------------------------------------------------------------------

  /** The count the inventory has for the key. */
  predicate CountedAs(counts: Counts, key: string, n: nat) {
    if key in counts then n == counts[key] else n == 0
  }

  /** Every mapping of an old object carries the count the inventory has for its key, and one without
      an old object none. */
  lemma CountsAreTheInventory(
    targetKey: string, objects: seq<ObjectType>, counts: Counts, targets: seq<TargetDef>, m: ObjectMapping)
    requires m in PlanFor(targetKey, objects, counts, targets).mappings
    ensures m.source.Some? ==> CountedAs(counts, m.source.value, m.recordCount)
    ensures m.source.None? ==> m.recordCount == 0
  {
    TargetMappingsAre(ByKey(objects), counts, targets, m);
    LeftoverMappingsAre(TargetKeys(targets), counts, objects, m);
  }

  lemma {:induction false} OldObjectsAre(objects: seq<ObjectType>, counts: Counts, i: nat)
    requires i < |objects|
    ensures var o := SnapshotObjects(objects, counts)[i];
            && o.key == objects[i].key && o.label_ == objects[i].label_ && o.fieldKeys == FieldKeys(objects[i].fields)
            && CountedAs(counts, objects[i].key, o.recordCount)
  {
    if i < |objects| - 1 {
      OldObjectsAre(objects[..|objects| - 1], counts, i);
    }
  }

  lemma {:induction false} TargetObjectsAre(
    targets: seq<TargetDef>, oldByKey: map<string, ObjectType>, counts: Counts, i: nat)
    requires i < |targets|
    ensures |TargetObjects(targets, oldByKey, counts)| == |targets|
    ensures var o := TargetObjects(targets, oldByKey, counts)[i];
            && o.key == targets[i].key && o.label_ == targets[i].label_ && o.fieldKeys == FieldKeys(targets[i].fields)
            && (targets[i].key in oldByKey ==> CountedAs(counts, targets[i].key, o.recordCount))
            && (targets[i].key !in oldByKey ==> o.recordCount == 0)
  {
    var init := targets[..|targets| - 1];
    if i < |init| {
      TargetObjectsAre(init, oldByKey, counts, i);
    } else if init != [] {
      TargetObjectsAre(init, oldByKey, counts, 0);
    }
  }

  /** The snapshots list each side's objects in order with their labels and field keys: the old ones
      with the count the inventory has, the target's with that of the old object of their key. */
  lemma SnapshotsAreTheSystems(
    targetKey: string, objects: seq<ObjectType>, counts: Counts, targets: seq<TargetDef>, i: nat)
    ensures var p := PlanFor(targetKey, objects, counts, targets);
            && |p.source.objects| == |objects|
            && (i < |objects| ==>
                  var o := p.source.objects[i];
                  && o.key == objects[i].key && o.label_ == objects[i].label_
                  && o.fieldKeys == FieldKeys(objects[i].fields) && CountedAs(counts, objects[i].key, o.recordCount))
            && |p.target.objects| == |targets|
            && (i < |targets| ==>
                  var o := p.target.objects[i];
                  && o.key == targets[i].key && o.label_ == targets[i].label_
                  && o.fieldKeys == FieldKeys(targets[i].fields)
                  && (if exists old_ | old_ in objects :: old_.key == targets[i].key
                      then CountedAs(counts, targets[i].key, o.recordCount) else o.recordCount == 0))
  {
    hide TargetObjects, SnapshotObjects, CountedAs, PlanMappings, AllConflicts, CountTwoSided, RecordsOn;
    if i < |objects| {
      OldObjectsAre(objects, counts, i);
    }
    if targets == [] {
      NoTargetObjects(ByKey(objects), counts);
    } else {
      TargetObjectsAre(targets, ByKey(objects), counts, if i < |targets| then i else 0);
    }
  }

  lemma NoTargetObjects(oldByKey: map<string, ObjectType>, counts: Counts)
    ensures TargetObjects([], oldByKey, counts) == []
  {
  }

  lemma {:induction false} TargetsTwoSided(oldByKey: map<string, ObjectType>, counts: Counts, targets: seq<TargetDef>)
    ensures CountTwoSided(MapTargets(oldByKey, counts, targets)) == |Filter(DefKeys(targets), oldByKey.Keys, true)|
  {
    hide CountTwoSided, MapFields, NewFields;
    if targets == [] {
      NoneTwoSided();
    } else {
      var init, last := targets[..|targets| - 1], targets[|targets| - 1];
      TargetsTwoSided(oldByKey, counts, init);
      MappingAppend(MapTargets(oldByKey, counts, init), MapTarget(oldByKey, counts, last), Every);
    }
  }

  lemma NoneTwoSided()
    ensures CountTwoSided([]) == 0
  {
  }

  lemma {:induction false} LeftoversOneSided(
    ms: seq<ObjectMapping>, targetKeys: set<string>, counts: Counts, objects: seq<ObjectType>)
    ensures CountTwoSided(ms + MapLeftovers(targetKeys, counts, objects)) == CountTwoSided(ms)
  {
    hide CountTwoSided;
    if objects == [] {
      assert ms + [] == ms;
    } else {
      var init, last := objects[..|objects| - 1], objects[|objects| - 1];
      var rest := MapLeftovers(targetKeys, counts, init);
      LeftoversOneSided(ms, targetKeys, counts, init);
      if last.key !in targetKeys {
        MappingAppend(ms + rest, MapLeft(counts, last), Every);
        assert ms + (rest + [MapLeft(counts, last)]) == (ms + rest) + [MapLeft(counts, last)];
      } else {
        assert rest + [] == rest;
      }
    }
  }

  lemma MappedAreFiltered(objects: seq<ObjectType>, counts: Counts, targets: seq<TargetDef>)
    ensures CountTwoSided(PlanMappings(objects, counts, targets))
            == |Filter(DefKeys(targets), ByKey(objects).Keys, true)|
  {
    hide Filter, ByKey, MapTargets, MapLeftovers, CountTwoSided;
    TargetsTwoSided(ByKey(objects), counts, targets);
    LeftoversOneSided(MapTargets(ByKey(objects), counts, targets), TargetKeys(targets), counts, objects);
  }

  lemma PlanSummary(targetKey: string, objects: seq<ObjectType>, counts: Counts, targets: seq<TargetDef>)
    ensures var summary := PlanFor(targetKey, objects, counts, targets).summary;
            && summary.sourceObjects == |objects| && summary.targetObjects == |targets|
            && summary.mappedObjects == CountTwoSided(PlanMappings(objects, counts, targets))
  {
    hide PlanMappings, AllConflicts, RecordsOn, CountTwoSided, OldSnapshot, TargetObjects, ByKey;
  }

  /** The summary counts all objects of each side, and as mapped the keys that both have. */
  lemma SummariesCount(
    targetKey: string, objects: seq<ObjectType>, counts: Counts, targets: seq<TargetDef>)
    requires Distinct(DefKeys(targets))
    ensures var summary := PlanFor(targetKey, objects, counts, targets).summary;
            && summary.sourceObjects == |objects| && summary.targetObjects == |targets|
            && summary.mappedObjects == |InBoth(objects, targets)|
  {
    hide PlanFor, PlanMappings, CountTwoSided, DefKeys, ByKey, Filter, Distinct, InBoth;
    PlanSummary(targetKey, objects, counts, targets);
    MappedAreFiltered(objects, counts, targets);
    forall k ensures k in Filter(DefKeys(targets), ByKey(objects).Keys, true) <==> k in InBoth(objects, targets) {
      SharedMembership(objects, targets, k);
    }
    DistinctAreAsMany(Filter(DefKeys(targets), ByKey(objects).Keys, true), InBoth(objects, targets));
  }

  /** The keys that an old object and a target have. */
  function InBoth(objects: seq<ObjectType>, targets: seq<TargetDef>): set<string> {
    set o, t | o in objects && t in targets && o.key == t.key :: o.key
  }

  lemma SharedMembership(objects: seq<ObjectType>, targets: seq<TargetDef>, k: string)
    ensures k in Filter(DefKeys(targets), ByKey(objects).Keys, true)
            <==> k in InBoth(objects, targets)
  {
    KeyMembership(objects, targets, k);
  }

  lemma {:induction false} DistinctAreAsMany(keys: seq<string>, all: set<string>)
    requires Distinct(keys) && forall k :: k in keys <==> k in all
    ensures |keys| == |all|
  {
    if keys == [] {
      assert all == {};
    } else {
      var init, last := keys[..|keys| - 1], keys[|keys| - 1];
      assert keys == init + [last];
      DistinctAreAsMany(init, all - {last});
    }
  }
}
