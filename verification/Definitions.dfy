/** The checks a type or workflow definition passes before it is stored. */
module Definitions {
  import opened Values
  import opened Contracts

  /** `validate_field_def`. */
  predicate FieldDefOk(f: FieldDef) {
    && (f.fieldType.Enum? || f.fieldType.MultiEnum? ==> f.enumOptions != [])
    && (f.fieldType.RecordRef? ==> f.refObjectType.Some?)
  }

  /** `validate_object_type`: one pass over the fields with the set of keys seen so far. Accepts
      exactly the definitions with a key, distinct and non-blank field keys and sound fields. */
  method ValidateObjectType(def: ObjectType, blank: string -> bool) returns (r: Result<()>)
    ensures r == Ok(()) || r == Err(Validation)
    ensures r.Ok? <==>
            && !blank(def.key) && UniqueKeys(def.fields)
            && forall f | f in def.fields :: !blank(f.key) && FieldDefOk(f)
  {
    if blank(def.key) {
      return Err(Validation);
    }
    var seen: set<string> := {};
    for i := 0 to |def.fields|
      invariant seen == set k | 0 <= k < i :: def.fields[k].key
      invariant forall j, k | 0 <= j < k < i :: def.fields[j].key != def.fields[k].key
      invariant forall k | 0 <= k < i :: !blank(def.fields[k].key) && FieldDefOk(def.fields[k])
    {
      var f := def.fields[i];
      if blank(f.key) {
        return Err(Validation);
      }
      if f.key in seen {
        var k :| 0 <= k < i && def.fields[k].key == f.key;
        assert !UniqueKeys(def.fields);
        return Err(Validation);
      }
      seen := seen + {f.key};
      if !FieldDefOk(f) {
        return Err(Validation);
      }
    }
    r := Ok(());
  }

  /** `validate_workflow`: accepts exactly the named definitions whose initial state and edges
      lie within the declared states. */
  method ValidateWorkflow(def: Workflow, blank: string -> bool) returns (r: Result<()>)
    ensures r == Ok(()) || r == Err(Validation)
    ensures r.Ok? <==> !blank(def.key) && !blank(def.objectType) && WorkflowDeclaresStates(def)
  {
    if blank(def.key) || blank(def.objectType) {
      return Err(Validation);
    }
    if def.initialState !in def.states {
      return Err(Validation);
    }
    for i := 0 to |def.transitions|
      invariant forall t | t in def.transitions[..i] :: t.from in def.states && t.to in def.states
    {
      var t := def.transitions[i];
      if t.from !in def.states || t.to !in def.states {
        return Err(Validation);
      }
    }
    assert def.transitions[..|def.transitions|] == def.transitions;
    r := Ok(());
  }
}
