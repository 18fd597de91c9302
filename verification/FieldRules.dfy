/** What creates and updates store, what they refuse, and what every stored value is like: the
    rules of the field types, spelled out on the values. */
module FieldRules {
  import opened Values
  import opened Contracts
  import opened Rbac
  import opened Store
  import opened Machine
  import opened Entitlement
  import SchemaInvariant
  import S = Services

  // ---- the rules of the types --------------------------------------------------------------------

  predicate Chosen(options: seq<string>, v: Value) {
    exists o | o in options :: v == Str(o)
  }

  predicate DashesAt(s: string, i: int, j: int) {
    && 0 <= i < j < |s| && s[i] == '-' && s[j] == '-'
    && Utf8Length(s[..i]) == 4 && Utf8Length(s[i + 1..j]) == 2 && Utf8Length(s[j + 1..]) == 2
  }

  /** Four bytes, a dash, two bytes, a dash, and two bytes. */
  ghost predicate LooksLikeDate(s: string) {
    exists i, j :: DashesAt(s, i, j)
  }

  lemma {:induction false} LengthsAdd(a: string, b: string)
    ensures Utf8Length(a + b) == Utf8Length(a) + Utf8Length(b)
  {
    if b == [] {
      assert a + b == a;
    } else {
      assert (a + b)[..|a + b| - 1] == a + b[..|b| - 1];
      LengthsAdd(a, b[..|b| - 1]);
    }
  }

  lemma AroundDash(a: string, b: string)
    ensures Utf8Length(a + "-" + b) == Utf8Length(a) + 1 + Utf8Length(b)
  {
    LengthsAdd(a, "-");
    LengthsAdd(a + "-", b);
    assert "-"[..0] == "" && Utf8Length("-") == 1;
  }

  lemma SplitLengths(s: string, i: nat, j: nat)
    requires i < j < |s| && s[i] == '-' && s[j] == '-'
    ensures Utf8Length(s[..j]) == Utf8Length(s[..i]) + 1 + Utf8Length(s[i + 1..j])
    ensures Utf8Length(s) == Utf8Length(s[..j]) + 1 + Utf8Length(s[j + 1..])
  {
    hide Utf8Length;
    AroundDash(s[..i], s[i + 1..j]);
    AroundDash(s[..j], s[j + 1..]);
    assert s[..j] == s[..i] + "-" + s[i + 1..j];
    assert s == s[..j] + "-" + s[j + 1..];
  }

  lemma {:induction false} LengthsGrow(s: string, i: nat, j: nat)
    requires i <= j <= |s|
    ensures Utf8Length(s[..i]) <= Utf8Length(s[..j])
  {
    assert s[..j] == s[..i] + s[i..j];
    LengthsAdd(s[..i], s[i..j]);
  }

  lemma DatesLookLikeIt(s: string)
    ensures Utf8Length(s) == 10 && DashAtByte(s, 4) && DashAtByte(s, 7) <==> LooksLikeDate(s)
  {
    hide Utf8Length;
    if Utf8Length(s) == 10 && DashAtByte(s, 4) && DashAtByte(s, 7) {
      var i :| 0 <= i < |s| && s[i] == '-' && Utf8Length(s[..i]) == 4;
      var j :| 0 <= j < |s| && s[j] == '-' && Utf8Length(s[..j]) == 7;
      if j <= i {
        LengthsGrow(s, j, i);
      }
      SplitLengths(s, i, j);
      assert DashesAt(s, i, j);
    }
    if i, j :| DashesAt(s, i, j) {
      SplitLengths(s, i, j);
    }
  }

  /** The value, or its absence, breaks a rule of the field. */
  ghost predicate Breaks(f: FieldDef, held: Option<Value>, isTimestamp: string -> bool) {
    if held == None || held == Some(Null) then f.required
    else
      var v, t := held.value, f.fieldType;
      || ((t == Text || t == LongText || t == RecordRef || t == UserRef || t == FileRef) && !v.Str?)
      || (t == Number && !v.Int? && !v.Flt?)
      || (t == Money && !(v.Int? && -9223372036854775808 <= v.i <= 18446744073709551615))
      || (t == Boolean && v != Bool(true) && v != Bool(false))
      || (t == Date && !(v.Str? && LooksLikeDate(v.s)))
      || (t == DateTime && !(v.Str? && isTimestamp(v.s)))
      || (t == Enum && !Chosen(f.enumOptions, v))
      || (t == MultiEnum && !(v.Arr? && forall i | 0 <= i < |v.items| :: Chosen(f.enumOptions, v.items[i])))
  }

  lemma BreaksMeans(f: FieldDef, held: Option<Value>, isTimestamp: string -> bool)
    ensures Breaks(f, held, isTimestamp) <==> !ValueFits(f, if held.Some? then held.value else Null, isTimestamp)
  {
    hide LooksLikeDate, DashAtByte, Utf8Length;
    if held.Some? && held.value.Str? {
      DatesLookLikeIt(held.value.s);
    }
    if held.Some? && held.value.Arr? {
      forall x | x in held.value.items ensures Chosen(f.enumOptions, x) <==> x.Str? && x.s in f.enumOptions {
      }
      forall i | 0 <= i < |held.value.items| ensures held.value.items[i] in held.value.items {
      }
    }
  }

  /** In every run, of every stored record and every field of its type: a required field has a value;
      a choice is one of the options, and so is every item of a multiple choice; money is a 64-bit
      integer, a number a number, a flag true or false; dates have the shape of one and date-times
      parse; texts and references are strings. */
  lemma StoredValuesObeyTheirTypes(cfg: Config, calls: seq<Call>, id: string, f: FieldDef)
    requires ConfigValid(cfg) && id in Run(cfg, calls).records
    requires var r := Run(cfg, calls).records[id];
             var otype := LoadType(cfg, r.tenantId, r.objectType);
             otype.Some? && f in otype.value.fields
    ensures var held := Lookup(Run(cfg, calls).records[id].data, f.key);
            && (f.required ==> held.Some? && held.value != Null)
            && (held.Some? && held.value != Null ==>
                  var v, t := held.value, f.fieldType;
                  && (t == Enum ==> Chosen(f.enumOptions, v))
                  && (t == MultiEnum ==>
                        v.Arr? && forall i | 0 <= i < |v.items| :: Chosen(f.enumOptions, v.items[i]))
                  && (t == Money ==> v.Int? && -9223372036854775808 <= v.i <= 18446744073709551615)
                  && (t == Number ==> v.Int? || v.Flt?)
                  && (t == Boolean ==> v == Bool(true) || v == Bool(false))
                  && (t == Date ==> v.Str? && LooksLikeDate(v.s))
                  && (t == DateTime ==> v.Str? && cfg.isTimestamp(v.s))
                  && (t == Text || t == LongText || t == RecordRef || t == UserRef || t == FileRef ==> v.Str?))
  {
    hide Chosen, Run, ValueFits, LooksLikeDate;
    SchemaInvariant.StoredDataAlwaysLawful(cfg, calls);
    var r := Run(cfg, calls).records[id];
    BreaksMeans(f, Lookup(r.data, f.key), cfg.isTimestamp);
  }

  // ---- what edits do -------------------------------------------------------------------------------

  /** The value the edits give the key last, if they name it. */
  function LastEdit(edits: seq<(string, Value)>, key: string): Option<Value> {
    if edits == [] then None
    else if edits[|edits| - 1].0 == key then Some(edits[|edits| - 1].1)
    else LastEdit(edits[..|edits| - 1], key)
  }

  lemma {:induction false} LastEditIsLast(edits: seq<(string, Value)>, key: string, i: nat)
    requires i < |edits| && edits[i].0 == key && forall j | i < j < |edits| :: edits[j].0 != key
    ensures LastEdit(edits, key) == Some(edits[i].1)
  {
    if i < |edits| - 1 {
      LastEditIsLast(edits[..|edits| - 1], key, i);
    }
  }

  lemma {:induction false} UnnamedIsNotEdited(edits: seq<(string, Value)>, key: string)
    requires forall i | 0 <= i < |edits| :: edits[i].0 != key
    ensures LastEdit(edits, key) == None
  {
    if edits != [] {
      UnnamedIsNotEdited(edits[..|edits| - 1], key);
    }
  }

  predicate KnownField(otype: ObjectType, key: string) {
    var f := FieldOf(otype.fields, key);
    f.Some? && !f.value.system
  }

  /** The field is open to writing: unrestricted, or let through by a grant the caller holds for the
      action. */
  ghost predicate MayWrite(
    cfg: Config, ctx: AuthContext, otype: ObjectType, action: Action, resource: string, target: Option<Record>,
    key: string)
  {
    var f := FieldOf(otype.fields, key);
    (f.Some? && !f.value.restricted) || Unlimited(ctx)
    || exists g :: Holding(cfg, ctx, g) && Covers(cfg, ctx, g, action, resource, target) && LetsThrough(g, key)
  }

  lemma MayWriteMeans(
    cfg: Config, ctx: AuthContext, otype: ObjectType, action: Action, resource: string, target: Option<Record>,
    key: string)
    requires FieldOf(otype.fields, key).Some?
    ensures MayWrite(cfg, ctx, otype, action, resource, target, key)
            <==> FieldPermitted(GrantsFor(cfg, ctx, action, resource, target), otype, key)
  {
    hide GrantApplies, Covers, FieldOf, Holding, EffectiveGrants, RulePermits, LetsThrough;
    if Unlimited(ctx) {
      AdminWritesAll(key);
    } else {
      forall g
        ensures Holding(cfg, ctx, g) && Covers(cfg, ctx, g, action, resource, target)
                <==> g in GrantsFor(cfg, ctx, action, resource, target)
        ensures LetsThrough(g, key) <==> g.fields.Some? && RulePermits(g.fields.value, key)
      {
        HoldingMeans(cfg, ctx, g);
        CoversMeans(cfg, ctx, g, action, resource, target);
        LetsThroughMeans(g, key);
      }
    }
  }

  lemma AdminWritesAll(key: string)
    ensures ADMIN_GRANT in [ADMIN_GRANT] && ADMIN_GRANT.fields.Some? && RulePermits(ADMIN_GRANT.fields.value, key)
  {
  }

  lemma HoldingMeans(cfg: Config, ctx: AuthContext, g: Grant)
    ensures Holding(cfg, ctx, g) <==> g in EffectiveGrants(cfg.roles, ctx)
  {
    GrantsComeFromOwnRoles(cfg.roles, ctx, g);
  }

  predicate EditOk(otype: ObjectType, grants: seq<Grant>, key: string) {
    KnownField(otype, key) && FieldPermitted(grants, otype, key)
  }

  /** What a field holds after the edits; on update an edit to null clears it. */
  function Edited(start: Fields, edits: seq<(string, Value)>, key: string, clearing: bool): Option<Value> {
    match LastEdit(edits, key)
    case None => Lookup(start, key)
    case Some(v) => if clearing && v == Null then None else Some(v)
  }

  lemma {:induction false} EditsApply(
    otype: ObjectType, grants: seq<Grant>, start: Fields, edits: seq<(string, Value)>, clearing: bool)
    ensures S.ApplyEdits(otype, grants, start, edits, clearing).Applied?
            <==> forall i | 0 <= i < |edits| :: EditOk(otype, grants, edits[i].0)
  {
    hide EditOk, KnownField, S.ApplyEdits;
    if edits == [] {
      NothingEdited(otype, grants, start, clearing);
    } else {
      EditsApply(otype, grants, start, edits[..|edits| - 1], clearing);
      LastEditDoes(otype, grants, start, edits, clearing);
    }
  }

  lemma {:induction false} EditsHold(
    otype: ObjectType, grants: seq<Grant>, start: Fields, edits: seq<(string, Value)>, clearing: bool, key: string)
    requires S.ApplyEdits(otype, grants, start, edits, clearing).Applied?
    ensures Lookup(S.ApplyEdits(otype, grants, start, edits, clearing).data, key) == Edited(start, edits, key, clearing)
  {
    hide EditOk, KnownField, S.ApplyEdits;
    if edits == [] {
      NothingEdited(otype, grants, start, clearing);
    } else {
      LastEditDoes(otype, grants, start, edits, clearing);
      EditsHold(otype, grants, start, edits[..|edits| - 1], clearing, key);
    }
  }

  /** The first edit that is not in order. */
  ghost predicate StopsAt(otype: ObjectType, grants: seq<Grant>, edits: seq<(string, Value)>, i: int) {
    0 <= i < |edits| && !EditOk(otype, grants, edits[i].0)
    && forall j | 0 <= j < i :: EditOk(otype, grants, edits[j].0)
  }

  lemma {:induction false} EditsStop(
    otype: ObjectType, grants: seq<Grant>, start: Fields, edits: seq<(string, Value)>, clearing: bool, i: int)
    requires StopsAt(otype, grants, edits, i)
    ensures S.ApplyEdits(otype, grants, start, edits, clearing)
            == if KnownField(otype, edits[i].0) then S.DeniedField else S.BadField
  {
    hide EditOk, KnownField, S.ApplyEdits;
    var init := edits[..|edits| - 1];
    LastEditDoes(otype, grants, start, edits, clearing);
    if i < |init| {
      assert StopsAt(otype, grants, init, i);
      EditsStop(otype, grants, start, init, clearing, i);
    } else {
      EditsApply(otype, grants, start, init, clearing);
    }
  }

  lemma NothingEdited(otype: ObjectType, grants: seq<Grant>, start: Fields, clearing: bool)
    ensures S.ApplyEdits(otype, grants, start, [], clearing) == S.Applied(start)
  {
  }

  /** One edit more. */
  lemma LastEditDoes(
    otype: ObjectType, grants: seq<Grant>, start: Fields, edits: seq<(string, Value)>, clearing: bool)
    requires edits != []
    ensures var before := S.ApplyEdits(otype, grants, start, edits[..|edits| - 1], clearing);
            var after, last := S.ApplyEdits(otype, grants, start, edits, clearing), edits[|edits| - 1];
            && (!before.Applied? ==> after == before)
            && (before.Applied? && !EditOk(otype, grants, last.0) ==>
                  after == if KnownField(otype, last.0) then S.DeniedField else S.BadField)
            && (before.Applied? && EditOk(otype, grants, last.0) ==>
                  && after.Applied?
                  && forall key ::
                       Lookup(after.data, key)
                       == if key == last.0 then (if clearing && last.1 == Null then None else Some(last.1))
                          else Lookup(before.data, key))
  {
    hide FieldPermitted, FieldOf;
    RestrictedOnly(otype, grants, edits[|edits| - 1].0);
  }

  lemma RestrictedOnly(otype: ObjectType, grants: seq<Grant>, key: string)
    ensures var f := FieldOf(otype.fields, key);
            f.Some? && !f.value.restricted ==> FieldPermitted(grants, otype, key)
  {
  }

  lemma {:induction false} DefaultsAre(fields: seq<FieldDef>, key: string)
    requires UniqueKeys(fields)
    ensures var f := FieldOf(fields, key);
            Lookup(S.Defaults(fields), key) == if f.Some? then f.value.default else None
  {
    if fields != [] {
      var init, last := fields[..|fields| - 1], fields[|fields| - 1];
      DefaultsAre(init, key);
      if last.key == key {
        UniqueFieldOf(fields, last);
      } else {
        SameField(init, last, key);
        assert fields == init + [last];
      }
    }
  }

  lemma {:induction false} SameField(init: seq<FieldDef>, last: FieldDef, key: string)
    requires last.key != key
    ensures FieldOf(init + [last], key) == FieldOf(init, key)
  {
    if init != [] {
      assert (init + [last])[1..] == init[1..] + [last];
      SameField(init[1..], last, key);
    }
  }

  // ---- creates and updates --------------------------------------------------------------------------

  /** The initial state of the workflow that the type names, if there is such a workflow. */
  function FirstState(cfg: Config, tenantId: string, otype: ObjectType): Option<string> {
    if otype.workflowKey.Some? && TenantKey(tenantId, otype.workflowKey.value) in cfg.workflows
    then Some(cfg.workflows[TenantKey(tenantId, otype.workflowKey.value)].initialState)
    else None
  }

  /** What a new record holds under a key: the last value given, or else the field's default. */
  function Made(otype: ObjectType, edits: seq<(string, Value)>, key: string): Option<Value> {
    var given, f := LastEdit(edits, key), FieldOf(otype.fields, key);
    if given.Some? then given else if f.Some? then f.value.default else None
  }

  /** What a record holds under a key after a patch: the last value given, nothing if that is null,
      or else what it held. */
  function Patched(r: Record, edits: seq<(string, Value)>, key: string): Option<Value> {
    var given := LastEdit(edits, key);
    if given == Some(Null) then None else if given.Some? then given else Lookup(r.data, key)
  }

  /** The first edit that may not be made. */
  ghost predicate FirstBad(
    cfg: Config, ctx: AuthContext, otype: ObjectType, action: Action, target: Option<Record>, resource: string,
    edits: seq<(string, Value)>, i: int)
  {
    && 0 <= i < |edits| && !Allowed(cfg, ctx, otype, action, target, resource, edits[i].0)
    && forall j | 0 <= j < i :: Allowed(cfg, ctx, otype, action, target, resource, edits[j].0)
  }

  ghost predicate Allowed(
    cfg: Config, ctx: AuthContext, otype: ObjectType, action: Action, target: Option<Record>, resource: string,
    key: string)
  {
    KnownField(otype, key) && MayWrite(cfg, ctx, otype, action, resource, target, key)
  }

  lemma AllowedMeans(
    cfg: Config, ctx: AuthContext, otype: ObjectType, action: Action, target: Option<Record>, resource: string,
    key: string)
    ensures Allowed(cfg, ctx, otype, action, target, resource, key)
            <==> EditOk(otype, GrantsFor(cfg, ctx, action, resource, target), key)
  {
    hide FieldPermitted, MayWrite, GrantsFor;
    if KnownField(otype, key) {
      MayWriteMeans(cfg, ctx, otype, action, resource, target, key);
    }
  }

  lemma FirstBadStops(
    cfg: Config, ctx: AuthContext, otype: ObjectType, action: Action, target: Option<Record>, resource: string,
    edits: seq<(string, Value)>, i: int)
    ensures FirstBad(cfg, ctx, otype, action, target, resource, edits, i)
            <==> StopsAt(otype, GrantsFor(cfg, ctx, action, resource, target), edits, i)
  {
    hide EditOk, Allowed, GrantsFor;
    forall key
      ensures Allowed(cfg, ctx, otype, action, target, resource, key)
              <==> EditOk(otype, GrantsFor(cfg, ctx, action, resource, target), key)
    {
      AllowedMeans(cfg, ctx, otype, action, target, resource, key);
    }
  }

  /** The edits as a call makes them, in the caller's own terms. */
  lemma CallEdits(
    cfg: Config, ctx: AuthContext, otype: ObjectType, action: Action, target: Option<Record>, resource: string,
    start: Fields, edits: seq<(string, Value)>, clearing: bool)
    ensures var out := S.ApplyEdits(otype, GrantsFor(cfg, ctx, action, resource, target), start, edits, clearing);
            && (out.Applied? <==> !exists i :: FirstBad(cfg, ctx, otype, action, target, resource, edits, i))
            && (out.Applied? ==> forall key :: Lookup(out.data, key) == Edited(start, edits, key, clearing))
            && forall i | FirstBad(cfg, ctx, otype, action, target, resource, edits, i) ::
                 out == if KnownField(otype, edits[i].0) then S.DeniedField else S.BadField
  {
    hide EditOk, FirstBad, KnownField, GrantsFor, S.ApplyEdits, Edited;
    var grants := GrantsFor(cfg, ctx, action, resource, target);
    var out := S.ApplyEdits(otype, grants, start, edits, clearing);
    forall i | FirstBad(cfg, ctx, otype, action, target, resource, edits, i)
      ensures 0 <= i < |edits| && out == if KnownField(otype, edits[i].0) then S.DeniedField else S.BadField
    {
      FirstBadStops(cfg, ctx, otype, action, target, resource, edits, i);
      EditsStop(otype, grants, start, edits, clearing, i);
    }
    EditsApply(otype, grants, start, edits, clearing);
    if out.Applied? {
      forall key ensures Lookup(out.data, key) == Edited(start, edits, key, clearing) {
        EditsHold(otype, grants, start, edits, clearing, key);
      }
    } else {
      var i :| 0 <= i < |edits| && !EditOk(otype, grants, edits[i].0);
      var first := FirstRefused(otype, grants, edits, i);
      FirstBadStops(cfg, ctx, otype, action, target, resource, edits, first);
    }
  }

  lemma {:induction false} FirstRefused(otype: ObjectType, grants: seq<Grant>, edits: seq<(string, Value)>, i: nat)
    returns (first: nat)
    requires i < |edits| && !EditOk(otype, grants, edits[i].0)
    ensures first <= i && !EditOk(otype, grants, edits[first].0)
    ensures forall j | 0 <= j < first :: EditOk(otype, grants, edits[j].0)
  {
    first := i;
    if j :| 0 <= j < i && !EditOk(otype, grants, edits[j].0) {
      first := FirstRefused(otype, grants, edits, j);
    }
  }

  lemma FitsMeans(otype: ObjectType, data: Fields, isTimestamp: string -> bool)
    ensures S.DataFits(otype, data, isTimestamp)
            <==> forall f | f in otype.fields :: !Breaks(f, Lookup(data, f.key), isTimestamp)
  {
    hide Breaks, ValueFits;
    forall f | f in otype.fields
      ensures Breaks(f, Lookup(data, f.key), isTimestamp)
              <==> !ValueFits(f, if f.key in data then data[f.key] else Null, isTimestamp)
    {
      BreaksMeans(f, Lookup(data, f.key), isTimestamp);
    }
  }

  /** An entitled create of a known type, exactly: the first edit that names no field, or one the
      system keeps, fails it as invalid; the first that names a field its caller may not write, as
      forbidden; a field whose rule the finished record breaks, as invalid; otherwise the record is
      stored with just the values given and the defaults, in the caller's organization. */
  lemma CreatesExactly(
    cfg: Config, db: Db, ctx: AuthContext, new_: S.NewRecord, id: string, now: int)
    requires ConfigValid(cfg) && id !in db.records
    requires Entitled(cfg, ctx, Create, "object:" + new_.objectType, None)
    requires LoadType(cfg, ctx.tenantId, new_.objectType).Some?
    ensures var otype := LoadType(cfg, ctx.tenantId, new_.objectType).value;
            var out, resource := S.CreateRecord(cfg, db, ctx, new_, id, now), "object:" + new_.objectType;
            && (forall i | FirstBad(cfg, ctx, otype, Create, None, resource, new_.data, i) ::
                  out.reply == Err(if KnownField(otype, new_.data[i].0) then Forbidden else Validation))
            && ((forall i :: !FirstBad(cfg, ctx, otype, Create, None, resource, new_.data, i)) ==>
                  && (out.reply == Err(Validation)
                      <==> exists f | f in otype.fields :: Breaks(f, Made(otype, new_.data, f.key), cfg.isTimestamp))
                  && (out.reply.Ok? <==> out.reply != Err(Validation)))
            && (out.reply.Ok? ==>
                  && out.tx.InsertRecord? && out.tx.record.id == id
                  && (forall key :: Lookup(out.tx.record.data, key) == Made(otype, new_.data, key))
                  && out.tx.record
                     == Record(id, new_.objectType, ctx.tenantId, ctx.orgId,
                               if new_.workspaceId.Some? then new_.workspaceId else ctx.workspaceId,
                               out.tx.record.data, Active, FirstState(cfg, ctx.tenantId, otype), ctx.actorId,
                               now, now, None))
  {
    hide Authorized, Entitled, FirstBad, Breaks, S.ApplyEdits, S.DataFits, KnownField, GrantsFor, ProjectForRead;
    var otype, resource := LoadType(cfg, ctx.tenantId, new_.objectType).value, "object:" + new_.objectType;
    AuthorizedExactlyWhenEntitled(cfg, ctx, Create, resource, None);
    CallEdits(cfg, ctx, otype, Create, None, resource, S.Defaults(otype.fields), new_.data, false);
    var edits := S.ApplyEdits(otype, GrantsFor(cfg, ctx, Create, resource, None), S.Defaults(otype.fields), new_.data,
                              false);
    if edits.Applied? {
      FitsMeans(otype, edits.data, cfg.isTimestamp);
      forall key ensures Lookup(edits.data, key) == Made(otype, new_.data, key) {
        DefaultsAre(otype.fields, key);
      }
    }
  }

  /** An entitled update, the same way: the fields named hold what they were given last, or nothing
      if that was null, and every other field what it held. */
  lemma UpdatesExactly(
    cfg: Config, db: Db, ctx: AuthContext, id: string, patch: seq<(string, Value)>, now: int)
    requires LoadRecord(db, ctx.tenantId, id).Some?
    requires Entitled(cfg, ctx, Update, "object:" + db.records[id].objectType, Some(db.records[id]))
    requires LoadType(cfg, ctx.tenantId, db.records[id].objectType).Some?
    ensures var r := db.records[id];
            var otype, resource := LoadType(cfg, ctx.tenantId, r.objectType).value, "object:" + r.objectType;
            var out := S.UpdateRecord(cfg, db, ctx, id, patch, now);
            && (forall i | FirstBad(cfg, ctx, otype, Update, Some(r), resource, patch, i) ::
                  out.reply == Err(if KnownField(otype, patch[i].0) then Forbidden else Validation))
            && ((forall i :: !FirstBad(cfg, ctx, otype, Update, Some(r), resource, patch, i)) ==>
                  && (out.reply == Err(Validation)
                      <==> exists f | f in otype.fields :: Breaks(f, Patched(r, patch, f.key), cfg.isTimestamp))
                  && (out.reply.Ok? <==> out.reply != Err(Validation)))
            && (out.reply.Ok? ==>
                  && out.tx.ReplaceRecord?
                  && out.tx.record.(data := r.data, updatedAt := r.updatedAt) == r && out.tx.record.updatedAt == now
                  && (forall key :: Lookup(out.tx.record.data, key) == Patched(r, patch, key)))
  {
    hide Authorized, Entitled, FirstBad, Breaks, S.ApplyEdits, S.DataFits, KnownField, GrantsFor, ProjectForRead;
    var r := db.records[id];
    var otype, resource := LoadType(cfg, ctx.tenantId, r.objectType).value, "object:" + r.objectType;
    AuthorizedExactlyWhenEntitled(cfg, ctx, Update, resource, Some(r));
    CallEdits(cfg, ctx, otype, Update, Some(r), resource, r.data, patch, true);
    var edits := S.ApplyEdits(otype, GrantsFor(cfg, ctx, Update, resource, Some(r)), r.data, patch, true);
    if edits.Applied? {
      FitsMeans(otype, edits.data, cfg.isTimestamp);
    }
  }
}
