/** The shared contracts: fields, permissions, records, workflows, paging. */
module Contracts {
  import opened Values

  // ---- errors ------------------------------------------------------------

  datatype ErrorCode =
    | Unauthorized | Forbidden | NotFound | Validation | Conflict
    | FailedPrecondition | RateLimited | Overflow

  datatype Result<+T> = Ok(value: T) | Err(code: ErrorCode)

  // ---- fields and object types --------------------------------------------

  datatype FieldType =
    | Text | LongText | Number | Money | Boolean | Date | DateTime | Enum
    | MultiEnum | Json | RecordRef | UserRef | FileRef | Formula

  datatype FieldDef = FieldDef(
    key: string,
    fieldType: FieldType,
    required: bool,
    default: Option<Value>,
    enumOptions: seq<string>,
    refObjectType: Option<string>,
    restricted: bool,
    system: bool)

  datatype ObjectType = ObjectType(
    key: string,
    label_: string,
    owner: Option<string>,
    workflowKey: Option<string>,
    fields: seq<FieldDef>)

  /** The first field with the key, as `ObjectTypeDef::field`. */
  function FieldOf(fields: seq<FieldDef>, key: string): (r: Option<FieldDef>)
    ensures r.Some? ==> r.value in fields && r.value.key == key
    ensures r.None? <==> forall f | f in fields :: f.key != key
  {
    if fields == [] then None
    else if fields[0].key == key then Some(fields[0])
    else FieldOf(fields[1..], key)
  }

  /** The field returned is the one at the least index with the key. */
  lemma {:induction false} FieldOfIsFirst(fields: seq<FieldDef>, i: nat)
    requires i < |fields| && forall j | 0 <= j < i :: fields[j].key != fields[i].key
    ensures FieldOf(fields, fields[i].key) == Some(fields[i])
  {
    if i > 0 {
      assert fields[0].key != fields[i].key;
      FieldOfIsFirst(fields[1..], i - 1);
    }
  }

  /** Integers a 64-bit JSON number can hold. */
  predicate IsWholeNumber(v: Value) {
    v.Int? && -0x8000_0000_0000_0000 <= v.i < 0x1_0000_0000_0000_0000
  }

  /** How many bytes the character takes in UTF-8. */
  function Utf8Size(c: char): nat {
    var n := c as int;
    if n < 0x80 then 1 else if n < 0x800 then 2 else if n < 0x1_0000 then 3 else 4
  }

  function Utf8Length(s: string): nat {
    if s == [] then 0 else Utf8Length(s[..|s| - 1]) + Utf8Size(s[|s| - 1])
  }

  /** The byte at the offset is a dash; bytes within longer characters never are. */
  predicate DashAtByte(s: string, offset: nat) {
    exists i | 0 <= i < |s| :: s[i] == '-' && Utf8Length(s[..i]) == offset
  }

  /** `validate_value`: does the value (Null for an absent one) fit the field? */
  predicate ValueFits(f: FieldDef, v: Value, isTimestamp: string -> bool) {
    if v.Null? then !f.required
    else
      match f.fieldType
      case Text => v.Str?
      case LongText => v.Str?
      case Number => v.Int? || v.Flt?
      case Money => IsWholeNumber(v)
      case Boolean => v.Bool?
      case Date => v.Str? && Utf8Length(v.s) == 10 && DashAtByte(v.s, 4) && DashAtByte(v.s, 7)
      case DateTime => v.Str? && isTimestamp(v.s)
      case Enum => v.Str? && v.s in f.enumOptions
      case MultiEnum =>
        v.Arr? && forall x | x in v.items :: x.Str? && x.s in f.enumOptions
      case Json => true
      case RecordRef => v.Str?
      case UserRef => v.Str?
      case FileRef => v.Str?
      case Formula => true
  }

  predicate UniqueKeys(fields: seq<FieldDef>) {
    forall i, j | 0 <= i < j < |fields| :: fields[i].key != fields[j].key
  }

  lemma {:induction false} UniqueFieldOf(fields: seq<FieldDef>, f: FieldDef)
    requires UniqueKeys(fields) && f in fields
    ensures FieldOf(fields, f.key) == Some(f)
  {
  }

  // ---- permissions --------------------------------------------------------

  datatype Action =
    | Create | Read | Update | Archive | Restore | Relate | Transition_ | Approve
    | Export | Search | Configure | Execute | DryRun | Manage

  function ActionName(a: Action): string {
    match a
    case Create => "create"
    case Read => "read"
    case Update => "update"
    case Archive => "archive"
    case Restore => "restore"
    case Relate => "relate"
    case Transition_ => "transition"
    case Approve => "approve"
    case Export => "export"
    case Search => "search"
    case Configure => "configure"
    case Execute => "execute"
    case DryRun => "dry_run"
    case Manage => "manage"
  }

  datatype Scope = Platform | Tenant | Org | Workspace | Own

  datatype FieldRule = AllowFields(fields: seq<string>) | DenyFields(fields: seq<string>)

  datatype Condition = Condition(field: string, op: CompareOp, value: Value)

  datatype Grant = Grant(
    action: Action,
    resource: string,
    scope: Scope,
    fields: Option<FieldRule>,
    conditions: seq<Condition>)

  datatype ActorType = User | ServiceAccount | Agent | System

  datatype AuthContext = AuthContext(
    actorType: ActorType,
    actorId: string,
    tenantId: string,
    orgId: string,
    workspaceId: Option<string>,
    roleKeys: seq<string>,
    isPlatformAdmin: bool)

  /** System actors and platform admins skip every permission check. */
  predicate Trusted(ctx: AuthContext) {
    ctx.actorType.System? || ctx.isPlatformAdmin
  }

  // ---- records ------------------------------------------------------------

  datatype Lifecycle = Active | Archived

  datatype Record = Record(
    id: string,
    objectType: string,
    tenantId: string,
    orgId: string,
    workspaceId: Option<string>,
    data: Fields,
    lifecycle: Lifecycle,
    workflowState: Option<string>,
    createdBy: string,
    createdAt: int,
    updatedAt: int,
    archivedAt: Option<int>)

  const OWNER_FIELDS: seq<string> := ["owner_id", "assignee_id", "user_id"]

  /** Is the actor the creator, or named by one of the owner fields? */
  predicate OwnedBy(r: Record, actorId: string) {
    r.createdBy == actorId
    || exists k | k in OWNER_FIELDS :: k in r.data && r.data[k] == Str(actorId)
  }

  /** The loop that collects the creator and whoever the owner fields name. */
  method OwnerCandidates(r: Record) returns (owners: seq<string>)
    ensures forall actorId :: actorId in owners <==> OwnedBy(r, actorId)
  {
    owners := [r.createdBy];
    for i := 0 to |OWNER_FIELDS|
      invariant forall a :: a in owners <==>
                  a == r.createdBy || exists k | k in OWNER_FIELDS[..i] :: k in r.data && r.data[k] == Str(a)
    {
      var key := OWNER_FIELDS[i];
      assert OWNER_FIELDS[..i + 1] == OWNER_FIELDS[..i] + [key];
      if key in r.data && r.data[key].Str? {
        owners := owners + [r.data[key].s];
      }
    }
    assert OWNER_FIELDS[..|OWNER_FIELDS|] == OWNER_FIELDS;
  }

  // ---- workflows ----------------------------------------------------------

  datatype Transition = Transition(
    key: string,
    from: string,
    to: string,
    label_: string,
    guardPermission: Option<string>,
    requiresApproval: bool,
    approvalPolicy: Option<string>)

  datatype Workflow = Workflow(
    key: string,
    objectType: string,
    initialState: string,
    states: seq<string>,
    transitions: seq<Transition>)

  /** The first transition with the key that leaves the state. */
  function TransitionFrom(ts: seq<Transition>, current: string, key: string): (r: Option<Transition>)
    ensures r.Some? ==> r.value in ts && r.value.from == current && r.value.key == key
    ensures r.None? <==> forall t | t in ts :: !(t.key == key && t.from == current)
  {
    if ts == [] then None
    else if ts[0].key == key && ts[0].from == current then Some(ts[0])
    else TransitionFrom(ts[1..], current, key)
  }

  /** The transition returned is the one at the least index that leaves the state under the key:
      a later one with the same source and key is never taken. */
  lemma {:induction false} TransitionFromIsFirst(ts: seq<Transition>, i: nat)
    requires i < |ts| && forall j | 0 <= j < i :: !(ts[j].key == ts[i].key && ts[j].from == ts[i].from)
    ensures TransitionFrom(ts, ts[i].from, ts[i].key) == Some(ts[i])
  {
    if i > 0 {
      assert !(ts[0].key == ts[i].key && ts[0].from == ts[i].from);
      TransitionFromIsFirst(ts[1..], i - 1);
    }
  }

  /** Every transition that leaves the state, in declaration order. */
  function AvailableFrom(ts: seq<Transition>, current: string): (r: seq<Transition>)
    ensures forall t :: t in r <==> t in ts && t.from == current
  {
    if ts == [] then []
    else (if ts[0].from == current then [ts[0]] else []) + AvailableFrom(ts[1..], current)
  }

  /** Declaration order and multiplicity: a transition that leaves the state stands once, behind
      what is offered of those declared before it and ahead of what is offered of those after. */
  lemma {:induction false} AvailableKeepsOrder(ts: seq<Transition>, current: string, i: nat)
    requires i < |ts|
    ensures AvailableFrom(ts, current)
            == AvailableFrom(ts[..i], current) + (if ts[i].from == current then [ts[i]] else [])
               + AvailableFrom(ts[i + 1..], current)
  {
    if i > 0 {
      AvailableKeepsOrder(ts[1..], current, i - 1);
      assert ts[..i][1..] == ts[1..][..i - 1] && ts[1..][i..] == ts[i + 1..];
      Reassociate(if ts[0].from == current then [ts[0]] else [], AvailableFrom(ts[1..][..i - 1], current),
                  if ts[i].from == current then [ts[i]] else [], AvailableFrom(ts[i + 1..], current));
    }
  }

  lemma Reassociate<T>(a: seq<T>, b: seq<T>, c: seq<T>, d: seq<T>)
    ensures a + (b + c + d) == (a + b) + c + d
  {
  }

  /** `validate_workflow`, without the blank-key test. */
  predicate WorkflowDeclaresStates(wf: Workflow) {
    wf.initialState in wf.states
    && forall t | t in wf.transitions :: t.from in wf.states && t.to in wf.states
  }

  // ---- paging and filters -------------------------------------------------

  datatype Page = Page(limit: int, offset: int)

  function Distance(a: int, b: int): nat {
    if a < b then b - a else a - b
  }

  /** The page with the legal limit and the legal offset that are nearest to those asked for. */
  function Clamped(p: Page): (r: Page)
    ensures 1 <= r.limit <= 500 && 0 <= r.offset
    ensures forall limit | 1 <= limit <= 500 :: Distance(p.limit, r.limit) <= Distance(p.limit, limit)
    ensures forall offset | 0 <= offset :: Distance(p.offset, r.offset) <= Distance(p.offset, offset)
  {
    Page(if p.limit < 1 then 1 else if p.limit > 500 then 500 else p.limit,
         if p.offset < 0 then 0 else p.offset)
  }

  datatype FieldFilter = FieldFilter(field: string, op: CompareOp, value: Value)

  datatype RecordFilter = RecordFilter(
    filters: seq<FieldFilter>,
    search: Option<string>,
    sort: Option<string>,
    desc: bool,
    includeArchived: bool,
    page: Page)

  // ---- configuration ------------------------------------------------------

  datatype RoleRow = RoleRow(tenantId: string, key: string, grants: seq<Grant>)

  /** Names a per-tenant row: object types and workflows are unique by this pair. */
  datatype TenantKey = TenantKey(tenantId: string, key: string)

  /** What stays fixed during a run: flags, roles, object types, workflows, and the
      three library functions the kernel calls on strings and values. */
  datatype Config = Config(
    advancedPermissions: bool,
    separationOfDuties: bool,
    roles: seq<RoleRow>,
    types: map<TenantKey, ObjectType>,
    workflows: map<TenantKey, Workflow>,
    isTimestamp: string -> bool,
    toLower: string -> string,
    render: Value -> string)

  function LoadType(cfg: Config, tenantId: string, key: string): Option<ObjectType> {
    if TenantKey(tenantId, key) in cfg.types then Some(cfg.types[TenantKey(tenantId, key)]) else None
  }

  function LoadWorkflow(cfg: Config, tenantId: string, key: string): Option<Workflow> {
    if TenantKey(tenantId, key) in cfg.workflows
    then Some(cfg.workflows[TenantKey(tenantId, key)]) else None
  }

  /** The workflow that governs a type's records, if it names one that exists. */
  function WorkflowOf(cfg: Config, tenantId: string, typeKey: string): Option<Workflow> {
    match LoadType(cfg, tenantId, typeKey)
    case None => None
    case Some(otype) =>
      if otype.workflowKey.Some? then LoadWorkflow(cfg, tenantId, otype.workflowKey.value) else None
  }

  function InitialState(cfg: Config, tenantId: string, typeKey: string): Option<string> {
    match WorkflowOf(cfg, tenantId, typeKey)
    case None => None
    case Some(wf) => Some(wf.initialState)
  }

  /** Types and workflows passed the checks the kernel makes when it stores them. */
  predicate ConfigValid(cfg: Config) {
    && (forall k | k in cfg.types :: UniqueKeys(cfg.types[k].fields))
    && (forall k | k in cfg.workflows :: WorkflowDeclaresStates(cfg.workflows[k]))
  }
}
