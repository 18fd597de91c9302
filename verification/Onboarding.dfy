/** The first-run onboarding session: one row per tenant, from booting the old system to a report. */
module Onboarding {
  import opened Values
  import opened Contracts
  import opened Rbac
  import opened Planner
  import opened Entitlement

  datatype Status = BootedOld | TargetSelected | Reported

  datatype Report = Report(
    tenantId: string,
    generatedAt: int,
    forSystem: SystemKind,
    source: Snapshot,
    target: Option<Snapshot>,
    plan: Option<Plan>,
    summary: Summary)

  datatype Session = Session(
    status: Status,
    active: SystemKind,
    selected: Option<string>,
    snapshot: Snapshot,
    lastReport: Option<Report>,
    createdAt: int,
    updatedAt: int)

  type Sessions = map<string, Session>

  type Templates = map<string, seq<TargetDef>>

  /** What a call reads of the tenant's live data: its object types and active record counts. */
  datatype Inventory = Inventory(objects: seq<ObjectType>, counts: Counts)

  datatype Reply =
    | Refused(code: ErrorCode)
    | SessionReply(session: Option<Session>)
    | PlanReply(plan: Plan)
    | ReportReply(report: Option<Report>)

  datatype Outcome = Outcome(sessions: Sessions, reply: Reply)

  const RESOURCE := "migration"
  const TYPES := "object_types"

  /** `old_only_summary`. */
  function OldOnly(source: Snapshot): Summary {
    var total := TotalRecords(source.objects);
    Summary(|source.objects|, 0, 0, total, 0, total, 0)
  }

  /** The plan of a report: only for the selected system, and only onto a known template. */
  function ReportPlan(
    templates: Templates, forSystem: SystemKind, inv: Inventory, selected: Option<string>): Option<Plan>
  {
    if forSystem.Selected? && selected.Some? && selected.value in templates
    then Some(PlanFor(selected.value, inv.objects, inv.counts, templates[selected.value]))
    else None
  }

  function ReportFor(tenantId: string, forSystem: SystemKind, inv: Inventory, plan: Option<Plan>, now: int): Report {
    var source := OldSnapshot(inv.objects, inv.counts);
    match plan
    case Some(p) => Report(tenantId, now, forSystem, source, Some(p.target), plan, p.summary)
    case None => Report(tenantId, now, forSystem, source, None, None, OldOnly(source))
  }

  // ---- calls ---------------------------------------------------------------------------------

  predicate May(cfg: Config, ctx: AuthContext, action: Action, resource: string) {
    Authorized(cfg, ctx, action, resource, None)
  }

  function Find(s: Sessions, tenantId: string): Option<Session> {
    if tenantId in s then Some(s[tenantId]) else None
  }

  function Put(s: Sessions, tenantId: string, row: Session): Outcome {
    Outcome(s[tenantId := row], SessionReply(Some(row)))
  }

  /** Starting again keeps which system is active and the last report. */
  function Start(
    cfg: Config, templates: Templates, s: Sessions, ctx: AuthContext, target: Option<string>, inv: Inventory, now: int)
    : Outcome
  {
    if !May(cfg, ctx, Configure, RESOURCE) then Outcome(s, Refused(Forbidden))
    else if target.Some? && target.value !in templates then Outcome(s, Refused(NotFound))
    else if !May(cfg, ctx, Read, TYPES) then Outcome(s, Refused(Forbidden))
    else
      var status := if target.Some? then TargetSelected else BootedOld;
      var snapshot := OldSnapshot(inv.objects, inv.counts);
      Put(s, ctx.tenantId,
          match Find(s, ctx.tenantId)
          case None => Session(status, Old, target, snapshot, None, now, now)
          case Some(row) => row.(status := status, selected := target, snapshot := snapshot, updatedAt := now))
  }

  function Get(cfg: Config, s: Sessions, ctx: AuthContext): Outcome {
    if !May(cfg, ctx, Read, RESOURCE) then Outcome(s, Refused(Forbidden))
    else Outcome(s, SessionReply(Find(s, ctx.tenantId)))
  }

  function Select(cfg: Config, templates: Templates, s: Sessions, ctx: AuthContext, target: string, now: int): Outcome {
    if !May(cfg, ctx, Configure, RESOURCE) then Outcome(s, Refused(Forbidden))
    else if target !in templates then Outcome(s, Refused(NotFound))
    else
      match Find(s, ctx.tenantId)
      case None => Outcome(s, Refused(FailedPrecondition))
      case Some(row) =>
        Put(s, ctx.tenantId, row.(selected := Some(target), status := TargetSelected, updatedAt := now))
  }

  function SetActive(cfg: Config, s: Sessions, ctx: AuthContext, active: SystemKind, now: int): Outcome {
    if !May(cfg, ctx, Configure, RESOURCE) then Outcome(s, Refused(Forbidden))
    else
      match Find(s, ctx.tenantId)
      case None => Outcome(s, Refused(FailedPrecondition))
      case Some(row) =>
        if active.Selected? && row.selected.None? then Outcome(s, Refused(FailedPrecondition))
        else
          var status := if active.Selected? && row.status.BootedOld? then TargetSelected else row.status;
          Put(s, ctx.tenantId, row.(active := active, status := status, updatedAt := now))
  }

  function PlanNow(cfg: Config, templates: Templates, s: Sessions, ctx: AuthContext, inv: Inventory): Outcome {
    if !May(cfg, ctx, Read, RESOURCE) then Outcome(s, Refused(Forbidden))
    else
      match Find(s, ctx.tenantId)
      case None => Outcome(s, Refused(FailedPrecondition))
      case Some(row) =>
        if row.selected.None? then Outcome(s, Refused(FailedPrecondition))
        else if row.selected.value !in templates then Outcome(s, Refused(NotFound))
        else if !May(cfg, ctx, Read, TYPES) then Outcome(s, Refused(Forbidden))
        else
          Outcome(s, PlanReply(PlanFor(row.selected.value, inv.objects, inv.counts, templates[row.selected.value])))
  }

  /** `generate_and_store_report` on a session that exists. */
  function Generate(
    cfg: Config, templates: Templates, s: Sessions, ctx: AuthContext, row: Session, forSystem: SystemKind,
    inv: Inventory, now: int): Outcome
  {
    if !May(cfg, ctx, Read, TYPES) then Outcome(s, Refused(Forbidden))
    else
      var report := ReportFor(ctx.tenantId, forSystem, inv, ReportPlan(templates, forSystem, inv, row.selected), now);
      Outcome(s[ctx.tenantId := row.(lastReport := Some(report), status := Reported, updatedAt := now)],
              ReportReply(Some(report)))
  }

  function MakeReport(
    cfg: Config, templates: Templates, s: Sessions, ctx: AuthContext, forSystem: SystemKind, inv: Inventory, now: int)
    : Outcome
  {
    if !May(cfg, ctx, Read, RESOURCE) then Outcome(s, Refused(Forbidden))
    else
      match Find(s, ctx.tenantId)
      case None => Outcome(s, Refused(FailedPrecondition))
      case Some(row) => Generate(cfg, templates, s, ctx, row, forSystem, inv, now)
  }

  const SYSTEM_ROLE := "system"

  /** `AuthContext::system`: the actor a logout reports as. */
  function SystemActor(tenantId: string, orgId: string): AuthContext {
    AuthContext(System, SYSTEM_ROLE, tenantId, orgId, None, [SYSTEM_ROLE], true)
  }

  /** At logout the report is for whichever system is active, if onboarding was ever started. */
  function LogoutReport(
    cfg: Config, templates: Templates, s: Sessions, tenantId: string, orgId: string, inv: Inventory, now: int): Outcome
  {
    match Find(s, tenantId)
    case None => Outcome(s, ReportReply(None))
    case Some(row) => Generate(cfg, templates, s, SystemActor(tenantId, orgId), row, row.active, inv, now)
  }

  // ---- the service -------------------------------------------------------------------------------

  class Migration {
    const cfg: Config
    const templates: Templates
    var sessions: Sessions

    constructor (cfg: Config, templates: Templates)
      ensures this.cfg == cfg && this.templates == templates && sessions == map[]
    {
      this.cfg, this.templates, sessions := cfg, templates, map[];
    }

    method StartMigration(ctx: AuthContext, target: Option<string>, inv: Inventory, now: int) returns (reply: Reply)
      modifies this
      ensures Outcome(sessions, reply) == Start(cfg, templates, old(sessions), ctx, target, inv, now)
    {
      if !May(cfg, ctx, Configure, RESOURCE) {
        return Refused(Forbidden);
      }
      if target.Some? && target.value !in templates {
        return Refused(NotFound);
      }
      if !May(cfg, ctx, Read, TYPES) {
        return Refused(Forbidden);
      }
      var snapshot := OldSnapshot(inv.objects, inv.counts);
      var status := if target.Some? then TargetSelected else BootedOld;
      if ctx.tenantId in sessions {
        var row := sessions[ctx.tenantId];
        sessions := sessions[ctx.tenantId :=
          row.(status := status, selected := target, snapshot := snapshot, updatedAt := now)];
      } else {
        sessions := sessions[ctx.tenantId := Session(status, Old, target, snapshot, None, now, now)];
      }
      reply := SessionReply(Some(sessions[ctx.tenantId]));
    }

    method SelectTargetSystem(ctx: AuthContext, target: string, now: int) returns (reply: Reply)
      modifies this
      ensures Outcome(sessions, reply) == Select(cfg, templates, old(sessions), ctx, target, now)
    {
      if !May(cfg, ctx, Configure, RESOURCE) {
        return Refused(Forbidden);
      }
      if target !in templates {
        return Refused(NotFound);
      }
      if ctx.tenantId !in sessions {
        return Refused(FailedPrecondition);
      }
      var row := sessions[ctx.tenantId];
      sessions := sessions[ctx.tenantId := row.(selected := Some(target), status := TargetSelected, updatedAt := now)];
      reply := SessionReply(Some(sessions[ctx.tenantId]));
    }

    method SetActiveSystem(ctx: AuthContext, active: SystemKind, now: int) returns (reply: Reply)
      modifies this
      ensures Outcome(sessions, reply) == SetActive(cfg, old(sessions), ctx, active, now)
    {
      if !May(cfg, ctx, Configure, RESOURCE) {
        return Refused(Forbidden);
      }
      if ctx.tenantId !in sessions {
        return Refused(FailedPrecondition);
      }
      var row := sessions[ctx.tenantId];
      if active.Selected? && row.selected.None? {
        return Refused(FailedPrecondition);
      }
      var status := match (active, row.status)
                    case (Selected, BootedOld) => TargetSelected
                    case (_, current) => current;
      sessions := sessions[ctx.tenantId := row.(active := active, status := status, updatedAt := now)];
      reply := SessionReply(Some(sessions[ctx.tenantId]));
    }

    method PlanMigration(ctx: AuthContext, inv: Inventory) returns (reply: Reply)
      ensures Outcome(sessions, reply) == PlanNow(cfg, templates, sessions, ctx, inv)
    {
      if !May(cfg, ctx, Read, RESOURCE) {
        return Refused(Forbidden);
      }
      if ctx.tenantId !in sessions || sessions[ctx.tenantId].selected.None? {
        return Refused(FailedPrecondition);
      }
      var key := sessions[ctx.tenantId].selected.value;
      if key !in templates {
        return Refused(NotFound);
      }
      if !May(cfg, ctx, Read, TYPES) {
        return Refused(Forbidden);
      }
      var plan := BuildPlan(key, inv.objects, inv.counts, templates[key]);
      reply := PlanReply(plan);
    }

    method BuildReport(tenantId: string, forSystem: SystemKind, inv: Inventory, selected: Option<string>, now: int)
      returns (report: Report)
      ensures report == ReportFor(tenantId, forSystem, inv, ReportPlan(templates, forSystem, inv, selected), now)
    {
      var source := OldSnapshot(inv.objects, inv.counts);
      if forSystem.Selected? && selected.Some? && selected.value in templates {
        var plan := BuildPlan(selected.value, inv.objects, inv.counts, templates[selected.value]);
        report := Report(tenantId, now, forSystem, source, Some(plan.target), Some(plan), plan.summary);
      } else {
        report := Report(tenantId, now, forSystem, source, None, None, OldOnly(source));
      }
    }

    method GenerateAndStoreReport(
      ctx: AuthContext, forSystem: SystemKind, inv: Inventory, now: int) returns (reply: Reply)
      requires ctx.tenantId in sessions
      modifies this
      ensures Outcome(sessions, reply)
              == Generate(cfg, templates, old(sessions), ctx, old(sessions)[ctx.tenantId], forSystem, inv, now)
    {
      if !May(cfg, ctx, Read, TYPES) {
        return Refused(Forbidden);
      }
      var row := sessions[ctx.tenantId];
      var report := BuildReport(ctx.tenantId, forSystem, inv, row.selected, now);
      sessions := sessions[ctx.tenantId := row.(lastReport := Some(report), status := Reported, updatedAt := now)];
      reply := ReportReply(Some(report));
    }

    method MigrationReport(ctx: AuthContext, forSystem: SystemKind, inv: Inventory, now: int) returns (reply: Reply)
      modifies this
      ensures Outcome(sessions, reply) == MakeReport(cfg, templates, old(sessions), ctx, forSystem, inv, now)
    {
      if !May(cfg, ctx, Read, RESOURCE) {
        return Refused(Forbidden);
      }
      if ctx.tenantId !in sessions {
        return Refused(FailedPrecondition);
      }
      reply := GenerateAndStoreReport(ctx, forSystem, inv, now);
    }

    method LogoutMigrationOutput(tenantId: string, orgId: string, inv: Inventory, now: int) returns (reply: Reply)
      modifies this
      ensures Outcome(sessions, reply) == LogoutReport(cfg, templates, old(sessions), tenantId, orgId, inv, now)
    {
      if tenantId !in sessions {
        return ReportReply(None);
      }
      reply := GenerateAndStoreReport(SystemActor(tenantId, orgId), sessions[tenantId].active, inv, now);
    }
  }

  // ---- runs ---------------------------------------------------------------------------------------

  datatype Op =
    | StartOp(target: Option<string>)
    | GetOp
    | SelectOp(key: string)
    | SetActiveOp(active: SystemKind)
    | PlanOp
    | ReportOp(forSystem: SystemKind)
    | LogoutOp

  datatype Call = Call(ctx: AuthContext, inv: Inventory, now: int, op: Op)

  function Decide(cfg: Config, templates: Templates, s: Sessions, c: Call): Outcome {
    match c.op
    case StartOp(target) => Start(cfg, templates, s, c.ctx, target, c.inv, c.now)
    case GetOp => Get(cfg, s, c.ctx)
    case SelectOp(key) => Select(cfg, templates, s, c.ctx, key, c.now)
    case SetActiveOp(active) => SetActive(cfg, s, c.ctx, active, c.now)
    case PlanOp => PlanNow(cfg, templates, s, c.ctx, c.inv)
    case ReportOp(forSystem) => MakeReport(cfg, templates, s, c.ctx, forSystem, c.inv, c.now)
    case LogoutOp => LogoutReport(cfg, templates, s, c.ctx.tenantId, c.ctx.orgId, c.inv, c.now)
  }

  function After(cfg: Config, templates: Templates, calls: seq<Call>): Sessions {
    if calls == [] then map[]
    else Decide(cfg, templates, After(cfg, templates, calls[..|calls| - 1]), calls[|calls| - 1]).sessions
  }

  // ---- who may onboard ---------------------------------------------------------------------------

  ghost predicate Entitling(cfg: Config, ctx: AuthContext, action: Action, resource: string) {
    Entitled(cfg, ctx, action, resource, None)
  }

  /** The session is there with a known target. */
  predicate Targeted(templates: Templates, s: Sessions, tenantId: string) {
    tenantId in s && s[tenantId].selected.Some? && s[tenantId].selected.value in templates
  }

  /** What a call asks of its caller: to configure or read the migration, and where the tenant's types
      come in, to read those. A logout reports as the system. */
  ghost predicate Lacks(cfg: Config, templates: Templates, s: Sessions, c: Call) {
    match c.op
    case StartOp(target) =>
      !Entitling(cfg, c.ctx, Configure, "migration")
      || ((target.None? || target.value in templates) && !Entitling(cfg, c.ctx, Read, "object_types"))
    case GetOp => !Entitling(cfg, c.ctx, Read, "migration")
    case SelectOp(_) => !Entitling(cfg, c.ctx, Configure, "migration")
    case SetActiveOp(_) => !Entitling(cfg, c.ctx, Configure, "migration")
    case PlanOp =>
      !Entitling(cfg, c.ctx, Read, "migration")
      || (Targeted(templates, s, c.ctx.tenantId) && !Entitling(cfg, c.ctx, Read, "object_types"))
    case ReportOp(_) =>
      !Entitling(cfg, c.ctx, Read, "migration")
      || (c.ctx.tenantId in s && !Entitling(cfg, c.ctx, Read, "object_types"))
    case LogoutOp => false
  }

  /** A call is refused as forbidden exactly when its caller lacks what it asks for, and then changes
      nothing; and no call changes another tenant's session. */
  lemma OnboardingIsForTheEntitled(cfg: Config, templates: Templates, s: Sessions, c: Call)
    ensures Decide(cfg, templates, s, c).reply == Refused(Forbidden) <==> Lacks(cfg, templates, s, c)
    ensures Lacks(cfg, templates, s, c) ==> Decide(cfg, templates, s, c).sessions == s
    ensures forall t | t != c.ctx.tenantId ::
              (t in Decide(cfg, templates, s, c).sessions <==> t in s)
              && (t in s ==> Decide(cfg, templates, s, c).sessions[t] == s[t])
  {
    hide Authorized, Entitled, PlanFor, OldSnapshot, OldOnly;
    var system := SystemActor(c.ctx.tenantId, c.ctx.orgId);
    forall action, resource
      ensures Authorized(cfg, c.ctx, action, resource, None) <==> Entitled(cfg, c.ctx, action, resource, None)
      ensures Authorized(cfg, system, action, resource, None)
    {
      AuthorizedExactlyWhenEntitled(cfg, c.ctx, action, resource, None);
      SystemMayAll(cfg, system, action, resource);
    }
  }

  lemma SystemMayAll(cfg: Config, ctx: AuthContext, action: Action, resource: string)
    requires ctx.actorType.System?
    ensures Authorized(cfg, ctx, action, resource, None)
  {
  }

  // ---- the reachable sessions ------------------------------------------------------------------------

  /** What distinguishes sessions up to their data. */
  datatype Shape = Shape(status: Status, active: SystemKind, hasTarget: bool, hasReport: bool)

  function ShapeOf(row: Session): Shape {
    Shape(row.status, row.active, row.selected.Some?, row.lastReport.Some?)
  }

  /** A booted session has no target, a selected one has, and a reported one holds its report. Which
      system is active is not tied to any of it. */
  predicate Possible(h: Shape) {
    match h.status
    case BootedOld => !h.hasTarget
    case TargetSelected => h.hasTarget
    case Reported => h.hasReport
  }

  predicate Consistent(templates: Templates, row: Session) {
    Possible(ShapeOf(row)) && (row.selected.Some? ==> row.selected.value in templates)
  }

  ghost predicate AllConsistent(templates: Templates, s: Sessions) {
    forall t | t in s :: Consistent(templates, s[t])
  }

  lemma StepKeepsConsistent(cfg: Config, templates: Templates, s: Sessions, c: Call)
    requires AllConsistent(templates, s)
    ensures AllConsistent(templates, Decide(cfg, templates, s, c).sessions)
  {
    hide PlanFor, OldSnapshot, OldOnly, Authorized;
  }

  /** Every session of every run has a possible shape, and its target is a known template. */
  lemma {:induction false} SessionsAreConsistent(cfg: Config, templates: Templates, calls: seq<Call>)
    ensures AllConsistent(templates, After(cfg, templates, calls))
  {
    if calls != [] {
      SessionsAreConsistent(cfg, templates, calls[..|calls| - 1]);
      StepKeepsConsistent(cfg, templates, After(cfg, templates, calls[..|calls| - 1]), calls[|calls| - 1]);
    }
  }

  /** Hence switching systems never moves the status: the step from booted to selected that the
      switch provides for is never taken. */
  lemma SwitchingKeepsStatus(
    cfg: Config, templates: Templates, calls: seq<Call>, ctx: AuthContext, active: SystemKind, now: int)
    ensures var s := After(cfg, templates, calls);
            var o := SetActive(cfg, s, ctx, active, now);
            o.reply.SessionReply? ==>
              ctx.tenantId in s
              && o.sessions == s[ctx.tenantId := s[ctx.tenantId].(active := active, updatedAt := now)]
  {
    SessionsAreConsistent(cfg, templates, calls);
  }

  /** A report made in any reachable session is of the tenant's objects and records now. It carries a
      plan exactly when it is for the selected system and a target is stored; the plan is then the one
      for that target, and the report sums it up. Without one it counts every record as unmapped. */
  lemma ReportsPlanExactlyWithTarget(cfg: Config, templates: Templates, calls: seq<Call>, c: Call)
    requires c.op.ReportOp? || c.op.LogoutOp?
    ensures var s := After(cfg, templates, calls);
            var r := Decide(cfg, templates, s, c).reply;
            r.ReportReply? && r.report.Some? ==>
              && c.ctx.tenantId in s
              && var row := s[c.ctx.tenantId];
                 var forSystem := if c.op.ReportOp? then c.op.forSystem else row.active;
                 && r.report.value.forSystem == forSystem
                 && r.report.value.tenantId == c.ctx.tenantId && r.report.value.generatedAt == c.now
                 && r.report.value.source == OldSnapshot(c.inv.objects, c.inv.counts)
                 && var total := TotalRecords(r.report.value.source.objects);
                 && r.report.value.summary
                    == (if r.report.value.plan.Some? then r.report.value.plan.value.summary
                        else Summary(|c.inv.objects|, 0, 0, total, 0, total, 0))
                 && (r.report.value.plan.Some? <==> forSystem.Selected? && row.selected.Some?)
                 && (r.report.value.plan.Some? ==>
                       row.selected.value in templates
                       && r.report.value.plan.value
                          == PlanFor(row.selected.value, c.inv.objects, c.inv.counts, templates[row.selected.value]))
  {
    hide PlanFor, SnapshotObjects, TotalRecords, May;
    SessionsAreConsistent(cfg, templates, calls);
  }

  // ---- what a session remembers ----------------------------------------------------------------------

  /** The tenant's call was accepted. */
  ghost predicate Taken(cfg: Config, templates: Templates, calls: seq<Call>, tenantId: string)
    requires calls != []
  {
    var c := calls[|calls| - 1];
    c.ctx.tenantId == tenantId && !Decide(cfg, templates, After(cfg, templates, calls[..|calls| - 1]), c).reply.Refused?
  }

  /** The target that the tenant's last accepted start or selection named; a start may name none. */
  ghost function LastTarget(cfg: Config, templates: Templates, calls: seq<Call>, tenantId: string): Option<string> {
    if calls == [] then None
    else
      var before, op := LastTarget(cfg, templates, calls[..|calls| - 1], tenantId), calls[|calls| - 1].op;
      if !Taken(cfg, templates, calls, tenantId) then before
      else if op.StartOp? then op.target else if op.SelectOp? then Some(op.key) else before
  }

  /** The system that the tenant's last accepted switch made active, or else the old one. */
  ghost function LastSwitch(cfg: Config, templates: Templates, calls: seq<Call>, tenantId: string): SystemKind {
    if calls == [] then Old
    else
      var before, op := LastSwitch(cfg, templates, calls[..|calls| - 1], tenantId), calls[|calls| - 1].op;
      if Taken(cfg, templates, calls, tenantId) && op.SetActiveOp? then op.active else before
  }

  /** The report that was last replied to the tenant. */
  ghost function LastReply(cfg: Config, templates: Templates, calls: seq<Call>, tenantId: string): Option<Report> {
    if calls == [] then None
    else
      var c := calls[|calls| - 1];
      var reply := Decide(cfg, templates, After(cfg, templates, calls[..|calls| - 1]), c).reply;
      if c.ctx.tenantId == tenantId && reply.ReportReply? && reply.report.Some? then reply.report
      else LastReply(cfg, templates, calls[..|calls| - 1], tenantId)
  }

  /** The objects and counts the tenant had when it was last started. */
  ghost function LastInventory(cfg: Config, templates: Templates, calls: seq<Call>, tenantId: string)
    : Option<Inventory>
  {
    if calls == [] then None
    else
      var before, c := LastInventory(cfg, templates, calls[..|calls| - 1], tenantId), calls[|calls| - 1];
      if Taken(cfg, templates, calls, tenantId) && c.op.StartOp? then Some(c.inv) else before
  }

  predicate Holds(row: Session, target: Option<string>, active: SystemKind, report: Option<Report>, snapshot: Snapshot)
  {
    row.selected == target && row.active == active && row.lastReport == report && row.snapshot == snapshot
  }

  /** What one call does to what a tenant's session holds. */
  lemma SessionStep(cfg: Config, templates: Templates, s: Sessions, c: Call, tenantId: string)
    ensures var o := Decide(cfg, templates, s, c);
            var taken := c.ctx.tenantId == tenantId && !o.reply.Refused?;
            && (tenantId in o.sessions <==> tenantId in s || (taken && c.op.StartOp?))
            && (tenantId !in s && taken && !c.op.StartOp? ==>
                  !c.op.SelectOp? && !c.op.SetActiveOp? && !(o.reply.ReportReply? && o.reply.report.Some?))
            && (tenantId !in s && taken && c.op.StartOp? ==>
                  Holds(o.sessions[tenantId], c.op.target, Old, None, OldSnapshot(c.inv.objects, c.inv.counts)))
            && (tenantId in s && !taken ==> o.sessions[tenantId] == s[tenantId])
            && (tenantId in s && taken ==>
                  var row := s[tenantId];
                  Holds(o.sessions[tenantId],
                        if c.op.StartOp? then c.op.target else if c.op.SelectOp? then Some(c.op.key) else row.selected,
                        if c.op.SetActiveOp? then c.op.active else row.active,
                        if o.reply.ReportReply? && o.reply.report.Some? then o.reply.report else row.lastReport,
                        if c.op.StartOp? then OldSnapshot(c.inv.objects, c.inv.counts) else row.snapshot))
            && (c.op.StartOp? ==> !o.reply.ReportReply?)
  {
    hide PlanFor, OldSnapshot, May, ReportFor, ReportPlan;
  }

  /** In every run a tenant has a session exactly once it was started, and the session holds the last
      target named, the last system made active, the last report replied, and the inventory of the last
      start: starting again forgets a target, and neither the active system nor the report. */
  lemma {:induction false} SessionsRemember(cfg: Config, templates: Templates, calls: seq<Call>, tenantId: string)
    ensures var s, inv := After(cfg, templates, calls), LastInventory(cfg, templates, calls, tenantId);
            && (tenantId in s <==> inv.Some?)
            && (inv.None? ==>
                  && LastTarget(cfg, templates, calls, tenantId) == None
                  && LastSwitch(cfg, templates, calls, tenantId) == Old
                  && LastReply(cfg, templates, calls, tenantId) == None)
            && (inv.Some? ==>
                  && s[tenantId].selected == LastTarget(cfg, templates, calls, tenantId)
                  && s[tenantId].active == LastSwitch(cfg, templates, calls, tenantId)
                  && s[tenantId].lastReport == LastReply(cfg, templates, calls, tenantId)
                  && s[tenantId].snapshot == OldSnapshot(inv.value.objects, inv.value.counts))
  {
    hide OldSnapshot, Decide;
    if calls != [] {
      var init := calls[..|calls| - 1];
      SessionsRemember(cfg, templates, init, tenantId);
      SessionStep(cfg, templates, After(cfg, templates, init), calls[|calls| - 1], tenantId);
    }
  }

  /** What a trusted caller's call does to the shape of the caller's session. */
  function ShapeAfter(h: Option<Shape>, op: Op): Option<Shape> {
    match op
    case StartOp(target) =>
      var status := if target.Some? then TargetSelected else BootedOld;
      if h.None? then Some(Shape(status, Old, target.Some?, false))
      else Some(h.value.(status := status, hasTarget := target.Some?))
    case SelectOp(_) => if h.None? then None else Some(h.value.(status := TargetSelected, hasTarget := true))
    case SetActiveOp(active) =>
      if h.None? || (active.Selected? && !h.value.hasTarget) then h
      else Some(h.value.(active := active,
                         status := if active.Selected? && h.value.status.BootedOld? then TargetSelected
                           else h.value.status))
    case ReportOp(_) => if h.None? then None else Some(h.value.(status := Reported, hasReport := true))
    case LogoutOp => if h.None? then None else Some(h.value.(status := Reported, hasReport := true))
    case GetOp => h
    case PlanOp => h
  }

  function ShapeIn(s: Sessions, tenantId: string): Option<Shape> {
    if tenantId in s then Some(ShapeOf(s[tenantId])) else None
  }

  predicate Known(templates: Templates, op: Op) {
    (op.StartOp? && op.target.Some? ==> op.target.value in templates) && (op.SelectOp? ==> op.key in templates)
  }

  lemma TrustedStep(cfg: Config, templates: Templates, s: Sessions, c: Call)
    requires Trusted(c.ctx) && Known(templates, c.op)
    ensures ShapeIn(Decide(cfg, templates, s, c).sessions, c.ctx.tenantId)
            == ShapeAfter(ShapeIn(s, c.ctx.tenantId), c.op)
  {
    hide PlanFor, OldSnapshot, OldOnly;
  }

  /** Calls that lead a tenant to a session of the shape. */
  function Path(h: Shape, target: string): seq<Op> {
    [StartOp(Some(target))]
    + (if h.active.Selected? then [SetActiveOp(Selected)] else [])
    + (if h.hasReport && !h.status.Reported? then [ReportOp(Old)] else [])
    + [StartOp(if h.hasTarget then Some(target) else None)]
    + (if h.status.Reported? then [ReportOp(Old)] else [])
  }

  function CallsOf(ctx: AuthContext, inv: Inventory, ops: seq<Op>): seq<Call> {
    seq(|ops|, i requires 0 <= i < |ops| => Call(ctx, inv, i, ops[i]))
  }

  function ShapeRun(ops: seq<Op>): Option<Shape> {
    if ops == [] then None else ShapeAfter(ShapeRun(ops[..|ops| - 1]), ops[|ops| - 1])
  }

  lemma {:induction false} TrustedRun(cfg: Config, templates: Templates, ctx: AuthContext, inv: Inventory, ops: seq<Op>)
    requires Trusted(ctx) && forall op | op in ops :: Known(templates, op)
    ensures ShapeIn(After(cfg, templates, CallsOf(ctx, inv, ops)), ctx.tenantId) == ShapeRun(ops)
  {
    if ops != [] {
      var init := ops[..|ops| - 1];
      var calls := CallsOf(ctx, inv, ops);
      assert calls[..|calls| - 1] == CallsOf(ctx, inv, init);
      TrustedRun(cfg, templates, ctx, inv, init);
      TrustedStep(cfg, templates, After(cfg, templates, CallsOf(ctx, inv, init)), calls[|calls| - 1]);
    }
  }

  lemma ShapeRunNext(ops: seq<Op>, op: Op)
    ensures ShapeRun(ops + [op]) == ShapeAfter(ShapeRun(ops), op)
  {
  }

  lemma PathLeadsThere(h: Shape, target: string)
    requires Possible(h)
    ensures ShapeRun(Path(h, target)) == Some(h)
  {
    var first, again := [StartOp(Some(target))], StartOp(if h.hasTarget then Some(target) else None);
    assert [] + first == first;
    ShapeRunNext([], first[0]);
    ShapeRunNext(first, SetActiveOp(Selected));
    var activated := if h.active.Selected? then first + [SetActiveOp(Selected)] else first;
    ShapeRunNext(activated, ReportOp(Old));
    var reported := if h.hasReport && !h.status.Reported? then activated + [ReportOp(Old)] else activated;
    ShapeRunNext(reported, again);
    ShapeRunNext(reported + [again], ReportOp(Old));
    assert Path(h, target) == reported + [again] + if h.status.Reported? then [ReportOp(Old)] else [];
    assert reported + [again] + [] == reported + [again];
  }

  /** The possible shapes are exactly the reachable ones: given a known template, a trusted caller
      reaches each of the twelve, a booted session running the selected system included. */
  lemma ReachableExactlyWhenPossible(
    cfg: Config, templates: Templates, ctx: AuthContext, inv: Inventory, target: string, h: Shape)
    requires Trusted(ctx) && target in templates
    ensures Possible(h) <==> exists calls :: ShapeIn(After(cfg, templates, calls), ctx.tenantId) == Some(h)
  {
    if Possible(h) {
      PathLeadsThere(h, target);
      TrustedRun(cfg, templates, ctx, inv, Path(h, target));
    }
    forall calls | ShapeIn(After(cfg, templates, calls), ctx.tenantId) == Some(h) ensures Possible(h) {
      SessionsAreConsistent(cfg, templates, calls);
      assert Consistent(templates, After(cfg, templates, calls)[ctx.tenantId]);
    }
  }
}
