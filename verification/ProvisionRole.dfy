/**
  Provisioning the runtime's database role: one transaction that creates or converges it, sets its password
  only when it must, and grants what the runtime needs as the owner's own login.
 */
module ProvisionRole {
  import opened Wrappers

  datatype Verb = Select | Insert | Update | Delete

  datatype AppRole = AppRole(canLogin: bool, inherits: bool, issuper: bool, bypassrls: bool, password: Option<string>)

  /** What the role holds: schema and sequence usage, verbs on tables, and what objects created later by a
      given login will carry for it. */
  datatype Privileges = Privileges(schema: bool, sequences: bool, tables: set<(string, Verb)>,
    laterTables: set<(string, Verb)>, laterSequences: set<string>)

  datatype Cluster = Cluster(app: Option<AppRole>, held: Privileges, tables: set<string>)

  const AUDIT := "audit_event"

  const NOTHING := Privileges(false, false, {}, {}, {})

  /** Who a statement runs as. An actor that does not own the schema's objects can grant nothing on them. */
  datatype Actor = Actor(name: string, issuper: bool, bypassrls: bool, owns: bool)

  datatype Clause = Login | NoInherit | NoSuperuser | NoBypassRls

  datatype Statement =
    | CreateRole
    | SetPassword(verifier: string)
    | AlterRole(clauses: seq<Clause>)
    | GrantSchema
    | GrantTables
    | GrantSequences
    | DefaultTables
    | DefaultSequences
    | RevokeAudit

  predicate IsRoleDdl(s: Statement) { s.CreateRole? || s.SetPassword? || s.AlterRole? }

  const VERBS: set<Verb> := {Select, Insert, Update, Delete}

  lemma EveryVerb()
    ensures forall v: Verb :: v in VERBS
  {
    forall v: Verb ensures v in VERBS {
      match v
      case Select =>
      case Insert =>
      case Update =>
      case Delete =>
    }
  }

  function Altered(r: AppRole, clauses: seq<Clause>): AppRole
  {
    AppRole(r.canLogin || Login in clauses, r.inherits && NoInherit !in clauses,
      r.issuper && NoSuperuser !in clauses, r.bypassrls && NoBypassRls !in clauses, r.password)
  }

  /** What a statement does, or none when it is refused. The negative clauses are refused to an actor
      without the attribute even where they would change nothing; a grant by a non-owner only warns. */
  function Apply(c: Cluster, s: Statement, who: Actor): Option<Cluster>
  {
    if s.CreateRole? then
      if c.app.Some? then None else Some(c.(app := Some(AppRole(true, false, false, false, None)), held := NOTHING))
    else if c.app.None? then None
    else match s
      case SetPassword(v) => Some(c.(app := Some(c.app.value.(password := Some(v)))))
      case AlterRole(clauses) =>
        if (NoSuperuser in clauses && !who.issuper) || (NoBypassRls in clauses && !who.issuper && !who.bypassrls) then None
        else Some(c.(app := Some(Altered(c.app.value, clauses))))
      case GrantSchema => Some(if who.owns then c.(held := c.held.(schema := true)) else c)
      case GrantTables =>
        Some(if who.owns then c.(held := c.held.(tables := c.held.tables + set t, v | t in c.tables && v in VERBS :: (t, v))) else c)
      case GrantSequences => Some(if who.owns then c.(held := c.held.(sequences := true)) else c)
      case DefaultTables => Some(c.(held := c.held.(laterTables := c.held.laterTables + set v | v in VERBS :: (who.name, v))))
      case DefaultSequences => Some(c.(held := c.held.(laterSequences := c.held.laterSequences + {who.name})))
      case RevokeAudit =>
        if AUDIT !in c.tables then None
        else Some(if who.owns then c.(held := c.held.(tables := c.held.tables - {(AUDIT, Update), (AUDIT, Delete)})) else c)
  }

  datatype Input = Input(verifier: string, rotate: bool, login: Actor, assumed: Option<Actor>)

  datatype Report = Report(created: bool, passwordSet: bool)

  function ConvergenceClauses(r: AppRole): seq<Clause>
  {
    [Login, NoInherit] + (if r.issuper then [NoSuperuser] else []) + (if r.bypassrls then [NoBypassRls] else [])
  }

  // ------------------------------------------------------------------ the transaction

  datatype Sent = Sent(statement: Statement, who: Actor)

  function RoleActor(i: Input): Actor { if i.assumed.Some? then i.assumed.value else i.login }

  /** Role statements run as the assumed role, everything else as the login. */
  ghost predicate SentRight(i: Input, trace: seq<Sent>)
  {
    forall k :: 0 <= k < |trace| ==> trace[k].who == if IsRoleDdl(trace[k].statement) then RoleActor(i) else i.login
  }

  /** The module-level flags, and the line a failed run prints from them. */
  datatype Progress = Progress(txStarted: bool, committed: bool, passwordSet: bool)

  datatype Line = CommittedLine(passwordSet: bool) | UnknownLine(passwordCarried: bool) | NothingLine

  function ProgressLine(p: Progress): Line
  {
    if p.committed then CommittedLine(p.passwordSet)
    else if p.txStarted then UnknownLine(p.passwordSet)
    else NothingLine
  }

  class Session {
    var cluster: Cluster
    var actor: Actor
    var sent: nat
    var trace: seq<Sent>
    var progress: Progress
    const fails: nat -> bool
    const losesReply: nat -> bool

    /** Any statement may fail, and the reply to a COMMIT that landed may be lost. */
    constructor (cluster: Cluster, login: Actor, fails: nat -> bool, losesReply: nat -> bool)
      ensures this.cluster == cluster && this.actor == login && trace == [] && progress == Progress(false, false, false)
      ensures this.fails == fails && this.losesReply == losesReply
    {
      this.cluster, this.actor, this.sent, this.trace := cluster, login, 0, [];
      this.progress, this.fails, this.losesReply := Progress(false, false, false), fails, losesReply;
    }

    method Execute(s: Statement) returns (ok: bool)
      modifies this`cluster, this`sent, this`trace
      ensures trace == old(trace) + [Sent(s, actor)]
      ensures ok ==> Apply(old(cluster), s, actor) == Some(cluster)
      ensures !ok ==> cluster == old(cluster)
      ensures (forall k :: !fails(k)) ==> ok == Apply(old(cluster), s, actor).Some?
    {
      var after := Apply(cluster, s, actor);
      ok := after.Some? && !fails(sent);
      sent := sent + 1;
      trace := trace + [Sent(s, actor)];
      if ok { cluster := after.value; }
    }

    /** CREATE ROLE fails as a duplicate when the role exists and nothing else is wrong. */
    method Create() returns (created: bool, duplicate: bool)
      modifies this`cluster, this`sent, this`trace
      ensures trace == old(trace) + [Sent(CreateRole, actor)]
      ensures created ==> Apply(old(cluster), CreateRole, actor) == Some(cluster)
      ensures !created ==> cluster == old(cluster)
      ensures duplicate ==> !created && cluster.app.Some?
      ensures (forall k :: !fails(k)) ==> duplicate == old(cluster).app.Some? && created == !duplicate
    {
      duplicate := cluster.app.Some? && !fails(sent);
      created := Execute(CreateRole);
    }

    /** The role itself: created, or converged; a password only when created or asked to rotate. A creation
        is refused only to a role that exists; any other failure ends the run. */
    method EnsureRole(i: Input) returns (report: Option<Report>)
      modifies this`cluster, this`sent, this`trace, this`progress
      ensures progress == old(progress).(passwordSet := old(progress).passwordSet || (report.Some? && report.value.passwordSet))
      ensures old(trace) <= trace && forall k :: |old(trace)| <= k < |trace| ==> IsRoleDdl(trace[k].statement) && trace[k].who == actor
      ensures report.Some? ==> cluster == WithRole(old(cluster), i) && Convergeable(old(cluster), actor)
      ensures report.Some? ==> report.value == Report(old(cluster).app.None?, old(cluster).app.None? || i.rotate)
      ensures (forall k :: !fails(k)) && Convergeable(old(cluster), actor) ==> report.Some?
    {
      var created, duplicate := Create();
      if created {
        var ok := Execute(SetPassword(i.verifier));
        if !ok { return None; }
        progress := progress.(passwordSet := true);
        return Some(Report(true, true));
      }
      if !duplicate { return None; }
      var ok := Execute(AlterRole(ConvergenceClauses(cluster.app.value)));
      if !ok { return None; }
      if i.rotate {
        ok := Execute(SetPassword(i.verifier));
        if !ok { return None; }
        progress := progress.(passwordSet := true);
      }
      report := Some(Report(false, i.rotate));
    }

    method GrantExisting() returns (ok: bool)
      modifies this`cluster, this`sent, this`trace
      ensures old(trace) <= trace && forall k :: |old(trace)| <= k < |trace| ==> !IsRoleDdl(trace[k].statement) && trace[k].who == actor
      ensures ok ==> cluster == WithObjects(old(cluster), actor) && old(cluster).app.Some?
      ensures (forall k :: !fails(k)) && old(cluster).app.Some? ==> ok
    {
      ok := Execute(GrantSchema);
      if ok { ok := Execute(GrantTables); }
      if ok { ok := Execute(GrantSequences); }
    }

    method Grant() returns (ok: bool)
      modifies this`cluster, this`sent, this`trace
      ensures old(trace) <= trace && forall k :: |old(trace)| <= k < |trace| ==> !IsRoleDdl(trace[k].statement) && trace[k].who == actor
      ensures ok ==> cluster == WithGrants(old(cluster), actor) && AUDIT in old(cluster).tables && old(cluster).app.Some?
      ensures (forall k :: !fails(k)) && AUDIT in old(cluster).tables && old(cluster).app.Some? ==> ok
    {
      ok := GrantExisting();
      if ok { ok := Execute(DefaultTables); }
      if ok { ok := Execute(DefaultSequences); }
      if ok { ok := Execute(RevokeAudit); }
    }

    /** One transaction, all of it or nothing, and the flags around it. A rejection says only that no reply
        came: the flags then read as if nothing was committed, which is so exactly when the commit had not
        landed. */
    method Commit(i: Input) returns (report: Option<Report>, ghost landed: bool)
      requires actor == i.login && !progress.committed
      modifies this
      ensures actor == i.login && old(trace) <= trace && SentRight(i, trace[|old(trace)|..])
      ensures landed ==> Permitted(old(cluster), i) && cluster == Provisioned(old(cluster), i)
      ensures !landed ==> cluster == old(cluster)
      ensures report.Some? ==> landed && report.value == Report(old(cluster).app.None?, old(cluster).app.None? || i.rotate)
      ensures report.None? && landed ==> exists k :: losesReply(k)
      ensures (forall k :: !fails(k)) && Permitted(old(cluster), i) ==> landed
      ensures ProgressLine(progress) == if report.Some? then CommittedLine(report.value.passwordSet) else NothingLine
    {
      var before := cluster;
      progress := progress.(txStarted := true);
      if i.assumed.Some? { actor := i.assumed.value; }
      report := EnsureRole(i);
      actor := i.login;
      var commits := false;
      if report.Some? {
        commits := Grant();
        if fails(sent) { commits := false; }
      }
      landed := commits;
      if !commits { cluster := before; }
      if !commits || losesReply(sent) { report := None; }
      sent := sent + 1;
      progress := if report.Some? then Progress(false, true, report.value.passwordSet) else progress.(txStarted := false);
    }
  }

  /** What the role statements leave. */
  function WithRole(c: Cluster, i: Input): Cluster
  {
    if c.app.None? then c.(app := Some(AppRole(true, false, false, false, Some(i.verifier))), held := NOTHING)
    else
      var r := c.app.value;
      c.(app := Some(AppRole(true, false, false, false, if i.rotate then Some(i.verifier) else r.password)))
  }

  predicate Convergeable(c: Cluster, who: Actor)
  {
    c.app.Some? ==> (c.app.value.issuper ==> who.issuper) && (c.app.value.bypassrls ==> who.issuper || who.bypassrls)
  }

  /** What the grants on existing objects leave. */
  function WithObjects(c: Cluster, who: Actor): Cluster
  {
    if !who.owns then c
    else
      c.(held := c.held.(schema := true, sequences := true,
        tables := c.held.tables + set t, v | t in c.tables && v in VERBS :: (t, v)))
  }

  /** What all the grants leave. */
  function WithGrants(c: Cluster, who: Actor): Cluster
  {
    var o := WithObjects(c, who);
    o.(held := o.held.(
      tables := if who.owns then o.held.tables - {(AUDIT, Update), (AUDIT, Delete)} else o.held.tables,
      laterTables := o.held.laterTables + set v | v in VERBS :: (who.name, v),
      laterSequences := o.held.laterSequences + {who.name}))
  }

  function Provisioned(c: Cluster, i: Input): Cluster
  {
    WithGrants(WithRole(c, i), i.login)
  }

  /** No statement is refused: whoever runs the role statements may clear what has to be cleared, and the
      audit table is there. */
  predicate Permitted(c: Cluster, i: Input)
  {
    Convergeable(c, RoleActor(i)) && AUDIT in c.tables
  }

  // ------------------------------------------------------------------ what a committed run leaves

  predicate SafePosture(r: AppRole) { r.canLogin && !r.inherits && !r.issuper && !r.bypassrls }

  /** The verbs the runtime is to hold on a table. */
  predicate Due(t: string, v: Verb) { !(t == AUDIT && v in {Update, Delete}) }

  ghost predicate HoldsWhatIsDue(tables: set<string>, held: set<(string, Verb)>)
  {
    forall t, v :: t in tables ==> ((t, v) in held <==> Due(t, v))
  }

  /** Whatever attributes the role had, a committed run leaves the safe posture, sets a password exactly
      when it created the role or was asked to rotate, and, run by the owner's login, leaves exactly the
      verbs that are due on every table. */
  lemma RunLeaves(c: Cluster, i: Input)
    ensures var c' := Provisioned(c, i);
      && c'.app.Some? && SafePosture(c'.app.value)
      && c'.app.value.password == (if c.app.None? || i.rotate then Some(i.verifier) else c.app.value.password)
      && (i.login.owns ==> c'.held.schema && c'.held.sequences && HoldsWhatIsDue(c.tables, c'.held.tables))
  {
    EveryVerb();
  }

  /** A login that may not change the superuser attribute converges every role that is neither superuser nor
      exempt from row security: the clauses it may not state are only stated when they are needed. */
  lemma OrdinaryLoginConverges(c: Cluster, who: Actor)
    requires c.app.Some? && !who.issuper && !who.bypassrls
    ensures Apply(c, AlterRole(ConvergenceClauses(c.app.value)), who).Some? <==> !c.app.value.issuper && !c.app.value.bypassrls
    ensures Apply(c, AlterRole([Login, NoInherit, NoSuperuser, NoBypassRls]), who).None?
  {
    var all := [Login, NoInherit, NoSuperuser, NoBypassRls];
    assert all[2] == NoSuperuser;
  }

  // ------------------------------------------------------------------ over many boots

  /** A boot whose transaction commits or not, a role altered or dropped by hand, a table or sequence created. */
  datatype Act =
    | Boot(input: Input, commits: bool)
    | AlterByHand(canLogin: bool, inherits: bool, issuper: bool, bypassrls: bool)
    | DropByHand
    | NewTable(name: string, creator: string)
    | NewSequence(creator: string)

  function Step(c: Cluster, a: Act): Cluster
  {
    match a
    case Boot(i, commits) => if commits && Permitted(c, i) then Provisioned(c, i) else c
    case AlterByHand(l, n, s, b) =>
      if c.app.None? then c else c.(app := Some(AppRole(l, n, s, b, c.app.value.password)))
    case DropByHand => c.(app := None, held := NOTHING)
    case NewTable(t, who) =>
      if t in c.tables then c
      else c.(tables := c.tables + {t},
        held := c.held.(tables := c.held.tables + set v | v in VERBS && (who, v) in c.held.laterTables :: (t, v)))
    case NewSequence(who) => c.(held := c.held.(sequences := c.held.sequences && who in c.held.laterSequences))
  }

  function After(c: Cluster, acts: seq<Act>): Cluster
    decreases |acts|
  {
    if acts == [] then c else After(Step(c, acts[0]), acts[1..])
  }

  predicate Rotates(a: Act) { a.Boot? && a.commits && a.input.rotate }

  /** An existing role's password moves only in a committed run with rotation on, and then to that run's. */
  lemma PasswordMovesOnlyByRotation(c: Cluster, a: Act)
    requires c.app.Some? && Step(c, a).app.Some? && Step(c, a).app.value.password != c.app.value.password
    ensures Rotates(a) && Step(c, a).app.value.password == Some(a.input.verifier)
  {
  }

  /** Over any boots with any secrets, committed or not: without a rotation or a drop the password stands. */
  lemma {:induction false} PasswordStands(c: Cluster, acts: seq<Act>)
    requires c.app.Some? && forall k :: 0 <= k < |acts| ==> !Rotates(acts[k]) && !acts[k].DropByHand?
    ensures After(c, acts).app.Some? && After(c, acts).app.value.password == c.app.value.password
    decreases |acts|
  {
    if acts != [] {
      assert !Rotates(acts[0]) && !acts[0].DropByHand?;
      assert forall k :: 0 <= k < |acts[1..]| ==> acts[1..][k] == acts[k + 1];
      PasswordStands(Step(c, acts[0]), acts[1..]);
    }
  }

  ghost predicate HasPassword(c: Cluster) { c.app.Some? ==> c.app.value.password.Some? }

  /** What gives a role without a password one, or does away with it. */
  predicate EndsIt(c: Cluster, a: Act) { a.DropByHand? || (Rotates(a) && Permitted(c, a.input)) }

  /** No boot leaves a role without a password that had one, or that it creates: one without is a role made
      by hand, and it stays without exactly until a committed rotation or a drop. */
  lemma {:induction false} WithoutPasswordUntil(c: Cluster, acts: seq<Act>)
    ensures HasPassword(After(c, acts)) <==>
      HasPassword(c) || exists k :: 0 <= k < |acts| && EndsIt(After(c, acts[..k]), acts[k])
    decreases |acts|
  {
    if acts != [] {
      var rest, next := acts[1..], Step(c, acts[0]);
      WithoutPasswordUntil(next, rest);
      assert acts[..0] == [] && After(c, acts[..0]) == c;
      forall k | 0 <= k < |rest|
        ensures EndsIt(After(next, rest[..k]), rest[k]) <==> EndsIt(After(c, acts[..k + 1]), acts[k + 1])
      {
        assert acts[..k + 1][1..] == rest[..k];
      }
      if k :| 0 <= k < |rest| && EndsIt(After(next, rest[..k]), rest[k]) {
        assert EndsIt(After(c, acts[..k + 1]), acts[k + 1]);
      }
    }
  }

  /** The runtime reaches every table and sequence, and will reach those this login creates. */
  ghost predicate ReachesAll(c: Cluster, login: string)
  {
    && c.app.Some? && AUDIT in c.tables
    && HoldsWhatIsDue(c.tables, c.held.tables)
    && (forall t, v :: (t, v) in c.held.tables ==> t in c.tables)
    && (forall v :: (login, v) in c.held.laterTables)
    && c.held.schema && c.held.sequences && login in c.held.laterSequences
  }

  ghost predicate SameOwner(a: Act, login: string)
  {
    match a
    case Boot(i, _) => i.login.name == login && i.login.owns
    case NewTable(_, who) => who == login
    case NewSequence(who) => who == login
    case DropByHand => false
    case AlterByHand(_, _, _, _) => true
  }

  lemma StepReaches(c: Cluster, a: Act, login: string)
    requires ReachesAll(c, login) && SameOwner(a, login)
    ensures ReachesAll(Step(c, a), login)
  {
    EveryVerb();
  }

  /** Later migrations keep the role working without another boot, as long as one login owns everything. */
  lemma {:induction false} FutureTablesAreReached(c: Cluster, acts: seq<Act>, login: string)
    requires ReachesAll(c, login) && forall k :: 0 <= k < |acts| ==> SameOwner(acts[k], login)
    ensures ReachesAll(After(c, acts), login)
    decreases |acts|
  {
    if acts != [] {
      assert SameOwner(acts[0], login);
      StepReaches(c, acts[0], login);
      assert forall k :: 0 <= k < |acts[1..]| ==> acts[1..][k] == acts[k + 1];
      FutureTablesAreReached(Step(c, acts[0]), acts[1..], login);
    }
  }

  /** A committed run as the owner's login starts that off. */
  lemma RunReachesAll(c: Cluster, i: Input)
    requires Permitted(c, i) && i.login.owns && forall t, v :: (t, v) in c.held.tables ==> t in c.tables
    ensures ReachesAll(Provisioned(c, i), i.login.name)
  {
    RunLeaves(c, i);
    EveryVerb();
  }

  // ------------------------------------------------------------------ what a failed run says it did

  /** How far a run is: before its transaction; inside it, with its password statement answered or not; the
      COMMIT landed but not heard of, then heard of; or rejected, with the COMMIT still on its way, rolled
      back, or landed all the same. */
  datatype Point = Before | Open | PasswordSent | Landed | Committed | Rejected | RolledBack | Unheard

  predicate InDatabase(p: Point) { p in {Landed, Committed, Unheard} }

  /** Every write is done, the password's included when there is one. */
  predicate CanCommit(setsPassword: bool, p: Point)
  {
    if setsPassword then p.PasswordSent? else p.Open?
  }

  /** One step of a run. */
  predicate Moves(setsPassword: bool, a: Point, b: Point)
  {
    || (a.Before? && b.Open?)
    || (a.Open? && b.PasswordSent? && setsPassword)
    || (a in {Open, PasswordSent} && b.RolledBack?)
    || (CanCommit(setsPassword, a) && b in {Landed, Rejected})
    || (a.Landed? && b in {Committed, Unheard})
    || (a.Rejected? && b in {RolledBack, Unheard})
  }

  /** The points a run passes through, from before its transaction on. */
  ghost predicate IsRun(setsPassword: bool, points: seq<Point>)
  {
    && points != [] && points[0].Before?
    && forall k :: 0 < k < |points| ==> Moves(setsPassword, points[k - 1], points[k])
  }

  /** The flags, as each step leaves them. */
  function Flags(setsPassword: bool, points: seq<Point>): Progress
  {
    var n := |points| - 1;
    if n <= 0 then Progress(false, false, false)
    else
      var was := Flags(setsPassword, points[..n]);
      match points[n]
      case Before => was
      case Open => was.(txStarted := true)
      case PasswordSent => was.(passwordSet := true)
      case Landed => was
      case Committed => Progress(false, true, setsPassword)
      case Rejected => was.(txStarted := false)
      case RolledBack => was.(txStarted := false)
      case Unheard => was.(txStarted := false)
  }

  lemma {:induction false} FlagsAt(setsPassword: bool, points: seq<Point>)
    requires IsRun(setsPassword, points)
    ensures var p := Flags(setsPassword, points); var here := points[|points| - 1];
      && p.txStarted == (here in {Open, PasswordSent, Landed}) && p.committed == here.Committed?
      && (here in {Before, Open} ==> !p.passwordSet)
      && (here.PasswordSent? ==> setsPassword)
      && (here in {PasswordSent, Landed, Committed} ==> p.passwordSet == setsPassword)
  {
    var n := |points| - 1;
    if n > 0 {
      assert Moves(setsPassword, points[n - 1], points[n]);
      FlagsAt(setsPassword, points[..n]);
    }
  }

  /** Whether the line is true of a database where the run stands at this point. An unknown outcome that
      carried no password says that the password is what it was either way. */
  predicate TrueAt(l: Line, setsPassword: bool, p: Point)
  {
    match l
    case CommittedLine(pw) => InDatabase(p) && pw == setsPassword
    case UnknownLine(pw) => pw || !(InDatabase(p) && setsPassword)
    case NothingLine => !InDatabase(p)
  }

  /** A run that was rolled back stays so, and what is in the database stays there. */
  lemma {:induction false} LaterPoint(setsPassword: bool, points: seq<Point>, t: nat)
    requires IsRun(setsPassword, points) && t < |points|
    ensures points[t] in {RolledBack, Committed, Unheard} ==> t == |points| - 1
    ensures InDatabase(points[t]) ==> InDatabase(points[|points| - 1])
    decreases |points| - t
  {
    if t + 1 < |points| {
      assert Moves(setsPassword, points[t], points[t + 1]);
      LaterPoint(setsPassword, points, t + 1);
    }
  }

  /** A deadline or a failure comes at any point of a run, and the line is printed from the flags as they
      are; nothing stops the run, which goes on until the process exits. The line is true when it is
      printed unless the run was rejected with its COMMIT landed. It is true at the exit unless the run is
      in the database and was last heard of before its transaction, or rejected, or with a password whose
      statement had not been answered. */
  lemma LineIsTrueIff(setsPassword: bool, points: seq<Point>, t: nat)
    requires IsRun(setsPassword, points) && t < |points|
    ensures var line := ProgressLine(Flags(setsPassword, points[..t + 1]));
      var told, left := points[t], points[|points| - 1];
      && (TrueAt(line, setsPassword, told) <==> !told.Unheard?)
      && (TrueAt(line, setsPassword, left) <==>
        !(InDatabase(left) && (told in {Before, Rejected, Unheard} || (told.Open? && setsPassword))))
  {
    assert IsRun(setsPassword, points[..t + 1]);
    FlagsAt(setsPassword, points[..t + 1]);
    LaterPoint(setsPassword, points, t);
  }

  /** The deadline comes while a fresh role's password statement is on its way; the run then commits. */
  lemma SaidUntouchedThenSet(points: seq<Point>)
    requires points == [Before, Open, PasswordSent, Landed, Committed]
    ensures IsRun(true, points)
    ensures var line := ProgressLine(Flags(true, points[..2]));
      line == UnknownLine(false) && TrueAt(line, true, points[1]) && !TrueAt(line, true, points[4])
  {
    LineIsTrueIff(true, points, 1);
    FlagsAt(true, points[..2]);
  }

  /** The deadline comes while the run still waits for the lock; the run then commits. */
  lemma SaidNothingThenCommitted(points: seq<Point>)
    requires points == [Before, Open, Landed, Committed]
    ensures IsRun(false, points)
    ensures var line := ProgressLine(Flags(false, points[..1]));
      line == NothingLine && TrueAt(line, false, points[0]) && !TrueAt(line, false, points[3])
  {
    LineIsTrueIff(false, points, 0);
  }

  /** The reply to a COMMIT that landed is lost: the line is false as it is printed. */
  lemma SaidNothingAfterCommit(points: seq<Point>)
    requires points == [Before, Open, PasswordSent, Landed, Unheard]
    ensures IsRun(true, points)
    ensures var line := ProgressLine(Flags(true, points)); line == NothingLine && !TrueAt(line, true, points[4])
  {
    assert points[..5] == points;
    LineIsTrueIff(true, points, 4);
    FlagsAt(true, points);
  }
}
