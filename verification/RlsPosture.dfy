/**
  Row-level-security posture: what the cutover sweep plans and applies, what the boot gate refuses,
  and what the probe reports, over one reading of the catalog.
 */
module RlsPosture {
  import opened Wrappers
  import opened Order

  /** The tables read before any request identity exists. */
  const BOOTSTRAP: seq<string> :=
    ["oauth_token", "teammate", "org_unit", "instance_attestation", "audit_event"]

  datatype Posture = Posture(enabled: bool, forced: bool)

  /** Every public table with its two flags. */
  type Catalog = map<string, Posture>

  datatype TableRow = TableRow(relname: string, posture: Posture)

  predicate Unvetted(p: Posture) { p.enabled && !p.forced }

  predicate PhaseOwned(p: Posture) { p.enabled && p.forced }

  /** The rows a posture read returns: each table once, ordered by name. */
  ghost predicate Lists(rows: seq<TableRow>, cat: Catalog)
  {
    && (forall i, j :: 0 <= i < j < |rows| ==> Less(rows[i].relname, rows[j].relname))
    && (forall i :: 0 <= i < |rows| ==> rows[i].relname in cat && cat[rows[i].relname] == rows[i].posture)
    && (forall t :: t in cat ==> exists i :: 0 <= i < |rows| && rows[i].relname == t)
  }

  // ------------------------------------------------------------------ the plan

  datatype Bucket = ToDisable | LeftForced | Conflict | ForcedButDisabled | Off

  function BucketOf(row: TableRow): Bucket
  {
    if Unvetted(row.posture) then ToDisable
    else if PhaseOwned(row.posture) then (if row.relname in BOOTSTRAP then Conflict else LeftForced)
    else if row.posture.forced then ForcedButDisabled
    else Off
  }

  function NamesIn(rows: seq<TableRow>, b: Bucket): seq<string>
  {
    if rows == [] then []
    else
      var init := NamesIn(rows[..|rows| - 1], b);
      var last := rows[|rows| - 1];
      if BucketOf(last) == b then init + [last.relname] else init
  }

  datatype Plan = Plan(toDisable: seq<string>, leftForced: seq<string>, conflicts: seq<string>, forcedButDisabled: seq<string>)

  function PlanOf(rows: seq<TableRow>): Plan
  {
    Plan(NamesIn(rows, ToDisable), NamesIn(rows, LeftForced), NamesIn(rows, Conflict), NamesIn(rows, ForcedButDisabled))
  }

  method PlanSweep(rows: seq<TableRow>) returns (plan: Plan)
    ensures plan == PlanOf(rows)
  {
    var toDisable, leftForced, conflicts, forcedButDisabled := [], [], [], [];
    for i := 0 to |rows|
      invariant Plan(toDisable, leftForced, conflicts, forcedButDisabled) == PlanOf(rows[..i])
    {
      var t := rows[i];
      assert rows[..i + 1][..i] == rows[..i];
      if !t.posture.enabled {
        if t.posture.forced { forcedButDisabled := forcedButDisabled + [t.relname]; }
      } else if !t.posture.forced {
        toDisable := toDisable + [t.relname];
      } else if t.relname in BOOTSTRAP {
        conflicts := conflicts + [t.relname];
      } else {
        leftForced := leftForced + [t.relname];
      }
    }
    assert rows[..|rows|] == rows;
    plan := Plan(toDisable, leftForced, conflicts, forcedButDisabled);
  }

  lemma {:induction false} NamesInMeaning(rows: seq<TableRow>, b: Bucket, t: string)
    ensures t in NamesIn(rows, b) <==> exists i :: 0 <= i < |rows| && rows[i].relname == t && BucketOf(rows[i]) == b
  {
    if rows != [] {
      var n := |rows| - 1;
      NamesInMeaning(rows[..n], b, t);
      if i :| 0 <= i < |rows| && rows[i].relname == t && BucketOf(rows[i]) == b {
        if i < n { assert rows[..n][i] == rows[i]; }
      }
    }
  }

  /** The plan reads off the catalog: every enabled table is in exactly one list, and only an
      un-FORCEd one is ever to be disabled. */
  lemma PlanMeaning(rows: seq<TableRow>, cat: Catalog, t: string)
    requires Lists(rows, cat)
    ensures t in PlanOf(rows).toDisable <==> t in cat && Unvetted(cat[t])
    ensures t in PlanOf(rows).conflicts <==> t in cat && PhaseOwned(cat[t]) && t in BOOTSTRAP
    ensures t in PlanOf(rows).leftForced <==> t in cat && PhaseOwned(cat[t]) && t !in BOOTSTRAP
    ensures t in PlanOf(rows).forcedButDisabled <==> t in cat && cat[t] == Posture(false, true)
  {
    NamesInMeaning(rows, ToDisable, t);
    NamesInMeaning(rows, Conflict, t);
    NamesInMeaning(rows, LeftForced, t);
    NamesInMeaning(rows, ForcedButDisabled, t);
  }

  // ------------------------------------------------------------------ the apply step

  /** The tables the transaction locks, in the one order every sweep uses. */
  function Targets(toDisable: seq<string>): (ts: seq<string>)
    ensures Ascending(ts)
    ensures forall t :: t in ts <==> t in toDisable || t in BOOTSTRAP
  {
    SortedUnique(toDisable + BOOTSTRAP)
  }

  function ConflictsUnder(targets: seq<string>, under: Catalog): seq<string>
  {
    if targets == [] then []
    else
      var rest := ConflictsUnder(targets[1..], under);
      var t := targets[0];
      if t in BOOTSTRAP && t in under && PhaseOwned(under[t]) then [t] + rest else rest
  }

  lemma {:induction false} ConflictsUnderMeaning(targets: seq<string>, under: Catalog)
    ensures forall t :: t in ConflictsUnder(targets, under) <==>
      t in targets && t in BOOTSTRAP && t in under && PhaseOwned(under[t])
  {
    if targets != [] {
      ConflictsUnderMeaning(targets[1..], under);
      assert targets == [targets[0]] + targets[1..];
    }
  }

  /** Turns RLS off on the given tables; the FORCE flag stays as it was. */
  function DisableAll(cat: Catalog, ts: set<string>): Catalog
  {
    map t | t in cat :: if t in ts then cat[t].(enabled := false) else cat[t]
  }

  datatype Applied = Applied(disabled: seq<string>, skippedNewlyForced: seq<string>)

  datatype ApplyResult = Done(applied: Applied) | Refused(conflicts: seq<string>) | MissingTable(table: string)

  /** One open transaction: its view of the catalog and the tables it has locked. */
  class Transaction {
    var catalog: Catalog
    var locks: seq<string>

    constructor (cat: Catalog)
      ensures catalog == cat && locks == []
    {
      catalog := cat;
      locks := [];
    }
  }

  /** What the re-read says about the planned tables, in plan order. */
  function UnvettedOf(ts: seq<string>, under: Catalog): seq<string>
  {
    if ts == [] then []
    else
      var init := UnvettedOf(ts[..|ts| - 1], under);
      var t := ts[|ts| - 1];
      if t in under && Unvetted(under[t]) then init + [t] else init
  }

  function NewlyForcedOf(ts: seq<string>, under: Catalog): seq<string>
  {
    if ts == [] then []
    else
      var init := NewlyForcedOf(ts[..|ts| - 1], under);
      var t := ts[|ts| - 1];
      if t in under && PhaseOwned(under[t]) then init + [t] else init
  }

  lemma {:induction false} SelectedMeaning(ts: seq<string>, under: Catalog)
    ensures forall t :: t in UnvettedOf(ts, under) <==> t in ts && t in under && Unvetted(under[t])
    ensures forall t :: t in NewlyForcedOf(ts, under) <==> t in ts && t in under && PhaseOwned(under[t])
  {
    if ts != [] {
      SelectedMeaning(ts[..|ts| - 1], under);
      assert ts == ts[..|ts| - 1] + [ts[|ts| - 1]];
    }
  }

  /** LOCK TABLE, one table at a time in the given order; the first that is not there fails the transaction. */
  method LockTables(tx: Transaction, targets: seq<string>) returns (missing: seq<string>)
    requires tx.locks == []
    modifies tx`locks
    ensures tx.locks <= targets && AsSet(tx.locks) <= tx.catalog.Keys
    ensures missing == [] ==> tx.locks == targets
    ensures missing != [] ==> |missing| == 1 && tx.locks + missing <= targets && missing[0] !in tx.catalog
  {
    for i := 0 to |targets|
      invariant tx.locks == targets[..i] && AsSet(tx.locks) <= tx.catalog.Keys
    {
      assert targets[..i + 1] == targets[..i] + [targets[i]];
      if targets[i] !in tx.catalog { return [targets[i]]; }
      tx.locks := tx.locks + [targets[i]];
    }
    assert targets[..|targets|] == targets;
    missing := [];
  }

  lemma DisableOneMore(cat: Catalog, ts: seq<string>, t: string)
    requires t in cat
    ensures DisableAll(cat, AsSet(ts + [t])) == DisableAll(cat, AsSet(ts))[t := cat[t].(enabled := false)]
  {
    assert AsSet(ts + [t]) == AsSet(ts) + {t};
  }

  /** The ALTERs: each planned table is judged by the re-read, and only an un-FORCEd one is turned off. */
  method DisableUnforced(tx: Transaction, toDisable: seq<string>) returns (applied: Applied)
    modifies tx`catalog
    ensures applied == Applied(UnvettedOf(toDisable, old(tx.catalog)), NewlyForcedOf(toDisable, old(tx.catalog)))
    ensures tx.catalog == DisableAll(old(tx.catalog), AsSet(applied.disabled))
  {
    var under := tx.catalog;
    var disabled, skipped := [], [];
    for i := 0 to |toDisable|
      invariant disabled == UnvettedOf(toDisable[..i], under)
      invariant skipped == NewlyForcedOf(toDisable[..i], under)
      invariant tx.catalog == DisableAll(under, AsSet(disabled))
    {
      var relname := toDisable[i];
      assert toDisable[..i + 1][..i] == toDisable[..i];
      if relname !in under || !under[relname].enabled {
      } else if under[relname].forced {
        skipped := skipped + [relname];
      } else {
        DisableOneMore(under, disabled, relname);
        tx.catalog := tx.catalog[relname := under[relname].(enabled := false)];
        disabled := disabled + [relname];
      }
    }
    assert toDisable[..|toDisable|] == toDisable;
    applied := Applied(disabled, skipped);
  }

  /** Applies a plan from what the catalog says under the locks, not from the plan's own reading: a
      bootstrap table found ENABLEd and FORCEd refuses the whole sweep, and otherwise the tables
      turned off are exactly the planned ones that are ENABLEd and un-FORCEd now. */
  method ApplySweep(tx: Transaction, plan: Plan) returns (r: ApplyResult)
    requires tx.locks == []
    modifies tx
    ensures r.MissingTable? <==> !(AsSet(Targets(plan.toDisable)) <= old(tx.catalog).Keys)
    ensures r.MissingTable? ==> tx.locks + [r.table] <= Targets(plan.toDisable) && r.table !in tx.catalog
    ensures !r.MissingTable? ==> tx.locks == Targets(plan.toDisable)
    ensures !r.MissingTable? ==>
      (r.Refused? <==> exists t :: t in BOOTSTRAP && PhaseOwned(old(tx.catalog)[t]))
    ensures r.Refused? ==> forall t :: t in r.conflicts <==> t in BOOTSTRAP && PhaseOwned(old(tx.catalog)[t])
    ensures !r.Done? ==> tx.catalog == old(tx.catalog)
    ensures r.Done? ==> tx.catalog == DisableAll(old(tx.catalog), AsSet(r.applied.disabled))
    ensures r.Done? ==> r.applied == Applied(UnvettedOf(plan.toDisable, old(tx.catalog)), NewlyForcedOf(plan.toDisable, old(tx.catalog)))
  {
    var targets := Targets(plan.toDisable);
    var missing := LockTables(tx, targets);
    if missing != [] {
      assert targets[|tx.locks|] == (tx.locks + missing)[|tx.locks|] == missing[0];
      assert missing[0] in AsSet(targets);
      return MissingTable(missing[0]);
    }
    forall t | t in BOOTSTRAP ensures t in tx.catalog { assert t in AsSet(targets); }
    ConflictsUnderMeaning(targets, tx.catalog);
    var conflicts := ConflictsUnder(targets, tx.catalog);
    if conflicts != [] {
      assert conflicts[0] in conflicts;
      return Refused(conflicts);
    }
    var applied := DisableUnforced(tx, plan.toDisable);
    r := Done(applied);
  }

  // ------------------------------------------------------------------ the gate and the probe

  datatype Hazards = Hazards(bootstrapStillEnabled: set<string>, bindingUnvetted: set<string>)

  function BindingHazards(cat: Catalog): Hazards
  {
    Hazards(set t | t in BOOTSTRAP && t in cat && cat[t].enabled,
            set t | t in cat && Unvetted(cat[t]))
  }

  predicate HasHazard(h: Hazards)
  {
    h.bootstrapStillEnabled != {} || h.bindingUnvetted != {}
  }

  datatype Privileges = Privileges(superuser: bool, bypassRls: bool, ownedTables: nat)

  datatype BypassReason = IsSuperuser | CarriesBypassRls | HoldsOwner(tables: nat)

  method BypassReasons(p: Privileges) returns (reasons: seq<BypassReason>)
    ensures reasons == [] <==> !p.superuser && !p.bypassRls && p.ownedTables == 0
    ensures IsSuperuser in reasons <==> p.superuser
    ensures CarriesBypassRls in reasons <==> p.bypassRls
    ensures forall n :: HoldsOwner(n) in reasons <==> p.ownedTables > 0 && n == p.ownedTables
  {
    reasons := [];
    if p.superuser { reasons := reasons + [IsSuperuser]; }
    if p.bypassRls { reasons := reasons + [CarriesBypassRls]; }
    if p.ownedTables > 0 { reasons := reasons + [HoldsOwner(p.ownedTables)]; }
  }

  /** Do this table's policies filter the connection? */
  predicate PoliciesApplyTo(p: Posture, owns: bool, superuser: bool, bypassRls: bool)
  {
    if !p.enabled then false
    else if superuser || bypassRls then false
    else if owns && !p.forced then false
    else true
  }

  /** A superuser or BYPASSRLS role is filtered by no table; else the owner by those that are also FORCEd,
      and anyone else by every ENABLEd one. */
  lemma ExemptionsAreExact(owns: bool, superuser: bool, bypassRls: bool)
    ensures superuser || bypassRls <==> forall p :: !PoliciesApplyTo(p, owns, superuser, bypassRls)
    ensures !superuser && !bypassRls ==>
      forall p :: PoliciesApplyTo(p, owns, superuser, bypassRls) <==> p.enabled && (owns ==> p.forced)
  {
    assert !superuser && !bypassRls ==> PoliciesApplyTo(Posture(true, true), owns, superuser, bypassRls);
  }

  /** The gate and the sweep agree on what is wrong: the unvetted tables are those a sweep would turn off
      now, and a bootstrap table that is ENABLEd is either one of those or a conflict. */
  lemma HazardsArePlanned(rows: seq<TableRow>, cat: Catalog, t: string)
    requires Lists(rows, cat)
    ensures t in BindingHazards(cat).bindingUnvetted <==> t in PlanOf(rows).toDisable
    ensures t in BindingHazards(cat).bootstrapStillEnabled <==>
      t in BOOTSTRAP && (t in PlanOf(rows).toDisable || t in PlanOf(rows).conflicts)
  {
    PlanMeaning(rows, cat, t);
  }

  lemma SweptIsClean(rows: seq<TableRow>, cat: Catalog)
    requires Lists(rows, cat) && PlanOf(rows).conflicts == []
    ensures !HasHazard(BindingHazards(DisableAll(cat, AsSet(UnvettedOf(PlanOf(rows).toDisable, cat)))))
  {
    var after := DisableAll(cat, AsSet(UnvettedOf(PlanOf(rows).toDisable, cat)));
    SelectedMeaning(PlanOf(rows).toDisable, cat);
    forall t | t in cat ensures !Unvetted(after[t]) && (t in BOOTSTRAP ==> !after[t].enabled) {
      PlanMeaning(rows, cat, t);
    }
    assert BindingHazards(after) == Hazards({}, {});
  }

  /** With no concurrent change, planning and applying a posture that has every bootstrap table and
      no conflict leaves nothing for the gate to refuse. */
  method SweepAlone(cat: Catalog, rows: seq<TableRow>) returns (r: ApplyResult, after: Catalog)
    requires Lists(rows, cat)
    ensures (forall t :: t in BOOTSTRAP ==> t in cat) && PlanOf(rows).conflicts == [] ==> r.Done? && !HasHazard(BindingHazards(after))
    ensures r.Refused? ==> after == cat && PlanOf(rows).conflicts != []
    ensures forall t :: t in cat ==> t in after && after[t].forced == cat[t].forced && (PhaseOwned(cat[t]) ==> after[t] == cat[t])
  {
    var plan := PlanSweep(rows);
    forall t { PlanMeaning(rows, cat, t); }
    if plan.conflicts != [] { PlanMeaning(rows, cat, plan.conflicts[0]); }
    SelectedMeaning(plan.toDisable, cat);
    var tx := new Transaction(cat);
    r := ApplySweep(tx, plan);
    after := tx.catalog;
    if r.Done? && plan.conflicts == [] { SweptIsClean(rows, cat); }
  }

  /** What the gate's acceptance means for the app lane: for a role with nothing to bypass, the
      policies of a table apply exactly when a phase turned it on, and never on a bootstrap table. */
  lemma GateMakesProbeExact(cat: Catalog, p: Privileges, t: string, owns: bool)
    requires !HasHazard(BindingHazards(cat)) && t in cat
    requires !p.superuser && !p.bypassRls && p.ownedTables == 0
    requires owns ==> p.ownedTables > 0
    ensures PoliciesApplyTo(cat[t], owns, p.superuser, p.bypassRls) <==> PhaseOwned(cat[t])
    ensures t in BOOTSTRAP ==> !PoliciesApplyTo(cat[t], owns, p.superuser, p.bypassRls)
  {
    if cat[t].enabled {
      assert t !in BindingHazards(cat).bindingUnvetted;
      assert t !in BindingHazards(cat).bootstrapStillEnabled;
    }
  }

  /** The gate is no stricter than that: it accepts exactly the postures on which, for a non-owner
      with nothing to bypass, only phase-owned tables filter and no bootstrap table does. */
  lemma GateIsExact(cat: Catalog)
    ensures !HasHazard(BindingHazards(cat)) <==>
      forall t :: t in cat && PoliciesApplyTo(cat[t], false, false, false) ==> PhaseOwned(cat[t]) && t !in BOOTSTRAP
  {
    var h := BindingHazards(cat);
    if HasHazard(h) {
      var t :| t in h.bootstrapStillEnabled || t in h.bindingUnvetted;
      assert t in cat && PoliciesApplyTo(cat[t], false, false, false);
    } else {
      forall t | t in cat && PoliciesApplyTo(cat[t], false, false, false)
        ensures PhaseOwned(cat[t]) && t !in BOOTSTRAP
      {
        assert t !in h.bindingUnvetted && t !in h.bootstrapStillEnabled;
      }
    }
  }
}
