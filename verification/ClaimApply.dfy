/**
 The claim transaction: guarded updates of metadata rows, all or nothing, and the
 preservation of the claimed history.
 */
module ClaimApply {
  import opened Wrappers
  import opened ClaimPlan
  import opened ClaimBlobs

  // ---- What the transaction writes ----

  function MovedManifest(m: ManifestRow, id: nat, from: Namespace, team: TeamId): ManifestRow {
    if m.machine == id && m.ns == from then m.(ns := OfTeam(team)) else m
  }

  function MoveManifests(ms: seq<ManifestRow>, id: nat, from: Namespace, team: TeamId): (r: seq<ManifestRow>)
    ensures |r| == |ms| && forall i :: 0 <= i < |r| ==> r[i] == MovedManifest(ms[i], id, from, team)
  {
    seq(|ms|, i requires 0 <= i < |ms| => MovedManifest(ms[i], id, from, team))
  }

  function MovedSession(s: SessionRow, id: nat, from: Namespace, team: TeamId): SessionRow {
    if s.machine == id && s.ns == from then s.(ns := OfTeam(team)) else s
  }

  function MoveSessions(ss: seq<SessionRow>, id: nat, from: Namespace, team: TeamId): (r: seq<SessionRow>)
    ensures |r| == |ss| && forall i :: 0 <= i < |r| ==> r[i] == MovedSession(ss[i], id, from, team)
  {
    seq(|ss|, i requires 0 <= i < |ss| => MovedSession(ss[i], id, from, team))
  }

  predicate AnyRunning(runs: seq<RunRow>, id: nat) {
    exists i :: 0 <= i < |runs| && runs[i].machine == id && runs[i].phase.Running?
  }

  /** The guards of one machine, on the rows as they are at its turn. */
  predicate MachineGuards(rows: Rows, m: MachinePlan) {
    && ManifestCount(rows.manifests, m.id, m.source) == m.manifestCount
    && SessionCount(rows.sessions, m.id, m.source) == m.sessionCount
    && m.id in rows.machines && rows.machines[m.id].team.None? && !AnyRunning(rows.runs, m.id)
  }

  function ClaimMachine(rows: Rows, m: MachinePlan, team: TeamId): Rows
    requires m.id in rows.machines
  {
    rows.(manifests := MoveManifests(rows.manifests, m.id, m.source, team),
          sessions := MoveSessions(rows.sessions, m.id, m.source, team),
          machines := rows.machines[m.id := rows.machines[m.id].(team := Some(team))])
  }

  /** All machines of the plan that are not claimed yet, in order; None as soon as a
      guard is lost. */
  function ClaimMachines(rows: Rows, ms: seq<MachinePlan>, team: TeamId): Option<Rows> {
    if ms == [] then Some(rows)
    else
      var before, m := ClaimMachines(rows, ms[..|ms| - 1], team), ms[|ms| - 1];
      if before.None? || m.alreadyClaimed then before
      else if MachineGuards(before.value, m) then Some(ClaimMachine(before.value, m, team)) else None
  }

  ghost predicate SizesAgree(rows: Rows, plan: Plan) {
    forall h :: h in plan.expected && (OfTeam(plan.team), h) in rows.blobs ==>
      rows.blobs[(OfTeam(plan.team), h)] == plan.expected[h]
  }

  /** Rows of the team namespace for every expected hash; rows already there stay. */
  function AddBlobRows(rows: Rows, plan: Plan): Rows {
    rows.(blobs := (map k | k in (set h | h in plan.expected :: (OfTeam(plan.team), h)) :: plan.expected[k.1])
          + rows.blobs)
  }

  ghost function Claimed(rows: Rows, plan: Plan): Option<Rows> {
    var moved := ClaimMachines(rows, plan.machines, plan.team);
    if moved.None? || !SizesAgree(moved.value, plan) then None else Some(AddBlobRows(moved.value, plan))
  }

  /** The database handle. A transaction that throws restores every row. */
  class Database {
    var rows: Rows

    constructor (rows: Rows)
      ensures this.rows == rows
    {
      this.rows := rows;
    }

    /** `fault` is any other failure inside the transaction. */
    method ApplyClaim(plan: Plan, fault: bool) returns (r: Result<bool>)
      modifies this
      ensures r.Ok? <==> Claimed(old(rows), plan).Some? && !fault
      ensures rows == if r.Ok? then Claimed(old(rows), plan).value else old(rows)
    {
      var saved := rows;
      var i := 0;
      while i < |plan.machines|
        invariant 0 <= i <= |plan.machines| && saved == old(rows)
        invariant ClaimMachines(saved, plan.machines[..i], plan.team) == Some(rows)
      {
        var m := plan.machines[i];
        ClaimStep(saved, plan.machines, i, plan.team);
        if !m.alreadyClaimed {
          if !MachineGuards(rows, m) {
            LostForGood(saved, plan.machines, i + 1, plan.team);
            rows := saved;
            return Refused(GuardLost);
          }
          rows := ClaimMachine(rows, m, plan.team);
        }
        i := i + 1;
      }
      assert plan.machines[..i] == plan.machines;
      var agree := CheckSizes(plan);
      if !agree { rows := saved; return Refused(GuardLost); }
      rows := AddBlobRows(rows, plan);
      if fault { rows := saved; return Refused(TransactionFailed); }
      return Ok(true);
    }

    method CheckSizes(plan: Plan) returns (agree: bool)
      ensures agree <==> SizesAgree(rows, plan)
    {
      var left := plan.expected.Keys;
      while left != {}
        invariant left <= plan.expected.Keys
        invariant forall h :: h in plan.expected && h !in left && (OfTeam(plan.team), h) in rows.blobs
                              ==> rows.blobs[(OfTeam(plan.team), h)] == plan.expected[h]
      {
        var h :| h in left;
        if (OfTeam(plan.team), h) in rows.blobs && rows.blobs[(OfTeam(plan.team), h)] != plan.expected[h] {
          return false;
        }
        left := left - {h};
      }
      return true;
    }
  }

  lemma ClaimStep(rows: Rows, ms: seq<MachinePlan>, i: nat, team: TeamId)
    requires i < |ms|
    ensures
      var before, m := ClaimMachines(rows, ms[..i], team), ms[i];
      ClaimMachines(rows, ms[..i + 1], team)
      == if before.None? || m.alreadyClaimed then before
         else if MachineGuards(before.value, m) then Some(ClaimMachine(before.value, m, team)) else None
  {
    assert ms[..i + 1][..i] == ms[..i];
  }

  lemma {:induction false} LostForGood(rows: Rows, ms: seq<MachinePlan>, i: nat, team: TeamId)
    requires i <= |ms| && ClaimMachines(rows, ms[..i], team).None?
    ensures ClaimMachines(rows, ms, team).None?
    decreases |ms| - i
  {
    if i < |ms| {
      ClaimStep(rows, ms, i, team);
      LostForGood(rows, ms, i + 1, team);
    } else {
      assert ms[..i] == ms;
    }
  }

  // ---- What the claim preserves ----

  /** Only namespaces move, only to the team, and only for the planned machines. */
  ghost predicate OnlyNamespacesMove(rows: Rows, after: Rows, ms: seq<MachinePlan>, team: TeamId) {
    && after.loops == rows.loops && after.runs == rows.runs && after.machines.Keys == rows.machines.Keys
    && (forall m :: m in rows.machines ==> after.machines[m] == rows.machines[m].(team := after.machines[m].team))
    && |after.manifests| == |rows.manifests| && |after.sessions| == |rows.sessions|
    && (forall i :: 0 <= i < |rows.manifests| ==> MovedOrSame(rows.manifests[i], after.manifests[i], ms, team))
    && (forall i :: 0 <= i < |rows.sessions| ==> SessionMovedOrSame(rows.sessions[i], after.sessions[i], ms, team))
  }

  ghost predicate PlannedMove(machine: nat, ns: Namespace, ms: seq<MachinePlan>) {
    exists i :: 0 <= i < |ms| && !ms[i].alreadyClaimed && ms[i].id == machine && ms[i].source == ns
  }

  /** Moved exactly when planned; every other field as it was. */
  ghost predicate MovedOrSame(m: ManifestRow, after: ManifestRow, ms: seq<MachinePlan>, team: TeamId) {
    after == if PlannedMove(m.machine, m.ns, ms) then m.(ns := OfTeam(team)) else m
  }

  ghost predicate SessionMovedOrSame(s: SessionRow, after: SessionRow, ms: seq<MachinePlan>, team: TeamId) {
    after == if PlannedMove(s.machine, s.ns, ms) then s.(ns := OfTeam(team)) else s
  }

  ghost predicate SourcesOwn(ms: seq<MachinePlan>) {
    forall i :: 0 <= i < |ms| && !ms[i].alreadyClaimed ==> ms[i].source == OfMachine(ms[i].id)
  }

  lemma {:induction false} ClaimMovesOnlyNamespaces(rows: Rows, ms: seq<MachinePlan>, team: TeamId)
    requires ClaimMachines(rows, ms, team).Some? && SourcesOwn(ms)
    ensures OnlyNamespacesMove(rows, ClaimMachines(rows, ms, team).value, ms, team)
    ensures ClaimMachines(rows, ms, team).value.blobs == rows.blobs
  {
    if ms != [] {
      var n := |ms| - 1;
      ClaimMovesOnlyNamespaces(rows, ms[..n], team);
      var before := ClaimMachines(rows, ms[..n], team).value;
      forall machine: nat, ns: Namespace
        ensures PlannedMove(machine, ns, ms) <==> PlannedMove(machine, ns, ms[..n]) || MovesNow(ms[n], machine, ns) {
        PlannedMoveGrows(ms, machine, ns);
      }
      hide PlannedMove, MachineGuards, ClaimMachine, OnlyNamespacesMove;
      if ms[n].alreadyClaimed {
        MoveStep(rows, before, before, ms, team);
      } else {
        MoveStep(rows, before, ClaimMachine(before, ms[n], team), ms, team);
      }
    }
  }

  predicate MovesNow(m: MachinePlan, machine: nat, ns: Namespace) {
    !m.alreadyClaimed && m.id == machine && m.source == ns
  }

  lemma PlannedMoveGrows(ms: seq<MachinePlan>, machine: nat, ns: Namespace)
    requires ms != []
    ensures PlannedMove(machine, ns, ms) <==>
      PlannedMove(machine, ns, ms[..|ms| - 1]) || MovesNow(ms[|ms| - 1], machine, ns)
  {
    var n := |ms| - 1;
    if i :| 0 <= i < n && !ms[i].alreadyClaimed && ms[i].id == machine && ms[i].source == ns {
      assert ms[..n][i] == ms[i];
    }
  }

  /** One more machine: the rows it moves are still in its own namespace. */
  lemma MoveStep(rows: Rows, before: Rows, after: Rows, ms: seq<MachinePlan>, team: TeamId)
    requires ms != [] && SourcesOwn(ms) && OnlyNamespacesMove(rows, before, ms[..|ms| - 1], team)
    requires forall machine: nat, ns: Namespace :: PlannedMove(machine, ns, ms) <==>
               PlannedMove(machine, ns, ms[..|ms| - 1]) || MovesNow(ms[|ms| - 1], machine, ns)
    requires var m := ms[|ms| - 1];
             if m.alreadyClaimed then after == before
               else m.id in before.machines && after == ClaimMachine(before, m, team)
    ensures OnlyNamespacesMove(rows, after, ms, team)
  {
    hide PlannedMove;
    var n := |ms| - 1;
    forall i | 0 <= i < |rows.manifests| ensures MovedOrSame(rows.manifests[i], after.manifests[i], ms, team) {
      assert MovedOrSame(rows.manifests[i], before.manifests[i], ms[..n], team);
    }
    forall i | 0 <= i < |rows.sessions| ensures SessionMovedOrSame(rows.sessions[i], after.sessions[i], ms, team) {
      assert SessionMovedOrSame(rows.sessions[i], before.sessions[i], ms[..n], team);
    }
  }

  lemma TeamManifest(rows: Rows, plan: Plan, k: nat, i: nat)
    requires ClaimMachines(rows, plan.machines, plan.team).Some? && k < |plan.machines| && i < |rows.manifests|
    requires forall j :: 0 <= j < |plan.machines| ==> Eligible(rows, plan.team, plan.machines[j])
    requires rows.manifests[i].machine == plan.machines[k].id && rows.manifests[i].ns == plan.machines[k].source
    ensures
      var moved := ClaimMachines(rows, plan.machines, plan.team).value;
      i < |moved.manifests| && moved.manifests[i] == rows.manifests[i].(ns := OfTeam(plan.team))
        && moved.blobs == rows.blobs
  {
    var m, ms := rows.manifests[i], plan.machines;
    hide ChainOk, ManifestCount, SessionCount;
    assert SourcesOwn(ms) by { assert forall j :: 0 <= j < |ms| ==> Eligible(rows, plan.team, ms[j]); }
    ClaimMovesOnlyNamespaces(rows, ms, plan.team);
    hide ClaimMachines;
    assert MovedOrSame(m, ClaimMachines(rows, ms, plan.team).value.manifests[i], ms, plan.team);
    assert Eligible(rows, plan.team, ms[k]);
    if !ms[k].alreadyClaimed { assert PlannedMove(m.machine, m.ns, ms); }
  }

  /** After planning, copying and applying with success, on rows that did not move in
      between: every manifest of a planned machine is in the team namespace with all
      its other fields untouched; each of its entries has a row and a verified blob
      there, of the size it had before, which is the entry's own when no two manifests of
      the machine disagree on a size. */
  lemma HistoryPreserved(rows: Rows, before: set<Key>, files: map<Key, Content>, ids: seq<nat>, plan: Plan, k: nat,
                         i: nat, e: nat)
    requires PlanOk(rows, before, ids, plan) && Claimed(rows, plan).Some?
    requires AllVerified(files, plan, plan.copyHashes) && AllVerified(files, plan, plan.reuseHashes)
    requires k < |ids| && i < |rows.manifests| && rows.manifests[i].machine == ids[k] && e < |rows.manifests[i].entries|
    ensures
      var after, team := Claimed(rows, plan).value, OfTeam(plan.team);
      var m := rows.manifests[i]; var entry := m.entries[e];
      && i < |after.manifests| && after.manifests[i] == m.(ns := team)
      && (m.ns, entry.hash) in rows.blobs && (team, entry.hash) in after.blobs
      && after.blobs[(team, entry.hash)] == rows.blobs[(m.ns, entry.hash)]
      && VerifiedAt(files, team, entry.hash, after.blobs[(team, entry.hash)])
      && (OneSizeAcross(rows, ids[k]) ==> after.blobs[(team, entry.hash)] == entry.size)
  {
    var h := rows.manifests[i].entries[e].hash;
    assert Eligible(rows, plan.team, plan.machines[k]);
    EntryHasRow(rows, plan.machines[k].id, plan.machines[k].source, i, e);
    RowIsExpected(rows, plan, k, h);
    if OneSizeAcross(rows, ids[k]) { EntryRowSize(rows, ids[k], plan.machines[k].source, i, e); }
    assert h in plan.copyHashes || h in plan.reuseHashes;
    hide Eligible, ChainOk, Gathered, Classified, ClaimMachines, VerifiedAt;
    TeamManifest(rows, plan, k, i);
    RowArrives(ClaimMachines(rows, plan.machines, plan.team).value, plan, h);
  }

  lemma EntryRowSize(rows: Rows, machine: nat, ns: Namespace, i: nat, e: nat)
    requires ChainOk(rows, machine, ns) && OneSizeAcross(rows, machine) && EntryOf(rows, machine, i, e)
    ensures HasRow(rows, ns, rows.manifests[i].entries[e].hash, rows.manifests[i].entries[e].size)
  {
    hide ChainOk, OneSizeAcross;
    ChainBacksIffOneSize(rows, machine, ns);
  }

  lemma RowArrives(moved: Rows, plan: Plan, h: Hash)
    requires SizesAgree(moved, plan) && h in plan.expected
    ensures
      var after, key := AddBlobRows(moved, plan), (OfTeam(plan.team), h);
      after.manifests == moved.manifests && key in after.blobs && after.blobs[key] == plan.expected[h]
  {
    assert (OfTeam(plan.team), h) in set x | x in plan.expected :: (OfTeam(plan.team), x);
  }

  lemma RowIsExpected(rows: Rows, plan: Plan, k: nat, h: Hash)
    requires Gathered(rows, plan.machines, plan.expected, plan.sourceOf) && k < |plan.machines|
    requires (plan.machines[k].source, h) in rows.blobs
    ensures h in plan.expected && plan.expected[h] == rows.blobs[(plan.machines[k].source, h)]
  {
    assert HasRow(rows, plan.machines[k].source, h, rows.blobs[(plan.machines[k].source, h)]);
  }

  lemma {:induction false} EntrySizesHas(entries: seq<Entry>, e: nat)
    requires e < |entries|
    ensures entries[e].hash in EntrySizes(entries)
  {
    if e < |entries| - 1 { EntrySizesHas(entries[..|entries| - 1], e); }
  }

  lemma {:induction false} ManifestSizesHas(ms: seq<ManifestRow>, machine: nat, i: nat, e: nat)
    requires i < |ms| && ms[i].machine == machine && e < |ms[i].entries|
    ensures ms[i].entries[e].hash in ManifestSizes(ms, machine)
  {
    if i < |ms| - 1 { ManifestSizesHas(ms[..|ms| - 1], machine, i, e); } else { EntrySizesHas(ms[i].entries, e); }
  }

  lemma EntryHasRow(rows: Rows, machine: nat, ns: Namespace, i: nat, e: nat)
    requires ChainOk(rows, machine, ns) && i < |rows.manifests| && rows.manifests[i].machine == machine
      && e < |rows.manifests[i].entries|
    ensures rows.manifests[i].ns == ns && (ns, rows.manifests[i].entries[e].hash) in rows.blobs
  {
    ManifestSizesHas(rows.manifests, machine, i, e);
    assert ManifestFine(rows, machine, ns, rows.manifests[i]);
  }

  // ---- When sizes agree with rows ----

  /** Every manifest entry of the machine has a row of its own size. */
  ghost predicate EntriesBacked(rows: Rows, machine: nat, ns: Namespace) {
    forall i: nat, e: nat :: EntryOf(rows, machine, i, e) ==>
      HasRow(rows, ns, rows.manifests[i].entries[e].hash, rows.manifests[i].entries[e].size)
  }

  ghost predicate EntryOf(rows: Rows, machine: nat, i: nat, e: nat) {
    i < |rows.manifests| && rows.manifests[i].machine == machine && e < |rows.manifests[i].entries|
  }

  /** No two manifests of the machine give one hash two sizes. */
  ghost predicate OneSizeAcross(rows: Rows, machine: nat) {
    forall i: nat, e: nat, j: nat, f: nat :: EntryOf(rows, machine, i, e) && EntryOf(rows, machine, j, f) ==>
      SameSize(rows.manifests[i].entries[e], rows.manifests[j].entries[f])
  }

  predicate SameSize(a: Entry, b: Entry) { a.hash == b.hash ==> a.size == b.size }

  lemma {:induction false} EntrySizesFrom(entries: seq<Entry>, h: Hash) returns (e: nat)
    requires h in EntrySizes(entries)
    ensures e < |entries| && entries[e].hash == h && entries[e].size == EntrySizes(entries)[h]
  {
    var n := |entries| - 1;
    if entries[n].hash == h { e := n; } else { e := EntrySizesFrom(entries[..n], h); }
  }

  lemma {:induction false} ManifestSizesFrom(ms: seq<ManifestRow>, machine: nat, h: Hash) returns (i: nat, e: nat)
    requires h in ManifestSizes(ms, machine)
    ensures i < |ms| && ms[i].machine == machine && e < |ms[i].entries|
    ensures ms[i].entries[e].hash == h && ms[i].entries[e].size == ManifestSizes(ms, machine)[h]
  {
    var n := |ms| - 1;
    if ms[n].machine == machine && h in EntrySizes(ms[n].entries) {
      i := n;
      e := EntrySizesFrom(ms[n].entries, h);
    } else {
      i, e := ManifestSizesFrom(ms[..n], machine, h);
    }
  }

  /** The chain check remembers one size a hash, so it lets a chain pass in which two
      manifests disagree. An accepted chain backs every entry with a row of its own
      size exactly when no two of the machine's manifests disagree. */
  lemma ChainBacksIffOneSize(rows: Rows, machine: nat, ns: Namespace)
    requires ChainOk(rows, machine, ns)
    ensures EntriesBacked(rows, machine, ns) <==> OneSizeAcross(rows, machine)
  {
    if OneSizeAcross(rows, machine) {
      forall i: nat, e: nat | EntryOf(rows, machine, i, e)
        ensures HasRow(rows, ns, rows.manifests[i].entries[e].hash, rows.manifests[i].entries[e].size)
      {
        ManifestSizesHas(rows.manifests, machine, i, e);
        var j, f := ManifestSizesFrom(rows.manifests, machine, rows.manifests[i].entries[e].hash);
        assert EntryOf(rows, machine, j, f) && SameSize(rows.manifests[i].entries[e], rows.manifests[j].entries[f]);
      }
    }
    if EntriesBacked(rows, machine, ns) {
      forall i: nat, e: nat, j: nat, f: nat | EntryOf(rows, machine, i, e) && EntryOf(rows, machine, j, f)
        ensures SameSize(rows.manifests[i].entries[e], rows.manifests[j].entries[f])
      {
        assert HasRow(rows, ns, rows.manifests[i].entries[e].hash, rows.manifests[i].entries[e].size);
        assert HasRow(rows, ns, rows.manifests[j].entries[f].hash, rows.manifests[j].entries[f].size);
      }
    }
  }

  /** A chain that passes although one of its manifests misstates a size. */
  lemma DisagreementPasses() returns (rows: Rows)
    ensures ChainOk(rows, 0, OfMachine(0)) && !EntriesBacked(rows, 0, OfMachine(0))
  {
    var h := Store.Sha256([1, 2]);
    var wrong := ManifestRow(1, OfMachine(0), 0, 7, 1, 1, [Store.Entry("a", h, 1)], 1, 1);
    var right := ManifestRow(2, OfMachine(0), 0, 7, 1, 2, [Store.Entry("a", h, 2)], 1, 2);
    rows := Rows(map[0 := Machine(false, None)], [LoopRow(7, 0, Some(2))], [wrong, right], [], [],
                 map[(OfMachine(0), h) := 2]);
    assert rows.loops[0].id == 7 && OwnsLoop(rows, 0, 7);
    assert rows.manifests[1].id == 2 && OwnsManifest(rows, 0, 2);
    assert wrong.entries[..0] == [] && right.entries[..0] == [];
    assert EntrySizes(right.entries) == map[h := 2] && EntrySizes(wrong.entries) == map[h := 1];
    assert rows.manifests[..1] == [wrong] && rows.manifests[..1][..0] == [];
    assert ManifestSizes([wrong], 0) == map[h := 1];
    assert ManifestSizes(rows.manifests, 0) == map[h := 2];
    assert Store.TotalBytes(wrong.entries) == 1 && Store.TotalBytes(right.entries) == 2;
    assert EntryOf(rows, 0, 0, 0) && !HasRow(rows, OfMachine(0), h, 1);
  }
}
