/**
 The uploads of the daemon against the server: when every group of a round is stored,
 every hash the session was negotiated for has its verified row.
 */
module DaemonUploads {
  import opened Wrappers
  import opened ArtifactStore
  import opened ArtifactServer
  import opened ArtifactSafety
  import opened UploadRound
  import opened DaemonSync
  import opened DaemonSafety
  import opened DaemonRuns

  ghost predicate GroupOk(self: Self, s: Store, d: Daemon, sid: SyncId, group: Group) {
    && (group.upload.Putting? ==>
          group.upload.msg < |d.wire| && d.wire[group.upload.msg] == Put(self.machine, sid, group.hash))
    && (group.upload == Settled(Stored) ==> Rowed(s, sid, group.hash))
  }

  ghost predicate Rowed(s: Store, sid: SyncId, h: Hash) { sid in s.sessions && RowMatches(s, s.sessions[sid], h) }

  /** Every negotiated hash is in some group or has its row. */
  ghost predicate Provided(s: Store, sid: SyncId, groups: seq<Group>) {
    sid in s.sessions && forall h :: h in s.sessions[sid].negotiated ==> Grouped(groups, h) || Rowed(s, sid, h)
  }

  ghost predicate LoadOk(self: Self, s: Store, d: Daemon) {
    d.phase.Uploading? ==>
      && (forall g :: 0 <= g < |d.phase.groups| ==> GroupOk(self, s, d, d.phase.sid, d.phase.groups[g]))
      && Provided(s, d.phase.sid, d.phase.groups)
  }

  lemma RowedStays(s: Store, t: Store, sid: SyncId)
    requires Evolves(s, t)
    ensures forall h :: Rowed(s, sid, h) ==> Rowed(t, sid, h)
    ensures sid in s.sessions ==> sid in t.sessions && t.sessions[sid].negotiated == s.sessions[sid].negotiated
  {
  }

  lemma LoadStays(self: Self, s: Store, t: Store, d: Daemon)
    requires Evolves(s, t) && LoadOk(self, s, d)
    ensures LoadOk(self, t, d)
  {
    hide Evolves, Rowed, Grouped;
    if d.phase.Uploading? { RowedStays(s, t, d.phase.sid); }
  }

  /** Where the uploading phase of a reaction comes from. */
  ghost predicate LoadMoves(self: Self, d: Daemon, i: Input, e: Daemon) {
    e.phase.Uploading? ==>
      || (d.phase.Preparing? && i.Answered? && i.result.Prepared? && e.phase.sid == i.result.sid
          && e.phase.groups == GroupsOf(d.phase.entries, i.result.need))
      || (d.phase.Uploading? && e.phase.sid == d.phase.sid && |e.phase.groups| == |d.phase.groups|
          && forall g :: 0 <= g < |d.phase.groups| ==> GroupMoves(self, d, i, g, e))
  }

  ghost predicate GroupMoves(self: Self, d: Daemon, i: Input, g: nat, e: Daemon)
    requires d.phase.Uploading? && e.phase.Uploading? && g < |d.phase.groups| && |e.phase.groups| == |d.phase.groups|
  {
    var before, after := d.phase.groups[g], e.phase.groups[g];
    && after.hash == before.hash
    && (|| after == before
        || (after.upload.Settled? && (after.upload == Settled(Stored) ==>
              i.PutAnswered? && i.g == g && before.upload.Putting? && i.result.Uploaded?))
        || (after.upload.Putting? && after.upload.msg == |d.wire|
            && e.wire == d.wire + [Put(self.machine, d.phase.sid, before.hash)]))
  }

  lemma StillMoves(self: Self, d: Daemon, i: Input, e: Daemon)
    requires e.phase == d.phase || !e.phase.Uploading?
    ensures LoadMoves(self, d, i, e)
  {
  }

  lemma GroupLoads(self: Self, d: Daemon, i: Input)
    requires i.Verified? || i.PutAnswered? || i.PutRefusal? || i.PutLost?
    ensures LoadMoves(self, d, i, OnGroup(self, d, i))
  {
  }

  lemma OthersLeave(self: Self, d: Daemon, i: Input)
    requires !d.phase.Uploading? || i.Continue? || i.Aborted? || Aside(i) || i.ScanFailed? || i.Scanned? || i.Answered?
      || i.Refused? || i.Lost?
    requires !(d.phase.Preparing? && i.Answered?)
    ensures var e := React(self, d, i); e.phase == d.phase || !e.phase.Uploading?
  {
    if d.phase.Uploading? { UploadingLeaves(self, d, i); } else { NoUploadBegins(self, d, i); }
    hide *;
  }

  lemma UploadingLeaves(self: Self, d: Daemon, i: Input)
    requires i.Continue? || i.Aborted? || Aside(i) || i.ScanFailed? || i.Scanned? || i.Answered? || i.Refused?
      || i.Lost?
    requires d.phase.Uploading?
    ensures var e := React(self, d, i); e.phase == d.phase || !e.phase.Uploading?
  {
    hide RefusalAction, Reuses, Propose, OnUploads, Worst, GroupsOf;
    if AllSettled(d.phase.groups) { VerdictLeaves(self, d, Worst(d.phase.groups)); }
    VerdictLeaves(self, d, Worst(Dropping(d.phase.groups)));
  }

  lemma NoUploadBegins(self: Self, d: Daemon, i: Input)
    requires !d.phase.Uploading? && !(d.phase.Preparing? && i.Answered?)
    ensures !React(self, d, i).phase.Uploading?
  {
    hide RefusalAction, Reuses, Propose, OnUploads, Worst, GroupsOf;
  }

  lemma VerdictLeaves(self: Self, d: Daemon, v: Ending)
    requires d.phase.Uploading?
    ensures !OnUploads(self, d, v).phase.Uploading?
  {
    hide RefusalAction;
  }

  lemma ReactLoads(self: Self, d: Daemon, i: Input)
    ensures LoadMoves(self, d, i, React(self, d, i))
  {
    hide LoadMoves, OnUploads, OnRefused, OnScanned, Retry, OnGroup, Worst, OnHead, OnView, OnCommitted, GroupsOf;
    if i.Verified? || i.PutAnswered? || i.PutRefusal? || i.PutLost? {
      GroupLoads(self, d, i);
    } else if d.phase.Preparing? && i.Answered? {
      PreparedLoads(self, d, i);
    } else {
      OthersLeave(self, d, i);
      StillMoves(self, d, i, React(self, d, i));
    }
  }

  lemma PreparedLoads(self: Self, d: Daemon, i: Input)
    requires d.phase.Preparing? && i.Answered?
    ensures LoadMoves(self, d, i, React(self, d, i))
  {
    hide GroupsOf;
  }

  /** The answers mean what the server promises. */
  ghost predicate LoadFits(s: Store, d: Daemon, i: Input) {
    && (i.Answered? && d.phase.Preparing? && i.result.Prepared? ==>
          && i.result.sid in s.sessions
          && s.sessions[i.result.sid].negotiated == Distinct(d.phase.entries)
          && Covers(s, s.sessions[i.result.sid], i.result.need, |s.sessions[i.result.sid].negotiated|))
    && (i.PutAnswered? && AwaitedPut(d, i.g).Some? && i.result.Uploaded? ==>
        Rowed(s, d.phase.sid, d.phase.groups[i.g].hash))
  }

  lemma OpenedIsProvided(s: Store, sid: SyncId, entries: seq<Entry>, need: seq<Hash>)
    requires sid in s.sessions && s.sessions[sid].negotiated == Distinct(entries)
    requires Covers(s, s.sessions[sid], need, |s.sessions[sid].negotiated|)
    ensures Provided(s, sid, GroupsOf(entries, need))
  {
    GroupsAreExact(entries, need);
    hide RowMatches, GroupsOf, Grouped;
    forall h | h in s.sessions[sid].negotiated ensures Grouped(GroupsOf(entries, need), h) || Rowed(s, sid, h) {
      var j :| 0 <= j < |s.sessions[sid].negotiated| && s.sessions[sid].negotiated[j] == h;
      assert s.sessions[sid].negotiated[j] in need || RowMatches(s, s.sessions[sid], s.sessions[sid].negotiated[j]);
    }
  }

  lemma SameHashesProvide(s: Store, sid: SyncId, a: seq<Group>, b: seq<Group>)
    requires Provided(s, sid, a) && |b| == |a| && forall g :: 0 <= g < |a| ==> b[g].hash == a[g].hash
    ensures Provided(s, sid, b)
  {
    hide Rowed;
    forall h | Grouped(a, h) ensures Grouped(b, h) {
      var g :| 0 <= g < |a| && a[g].hash == h;
      assert b[g].hash == h;
    }
  }

  lemma MovedIsOk(self: Self, s: Store, d: Daemon, i: Input, e: Daemon)
    requires LoadOk(self, s, d) && LoadFits(s, d, i) && LoadMoves(self, d, i, e) && Grows(d, e)
    ensures LoadOk(self, s, e)
  {
    if e.phase.Uploading? {
      if d.phase.Uploading? {
        forall g | 0 <= g < |d.phase.groups| ensures e.phase.groups[g].hash == d.phase.groups[g].hash {
          assert GroupMoves(self, d, i, g, e);
        }
        SameHashesProvide(s, d.phase.sid, d.phase.groups, e.phase.groups);
        hide Provided, Rowed, LoadFits;
        forall g | 0 <= g < |e.phase.groups| ensures GroupOk(self, s, e, e.phase.sid, e.phase.groups[g]) {
          assert GroupMoves(self, d, i, g, e) && GroupOk(self, s, d, d.phase.sid, d.phase.groups[g]);
          if i.PutAnswered? && i.g == g && d.phase.groups[g].upload.Putting? && i.result.Uploaded? {
            assert LoadFits(s, d, i);
            AnsweredIsRowed(s, d, i);
          }
        }
      } else {
        OpenedIsProvided(s, e.phase.sid, d.phase.entries, i.result.need);
      }
    }
  }

  lemma AnsweredIsRowed(s: Store, d: Daemon, i: Input)
    requires LoadFits(s, d, i) && i.PutAnswered? && AwaitedPut(d, i.g).Some? && i.result.Uploaded?
    ensures Rowed(s, d.phase.sid, d.phase.groups[i.g].hash)
  {
  }

  lemma LocalLoads(self: Self, w: World, i: Input)
    requires DaemonOk(self, w.daemon) && LoadOk(self, w.server.store, w.daemon) && LoadFits(w.server.store, w.daemon, i)
    ensures LoadOk(self, w.server.store, React(self, w.daemon, i))
  {
    ReactKeeps(self, w.daemon, i);
    ReactLoads(self, w.daemon, i);
    hide React, LoadOk, LoadFits, LoadMoves, Grows, DaemonOk;
    assert Grows(w.daemon, React(self, w.daemon, i));
    MovedIsOk(self, w.server.store, w.daemon, i, React(self, w.daemon, i));
  }

  lemma ReplyFits(self: Self, w: World, opId: nat)
    requires WorldOk(self, w) && Awaited(w.daemon).Some? && IsAnswer(w, opId, Awaited(w.daemon).value)
    ensures LoadFits(w.server.store, w.daemon, Answered(w.server.ops[opId].pc.result))
  {
    hide WireOk, BudgetOk, LogOk, Negotiated, RowMatches, Distinct;
    var op, s, d := w.server.ops[opId], w.server.store, w.daemon;
    assert OpOk(s, op);
    if d.phase.Preparing? && op.pc.result.Prepared? { SessionIsScan(s, op.pc.result.sid); }
  }

  lemma SessionIsScan(s: Store, sid: SyncId)
    requires StoreOk(s) && sid in s.sessions
    ensures s.sessions[sid].negotiated == Distinct(s.sessions[sid].payload.entries)
  {
    assert SessionOk(s, sid);
  }

  lemma PutReplyFits(self: Self, w: World, g: nat, opId: nat)
    requires WorldOk(self, w) && LoadOk(self, w.server.store, w.daemon)
    requires AwaitedPut(w.daemon, g).Some? && IsAnswer(w, opId, AwaitedPut(w.daemon, g).value)
    ensures LoadFits(w.server.store, w.daemon, PutAnswered(g, w.server.ops[opId].pc.result))
  {
    hide StoreOk, DaemonOk, LogOk, Negotiated, RowMatches, Provided;
    var op, s, d := w.server.ops[opId], w.server.store, w.daemon;
    assert OpOk(s, op);
    assert GroupOk(self, s, d, d.phase.sid, d.phase.groups[g]);
    assert op.call == Put(self.machine, d.phase.sid, d.phase.groups[g].hash);
  }

  lemma NextLoads(self: Self, w: World, e: Event)
    requires WorldOk(self, w) && LoadOk(self, w.server.store, w.daemon)
    ensures LoadOk(self, Next(self, w, e).server.store, Next(self, w, e).daemon)
  {
    NextKeeps(self, w, e);
    hide Inv, TagsOk, Negotiated, LogOk, React, LoadOk, LoadFits, Admissible, Evolves, DaemonOk, Act;
    match e
    case Serve(_) => LoadStays(self, w.server.store, Next(self, w, e).server.store, w.daemon);
    case Deliver(_, _) => LoadStays(self, w.server.store, Next(self, w, e).server.store, w.daemon);
    case Local(i) =>
      if !i.Answered? && !i.PutAnswered? && !i.DirectAnswered? {
        PlainFits(w.server.store, w.daemon, i);
        LocalLoads(self, w, i);
      }
    case Reply(opId) =>
      if Awaited(w.daemon).Some? && IsAnswer(w, opId, Awaited(w.daemon).value) {
        ReplyFits(self, w, opId);
        LocalLoads(self, w, Answered(w.server.ops[opId].pc.result));
      }
    case PutReply(g, opId) =>
      if AwaitedPut(w.daemon, g).Some? && IsAnswer(w, opId, AwaitedPut(w.daemon, g).value) {
        PutReplyFits(self, w, g, opId);
        LocalLoads(self, w, PutAnswered(g, w.server.ops[opId].pc.result));
      }
    case DirectReply(opId) =>
      if opId in w.server.ops && w.server.ops[opId].pc.Done? {
        PlainFits(w.server.store, w.daemon, DirectAnswered(w.server.ops[opId].pc.result));
        LocalLoads(self, w, DirectAnswered(w.server.ops[opId].pc.result));
      }
  }

  lemma PlainFits(s: Store, d: Daemon, i: Input)
    requires !i.Answered? && !i.PutAnswered?
    ensures LoadFits(s, d, i)
  {
  }

  lemma {:induction false} RunLoads(self: Self, run: seq<Event>)
    ensures
      var w := After(self, WORLD, run); WorldOk(self, w) && LoadOk(self, w.server.store, w.daemon)
  {
    BootOk(self);
    WorldKeeps(self, WORLD, run);
    if run != [] {
      hide WorldOk, LoadOk, Next;
      RunLoads(self, run[..|run| - 1]);
      NextLoads(self, After(self, WORLD, run[..|run| - 1]), run[|run| - 1]);
    }
  }

  // ---- The theorem ----

  /** A commit follows the uploads only when every group stored its bytes, or when the
      server said that the session is committed already. In the first case every hash
      the session was negotiated for has its row of the negotiated size. */
  lemma CommitFollowsUploads(self: Self, run: seq<Event>, e: Event)
    ensures
      var w, v := After(self, WORLD, run), After(self, WORLD, run + [e]); var d := w.daemon;
      d.phase.Uploading? && v.daemon.phase.Committing? ==>
        && v.daemon.phase.sid == d.phase.sid && d.phase.sid in w.server.store.sessions
        && (|| RowsUpTo(w.server.store, w.server.store.sessions[d.phase.sid],
                        |w.server.store.sessions[d.phase.sid].negotiated|)
            || exists g :: 0 <= g < |d.phase.groups| && CommittedBefore(d.phase.groups[g]))
  {
    hide *;
    RunLoads(self, run);
    LastEvent(self, run, e);
    UploadsBack(self, After(self, WORLD, run), e);
  }

  predicate CommittedBefore(group: Group) {
    && group.upload.Settled? && group.upload.ending.PutRefused?
    && group.upload.ending.code == Some(SessionCommittedCode)
  }

  lemma LastEvent(self: Self, run: seq<Event>, e: Event)
    ensures After(self, WORLD, run + [e]) == Next(self, After(self, WORLD, run), e)
  {
    hide Next;
    assert (run + [e])[..|run|] == run;
  }

  lemma UploadsBack(self: Self, w: World, e: Event)
    requires WorldOk(self, w) && LoadOk(self, w.server.store, w.daemon)
    ensures
      var v := Next(self, w, e); var d := w.daemon;
      d.phase.Uploading? && v.daemon.phase.Committing? ==>
        && v.daemon.phase.sid == d.phase.sid && d.phase.sid in w.server.store.sessions
        && (|| RowsUpTo(w.server.store, w.server.store.sessions[d.phase.sid],
                        |w.server.store.sessions[d.phase.sid].negotiated|)
            || exists g :: 0 <= g < |d.phase.groups| && CommittedBefore(d.phase.groups[g]))
  {
    hide Inv, DaemonOk, TagsOk, LogOk, Admissible, Act, OnUploads, Worst, RowsUpTo, Provided, GroupOk, CommittedBefore,
         GroupsOf;
    var d := w.daemon;
    if d.phase.Uploading? {
      assert Provided(w.server.store, d.phase.sid, d.phase.groups);
      UploadsDecide(self, w.server.store, d, d.phase.groups);
      UploadsDecide(self, w.server.store, d, Dropping(d.phase.groups));
    }
  }

  /** What it takes to go from uploading to committing. */
  lemma UploadsDecide(self: Self, s: Store, d: Daemon, groups: seq<Group>)
    requires d.phase.Uploading? && LoadOk(self, s, d)
    requires groups == d.phase.groups || groups == Dropping(d.phase.groups)
    ensures d.phase.sid in s.sessions
    ensures AllSettled(groups) && OnUploads(self, d, Worst(groups)).phase.Committing? ==>
      && OnUploads(self, d, Worst(groups)).phase.sid == d.phase.sid
      && (|| RowsUpTo(s, s.sessions[d.phase.sid], |s.sessions[d.phase.sid].negotiated|)
          || exists g :: 0 <= g < |d.phase.groups| && CommittedBefore(d.phase.groups[g]))
  {
    if AllSettled(groups) && OnUploads(self, d, Worst(groups)).phase.Committing? {
      hide RowMatches, GroupsOf;
      WorstIsFirst(groups);
      VerdictCommits(self, d, Worst(groups));
      if Worst(groups) == Stored {
        AllStoredBacks(self, s, d, groups);
      } else {
        var g :| 0 <= g < |groups| && groups[g].upload.ending == Worst(groups);
        assert CommittedBefore(d.phase.groups[g]);
      }
    }
  }

  lemma VerdictCommits(self: Self, d: Daemon, v: Ending)
    requires d.phase.Uploading? && OnUploads(self, d, v).phase.Committing?
    ensures v == Stored || (v.PutRefused? && v.code == Some(SessionCommittedCode))
    ensures OnUploads(self, d, v).phase.sid == d.phase.sid
  {
  }

  lemma AllStoredBacks(self: Self, s: Store, d: Daemon, groups: seq<Group>)
    requires d.phase.Uploading? && LoadOk(self, s, d)
    requires groups == d.phase.groups || groups == Dropping(d.phase.groups)
    requires forall g :: 0 <= g < |groups| ==> groups[g].upload == Settled(Stored)
    ensures RowsUpTo(s, s.sessions[d.phase.sid], |s.sessions[d.phase.sid].negotiated|)
  {
    hide RowMatches;
    var session := s.sessions[d.phase.sid];
    forall j | 0 <= j < |session.negotiated| ensures RowMatches(s, session, session.negotiated[j]) {
      var h := session.negotiated[j];
      assert Grouped(d.phase.groups, h) || Rowed(s, d.phase.sid, h);
      if Grouped(d.phase.groups, h) {
        var g :| 0 <= g < |d.phase.groups| && d.phase.groups[g].hash == h;
        assert groups[g].upload == Settled(Stored);
        assert GroupOk(self, s, d, d.phase.sid, d.phase.groups[g]);
      }
    }
  }
}
