/** Every step that reads, replicates, trims or applies the log keeps the invariant. */
module RaftLogSteps {
  import opened Common
  import opened Counting
  import opened RaftTypes
  import opened RaftCore
  import opened RaftServer
  import opened RaftService
  import opened RaftCluster
  import opened RaftSafety
  import opened RaftSteps
  import opened RaftCompaction

  // ----- the leader's side -----

  lemma StartStep(c: Cluster, i: nat, cmd: Command)
    requires Inv(c) && Shape(c) && i < |c.servers|
    ensures Inv(DoStart(c, i, cmd)) && Grows(c.view, DoStart(c, i, cmd).view)
  {
    hide Safe, ServerOk, Extend, Start;
    var c' := DoStart(c, i, cmd);
    assert ServerOk(c.servers[i], c.services[i], i, c.view);
    StartOk(c.servers[i], c.services[i], i, c.view, cmd);
    StepKeeps(c, c', i);
  }

  lemma StartOk(s: Server, v: Service, i: nat, w: View, cmd: Command)
    requires Safe(w) && ServerOk(s, v, i, w)
    ensures var w' := if s.role == Leader && w.terms[i] in w.reigns then Extend(w, i, cmd) else w;
            && Safe(w') && Grows(w, w') && LocalTo(w, w', i)
            && ServerOk(Start(s, cmd), v, i, w')
  {
    hide Safe, LogsOk, Committed, Grows, ServiceOk;
    SafeLogs(w);
    GrowsRefl(w);
    if s.role == Leader {
      ExtendSafe(w, i, cmd);
      StartedOk(s, v, i, w, cmd);
    }
  }

  lemma SafeLogs(w: View)
    requires Safe(w)
    ensures LogsOk(w) && LeadersComplete(w) && BallotsOk(w) && AcksOk(w)
  {
  }

  lemma StartedOk(s: Server, v: Service, i: nat, w: View, cmd: Command)
    requires LogsOk(w) && ServerOk(s, v, i, w) && s.role == Leader
    requires Grows(w, Extend(w, i, cmd))
    ensures ServerOk(Start(s, cmd), v, i, Extend(w, i, cmd))
  {
    hide LogsOk, Committed, Grows;
    var w' := Extend(w, i, cmd);
    var s' := Start(s, cmd);
    var F := w.logs[i];
    assert w'.logs[i] == F + [Entry(s.currentTerm, cmd)];
    CommittedRoot(w, F, s.commitIndex, s.currentTerm);
    CommittedGrows(w, w', F, s.commitIndex, s.currentTerm, w'.logs[i], s.commitIndex, s.currentTerm);
    assert Compacts(s', w'.logs[i]);
    ServiceMoves(s, s', v, F, w'.logs[i], w.ordered);
    hide ServiceOk;
    forall p: nat | p < |w.logs|
      ensures PeerOk(s', w', p)
    {
      assert PeerOk(s, w, p);
      AckedGrows(w, w', s.currentTerm, p, s.matchIndex[p]);
    }
  }

  lemma AckedGrows(w: View, w': View, t: nat, p: nat, k: int)
    requires Grows(w, w')
    ensures k > 0 && Acked(w, t, p, k) ==> Acked(w', t, p, k)
  {
  }

  lemma ReplicateStep(c: Cluster, i: nat, p: nat)
    requires Inv(c) && Shape(c) && Enabled(c, Replicate(i, p))
    ensures Inv(DoReplicate(c, i, p)) && Grows(c.view, DoReplicate(c, i, p).view)
  {
    hide Safe, LogsOk, ServerOk, Grows;
    var s := c.servers[i];
    var c' := DoReplicate(c, i, p);
    assert ServerOk(s, c.services[i], i, c.view);
    SafeLogs(c.view);
    GrowsRefl(c.view);
    if NeedsSnapshot(s, p) {
      SnapshotSent(s, c.services[i], i, c.view);
    } else {
      AppendSent(s, c.services[i], i, c.view, p);
    }
    StepKeeps(c, c', i);
  }

  lemma AppendSent(s: Server, v: Service, i: nat, w: View, p: nat)
    requires ServerOk(s, v, i, w) && s.role == Leader && p < |w.logs| && !NeedsSnapshot(s, p)
    requires s.nextIndex[p] <= LastLogIndex(s) + 1
    ensures AppReqOk(w, AppendArgsFor(s, p))
  {
    hide Committed, ServiceOk, VoteOk;
    assert PeerOk(s, w, p);
  }

  lemma SnapshotSent(s: Server, v: Service, i: nat, w: View)
    requires LogsOk(w) && ServerOk(s, v, i, w) && s.role == Leader
    ensures SnapReqOk(w, SnapshotArgsFor(s))
  {
    hide LogsOk, Committed, VoteOk;
    GrowsRefl(w);
    CommittedGrows(w, w, w.logs[i], s.commitIndex, s.currentTerm, w.logs[i], s.lastIncludedIndex, s.currentTerm);
  }

  // ----- the follower's side -----

  /** A follower's committed prefix is in its leader's log, and survives adoption. */
  lemma AcceptKeepsCommitted(w: View, i: nat, m: nat, ci: nat)
    requires Safe(w) && CanAccept(w, i, m)
    requires Committed(w, w.logs[i], ci, w.terms[i])
    ensures Agree(w.logs[i], w.reigns[w.terms[i]].log, ci)
    ensures Agree(w.logs[i], Accept(w, i, m).logs[i], ci)
  {
    hide Safe, LogsOk, LeadersComplete, BallotsOk, AcksOk, Committed;
    SafeLogs(w);
    LeaderCompleteness(w, w.logs[i], ci, w.terms[i], w.terms[i]);
  }

  /** A follower that moved to a new log with the same committed prefix. */
  lemma MovedOk(s: Server, s': Server, v: Service, v': Service, i: nat, w: View, w': View)
    requires ServerOk(s, v, i, w) && s.role == Follower && s'.role == Follower
    requires w'.terms == w.terms && w'.ballots == w.ballots && |w'.logs| == |w.logs|
    requires s'.me == s.me && s'.peers == s.peers && s'.currentTerm == s.currentTerm && s'.votedFor == s.votedFor
    requires OnDisk(s') == Image(s') && Compacts(s', w'.logs[i])
    requires s'.lastIncludedIndex <= s'.lastApplied <= s'.commitIndex < |w'.logs[i]|
    requires Committed(w', w'.logs[i], s'.commitIndex, s.currentTerm)
    requires ServiceOk(s', v', w'.logs[i], w'.ordered)
    ensures ServerOk(s', v', i, w')
  {
    hide Committed, ServiceOk;
  }

  /** The service does not notice that the log beyond what was applied has changed. */
  lemma ServiceMoves(s: Server, s': Server, v: Service, F: Log, F': Log, ordered: bool)
    requires Compacts(s, F) && 0 <= s.lastApplied < |F| && ServiceOk(s, v, F, ordered)
    requires Compacts(s', F') && s.lastIncludedIndex <= s.lastApplied && Agree(F, F', s.lastApplied)
    requires s'.lastApplied == s.lastApplied && s'.lastIncludedIndex == s.lastIncludedIndex && s'.snapshot == s.snapshot
    ensures ServiceOk(s', v, F', ordered)
  {
    hide InLine;
    if ordered {
      forall k | 0 <= k < |v.pending|
        ensures OfLog(F', v.pending[k])
      {
        MessageMoves(F, F', v.pending[k], s.lastApplied);
      }
      assert Commands(F, s.lastIncludedIndex) == Commands(F', s.lastIncludedIndex);
      assert Commands(F, |v.applied|) == Commands(F', |v.applied|);
    }
  }

  lemma MessageMoves(F: Log, F': Log, m: ApplyMsg, k: int)
    requires OfLog(F, m) && m.index <= k && Agree(F, F', k)
    ensures OfLog(F', m)
  {
    assert Commands(F, m.index) == Commands(F', m.index);
  }

  lemma AppendAgain(s: Server, a: AppendArgs)
    requires Wf(s) && a.term >= s.currentTerm
    ensures AppendEntries(s, a) == AppendEntries(Observe(s, a.term).(role := Follower), a)
  {
    hide Merge, FirstOfTerm;
  }

  lemma FollowOk(s: Server, v: Service, i: nat, w: View, t: nat)
    requires Safe(w) && ServerOk(s, v, i, w) && t >= s.currentTerm
    ensures ServerOk(Observe(s, t).(role := Follower), v, i, Seen(w, i, t))
  {
    hide Safe, Committed, Seen, Observe, ServiceOk;
    ObserveOk(s, v, i, w, t);
    var s1 := Observe(s, t);
    ServiceSame(s1, s1.(role := Follower), v, Seen(w, i, t).logs[i], Seen(w, i, t).ordered);
  }

  ghost function AfterAppend(w: View, i: nat, a: AppendArgs, ok: bool): View
    requires i < |w.terms| == |w.logs|
  {
    var w1 := Seen(w, i, a.term);
    if ok then AcceptIf(w1, i, a.prevLogIndex + |a.entries|) else w1
  }

  lemma AppReqStep(c: Cluster, m: Msg)
    requires Inv(c) && Shape(c) && Enabled(c, RecvAppReq(m))
    ensures Inv(DoAppReq(c, m)) && Grows(c.view, DoAppReq(c, m).view)
  {
    hide Safe, ServerOk, Seen, AcceptIf, AppendEntries, Committed;
    var i := m.dst;
    var c' := DoAppReq(c, m);
    assert ServerOk(c.servers[i], c.services[i], i, c.view);
    assert MsgOk(c.view, m);
    AppReqOkAfter(c.servers[i], c.services[i], i, c.view, m.app);
    StepKeeps(c, c', i);
  }

  lemma AppReqOkAfter(s: Server, v: Service, i: nat, w: View, a: AppendArgs)
    requires Safe(w) && ServerOk(s, v, i, w) && AppReqOk(w, a)
    ensures var (s', r) := AppendEntries(s, a);
            var w' := AfterAppend(w, i, a, r.success);
            && Safe(w') && Grows(w, w') && LocalTo(w, w', i)
            && ServerOk(s', v, i, w')
            && AppRepOk(w', i, a, r)
  {
    hide Safe, LogsOk, LeadersComplete, BallotsOk, AcksOk, Committed, Grows, Merge, FirstOfTerm, VoteOk,
         CandidateOk, LeaderOk, ServiceOk, AcceptIf;
    SafeLogs(w);
    SeenSafe(w, i, a.term);
    if a.term < s.currentTerm {
    } else {
      var w1 := Seen(w, i, a.term);
      FollowOk(s, v, i, w, a.term);
      AppendAgain(s, a);
      AppReqKept(w, w1, a);
      FollowerAppend(Observe(s, a.term).(role := Follower), v, i, w1, a);
      var w' := AfterAppend(w, i, a, AppendEntries(s, a).1.success);
      GrowsTrans(w, w1, w');
    }
  }

  ghost function Accepted(w: View, i: nat, a: AppendArgs, ok: bool): View {
    if ok then AcceptIf(w, i, a.prevLogIndex + |a.entries|) else w
  }

  lemma FollowerAppend(s: Server, v: Service, i: nat, w: View, a: AppendArgs)
    requires Safe(w) && ServerOk(s, v, i, w) && AppReqOk(w, a)
    requires s.role == Follower && s.currentTerm == a.term
    ensures var (s', r) := AppendEntries(s, a);
            var w' := Accepted(w, i, a, r.success);
            && Safe(w') && Grows(w, w') && LocalTo(w, w', i)
            && ServerOk(s', v, i, w')
            && AppRepOk(w', i, a, r)
  {
    hide Safe, LogsOk, LeadersComplete, BallotsOk, AcksOk, Grows, ServerOk, AppReqOk, AppendEntries, Fits, LocalTo,
         Compacts, Adopt, Agree;
    FollowerFits(s, v, i, w, a);
    AppendRefines(s, w.logs[i], w.reigns[a.term].log, a);
    HintInRange(s, w.logs[i], w.reigns[a.term].log, a);
    RejectedSame(s, a);
    SafeLogs(w);
    GrowsRefl(w);
    LocalRefl(w, i);
    if AppendEntries(s, a).1.success {
      var m := a.prevLogIndex + |a.entries|;
      AcceptSafe(w, i, m);
      AcceptLocal(w, i, m);
      AppReqKept(w, Accept(w, i, m), a);
      AppendedOk(s, v, i, w, a);
    }
  }

  lemma LocalRefl(w: View, i: nat)
    requires |w.terms| == |w.logs|
    ensures LocalTo(w, w, i)
  {
  }

  lemma AcceptLocal(w: View, i: nat, m: nat)
    requires CanAccept(w, i, m)
    ensures LocalTo(w, Accept(w, i, m), i) && Acked(Accept(w, i, m), w.terms[i], i, m)
  {
  }

  lemma RejectedSame(s: Server, a: AppendArgs)
    requires Wf(s) && s.role == Follower && s.currentTerm == a.term
    ensures !AppendEntries(s, a).1.success ==> AppendEntries(s, a).0 == s
  {
  }

  lemma FollowerFits(s: Server, v: Service, i: nat, w: View, a: AppendArgs)
    requires Safe(w) && ServerOk(s, v, i, w) && AppReqOk(w, a) && s.currentTerm == a.term
    ensures i < |w.terms| == |w.logs| && w.terms[i] == a.term && a.prevLogIndex >= 0
    ensures CanAccept(w, i, a.prevLogIndex + |a.entries|)
    ensures Wf(s) && Fits(s, w.logs[i], w.reigns[a.term].log, a) && Rooted(w.logs[i])
  {
    hide Safe, LogsOk, LeadersComplete, BallotsOk, AcksOk, Committed, ServiceOk, Matching,
         VoteOk, CandidateOk, LeaderOk;
    SafeLogs(w);
    AcceptKeepsCommitted(w, i, a.prevLogIndex + |a.entries|, s.commitIndex);
    ReignMatches(w, i, a.term);
  }

  lemma ReignMatches(w: View, i: nat, t: nat)
    requires LogsOk(w) && i < |w.logs| && t in w.reigns
    ensures Matching(w.logs[i], w.reigns[t].log)
    ensures Rooted(w.logs[i])
  {
    forall k | 1 <= k < |w.logs[i]|
      ensures w.logs[i][k].term >= 1
    {
      assert FromReign(w.reigns, w.logs[i], k);
    }
    WfMatching(w.reigns, w.logs[i], w.reigns[t].log);
  }

  lemma AppendedOk(s: Server, v: Service, i: nat, w: View, a: AppendArgs)
    requires Safe(w) && ServerOk(s, v, i, w) && AppReqOk(w, a)
    requires s.role == Follower && s.currentTerm == a.term
    requires AppendEntries(s, a).1.success
    requires Compacts(AppendEntries(s, a).0, Accept(w, i, a.prevLogIndex + |a.entries|).logs[i])
    ensures ServerOk(AppendEntries(s, a).0, v, i, Accept(w, i, a.prevLogIndex + |a.entries|))
  {
    hide Safe, LogsOk, LeadersComplete, BallotsOk, AcksOk, Committed, Grows, Merge, FirstOfTerm,
         VoteOk, CandidateOk, LeaderOk, HistoryOk;
    var s' := AppendEntries(s, a).0;
    var m := a.prevLogIndex + |a.entries|;
    var F := w.logs[i];
    var R := w.reigns[a.term].log;
    var w' := Accept(w, i, m);
    var F' := w'.logs[i];
    SafeLogs(w);
    AcceptKeepsCommitted(w, i, m, s.commitIndex);
    AcceptSafe(w, i, m);
    if a.leaderCommit > s.commitIndex {
      CommittedGrows(w, w', R, a.leaderCommit, a.term, F', a.leaderCommit, a.term);
    } else {
      CommittedGrows(w, w', F, s.commitIndex, a.term, F', s.commitIndex, a.term);
    }
    ServiceMoves(s, s', v, F, F', w.ordered);
    hide ServiceOk;
    MovedOk(s, s', v, v, i, w, w');
  }

  // ----- the leader hears back -----

  lemma AppRepStep(c: Cluster, m: Msg)
    requires Shape(c) && Enabled(c, RecvAppRep(m)) && Inv(c)
    ensures var c' := Next(c, RecvAppRep(m)); Inv(c') && Grows(c.view, c'.view)
  {
    hide Safe, ServerOk, Seen, AppendReplied, Committed;
    var i := m.dst;
    var c' := DoAppRep(c, m);
    assert ServerOk(c.servers[i], c.services[i], i, c.view);
    assert MsgOk(c.view, m);
    AppRepOkAfter(c.servers[i], c.services[i], i, c.view, m.src, m.app, m.appReply);
    StepKeeps(c, c', i);
  }

  lemma AppRepOkAfter(s: Server, v: Service, i: nat, w: View, p: nat, a: AppendArgs, r: AppendReply)
    requires Safe(w) && ServerOk(s, v, i, w) && p < |w.logs| && AppRepOk(w, p, a, r)
    ensures var s' := AppendReplied(s, p, a, r);
            var w' := Seen(w, i, s'.currentTerm);
            && Safe(w') && Grows(w, w') && LocalTo(w, w', i)
            && ServerOk(s', v, i, w')
  {
    hide Safe, LogsOk, LeadersComplete, BallotsOk, AcksOk, Committed, Grows, ServiceOk, VoteOk, CandidateOk,
         CommitFrom, LastOfTerm;
    SafeLogs(w);
    var s' := AppendReplied(s, p, a, r);
    SeenSafe(w, i, s'.currentTerm);
    ObserveOk(s, v, i, w, s'.currentTerm);
    if s.role == Leader && s.currentTerm == a.term && r.term <= s.currentTerm {
      assert PeerOk(s, w, p);
      if r.success {
        var newMatch := a.prevLogIndex + |a.entries|;
        var s1 := if newMatch > s.matchIndex[p] then
                    s.(matchIndex := s.matchIndex[p := newMatch], nextIndex := s.nextIndex[p := newMatch + 1])
                  else s;
        AckedInRange(w, s.currentTerm, p, newMatch);
        PeerUpdated(s, v, i, w, p, s1.matchIndex[p], s1.nextIndex[p]);
        assert s1 == s.(matchIndex := s.matchIndex[p := s1.matchIndex[p]],
                        nextIndex := s.nextIndex[p := s1.nextIndex[p]]);
        AdvanceOk(s1, v, i, w);
      } else {
        BackUpInRange(s, s.nextIndex[p], r);
        PeerUpdated(s, v, i, w, p, s.matchIndex[p], BackUp(s, s.nextIndex[p], r));
        assert s.matchIndex[p := s.matchIndex[p]] == s.matchIndex;
      }
    }
  }

  lemma AckedInRange(w: View, t: nat, p: nat, k: nat)
    requires AcksOk(w) && Acked(w, t, p, k)
    ensures t in w.reigns && k < |w.reigns[t].log|
  {
    assert AckOk(w, t, p);
  }

  lemma PeerUpdated(s: Server, v: Service, i: nat, w: View, p: nat, mi: int, ni: int)
    requires ServerOk(s, v, i, w) && s.role == Leader && p < |w.logs|
    requires 0 <= mi && (mi == s.matchIndex[p] || Acked(w, s.currentTerm, p, mi))
    requires 1 <= ni <= LastLogIndex(s) + 1
    ensures ServerOk(s.(matchIndex := s.matchIndex[p := mi], nextIndex := s.nextIndex[p := ni]), v, i, w)
  {
    hide Committed, ServiceOk;
    var s' := s.(matchIndex := s.matchIndex[p := mi], nextIndex := s.nextIndex[p := ni]);
    ServiceSame(s, s', v, w.logs[i], w.ordered);
    forall q: nat | q < |w.logs|
      ensures PeerOk(s', w, q)
    {
      assert PeerOk(s, w, q);
    }
  }

  lemma {:induction false} LastOfTermBound(s: Server, t: int, k: int)
    requires k <= LastLogIndex(s)
    ensures var l := LastOfTerm(s, t, k);
            && (l == -1 || (s.lastIncludedIndex < l <= k && TermAt(s, l) == t))
            && forall j :: s.lastIncludedIndex < j <= k && (l == -1 || l < j) ==> TermAt(s, j) != t
    decreases k - s.lastIncludedIndex
  {
    if k > s.lastIncludedIndex && TermAt(s, k) != t {
      LastOfTermBound(s, t, k - 1);
    }
  }

  lemma BackUpInRange(s: Server, next: int, r: AppendReply)
    requires Wf(s) && 1 <= next <= LastLogIndex(s) + 1 && r.conflictIndex <= LastLogIndex(s) + 1
    requires LastLogIndex(s) >= 0
    ensures 1 <= BackUp(s, next, r) <= LastLogIndex(s) + 1
  {
    LastOfTermBound(s, r.conflictTerm, LastLogIndex(s));
  }

  lemma {:induction false} CommitFromBound(s: Server, n: int)
    requires s.peers == |s.matchIndex|
    ensures CommitFrom(s, n) == s.commitIndex ||
              (s.commitIndex < CommitFrom(s, n) <= n && CanCommit(s, CommitFrom(s, n)))
    ensures forall k :: CommitFrom(s, n) < k <= n ==> !CanCommit(s, k)
    decreases n - s.commitIndex
  {
    if n > s.commitIndex && !CanCommit(s, n) {
      CommitFromBound(s, n - 1);
    }
  }

  /** What a leader counts as replicated on a majority in its own term is chosen. */
  lemma CountedIsChosen(s: Server, v: Service, i: nat, w: View, n: nat)
    requires ServerOk(s, v, i, w) && s.role == Leader && n > s.commitIndex && CanCommit(s, n)
    ensures Chosen(w, s.currentTerm, n)
  {
    hide Committed, ServiceOk, VoteOk, CandidateOk;
    var Q := Holders(s, n);
    forall p | p in Q
      ensures Acked(w, s.currentTerm, p, n)
    {
      assert PeerOk(s, w, p);
    }
    assert Q <= Ids(|w.terms|);
    assert ChosenBy(w, s.currentTerm, n, Q);
  }

  lemma AdvanceOk(s: Server, v: Service, i: nat, w: View)
    requires ServerOk(s, v, i, w) && s.role == Leader
    ensures ServerOk(AdvanceCommit(s), v, i, w)
  {
    hide CommitFrom, CanCommit, Chosen;
    var s' := AdvanceCommit(s);
    CommitFromBound(s, LastLogIndex(s));
    if s'.commitIndex != s.commitIndex {
      CountedIsChosen(s, v, i, w, s'.commitIndex);
      assert CommittedBy(w, w.logs[i], s'.commitIndex, s.currentTerm, s.currentTerm, s'.commitIndex);
    }
    LeaderSame(s, s', i, w, w);
  }

  lemma SnapRepStep(c: Cluster, m: Msg)
    requires Shape(c) && Enabled(c, RecvSnapRep(m)) && Inv(c)
    ensures var c' := Next(c, RecvSnapRep(m)); Inv(c') && Grows(c.view, c'.view)
  {
    hide Safe, ServerOk, Seen, SnapshotReplied, Committed;
    var i := m.dst;
    var c' := DoSnapRep(c, m);
    assert ServerOk(c.servers[i], c.services[i], i, c.view);
    assert MsgOk(c.view, m);
    SnapRepOkAfter(c.servers[i], c.services[i], i, c.view, m.src, m.snap, m.snapReply);
    StepKeeps(c, c', i);
  }

  lemma SnapRepOkAfter(s: Server, v: Service, i: nat, w: View, p: nat, a: SnapshotArgs, r: SnapshotReply)
    requires Safe(w) && ServerOk(s, v, i, w) && p < |w.logs| && SnapRepOk(w, p, a, r)
    ensures var s' := SnapshotReplied(s, p, a, r);
            var w' := Seen(w, i, s'.currentTerm);
            && Safe(w') && Grows(w, w') && LocalTo(w, w', i)
            && ServerOk(s', v, i, w')
  {
    hide Safe, LogsOk, LeadersComplete, BallotsOk, AcksOk, Committed, Grows, ServiceOk, VoteOk, CandidateOk;
    SafeLogs(w);
    var s' := SnapshotReplied(s, p, a, r);
    SeenSafe(w, i, s'.currentTerm);
    ObserveOk(s, v, i, w, s'.currentTerm);
    if s.role == Leader && s.currentTerm == a.term && r.term <= s.currentTerm {
      assert PeerOk(s, w, p);
      var m := if s.matchIndex[p] > a.lastIncludedIndex then s.matchIndex[p] else a.lastIncludedIndex;
      if m > 0 {
        AckedInRange(w, s.currentTerm, p, m);
      }
      PeerUpdated(s, v, i, w, p, m, m + 1);
    }
  }

  // ----- snapshots -----

  lemma SnapReqStep(c: Cluster, m: Msg)
    requires Inv(c) && Shape(c) && Enabled(c, RecvSnapReq(m))
    ensures Inv(DoSnapReq(c, m)) && Grows(c.view, DoSnapReq(c, m).view)
  {
    hide Safe, ServerOk, Seen, AcceptIf, InstallSnapshot, Committed;
    var i := m.dst;
    var c' := DoSnapReq(c, m);
    assert ServerOk(c.servers[i], c.services[i], i, c.view);
    assert MsgOk(c.view, m);
    SnapReqOkAfter(c.servers[i], c.services[i], i, c.view, m.snap);
    StepKeeps(c, c', i);
  }

  ghost function AfterDelivery(v: Service, d: Option<ApplyMsg>): Service {
    if d.None? then v else Post(v, d.value)
  }

  ghost function AfterSnapshot(s: Server, w: View, i: nat, a: SnapshotArgs): View
    requires i < |w.terms| == |w.logs|
  {
    var w1 := Seen(w, i, a.term);
    if a.term < s.currentTerm then w1 else AcceptIf(w1, i, a.lastIncludedIndex)
  }

  lemma SnapshotAgain(s: Server, a: SnapshotArgs)
    requires Wf(s) && a.term >= s.currentTerm
    ensures InstallSnapshot(s, a) == InstallSnapshot(Observe(s, a.term).(role := Follower), a)
  {
  }

  lemma SnapReqOkAfter(s: Server, v: Service, i: nat, w: View, a: SnapshotArgs)
    requires Safe(w) && ServerOk(s, v, i, w) && SnapReqOk(w, a)
    ensures var (s', r, d) := InstallSnapshot(s, a);
            var w' := AfterSnapshot(s, w, i, a);
            && Safe(w') && Grows(w, w') && LocalTo(w, w', i)
            && ServerOk(s', AfterDelivery(v, d), i, w')
            && SnapRepOk(w', i, a, r)
  {
    hide Safe, LogsOk, LeadersComplete, BallotsOk, AcksOk, Committed, Grows, VoteOk, CandidateOk, LeaderOk, ServiceOk,
         AcceptIf, TrimTo;
    SafeLogs(w);
    SeenSafe(w, i, a.term);
    if a.term >= s.currentTerm {
      var w1 := Seen(w, i, a.term);
      FollowOk(s, v, i, w, a.term);
      SnapshotAgain(s, a);
      SnapReqKept(w, w1, a);
      FollowerSnapshot(Observe(s, a.term).(role := Follower), v, i, w1, a);
      GrowsTrans(w, w1, AfterSnapshot(s, w, i, a));
    }
  }

  lemma FollowerSnapshot(s: Server, v: Service, i: nat, w: View, a: SnapshotArgs)
    requires Safe(w) && ServerOk(s, v, i, w) && SnapReqOk(w, a)
    requires s.role == Follower && s.currentTerm == a.term
    ensures var (s', r, d) := InstallSnapshot(s, a);
            var w' := AcceptIf(w, i, a.lastIncludedIndex);
            && Safe(w') && Grows(w, w') && LocalTo(w, w', i)
            && ServerOk(s', AfterDelivery(v, d), i, w')
            && SnapRepOk(w', i, a, r)
  {
    hide Safe, LogsOk, LeadersComplete, BallotsOk, AcksOk, Committed, Grows, ServiceOk, TrimTo;
    var k := a.lastIncludedIndex;
    SafeLogs(w);
    AcceptSafe(w, i, k);
    SnapReqKept(w, Accept(w, i, k), a);
    SnapshottedOk(s, v, i, w, a);
  }

  /** Installing a snapshot on the trimmed log is adoption on the full log. */
  lemma SnapshotRefines(s: Server, F: Log, R: Log, a: SnapshotArgs)
    requires Wf(s) && Compacts(s, F) && Matching(F, R) && Agree(F, R, s.lastIncludedIndex)
    requires a.term >= s.currentTerm
    requires a.lastIncludedIndex < |R| && R[a.lastIncludedIndex].term == a.lastIncludedTerm
    ensures Compacts(InstallSnapshot(s, a).0, Adopt(F, R, a.lastIncludedIndex))
  {
    hide Matching;
    var k := a.lastIncludedIndex;
    if s.lastIncludedIndex < k < |F| && F[k].term == a.lastIncludedTerm {
      MatchingAt(F, R, k);
    }
  }

  lemma SnapshottedOk(s: Server, v: Service, i: nat, w: View, a: SnapshotArgs)
    requires Safe(w) && ServerOk(s, v, i, w) && SnapReqOk(w, a)
    requires s.role == Follower && s.currentTerm == a.term
    ensures var (s', r, d) := InstallSnapshot(s, a);
            ServerOk(s', AfterDelivery(v, d), i, Accept(w, i, a.lastIncludedIndex))
  {
    hide Safe, LogsOk, LeadersComplete, BallotsOk, AcksOk, Committed, Grows, TrimTo, Matching;
    var (s', r, d) := InstallSnapshot(s, a);
    var k := a.lastIncludedIndex;
    var F := w.logs[i];
    var R := w.reigns[a.term].log;
    var w' := Accept(w, i, k);
    var F' := w'.logs[i];
    SafeLogs(w);
    AcceptKeepsCommitted(w, i, k, s.commitIndex);
    ReignMatches(w, i, a.term);
    SnapshotRefines(s, F, R, a);
    AcceptSafe(w, i, k);
    if s.commitIndex < k {
      CommittedGrows(w, w', R, k, a.term, F', k, a.term);
    } else {
      CommittedGrows(w, w', F, s.commitIndex, a.term, F', s.commitIndex, a.term);
    }
    SnapshotPosted(s, s', v, F, F', a, d, w.ordered);
    hide ServiceOk;
    MovedOk(s, s', v, AfterDelivery(v, d), i, w, w');
  }

  /** A snapshot that replaces the log is put in line behind what was sent before. */
  lemma SnapshotPosted(s: Server, s': Server, v: Service, F: Log, F': Log, a: SnapshotArgs, d: Option<ApplyMsg>,
                       ordered: bool)
    requires Wf(s) && Compacts(s, F) && 0 <= s.lastIncludedIndex <= s.lastApplied < |F| && ServiceOk(s, v, F, ordered)
    requires a.term == s.currentTerm && (s', d) == (InstallSnapshot(s, a).0, InstallSnapshot(s, a).2)
    requires Compacts(s', F') && s'.lastApplied < |F'| && Agree(F, F', s.lastApplied)
    requires a.lastIncludedIndex < |F'| && (ordered ==> a.data == Commands(F', a.lastIncludedIndex))
    ensures ServiceOk(s', AfterDelivery(v, d), F', ordered)
  {
    hide TrimTo, InLine;
    if a.lastIncludedIndex <= s.lastIncludedIndex {
      ServiceMoves(s, s', v, F, F', ordered);
    } else if ordered {
      var m := d.value;
      forall k | 0 <= k < |v.pending|
        ensures OfLog(F', v.pending[k])
      {
        MessageMoves(F, F', v.pending[k], s.lastApplied);
      }
      assert Commands(F, |v.applied|) == Commands(F', |v.applied|);
      JoinLine(|v.applied|, v.lastApplied, v.pending, s.lastApplied, s.lastIncludedIndex, m, a.lastIncludedIndex);
      assert HistoryOk(s', Post(v, m), F');
    }
  }

  /** Trimming the log leaves the full log as it was. */
  lemma TakeSnapshotRefines(s: Server, F: Log, index: int, data: Data)
    requires Wf(s) && Compacts(s, F) && s.commitIndex <= LastLogIndex(s)
    ensures Compacts(TakeSnapshot(s, index, data), F)
  {
  }

  lemma SnapshotStep(c: Cluster, i: nat, index: nat)
    requires Inv(c) && Shape(c) && Enabled(c, Snapshot(i, index))
    ensures Inv(DoSnapshot(c, i, index)) && Grows(c.view, DoSnapshot(c, i, index).view)
  {
    hide Safe, LogsOk, ServerOk, Grows, TakeSnapshot;
    var c' := DoSnapshot(c, i, index);
    assert ServerOk(c.servers[i], c.services[i], i, c.view);
    SafeLogs(c.view);
    GrowsRefl(c.view);
    TrimmedOk(c.servers[i], c.services[i], i, c.view, index);
    StepKeeps(c, c', i);
  }

  lemma TrimmedOk(s: Server, v: Service, i: nat, w: View, index: nat)
    requires ServerOk(s, v, i, w) && index <= v.lastApplied
    ensures ServerOk(TakeSnapshot(s, index, SavedAt(v, index)), v, i, w)
  {
    hide Committed;
    var s' := TakeSnapshot(s, index, SavedAt(v, index));
    TakeSnapshotRefines(s, w.logs[i], index, SavedAt(v, index));
    ServiceTrimmed(s, v, w.logs[i], index, w.ordered);
    hide ServiceOk;
    LeaderSame(s, s', i, w, w);
  }

  lemma ServiceTrimmed(s: Server, v: Service, F: Log, index: nat, ordered: bool)
    requires Wf(s) && Compacts(s, F) && 0 <= s.lastApplied <= s.commitIndex < |F| && ServiceOk(s, v, F, ordered)
    requires index <= v.lastApplied
    requires Compacts(TakeSnapshot(s, index, SavedAt(v, index)), F)
    ensures ServiceOk(TakeSnapshot(s, index, SavedAt(v, index)), v, F, ordered)
  {
    hide InLine;
    if ordered && index > s.lastIncludedIndex {
      LineBase(|v.applied|, v.lastApplied, v.pending, s.lastApplied, s.lastIncludedIndex, index);
      assert v.applied[..index] == Commands(F, index);
    }
  }

  // ----- apply, delivery and restart -----

  lemma ApplyStep(c: Cluster, i: nat)
    requires Inv(c) && Shape(c) && Enabled(c, Apply(i))
    ensures Inv(DoApply(c, i)) && Grows(c.view, DoApply(c, i).view)
  {
    hide Safe, LogsOk, ServerOk, Grows, ApplyNext;
    var c' := DoApply(c, i);
    assert ServerOk(c.servers[i], c.services[i], i, c.view);
    SafeLogs(c.view);
    GrowsRefl(c.view);
    AppliedOk(c.servers[i], c.services[i], i, c.view);
    StepKeeps(c, c', i);
  }

  lemma AppliedOk(s: Server, v: Service, i: nat, w: View)
    requires ServerOk(s, v, i, w) && CanApply(s)
    ensures ServerOk(ApplyNext(s).0, Post(v, ApplyNext(s).1), i, w)
  {
    hide Committed;
    var s' := ApplyNext(s).0;
    CommandPosted(s, v, w.logs[i], w.ordered);
    hide ServiceOk;
    LeaderSame(s, s', i, w, w);
  }

  lemma CommandPosted(s: Server, v: Service, F: Log, ordered: bool)
    requires Wf(s) && Compacts(s, F) && 0 <= s.lastApplied <= s.commitIndex < |F| && ServiceOk(s, v, F, ordered)
    requires CanApply(s)
    ensures ServiceOk(ApplyNext(s).0, Post(v, ApplyNext(s).1), F, ordered)
  {
    hide InLine;
    if ordered {
      JoinLine(|v.applied|, v.lastApplied, v.pending, s.lastApplied, s.lastIncludedIndex, ApplyNext(s).1,
               s.lastIncludedIndex);
    }
  }

  lemma ReceiveStep(c: Cluster, i: nat, k: nat)
    requires Inv(c) && Shape(c) && Enabled(c, Receive(i, k))
    ensures Inv(DoReceive(c, i, k)) && Grows(c.view, DoReceive(c, i, k).view)
  {
    hide Safe, LogsOk, ServerOk, Grows, HandOver, Reorder;
    ReorderLocal(c.view, c.view.ordered && k == 0, i);
    var c' := DoReceive(c, i, k);
    assert ServerOk(c.servers[i], c.services[i], i, c.view);
    SafeLogs(c.view);
    ReorderSafe(c.view, c.view.ordered && k == 0);
    HandedOk(c.servers[i], c.services[i], i, c.view, k);
    StepKeeps(c, c', i);
  }

  lemma ReorderLocal(w: View, ordered: bool, i: nat)
    requires |w.terms| == |w.logs|
    ensures LocalTo(w, Reorder(w, ordered), i)
  {
  }

  lemma HandedOk(s: Server, v: Service, i: nat, w: View, k: nat)
    requires LogsOk(w) && ServerOk(s, v, i, w) && k < |v.pending|
    requires Grows(w, Reorder(w, w.ordered && k == 0))
    ensures ServerOk(s, HandOver(v, k), i, Reorder(w, w.ordered && k == 0))
  {
    hide LogsOk, Committed, Grows;
    var w' := Reorder(w, w.ordered && k == 0);
    ServiceHanded(s, v, w.logs[i], k, w.ordered);
    hide ServiceOk;
    LeaderSame(s, s, i, w, w');
    CommittedKept(w, w', w.logs[i], s.commitIndex, s.currentTerm);
  }

  lemma ServiceHanded(s: Server, v: Service, F: Log, k: nat, ordered: bool)
    requires Compacts(s, F) && 0 <= s.lastApplied < |F| && ServiceOk(s, v, F, ordered) && k < |v.pending|
    ensures ServiceOk(s, HandOver(v, k), F, ordered && k == 0)
  {
    var v' := HandOver(v, k);
    forall j | 0 <= j < |v'.pending|
      ensures v'.pending[j] == v.pending[if j < k then j else j + 1]
    {
    }
    if ordered && k == 0 {
      assert v'.pending == v.pending[1..];
      DeliverIff(F, v.(pending := v'.pending), v.pending[0]);
      assert Stands(F, v');
    }
  }

  lemma RestartStep(c: Cluster, i: nat, t: nat)
    requires Inv(c) && Shape(c) && Enabled(c, Restart(i, t))
    ensures Inv(DoRestart(c, i, t)) && Grows(c.view, DoRestart(c, i, t).view)
  {
    hide Safe, LogsOk, ServerOk, Seen, Observe, Boot;
    var c' := DoRestart(c, i, t);
    var s := c.servers[i];
    assert ServerOk(s, c.services[i], i, c.view);
    SeenSafe(c.view, i, t);
    ObserveOk(s, c.services[i], i, c.view, t);
    SafeLogs(c'.view);
    RestartedOk(Observe(s, t), c.services[i], i, c'.view);
    StepKeeps(c, c', i);
  }

  lemma RestartedOk(s: Server, v: Service, i: nat, w: View)
    requires LogsOk(w) && ServerOk(s, v, i, w)
    ensures ServerOk(Boot(s.me, s.peers, s.raftState, s.snapshot), Service(s.snapshot, 0, []), i, w)
  {
    hide LogsOk, Committed;
    GrowsRefl(w);
    CommittedGrows(w, w, w.logs[i], s.commitIndex, s.currentTerm, w.logs[i], s.lastIncludedIndex, s.currentTerm);
  }
}
