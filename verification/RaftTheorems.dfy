/** What holds in every run of a cluster of any size: through lost, late, repeated
    and reordered messages, crashes, restarts and snapshots. */
module RaftTheorems {
  import opened RaftTypes
  import opened RaftCore
  import opened RaftServer
  import opened RaftService
  import opened RaftCluster
  import opened RaftSafety
  import opened RaftSteps
  import opened RaftLogSteps

  lemma InitInv(n: nat)
    ensures Inv(Init(n))
  {
    var c := Init(n);
    forall i | 0 <= i < n
      ensures ServerOk(c.servers[i], c.services[i], i, c.view)
    {
    }
  }

  lemma StepInv(c: Cluster, e: Step)
    requires Inv(c) && Shape(c) && Enabled(c, e)
    ensures Inv(Next(c, e)) && Grows(c.view, Next(c, e).view)
  {
    hide Inv, Grows;
    match e
    case Timeout(i) => TimeoutStep(c, i);
    case RecvVoteReq(m) => VoteReqStep(c, m);
    case RecvVoteRep(m) => VoteRepStep(c, m);
    case ClientStart(i, cmd) => StartStep(c, i, cmd);
    case Replicate(i, p) => ReplicateStep(c, i, p);
    case RecvAppReq(m) => AppReqStep(c, m);
    case RecvAppRep(m) => AppRepStep(c, m);
    case RecvSnapReq(m) => SnapReqStep(c, m);
    case RecvSnapRep(m) => SnapRepStep(c, m);
    case Snapshot(i, index) => SnapshotStep(c, i, index);
    case Apply(i) => ApplyStep(c, i);
    case Receive(i, k) => ReceiveStep(c, i, k);
    case Restart(i, t) => RestartStep(c, i, t);
  }

  /** The invariant holds in every state of every run. */
  lemma {:induction false} RunInv(cs: seq<Cluster>, es: seq<Step>, k: nat)
    requires IsRun(cs, es) && k < |cs|
    ensures Inv(cs[k]) && Shape(cs[k])
  {
    hide Inv, Init;
    if k == 0 {
      InitInv(|cs[0].servers|);
    } else {
      RunInv(cs, es, k - 1);
      StepInv(cs[k - 1], es[k - 1]);
    }
    InvShape(cs[k]);
  }

  lemma {:induction false} RunGrows(cs: seq<Cluster>, es: seq<Step>, a: nat, b: nat)
    requires IsRun(cs, es) && a <= b < |cs|
    ensures Grows(cs[a].view, cs[b].view)
    decreases b - a
  {
    hide Inv, Grows, Safe, Init, Next;
    RunInv(cs, es, a);
    if a < b {
      StepInv(cs[a], es[a]);
      RunGrows(cs, es, a + 1, b);
      GrowsTrans(cs[a].view, cs[a + 1].view, cs[b].view);
    } else {
      InvParts(cs[a]);
      GrowsRefl(cs[a].view);
    }
  }

  lemma InvParts(c: Cluster)
    requires Inv(c)
    ensures Safe(c.view) && LogsOk(c.view) && LeadersComplete(c.view)
    ensures forall i :: 0 <= i < |c.servers| ==> ServerOk(c.servers[i], c.services[i], i, c.view)
    ensures |c.servers| == |c.services| == |c.view.terms| == |c.view.logs|
    ensures forall m :: m in c.net ==> MsgOk(c.view, m)
  {
  }

  /** A server of some state of a run, with what is known about it. */
  lemma ServerAt(cs: seq<Cluster>, es: seq<Step>, k: nat, i: nat)
    requires IsRun(cs, es) && k < |cs| && i < |cs[k].servers|
    ensures |cs[k].servers| == |cs[k].services| == |cs[k].view.logs|
    ensures ServerOk(cs[k].servers[i], cs[k].services[i], i, cs[k].view)
    ensures LogsOk(cs[k].view) && LeadersComplete(cs[k].view)
  {
    hide IsRun, Inv, Safe, LogsOk, LeadersComplete, ServerOk;
    RunInv(cs, es, k);
    InvParts(cs[k]);
  }

  // ----- Election Safety -----

  /** At most one server is ever leader of a term, over the whole run. */
  lemma ElectionSafety(cs: seq<Cluster>, es: seq<Step>, a: nat, b: nat, i: nat, j: nat)
    requires IsRun(cs, es) && a <= b < |cs| && i < |cs[a].servers| && j < |cs[b].servers|
    requires cs[a].servers[i].role == Leader && cs[b].servers[j].role == Leader
    requires cs[a].servers[i].currentTerm == cs[b].servers[j].currentTerm
    ensures i == j
  {
    hide IsRun, LogsOk, LeadersComplete, ServiceOk, Committed;
    ServerAt(cs, es, a, i);
    ServerAt(cs, es, b, j);
    RunGrows(cs, es, a, b);
  }

  // ----- Log Matching -----

  /** Full logs with the same term at an index are identical up to it, and terms
      never decrease along a log. */
  lemma LogMatching(cs: seq<Cluster>, es: seq<Step>, c: nat, i: nat, j: nat, k: nat)
    requires IsRun(cs, es) && c < |cs| && i < |cs[c].servers| && j < |cs[c].servers|
    ensures |cs[c].view.logs| == |cs[c].servers|
    ensures var A, B := cs[c].view.logs[i], cs[c].view.logs[j];
            && (k < |A| && k < |B| && A[k].term == B[k].term ==> Agree(A, B, k))
            && (forall l: nat :: l <= k < |A| ==> A[l].term <= A[k].term)
  {
    hide IsRun, LeadersComplete, ServerOk;
    ServerAt(cs, es, c, i);
    ServerAt(cs, es, c, j);
    var w := cs[c].view;
    var A, B := w.logs[i], w.logs[j];
    if k < |A| && k < |B| && A[k].term == B[k].term {
      SameTermSamePrefix(w.reigns, A, B, k);
    }
    forall l: nat | l <= k < |A|
      ensures A[l].term <= A[k].term
    {
      assert Ordered(A, l, k);
    }
  }

  /** Log Matching on what the peers really store. */
  lemma StoredLogMatching(cs: seq<Cluster>, es: seq<Step>, c: nat, i: nat, j: nat, k: nat, l: nat)
    requires IsRun(cs, es) && c < |cs| && i < |cs[c].servers| && j < |cs[c].servers|
    requires var s, r := cs[c].servers[i], cs[c].servers[j];
             && s.lastIncludedIndex < l <= k <= LastLogIndex(s) && r.lastIncludedIndex < l && k <= LastLogIndex(r)
             && TermAt(s, k) == TermAt(r, k)
    ensures var s, r := cs[c].servers[i], cs[c].servers[j];
            s.log[l - s.lastIncludedIndex] == r.log[l - r.lastIncludedIndex]
  {
    hide IsRun, LogsOk, LeadersComplete, ServiceOk, Committed, VoteOk, CandidateOk, LeaderOk;
    LogMatching(cs, es, c, i, j, k);
    ServerAt(cs, es, c, i);
    ServerAt(cs, es, c, j);
    var A, B := cs[c].view.logs[i], cs[c].view.logs[j];
    assert A[k].term == B[k].term && A[l] == B[l];
  }

  // ----- commitment -----

  /** A prefix committed in one state is still committed in every later one. */
  lemma CommittedLater(cs: seq<Cluster>, es: seq<Step>, a: nat, b: nat, i: nat)
    requires IsRun(cs, es) && a <= b < |cs| && i < |cs[a].servers|
    ensures |cs[a].view.logs| == |cs[a].servers|
    ensures cs[a].servers[i].commitIndex >= 0
    ensures Committed(cs[b].view, cs[a].view.logs[i], cs[a].servers[i].commitIndex, cs[a].servers[i].currentTerm)
  {
    hide IsRun, LogsOk, LeadersComplete, ServiceOk, Committed, Grows;
    var s := cs[a].servers[i];
    ServerAt(cs, es, a, i);
    RunGrows(cs, es, a, b);
    CommittedKept(cs[a].view, cs[b].view, cs[a].view.logs[i], s.commitIndex, s.currentTerm);
  }

  /** Leader Completeness: a leader holds everything any server has committed, at any
      moment of the run in a lower term, or so far in the leader's own term. */
  lemma LeadersHoldCommitted(cs: seq<Cluster>, es: seq<Step>, a: nat, b: nat, i: nat, j: nat)
    requires IsRun(cs, es) && a < |cs| && b < |cs| && i < |cs[a].servers| && j < |cs[b].servers|
    requires cs[b].servers[j].role == Leader
    requires var u, t := cs[a].servers[i].currentTerm, cs[b].servers[j].currentTerm; u < t || (u == t && a <= b)
    ensures |cs[a].view.logs| == |cs[a].servers| && |cs[b].view.logs| == |cs[b].servers|
    ensures Agree(cs[a].view.logs[i], cs[b].view.logs[j], cs[a].servers[i].commitIndex)
  {
    hide IsRun, LogsOk, LeadersComplete, ServiceOk, Committed, Grows;
    ServerAt(cs, es, a, i);
    ServerAt(cs, es, b, j);
    var s, t := cs[a].servers[i], cs[b].servers[j].currentTerm;
    if a <= b {
      CommittedLater(cs, es, a, b, i);
      LeaderCompleteness(cs[b].view, cs[a].view.logs[i], s.commitIndex, s.currentTerm, t);
    } else {
      RunGrows(cs, es, b, a);
      CommittedSeenBefore(cs[b].view, cs[a].view, cs[a].view.logs[i], s.commitIndex, s.currentTerm, t);
    }
  }

  /** What is committed later was already in the logs of leaders of higher terms. */
  lemma CommittedSeenBefore(w: View, w': View, L: Log, ci: nat, u: nat, t: nat)
    requires LogsOk(w) && LeadersComplete(w) && Grows(w, w') && LogsOk(w')
    requires Committed(w', L, ci, u) && t in w.reigns && u < t
    ensures Agree(L, w.reigns[t].log, ci)
  {
    hide LogsOk, WfLog;
    CommittedRoot(w', L, ci, u);
    ReignRoot(w, t);
    if !(ci == 0 && |L| >= 1 && L[0] == SENTINEL) {
      var t0: nat, k: nat :| CommittedBy(w', L, ci, u, t0, k);
      ChosenIsChoosable(w', t0, k);
      ChoosableShrinks(w, w', t0, k);
      assert Has(w, w.reigns[t].log, t0, k);
    }
  }

  lemma ReignRoot(w: View, t: nat)
    requires LogsOk(w) && t in w.reigns
    ensures |w.reigns[t].log| >= 1 && w.reigns[t].log[0] == SENTINEL
  {
    assert WfLog(w.reigns, w.reigns[t].log);
  }

  /** State Machine Safety: any two servers, at any two moments of the run, agree on
      every entry up to the smaller of their commit indices. */
  lemma StateMachineSafety(cs: seq<Cluster>, es: seq<Step>, a: nat, b: nat, i: nat, j: nat, k: nat)
    requires IsRun(cs, es) && a < |cs| && b < |cs| && i < |cs[a].servers| && j < |cs[b].servers|
    requires k <= cs[a].servers[i].commitIndex && k <= cs[b].servers[j].commitIndex
    ensures |cs[a].view.logs| == |cs[a].servers| && |cs[b].view.logs| == |cs[b].servers|
    ensures Agree(cs[a].view.logs[i], cs[b].view.logs[j], k)
  {
    hide IsRun, LogsOk, LeadersComplete, Committed, Grows;
    var m := if a <= b then b else a;
    CommittedLater(cs, es, a, m, i);
    CommittedLater(cs, es, b, m, j);
    RunInv(cs, es, m);
    InvParts(cs[m]);
    var s, r := cs[a].servers[i], cs[b].servers[j];
    var A, B := cs[a].view.logs[i], cs[b].view.logs[j];
    if s.commitIndex <= r.commitIndex {
      CommittedAgree(cs[m].view, A, s.commitIndex, s.currentTerm, B, r.commitIndex, r.currentTerm);
    } else {
      CommittedAgree(cs[m].view, B, r.commitIndex, r.currentTerm, A, s.commitIndex, s.currentTerm);
    }
  }

  // ----- what the services see -----

  /** Up to state n every service took the oldest of the messages waiting for it. */
  ghost predicate InOrder(es: seq<Step>, n: nat)
    requires n <= |es|
  {
    forall k :: 0 <= k < n && es[k].Receive? ==> es[k].k == 0
  }

  lemma {:induction false} OrderKnown(cs: seq<Cluster>, es: seq<Step>, n: nat)
    requires IsRun(cs, es) && n < |cs|
    ensures cs[n].view.ordered <==> InOrder(es, n)
    decreases n
  {
    hide Inv, Shape, Enabled, Put, Seen, AcceptIf, Next;
    if n > 0 {
      OrderKnown(cs, es, n - 1);
      StepOrder(cs[n - 1], es[n - 1]);
    }
  }

  lemma StepOrder(c: Cluster, e: Step)
    requires Shape(c) && Enabled(c, e)
    ensures Next(c, e).view.ordered <==> c.view.ordered && (e.Receive? ==> e.k == 0)
  {
    hide StartElection, RequestVote, VoteReply, AppendEntries, AppendReplied, InstallSnapshot, SnapshotReplied,
         TakeSnapshot, Boot, ApplyNext, Observe, Seen, AcceptIf, HandOver, AppendArgsFor, SnapshotArgsFor, Start;
    match e
    case RecvVoteReq(m) => SeenOrder(c.view, m.dst, m.vote.term);
    case RecvVoteRep(m) =>
      SeenOrder(c.view, m.dst, VoteReply(c.servers[m.dst], m.vote.term, m.src, m.voteReply).currentTerm);
    case RecvAppReq(m) =>
      SeenOrder(c.view, m.dst, m.app.term);
      AcceptOrder(Seen(c.view, m.dst, m.app.term), m.dst, m.app.prevLogIndex + |m.app.entries|);
    case RecvAppRep(m) =>
      SeenOrder(c.view, m.dst, AppendReplied(c.servers[m.dst], m.src, m.app, m.appReply).currentTerm);
    case RecvSnapReq(m) =>
      SeenOrder(c.view, m.dst, m.snap.term);
      AcceptOrder(Seen(c.view, m.dst, m.snap.term), m.dst, m.snap.lastIncludedIndex);
    case RecvSnapRep(m) =>
      SeenOrder(c.view, m.dst, SnapshotReplied(c.servers[m.dst], m.src, m.snap, m.snapReply).currentTerm);
    case Restart(i, t) => SeenOrder(c.view, i, t);
    case _ =>
  }

  lemma SeenOrder(w: View, i: nat, t: nat)
    requires i < |w.terms|
    ensures Seen(w, i, t).ordered == w.ordered
  {
  }

  lemma AcceptOrder(w: View, i: nat, m: int)
    ensures AcceptIf(w, i, m).ordered == w.ordered
  {
  }

  lemma HistoryAt(cs: seq<Cluster>, es: seq<Step>, a: nat, i: nat)
    requires IsRun(cs, es) && a < |cs| && i < |cs[a].servers| && InOrder(es, a)
    ensures |cs[a].servers| == |cs[a].services| == |cs[a].view.logs|
    ensures var s, F := cs[a].servers[i], cs[a].view.logs[i];
            Compacts(s, F) && 0 <= s.lastApplied <= s.commitIndex < |F| && HistoryOk(s, cs[a].services[i], F)
  {
    hide IsRun, InOrder, LogsOk, LeadersComplete, Committed, VoteOk, CandidateOk, LeaderOk, HistoryOk;
    ServerAt(cs, es, a, i);
    OrderKnown(cs, es, a);
  }

  /** When messages arrive in the order they were made, of any two services at any two
      moments one has applied a prefix of what the other has, by commands, snapshots or
      restarts, and neither is ahead of its peer. */
  lemma ServicesAgree(cs: seq<Cluster>, es: seq<Step>, a: nat, b: nat, i: nat, j: nat)
    requires IsRun(cs, es) && a < |cs| && b < |cs| && i < |cs[a].servers| && j < |cs[b].servers|
    requires InOrder(es, a) && InOrder(es, b)
    ensures |cs[a].services| == |cs[a].servers| && |cs[b].services| == |cs[b].servers|
    ensures cs[a].services[i].applied <= cs[b].services[j].applied ||
              cs[b].services[j].applied <= cs[a].services[i].applied
    ensures |cs[a].services[i].applied| <= cs[a].servers[i].lastApplied
  {
    hide IsRun, InOrder, InLine;
    HistoryAt(cs, es, a, i);
    HistoryAt(cs, es, b, j);
    var p, q := |cs[a].services[i].applied|, |cs[b].services[j].applied|;
    StateMachineSafety(cs, es, a, b, i, j, if p <= q then p else q);
  }

  /** As long as all messages came in order: the next one to arrive, whichever it is,
      leaves its service standing for a prefix of the log exactly when it is refused, is
      a snapshot, or is the command that comes next. */
  lemma ArrivalIff(cs: seq<Cluster>, es: seq<Step>, c: nat, i: nat, k: nat)
    requires IsRun(cs, es) && c < |cs| && InOrder(es, c) && Shape(cs[c]) && Enabled(cs[c], Receive(i, k))
    ensures var v, F := cs[c].services[i], cs[c].view.logs[i];
            var m := v.pending[k];
            && Stands(F, v)
            && (Stands(F, HandOver(v, k)) <==> m.index <= v.lastApplied || m.SnapshotMsg? || m.index == |v.applied| + 1)
  {
    hide IsRun, InOrder, InLine;
    HistoryAt(cs, es, c, i);
    var v := cs[c].services[i];
    DeliverIff(cs[c].view.logs[i], v.(pending := v.pending[..k] + v.pending[k + 1..]), v.pending[k]);
  }

  // ----- the trimmed log -----

  /** Every reachable peer stores exactly the end of its full log after its snapshot,
      its indices are in order, and its disk holds its current term, vote and log.  Its
      snapshot is the state after the entries before, as long as messages came in order. */
  lemma TrimmedLogStandsForFull(cs: seq<Cluster>, es: seq<Step>, c: nat, i: nat)
    requires IsRun(cs, es) && c < |cs| && i < |cs[c].servers|
    ensures |cs[c].view.logs| == |cs[c].servers|
    ensures var s, F := cs[c].servers[i], cs[c].view.logs[i];
            && Compacts(s, F)
            && s.lastIncludedIndex <= s.lastApplied <= s.commitIndex <= LastLogIndex(s)
            && OnDisk(s) == Image(s)
            && (InOrder(es, c) ==> s.snapshot == Commands(F, s.lastIncludedIndex))
  {
    hide IsRun, InOrder, LogsOk, LeadersComplete, Committed, InLine;
    ServerAt(cs, es, c, i);
    OrderKnown(cs, es, c);
  }

  /** A leader's nextIndex always points into its log or just past it, so every
      request it builds reads entries that exist. */
  lemma SendsInRange(cs: seq<Cluster>, es: seq<Step>, c: nat, i: nat, p: nat)
    requires IsRun(cs, es) && c < |cs| && i < |cs[c].servers| && p < |cs[c].servers| && p != i
    requires cs[c].servers[i].role == Leader
    ensures Shape(cs[c]) && Enabled(cs[c], Replicate(i, p))
  {
    hide IsRun, LogsOk, LeadersComplete, Committed, Inv;
    RunInv(cs, es, c);
    ServerAt(cs, es, c, i);
    assert PeerOk(cs[c].servers[i], cs[c].view, p);
  }

  function Handle(m: Msg): Step {
    match m
    case VoteReq(_, _, _) => RecvVoteReq(m)
    case VoteRep(_, _, _, _) => RecvVoteRep(m)
    case AppReq(_, _, _) => RecvAppReq(m)
    case AppRep(_, _, _, _) => RecvAppRep(m)
    case SnapReq(_, _, _) => RecvSnapReq(m)
    case SnapRep(_, _, _, _) => RecvSnapRep(m)
  }

  /** Every message ever sent can be handled at any time: no handler indexes outside the
      peers it keeps track of. */
  lemma ReceivesInRange(cs: seq<Cluster>, es: seq<Step>, c: nat, m: Msg)
    requires IsRun(cs, es) && c < |cs| && m in cs[c].net
    ensures Shape(cs[c]) && Enabled(cs[c], Handle(m))
  {
    hide IsRun, LogsOk, LeadersComplete, Committed, Inv, Safe, ServiceOk, CandidateOk, VoteOk;
    RunInv(cs, es, c);
    InvParts(cs[c]);
    assert MsgOk(cs[c].view, m);
    assert ServerOk(cs[c].servers[m.dst], cs[c].services[m.dst], m.dst, cs[c].view);
  }

  /** A follower that accepts a request commits up to the smaller of the leader's
      commit index and the last entry the request covers, though it compares with the
      end of its own log. */
  lemma FollowerCommitRule(cs: seq<Cluster>, es: seq<Step>, c: nat, m: Msg)
    requires IsRun(cs, es) && c < |cs| && m in cs[c].net && m.AppReq? && m.dst < |cs[c].servers|
    requires Wf(cs[c].servers[m.dst]) && AppendEntries(cs[c].servers[m.dst], m.app).1.success
    ensures var s := cs[c].servers[m.dst];
            var lastNew := m.app.prevLogIndex + |m.app.entries|;
            var upTo := if m.app.leaderCommit < lastNew then m.app.leaderCommit else lastNew;
            AppendEntries(s, m.app).0.commitIndex == if upTo > s.commitIndex then upTo else s.commitIndex
  {
    hide IsRun, LogsOk, LeadersComplete, Committed, Merge, FirstOfTerm, ServerOk, Inv;
    RunInv(cs, es, c);
    InvParts(cs[c]);
    assert MsgOk(cs[c].view, m);
    AcceptedReaches(cs[c].servers[m.dst], m.app);
  }

  lemma AcceptedReaches(s: Server, a: AppendArgs)
    requires Wf(s) && AppendEntries(s, a).1.success
    ensures LastLogIndex(AppendEntries(s, a).0) >= a.prevLogIndex + |a.entries|
  {
    hide Merge, FirstOfTerm;
    var b := Clamp(s, a);
    MergeReaches(s.log, b.prevLogIndex - s.lastIncludedIndex + 1, b.entries);
  }

  lemma {:induction false} MergeReaches(log: Log, at: nat, es: seq<Entry>)
    requires at <= |log|
    ensures |Merge(log, at, es)| >= at + |es|
    decreases |es|
  {
    if es != [] && at < |log| && log[at].term == es[0].term {
      MergeReaches(log, at + 1, es[1..]);
    }
  }

  // ----- what Raft asks of the service -----

  /** Trimming keeps the snapshot behind what has been applied exactly when the
      service has applied that index, or the call is one Raft ignores.  Nothing in
      Snapshot checks this. */
  lemma SnapshotWithinApplied(s: Server, index: int, data: Data)
    requires Wf(s) && s.lastIncludedIndex <= s.lastApplied <= s.commitIndex <= LastLogIndex(s)
    ensures var s' := TakeSnapshot(s, index, data);
            s'.lastIncludedIndex <= s'.lastApplied <==> index <= s.lastApplied || index > s.commitIndex
  {
  }

  /** A snapshot of an index that is committed but not applied stops an applier that
      could go on. */
  lemma EarlySnapshotStalls(s: Server, index: int, data: Data)
    requires Wf(s) && s.lastIncludedIndex <= s.lastApplied < index <= s.commitIndex <= LastLogIndex(s)
    ensures !CanApply(TakeSnapshot(s, index, data)) && CanApply(s)
  {
  }
}
