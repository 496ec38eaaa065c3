/** The invariant of the cluster, and that every step keeps it. */
module RaftSafety {
  import opened Counting
  import opened RaftTypes
  import opened RaftCore
  import opened RaftServer
  import opened RaftService
  import opened RaftCluster

  // ----- the trimmed log stands for the full one -----

  /** s keeps exactly the part of F after its snapshot, and the term in between. */
  ghost predicate Compacts(s: Server, F: Log) {
    && |s.log| >= 1
    && |F| == s.lastIncludedIndex + |s.log|
    && F[s.lastIncludedIndex].term == s.lastIncludedTerm && s.log[0] == Entry(s.lastIncludedTerm, "")
    && forall k :: s.lastIncludedIndex < k < |F| ==> F[k] == s.log[k - s.lastIncludedIndex]
  }

  // ----- the invariant -----

  ghost predicate LocalOk(s: Server, i: nat, n: nat) {
    && s.me == i < n && s.peers == n
    && Wf(s)
    && s.lastIncludedIndex <= s.lastApplied <= s.commitIndex <= LastLogIndex(s)
    && OnDisk(s) == Image(s)
    && -1 <= s.votedFor < n
  }

  ghost predicate VoteOk(s: Server, i: nat, w: View) {
    && ((s.currentTerm, i) in w.ballots <==> s.votedFor != -1)
    && (s.votedFor != -1 ==> w.ballots[(s.currentTerm, i)].cand == s.votedFor)
  }

  ghost predicate CandidateOk(s: Server, i: nat, w: View)
    requires i < |w.logs|
  {
    s.role == Candidate ==>
      && IsCandidacy(w, s.currentTerm, i)
      && w.ballots[(s.currentTerm, i)].log == w.logs[i]
      && (s.currentTerm in w.reigns ==> w.reigns[s.currentTerm].leader != i)
      && s.votes <= Ids(|w.logs|)
      && forall p :: p in s.votes ==> (s.currentTerm, p) in w.ballots && w.ballots[(s.currentTerm, p)].cand == i
  }

  ghost predicate PeerOk(s: Server, w: View, p: nat)
    requires p < |s.nextIndex| == |s.matchIndex|
  {
    && 1 <= s.nextIndex[p] <= LastLogIndex(s) + 1
    && 0 <= s.matchIndex[p]
    && (s.matchIndex[p] > 0 ==> Acked(w, s.currentTerm, p, s.matchIndex[p]))
  }

  ghost predicate LeaderOk(s: Server, i: nat, w: View)
    requires i < |w.logs| && |w.logs[i]| >= 1
  {
    s.role == Leader ==>
      && CanExtend(w, i)
      && Acked(w, s.currentTerm, i, |w.logs[i]| - 1)
      && |s.nextIndex| == |s.matchIndex| == |w.logs|
      && forall p: nat :: p < |w.logs| ==> PeerOk(s, w, p)
  }

  /** Nothing a service has got or will get is past what its peer has applied.  As long as
      all messages came in order, snapshots and services stand for the log. */
  ghost predicate ServiceOk(s: Server, v: Service, F: Log, ordered: bool)
    requires Compacts(s, F) && 0 <= s.lastApplied < |F|
  {
    && v.lastApplied <= s.lastApplied
    && (forall k :: 0 <= k < |v.pending| ==> 1 <= v.pending[k].index <= s.lastApplied)
    && (ordered ==> HistoryOk(s, v, F))
  }

  ghost predicate HistoryOk(s: Server, v: Service, F: Log)
    requires Compacts(s, F) && 0 <= s.lastApplied < |F|
  {
    && s.snapshot == Commands(F, s.lastIncludedIndex)
    && Stands(F, v) && |v.applied| <= s.lastApplied
    && (forall k :: 0 <= k < |v.pending| ==> OfLog(F, v.pending[k]))
    && InLine(|v.applied|, v.lastApplied, v.pending, s.lastApplied, s.lastIncludedIndex)
  }

  ghost predicate ServerOk(s: Server, v: Service, i: nat, w: View) {
    && i < |w.terms| == |w.logs|
    && LocalOk(s, i, |w.terms|)
    && s.currentTerm == w.terms[i]
    && Compacts(s, w.logs[i])
    && VoteOk(s, i, w)
    && CandidateOk(s, i, w)
    && LeaderOk(s, i, w)
    && Committed(w, w.logs[i], s.commitIndex, s.currentTerm)
    && ServiceOk(s, v, w.logs[i], w.ordered)
  }

  ghost predicate VoteReqOk(w: View, src: nat, a: RequestVoteArgs) {
    && a.candidateId == src < |w.terms|
    && IsCandidacy(w, a.term, src)
    && var L := w.ballots[(a.term, src)].log;
    |L| >= 1 && a.lastLogIndex == LastIndex(L) && a.lastLogTerm == LastTerm(L)
  }

  ghost predicate AppReqOk(w: View, a: AppendArgs) {
    && a.term in w.reigns
    && var R := w.reigns[a.term].log;
    && 0 <= a.prevLogIndex && a.prevLogIndex + |a.entries| < |R|
    && R[a.prevLogIndex].term == a.prevLogTerm
    && (forall k :: 0 <= k < |a.entries| ==> a.entries[k] == R[a.prevLogIndex + 1 + k])
    && 0 <= a.leaderCommit <= a.prevLogIndex + |a.entries|
    && Committed(w, R, a.leaderCommit, a.term)
  }

  ghost predicate AppRepOk(w: View, src: nat, a: AppendArgs, r: AppendReply) {
    && AppReqOk(w, a)
    && a.term <= r.term
    && (r.success ==> Acked(w, a.term, src, a.prevLogIndex + |a.entries|))
    && (!r.success && r.term == a.term ==> r.conflictIndex <= |w.reigns[a.term].log|)
  }

  ghost predicate SnapReqOk(w: View, a: SnapshotArgs) {
    && a.term in w.reigns
    && var R := w.reigns[a.term].log;
    && a.lastIncludedIndex < |R|
    && R[a.lastIncludedIndex].term == a.lastIncludedTerm
    && (w.ordered ==> a.data == Commands(R, a.lastIncludedIndex))
    && Committed(w, R, a.lastIncludedIndex, a.term)
  }

  ghost predicate SnapRepOk(w: View, src: nat, a: SnapshotArgs, r: SnapshotReply) {
    && SnapReqOk(w, a)
    && a.term <= r.term
    && (r.term == a.term ==> Acked(w, a.term, src, a.lastIncludedIndex))
  }

  ghost predicate MsgOk(w: View, m: Msg) {
    && m.src < |w.terms|
    && m.dst < |w.terms|
    && match m
       case VoteReq(src, dst, a) => VoteReqOk(w, src, a)
       case VoteRep(src, dst, a, r) =>
         && VoteReqOk(w, dst, a)
         && a.term <= r.term
         && (r.voteGranted ==> (a.term, src) in w.ballots && w.ballots[(a.term, src)].cand == dst)
       case AppReq(src, dst, a) => AppReqOk(w, a)
       case AppRep(src, dst, a, r) => AppRepOk(w, src, a, r)
       case SnapReq(src, dst, a) => SnapReqOk(w, a)
       case SnapRep(src, dst, a, r) => SnapRepOk(w, src, a, r)
  }

  ghost predicate ServersOk(c: Cluster) {
    && |c.servers| == |c.services| == |c.view.terms| == |c.view.logs|
    && forall i :: 0 <= i < |c.servers| ==> ServerOk(c.servers[i], c.services[i], i, c.view)
  }

  ghost predicate NetOk(c: Cluster) {
    forall m :: m in c.net ==> MsgOk(c.view, m)
  }

  ghost predicate Inv(c: Cluster) {
    Safe(c.view) && ServersOk(c) && NetOk(c)
  }

  // ----- frames -----

  /** Only server i's part of the view changed. */
  ghost predicate LocalTo(w: View, w': View, i: nat) {
    && |w'.terms| == |w.terms| == |w'.logs| == |w.logs|
    && (forall j :: 0 <= j < |w.terms| && j != i ==> w'.terms[j] == w.terms[j] && w'.logs[j] == w.logs[j])
    && (forall b :: b in w'.ballots ==> b in w.ballots || b.1 == i)
    && (forall t :: t in w'.reigns ==> (t in w.reigns && w'.reigns[t] == w.reigns[t]) || w'.reigns[t].leader == i)
  }

  lemma CommittedKept(w: View, w': View, L: Log, ci: nat, u: nat)
    requires Committed(w, L, ci, u) && Grows(w, w')
    requires LogsOk(w)
    ensures Committed(w', L, ci, u)
  {
    CommittedRoot(w, L, ci, u);
    CommittedGrows(w, w', L, ci, u, L, ci, u);
  }

  lemma OtherServerOk(c: Cluster, w': View, i: nat, j: nat)
    requires LogsOk(c.view) && ServersOk(c) && Grows(c.view, w') && LocalTo(c.view, w', i)
    requires j < |c.servers| && j != i
    ensures ServerOk(c.servers[j], c.services[j], j, w')
  {
    var s := c.servers[j];
    CommittedKept(c.view, w', c.view.logs[j], s.commitIndex, s.currentTerm);
    if s.role == Leader {
      forall p: nat | p < |w'.logs|
        ensures PeerOk(s, w', p)
      {
        assert PeerOk(s, c.view, p);
      }
    }
  }

  /** Messages stay good as the view grows. */
  lemma ReignLonger(w: View, w': View, t: nat, ci: int, u: nat)
    requires LogsOk(w) && Grows(w, w') && t in w.reigns
    requires 0 <= ci < |w.reigns[t].log| && Committed(w, w.reigns[t].log, ci, u)
    ensures t in w'.reigns && |w.reigns[t].log| <= |w'.reigns[t].log|
    ensures Agree(w.reigns[t].log, w'.reigns[t].log, |w.reigns[t].log| - 1)
    ensures Committed(w', w'.reigns[t].log, ci, u)
  {
    CommittedGrows(w, w', w.reigns[t].log, ci, u, w'.reigns[t].log, ci, u);
  }

  lemma MsgKept(w: View, w': View, m: Msg)
    requires LogsOk(w) && Grows(w, w') && MsgOk(w, m)
    ensures MsgOk(w', m)
  {
    match m
    case VoteReq(_, _, _) =>
    case VoteRep(_, _, _, _) =>
    case AppReq(_, _, a) => AppReqKept(w, w', a);
    case AppRep(_, _, a, _) => AppReqKept(w, w', a);
    case SnapReq(_, _, a) => SnapReqKept(w, w', a);
    case SnapRep(_, _, a, _) => SnapReqKept(w, w', a);
  }

  lemma AppReqKept(w: View, w': View, a: AppendArgs)
    requires LogsOk(w) && Grows(w, w') && AppReqOk(w, a)
    ensures AppReqOk(w', a) && |w.reigns[a.term].log| <= |w'.reigns[a.term].log|
  {
    ReignLonger(w, w', a.term, a.leaderCommit, a.term);
  }

  lemma SnapReqKept(w: View, w': View, a: SnapshotArgs)
    requires LogsOk(w) && Grows(w, w') && SnapReqOk(w, a)
    ensures SnapReqOk(w', a)
  {
    ReignLonger(w, w', a.term, a.lastIncludedIndex, a.term);
  }

  /** A step of server i keeps the invariant when the view stays safe and grows,
      server i is good afterwards, and so are the messages it sent. */
  lemma StepKeeps(c: Cluster, c': Cluster, i: nat)
    requires Inv(c) && i < |c.servers|
    requires Safe(c'.view) && Grows(c.view, c'.view) && LocalTo(c.view, c'.view, i)
    requires |c'.servers| == |c'.services| == |c.servers|
    requires forall j :: 0 <= j < |c.servers| && j != i ==>
               c'.servers[j] == c.servers[j] && c'.services[j] == c.services[j]
    requires ServerOk(c'.servers[i], c'.services[i], i, c'.view)
    requires forall m :: m in c'.net && m !in c.net ==> MsgOk(c'.view, m)
    ensures Inv(c')
  {
    forall j | 0 <= j < |c'.servers|
      ensures ServerOk(c'.servers[j], c'.services[j], j, c'.view)
    {
      if j != i {
        OtherServerOk(c, c'.view, i, j);
      }
    }
    forall m | m in c'.net
      ensures MsgOk(c'.view, m)
    {
      if m in c.net {
        MsgKept(c.view, c'.view, m);
      }
    }
  }
}
