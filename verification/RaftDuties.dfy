/** What a peer must do, and not only may: when a vote is given, an election won, a request
    accepted, an entry committed, a snapshot stored, in every reachable state and in terms
    of the untrimmed logs and the votes cast. */
module RaftDuties {
  import opened Common
  import opened Counting
  import opened RaftTypes
  import opened RaftCore
  import opened RaftServer
  import opened RaftService
  import opened RaftCluster
  import opened RaftSafety
  import opened RaftSteps
  import opened RaftCompaction
  import opened RaftLogSteps
  import opened RaftTheorems

  // ----- elections -----

  /** Peer d has not voted for anybody else in term t. */
  ghost predicate VoteFree(w: View, t: nat, d: nat, cand: nat) {
    (t, d) in w.ballots ==> w.ballots[(t, d)].cand == cand
  }

  /** A vote is given exactly if the term is not over, the peer has not voted for another
      candidate in it, and the candidate's log is at least as up-to-date as its own. */
  lemma VoteIff(cs: seq<Cluster>, es: seq<Step>, k: nat, m: Msg)
    requires IsRun(cs, es) && k < |cs| && m in cs[k].net && m.VoteReq?
    ensures m.dst < |cs[k].servers| == |cs[k].view.terms| == |cs[k].view.logs| && Wf(cs[k].servers[m.dst])
    ensures var w, d, a := cs[k].view, m.dst, m.vote;
            var s, (s', r) := cs[k].servers[d], RequestVote(cs[k].servers[d], a);
            && |w.logs[d]| >= 1
            && (r.voteGranted <==>
                  && a.term >= w.terms[d] && VoteFree(w, a.term, d, a.candidateId)
                  && UpToDate(a.lastLogIndex, a.lastLogTerm, w.logs[d]))
            && r.term == s'.currentTerm == (if a.term > w.terms[d] then a.term else w.terms[d])
            && s'.role == (if a.term > w.terms[d] then Follower else s.role)
            && s'.votedFor == (if r.voteGranted then a.candidateId else if a.term > w.terms[d] then -1 else s.votedFor)
            && OnDisk(s') == Image(s') && s'.log == s.log && s'.commitIndex == s.commitIndex
  {
    hide IsRun, LeadersComplete, Committed, ServiceOk, CandidateOk, LeaderOk, Inv, LogsOk, Safe;
    RunInv(cs, es, k);
    InvParts(cs[k]);
    var w, d, a := cs[k].view, m.dst, m.vote;
    assert MsgOk(w, m);
    ServerAt(cs, es, k, d);
    NoVoteYet(w, a.term, d);
    var s, F := cs[k].servers[d], w.logs[d];
    assert LastTerm(F) == TermAt(s, LastLogIndex(s)) && LastIndex(F) == LastLogIndex(s);
  }

  /** Nobody votes in a term it has not reached. */
  lemma NoVoteYet(w: View, t: nat, d: nat)
    requires Safe(w) && d < |w.terms|
    ensures t > w.terms[d] ==> (t, d) !in w.ballots
  {
    assert (t, d) in w.ballots ==> BallotOk(w, t, d);
  }

  /** A peer that times out stands in the next term, votes for itself and asks everybody,
      naming the end of its log. */
  lemma TimeoutStands(cs: seq<Cluster>, es: seq<Step>, k: nat, i: nat)
    requires IsRun(cs, es) && k < |cs| && Shape(cs[k]) && Enabled(cs[k], Timeout(i))
    ensures var c', t, F := Next(cs[k], Timeout(i)), cs[k].view.terms[i] + 1, cs[k].view.logs[i];
            && |F| >= 1
            && var s' := c'.servers[i];
            && s'.role == Candidate && s'.currentTerm == t && s'.votedFor == i && s'.votes == {i}
            && OnDisk(s') == Image(s')
            && forall p: nat :: p < |cs[k].servers| && p != i ==>
                 VoteReq(i, p, RequestVoteArgs(t, i, LastIndex(F), LastTerm(F))) in c'.net
  {
    hide IsRun, LeadersComplete, Committed, ServiceOk, CandidateOk, LeaderOk, LogsOk;
    ServerAt(cs, es, k, i);
    var s, F, c' := cs[k].servers[i], cs[k].view.logs[i], Next(cs[k], Timeout(i));
    assert LastTerm(F) == TermAt(s, LastLogIndex(s)) && LastIndex(F) == LastLogIndex(s);
    assert VoteArgs(c'.servers[i]) == RequestVoteArgs(cs[k].view.terms[i] + 1, i, LastIndex(F), LastTerm(F));
    forall p: nat | p < |cs[k].servers| && p != i
      ensures VoteReq(i, p, VoteArgs(c'.servers[i])) in c'.net
    {
      assert p in Ids(|cs[k].servers|);
    }
  }

  /** A candidate takes office exactly when a granted vote of its term makes a majority. */
  lemma ElectionIff(cs: seq<Cluster>, es: seq<Step>, k: nat, m: Msg)
    requires IsRun(cs, es) && k < |cs| && m in cs[k].net && m.VoteRep?
    ensures m.dst < |cs[k].servers| == |cs[k].view.logs|
    ensures var s, n := cs[k].servers[m.dst], |cs[k].servers|;
            var s' := VoteReply(s, m.vote.term, m.src, m.voteReply);
            s.role == Candidate && s.currentTerm == m.vote.term && m.voteReply.term <= s.currentTerm ==>
              && s'.currentTerm == s.currentTerm && s'.votedFor == s.votedFor && s'.log == s.log
              && s'.votes == (if m.voteReply.voteGranted then s.votes + {m.src} else s.votes)
              && (s'.role == Leader <==> m.voteReply.voteGranted && Quorum(n, s'.votes))
              && (s'.role == Leader ==>
                    s'.nextIndex == seq(n, p => |cs[k].view.logs[m.dst]|) && s'.matchIndex == seq(n, p => 0))
              && (s'.role != Leader ==> s'.role == Candidate)
  {
    hide IsRun, LeadersComplete, Committed, ServiceOk, LeaderOk, Inv, LogsOk, Safe;
    RunInv(cs, es, k);
    InvParts(cs[k]);
    assert MsgOk(cs[k].view, m);
    ServerAt(cs, es, k, m.dst);
  }

  // ----- replication -----

  /** A request carries everything from nextIndex on, or the snapshot if that was trimmed. */
  lemma RequestIs(cs: seq<Cluster>, es: seq<Step>, k: nat, i: nat, p: nat)
    requires IsRun(cs, es) && k < |cs| && Shape(cs[k]) && Enabled(cs[k], Replicate(i, p))
    ensures var s, F, c' := cs[k].servers[i], cs[k].view.logs[i], Next(cs[k], Replicate(i, p));
            var next, base := s.nextIndex[p], s.lastIncludedIndex;
            && 1 <= next <= |F| && base < |F|
            && var m :=
              if next > base then
                AppReq(i, p, AppendArgs(s.currentTerm, i, next - 1, F[next - 1].term, F[next..], s.commitIndex))
              else SnapReq(i, p, SnapshotArgs(s.currentTerm, i, base, F[base].term, s.snapshot));
            m in c'.net
  {
    hide IsRun, LeadersComplete, Committed, ServiceOk, CandidateOk, VoteOk, LogsOk;
    ServerAt(cs, es, k, i);
    var s, F := cs[k].servers[i], cs[k].view.logs[i];
    assert PeerOk(s, cs[k].view, p);
    var next := s.nextIndex[p];
    if next > s.lastIncludedIndex {
      assert F[next..] == s.log[next - s.lastIncludedIndex..];
    }
  }

  /** The full log has the entry before the request, and the request is not all covered by
      the snapshot. */
  ghost predicate Fitting(F: Log, base: nat, a: AppendArgs) {
    && 0 <= a.prevLogIndex < |F| && F[a.prevLogIndex].term == a.prevLogTerm
    && (a.prevLogIndex >= base || a.prevLogIndex + |a.entries| > base)
  }

  lemma PassesIff(s: Server, F: Log, R: Log, a: AppendArgs)
    requires Fits(s, F, R, a)
    ensures Passes(s, a) <==> Fitting(F, s.lastIncludedIndex, a)
  {
    hide Matching;
  }

  /** A request is accepted exactly if its term is not over and it fits the full log; then
      the log holds all its entries. */
  lemma AcceptIff(cs: seq<Cluster>, es: seq<Step>, k: nat, m: Msg)
    requires IsRun(cs, es) && k < |cs| && m in cs[k].net && m.AppReq?
    ensures m.dst < |cs[k].servers| == |cs[k].view.logs| && Wf(cs[k].servers[m.dst])
    ensures var s, F, a := cs[k].servers[m.dst], cs[k].view.logs[m.dst], m.app;
            var (s', r) := AppendEntries(s, a);
            && (r.success <==> a.term >= s.currentTerm && Fitting(F, s.lastIncludedIndex, a))
            && r.term == (if a.term > s.currentTerm then a.term else s.currentTerm)
            && (a.term >= s.currentTerm ==> s'.role == Follower && s'.currentTerm == a.term)
            && (!r.success ==> s'.log == s.log)
  {
    hide IsRun, LeadersComplete, Committed, ServiceOk, CandidateOk, LeaderOk, VoteOk, Inv, LogsOk, Safe, Fits, Passes,
         Merge, FirstOfTerm, Fitting, AppReqOk;
    RunInv(cs, es, k);
    InvParts(cs[k]);
    var w, i, a := cs[k].view, m.dst, m.app;
    assert MsgOk(w, m);
    ServerAt(cs, es, k, i);
    var s := cs[k].servers[i];
    if a.term >= s.currentTerm {
      AppendLog(s, a);
      var s1, w1 := Observe(s, a.term).(role := Follower), Seen(w, i, a.term);
      SeenSafe(w, i, a.term);
      FollowOk(s, cs[k].services[i], i, w, a.term);
      AppReqKept(w, w1, a);
      FollowerFits(s1, cs[k].services[i], i, w1, a);
      FitsBefore(s, w.logs[i], w1.reigns[a.term].log, a);
      PassesIff(s, w.logs[i], w1.reigns[a.term].log, a);
    }
  }

  lemma FitsBefore(s: Server, F: Log, R: Log, a: AppendArgs)
    requires Fits(Observe(s, a.term).(role := Follower), F, R, a)
    ensures Fits(s, F, R, a)
  {
    hide Matching, Agree;
  }

  /** What a rejected request is told: where the snapshot ends, where a shorter log ends, or
      the conflicting term and where it starts. */
  lemma HintIs(cs: seq<Cluster>, es: seq<Step>, k: nat, m: Msg)
    requires IsRun(cs, es) && k < |cs| && m in cs[k].net && m.AppReq?
    ensures m.dst < |cs[k].servers| == |cs[k].view.logs| && Wf(cs[k].servers[m.dst])
    ensures var s, F, a := cs[k].servers[m.dst], cs[k].view.logs[m.dst], m.app;
            var r, prev, base := AppendEntries(s, a).1, a.prevLogIndex, s.lastIncludedIndex;
            a.term >= s.currentTerm && !r.success ==>
              if prev < base then r.conflictTerm == -1 && r.conflictIndex == base + 1
              else if prev >= |F| then r.conflictTerm == -1 && r.conflictIndex == |F|
              else r.conflictTerm == F[prev].term && StartsAt(F, base, prev, r.conflictIndex)
  {
    hide IsRun, LeadersComplete, Committed, ServiceOk, CandidateOk, LeaderOk, VoteOk, Inv, LogsOk, Safe, FirstOfTerm,
         Merge, Fitting;
    AcceptIff(cs, es, k, m);
    ServerAt(cs, es, k, m.dst);
    var s, F, a := cs[k].servers[m.dst], cs[k].view.logs[m.dst], m.app;
    var prev, base := a.prevLogIndex, s.lastIncludedIndex;
    if base <= prev < |F| {
      FirstOfTermStarts(s.log, prev - base);
      StartsShift(s, F, prev, FirstOfTerm(s.log, prev - base));
    }
  }

  /** The run of equal terms that ends at p starts at j, as far as the log is stored. */
  ghost predicate StartsAt(F: Log, base: nat, p: nat, j: int) {
    && base <= j <= p < |F|
    && (forall l :: j <= l <= p ==> F[l].term == F[p].term)
    && (j == base || F[j - 1].term != F[p].term)
  }

  lemma {:induction false} FirstOfTermStarts(log: Log, p: nat)
    requires p < |log|
    ensures StartsAt(log, 0, p, FirstOfTerm(log, p))
    decreases p
  {
    if p > 0 && log[p - 1].term == log[p].term {
      FirstOfTermStarts(log, p - 1);
    }
  }

  lemma StartsShift(s: Server, F: Log, p: nat, j: nat)
    requires Compacts(s, F) && s.lastIncludedIndex <= p < |F| && StartsAt(s.log, 0, p - s.lastIncludedIndex, j)
    ensures StartsAt(F, s.lastIncludedIndex, p, s.lastIncludedIndex + j)
  {
    var base := s.lastIncludedIndex;
    assert forall l :: base <= l < |F| ==> F[l].term == s.log[l - base].term;
  }

  // ----- commitment -----

  /** The leader, and the peers that are known to reach index j. */
  ghost function Reaching(s: Server, n: nat, i: nat, j: int): set<nat>
    requires |s.matchIndex| == n
  {
    set p | p in Ids(n) && (p == i || s.matchIndex[p] >= j)
  }

  /** Index j holds an entry of the leader's own term that a majority has. */
  ghost predicate Countable(s: Server, F: Log, n: nat, i: nat, j: int)
    requires |s.matchIndex| == n
  {
    0 <= j < |F| && F[j].term == s.currentTerm && Quorum(n, Reaching(s, n, i, j))
  }

  lemma CountableIff(s: Server, F: Log, n: nat, i: nat, j: int)
    requires Compacts(s, F) && s.peers == n == |s.matchIndex| && s.me == i && j > s.commitIndex >= s.lastIncludedIndex
    ensures Countable(s, F, n, i, j) <==> CanCommit(s, j)
  {
    assert Reaching(s, n, i, j) == Holders(s, j);
    assert Holders(s, j) <= Ids(n);
  }

  /** A success reply moves the peer's indices up, and commits up to the highest index of the
      leader's own term that a majority then has: no less, and nothing else. */
  lemma CommitIff(cs: seq<Cluster>, es: seq<Step>, k: nat, m: Msg)
    requires IsRun(cs, es) && k < |cs| && m in cs[k].net && m.AppRep? && Shape(cs[k]) && Enabled(cs[k], RecvAppRep(m))
    requires var s := cs[k].servers[m.dst];
             s.role == Leader && s.currentTerm == m.app.term == m.appReply.term && m.appReply.success
    ensures var s, F, n := cs[k].servers[m.dst], cs[k].view.logs[m.dst], |cs[k].servers|;
            var s', upTo := AppendReplied(s, m.src, m.app, m.appReply), m.app.prevLogIndex + |m.app.entries|;
            && |s.matchIndex| == |s.nextIndex| == |s'.matchIndex| == n && m.src < n
            && s'.role == Leader && s'.currentTerm == s.currentTerm && s'.log == s.log
            && s'.matchIndex == (if upTo > s.matchIndex[m.src] then s.matchIndex[m.src := upTo] else s.matchIndex)
            && s'.nextIndex == (if upTo > s.matchIndex[m.src] then s.nextIndex[m.src := upTo + 1] else s.nextIndex)
            && (s'.commitIndex == s.commitIndex
                || (s'.commitIndex > s.commitIndex && Countable(s', F, n, m.dst, s'.commitIndex)))
            && forall j :: s'.commitIndex < j < |F| ==> !Countable(s', F, n, m.dst, j)
  {
    hide IsRun, LeadersComplete, Committed, ServiceOk, CandidateOk, VoteOk, Inv, LogsOk, Safe, CommitFrom, CanCommit,
         Countable;
    ServerAt(cs, es, k, m.dst);
    var s, F, n := cs[k].servers[m.dst], cs[k].view.logs[m.dst], |cs[k].servers|;
    var s' := AppendReplied(s, m.src, m.app, m.appReply);
    var s1 := s'.(commitIndex := s.commitIndex);
    CommitFromBound(s1, LastLogIndex(s1));
    forall j | s.commitIndex < j < |F|
      ensures Countable(s', F, n, m.dst, j) <==> CanCommit(s1, j)
    {
      CountableIff(s1, F, n, m.dst, j);
      CountableSame(s1, s', F, n, m.dst, j);
    }
  }

  lemma CountableSame(s: Server, s': Server, F: Log, n: nat, i: nat, j: int)
    requires |s.matchIndex| == n && s' == s.(commitIndex := s'.commitIndex)
    ensures Countable(s, F, n, i, j) <==> Countable(s', F, n, i, j)
  {
    assert Reaching(s, n, i, j) == Reaching(s', n, i, j);
  }

  // ----- snapshots -----

  /** A local snapshot is stored exactly if it is newer than the stored one and committed. */
  lemma SnapshotIff(cs: seq<Cluster>, es: seq<Step>, k: nat, i: nat, index: int, data: Data)
    requires IsRun(cs, es) && k < |cs| && i < |cs[k].servers|
    ensures Wf(cs[k].servers[i]) && cs[k].servers[i].commitIndex <= LastLogIndex(cs[k].servers[i])
    ensures |cs[k].view.logs| == |cs[k].servers|
    ensures var s, F := cs[k].servers[i], cs[k].view.logs[i];
            var s' := TakeSnapshot(s, index, data);
            if s.lastIncludedIndex < index <= s.commitIndex then
              && s'.lastIncludedIndex == index && s'.snapshot == data && Compacts(s', F) && OnDisk(s') == Image(s')
              && s'.commitIndex == s.commitIndex && s'.lastApplied == s.lastApplied
            else s' == s
  {
    hide IsRun, LeadersComplete, Committed, ServiceOk, CandidateOk, VoteOk, LeaderOk, LogsOk;
    ServerAt(cs, es, k, i);
  }

  /** An installed snapshot is taken over exactly if its term is not over and it is newer;
      then it is stored, counts as committed and applied, and goes to the service. */
  lemma InstallIff(cs: seq<Cluster>, es: seq<Step>, k: nat, m: Msg)
    requires IsRun(cs, es) && k < |cs| && m in cs[k].net && m.SnapReq?
    ensures m.dst < |cs[k].servers| && Wf(cs[k].servers[m.dst])
    ensures var s, a := cs[k].servers[m.dst], m.snap;
            var (s', r, d), n := InstallSnapshot(s, a), a.lastIncludedIndex;
            && (d.Some? <==> a.term >= s.currentTerm && n > s.lastIncludedIndex)
            && r.term == (if a.term > s.currentTerm then a.term else s.currentTerm)
            && (a.term >= s.currentTerm ==> s'.role == Follower && s'.currentTerm == a.term)
            && (d.Some? ==>
                  && d.value == SnapshotMsg(n, a.lastIncludedTerm, a.data)
                  && s'.lastIncludedIndex == n && s'.snapshot == a.data && OnDisk(s') == Image(s')
                  && s'.commitIndex == (if s.commitIndex < n then n else s.commitIndex)
                  && s'.lastApplied == (if s.lastApplied < n then n else s.lastApplied))
            && (d.None? ==> s'.log == s.log && s'.snapshot == s.snapshot && s'.commitIndex == s.commitIndex)
  {
    hide IsRun, LeadersComplete, Committed, ServiceOk, CandidateOk, VoteOk, LeaderOk, Inv, LogsOk, Safe, TrimTo;
    RunInv(cs, es, k);
    InvParts(cs[k]);
    assert MsgOk(cs[k].view, m);
    ServerAt(cs, es, k, m.dst);
  }

  /** After an install reply the leader goes on behind the snapshot. */
  lemma SnapshotReplyIs(cs: seq<Cluster>, es: seq<Step>, k: nat, m: Msg)
    requires IsRun(cs, es) && k < |cs| && m in cs[k].net && m.SnapRep? && Shape(cs[k]) && Enabled(cs[k], RecvSnapRep(m))
    requires var s := cs[k].servers[m.dst]; s.role == Leader && s.currentTerm == m.snap.term == m.snapReply.term
    ensures var s := cs[k].servers[m.dst];
            var s' := SnapshotReplied(s, m.src, m.snap, m.snapReply);
            && |s.matchIndex| == |s.nextIndex| == |s'.matchIndex| == |s'.nextIndex| == |cs[k].servers|
            && m.src < |cs[k].servers| && s'.nextIndex[m.src] == s'.matchIndex[m.src] + 1
            && s'.matchIndex[m.src] >= s.matchIndex[m.src] && s'.matchIndex[m.src] >= m.snap.lastIncludedIndex
            && s'.matchIndex[m.src] in {s.matchIndex[m.src], m.snap.lastIncludedIndex}
            && forall p :: 0 <= p < |cs[k].servers| && p != m.src ==>
                 s'.matchIndex[p] == s.matchIndex[p] && s'.nextIndex[p] == s.nextIndex[p]
  {
    hide IsRun, LeadersComplete, Committed, ServiceOk, CandidateOk, VoteOk, LogsOk;
    ServerAt(cs, es, k, m.dst);
  }

  // ----- replies and terms -----

  /** The term a request was sent in, and the term of the server that answered it. */
  function SentIn(m: Msg): nat
    requires m.VoteRep? || m.AppRep? || m.SnapRep?
  {
    match m
    case VoteRep(_, _, a, _) => a.term
    case AppRep(_, _, a, _) => a.term
    case SnapRep(_, _, a, _) => a.term
  }

  function AnsweredIn(m: Msg): nat
    requires m.VoteRep? || m.AppRep? || m.SnapRep?
  {
    match m
    case VoteRep(_, _, _, r) => r.term
    case AppRep(_, _, _, r) => r.term
    case SnapRep(_, _, _, r) => r.term
  }

  function Received(m: Msg): Step
    requires m.VoteRep? || m.AppRep? || m.SnapRep?
  {
    if m.VoteRep? then RecvVoteRep(m) else if m.AppRep? then RecvAppRep(m) else RecvSnapRep(m)
  }

  /** A reply counts only in the term and role its request was sent in; then a higher term
      in it ends the candidacy or the reign, in memory and on disk. */
  lemma StepsDownIff(cs: seq<Cluster>, es: seq<Step>, k: nat, m: Msg)
    requires IsRun(cs, es) && k < |cs| && Shape(cs[k]) && (m.VoteRep? || m.AppRep? || m.SnapRep?)
    requires Enabled(cs[k], Received(m))
    ensures var s, s' := cs[k].servers[m.dst], Next(cs[k], Received(m)).servers[m.dst];
            if s.currentTerm != SentIn(m) || s.role != (if m.VoteRep? then Candidate else Leader) then s' == s
            else if AnsweredIn(m) > s.currentTerm then
              && s'.role == Follower && s'.currentTerm == AnsweredIn(m) && s'.votedFor == -1
              && s'.log == s.log && s'.commitIndex == s.commitIndex && s'.lastApplied == s.lastApplied
              && s'.raftState ==
                 Some(Persisted(AnsweredIn(m), -1, s.log, s.lastIncludedIndex, s.lastIncludedTerm))
            else s'.currentTerm == s.currentTerm && s'.role != Follower && s'.log == s.log
  {
    hide IsRun, CommitFrom, BackUp;
  }

  /** The applier goes on exactly if something is committed that it has not applied, and
      with the next entry of the full log. */
  lemma ApplyIff(cs: seq<Cluster>, es: seq<Step>, k: nat, i: nat)
    requires IsRun(cs, es) && k < |cs| && i < |cs[k].servers|
    ensures |cs[k].view.logs| == |cs[k].servers|
    ensures var s, F := cs[k].servers[i], cs[k].view.logs[i];
            && (CanApply(s) <==> s.lastApplied < s.commitIndex)
            && (CanApply(s) ==>
                  && 0 <= s.lastApplied && s.commitIndex <= LastLogIndex(s) && s.lastApplied + 1 < |F|
                  && ApplyNext(s).1 == CommandMsg(s.lastApplied + 1, F[s.lastApplied + 1].cmd)
                  && ApplyNext(s).0 == s.(lastApplied := s.lastApplied + 1))
  {
    hide IsRun, LeadersComplete, Committed, ServiceOk, CandidateOk, VoteOk, LeaderOk, LogsOk;
    ServerAt(cs, es, k, i);
  }
}
