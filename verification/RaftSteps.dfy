/** Every step of the cluster keeps the invariant. */
module RaftSteps {
  import opened RaftTypes
  import opened RaftCore
  import opened RaftServer
  import opened RaftService
  import opened RaftCluster
  import opened RaftSafety

  lemma InvShape(c: Cluster)
    requires Inv(c)
    ensures Shape(c)
  {
    forall i | 0 <= i < |c.servers|
      ensures Wf(c.servers[i]) && c.servers[i].commitIndex <= LastLogIndex(c.servers[i])
    {
      assert ServerOk(c.servers[i], c.services[i], i, c.view);
    }
  }

  lemma SafeParts(w: View)
    requires Safe(w)
    ensures LogsOk(w) && BallotsOk(w) && ReignsOk(w)
  {
  }

  lemma GrowsRefl(w: View)
    requires LogsOk(w)
    ensures Grows(w, w)
  {
    forall t | t in w.reigns
      ensures |w.reigns[t].log| >= 1
    {
      assert WfLog(w.reigns, w.reigns[t].log);
    }
  }

  lemma GrowsTrans(a: View, b: View, c: View)
    requires Grows(a, b) && Grows(b, c)
    ensures Grows(a, c)
  {
  }

  /** No ballot is from a term its voter has not reached. */
  lemma NoFutureBallot(w: View, i: nat, t: nat)
    requires BallotsOk(w) && i < |w.terms| && w.terms[i] < t
    ensures (t, i) !in w.ballots
  {
    assert (t, i) in w.ballots ==> BallotOk(w, t, i);
  }

  lemma SeenSafe(w: View, i: nat, t: nat)
    requires Safe(w) && i < |w.terms|
    ensures Safe(Seen(w, i, t)) && Grows(w, Seen(w, i, t)) && LocalTo(w, Seen(w, i, t), i)
  {
    GrowsRefl(w);
    if t > w.terms[i] {
      BumpSafe(w, i, t);
    }
  }

  /** Seeing a newer term makes a good server a good follower of that term. */
  lemma ObserveOk(s: Server, v: Service, i: nat, w: View, t: nat)
    requires Safe(w) && ServerOk(s, v, i, w)
    ensures ServerOk(Observe(s, t), v, i, Seen(w, i, t))
  {
    hide Safe, LogsOk, BallotsOk, ReignsOk, Committed;
    SafeParts(w);
    if t > s.currentTerm {
      SeenSafe(w, i, t);
      NoFutureBallot(w, i, t);
      CommittedRoot(w, w.logs[i], s.commitIndex, s.currentTerm);
      CommittedGrows(w, Seen(w, i, t), w.logs[i], s.commitIndex, s.currentTerm, w.logs[i], s.commitIndex, t);
    }
  }

  // ----- elections -----

  lemma TimeoutStep(c: Cluster, i: nat)
    requires Inv(c) && Shape(c) && Enabled(c, Timeout(i))
    ensures Inv(DoTimeout(c, i)) && Grows(c.view, DoTimeout(c, i).view)
  {
    hide Safe, ServerOk, Committed, Stand;
    var c' := DoTimeout(c, i);
    assert ServerOk(c.servers[i], c.services[i], i, c.view);
    StandOk(c.servers[i], c.services[i], i, c.view);
    StepKeeps(c, c', i);
  }

  lemma StandOk(s: Server, v: Service, i: nat, w: View)
    requires Safe(w) && ServerOk(s, v, i, w)
    ensures Safe(Stand(w, i)) && Grows(w, Stand(w, i)) && LocalTo(w, Stand(w, i), i)
    ensures ServerOk(StartElection(s), v, i, Stand(w, i))
    ensures VoteReqOk(Stand(w, i), i, VoteArgs(StartElection(s)))
  {
    hide Safe, LogsOk, BallotsOk, ReignsOk, Committed;
    SafeParts(w);
    StandSafe(w, i);
    NoFutureBallot(w, i, w.terms[i] + 1);
    StandNotLed(w, i);
    CommittedRoot(w, w.logs[i], s.commitIndex, s.currentTerm);
    CommittedGrows(w, Stand(w, i), w.logs[i], s.commitIndex, s.currentTerm,
                   w.logs[i], s.commitIndex, s.currentTerm + 1);
  }

  /** The leader of a term had stood in it. */
  lemma LeaderStood(w: View, t: nat)
    requires BallotsOk(w) && ReignsOk(w) && t in w.reigns
    ensures 1 <= t && IsCandidacy(w, t, w.reigns[t].leader)
  {
    assert ReignOk(w, t);
    var p := QuorumsMeet(|w.terms|, w.reigns[t].voters, w.reigns[t].voters);
    assert BallotOk(w, t, p);
  }

  lemma StandNotLed(w: View, i: nat)
    requires BallotsOk(w) && ReignsOk(w) && i < |w.terms|
    ensures w.terms[i] + 1 in w.reigns ==> w.reigns[w.terms[i] + 1].leader != i
  {
    hide BallotsOk, ReignsOk;
    var t := w.terms[i] + 1;
    NoFutureBallot(w, i, t);
    if t in w.reigns {
      LeaderStood(w, t);
    }
  }

  /** The trimmed log and the full one give the same answer to a vote request. */
  lemma UpToDateSame(s: Server, F: Log, li: int, lt: nat)
    requires Wf(s) && Compacts(s, F)
    ensures CandidateUpToDate(s, li, lt) == UpToDate(li, lt, F)
    ensures LastLogIndex(s) == LastIndex(F) && TermAt(s, LastLogIndex(s)) == LastTerm(F)
  {
  }

  ghost function AfterVote(w: View, i: nat, a: RequestVoteArgs, granted: bool): View
    requires i < |w.terms| == |w.logs|
  {
    var w1 := Seen(w, i, a.term);
    if granted && (a.term, i) !in w1.ballots then Vote(w1, i, a.candidateId) else w1
  }

  lemma VoteReqStep(c: Cluster, m: Msg)
    requires Inv(c) && Shape(c) && Enabled(c, RecvVoteReq(m))
    ensures Inv(DoVoteReq(c, m)) && Grows(c.view, DoVoteReq(c, m).view)
  {
    hide Safe, ServerOk, Seen, Vote, RequestVote;
    var i := m.dst;
    var c' := DoVoteReq(c, m);
    assert ServerOk(c.servers[i], c.services[i], i, c.view);
    assert MsgOk(c.view, m);
    VoteReqOkAfter(c.servers[i], c.services[i], i, c.view, m.src, m.vote);
    StepKeeps(c, c', i);
  }

  lemma VotedOk(s: Server, v: Service, i: nat, w: View, cand: nat)
    requires LogsOk(w) && ServerOk(s, v, i, w) && s.votedFor == -1 && cand < |w.terms|
    requires Grows(w, Vote(w, i, cand))
    ensures ServerOk(Persist(s.(votedFor := cand)), v, i, Vote(w, i, cand))
  {
    hide LogsOk, Committed, Grows, ServiceOk;
    var w' := Vote(w, i, cand);
    CommittedKept(w, w', w.logs[i], s.commitIndex, s.currentTerm);
    ServiceSame(s, Persist(s.(votedFor := cand)), v, w.logs[i], w.ordered);
    LeaderSame(s, Persist(s.(votedFor := cand)), i, w, w');
  }

  /** Leadership bookkeeping does not depend on ballots. */
  lemma LeaderSame(s: Server, s': Server, i: nat, w: View, w': View)
    requires i < |w.logs| && |w.logs[i]| >= 1 && LeaderOk(s, i, w)
    requires w'.logs == w.logs && w'.terms == w.terms && w'.reigns == w.reigns && w'.acks == w.acks
    requires s'.role == s.role && s'.nextIndex == s.nextIndex && s'.matchIndex == s.matchIndex
    requires s'.currentTerm == s.currentTerm && LastLogIndex(s') == LastLogIndex(s)
    ensures LeaderOk(s', i, w')
  {
    if s.role == Leader {
      forall p: nat | p < |w.logs|
        ensures PeerOk(s', w', p)
      {
        assert PeerOk(s, w, p);
      }
    }
  }

  lemma ServiceSame(s: Server, s': Server, v: Service, F: Log, ordered: bool)
    requires Compacts(s, F) && 0 <= s.lastApplied < |F| && ServiceOk(s, v, F, ordered)
    requires s'.log == s.log && s'.lastIncludedIndex == s.lastIncludedIndex && s'.lastIncludedTerm == s.lastIncludedTerm
    requires s'.lastApplied == s.lastApplied && s'.snapshot == s.snapshot
    ensures Compacts(s', F) && ServiceOk(s', v, F, ordered)
  {
  }

  lemma VoteReqOkAfter(s: Server, v: Service, i: nat, w: View, src: nat, a: RequestVoteArgs)
    requires Safe(w) && ServerOk(s, v, i, w) && VoteReqOk(w, src, a) && src < |w.terms|
    ensures var (s', r) := RequestVote(s, a);
            var w' := AfterVote(w, i, a, r.voteGranted);
            && Safe(w') && Grows(w, w') && LocalTo(w, w', i)
            && ServerOk(s', v, i, w')
            && MsgOk(w', VoteRep(i, src, a, r))
  {
    hide Safe, LogsOk, BallotsOk, ReignsOk, ServerOk, Grows, CanVote;
    ServerWf(s, v, i, w);
    var (s', r) := RequestVote(s, a);
    var s1, w1 := Observe(s, a.term), Seen(w, i, a.term);
    var w' := AfterVote(w, i, a, r.voteGranted);
    SafeParts(w);
    SeenSafe(w, i, a.term);
    ObserveOk(s, v, i, w, a.term);
    ServerWf(s1, v, i, w1);
    MsgKept(w, w1, VoteReq(src, i, a));
    if r.voteGranted {
      if (a.term, i) !in w1.ballots {
        MayVote(s1, v, i, w1, src, a);
        CastOk(s1, v, i, w1, src, VoteReq(src, i, a));
        GrowsTrans(w, w1, w');
      } else {
        VotedAgain(s1, v, i, w1, src);
      }
    }
  }

  lemma ServerWf(s: Server, v: Service, i: nat, w: View)
    requires ServerOk(s, v, i, w)
    ensures Wf(s) && i < |w.terms| == |w.logs| && s.currentTerm == w.terms[i]
    ensures ((s.currentTerm, i) in w.ballots <==> s.votedFor != -1)
  {
  }

  lemma MayVote(s: Server, v: Service, i: nat, w: View, src: nat, a: RequestVoteArgs)
    requires ServerOk(s, v, i, w) && VoteReqOk(w, src, a) && a.term == s.currentTerm && s.votedFor == -1
    requires CandidateUpToDate(s, a.lastLogIndex, a.lastLogTerm)
    ensures CanVote(w, i, src)
  {
    UpToDateSame(s, w.logs[i], a.lastLogIndex, a.lastLogTerm);
  }

  /** Granting the same vote again changes nothing. */
  lemma VotedAgain(s: Server, v: Service, i: nat, w: View, cand: nat)
    requires ServerOk(s, v, i, w) && s.votedFor == cand
    ensures (s.currentTerm, i) in w.ballots && w.ballots[(s.currentTerm, i)].cand == cand
    ensures ServerOk(Persist(s.(votedFor := cand)), v, i, w)
  {
  }

  lemma CastOk(s: Server, v: Service, i: nat, w: View, cand: nat, m: Msg)
    requires Safe(w) && ServerOk(s, v, i, w) && s.votedFor == -1 && cand < |w.terms| && CanVote(w, i, cand)
    requires MsgOk(w, m)
    ensures var w' := Vote(w, i, cand);
            && Safe(w') && Grows(w, w') && LocalTo(w, w', i)
            && ServerOk(Persist(s.(votedFor := cand)), v, i, w') && MsgOk(w', m)
  {
    hide Safe, LogsOk, BallotsOk, ReignsOk, Committed, ServerOk, Grows, MsgOk;
    SafeParts(w);
    VoteSafe(w, i, cand);
    VotedOk(s, v, i, w, cand);
    MsgKept(w, Vote(w, i, cand), m);
  }

  lemma VoteRepStep(c: Cluster, m: Msg)
    requires Inv(c) && Shape(c) && Enabled(c, RecvVoteRep(m))
    ensures Inv(DoVoteRep(c, m)) && Grows(c.view, DoVoteRep(c, m).view)
  {
    hide Safe, ServerOk, Seen, Elect, VoteReply;
    var i := m.dst;
    var c' := DoVoteRep(c, m);
    assert ServerOk(c.servers[i], c.services[i], i, c.view);
    assert MsgOk(c.view, m);
    VoteRepOkAfter(c.servers[i], c.services[i], i, c.view, m);
    StepKeeps(c, c', i);
  }

  ghost function AfterVoteReply(w: View, i: nat, s: Server, s': Server): View
    requires i < |w.terms| == |w.logs|
  {
    if s'.role == Leader && s.role != Leader && |w.logs[i]| >= 1 then Elect(w, i, s'.votes)
    else Seen(w, i, s'.currentTerm)
  }

  lemma ElectedOk(s: Server, v: Service, i: nat, w: View, votes: set<nat>)
    requires LogsOk(w) && ServerOk(s, v, i, w) && s.role == Candidate
    requires Grows(w, Elect(w, i, votes))
    ensures ServerOk(BecomeLeader(s.(votes := votes)), v, i, Elect(w, i, votes))
  {
    hide LogsOk, Committed, Grows, ServiceOk;
    var w' := Elect(w, i, votes);
    var s' := BecomeLeader(s.(votes := votes));
    CommittedKept(w, w', w.logs[i], s.commitIndex, s.currentTerm);
    ServiceSame(s, s', v, w.logs[i], w.ordered);
  }

  lemma CountedOk(s: Server, v: Service, i: nat, w: View, from: nat)
    requires ServerOk(s, v, i, w) && s.role == Candidate
    requires from < |w.terms| && (s.currentTerm, from) in w.ballots && w.ballots[(s.currentTerm, from)].cand == i
    ensures ServerOk(s.(votes := s.votes + {from}), v, i, w)
    ensures |s.votes + {from}| > s.peers / 2 ==> CanElect(w, i, s.votes + {from})
  {
    hide Committed, ServiceOk;
    ServiceSame(s, s.(votes := s.votes + {from}), v, w.logs[i], w.ordered);
  }

  lemma VoteRepOkAfter(s: Server, v: Service, i: nat, w: View, m: Msg)
    requires Safe(w) && ServerOk(s, v, i, w) && m.VoteRep? && m.dst == i && MsgOk(w, m)
    ensures var s' := VoteReply(s, m.vote.term, m.src, m.voteReply);
            var w' := AfterVoteReply(w, i, s, s');
            && Safe(w') && Grows(w, w') && LocalTo(w, w', i)
            && ServerOk(s', v, i, w')
  {
    hide Safe, LogsOk, BallotsOk, ReignsOk, Committed, Grows, ServiceOk, CandidateOk, LeaderOk, CanElect;
    var s' := VoteReply(s, m.vote.term, m.src, m.voteReply);
    SafeParts(w);
    SeenSafe(w, i, s'.currentTerm);
    ObserveOk(s, v, i, w, s'.currentTerm);
    if s.currentTerm == m.vote.term && s.role == Candidate && m.voteReply.term <= s.currentTerm
       && m.voteReply.voteGranted {
      CountedOk(s, v, i, w, m.src);
      var votes := s.votes + {m.src};
      if |votes| > s.peers / 2 {
        ElectSafe(w, i, votes);
        ElectedOk(s, v, i, w, votes);
      }
    }
  }
}
