/** Accelerated log backtracking: how many rejections a leader gets before its log
    and the follower's meet. */
module RaftBackup {
  import opened Counting
  import opened RaftTypes
  import opened RaftCore
  import opened RaftServer
  import opened RaftSafety
  import opened RaftCompaction
  import opened RaftLogSteps
  import opened RaftCluster
  import opened RaftTheorems

  /** A leader s with full log X and a follower f that has not trimmed its log. */
  ghost predicate Pair(r: map<nat, Reign>, s: Server, X: Log, f: Server) {
    && Wf(s) && Wf(f) && f.lastIncludedIndex == 0
    && Compacts(s, X) && f.currentTerm <= s.currentTerm
    && WfLog(r, X) && WfLog(r, f.log)
  }

  /** The leader's request when it resumes at next, and the follower's answer. */
  function RequestAt(s: Server, next: int): AppendArgs
    requires Wf(s) && s.lastIncludedIndex < next <= LastLogIndex(s) + 1
  {
    AppendArgsFor(s.(nextIndex := [next]), 0)
  }

  function AnswerAt(s: Server, f: Server, next: int): AppendReply
    requires Wf(s) && Wf(f) && s.lastIncludedIndex < next <= LastLogIndex(s) + 1
  {
    AppendEntries(f, RequestAt(s, next)).1
  }

  /** The two cases of a rejection, in terms of the full logs. */
  lemma Rejected(r: map<nat, Reign>, s: Server, X: Log, f: Server, next: int)
    requires Pair(r, s, X, f) && s.lastIncludedIndex < next <= |X|
    requires !AnswerAt(s, f, next).success
    ensures var a := AnswerAt(s, f, next);
            var Y := f.log;
            && a.term == s.currentTerm
            && (next > |Y| ==> a == AppendReply(s.currentTerm, false, -1, |Y|))
            && (next <= |Y| ==>
                  && next >= 2 && Y[next - 1].term != X[next - 1].term
                  && a == AppendReply(s.currentTerm, false, Y[next - 1].term, FirstOfTerm(Y, next - 1)))
  {
    hide FirstOfTerm, Merge;
  }

  lemma Accepted(s: Server, X: Log, f: Server, next: int)
    requires Wf(s) && Wf(f) && f.lastIncludedIndex == 0 && Compacts(s, X) && f.currentTerm <= s.currentTerm
    requires s.lastIncludedIndex < next <= |X| && next <= |f.log|
    requires f.log[next - 1].term == X[next - 1].term
    ensures AnswerAt(s, f, next).success
  {
    hide FirstOfTerm, Merge;
  }

  /** When the leader has an entry of the conflicting term, the follower has the
      same entry there: the next request is accepted. */
  lemma LeaderHasTerm(r: map<nat, Reign>, X: Log, Y: Log, p: nat, l: nat)
    requires WfLog(r, X) && WfLog(r, Y)
    requires p < |Y| && p < |X| && Y[p].term != X[p].term
    requires l < |X| && X[l].term == Y[p].term
    ensures l < p && Y[l].term == X[l].term
  {
    assert X[0] == Y[0] == SENTINEL;
    assert FromReign(r, Y, p);
    assert FromReign(r, X, l);
  }

  lemma FirstIsSmaller(r: map<nat, Reign>, Y: Log, p: nat)
    requires WfLog(r, Y) && 1 <= p < |Y|
    ensures 1 <= FirstOfTerm(Y, p) <= p
    ensures forall j :: 0 <= j < FirstOfTerm(Y, p) ==> Y[j].term < Y[p].term
  {
    hide FirstOfTerm;
    FirstOfTermBound(Y, p);
    assert FromReign(r, Y, p);
    var i := FirstOfTerm(Y, p);
    forall j | 0 <= j < i
      ensures Y[j].term < Y[p].term
    {
      assert Ordered(Y, j, i - 1) && Ordered(Y, i - 1, p);
    }
  }

  /** Each rejection strictly lowers nextIndex, to the end of the follower's log, to
      an index that will be accepted, or to where the follower's conflicting term starts. */
  lemma BackUpLowers(r: map<nat, Reign>, s: Server, X: Log, f: Server, next: int)
    requires Pair(r, s, X, f) && s.lastIncludedIndex < next <= |X|
    requires !AnswerAt(s, f, next).success
    ensures var to := BackUp(s, next, AnswerAt(s, f, next));
            && 1 <= to < next
            && (next > |f.log| ==> to == |f.log|)
            && (next <= |f.log| ==>
                  || to == FirstOfTerm(f.log, next - 1)
                  || (s.lastIncludedIndex < to && AnswerAt(s, f, to).success))
  {
    hide FirstOfTerm, Merge, AppendEntries, LastOfTerm, WfLog, AnswerAt;
    var Y := f.log;
    Rejected(r, s, X, f, next);
    if next <= |Y| {
      var ct := Y[next - 1].term;
      var l := LastOfTerm(s, ct, LastLogIndex(s));
      LastOfTermBound(s, ct, LastLogIndex(s));
      FirstIsSmaller(r, Y, next - 1);
      if l >= 0 {
        assert X[l].term == ct;
        LeaderHasTerm(r, X, Y, next - 1, l);
        Accepted(s, X, f, l + 1);
      }
    }
  }

  /** Rejections until a request is accepted or a snapshot is sent instead. */
  ghost function Rejections(r: map<nat, Reign>, s: Server, X: Log, f: Server, next: int): nat
    requires Pair(r, s, X, f) && 1 <= next <= |X|
    decreases next
  {
    if next <= s.lastIncludedIndex || AnswerAt(s, f, next).success then 0
    else
      BackUpLowers(r, s, X, f, next);
      1 + Rejections(r, s, X, f, BackUp(s, next, AnswerAt(s, f, next)))
  }

  /** The terms of the first k slots of a log. */
  ghost function Terms(L: Log, k: nat): (ts: set<nat>)
    requires k <= |L|
    ensures forall j :: 0 <= j < k ==> L[j].term in ts
    ensures forall t :: t in ts ==> exists j :: 0 <= j < k && L[j].term == t
  {
    set j | 0 <= j < k :: L[j].term
  }

  lemma FewerTerms(L: Log, i: nat, k: nat)
    requires i < k <= |L|
    requires forall j :: 0 <= j < i ==> L[j].term < L[k - 1].term
    ensures |Terms(L, i)| < |Terms(L, k)|
  {
    var A, B := Terms(L, i), Terms(L, k);
    assert L[k - 1].term in B && L[k - 1].term !in A;
    SubsetSize(A + {L[k - 1].term}, B);
  }

  /** Within the follower's log, each rejection uses up a term. */
  lemma {:induction false} RejectionsInside(r: map<nat, Reign>, s: Server, X: Log, f: Server, next: int)
    requires Pair(r, s, X, f) && 1 <= next <= |X| && next <= |f.log|
    ensures Rejections(r, s, X, f, next) < |Terms(f.log, next)|
    decreases next
  {
    hide WfLog, AnswerAt, BackUp, FirstOfTerm, Terms;
    var Y := f.log;
    if next <= s.lastIncludedIndex || AnswerAt(s, f, next).success {
      assert Y[0].term in Terms(Y, next);
    } else {
      BackUpLowers(r, s, X, f, next);
      var to := BackUp(s, next, AnswerAt(s, f, next));
      RejectedInside(r, s, X, f, next);
      if to == FirstOfTerm(Y, next - 1) {
        FewerTerms(Y, to, next);
      } else {
        FewerTerms(Y, 1, next);
        assert Y[0].term in Terms(Y, 1);
      }
      if to == FirstOfTerm(Y, next - 1) || AnswerAt(s, f, to).success {
        RejectionsInside(r, s, X, f, to);
      }
    }
  }

  lemma RejectedInside(r: map<nat, Reign>, s: Server, X: Log, f: Server, next: int)
    requires Pair(r, s, X, f) && s.lastIncludedIndex < next <= |X| && next <= |f.log|
    requires !AnswerAt(s, f, next).success
    ensures next >= 2
    ensures forall j :: 0 <= j < FirstOfTerm(f.log, next - 1) ==> f.log[j].term < f.log[next - 1].term
    ensures f.log[0].term < f.log[next - 1].term
  {
    hide FirstOfTerm, AnswerAt;
    Rejected(r, s, X, f, next);
    FirstIsSmaller(r, f.log, next - 1);
  }

  /** A leader needs at most one rejection per term in the follower's log, plus one
      when the follower's log is shorter than where it started.  (The sentinel's term
      counts among the terms, which is the plus one.) */
  lemma RejectionsBounded(r: map<nat, Reign>, s: Server, X: Log, f: Server, next: int)
    requires Pair(r, s, X, f) && 1 <= next <= |X|
    ensures Rejections(r, s, X, f, next) <= |Terms(f.log, |f.log|)|
  {
    hide WfLog, AnswerAt, BackUp, FirstOfTerm, Terms;
    var Y := f.log;
    if next <= |Y| {
      RejectionsInside(r, s, X, f, next);
      SubsetSize(Terms(Y, next), Terms(Y, |Y|));
    } else if !(next <= s.lastIncludedIndex || AnswerAt(s, f, next).success) {
      BackUpLowers(r, s, X, f, next);
      RejectionsInside(r, s, X, f, |Y|);
    }
  }

  /** The bound holds between any leader and any such follower of a reachable state. */
  lemma RejectionsBoundedInRuns(cs: seq<Cluster>, es: seq<Step>, c: nat, i: nat, j: nat, next: int)
    requires IsRun(cs, es) && c < |cs| && i < |cs[c].servers| && j < |cs[c].servers|
    requires cs[c].servers[j].lastIncludedIndex == 0
    requires cs[c].servers[j].currentTerm <= cs[c].servers[i].currentTerm
    requires 1 <= next <= LastLogIndex(cs[c].servers[i]) + 1
    ensures |cs[c].view.logs| == |cs[c].servers|
    ensures var r, s, X, f := cs[c].view.reigns, cs[c].servers[i], cs[c].view.logs[i], cs[c].servers[j];
            Pair(r, s, X, f) && next <= |X| && Rejections(r, s, X, f, next) <= |Terms(f.log, |f.log|)|
  {
    hide IsRun, LeadersComplete, Committed, VoteOk, CandidateOk, LeaderOk, ServiceOk, Rejections, Terms;
    ServerAt(cs, es, c, i);
    var w := cs[c].view;
    var f := cs[c].servers[j];
    PairOf(cs, es, c, i, j);
    RejectionsBounded(w.reigns, cs[c].servers[i], w.logs[i], f, next);
  }

  /** A leader that is told of a rejection resumes earlier, at the end of a shorter log, where
      the conflicting term starts, or where the next request is accepted. */
  lemma RejectionLowers(cs: seq<Cluster>, es: seq<Step>, c: nat, i: nat, j: nat)
    requires IsRun(cs, es) && c < |cs| && i < |cs[c].servers| && j < |cs[c].servers| && Shape(cs[c])
    requires cs[c].servers[i].role == Leader && Enabled(cs[c], Replicate(i, j)) && !NeedsSnapshot(cs[c].servers[i], j)
    requires cs[c].servers[j].lastIncludedIndex == 0
    requires cs[c].servers[j].currentTerm <= cs[c].servers[i].currentTerm
    ensures var s, f := cs[c].servers[i], cs[c].servers[j];
            var a := AppendArgsFor(s, j);
            var r := AppendEntries(f, a).1;
            && |s.nextIndex| == |s.matchIndex| == s.peers == |cs[c].servers|
            && var s', next := AppendReplied(s, j, a, r), s.nextIndex[j];
            !r.success ==>
              && s' == s.(nextIndex := s'.nextIndex) && |s'.nextIndex| == |s.nextIndex|
              && (forall p :: 0 <= p < |s.nextIndex| && p != j ==> s'.nextIndex[p] == s.nextIndex[p])
              && 1 <= s'.nextIndex[j] < next
              && (next > |f.log| ==> s'.nextIndex[j] == |f.log|)
              && (next <= |f.log| ==>
                    || s'.nextIndex[j] == FirstOfTerm(f.log, next - 1)
                    || (s.lastIncludedIndex < s'.nextIndex[j] && AnswerAt(s, f, s'.nextIndex[j]).success))
  {
    hide IsRun, LeadersComplete, Committed, VoteOk, CandidateOk, ServiceOk, AppendEntries, BackUp, FirstOfTerm, WfLog;
    ServerAt(cs, es, c, i);
    ServerAt(cs, es, c, j);
    var w, s, f := cs[c].view, cs[c].servers[i], cs[c].servers[j];
    var next := s.nextIndex[j];
    PairOf(cs, es, c, i, j);
    assert RequestAt(s, next) == AppendArgsFor(s, j);
    if !AnswerAt(s, f, next).success {
      BackUpLowers(w.reigns, s, w.logs[i], f, next);
      Rejected(w.reigns, s, w.logs[i], f, next);
    }
  }

  lemma PairOf(cs: seq<Cluster>, es: seq<Step>, c: nat, i: nat, j: nat)
    requires IsRun(cs, es) && c < |cs| && i < |cs[c].servers| && j < |cs[c].servers|
    requires cs[c].servers[j].lastIncludedIndex == 0
    requires cs[c].servers[j].currentTerm <= cs[c].servers[i].currentTerm
    ensures |cs[c].view.logs| == |cs[c].servers|
    ensures Pair(cs[c].view.reigns, cs[c].servers[i], cs[c].view.logs[i], cs[c].servers[j])
  {
    hide IsRun, LeadersComplete, Committed, VoteOk, CandidateOk, LeaderOk, ServiceOk;
    ServerAt(cs, es, c, i);
    ServerAt(cs, es, c, j);
    UntrimmedIsFull(cs[c].view.reigns, cs[c].servers[j], cs[c].view.logs[j]);
  }

  lemma UntrimmedIsFull(r: map<nat, Reign>, f: Server, F: Log)
    requires Compacts(f, F) && f.lastIncludedIndex == 0 && WfLog(r, F)
    ensures WfLog(r, f.log)
  {
    assert f.log == F;
  }
}
