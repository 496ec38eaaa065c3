/** The protocol on untrimmed logs.  A View records, for the whole cluster, the
    terms and full logs of all servers together with the history of votes,
    elections and acknowledgements.  Six transitions change it; every critical
    section of the implementation is one or two of them. */
module RaftCore {
  import opened RaftTypes

  /** A vote: who it went to, and the voter's log when it was cast. */
  datatype Ballot = Ballot(cand: nat, log: Log)

  /** A won election: the leader, the votes that elected it, and its log so far. */
  datatype Reign = Reign(leader: nat, voters: set<nat>, log: Log)

  datatype View = View(
    terms: seq<nat>,
    logs: seq<Log>,
    ballots: map<(nat, nat), Ballot>,   // (term, voter)
    reigns: map<nat, Reign>,            // term
    acks: map<(nat, nat), nat>,         // (term, server) -> highest index acknowledged
    ordered: bool)                      // every service got its messages in the order they were made

  // ----- transitions -----

  function Bump(w: View, s: nat, t: nat): View
    requires s < |w.terms|
  {
    w.(terms := w.terms[s := t])
  }

  ghost predicate CanBump(w: View, s: nat, t: nat) {
    s < |w.terms| && w.terms[s] <= t
  }

  function Stand(w: View, s: nat): View
    requires s < |w.terms| == |w.logs|
  {
    var t := w.terms[s] + 1;
    w.(terms := w.terms[s := t], ballots := w.ballots[(t, s) := Ballot(s, w.logs[s])])
  }

  function Vote(w: View, s: nat, cand: nat): View
    requires s < |w.terms| == |w.logs|
  {
    w.(ballots := w.ballots[(w.terms[s], s) := Ballot(cand, w.logs[s])])
  }

  ghost predicate CanVote(w: View, s: nat, cand: nat) {
    && s < |w.terms| == |w.logs| && cand < |w.terms|
    && (w.terms[s], s) !in w.ballots
    && IsCandidacy(w, w.terms[s], cand)
    && var L := w.ballots[(w.terms[s], cand)].log;
    |L| >= 1 && |w.logs[s]| >= 1 && UpToDate(LastIndex(L), LastTerm(L), w.logs[s])
  }

  /** cand stood in term t, and so voted for itself. */
  ghost predicate IsCandidacy(w: View, t: nat, cand: nat) {
    (t, cand) in w.ballots && w.ballots[(t, cand)].cand == cand
  }

  function Elect(w: View, c: nat, voters: set<nat>): View
    requires c < |w.terms| == |w.logs| && |w.logs[c]| >= 1
  {
    var t := w.terms[c];
    w.(reigns := w.reigns[t := Reign(c, voters, w.logs[c])], acks := w.acks[(t, c) := |w.logs[c]| - 1])
  }

  ghost predicate CanElect(w: View, c: nat, voters: set<nat>) {
    && c < |w.terms| == |w.logs|
    && IsCandidacy(w, w.terms[c], c)
    && w.logs[c] == w.ballots[(w.terms[c], c)].log
    && (w.terms[c] in w.reigns ==> w.reigns[w.terms[c]].leader != c)
    && VotedBy(w, w.terms[c], c, voters)
  }

  ghost predicate VotedBy(w: View, t: nat, c: nat, voters: set<nat>) {
    && Quorum(|w.terms|, voters)
    && forall s :: s in voters ==> (t, s) in w.ballots && w.ballots[(t, s)].cand == c
  }

  function Extend(w: View, c: nat, cmd: Command): View
    requires c < |w.terms| == |w.logs| && w.terms[c] in w.reigns
  {
    var t := w.terms[c];
    var L := w.logs[c] + [Entry(t, cmd)];
    w.(logs := w.logs[c := L], reigns := w.reigns[t := w.reigns[t].(log := L)], acks := w.acks[(t, c) := |L| - 1])
  }

  ghost predicate CanExtend(w: View, c: nat) {
    && c < |w.terms| == |w.logs|
    && w.terms[c] in w.reigns
    && w.reigns[w.terms[c]].leader == c
    && w.reigns[w.terms[c]].log == w.logs[c]
  }

  /** Server s takes over the leader's log up to m, unless it already has it. */
  ghost function Adopt(L: Log, R: Log, m: nat): Log
    requires m < |R|
  {
    if Agree(L, R, m) then L else R[..m + 1]
  }

  ghost function Accept(w: View, s: nat, m: nat): View
    requires CanAccept(w, s, m)
  {
    var t := w.terms[s];
    w.(logs := w.logs[s := Adopt(w.logs[s], w.reigns[t].log, m)],
       acks := w.acks[(t, s) := if (t, s) in w.acks && w.acks[(t, s)] > m then w.acks[(t, s)] else m])
  }

  ghost predicate CanAccept(w: View, s: nat, m: nat) {
    && s < |w.terms| == |w.logs|
    && w.terms[s] in w.reigns
    && m < |w.reigns[w.terms[s]].log|
  }

  /** A service was given a message, perhaps before an older one. */
  function Reorder(w: View, ordered: bool): View {
    w.(ordered := ordered)
  }

  // ----- invariant -----

  /** Every entry of L was taken, with everything before it, from the leader of its term. */
  ghost predicate WfLog(reigns: map<nat, Reign>, L: Log) {
    && |L| >= 1 && L[0] == SENTINEL
    && (forall k :: 1 <= k < |L| ==> FromReign(reigns, L, k))
    && (forall j, k :: Ordered(L, j, k))
  }

  /** Terms do not decrease from j to k. */
  ghost predicate Ordered(L: Log, j: nat, k: nat) {
    j <= k < |L| ==> L[j].term <= L[k].term
  }

  ghost predicate FromReign(reigns: map<nat, Reign>, L: Log, k: nat)
    requires k < |L|
  {
    && L[k].term >= 1
    && L[k].term in reigns
    && Agree(L, reigns[L[k].term].log, k)
  }

  ghost predicate LogsOk(w: View) {
    && |w.terms| == |w.logs|
    && (forall s :: 0 <= s < |w.logs| ==> WfLog(w.reigns, w.logs[s]) && LastTerm(w.logs[s]) <= w.terms[s])
    && (forall t :: t in w.reigns ==> WfLog(w.reigns, w.reigns[t].log) && LastTerm(w.reigns[t].log) <= t)
    && (forall b :: b in w.ballots ==> WfLog(w.reigns, w.ballots[b].log))
  }

  ghost predicate BallotOk(w: View, t: nat, s: nat)
    requires (t, s) in w.ballots
  {
    var b := w.ballots[(t, s)];
    && s < |w.terms| && 1 <= t <= w.terms[s]
    && b.cand < |w.terms|
    && IsCandidacy(w, t, b.cand)
    && var L := w.ballots[(t, b.cand)].log;
    |L| >= 1 && |b.log| >= 1 && LastTerm(L) < t && UpToDate(LastIndex(L), LastTerm(L), b.log)
  }

  ghost predicate BallotsOk(w: View) {
    forall t, s :: (t, s) in w.ballots ==> BallotOk(w, t, s)
  }

  ghost predicate ReignOk(w: View, t: nat)
    requires t in w.reigns
  {
    && w.reigns[t].leader < |w.terms|
    && VotedBy(w, t, w.reigns[t].leader, w.reigns[t].voters)
  }

  ghost predicate ReignsOk(w: View) {
    forall t :: t in w.reigns ==> ReignOk(w, t)
  }

  ghost predicate AckOk(w: View, t: nat, s: nat)
    requires (t, s) in w.acks
  {
    && s < |w.terms| == |w.logs| && t <= w.terms[s]
    && t in w.reigns
    && w.acks[(t, s)] < |w.reigns[t].log|
    && (w.terms[s] == t ==> Agree(w.reigns[t].log, w.logs[s], w.acks[(t, s)]))
  }

  ghost predicate AcksOk(w: View) {
    forall t, s :: (t, s) in w.acks ==> AckOk(w, t, s)
  }

  ghost predicate Acked(w: View, t: nat, s: nat, k: nat) {
    (t, s) in w.acks && k <= w.acks[(t, s)]
  }

  /** The entry at index k of term t's leader is of that term and may still reach,
      or has reached, a majority: nobody in Q has moved past t without storing it. */
  ghost predicate ChoosableBy(w: View, t: nat, k: nat, Q: set<nat>) {
    && Quorum(|w.terms|, Q)
    && forall s :: s in Q ==> s < |w.terms| && (Acked(w, t, s, k) || w.terms[s] <= t)
  }

  ghost predicate Choosable(w: View, t: nat, k: nat) {
    && (t in w.reigns && k < |w.reigns[t].log| ==> w.reigns[t].log[k].term == t)
    && exists Q :: ChoosableBy(w, t, k, Q)
  }

  /** L holds the log of term t's leader up to index k. */
  ghost predicate Has(w: View, L: Log, t: nat, k: nat) {
    t in w.reigns && Agree(w.reigns[t].log, L, k)
  }

  /** Later leaders hold whatever may still be chosen. */
  ghost predicate LeadersComplete(w: View) {
    forall t: nat, k: nat, u :: u in w.reigns && t < u && Choosable(w, t, k) ==> Has(w, w.reigns[u].log, t, k)
  }

  /** A server that acknowledged something that may still be chosen keeps it. */
  ghost predicate AcksKept(w: View) {
    forall t: nat, k: nat, s: nat :: s < |w.logs| && Acked(w, t, s, k) && Choosable(w, t, k) ==> Has(w, w.logs[s], t, k)
  }

  /** ... and had it when it later voted. */
  ghost predicate AcksSeenByVotes(w: View) {
    forall t: nat, k: nat, u, s :: (u, s) in w.ballots && t < u && Acked(w, t, s, k) && Choosable(w, t, k)
                         ==> Has(w, w.ballots[(u, s)].log, t, k)
  }

  ghost predicate Safe(w: View) {
    && LogsOk(w)
    && BallotsOk(w)
    && ReignsOk(w)
    && AcksOk(w)
    && LeadersComplete(w)
    && AcksKept(w)
    && AcksSeenByVotes(w)
  }

  // ----- what only grows -----

  ghost predicate ReignsGrow(r: map<nat, Reign>, r': map<nat, Reign>) {
    forall t :: t in r ==> t in r' && r'[t].leader == r[t].leader && r'[t].voters == r[t].voters
                           && |r[t].log| >= 1 && Agree(r[t].log, r'[t].log, |r[t].log| - 1)
  }

  ghost predicate Grows(w: View, w': View) {
    && |w'.terms| == |w.terms|
    && (forall s :: 0 <= s < |w.terms| ==> w.terms[s] <= w'.terms[s])
    && (forall b :: b in w.ballots ==> b in w'.ballots && w'.ballots[b] == w.ballots[b])
    && ReignsGrow(w.reigns, w'.reigns)
    && (forall a :: a in w.acks ==> a in w'.acks && w.acks[a] <= w'.acks[a])
    && AcksFresh(w, w')
    && (w'.ordered ==> w.ordered)
  }

  /** Acknowledgements are only added for terms their server had not left before,
      which is why what may be chosen only shrinks. */
  ghost predicate AcksFresh(w: View, w': View) {
    forall t, s :: (t, s) in w'.acks && s < |w.terms| && t < w.terms[s]
                   ==> (t, s) in w.acks && w.acks[(t, s)] == w'.acks[(t, s)]
  }

  lemma WfLogGrows(r: map<nat, Reign>, r': map<nat, Reign>, L: Log)
    requires WfLog(r, L) && ReignsGrow(r, r')
    ensures WfLog(r', L)
  {
    forall k | 1 <= k < |L|
      ensures FromReign(r', L, k)
    {
      assert FromReign(r, L, k);
    }
  }

  /** Log Matching: equal terms at an index mean equal logs up to it. */
  lemma SameTermSamePrefix(r: map<nat, Reign>, A: Log, B: Log, k: nat)
    requires WfLog(r, A) && WfLog(r, B)
    requires k < |A| && k < |B| && A[k].term == B[k].term
    ensures Agree(A, B, k)
  {
    if k > 0 {
      assert FromReign(r, A, k) && FromReign(r, B, k);
    }
  }

  lemma ChoosableShrinks(w: View, w': View, t: nat, k: nat)
    requires Grows(w, w')
    requires Choosable(w', t, k)
    ensures Choosable(w, t, k)
  {
    var Q :| ChoosableBy(w', t, k, Q);
    forall s | s in Q
      ensures s < |w.terms| && (Acked(w, t, s, k) || w.terms[s] <= t)
    {
      assert Acked(w', t, s, k) || w'.terms[s] <= t;
    }
    assert ChoosableBy(w, t, k, Q);
  }

  /** In a later leader's electorate, a quorum member has acknowledged k. */
  lemma QuorumAcked(w: View, t: nat, k: nat, u: nat, voters: set<nat>, c: nat) returns (s: nat)
    requires BallotsOk(w)
    requires Choosable(w, t, k) && t < u
    requires VotedBy(w, u, c, voters)
    ensures s < |w.terms| && (u, s) in w.ballots && w.ballots[(u, s)].cand == c
    ensures Acked(w, t, s, k)
  {
    var Q :| ChoosableBy(w, t, k, Q);
    s := QuorumsMeet(|w.terms|, Q, voters);
    assert BallotOk(w, u, s);
  }

  // ----- each transition keeps the invariant -----

  /** What may be chosen, what is acknowledged and what a log has, carried over a step. */
  lemma PromisesCarry(w: View, w': View)
    requires Grows(w, w')
    ensures forall t: nat, k: nat :: Choosable(w', t, k) ==> Choosable(w, t, k)
    ensures forall L: Log, t: nat, k: nat :: Has(w, L, t, k) ==> Has(w', L, t, k)
  {
    forall t: nat, k: nat | Choosable(w', t, k)
      ensures Choosable(w, t, k)
    {
      ChoosableShrinks(w, w', t, k);
    }
  }

  /** Ballots and reigns stay good when terms and ballots only grow. */
  lemma HistoryCarries(w: View, w': View)
    requires BallotsOk(w) && ReignsOk(w) && Grows(w, w')
    ensures forall t, s :: (t, s) in w.ballots ==> BallotOk(w', t, s)
    ensures forall t :: t in w.reigns ==> ReignOk(w', t)
  {
    forall t, s | (t, s) in w.ballots
      ensures BallotOk(w', t, s)
    {
      assert BallotOk(w, t, s);
    }
    forall t | t in w.reigns
      ensures ReignOk(w', t)
    {
      assert ReignOk(w, t);
    }
  }

  /** Where only terms rise and servers vote with the logs they have, what servers have
      acknowledged stays safe. */
  lemma OnlyTerms(w: View, w': View)
    requires Safe(w) && Grows(w, w') && w'.logs == w.logs && w'.reigns == w.reigns && w'.acks == w.acks
    requires forall b: (nat, nat) :: b in w'.ballots ==>
               (b in w.ballots && w'.ballots[b] == w.ballots[b]) || (b.1 < |w.logs| && w'.ballots[b].log == w.logs[b.1])
    ensures AcksOk(w') && LeadersComplete(w') && AcksKept(w') && AcksSeenByVotes(w')
  {
    hide LogsOk, BallotsOk, ReignsOk, Choosable, Agree;
    PromisesCarry(w, w');
    forall u, r | (u, r) in w'.acks
      ensures AckOk(w', u, r)
    {
      assert AckOk(w, u, r);
    }
    forall t: nat, k: nat, u, r | (u, r) in w'.ballots && t < u && Acked(w', t, r, k) && Choosable(w', t, k)
      ensures Has(w', w'.ballots[(u, r)].log, t, k)
    {
      assert Acked(w, t, r, k) && Choosable(w, t, k);
    }
    forall t: nat, k: nat, r: nat | r < |w'.logs| && Acked(w', t, r, k) && Choosable(w', t, k)
      ensures Has(w', w'.logs[r], t, k)
    {
      assert Acked(w, t, r, k);
    }
  }

  lemma BumpSafe(w: View, s: nat, t: nat)
    requires Safe(w) && CanBump(w, s, t)
    ensures Safe(Bump(w, s, t)) && Grows(w, Bump(w, s, t))
  {
    var w' := Bump(w, s, t);
    BumpLogs(w, s, t);
    hide LogsOk, AcksOk, LeadersComplete, AcksKept, AcksSeenByVotes, Grows;
    HistoryCarries(w, w');
    OnlyTerms(w, w');
  }

  lemma BumpLogs(w: View, s: nat, t: nat)
    requires LogsOk(w) && CanBump(w, s, t)
    ensures LogsOk(Bump(w, s, t)) && Grows(w, Bump(w, s, t))
  {
    assert forall u :: u in w.reigns ==> WfLog(w.reigns, w.reigns[u].log);
  }

  /** The protocol does not depend on the order in which services get their messages. */
  lemma ReorderSafe(w: View, ordered: bool)
    requires Safe(w) && (ordered ==> w.ordered)
    ensures Safe(Reorder(w, ordered)) && Grows(w, Reorder(w, ordered))
  {
    var w' := Reorder(w, ordered);
    ReorderLogs(w, ordered);
    hide LogsOk, AcksOk, LeadersComplete, AcksKept, AcksSeenByVotes, Grows;
    HistoryCarries(w, w');
    OnlyTerms(w, w');
  }

  lemma ReorderLogs(w: View, ordered: bool)
    requires LogsOk(w) && (ordered ==> w.ordered)
    ensures LogsOk(Reorder(w, ordered)) && Grows(w, Reorder(w, ordered))
  {
    assert forall t :: t in w.reigns ==> WfLog(w.reigns, w.reigns[t].log);
  }

  lemma CastSafe(w: View, w': View, s: nat, b: Ballot)
    requires Safe(w) && Grows(w, w') && s < |w.terms|
    requires (w'.terms[s], s) !in w.ballots
    requires w' == w.(terms := w'.terms, ballots := w.ballots[(w'.terms[s], s) := b])
    requires BallotOk(w', w'.terms[s], s)
    requires b.log == w.logs[s]
    ensures Safe(w')
  {
    hide LogsOk, AcksOk, LeadersComplete, AcksKept, AcksSeenByVotes, Grows;
    CastLogs(w, w', s, b);
    HistoryCarries(w, w');
    OnlyTerms(w, w');
  }

  lemma CastLogs(w: View, w': View, s: nat, b: Ballot)
    requires LogsOk(w) && Grows(w, w') && s < |w.terms| && b.log == w.logs[s]
    requires w' == w.(terms := w'.terms, ballots := w.ballots[(w'.terms[s], s) := b])
    ensures LogsOk(w')
  {
  }

  lemma StandSafe(w: View, s: nat)
    requires Safe(w) && s < |w.terms|
    ensures Safe(Stand(w, s)) && Grows(w, Stand(w, s))
  {
    var w' := Stand(w, s);
    var t := w.terms[s] + 1;
    assert (t, s) in w.ballots ==> BallotOk(w, t, s);
    assert BallotOk(w', t, s);
    CastSafe(w, w', s, Ballot(s, w.logs[s]));
  }

  lemma VoteSafe(w: View, s: nat, cand: nat)
    requires Safe(w) && CanVote(w, s, cand)
    ensures Safe(Vote(w, s, cand)) && Grows(w, Vote(w, s, cand))
  {
    var w' := Vote(w, s, cand);
    assert BallotOk(w, w.terms[s], cand);
    assert BallotOk(w', w.terms[s], s);
    CastSafe(w, w', s, Ballot(cand, w.logs[s]));
  }

  /** Election Safety: a term is won at most once. */
  lemma OneReignPerTerm(w: View, t: nat, c: nat, voters: set<nat>)
    requires ReignsOk(w) && t in w.reigns
    requires VotedBy(w, t, c, voters)
    ensures w.reigns[t].leader == c
  {
    assert ReignOk(w, t);
    var s := QuorumsMeet(|w.terms|, voters, w.reigns[t].voters);
  }

  lemma ReignTerm(w: View, t: nat)
    requires Safe(w) && t in w.reigns
    ensures t >= 1
  {
    hide LogsOk, AcksOk, LeadersComplete, AcksKept, AcksSeenByVotes;
    assert ReignOk(w, t);
    var voters := w.reigns[t].voters;
    var s := QuorumsMeet(|w.terms|, voters, voters);
    assert BallotOk(w, t, s);
  }

  /** The heart of Leader Completeness: a candidate at least as up-to-date as a
      voter that holds a choosable entry holds it too. */
  lemma CandidateHas(w: View, t: nat, k: nat, u: nat, C: Log, V: Log)
    requires Safe(w) && t < u
    requires WfLog(w.reigns, C) && WfLog(w.reigns, V)
    requires LastTerm(C) < u && UpToDate(LastIndex(C), LastTerm(C), V)
    requires Choosable(w, t, k) && Has(w, V, t, k)
    ensures Has(w, C, t, k)
  {
    ReignTerm(w, t);
    assert w.reigns[t].log[k].term == t && V[k].term == t;
    assert Ordered(V, k, |V| - 1);
    if LastTerm(C) == LastTerm(V) {
      SameTermHas(w, t, k, C, V);
    } else {
      hide BallotsOk, ReignsOk, AcksOk, AcksKept, AcksSeenByVotes, ChoosableBy;
      assert FromReign(w.reigns, C, |C| - 1);
      assert Has(w, w.reigns[LastTerm(C)].log, t, k);
      NewerTermHas(w, t, k, C);
    }
  }

  lemma SameTermHas(w: View, t: nat, k: nat, C: Log, V: Log)
    requires WfLog(w.reigns, C) && WfLog(w.reigns, V) && LastTerm(C) == LastTerm(V) && LastTerm(C) >= 1
    requires |C| >= |V| && Has(w, V, t, k) && k < |V|
    ensures Has(w, C, t, k)
  {
    assert FromReign(w.reigns, C, |C| - 1) && FromReign(w.reigns, V, |V| - 1);
  }

  lemma NewerTermHas(w: View, t: nat, k: nat, C: Log)
    requires WfLog(w.reigns, C) && |C| > 1 && FromReign(w.reigns, C, |C| - 1) && t < LastTerm(C)
    requires WfLog(w.reigns, w.reigns[LastTerm(C)].log) && Has(w, w.reigns[LastTerm(C)].log, t, k)
    requires t in w.reigns && k < |w.reigns[t].log| && w.reigns[t].log[k].term == t
    ensures Has(w, C, t, k)
  {
    var R := w.reigns[LastTerm(C)].log;
    assert R[k].term == t < LastTerm(C) == R[|C| - 1].term;
    assert Ordered(R, |C| - 1, k);
  }

  lemma ElectedHas(w: View, c: nat, voters: set<nat>, t: nat, k: nat)
    requires Safe(w) && CanElect(w, c, voters)
    requires t < w.terms[c] && Choosable(w, t, k)
    ensures Has(w, w.logs[c], t, k)
  {
    var u := w.terms[c];
    var s := QuorumAcked(w, t, k, u, voters, c);
    assert BallotOk(w, u, s);
    CandidateHas(w, t, k, u, w.logs[c], w.ballots[(u, s)].log);
  }

  lemma ElectGrows(w: View, c: nat, voters: set<nat>)
    requires Safe(w) && CanElect(w, c, voters)
    ensures w.terms[c] !in w.reigns
    ensures Grows(w, Elect(w, c, voters))
  {
    hide LeadersComplete, AcksKept, AcksSeenByVotes, BallotsOk;
    var u := w.terms[c];
    if u in w.reigns {
      OneReignPerTerm(w, u, c, voters);
    }
    assert (u, c) in w.acks ==> AckOk(w, u, c);
  }

  lemma ElectSafe(w: View, c: nat, voters: set<nat>)
    requires Safe(w) && CanElect(w, c, voters)
    ensures w.terms[c] !in w.reigns
    ensures Safe(Elect(w, c, voters)) && Grows(w, Elect(w, c, voters))
  {
    var w' := Elect(w, c, voters);
    ElectGrows(w, c, voters);
    HistoryCarries(w, w');
    assert ReignOk(w', w.terms[c]);
    ElectLogs(w, c, voters);
    ElectPromises(w, c, voters);
    forall t, s | (t, s) in w'.acks
      ensures AckOk(w', t, s)
    {
      if (t, s) != (w.terms[c], c) {
        assert AckOk(w, t, s);
      }
    }
  }

  lemma ElectPromises(w: View, c: nat, voters: set<nat>)
    requires Safe(w) && CanElect(w, c, voters)
    ensures LeadersComplete(Elect(w, c, voters))
    ensures AcksKept(Elect(w, c, voters))
    ensures AcksSeenByVotes(Elect(w, c, voters))
  {
    hide ChoosableBy, WfLog, VotedBy;
    var u := w.terms[c];
    var w' := Elect(w, c, voters);
    ElectGrows(w, c, voters);
    PromisesCarry(w, w');
    forall t: nat, k: nat | t < u && Choosable(w', t, k)
      ensures Has(w', w'.reigns[u].log, t, k)
    {
      ElectedHas(w, c, voters, t, k);
    }
    assert forall t: nat, s: nat, k: nat :: Acked(w', t, s, k) ==> Acked(w, t, s, k) || (t == u && s == c);
    assert forall k: nat :: Acked(w', u, c, k) ==> Has(w', w'.logs[c], u, k);
    assert forall t :: (t, c) in w.ballots ==> BallotOk(w, t, c);
  }

  lemma ElectLogs(w: View, c: nat, voters: set<nat>)
    requires LogsOk(w) && c < |w.terms| && w.terms[c] !in w.reigns
    ensures LogsOk(Elect(w, c, voters))
  {
    var w' := Elect(w, c, voters);
    assert ReignsGrow(w.reigns, w'.reigns);
    LogsCarry(w, w');
    forall t | t in w'.reigns
      ensures WfLog(w'.reigns, w'.reigns[t].log) && LastTerm(w'.reigns[t].log) <= t
    {
      if t == w.terms[c] {
        assert w'.reigns[t].log == w.logs[c];
      } else {
        assert w'.reigns[t] == w.reigns[t];
      }
    }
  }

  lemma LogsCarry(w: View, w': View)
    requires LogsOk(w) && ReignsGrow(w.reigns, w'.reigns)
    ensures forall s :: 0 <= s < |w.logs| ==> WfLog(w'.reigns, w.logs[s])
    ensures forall t :: t in w.reigns ==> WfLog(w'.reigns, w.reigns[t].log)
    ensures forall b :: b in w.ballots ==> WfLog(w'.reigns, w.ballots[b].log)
  {
    forall s | 0 <= s < |w.logs|
      ensures WfLog(w'.reigns, w.logs[s])
    {
      WfLogGrows(w.reigns, w'.reigns, w.logs[s]);
    }
    forall t | t in w.reigns
      ensures WfLog(w'.reigns, w.reigns[t].log)
    {
      WfLogGrows(w.reigns, w'.reigns, w.reigns[t].log);
    }
    forall b | b in w.ballots
      ensures WfLog(w'.reigns, w.ballots[b].log)
    {
      WfLogGrows(w.reigns, w'.reigns, w.ballots[b].log);
    }
  }

  lemma ExtendGrows(w: View, c: nat, cmd: Command)
    requires LogsOk(w) && AcksOk(w) && CanExtend(w, c)
    ensures Grows(w, Extend(w, c, cmd))
  {
    var u := w.terms[c];
    var w' := Extend(w, c, cmd);
    assert (u, c) in w.acks ==> AckOk(w, u, c);
    assert Agree(w.reigns[u].log, w'.reigns[u].log, |w.reigns[u].log| - 1);
    assert forall t :: t in w.reigns && t != u ==> w'.reigns[t] == w.reigns[t] && |w.reigns[t].log| >= 1;
  }

  lemma ExtendSafe(w: View, c: nat, cmd: Command)
    requires Safe(w) && CanExtend(w, c)
    ensures Safe(Extend(w, c, cmd)) && Grows(w, Extend(w, c, cmd))
  {
    ExtendGrows(w, c, cmd);
    HistoryCarries(w, Extend(w, c, cmd));
    assert ReignOk(w, w.terms[c]);
    var s := QuorumsMeet(|w.terms|, w.reigns[w.terms[c]].voters, w.reigns[w.terms[c]].voters);
    assert BallotOk(w, w.terms[c], s);
    ExtendLogs(w, c, cmd);
    ExtendAcks(w, c, cmd);
    ExtendPromises(w, c, cmd);
  }

  lemma ExtendAcks(w: View, c: nat, cmd: Command)
    requires Safe(w) && CanExtend(w, c)
    ensures AcksOk(Extend(w, c, cmd))
  {
    hide LeadersComplete, AcksKept, AcksSeenByVotes, BallotsOk;
    var w' := Extend(w, c, cmd);
    forall t, s | (t, s) in w'.acks
      ensures AckOk(w', t, s)
    {
      if (t, s) != (w.terms[c], c) {
        assert AckOk(w, t, s);
      }
    }
  }

  lemma ExtendPromises(w: View, c: nat, cmd: Command)
    requires Safe(w) && CanExtend(w, c)
    ensures LeadersComplete(Extend(w, c, cmd))
    ensures AcksKept(Extend(w, c, cmd))
    ensures AcksSeenByVotes(Extend(w, c, cmd))
  {
    ExtendLeaders(w, c, cmd);
    ExtendKept(w, c, cmd);
    ExtendVotes(w, c, cmd);
  }

  /** A log that had something before the leader appended still has it. */
  lemma ExtendHas(w: View, c: nat, cmd: Command, t: nat, k: nat)
    requires LogsOk(w) && AcksOk(w) && CanExtend(w, c)
    requires Has(w, w.logs[c], t, k)
    ensures Has(Extend(w, c, cmd), Extend(w, c, cmd).logs[c], t, k)
  {
  }

  lemma ExtendLeaders(w: View, c: nat, cmd: Command)
    requires LogsOk(w) && AcksOk(w) && LeadersComplete(w) && CanExtend(w, c)
    ensures LeadersComplete(Extend(w, c, cmd))
  {
    var w' := Extend(w, c, cmd);
    ExtendGrows(w, c, cmd);
    PromisesCarry(w, w');
    forall t: nat, k: nat, u | u in w'.reigns && t < u && Choosable(w', t, k)
      ensures Has(w', w'.reigns[u].log, t, k)
    {
      assert Has(w, w.reigns[u].log, t, k);
      if u == w.terms[c] {
        ExtendHas(w, c, cmd, t, k);
      }
    }
  }

  lemma ExtendKept(w: View, c: nat, cmd: Command)
    requires LogsOk(w) && AcksOk(w) && AcksKept(w) && CanExtend(w, c)
    ensures AcksKept(Extend(w, c, cmd))
  {
    var w' := Extend(w, c, cmd);
    ExtendGrows(w, c, cmd);
    PromisesCarry(w, w');
    forall t: nat, k: nat, s: nat | s < |w'.logs| && Acked(w', t, s, k) && Choosable(w', t, k)
      ensures Has(w', w'.logs[s], t, k)
    {
      if t != w.terms[c] || s != c {
        assert Acked(w, t, s, k);
        assert Has(w, w.logs[s], t, k);
        if s == c {
          ExtendHas(w, c, cmd, t, k);
        }
      }
    }
  }

  lemma ExtendVotes(w: View, c: nat, cmd: Command)
    requires LogsOk(w) && BallotsOk(w) && AcksOk(w) && AcksSeenByVotes(w) && CanExtend(w, c)
    ensures AcksSeenByVotes(Extend(w, c, cmd))
  {
    var w' := Extend(w, c, cmd);
    ExtendGrows(w, c, cmd);
    PromisesCarry(w, w');
    forall t: nat, k: nat, u, s | (u, s) in w'.ballots && t < u && Acked(w', t, s, k) && Choosable(w', t, k)
      ensures Has(w', w'.ballots[(u, s)].log, t, k)
    {
      assert BallotOk(w, u, s);
      assert Acked(w, t, s, k);
    }
  }

  lemma ExtendLogs(w: View, c: nat, cmd: Command)
    requires LogsOk(w) && AcksOk(w) && CanExtend(w, c) && w.terms[c] >= 1
    ensures LogsOk(Extend(w, c, cmd))
  {
    var w' := Extend(w, c, cmd);
    ExtendGrows(w, c, cmd);
    LogsCarry(w, w');
    AppendWf(w'.reigns, w.logs[c], Entry(w.terms[c], cmd));
    assert forall t :: t in w'.reigns && t != w.terms[c] ==> w'.reigns[t] == w.reigns[t];
    assert forall s :: 0 <= s < |w.logs| && s != c ==> w'.logs[s] == w.logs[s];
  }

  lemma AppendWf(r: map<nat, Reign>, L: Log, e: Entry)
    requires WfLog(r, L) && LastTerm(L) <= e.term
    requires e.term >= 1 && e.term in r && r[e.term].log == L + [e]
    ensures WfLog(r, L + [e])
  {
    var L' := L + [e];
    forall k | 1 <= k < |L'|
      ensures FromReign(r, L', k)
    {
      if k < |L| {
        assert FromReign(r, L, k);
      }
    }
    forall j: nat, k: nat
      ensures Ordered(L', j, k)
    {
      assert Ordered(L, j, if k < |L| then k else |L| - 1);
    }
  }

  lemma AcceptGrows(w: View, s: nat, m: nat)
    requires LogsOk(w) && AcksOk(w) && CanAccept(w, s, m)
    ensures Grows(w, Accept(w, s, m))
  {
  }

  lemma AcceptSafe(w: View, s: nat, m: nat)
    requires Safe(w) && CanAccept(w, s, m)
    ensures Safe(Accept(w, s, m)) && Grows(w, Accept(w, s, m))
    ensures Agree(w.reigns[w.terms[s]].log, Accept(w, s, m).logs[s], m)
  {
    hide LogsOk, AcksOk, LeadersComplete, AcksKept, AcksSeenByVotes, Grows, Agree, Adopt;
    AcceptLogs(w, s, m);
    AcceptGrows(w, s, m);
    HistoryCarries(w, Accept(w, s, m));
    AcceptAcks(w, s, m);
    AcceptPromises(w, s, m);
  }

  lemma AcceptLogs(w: View, s: nat, m: nat)
    requires LogsOk(w) && CanAccept(w, s, m)
    ensures LogsOk(Accept(w, s, m)) && Agree(w.reigns[w.terms[s]].log, Accept(w, s, m).logs[s], m)
  {
    AdoptWf(w.reigns, w.logs[s], w.reigns[w.terms[s]].log, m);
  }

  lemma AcceptAcks(w: View, s: nat, m: nat)
    requires Safe(w) && CanAccept(w, s, m)
    ensures AcksOk(Accept(w, s, m))
  {
    hide LeadersComplete, AcksKept, AcksSeenByVotes, BallotsOk, ReignsOk, LogsOk;
    AcceptLogs(w, s, m);
    var w' := Accept(w, s, m);
    forall t, r | (t, r) in w'.acks
      ensures AckOk(w', t, r)
    {
      assert (t, r) in w.acks ==> AckOk(w, t, r);
    }
  }

  lemma AcceptPromises(w: View, s: nat, m: nat)
    requires Safe(w) && CanAccept(w, s, m)
    ensures LeadersComplete(Accept(w, s, m))
    ensures AcksKept(Accept(w, s, m))
    ensures AcksSeenByVotes(Accept(w, s, m))
  {
    AcceptKept(w, s, m);
    AcceptVotes(w, s, m);
    AcceptGrows(w, s, m);
    PromisesCarry(w, Accept(w, s, m));
  }

  lemma AcceptKept(w: View, s: nat, m: nat)
    requires Safe(w) && CanAccept(w, s, m)
    ensures AcksKept(Accept(w, s, m))
  {
    var w' := Accept(w, s, m);
    AcceptGrows(w, s, m);
    PromisesCarry(w, w');
    forall t: nat, k: nat, r: nat | r < |w'.logs| && Acked(w', t, r, k) && Choosable(w', t, k)
      ensures Has(w', w'.logs[r], t, k)
    {
      if r == s {
        AcceptKeeps(w, s, m, t, k);
      } else {
        assert Acked(w, t, r, k);
      }
    }
  }

  lemma AcceptVotes(w: View, s: nat, m: nat)
    requires LogsOk(w) && BallotsOk(w) && AcksOk(w) && AcksSeenByVotes(w) && CanAccept(w, s, m)
    ensures AcksSeenByVotes(Accept(w, s, m))
  {
    var w' := Accept(w, s, m);
    AcceptGrows(w, s, m);
    PromisesCarry(w, w');
    forall t: nat, k: nat, u, r | (u, r) in w'.ballots && t < u && Acked(w', t, r, k) && Choosable(w', t, k)
      ensures Has(w', w'.ballots[(u, r)].log, t, k)
    {
      assert BallotOk(w, u, r);
      assert Acked(w, t, r, k);
    }
  }

  lemma AdoptWf(r: map<nat, Reign>, L: Log, R: Log, m: nat)
    requires WfLog(r, L) && WfLog(r, R) && m < |R|
    ensures WfLog(r, Adopt(L, R, m)) && Agree(R, Adopt(L, R, m), m)
    ensures LastTerm(Adopt(L, R, m)) <= LastTerm(L) || LastTerm(Adopt(L, R, m)) <= LastTerm(R)
  {
    var A := Adopt(L, R, m);
    forall k | 1 <= k < |A|
      ensures FromReign(r, A, k)
    {
      assert FromReign(r, if Agree(L, R, m) then L else R, k);
    }
    forall j, k
      ensures Ordered(A, j, k)
    {
      assert Ordered(L, j, k) && Ordered(R, j, k);
    }
    assert Ordered(R, m, |R| - 1);
  }

  /** Adopting the leader's log never loses an acknowledged entry that may be chosen. */
  lemma AcceptKeeps(w: View, s: nat, m: nat, t: nat, k: nat)
    requires Safe(w) && CanAccept(w, s, m)
    requires Acked(Accept(w, s, m), t, s, k) && Choosable(w, t, k)
    ensures Has(w, Accept(w, s, m).logs[s], t, k)
  {
    hide BallotsOk, ReignsOk, AcksSeenByVotes, ChoosableBy;
    var u := w.terms[s];
    var R := w.reigns[u].log;
    if Acked(w, t, s, k) {
      assert AckOk(w, t, s);
      assert Has(w, w.logs[s], t, k);
      if t < u {
        assert Has(w, R, t, k);
      }
    }
  }

  // ----- commitment -----

  ghost predicate ChosenBy(w: View, t: nat, k: nat, Q: set<nat>) {
    && Quorum(|w.terms|, Q)
    && forall s :: s in Q ==> Acked(w, t, s, k)
  }

  /** The entry at k is of term t and stored by a majority on that leader's word. */
  ghost predicate Chosen(w: View, t: nat, k: nat) {
    && t in w.reigns && k < |w.reigns[t].log| && w.reigns[t].log[k].term == t
    && exists Q :: ChosenBy(w, t, k, Q)
  }

  /** L is committed up to ci by a leader of some term up to u. */
  ghost predicate Committed(w: View, L: Log, ci: nat, u: nat) {
    || (ci == 0 && |L| >= 1 && L[0] == SENTINEL)
    || exists t: nat, k: nat :: CommittedBy(w, L, ci, u, t, k)
  }

  ghost predicate CommittedBy(w: View, L: Log, ci: nat, u: nat, t: nat, k: nat) {
    t <= u && Chosen(w, t, k) && ci <= k && Agree(w.reigns[t].log, L, ci)
  }

  lemma ChosenIsChoosable(w: View, t: nat, k: nat)
    requires Chosen(w, t, k)
    ensures Choosable(w, t, k)
  {
    var Q :| ChosenBy(w, t, k, Q);
    assert ChoosableBy(w, t, k, Q);
  }

  lemma ChosenGrows(w: View, w': View, t: nat, k: nat)
    requires Chosen(w, t, k) && Grows(w, w')
    ensures Chosen(w', t, k)
  {
    var Q :| ChosenBy(w, t, k, Q);
    assert ChosenBy(w', t, k, Q);
  }

  lemma CommittedGrows(w: View, w': View, L: Log, ci: nat, u: nat, L': Log, ci': nat, u': nat)
    requires Committed(w, L, ci, u) && Grows(w, w')
    requires ci' <= ci && u <= u' && Agree(L, L', ci')
    ensures Committed(w', L', ci', u')
  {
    if !(ci == 0 && |L| >= 1 && L[0] == SENTINEL) {
      var t: nat, k: nat :| CommittedBy(w, L, ci, u, t, k);
      ChosenGrows(w, w', t, k);
      assert CommittedBy(w', L', ci', u', t, k);
    }
  }

  /** A chosen entry, with all before it, is in the log of every later leader. */
  lemma ChosenStays(w: View, t: nat, k: nat, u: nat)
    requires LeadersComplete(w) && Chosen(w, t, k)
    requires u in w.reigns && t <= u
    ensures Agree(w.reigns[t].log, w.reigns[u].log, k)
  {
    if t < u {
      ChosenIsChoosable(w, t, k);
      assert Has(w, w.reigns[u].log, t, k);
    }
  }

  /** Leader Completeness: whatever is committed by term u is in the log of every
      leader of term u or later. */
  lemma LeaderCompleteness(w: View, L: Log, ci: nat, u: nat, t: nat)
    requires LogsOk(w) && LeadersComplete(w) && Committed(w, L, ci, u)
    requires t in w.reigns && u <= t
    ensures Agree(L, w.reigns[t].log, ci)
  {
    assert WfLog(w.reigns, w.reigns[t].log);
    if !(ci == 0 && |L| >= 1 && L[0] == SENTINEL) {
      var t0: nat, k: nat :| CommittedBy(w, L, ci, u, t0, k);
      ChosenStays(w, t0, k, t);
    }
  }

  /** Two committed prefixes agree as far as both reach. */
  lemma CommittedAgree(w: View, A: Log, a: nat, ua: nat, B: Log, b: nat, ub: nat)
    requires LogsOk(w) && LeadersComplete(w)
    requires Committed(w, A, a, ua) && Committed(w, B, b, ub) && a <= b
    ensures Agree(A, B, a)
  {
    CommittedRoot(w, A, a, ua);
    CommittedRoot(w, B, b, ub);
    if a > 0 {
      var ta: nat, ka: nat :| CommittedBy(w, A, a, ua, ta, ka);
      var tb: nat, kb: nat :| CommittedBy(w, B, b, ub, tb, kb);
      if ta < tb {
        ChosenStays(w, ta, ka, tb);
      } else {
        ChosenStays(w, tb, kb, ta);
      }
    }
  }

  lemma CommittedRoot(w: View, L: Log, ci: nat, u: nat)
    requires LogsOk(w) && Committed(w, L, ci, u)
    ensures |L| > ci && L[0] == SENTINEL
  {
    if !(ci == 0 && |L| >= 1 && L[0] == SENTINEL) {
      var t: nat, k: nat :| CommittedBy(w, L, ci, u, t, k);
      assert WfLog(w.reigns, w.reigns[t].log);
    }
  }
}
