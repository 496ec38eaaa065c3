/** Nothing is invented: what stands in a log was handed to a leader before. */
module RaftStarted {
  import opened RaftTypes
  import opened RaftCore
  import opened RaftServer
  import opened RaftService
  import opened RaftCluster

  /** The commands that were handed to a peer. */
  ghost function Started(es: seq<Step>): set<Command> {
    set k | 0 <= k < |es| && es[k].ClientStart? :: es[k].cmd
  }

  ghost predicate Within(L: Log, C: set<Command>) {
    forall k :: 1 <= k < |L| ==> L[k].cmd in C
  }

  ghost predicate AllWithin(w: View, C: set<Command>) {
    && (forall i :: 0 <= i < |w.logs| ==> Within(w.logs[i], C))
    && (forall t :: t in w.reigns ==> Within(w.reigns[t].log, C))
  }

  lemma SeenWithin(w: View, i: nat, t: nat, C: set<Command>)
    requires AllWithin(w, C) && i < |w.terms|
    ensures AllWithin(Seen(w, i, t), C)
  {
  }

  lemma AcceptWithin(w: View, i: nat, m: int, C: set<Command>)
    requires AllWithin(w, C)
    ensures AllWithin(AcceptIf(w, i, m), C)
  {
    if m >= 0 && CanAccept(w, i, m) {
      assert Within(w.logs[i], C) && Within(w.reigns[w.terms[i]].log, C);
    }
  }

  lemma ElectWithin(w: View, i: nat, voters: set<nat>, C: set<Command>)
    requires AllWithin(w, C) && i < |w.terms| == |w.logs| && |w.logs[i]| >= 1
    ensures AllWithin(Elect(w, i, voters), C)
  {
  }

  lemma ExtendWithin(w: View, i: nat, cmd: Command, C: set<Command>)
    requires AllWithin(w, C) && i < |w.terms| == |w.logs| && w.terms[i] in w.reigns
    ensures AllWithin(Extend(w, i, cmd), C + {cmd})
  {
    assert Within(w.logs[i], C);
  }

  lemma StepWithin(c: Cluster, e: Step, C: set<Command>)
    requires Shape(c) && Enabled(c, e) && AllWithin(c.view, C)
    ensures AllWithin(Next(c, e).view, if e.ClientStart? then C + {e.cmd} else C)
  {
    hide StartElection, RequestVote, VoteReply, AppendEntries, AppendReplied, InstallSnapshot, SnapshotReplied,
         TakeSnapshot, Boot, ApplyNext, Observe, Seen, AcceptIf, Elect, Extend, HandOver, AppendArgsFor,
         SnapshotArgsFor, Start, Within;
    var w := c.view;
    match e
    case RecvVoteReq(m) => SeenWithin(w, m.dst, m.vote.term, C);
    case RecvVoteRep(m) =>
      var s' := VoteReply(c.servers[m.dst], m.vote.term, m.src, m.voteReply);
      SeenWithin(w, m.dst, s'.currentTerm, C);
      if |w.logs[m.dst]| >= 1 {
        ElectWithin(w, m.dst, s'.votes, C);
      }
    case ClientStart(i, cmd) =>
      if w.terms[i] in w.reigns {
        ExtendWithin(w, i, cmd, C);
      }
      More(w, C, C + {cmd});
    case RecvAppReq(m) =>
      SeenWithin(w, m.dst, m.app.term, C);
      AcceptWithin(Seen(w, m.dst, m.app.term), m.dst, m.app.prevLogIndex + |m.app.entries|, C);
    case RecvAppRep(m) =>
      SeenWithin(w, m.dst, AppendReplied(c.servers[m.dst], m.src, m.app, m.appReply).currentTerm, C);
    case RecvSnapReq(m) =>
      SeenWithin(w, m.dst, m.snap.term, C);
      AcceptWithin(Seen(w, m.dst, m.snap.term), m.dst, m.snap.lastIncludedIndex, C);
    case RecvSnapRep(m) =>
      SeenWithin(w, m.dst, SnapshotReplied(c.servers[m.dst], m.src, m.snap, m.snapReply).currentTerm, C);
    case Restart(i, t) => SeenWithin(w, i, t, C);
    case _ =>
  }

  lemma More(w: View, C: set<Command>, D: set<Command>)
    requires AllWithin(w, C) && C <= D
    ensures AllWithin(w, D)
  {
    forall i | 0 <= i < |w.logs|
      ensures Within(w.logs[i], D)
    {
      assert Within(w.logs[i], C);
    }
    forall t | t in w.reigns
      ensures Within(w.reigns[t].log, D)
    {
      assert Within(w.reigns[t].log, C);
    }
  }

  /** In every state, every entry of every log was started in an earlier step. */
  lemma {:induction false} RunStarted(cs: seq<Cluster>, es: seq<Step>, n: nat)
    requires IsRun(cs, es) && n < |cs|
    ensures AllWithin(cs[n].view, Started(es[..n]))
    decreases n
  {
    hide Next, Shape, Enabled, Init, AllWithin;
    if n == 0 {
      InitWithin(|cs[0].servers|, Started(es[..0]));
    } else {
      RunStarted(cs, es, n - 1);
      StepWithin(cs[n - 1], es[n - 1], Started(es[..n - 1]));
      StartedNext(es, n - 1);
      More(cs[n].view, if es[n - 1].ClientStart? then Started(es[..n - 1]) + {es[n - 1].cmd} else Started(es[..n - 1]),
           Started(es[..n]));
    }
  }

  lemma InitWithin(n: nat, C: set<Command>)
    ensures AllWithin(Init(n).view, C)
  {
  }

  lemma StartedNext(es: seq<Step>, n: nat)
    requires n < |es|
    ensures Started(es[..n]) <= Started(es[..n + 1])
    ensures es[n].ClientStart? ==> es[n].cmd in Started(es[..n + 1])
  {
    forall cmd | cmd in Started(es[..n])
      ensures cmd in Started(es[..n + 1])
    {
      var k :| 0 <= k < n && es[..n][k].ClientStart? && es[..n][k].cmd == cmd;
      assert es[..n + 1][k] == es[..n][k];
    }
    assert es[..n + 1][n] == es[n];
  }

  /** The step that started it. */
  lemma StartStepOf(cs: seq<Cluster>, es: seq<Step>, n: nat, i: nat, k: nat) returns (l: nat)
    requires IsRun(cs, es) && n < |cs| && i < |cs[n].view.logs| && 1 <= k < |cs[n].view.logs[i]|
    ensures l < n && es[l].ClientStart? && es[l].cmd == cs[n].view.logs[i][k].cmd
  {
    hide Next, Shape, Enabled, Init;
    RunStarted(cs, es, n);
    assert Within(cs[n].view.logs[i], Started(es[..n]));
    l :| 0 <= l < n && es[..n][l].ClientStart? && es[..n][l].cmd == cs[n].view.logs[i][k].cmd;
  }
}
