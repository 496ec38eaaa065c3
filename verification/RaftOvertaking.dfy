/** A run in which a command passes a snapshot on its way to the service. */
module RaftOvertaking {
  import opened Common
  import opened Counting
  import opened RaftTypes
  import opened RaftCore
  import opened RaftServer
  import opened RaftService
  import opened RaftCluster
  import opened RaftTheorems

  /** c is the last state of a run. */
  ghost predicate Reached(c: Cluster) {
    exists cs, es :: EndsIn(cs, es, c)
  }

  ghost predicate EndsIn(cs: seq<Cluster>, es: seq<Step>, c: Cluster) {
    IsRun(cs, es) && cs[|cs| - 1] == c
  }

  lemma ReachInit(n: nat)
    ensures Reached(Init(n)) && Shape(Init(n))
  {
    var c := Init(n);
    assert EndsIn([c], [], c);
    RunInv([c], [], 0);
  }

  lemma ReachNext(c: Cluster, e: Step)
    requires Reached(c) && Shape(c) && Enabled(c, e)
    ensures Reached(Next(c, e)) && Shape(Next(c, e))
  {
    hide Enabled, Next, Shape, Init;
    var cs, es :| EndsIn(cs, es, c);
    var cs', es' := cs + [Next(c, e)], es + [e];
    forall k | 0 <= k < |es'|
      ensures Shape(cs'[k]) && Enabled(cs'[k], es'[k]) && cs'[k + 1] == Next(cs'[k], es'[k])
    {
      if k < |es| {
        assert cs'[k] == cs[k] && cs'[k + 1] == cs[k + 1] && es'[k] == es[k];
      }
    }
    assert EndsIn(cs', es', Next(c, e));
    RunInv(cs', es', |es'|);
  }

  // ----- the peers on the way -----

  const X := Entry(1, "x")
  const Y := Entry(1, "y")

  /** The first of three peers stands and wins, takes two commands, commits both with the
      help of the third, applies the first and trims it. */
  const A0 := Boot(0, 3, None, [])
  const A1 := StartElection(A0)
  const A2 := BecomeLeader(A1.(votes := {0, 2}))
  const A3 := Start(Start(A2, "x"), "y")
  const A4 := A3.(matchIndex := [0, 0, 2], nextIndex := [1, 1, 3], commitIndex := 2)
  const A5 := A4.(lastApplied := 1)
  const A6 := Persist(A5.(log := [Entry(1, ""), Y], lastIncludedIndex := 1, lastIncludedTerm := 1, snapshot := ["x"]))
  const A7 := A6.(matchIndex := [0, 1, 2], nextIndex := [1, 2, 3])

  /** The second gets the snapshot, and then the second command. */
  const B0 := Boot(1, 3, None, [])
  const B1 := Persist(BecomeFollower(B0, 1).(log := [Entry(1, "")], lastIncludedIndex := 1, lastIncludedTerm := 1,
                                            commitIndex := 1, lastApplied := 1, snapshot := ["x"]))
  const B2 := Persist(B1.(log := [Entry(1, ""), Y])).(commitIndex := 2)
  const B3 := B2.(lastApplied := 2)

  const C0 := Boot(2, 3, None, [])
  const C1 := Persist(BecomeFollower(C0, 1).(votedFor := 0))
  const C2 := Persist(C1.(log := [SENTINEL, X, Y]))

  const IDLE := Service([], 0, [])

  const VOTE := RequestVoteArgs(1, 0, 0, 0)
  const BOTH := AppendArgs(1, 0, 0, 0, [X, Y], 0)
  const SNAP := SnapshotArgs(1, 0, 1, 1, ["x"])
  const SECOND := AppendArgs(1, 0, 1, 1, [Y], 2)

  lemma VoteIsGranted()
    ensures VoteArgs(A1) == VOTE && RequestVote(C0, VOTE) == (C1, RequestVoteReply(1, true))
  {
    assert Grants(C0, VOTE);
  }

  lemma ElectionIsWon()
    ensures VoteReply(A1, 1, 2, RequestVoteReply(1, true)) == A2
  {
    hide BecomeLeader;
    var votes: set<nat> := {0, 2};
    assert A1.votes + {2} == votes;
    assert |votes| == 2;
    assert A1.currentTerm == 1 && A1.role == Candidate && A1.peers == 3;
  }

  lemma BothAreSent()
    ensures A3.log == [SENTINEL, X, Y] && A3.nextIndex == [1, 1, 1] && A3.matchIndex == [0, 0, 0] && A3.role == Leader
    ensures Wf(A3) && !NeedsSnapshot(A3, 2) && AppendArgsFor(A3, 2) == BOTH
  {
    assert A3.log[1..] == [X, Y];
  }

  lemma BothAreTaken()
    ensures AppendEntries(C1, BOTH) == (C2, AppendReply(1, true, -1, -1))
  {
    assert [SENTINEL][..1] == [SENTINEL];
    assert Merge([SENTINEL], 1, [X, Y]) == [SENTINEL, X, Y];
    assert Observe(C1, 1) == C1 && Clamp(C1, BOTH) == BOTH;
    assert C1.log == [SENTINEL] && C1.role == Follower && LastLogIndex(C1) == 0 && TermAt(C1, 0) == 0;
    assert LastLogIndex(C2) == 2;
  }

  lemma BothAreCommitted()
    ensures AppendReplied(A3, 2, BOTH, AppendReply(1, true, -1, -1)) == A4
  {
    BothAreSent();
    var s := A3.(matchIndex := [0, 0, 2], nextIndex := [1, 1, 3]);
    assert Holders(s, 2) == {0, 2};
    assert |{0, 2}| == 2;
    assert LastLogIndex(s) == 2 && TermAt(s, 2) == 1 && s.currentTerm == 1;
    assert CanCommit(s, 2) && CommitFrom(s, 2) == 2;
    assert A3.matchIndex[2 := 2] == [0, 0, 2] && A3.nextIndex[2 := 3] == [1, 1, 3];
  }

  lemma FirstIsApplied()
    ensures CanApply(A4) && A4.commitIndex <= LastLogIndex(A4) && ApplyNext(A4) == (A5, CommandMsg(1, "x"))
  {
    BothAreSent();
  }

  lemma FirstIsTrimmed()
    ensures TakeSnapshot(A5, 1, ["x"]) == A6
  {
    BothAreSent();
    assert A5.log[2..] == [Y] && [Entry(1, "")] + [Y] == [Entry(1, ""), Y];
  }

  lemma SnapshotIsSent()
    ensures A6.role == Leader && A6.nextIndex == [1, 1, 3] && NeedsSnapshot(A6, 1) && SnapshotArgsFor(A6) == SNAP
    ensures A6.matchIndex == [0, 0, 2] && Wf(A6) && SnapshotReplied(A6, 1, SNAP, SnapshotReply(1)) == A7
  {
    BothAreSent();
    assert A6.matchIndex[1 := 1] == [0, 1, 2] && A6.nextIndex[1 := 2] == [1, 2, 3];
  }

  lemma SnapshotIsInstalled()
    ensures InstallSnapshot(B0, SNAP) == (B1, SnapshotReply(1), Some(SnapshotMsg(1, 1, ["x"])))
  {
  }

  lemma SnapshotIsOld()
    ensures InstallSnapshot(B1, SNAP) == (B1, SnapshotReply(1), None)
  {
  }

  lemma SecondIsSent()
    ensures A7.role == Leader && A7.nextIndex == [1, 2, 3] && Wf(A7) && !NeedsSnapshot(A7, 1)
    ensures AppendArgsFor(A7, 1) == SECOND
    ensures LastLogIndex(A7) == 2
  {
    SnapshotIsSent();
    assert A7.log == [Entry(1, ""), Y] && A7.log[1..] == [Y];
  }

  lemma SecondIsTaken()
    ensures AppendEntries(B1, SECOND).0 == B2 && AppendEntries(B1, SECOND).1.success
    ensures CanApply(B2) && B2.commitIndex <= LastLogIndex(B2) && ApplyNext(B2) == (B3, CommandMsg(2, "y"))
  {
    assert [Entry(1, "")][..1] == [Entry(1, "")];
    assert Merge([Entry(1, "")], 1, [Y]) == [Entry(1, ""), Y];
    assert Observe(B1, 1) == B1 && Clamp(B1, SECOND) == SECOND;
    assert B1.log == [Entry(1, "")] && B1.role == Follower && LastLogIndex(B1) == 1 && TermAt(B1, 1) == 1;
    assert LastLogIndex(B2) == 2;
  }

  // ----- the run -----

  ghost predicate At(c: Cluster, a: Server, b: Server, d: Server, va: Service, vb: Service) {
    Reached(c) && Shape(c) && c.servers == [a, b, d] && c.services == [va, vb, IDLE]
  }

  lemma Began() returns (c: Cluster)
    ensures At(c, A0, B0, C0, IDLE, IDLE)
  {
    hide Reached;
    ReachInit(3);
    c := Init(3);
  }

  lemma Stood(c0: Cluster) returns (c: Cluster)
    requires At(c0, A0, B0, C0, IDLE, IDLE)
    ensures At(c, A1, B0, C0, IDLE, IDLE) && VoteReq(0, 2, VOTE) in c.net
  {
    hide Reached, Stand, StartElection, B0, C0, Ids, VoteArgs, Shape;
    VoteIsGranted();
    StandsFirst(c0);
    ReachNext(c0, Timeout(0));
    c := Next(c0, Timeout(0));
  }

  lemma StandsFirst(c: Cluster)
    requires Shape(c) && |c.servers| == 3 && c.servers[0] == A0
    ensures A0.role != Leader && 2 in Ids(3)
  {
  }

  lemma Voted(c0: Cluster) returns (c: Cluster)
    requires At(c0, A1, B0, C0, IDLE, IDLE) && VoteReq(0, 2, VOTE) in c0.net
    ensures At(c, A1, B0, C1, IDLE, IDLE) && VoteRep(2, 0, VOTE, RequestVoteReply(1, true)) in c.net
  {
    hide Reached, Seen, Vote, RequestVote, A1, B0, C0, C1;
    VoteIsGranted();
    ReachNext(c0, RecvVoteReq(VoteReq(0, 2, VOTE)));
    c := Next(c0, RecvVoteReq(VoteReq(0, 2, VOTE)));
  }

  lemma Elected(c0: Cluster) returns (c: Cluster)
    requires At(c0, A1, B0, C1, IDLE, IDLE) && VoteRep(2, 0, VOTE, RequestVoteReply(1, true)) in c0.net
    ensures At(c, A2, B0, C1, IDLE, IDLE)
  {
    hide Reached, Seen, Elect, VoteReply, A1, A2, B0, C1;
    ElectionIsWon();
    var answer := VoteRep(2, 0, VOTE, RequestVoteReply(1, true));
    ReachNext(c0, RecvVoteRep(answer));
    c := Next(c0, RecvVoteRep(answer));
  }

  lemma Started(c0: Cluster) returns (c: Cluster)
    requires At(c0, A2, B0, C1, IDLE, IDLE)
    ensures At(c, A3, B0, C1, IDLE, IDLE)
  {
    hide Reached, Extend;
    c := c0;
    ReachNext(c, ClientStart(0, "x"));
    c := Next(c, ClientStart(0, "x"));
    assert c.servers == [Start(A2, "x"), B0, C1];
    ReachNext(c, ClientStart(0, "y"));
    c := Next(c, ClientStart(0, "y"));
  }

  lemma CommittedByTwo(c0: Cluster) returns (c: Cluster)
    requires At(c0, A3, B0, C1, IDLE, IDLE)
    ensures At(c, A4, B0, C2, IDLE, IDLE)
  {
    hide Reached, Seen, AcceptIf, AppendEntries, AppendReplied, AppendArgsFor;
    BothAreSent();
    BothAreTaken();
    BothAreCommitted();
    c := c0;
    ReachNext(c, Replicate(0, 2));
    c := Next(c, Replicate(0, 2));
    var ask := AppReq(0, 2, BOTH);
    assert c.servers == [A3, B0, C1] && ask in c.net;
    ReachNext(c, RecvAppReq(ask));
    c := Next(c, RecvAppReq(ask));
    var answer := AppRep(2, 0, BOTH, AppendReply(1, true, -1, -1));
    assert c.servers == [A3, B0, C2] && answer in c.net;
    ReachNext(c, RecvAppRep(answer));
    c := Next(c, RecvAppRep(answer));
  }

  lemma Arrivals()
    ensures HandOver(Service([], 0, [CommandMsg(1, "x")]), 0) == Service(["x"], 1, [])
    ensures HandOver(Service([], 0, [SnapshotMsg(1, 1, ["x"]), CommandMsg(2, "y")]), 1) ==
              Service(["y"], 2, [SnapshotMsg(1, 1, ["x"])])
    ensures HandOver(Service(["y"], 2, [SnapshotMsg(1, 1, ["x"])]), 0) == Service(["y"], 2, [])
  {
    assert [] + ["x"] == ["x"] && [] + ["y"] == ["y"];
  }

  lemma Applied(c0: Cluster) returns (c: Cluster)
    requires At(c0, A4, B0, C2, IDLE, IDLE)
    ensures At(c, A5, B0, C2, Service(["x"], 1, []), IDLE)
  {
    hide Reached, ApplyNext, Reorder, HandOver, A4, A5, B0, C2;
    FirstIsApplied();
    Arrivals();
    c := c0;
    ReachNext(c, Apply(0));
    c := Next(c, Apply(0));
    assert c.services[0] == Service([], 0, [CommandMsg(1, "x")]);
    ReachNext(c, Receive(0, 0));
    c := Next(c, Receive(0, 0));
  }

  lemma Trimmed(c0: Cluster) returns (c: Cluster)
    requires At(c0, A5, B0, C2, Service(["x"], 1, []), IDLE)
    ensures At(c, A6, B0, C2, Service(["x"], 1, []), IDLE)
  {
    hide Reached, TakeSnapshot, A5, A6, B0, C2;
    FirstIsTrimmed();
    c := c0;
    assert SavedAt(c.services[0], 1) == ["x"];
    ReachNext(c, Snapshot(0, 1));
    c := Next(c, Snapshot(0, 1));
  }

  lemma Asked(c0: Cluster) returns (c: Cluster)
    requires At(c0, A6, B0, C2, Service(["x"], 1, []), IDLE)
    ensures At(c, A6, B0, C2, Service(["x"], 1, []), IDLE) && SnapReq(0, 1, SNAP) in c.net
  {
    hide Reached, A6, B0, C2;
    SnapshotIsSent();
    ReachNext(c0, Replicate(0, 1));
    c := Next(c0, Replicate(0, 1));
  }

  lemma Installed(c0: Cluster) returns (c: Cluster)
    requires At(c0, A6, B0, C2, Service(["x"], 1, []), IDLE) && SnapReq(0, 1, SNAP) in c0.net
    ensures At(c, A6, B1, C2, Service(["x"], 1, []), Service([], 0, [SnapshotMsg(1, 1, ["x"])]))
    ensures SnapReq(0, 1, SNAP) in c.net
  {
    hide Reached, Seen, AcceptIf, InstallSnapshot, A6, B0, B1, C2;
    SnapshotIsInstalled();
    ReachNext(c0, RecvSnapReq(SnapReq(0, 1, SNAP)));
    c := Next(c0, RecvSnapReq(SnapReq(0, 1, SNAP)));
    assert [] + [SnapshotMsg(1, 1, ["x"])] == [SnapshotMsg(1, 1, ["x"])];
  }

  /** The handler that installed the snapshot answers only when it has sent it on; a second
      request is answered at once, because its snapshot is old by now. */
  lemma Answered(c0: Cluster) returns (c: Cluster)
    requires At(c0, A6, B1, C2, Service(["x"], 1, []), Service([], 0, [SnapshotMsg(1, 1, ["x"])]))
    requires SnapReq(0, 1, SNAP) in c0.net
    ensures At(c, A7, B1, C2, Service(["x"], 1, []), Service([], 0, [SnapshotMsg(1, 1, ["x"])]))
  {
    hide Reached, Seen, AcceptIf, InstallSnapshot, SnapshotReplied, A6, A7, B1, C2;
    SnapshotIsSent();
    SnapshotIsOld();
    c := c0;
    ReachNext(c, RecvSnapReq(SnapReq(0, 1, SNAP)));
    c := Next(c, RecvSnapReq(SnapReq(0, 1, SNAP)));
    var answer := SnapRep(1, 0, SNAP, SnapshotReply(1));
    assert c.servers == [A6, B1, C2] && answer in c.net;
    ReachNext(c, RecvSnapRep(answer));
    c := Next(c, RecvSnapRep(answer));
  }

  lemma SecondApplied(c0: Cluster) returns (c: Cluster)
    requires At(c0, A7, B1, C2, Service(["x"], 1, []), Service([], 0, [SnapshotMsg(1, 1, ["x"])]))
    ensures At(c, A7, B3, C2, Service(["x"], 1, []), Service([], 0, [SnapshotMsg(1, 1, ["x"]), CommandMsg(2, "y")]))
  {
    hide Reached, Seen, AcceptIf, AppendEntries, AppendArgsFor, ApplyNext, A7, B1, B2, B3, C2;
    SecondIsSent();
    SecondIsTaken();
    c := c0;
    ReachNext(c, Replicate(0, 1));
    c := Next(c, Replicate(0, 1));
    var ask := AppReq(0, 1, SECOND);
    assert c.servers == [A7, B1, C2] && ask in c.net;
    ReachNext(c, RecvAppReq(ask));
    c := Next(c, RecvAppReq(ask));
    assert c.servers == [A7, B2, C2];
    ReachNext(c, Apply(1));
    c := Next(c, Apply(1));
    assert c.servers == [A7, B3, C2];
    assert c.services[1].pending == [SnapshotMsg(1, 1, ["x"]), CommandMsg(2, "y")];
  }

  lemma Overtaken(c0: Cluster) returns (c: Cluster)
    requires At(c0, A7, B3, C2, Service(["x"], 1, []), Service([], 0, [SnapshotMsg(1, 1, ["x"]), CommandMsg(2, "y")]))
    ensures At(c, A7, B3, C2, Service(["x"], 1, []), Service(["y"], 2, []))
  {
    hide Reached, Reorder, HandOver, A7, B3, C2;
    Arrivals();
    c := c0;
    ReachNext(c, Receive(1, 1));
    c := Next(c, Receive(1, 1));
    assert c.services[1] == Service(["y"], 2, [SnapshotMsg(1, 1, ["x"])]);
    ReachNext(c, Receive(1, 0));
    c := Next(c, Receive(1, 0));
  }

  /** A delayed snapshot of entry 1 is passed by command 2.  The service executes the
      command on an empty state and refuses the snapshot when it comes.  In the end nothing
      is under way, and neither of two services has applied a prefix of the other. */
  lemma OvertakenSnapshotIsLost() returns (cs: seq<Cluster>, es: seq<Step>)
    ensures IsRun(cs, es)
    ensures var c := cs[|cs| - 1];
            && |c.services| == 3 && c.services[0] == Service(["x"], 1, []) && c.services[1] == Service(["y"], 2, [])
            && !(c.services[0].applied <= c.services[1].applied) && !(c.services[1].applied <= c.services[0].applied)
  {
    hide Shape, IsRun;
    var c := Began();
    c := Stood(c);
    c := Voted(c);
    c := Elected(c);
    c := Started(c);
    c := CommittedByTwo(c);
    c := Applied(c);
    c := Trimmed(c);
    c := Asked(c);
    c := Installed(c);
    c := Answered(c);
    c := SecondApplied(c);
    c := Overtaken(c);
    cs, es :| EndsIn(cs, es, c);
    assert ["x"][0] != ["y"][0];
  }
}
