/** The key/value service on top of Raft: when messages arrive in order, the services of a
    cluster are replicas of one committed log, and what their clients see is linearizable. */
module RaftKv {
  import opened Common
  import opened RaftTypes
  import opened RaftCore
  import opened RaftServer
  import opened RaftService
  import opened RaftCluster
  import opened RaftSafety
  import opened RaftTheorems
  import opened RaftStarted
  import opened ClientHistory
  import S = ShardServer
  import V = KvReplica
  import K = KvTheorems
  import KC = KvClients
  import L = Linearizability
  import M = KvModel

  /** How the service reads a command. */
  type Decoder = Command -> S.ClientOp

  function Decoded(dec: Decoder, h: Data): seq<S.ClientOp> {
    seq(|h|, i requires 0 <= i < |h| => dec(h[i]))
  }

  function Executed(ops: seq<S.ClientOp>): V.Store {
    if ops == [] then V.EMPTY else V.Execute(Executed(ops[..|ops| - 1]), ops[|ops| - 1]).0
  }

  /** The state of a service that has applied these commands. */
  function StoreAfter(dec: Decoder, h: Data): V.Store {
    Executed(Decoded(dec, h))
  }

  lemma StoreNext(dec: Decoder, h: Data, cmd: Command)
    ensures StoreAfter(dec, h + [cmd]) == V.Execute(StoreAfter(dec, h), dec(cmd)).0
  {
    var ops := Decoded(dec, h + [cmd]);
    assert ops[..|h|] == Decoded(dec, h) && ops[|h|] == dec(cmd);
  }

  function SnapOf(dec: Decoder, index: nat, data: Data): K.Snapshot {
    K.Snapshot(index, StoreAfter(dec, data))
  }

  /** What a peer and its service are to the key/value service. */
  function ReplicaOf(dec: Decoder, s: Server, v: Service): K.Replica {
    K.Replica(StoreAfter(dec, v.applied), v.lastApplied, |v.applied|,
              if s.lastIncludedIndex == 0 then None else Some(SnapOf(dec, s.lastIncludedIndex, s.snapshot)))
  }

  ghost predicate Known(dec: Decoder, w: K.World, index: nat, data: Data) {
    index > 0 ==> SnapOf(dec, index, data) in w.taken
  }

  /** Every snapshot that is stored or under way was taken by a service. */
  ghost predicate AllTaken(dec: Decoder, c: Cluster, w: K.World) {
    && (forall i :: 0 <= i < |c.servers| ==> Known(dec, w, c.servers[i].lastIncludedIndex, c.servers[i].snapshot))
    && (forall i, k :: 0 <= i < |c.services| && 0 <= k < |c.services[i].pending| ==>
          PostKnown(dec, w, c.services[i].pending[k]))
    && (forall m :: m in c.net ==> MsgKnown(dec, w, m))
  }

  ghost predicate PostKnown(dec: Decoder, w: K.World, m: ApplyMsg) {
    m.SnapshotMsg? ==> Known(dec, w, m.index, m.data)
  }

  ghost predicate MsgKnown(dec: Decoder, w: K.World, m: Msg) {
    m.SnapReq? ==> Known(dec, w, m.snap.lastIncludedIndex, m.snap.data)
  }

  ghost predicate Simulates(dec: Decoder, c: Cluster, w: K.World) {
    && |w.replicas| == |c.servers| == |c.services|
    && (forall i :: 0 <= i < |c.servers| ==> w.replicas[i] == ReplicaOf(dec, c.servers[i], c.services[i]))
    && AllTaken(dec, c, w)
  }

  /** What the service sees of a step. */
  ghost function KvStep(dec: Decoder, c: Cluster, e: Step): K.Step
    requires Shape(c) && Enabled(c, e)
  {
    match e
    case Receive(i, k) => Arrival(dec, i, c.services[i].pending[k])
    case Snapshot(i, _) => K.Save(i)
    case RecvSnapReq(m) =>
      if InstallSnapshot(c.servers[m.dst], m.snap).2.Some?
      then K.Persist(m.dst, SnapOf(dec, m.snap.lastIncludedIndex, m.snap.data)) else K.Unseen
    case Restart(i, _) => K.Restart(i)
    case _ => K.Unseen
  }

  function Arrival(dec: Decoder, i: nat, m: ApplyMsg): K.Step {
    match m
    case CommandMsg(index, _) => K.Command(i, index)
    case SnapshotMsg(index, _, data) => K.Install(i, SnapOf(dec, index, data))
  }

  // ----- one step -----

  /** What order gives: the next message fits, and stored snapshots are as long as they say. */
  ghost predicate Orderly(dec: Decoder, log: seq<S.ClientOp>, s: Server, v: Service) {
    && |s.snapshot| == s.lastIncludedIndex && OnDisk(s) == Image(s)
    && (v.lastApplied == |v.applied| || v.lastApplied == 0) && v.lastApplied <= s.commitIndex
    && (v.pending != [] ==> Fits(dec, log, v, v.pending[0]))
  }

  ghost predicate Fits(dec: Decoder, log: seq<S.ClientOp>, v: Service, m: ApplyMsg) {
    && 1 <= m.index <= |log|
    && (m.SnapshotMsg? ==> |m.data| == m.index)
    && (m.CommandMsg? ==> log[m.index - 1] == dec(m.cmd) && (m.index <= v.lastApplied || m.index == |v.applied| + 1))
  }

  /** Only peer i and its service change. */
  ghost predicate OnlyAt(c: Cluster, c': Cluster, i: nat) {
    && |c'.servers| == |c.servers| && |c'.services| == |c.services| && i < |c.servers| == |c.services|
    && (forall j :: 0 <= j < |c.servers| && j != i ==> c'.servers[j] == c.servers[j] && c'.services[j] == c.services[j])
  }

  lemma Carries(dec: Decoder, c: Cluster, c': Cluster, w: K.World, w': K.World, i: nat)
    requires Simulates(dec, c, w) && OnlyAt(c, c', i) && w.taken <= w'.taken && |w'.replicas| == |w.replicas|
    requires forall j :: 0 <= j < |w.replicas| && j != i ==> w'.replicas[j] == w.replicas[j]
    requires w'.replicas[i] == ReplicaOf(dec, c'.servers[i], c'.services[i])
    requires Known(dec, w', c'.servers[i].lastIncludedIndex, c'.servers[i].snapshot)
    requires forall k :: 0 <= k < |c'.services[i].pending| ==> PostKnown(dec, w', c'.services[i].pending[k])
    requires forall m :: m in c'.net ==> m in c.net || MsgKnown(dec, w', m)
    ensures Simulates(dec, c', w')
  {
    hide SnapOf, ReplicaOf;
    forall m | m in c'.net
      ensures MsgKnown(dec, w', m)
    {
      assert m in c.net ==> MsgKnown(dec, w, m);
    }
    forall j, k | 0 <= j < |c'.services| && 0 <= k < |c'.services[j].pending|
      ensures PostKnown(dec, w', c'.services[j].pending[k])
    {
      assert j != i ==> PostKnown(dec, w, c.services[j].pending[k]);
    }
  }

  /** A step that touches neither the snapshot of a peer nor what its service has applied. */
  lemma UnseenCarries(dec: Decoder, c: Cluster, c': Cluster, w: K.World, i: nat)
    requires Simulates(dec, c, w) && OnlyAt(c, c', i)
    requires c'.servers[i].lastIncludedIndex == c.servers[i].lastIncludedIndex
    requires c'.servers[i].snapshot == c.servers[i].snapshot
    requires c'.services[i].applied == c.services[i].applied && c'.services[i].lastApplied == c.services[i].lastApplied
    requires forall k :: 0 <= k < |c'.services[i].pending| ==>
               (k < |c.services[i].pending| && c'.services[i].pending[k] == c.services[i].pending[k])
               || PostKnown(dec, w, c'.services[i].pending[k])
    requires forall m :: m in c'.net ==> m in c.net || MsgKnown(dec, w, m)
    ensures Simulates(dec, c', w)
  {
    hide SnapOf, StoreAfter;
    forall k | 0 <= k < |c'.services[i].pending|
      ensures PostKnown(dec, w, c'.services[i].pending[k])
    {
      assert k < |c.services[i].pending| ==> PostKnown(dec, w, c.services[i].pending[k]);
    }
    Carries(dec, c, c', w, w, i);
  }

  // --- what the services do not see ---

  ghost predicate SameSnapshot(s: Server, s': Server) {
    s'.lastIncludedIndex == s.lastIncludedIndex && s'.snapshot == s.snapshot
  }

  lemma ElectionsKeep(s: Server, a: RequestVoteArgs, t: nat, p: nat, r: RequestVoteReply)
    requires Wf(s)
    ensures SameSnapshot(s, StartElection(s)) && SameSnapshot(s, RequestVote(s, a).0)
    ensures SameSnapshot(s, VoteReply(s, t, p, r))
  {
  }

  lemma AppendKeeps(s: Server, a: AppendArgs)
    requires Wf(s)
    ensures SameSnapshot(s, AppendEntries(s, a).0)
  {
    hide Merge, FirstOfTerm;
  }

  lemma AppendReplyKeeps(s: Server, p: nat, a: AppendArgs, r: AppendReply)
    requires Wf(s) && s.commitIndex <= LastLogIndex(s)
    requires s.role == Leader ==> p < s.peers == |s.nextIndex| == |s.matchIndex|
    ensures SameSnapshot(s, AppendReplied(s, p, a, r))
  {
    hide CommitFrom;
  }

  lemma SnapshotReplyKeeps(s: Server, p: nat, a: SnapshotArgs, r: SnapshotReply)
    requires s.role == Leader ==> p < |s.nextIndex| == |s.matchIndex|
    ensures SameSnapshot(s, SnapshotReplied(s, p, a, r))
  {
  }

  /** Installing a snapshot replaces the stored one and makes a message, or changes neither. */
  lemma InstallKeeps(s: Server, a: SnapshotArgs)
    requires Wf(s)
    ensures var (s', _, d) := InstallSnapshot(s, a);
            if d.None? then SameSnapshot(s, s')
            else
              && s'.lastIncludedIndex == a.lastIncludedIndex > 0 && s'.snapshot == a.data
              && d.value == SnapshotMsg(a.lastIncludedIndex, a.lastIncludedTerm, a.data)
  {
    hide TrimTo;
  }

  lemma UnseenVotes(dec: Decoder, c: Cluster, w: K.World, e: Step)
    requires Shape(c) && Enabled(c, e) && Simulates(dec, c, w)
    requires e.Timeout? || e.RecvVoteReq? || e.RecvVoteRep?
    ensures Simulates(dec, Next(c, e), w)
  {
    hide Simulates, StartElection, RequestVote, VoteReply, Seen, Elect, Vote, Stand, VoteArgs, SnapOf;
    match e
    case Timeout(i) =>
      ElectionsKeep(c.servers[i], RequestVoteArgs(0, 0, 0, 0), 0, 0, RequestVoteReply(0, false));
      UnseenCarries(dec, c, Next(c, e), w, i);
    case RecvVoteReq(m) =>
      ElectionsKeep(c.servers[m.dst], m.vote, 0, 0, RequestVoteReply(0, false));
      UnseenCarries(dec, c, Next(c, e), w, m.dst);
    case RecvVoteRep(m) =>
      ElectionsKeep(c.servers[m.dst], m.vote, m.vote.term, m.src, m.voteReply);
      UnseenCarries(dec, c, Next(c, e), w, m.dst);
  }

  lemma UnseenReplies(dec: Decoder, c: Cluster, w: K.World, e: Step)
    requires Shape(c) && Enabled(c, e) && Simulates(dec, c, w)
    requires e.RecvAppReq? || e.RecvAppRep? || e.RecvSnapRep?
    ensures Simulates(dec, Next(c, e), w)
  {
    hide Simulates, AppendEntries, AppendReplied, SnapshotReplied, Seen, AcceptIf, SnapOf;
    match e
    case RecvAppReq(m) =>
      AppendKeeps(c.servers[m.dst], m.app);
      UnseenCarries(dec, c, Next(c, e), w, m.dst);
    case RecvAppRep(m) =>
      AppendReplyKeeps(c.servers[m.dst], m.src, m.app, m.appReply);
      UnseenCarries(dec, c, Next(c, e), w, m.dst);
    case RecvSnapRep(m) =>
      SnapshotReplyKeeps(c.servers[m.dst], m.src, m.snap, m.snapReply);
      UnseenCarries(dec, c, Next(c, e), w, m.dst);
  }

  lemma UnseenStep(dec: Decoder, c: Cluster, w: K.World, e: Step)
    requires Shape(c) && Enabled(c, e) && Simulates(dec, c, w) && KvStep(dec, c, e) == K.Unseen
    ensures Simulates(dec, Next(c, e), w)
  {
    hide Simulates, StartElection, RequestVote, VoteReply, AppendEntries, AppendReplied, InstallSnapshot,
         SnapshotReplied, Boot, Seen, AcceptIf, AppendArgsFor, VoteArgs, Start, SnapOf;
    match e
    case ClientStart(i, cmd) =>
      StartKeeps(c.servers[i], cmd);
      UnseenCarries(dec, c, Next(c, e), w, i);
    case Replicate(i, p) =>
      SentKnown(dec, c, w, i);
      UnseenCarries(dec, c, Next(c, e), w, i);
    case RecvSnapReq(m) =>
      InstallKeeps(c.servers[m.dst], m.snap);
      UnseenCarries(dec, c, Next(c, e), w, m.dst);
    case Apply(i) => UnseenCarries(dec, c, Next(c, e), w, i);
    case _ =>
      if e.Timeout? || e.RecvVoteReq? || e.RecvVoteRep? {
        UnseenVotes(dec, c, w, e);
      } else {
        UnseenReplies(dec, c, w, e);
      }
  }

  lemma StartKeeps(s: Server, cmd: Command)
    ensures SameSnapshot(s, Start(s, cmd))
  {
  }

  lemma SentKnown(dec: Decoder, c: Cluster, w: K.World, i: nat)
    requires Simulates(dec, c, w) && i < |c.servers|
    ensures Known(dec, w, c.servers[i].lastIncludedIndex, c.servers[i].snapshot)
  {
  }

  // --- what they do see ---

  lemma SnapReqSeen(dec: Decoder, log: seq<S.ClientOp>, c: Cluster, w: K.World, m: Msg)
    requires Shape(c) && Enabled(c, RecvSnapReq(m)) && Simulates(dec, c, w)
    requires InstallSnapshot(c.servers[m.dst], m.snap).2.Some?
    ensures var e := KvStep(dec, c, RecvSnapReq(m));
            K.Enabled(log, w, e) && Simulates(dec, Next(c, RecvSnapReq(m)), K.After(log, w, e))
  {
    hide InstallSnapshot, Seen, AcceptIf, StoreAfter;
    InstallKeeps(c.servers[m.dst], m.snap);
    assert MsgKnown(dec, w, m);
    var c', e := Next(c, RecvSnapReq(m)), KvStep(dec, c, RecvSnapReq(m));
    var w' := K.After(log, w, e);
    forall k | 0 <= k < |c'.services[m.dst].pending|
      ensures PostKnown(dec, w', c'.services[m.dst].pending[k])
    {
      assert k < |c.services[m.dst].pending| ==> PostKnown(dec, w, c.services[m.dst].pending[k]);
    }
    Carries(dec, c, c', w, w', m.dst);
  }

  lemma SnapshotSeen(dec: Decoder, log: seq<S.ClientOp>, c: Cluster, w: K.World, i: nat, index: nat)
    requires Shape(c) && Enabled(c, Snapshot(i, index)) && Simulates(dec, c, w)
    requires Orderly(dec, log, c.servers[i], c.services[i]) && index == c.services[i].lastApplied
    ensures Simulates(dec, Next(c, Snapshot(i, index)), K.After(log, w, K.Save(i)))
  {
    hide StoreAfter, OnDisk, Image;
    var s, v := c.servers[i], c.services[i];
    var c', w' := Next(c, Snapshot(i, index)), K.After(log, w, K.Save(i));
    SentKnown(dec, c, w, i);
    assert w.replicas[i] == ReplicaOf(dec, s, v);
    if index > s.lastIncludedIndex {
      assert SavedAt(v, index) == v.applied;
    }
    forall k | 0 <= k < |c'.services[i].pending|
      ensures PostKnown(dec, w', c'.services[i].pending[k])
    {
      assert PostKnown(dec, w, c.services[i].pending[k]);
    }
    Carries(dec, c, c', w, w', i);
  }

  lemma ReceiveSeen(dec: Decoder, log: seq<S.ClientOp>, c: Cluster, w: K.World, i: nat)
    requires Shape(c) && Enabled(c, Receive(i, 0)) && Simulates(dec, c, w)
    requires Orderly(dec, log, c.servers[i], c.services[i])
    ensures var e := KvStep(dec, c, Receive(i, 0));
            K.Enabled(log, w, e) && Simulates(dec, Next(c, Receive(i, 0)), K.After(log, w, e))
  {
    hide StoreAfter, OnDisk, Image, V.Execute, Reorder;
    var v := c.services[i];
    var m := v.pending[0];
    var e, c' := KvStep(dec, c, Receive(i, 0)), Next(c, Receive(i, 0));
    assert PostKnown(dec, w, m) && Fits(dec, log, v, m);
    assert w.replicas[i] == ReplicaOf(dec, c.servers[i], v);
    var w' := K.After(log, w, e);
    SentKnown(dec, c, w, i);
    if m.CommandMsg? {
      StoreNext(dec, v.applied, m.cmd);
    }
    forall k | 0 <= k < |c'.services[i].pending|
      ensures PostKnown(dec, w', c'.services[i].pending[k])
    {
      assert c'.services[i].pending[k] == v.pending[k + 1];
      assert PostKnown(dec, w, v.pending[k + 1]);
    }
    Carries(dec, c, c', w, w', i);
  }

  lemma RestartSeen(dec: Decoder, log: seq<S.ClientOp>, c: Cluster, w: K.World, i: nat, t: nat)
    requires Shape(c) && Enabled(c, Restart(i, t)) && Simulates(dec, c, w)
    requires Orderly(dec, log, c.servers[i], c.services[i])
    ensures Simulates(dec, Next(c, Restart(i, t)), K.After(log, w, K.Restart(i)))
  {
    hide Seen;
    var s := c.servers[i];
    var c', w' := Next(c, Restart(i, t)), K.After(log, w, K.Restart(i));
    SentKnown(dec, c, w, i);
    assert w.replicas[i] == ReplicaOf(dec, s, c.services[i]);
    if s.lastIncludedIndex == 0 {
      assert s.snapshot == [];
      assert Decoded(dec, []) == [];
    }
    Carries(dec, c, c', w, w', i);
  }

  lemma StepSimulates(dec: Decoder, log: seq<S.ClientOp>, c: Cluster, w: K.World, e: Step)
    requires Shape(c) && Enabled(c, e) && Simulates(dec, c, w)
    requires forall i :: 0 <= i < |c.servers| ==> Orderly(dec, log, c.servers[i], c.services[i])
    requires e.Receive? ==> e.k == 0
    requires e.Snapshot? ==> e.index == c.services[e.i].lastApplied
    ensures K.Enabled(log, w, KvStep(dec, c, e))
    ensures Simulates(dec, Next(c, e), K.After(log, w, KvStep(dec, c, e)))
  {
    hide Orderly, Next, AllTaken, InstallSnapshot;
    match e
    case Receive(i, k) => ReceiveSeen(dec, log, c, w, i);
    case Snapshot(i, index) => SnapshotSeen(dec, log, c, w, i, index);
    case Restart(i, t) => RestartSeen(dec, log, c, w, i, t);
    case RecvSnapReq(m) =>
      if InstallSnapshot(c.servers[m.dst], m.snap).2.Some? {
        SnapReqSeen(dec, log, c, w, m);
      } else {
        UnseenStep(dec, c, w, e);
      }
    case _ => UnseenStep(dec, c, w, e);
  }

  // ----- the committed log -----

  /** The highest commit index among the first n peers. */
  ghost function Highest(c: Cluster, n: nat): (r: nat)
    requires n <= |c.servers|
    ensures forall i :: 0 <= i < n ==> c.servers[i].commitIndex <= r
    ensures r == 0 || exists i :: 0 <= i < n && c.servers[i].commitIndex == r
  {
    if n == 0 then 0
    else
      var r := Highest(c, n - 1);
      if c.servers[n - 1].commitIndex > r then c.servers[n - 1].commitIndex else r
  }

  /** How much of the log some peer has known to be committed, in the states up to k. */
  ghost function Length(cs: seq<Cluster>, k: nat): (r: nat)
    requires k < |cs|
    ensures forall a, i :: 0 <= a <= k && 0 <= i < |cs[a].servers| ==> cs[a].servers[i].commitIndex <= r
    ensures r == 0 || exists a, i :: 0 <= a <= k && 0 <= i < |cs[a].servers| && cs[a].servers[i].commitIndex == r
  {
    var now := Highest(cs[k], |cs[k].servers|);
    if k == 0 then now
    else
      var r := Length(cs, k - 1);
      if now > r then now else r
  }

  lemma {:induction false} LengthGrows(cs: seq<Cluster>, a: nat, b: nat)
    requires a <= b < |cs|
    ensures Length(cs, a) <= Length(cs, b)
    decreases b - a
  {
    if a < b {
      LengthGrows(cs, a, b - 1);
    }
  }

  /** log says what every peer, at every moment, knows to be committed. */
  ghost predicate LogOf(dec: Decoder, cs: seq<Cluster>, log: seq<S.ClientOp>) {
    && |cs| > 0 && |log| == Length(cs, |cs| - 1)
    && forall a, i, j :: 0 <= a < |cs| && 0 <= i < |cs[a].servers| && 1 <= j <= cs[a].servers[i].commitIndex ==>
         LogSays(dec, cs[a], i, j, log)
  }

  ghost predicate LogSays(dec: Decoder, c: Cluster, i: nat, j: nat, log: seq<S.ClientOp>) {
    i < |c.view.logs| && 1 <= j < |c.view.logs[i]| && j <= |log| && log[j - 1] == dec(c.view.logs[i][j].cmd)
  }

  /** There is one such log. */
  lemma CommittedLog(dec: Decoder, cs: seq<Cluster>, es: seq<Step>) returns (log: seq<S.ClientOp>)
    requires IsRun(cs, es)
    ensures LogOf(dec, cs, log)
  {
    hide Next, Shape, Enabled, Init;
    var n := Length(cs, |cs| - 1);
    if n == 0 {
      log := [];
    } else {
      var b, j :| 0 <= b < |cs| && 0 <= j < |cs[b].servers| && cs[b].servers[j].commitIndex == n;
      StateMachineSafety(cs, es, b, b, j, j, n);
      log := Decoded(dec, Commands(cs[b].view.logs[j], n));
      forall a, i, k | 0 <= a < |cs| && 0 <= i < |cs[a].servers| && 1 <= k <= cs[a].servers[i].commitIndex
        ensures LogSays(dec, cs[a], i, k, log)
      {
        StateMachineSafety(cs, es, a, b, i, j, k);
      }
    }
  }

  // ----- whole runs -----

  /** The service hands its state to Raft right after a command, under one lock. */
  ghost predicate SavesApplied(cs: seq<Cluster>, es: seq<Step>)
    requires IsRun(cs, es)
  {
    forall k :: 0 <= k < |es| && es[k].Snapshot? ==> es[k].index == cs[k].services[es[k].i].lastApplied
  }

  lemma RunOrderly(dec: Decoder, cs: seq<Cluster>, es: seq<Step>, log: seq<S.ClientOp>, a: nat, i: nat)
    requires IsRun(cs, es) && a < |cs| && i < |cs[a].servers| && InOrder(es, a) && LogOf(dec, cs, log)
    ensures |cs[a].services| == |cs[a].servers| && Orderly(dec, log, cs[a].servers[i], cs[a].services[i])
    ensures cs[a].services[i].pending != [] ==> cs[a].services[i].pending[0].index <= Length(cs, a)
  {
    hide IsRun, InOrder, LogsOk, LeadersComplete, Committed, VoteOk, CandidateOk, LeaderOk, Length, LogOf;
    HistoryAt(cs, es, a, i);
    ServerAt(cs, es, a, i);
    var s, v, F := cs[a].servers[i], cs[a].services[i], cs[a].view.logs[i];
    if v.pending != [] {
      var m := v.pending[0];
      assert OfLog(F, m) && m.index <= s.lastApplied;
      SaysLog(dec, cs, log, a, i, m.index);
    }
  }

  lemma SaysLog(dec: Decoder, cs: seq<Cluster>, log: seq<S.ClientOp>, a: nat, i: nat, j: nat)
    requires LogOf(dec, cs, log) && a < |cs| && i < |cs[a].servers| && 1 <= j <= cs[a].servers[i].commitIndex
    ensures LogSays(dec, cs[a], i, j, log) && j <= Length(cs, a)
  {
  }

  ghost function KvSteps(dec: Decoder, cs: seq<Cluster>, es: seq<Step>): seq<K.Step>
    requires IsRun(cs, es)
  {
    seq(|es|, k requires 0 <= k < |es| => KvStep(dec, cs[k], es[k]))
  }

  ghost predicate SimulatedTo(dec: Decoder, cs: seq<Cluster>, es: seq<Step>, log: seq<S.ClientOp>, ws: seq<K.World>,
                              n: nat)
    requires IsRun(cs, es) && n <= |es|
  {
    && |ws| == n + 1 && ws[0].taken == {}
    && (forall r :: 0 <= r < |ws[0].replicas| ==> ws[0].replicas[r] == K.FIRST)
    && (forall k :: 0 <= k <= n ==> Simulates(dec, cs[k], ws[k]))
    && (forall k :: 0 <= k < n ==>
          && K.Enabled(log, ws[k], KvSteps(dec, cs, es)[k])
          && ws[k + 1] == K.After(log, ws[k], KvSteps(dec, cs, es)[k]))
  }

  lemma {:induction false} Simulation(dec: Decoder, cs: seq<Cluster>, es: seq<Step>, log: seq<S.ClientOp>, n: nat)
    returns (ws: seq<K.World>)
    requires IsRun(cs, es) && InOrder(es, |es|) && SavesApplied(cs, es) && LogOf(dec, cs, log) && n <= |es|
    ensures SimulatedTo(dec, cs, es, log, ws, n)
    decreases n
  {
    hide Next, Shape, Enabled, Init, Simulates, LogOf, Orderly, KvStep;
    if n == 0 {
      var w := StartSimulates(dec, |cs[0].servers|);
      ws := [w];
    } else {
      ws := Simulation(dec, cs, es, log, n - 1);
      var k := n - 1;
      RunSized(cs, es, k);
      forall i | 0 <= i < |cs[k].servers|
        ensures Orderly(dec, log, cs[k].servers[i], cs[k].services[i])
      {
        RunOrderly(dec, cs, es, log, k, i);
      }
      StepSimulates(dec, log, cs[k], ws[k], es[k]);
      ws := ws + [K.After(log, ws[k], KvStep(dec, cs[k], es[k]))];
    }
  }

  lemma RunSized(cs: seq<Cluster>, es: seq<Step>, k: nat)
    requires IsRun(cs, es) && k < |es|
    ensures |cs[k].services| == |cs[k].servers| && (es[k].Snapshot? ==> es[k].i < |cs[k].services|)
  {
    hide Next, Init;
  }

  lemma StartSimulates(dec: Decoder, n: nat) returns (w: K.World)
    ensures Simulates(dec, Init(n), w) && w.taken == {}
    ensures forall r :: 0 <= r < |w.replicas| ==> w.replicas[r] == K.FIRST
  {
    w := K.World(seq(n, i => K.FIRST), {});
    assert Decoded(dec, []) == [];
  }

  /** The services of an in-order run of Raft are replicas of the committed log. */
  lemma ServicesAreReplicas(dec: Decoder, cs: seq<Cluster>, es: seq<Step>, log: seq<S.ClientOp>)
    returns (ws: seq<K.World>)
    requires IsRun(cs, es) && InOrder(es, |es|) && SavesApplied(cs, es) && LogOf(dec, cs, log)
    ensures K.IsRun(log, ws, KvSteps(dec, cs, es))
    ensures forall k :: 0 <= k <= |es| ==> Simulates(dec, cs[k], ws[k])
  {
    hide IsRun, InOrder, SavesApplied, LogOf, Simulates, KvSteps;
    ws := Simulation(dec, cs, es, log, |es|);
    StepCount(dec, cs, es);
  }

  lemma StepCount(dec: Decoder, cs: seq<Cluster>, es: seq<Step>)
    requires IsRun(cs, es)
    ensures |KvSteps(dec, cs, es)| == |es|
  {
  }

  // ----- clients -----

  /** The message whose arrival answers a request, and what the service hands back. */
  ghost predicate AnsweredBy(dec: Decoder, cs: seq<Cluster>, es: seq<Step>, r: Request)
    requires IsRun(cs, es) && r.answer.Some?
  {
    var a := r.answer.value;
    && r.call <= a.step < a.ret <= |es|
    && es[a.step].Receive?
    && var v := cs[a.step].services[es[a.step].i];
    var m := v.pending[es[a.step].k];
    && m.CommandMsg? && m.index > v.lastApplied
    && var res := V.Answer(r.op, V.Execute(StoreAfter(dec, v.applied), dec(m.cmd)).1);
    res.err != S.ErrWrongLeader && res.value == a.value
  }

  /** Clients number their requests and have one at a time; only what was asked is started,
      and only after it was asked. */
  ghost predicate Clients(dec: Decoder, cs: seq<Cluster>, es: seq<Step>, rs: seq<Request>) {
    && IsRun(cs, es) && InOrder(es, |es|) && SavesApplied(cs, es) && OwnNumbers(rs)
    && (forall k :: 0 <= k < |es| && es[k].ClientStart? ==> Asked(rs, dec(es[k].cmd)))
    && (forall q :: 0 <= q < |rs| ==> rs[q].call <= |es|)
    && (forall q :: 0 <= q < |rs| && rs[q].answer.Some? ==> AnsweredBy(dec, cs, es, rs[q]))
    && (forall q, k :: 0 <= q < |rs| && 0 <= k < |es| && es[k].ClientStart? && dec(es[k].cmd) == rs[q].op ==>
          rs[q].call <= k)
    && (forall p, q :: 0 <= p < |rs| && 0 <= q < |rs| && Later(rs[p], rs[q]) ==>
          rs[p].answer.Some? && rs[p].answer.value.ret <= rs[q].call)
  }

  ghost function Lengths(cs: seq<Cluster>): seq<nat> {
    seq(|cs|, k requires 0 <= k < |cs| => Length(cs, k))
  }

  lemma LengthsCommit(dec: Decoder, cs: seq<Cluster>, es: seq<Step>, log: seq<S.ClientOp>)
    requires IsRun(cs, es) && InOrder(es, |es|) && LogOf(dec, cs, log)
    ensures KC.Commits(log, KvSteps(dec, cs, es), Lengths(cs))
  {
    hide Next, Init, Length;
    var len, ks := Lengths(cs), KvSteps(dec, cs, es);
    forall i, j | 0 <= i <= j < |len|
      ensures len[i] <= len[j] <= |log|
    {
      LengthGrows(cs, i, j);
      LengthGrows(cs, j, |cs| - 1);
    }
    forall k | 0 <= k < |ks| && ks[k].Command?
      ensures ks[k].index <= len[k]
    {
      RunOrderly(dec, cs, es, log, k, es[k].i);
    }
  }

  /** An entry of the log that is committed by state k was started before that. */
  lemma EntryStarted(dec: Decoder, cs: seq<Cluster>, es: seq<Step>, log: seq<S.ClientOp>, k: nat, i: nat)
    returns (l: nat)
    requires IsRun(cs, es) && LogOf(dec, cs, log) && k < |cs| && i < Length(cs, k)
    ensures i < |log| && l < k && es[l].ClientStart? && dec(es[l].cmd) == log[i]
  {
    hide Next, Init, Shape, Enabled, Length, LogOf;
    var a, j :| 0 <= a <= k && 0 <= j < |cs[a].servers| && cs[a].servers[j].commitIndex == Length(cs, k);
    SaysLog(dec, cs, log, a, j, i + 1);
    l := StartStepOf(cs, es, a, j, i + 1);
  }

  lemma SameAnswer(dec: Decoder, cs: seq<Cluster>, es: seq<Step>, log: seq<S.ClientOp>, ws: seq<K.World>, r: Request)
    requires IsRun(cs, es) && InOrder(es, |es|) && LogOf(dec, cs, log) && K.IsRun(log, ws, KvSteps(dec, cs, es))
    requires forall k :: 0 <= k <= |es| ==> Simulates(dec, cs[k], ws[k])
    requires r.answer.Some? && AnsweredBy(dec, cs, es, r)
    ensures KC.AnsweredBy(log, ws, KvSteps(dec, cs, es), r)
  {
    hide IsRun, InOrder, LogOf, V.Execute, V.Answer, AllTaken, StoreAfter, K.IsRun, KvSteps;
    var k := r.answer.value.step;
    ReceivedAt(dec, cs, es, k);
    var i := es[k].i;
    RunOrderly(dec, cs, es, log, k, i);
    WorldCount(dec, cs, es, log, ws);
    assert Simulates(dec, cs[k], ws[k]);
    assert Fits(dec, log, cs[k].services[i], cs[k].services[i].pending[0]);
  }

  lemma ReceivedAt(dec: Decoder, cs: seq<Cluster>, es: seq<Step>, k: nat)
    requires IsRun(cs, es) && InOrder(es, |es|) && k < |es| && es[k].Receive?
    ensures InOrder(es, k) && |cs| == |es| + 1 && |KvSteps(dec, cs, es)| == |es|
    ensures es[k].k == 0 && es[k].i < |cs[k].services| == |cs[k].servers| && cs[k].services[es[k].i].pending != []
    ensures KvSteps(dec, cs, es)[k] == Arrival(dec, es[k].i, cs[k].services[es[k].i].pending[0])
  {
    hide Next, Init, InstallSnapshot;
  }

  lemma WorldCount(dec: Decoder, cs: seq<Cluster>, es: seq<Step>, log: seq<S.ClientOp>, ws: seq<K.World>)
    requires IsRun(cs, es) && K.IsRun(log, ws, KvSteps(dec, cs, es))
    ensures |ws| == |es| + 1 && |KvSteps(dec, cs, es)| == |es|
  {
    hide Next, Init, InstallSnapshot, K.After;
  }

  lemma AreKvClients(dec: Decoder, cs: seq<Cluster>, es: seq<Step>, rs: seq<Request>, log: seq<S.ClientOp>,
                     ws: seq<K.World>)
    requires Clients(dec, cs, es, rs) && LogOf(dec, cs, log) && K.IsRun(log, ws, KvSteps(dec, cs, es))
    requires forall k :: 0 <= k <= |es| ==> Simulates(dec, cs[k], ws[k])
    ensures KC.Clients(log, ws, KvSteps(dec, cs, es), Lengths(cs), rs)
  {
    hide IsRun, InOrder, SavesApplied, LogOf, Simulates, KvSteps, AnsweredBy, KC.AnsweredBy, KC.Commits, K.IsRun,
         Length, OwnNumbers;
    StepCount(dec, cs, es);
    StateCount(dec, cs, es, log);
    LengthsCommit(dec, cs, es, log);
    var len := Lengths(cs);
    forall i | 0 <= i < |log|
      ensures Asked(rs, log[i])
    {
      var l := EntryStarted(dec, cs, es, log, |es|, i);
    }
    forall q | 0 <= q < |rs| && rs[q].answer.Some?
      ensures KC.AnsweredBy(log, ws, KvSteps(dec, cs, es), rs[q])
    {
      SameAnswer(dec, cs, es, log, ws, rs[q]);
    }
    forall q, i | 0 <= q < |rs| && 0 <= i < |log| && log[i] == rs[q].op
      ensures len[rs[q].call] <= i
    {
      if i < Length(cs, rs[q].call) {
        var l := EntryStarted(dec, cs, es, log, rs[q].call, i);
      }
    }
  }

  lemma StateCount(dec: Decoder, cs: seq<Cluster>, es: seq<Step>, log: seq<S.ClientOp>)
    requires IsRun(cs, es) && LogOf(dec, cs, log)
    ensures |cs| == |es| + 1 && |log| == Length(cs, |es|)
  {
    hide Next, Init, Length;
  }

  /** In every run of Raft with messages to the services in order, what the clients of the
      key/value service see, with calls and returns at steps of that run, is linearizable. */
  lemma ClientsLinearizable(dec: Decoder, cs: seq<Cluster>, es: seq<Step>, rs: seq<Request>)
    returns (log: seq<S.ClientOp>)
    requires Clients(dec, cs, es, rs)
    ensures LogOf(dec, cs, log)
    ensures L.Linearizable(M.STORE, History(rs, KC.TookAll(log, rs), |es|))
  {
    hide IsRun, InOrder, SavesApplied, LogOf, Simulates, KvSteps, KC.Clients, L.Linearizable, History, AnsweredBy;
    log := CommittedLog(dec, cs, es);
    var ws := ServicesAreReplicas(dec, cs, es, log);
    AreKvClients(dec, cs, es, rs, log, ws);
    KC.ClientsLinearizable(log, ws, KvSteps(dec, cs, es), Lengths(cs), rs);
    StepCount(dec, cs, es);
  }
}
