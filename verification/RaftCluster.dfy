/** A cluster of Raft peers over a network that may lose, delay, duplicate and
    reorder messages.  Every critical section is one step, and so is the arrival of a
    message at the service.  Beside the real state
    (peers, messages, services) a cluster carries its View: the untrimmed logs and
    the history of votes, reigns and acknowledgements. */
module RaftCluster {
  import opened Common
  import opened Counting
  import opened RaftTypes
  import opened RaftCore
  import opened RaftServer
  import opened RaftService

  datatype Msg =
    | VoteReq(src: nat, dst: nat, vote: RequestVoteArgs)
    | VoteRep(src: nat, dst: nat, vote: RequestVoteArgs, voteReply: RequestVoteReply)
    | AppReq(src: nat, dst: nat, app: AppendArgs)
    | AppRep(src: nat, dst: nat, app: AppendArgs, appReply: AppendReply)
    | SnapReq(src: nat, dst: nat, snap: SnapshotArgs)
    | SnapRep(src: nat, dst: nat, snap: SnapshotArgs, snapReply: SnapshotReply)

  datatype Cluster = Cluster(servers: seq<Server>, net: set<Msg>, services: seq<Service>, view: View)

  datatype Step =
    | Timeout(i: nat)
    | RecvVoteReq(m: Msg)
    | RecvVoteRep(m: Msg)
    | ClientStart(i: nat, cmd: Command)
    | Replicate(i: nat, peer: nat)
    | RecvAppReq(m: Msg)
    | RecvAppRep(m: Msg)
    | RecvSnapReq(m: Msg)
    | RecvSnapRep(m: Msg)
    | Snapshot(i: nat, index: nat)
    | Apply(i: nat)
    | Receive(i: nat, k: nat)
    | Restart(i: nat, term: nat)

  function Init(n: nat): Cluster {
    Cluster(
      seq(n, i requires 0 <= i < n => Boot(i, n, None, [])),
      {},
      seq(n, i requires 0 <= i < n => Service([], 0, [])),
      View(seq(n, i => 0), seq(n, i => [SENTINEL]), map[], map[], map[], true))
  }

  // ----- steps -----

  ghost predicate Shape(c: Cluster) {
    && |c.servers| == |c.services| == |c.view.terms| == |c.view.logs|
    && forall i :: 0 <= i < |c.servers| ==> Wf(c.servers[i]) && c.servers[i].commitIndex <= LastLogIndex(c.servers[i])
  }

  ghost function Put(c: Cluster, i: nat, s: Server, w: View, ms: set<Msg>): Cluster
    requires i < |c.servers|
  {
    c.(servers := c.servers[i := s], net := c.net + ms, view := w)
  }

  /** The view after server i has seen term t. */
  ghost function Seen(w: View, i: nat, t: nat): View
    requires i < |w.terms|
  {
    if t > w.terms[i] then Bump(w, i, t) else w
  }

  ghost function AcceptIf(w: View, i: nat, m: int): View {
    if m >= 0 && CanAccept(w, i, m) then Accept(w, i, m) else w
  }

  ghost predicate Enabled(c: Cluster, e: Step)
    requires Shape(c)
  {
    var n := |c.servers|;
    match e
    case Timeout(i) => i < n && c.servers[i].role != Leader
    case RecvVoteReq(m) => m in c.net && m.VoteReq? && m.dst < n
    case RecvVoteRep(m) => m in c.net && m.VoteRep? && m.dst < n
    case ClientStart(i, _) => i < n
    case Replicate(i, p) =>
      && i < n && p < n && p != i && c.servers[i].role == Leader
      && |c.servers[i].nextIndex| == n && c.servers[i].nextIndex[p] <= LastLogIndex(c.servers[i]) + 1
    case RecvAppReq(m) => m in c.net && m.AppReq? && m.dst < n
    case RecvAppRep(m) =>
      && m in c.net && m.AppRep? && m.dst < n
      && var s := c.servers[m.dst];
      s.role == Leader ==> m.src < s.peers == |s.nextIndex| == |s.matchIndex|
    case RecvSnapReq(m) => m in c.net && m.SnapReq? && m.dst < n
    case RecvSnapRep(m) =>
      && m in c.net && m.SnapRep? && m.dst < n
      && var s := c.servers[m.dst];
      s.role == Leader ==> m.src < |s.nextIndex| == |s.matchIndex|
    case Snapshot(i, index) => i < n && index <= c.services[i].lastApplied
    case Apply(i) => i < n && CanApply(c.servers[i])
    case Receive(i, k) => i < n && CanReceive(c.services[i].pending, k)
    case Restart(i, t) => i < n && c.servers[i].currentTerm <= t
  }

  ghost function Next(c: Cluster, e: Step): Cluster
    requires Shape(c) && Enabled(c, e)
  {
    match e
    case Timeout(i) => DoTimeout(c, i)
    case RecvVoteReq(m) => DoVoteReq(c, m)
    case RecvVoteRep(m) => DoVoteRep(c, m)
    case ClientStart(i, cmd) => DoStart(c, i, cmd)
    case Replicate(i, p) => DoReplicate(c, i, p)
    case RecvAppReq(m) => DoAppReq(c, m)
    case RecvAppRep(m) => DoAppRep(c, m)
    case RecvSnapReq(m) => DoSnapReq(c, m)
    case RecvSnapRep(m) => DoSnapRep(c, m)
    case Snapshot(i, index) => DoSnapshot(c, i, index)
    case Apply(i) => DoApply(c, i)
    case Receive(i, k) => DoReceive(c, i, k)
    case Restart(i, t) => DoRestart(c, i, t)
  }

  ghost function DoTimeout(c: Cluster, i: nat): Cluster
    requires Shape(c) && i < |c.servers|
  {
    var s := StartElection(c.servers[i]);
    Put(c, i, s, Stand(c.view, i), set p | p in Ids(|c.servers|) && p != i :: VoteReq(i, p, VoteArgs(s)))
  }

  ghost function DoVoteReq(c: Cluster, m: Msg): Cluster
    requires Shape(c) && m.VoteReq? && m.dst < |c.servers|
  {
    var i := m.dst;
    var (s, r) := RequestVote(c.servers[i], m.vote);
    var w := Seen(c.view, i, m.vote.term);
    var w' := if r.voteGranted && (m.vote.term, i) !in w.ballots then Vote(w, i, m.vote.candidateId) else w;
    Put(c, i, s, w', {VoteRep(i, m.src, m.vote, r)})
  }

  ghost function DoVoteRep(c: Cluster, m: Msg): Cluster
    requires Shape(c) && m.VoteRep? && m.dst < |c.servers|
  {
    var i := m.dst;
    var s := c.servers[i];
    var s' := VoteReply(s, m.vote.term, m.src, m.voteReply);
    var w' := if s'.role == Leader && s.role != Leader && |c.view.logs[i]| >= 1 then Elect(c.view, i, s'.votes)
              else Seen(c.view, i, s'.currentTerm);
    Put(c, i, s', w', {})
  }

  ghost function DoStart(c: Cluster, i: nat, cmd: Command): Cluster
    requires Shape(c) && i < |c.servers|
  {
    var s := c.servers[i];
    var w' := if s.role == Leader && c.view.terms[i] in c.view.reigns then Extend(c.view, i, cmd) else c.view;
    Put(c, i, Start(s, cmd), w', {})
  }

  ghost function DoReplicate(c: Cluster, i: nat, p: nat): Cluster
    requires Shape(c) && Enabled(c, Replicate(i, p))
  {
    var s := c.servers[i];
    var m := if NeedsSnapshot(s, p) then SnapReq(i, p, SnapshotArgsFor(s)) else AppReq(i, p, AppendArgsFor(s, p));
    Put(c, i, s, c.view, {m})
  }

  ghost function DoAppReq(c: Cluster, m: Msg): Cluster
    requires Shape(c) && m.AppReq? && m.dst < |c.servers|
  {
    var i := m.dst;
    var (s, r) := AppendEntries(c.servers[i], m.app);
    var w := Seen(c.view, i, m.app.term);
    var w' := if r.success then AcceptIf(w, i, m.app.prevLogIndex + |m.app.entries|) else w;
    Put(c, i, s, w', {AppRep(i, m.src, m.app, r)})
  }

  ghost function DoAppRep(c: Cluster, m: Msg): Cluster
    requires Shape(c) && m.AppRep? && m.dst < |c.servers|
    requires var s := c.servers[m.dst]; s.role == Leader ==> m.src < s.peers == |s.nextIndex| == |s.matchIndex|
  {
    var i := m.dst;
    var s' := AppendReplied(c.servers[i], m.src, m.app, m.appReply);
    Put(c, i, s', Seen(c.view, i, s'.currentTerm), {})
  }

  ghost function DoSnapReq(c: Cluster, m: Msg): Cluster
    requires Shape(c) && m.SnapReq? && m.dst < |c.servers|
  {
    var i := m.dst;
    var (s, r, d) := InstallSnapshot(c.servers[i], m.snap);
    var w := Seen(c.view, i, m.snap.term);
    var w' := if m.snap.term < c.servers[i].currentTerm then w else AcceptIf(w, i, m.snap.lastIncludedIndex);
    var c' := Put(c, i, s, w', {SnapRep(i, m.src, m.snap, r)});
    if d.None? then c' else c'.(services := c.services[i := Post(c.services[i], d.value)])
  }

  ghost function DoSnapRep(c: Cluster, m: Msg): Cluster
    requires Shape(c) && m.SnapRep? && m.dst < |c.servers|
    requires var s := c.servers[m.dst]; s.role == Leader ==> m.src < |s.nextIndex| == |s.matchIndex|
  {
    var i := m.dst;
    var s' := SnapshotReplied(c.servers[i], m.src, m.snap, m.snapReply);
    Put(c, i, s', Seen(c.view, i, s'.currentTerm), {})
  }

  /** The service hands over its state at an index it has applied. */
  ghost function DoSnapshot(c: Cluster, i: nat, index: nat): Cluster
    requires Shape(c) && i < |c.servers|
  {
    Put(c, i, TakeSnapshot(c.servers[i], index, SavedAt(c.services[i], index)), c.view, {})
  }

  ghost function DoApply(c: Cluster, i: nat): Cluster
    requires Shape(c) && i < |c.servers| && CanApply(c.servers[i])
  {
    var (s, d) := ApplyNext(c.servers[i]);
    Put(c, i, s, c.view, {}).(services := c.services[i := Post(c.services[i], d)])
  }

  /** Commands are sent by one goroutine, one after the other; a snapshot is sent by the
      handler that installed it, so it may be passed by later messages. */
  predicate CanReceive(ms: seq<ApplyMsg>, k: nat) {
    k < |ms| && (ms[k].CommandMsg? ==> forall j :: 0 <= j < k ==> ms[j].SnapshotMsg?)
  }

  ghost function DoReceive(c: Cluster, i: nat, k: nat): Cluster
    requires Shape(c) && i < |c.servers| && k < |c.services[i].pending|
  {
    c.(services := c.services[i := HandOver(c.services[i], k)], view := Reorder(c.view, c.view.ordered && k == 0))
  }

  /** A crash loses everything but the disk, also the messages on their way; the service restarts from the snapshot,
      with its own lastApplied back at 0.  When t is larger than the current
      term, the crash came inside a handler, after it had saved the new term. */
  ghost function DoRestart(c: Cluster, i: nat, t: nat): Cluster
    requires Shape(c) && i < |c.servers|
  {
    var s := Observe(c.servers[i], t);
    Put(c, i, Boot(s.me, s.peers, s.raftState, s.snapshot), Seen(c.view, i, t), {})
      .(services := c.services[i := Service(s.snapshot, 0, [])])
  }

  // ----- runs -----

  ghost predicate IsRun(cs: seq<Cluster>, es: seq<Step>) {
    && |cs| == |es| + 1
    && cs[0] == Init(|cs[0].servers|)
    && forall k :: 0 <= k < |es| ==> Shape(cs[k]) && Enabled(cs[k], es[k]) && cs[k + 1] == Next(cs[k], es[k])
  }
}
