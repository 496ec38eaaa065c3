/** One Raft peer: its state, with the log trimmed by snapshots, and what each
    critical section does to it.  The log keeps a dummy in slot 0 that stands for
    the last entry covered by the snapshot, so absolute index i lives in slot
    i - lastIncludedIndex. */
module RaftServer {
  import opened Common
  import opened Counting
  import opened RaftTypes

  datatype Role = Follower | Candidate | Leader

  /** What a service's state is a function of: the commands it has applied. */
  type Data = seq<Command>

  datatype Persisted = Persisted(
    currentTerm: nat, votedFor: int, log: Log, lastIncludedIndex: nat, lastIncludedTerm: nat)

  const FRESH := Persisted(0, -1, [SENTINEL], 0, 0)

  datatype Server = Server(
    me: nat,
    peers: nat,
    currentTerm: nat,
    votedFor: int,
    log: Log,
    lastIncludedIndex: nat,
    lastIncludedTerm: nat,
    commitIndex: int,
    lastApplied: int,
    role: Role,
    nextIndex: seq<int>,
    matchIndex: seq<int>,
    votes: set<nat>,                  // peers that voted for us in this term
    raftState: Option<Persisted>,     // on disk
    snapshot: Data)                   // on disk

  datatype RequestVoteArgs = RequestVoteArgs(term: nat, candidateId: nat, lastLogIndex: int, lastLogTerm: nat)
  datatype RequestVoteReply = RequestVoteReply(term: nat, voteGranted: bool)
  datatype AppendArgs = AppendArgs(
    term: nat, leaderId: nat, prevLogIndex: int, prevLogTerm: nat, entries: seq<Entry>, leaderCommit: int)
  datatype AppendReply = AppendReply(term: nat, success: bool, conflictTerm: int, conflictIndex: int)
  datatype SnapshotArgs = SnapshotArgs(
    term: nat, leaderId: nat, lastIncludedIndex: nat, lastIncludedTerm: nat, data: Data)
  datatype SnapshotReply = SnapshotReply(term: nat)

  datatype ApplyMsg =
    | CommandMsg(index: nat, cmd: Command)
    | SnapshotMsg(index: nat, term: nat, data: Data)

  /** Slot 0 is always there and holds the snapshot's term. */
  predicate Wf(s: Server) {
    |s.log| >= 1 && s.log[0].term == s.lastIncludedTerm && s.me < s.peers
  }

  function LastLogIndex(s: Server): int {
    s.lastIncludedIndex + |s.log| - 1
  }

  function TermAt(s: Server, idx: int): nat
    requires s.lastIncludedIndex <= idx <= LastLogIndex(s)
  {
    s.log[idx - s.lastIncludedIndex].term
  }

  function Image(s: Server): Persisted {
    Persisted(s.currentTerm, s.votedFor, s.log, s.lastIncludedIndex, s.lastIncludedTerm)
  }

  function Persist(s: Server): Server {
    s.(raftState := Some(Image(s)))
  }

  function OnDisk(s: Server): Persisted {
    match s.raftState
    case None => FRESH
    case Some(p) => p
  }

  function BecomeFollower(s: Server, term: nat): Server {
    Persist(s.(currentTerm := term, votedFor := -1, role := Follower))
  }

  /** What every handler does first with a term that is not older than its own. */
  function Observe(s: Server, term: nat): Server {
    if term > s.currentTerm then BecomeFollower(s, term) else s
  }

  // ----- start and restart -----

  function Boot(me: nat, peers: nat, disk: Option<Persisted>, snapshot: Data): Server {
    var p := if disk.None? then FRESH else disk.value;
    Server(me, peers, p.currentTerm, p.votedFor, p.log, p.lastIncludedIndex, p.lastIncludedTerm,
           p.lastIncludedIndex, p.lastIncludedIndex, Follower, [], [], {}, disk, snapshot)
  }

  // ----- elections -----

  function StartElection(s: Server): Server {
    Persist(s.(role := Candidate, currentTerm := s.currentTerm + 1, votedFor := s.me, votes := {s.me}))
  }

  function VoteArgs(s: Server): RequestVoteArgs
    requires Wf(s)
  {
    RequestVoteArgs(s.currentTerm, s.me, LastLogIndex(s), TermAt(s, LastLogIndex(s)))
  }

  predicate CandidateUpToDate(s: Server, lastIndex: int, lastTerm: nat)
    requires Wf(s)
  {
    var myIndex := LastLogIndex(s);
    var myTerm := TermAt(s, myIndex);
    if lastTerm != myTerm then lastTerm > myTerm else lastIndex >= myIndex
  }

  predicate Grants(s: Server, a: RequestVoteArgs)
    requires Wf(s)
  {
    && a.term >= s.currentTerm
    && (Observe(s, a.term).votedFor == -1 || Observe(s, a.term).votedFor == a.candidateId)
    && CandidateUpToDate(s, a.lastLogIndex, a.lastLogTerm)
  }

  function RequestVote(s: Server, a: RequestVoteArgs): (Server, RequestVoteReply)
    requires Wf(s)
  {
    if a.term < s.currentTerm then (s, RequestVoteReply(s.currentTerm, false))
    else
      var s1 := Observe(s, a.term);
      if Grants(s, a) then (Persist(s1.(votedFor := a.candidateId)), RequestVoteReply(s1.currentTerm, true))
      else (s1, RequestVoteReply(s1.currentTerm, false))
  }

  function BecomeLeader(s: Server): Server {
    s.(role := Leader,
       nextIndex := seq(s.peers, i => LastLogIndex(s) + 1),
       matchIndex := seq(s.peers, i => 0))
  }

  function VoteReply(s: Server, term: nat, from: nat, r: RequestVoteReply): Server {
    if s.currentTerm != term || s.role != Candidate then s
    else if r.term > s.currentTerm then BecomeFollower(s, r.term)
    else if !r.voteGranted then s
    else
      var s1 := s.(votes := s.votes + {from});
      if |s1.votes| > s.peers / 2 then BecomeLeader(s1) else s1
  }

  // ----- log replication -----

  function Start(s: Server, cmd: Command): Server {
    if s.role != Leader then s else Persist(s.(log := s.log + [Entry(s.currentTerm, cmd)]))
  }

  /** Position at within log is where es starts; the first entry that is missing or
      has another term cuts the log, and the rest of es is appended there. */
  function Merge(log: Log, at: nat, es: seq<Entry>): Log
    requires at <= |log|
    decreases |es|
  {
    if es == [] then log
    else if at < |log| && log[at].term == es[0].term then Merge(log, at + 1, es[1..])
    else log[..at] + es
  }

  /** First slot of the run of equal terms that ends in slot k. */
  function FirstOfTerm(log: Log, k: nat): (j: nat)
    requires k < |log|
    ensures j <= k
  {
    if k > 0 && log[k - 1].term == log[k].term then FirstOfTerm(log, k - 1) else k
  }

  function Clamp(s: Server, a: AppendArgs): AppendArgs
    requires a.prevLogIndex + |a.entries| > s.lastIncludedIndex || a.prevLogIndex >= s.lastIncludedIndex
  {
    if a.prevLogIndex < s.lastIncludedIndex then
      a.(prevLogIndex := s.lastIncludedIndex, prevLogTerm := s.lastIncludedTerm,
         entries := a.entries[s.lastIncludedIndex - a.prevLogIndex..])
    else a
  }

  function AdvanceTo(s: Server, leaderCommit: int): Server {
    if leaderCommit > s.commitIndex then
      s.(commitIndex := if leaderCommit < LastLogIndex(s) then leaderCommit else LastLogIndex(s))
    else s
  }

  function AppendEntries(s: Server, a: AppendArgs): (Server, AppendReply)
    requires Wf(s)
  {
    if a.term < s.currentTerm then (s, AppendReply(s.currentTerm, false, -1, -1))
    else
      var s1 := Observe(s, a.term).(role := Follower);
      var hint := if a.prevLogIndex < s.lastIncludedIndex then s.lastIncludedIndex + 1 else -1;
      if a.prevLogIndex < s.lastIncludedIndex && a.prevLogIndex + |a.entries| <= s.lastIncludedIndex then
        (s1, AppendReply(a.term, false, -1, hint))
      else
        var b := Clamp(s, a);
        if b.prevLogIndex > LastLogIndex(s) then
          (s1, AppendReply(a.term, false, -1, LastLogIndex(s) + 1))
        else if TermAt(s, b.prevLogIndex) != b.prevLogTerm then
          (s1, AppendReply(a.term, false, TermAt(s, b.prevLogIndex),
                           s.lastIncludedIndex + FirstOfTerm(s.log, b.prevLogIndex - s.lastIncludedIndex)))
        else
          var s2 := Persist(s1.(log := Merge(s.log, b.prevLogIndex - s.lastIncludedIndex + 1, b.entries)));
          (AdvanceTo(s2, a.leaderCommit), AppendReply(a.term, true, -1, hint))
  }

  /** What a leader sends a peer: its log from nextIndex on, or its snapshot when
      that index has been trimmed away. */
  predicate NeedsSnapshot(s: Server, peer: nat)
    requires peer < |s.nextIndex|
  {
    s.nextIndex[peer] <= s.lastIncludedIndex
  }

  function AppendArgsFor(s: Server, peer: nat): AppendArgs
    requires Wf(s) && peer < |s.nextIndex| && !NeedsSnapshot(s, peer) && s.nextIndex[peer] <= LastLogIndex(s) + 1
  {
    var prev := s.nextIndex[peer] - 1;
    AppendArgs(s.currentTerm, s.me, prev, TermAt(s, prev), s.log[prev - s.lastIncludedIndex + 1..], s.commitIndex)
  }

  function SnapshotArgsFor(s: Server): SnapshotArgs {
    SnapshotArgs(s.currentTerm, s.me, s.lastIncludedIndex, s.lastIncludedTerm, s.snapshot)
  }

  /** The leader and the peers known to hold index n. */
  ghost function Holders(s: Server, n: int): (r: set<nat>)
    requires s.peers == |s.matchIndex|
    ensures forall p: nat :: p in r <==> p < s.peers && (p == s.me || s.matchIndex[p] >= n)
  {
    set p | p in Ids(s.peers) && (p == s.me || s.matchIndex[p] >= n)
  }

  ghost predicate CanCommit(s: Server, n: int)
    requires s.peers == |s.matchIndex|
  {
    && s.lastIncludedIndex <= n <= LastLogIndex(s) && TermAt(s, n) == s.currentTerm
    && |Holders(s, n)| > s.peers / 2
  }

  /** The largest index down from n, above commitIndex, that a majority holds in the current term. */
  ghost function CommitFrom(s: Server, n: int): int
    requires s.peers == |s.matchIndex|
    decreases n - s.commitIndex
  {
    if n <= s.commitIndex then s.commitIndex
    else if CanCommit(s, n) then n
    else CommitFrom(s, n - 1)
  }

  ghost function AdvanceCommit(s: Server): Server
    requires s.peers == |s.matchIndex|
  {
    s.(commitIndex := CommitFrom(s, LastLogIndex(s)))
  }

  /** The last index down from i, above the snapshot, whose entry has term t; -1 if there is none. */
  function LastOfTerm(s: Server, t: int, i: int): int
    requires i <= LastLogIndex(s)
    decreases i - s.lastIncludedIndex
  {
    if i <= s.lastIncludedIndex then -1
    else if TermAt(s, i) == t then i
    else LastOfTerm(s, t, i - 1)
  }

  /** Where the leader resumes after a rejection. */
  function BackUp(s: Server, next: int, r: AppendReply): int {
    var to :=
      if r.conflictTerm == -1 then (if r.conflictIndex > 0 then r.conflictIndex else next)
      else
        var l := LastOfTerm(s, r.conflictTerm, LastLogIndex(s));
        if l >= 0 then l + 1 else r.conflictIndex;
    if to < 1 then 1 else to
  }

  ghost function AppendReplied(s: Server, peer: nat, a: AppendArgs, r: AppendReply): Server
    requires Wf(s)
    requires s.role == Leader ==> peer < s.peers == |s.nextIndex| == |s.matchIndex|
  {
    if s.role != Leader || s.currentTerm != a.term then s
    else if r.term > s.currentTerm then BecomeFollower(s, r.term)
    else if r.success then
      var newMatch := a.prevLogIndex + |a.entries|;
      AdvanceCommit(
        if newMatch > s.matchIndex[peer] then
          s.(matchIndex := s.matchIndex[peer := newMatch], nextIndex := s.nextIndex[peer := newMatch + 1])
        else s)
    else s.(nextIndex := s.nextIndex[peer := BackUp(s, s.nextIndex[peer], r)])
  }

  // ----- snapshots -----

  function TakeSnapshot(s: Server, index: int, data: Data): Server
    requires Wf(s) && s.commitIndex <= LastLogIndex(s)
  {
    if index <= s.lastIncludedIndex || index > s.commitIndex then s
    else
      var s1 := s.(log := [Entry(TermAt(s, index), "")] + s.log[index - s.lastIncludedIndex + 1..],
                   lastIncludedTerm := TermAt(s, index), lastIncludedIndex := index, snapshot := data);
      Persist(s1)
  }

  /** The log after a snapshot at index: the tail, if it has that entry with that term. */
  function TrimTo(log: Log, base: nat, index: int, term: nat): Log {
    if base <= index < base + |log| - 1 && log[index - base].term == term then
      [Entry(term, "")] + log[index - base + 1..]
    else [Entry(term, "")]
  }

  function InstallSnapshot(s: Server, a: SnapshotArgs): (Server, SnapshotReply, Option<ApplyMsg>)
    requires Wf(s)
  {
    if a.term < s.currentTerm then (s, SnapshotReply(s.currentTerm), None)
    else
      var s1 := Observe(s, a.term).(role := Follower);
      if a.lastIncludedIndex <= s.lastIncludedIndex then (s1, SnapshotReply(a.term), None)
      else
        var s2 := s1.(log := TrimTo(s.log, s.lastIncludedIndex, a.lastIncludedIndex, a.lastIncludedTerm),
                      lastIncludedIndex := a.lastIncludedIndex, lastIncludedTerm := a.lastIncludedTerm,
                      commitIndex := if s.commitIndex < a.lastIncludedIndex then a.lastIncludedIndex else s.commitIndex,
                      lastApplied := if s.lastApplied < a.lastIncludedIndex then a.lastIncludedIndex else s.lastApplied,
                      snapshot := a.data);
        (Persist(s2), SnapshotReply(a.term),
         Some(SnapshotMsg(a.lastIncludedIndex, a.lastIncludedTerm, a.data)))
  }

  function SnapshotReplied(s: Server, peer: nat, a: SnapshotArgs, r: SnapshotReply): Server
    requires s.role == Leader ==> peer < |s.nextIndex| == |s.matchIndex|
  {
    if s.role != Leader || s.currentTerm != a.term then s
    else if r.term > s.currentTerm then BecomeFollower(s, r.term)
    else
      var m := if s.matchIndex[peer] > a.lastIncludedIndex then s.matchIndex[peer] else a.lastIncludedIndex;
      s.(matchIndex := s.matchIndex[peer := m], nextIndex := s.nextIndex[peer := m + 1])
  }

  // ----- apply -----

  predicate CanApply(s: Server) {
    s.lastApplied < s.commitIndex && s.lastApplied >= s.lastIncludedIndex
  }

  function ApplyNext(s: Server): (Server, ApplyMsg)
    requires CanApply(s) && s.commitIndex <= LastLogIndex(s)
  {
    var i := s.lastApplied + 1;
    (s.(lastApplied := i), CommandMsg(i, s.log[i - s.lastIncludedIndex].cmd))
  }
}
