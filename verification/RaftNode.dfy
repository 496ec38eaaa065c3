/** The peer as it is written: an object whose methods, each one critical section,
    update its fields in place.  Every method is proved to do to the fields what
    RaftServer says, so the theorems about clusters are about this code. */
module RaftNode {
  import opened Common
  import opened RaftTypes
  import opened RaftServer

  class Raft {
    const me: nat
    const peers: nat
    var currentTerm: nat
    var votedFor: int
    var log: Log
    var lastIncludedIndex: nat
    var lastIncludedTerm: nat
    var commitIndex: int
    var lastApplied: int
    var role: Role
    var nextIndex: seq<int>
    var matchIndex: seq<int>
    var votes: set<nat>
    var raftState: Option<Persisted>
    var snapshot: Data

    ghost function State(): Server
      reads this
    {
      Server(me, peers, currentTerm, votedFor, log, lastIncludedIndex, lastIncludedTerm, commitIndex, lastApplied,
             role, nextIndex, matchIndex, votes, raftState, snapshot)
    }

    ghost predicate Valid()
      reads this
    {
      Wf(State())
    }

    /** Make, followed by readPersist: everything but the disk starts afresh. */
    constructor (me: nat, peers: nat, disk: Option<Persisted>, snapshot: Data)
      ensures State() == Boot(me, peers, disk, snapshot)
    {
      this.me, this.peers := me, peers;
      currentTerm, votedFor, log := 0, -1, [SENTINEL];
      lastIncludedIndex, lastIncludedTerm, commitIndex, lastApplied := 0, 0, 0, 0;
      role, nextIndex, matchIndex, votes := Follower, [], [], {};
      raftState, this.snapshot := disk, snapshot;
      if disk.Some? {
        var p := disk.value;
        currentTerm, votedFor, log := p.currentTerm, p.votedFor, p.log;
        lastIncludedIndex, lastIncludedTerm := p.lastIncludedIndex, p.lastIncludedTerm;
        commitIndex, lastApplied := p.lastIncludedIndex, p.lastIncludedIndex;
      }
    }

    function LastIndexHere(): int
      reads this
    {
      lastIncludedIndex + |log| - 1
    }

    function TermHere(idx: int): nat
      reads this
      requires lastIncludedIndex <= idx <= LastIndexHere()
    {
      log[idx - lastIncludedIndex].term
    }

    method Save()
      modifies this`raftState
      ensures State() == Persist(old(State()))
    {
      raftState := Some(Persisted(currentTerm, votedFor, log, lastIncludedIndex, lastIncludedTerm));
    }

    method StepDown(term: nat)
      modifies this
      ensures State() == BecomeFollower(old(State()), term)
    {
      currentTerm, votedFor, role := term, -1, Follower;
      Save();
    }

    /** Accept the sender of a request as leader of its term. */
    method Follow(term: nat)
      requires term >= currentTerm
      modifies this
      ensures State() == Observe(old(State()), term).(role := Follower)
      ensures currentTerm == term
    {
      if term > currentTerm {
        StepDown(term);
      }
      role := Follower;
    }

    // ----- elections -----

    method RunElection() returns (args: RequestVoteArgs)
      requires Valid()
      modifies this
      ensures State() == StartElection(old(State())) && args == VoteArgs(State())
    {
      role := Candidate;
      currentTerm := currentTerm + 1;
      votedFor := me;
      votes := {me};
      Save();
      var lastIndex := LastIndexHere();
      args := RequestVoteArgs(currentTerm, me, lastIndex, TermHere(lastIndex));
    }

    method HandleRequestVote(args: RequestVoteArgs) returns (reply: RequestVoteReply)
      requires Valid()
      modifies this
      ensures (State(), reply) == RequestVote(old(State()), args)
    {
      reply := RequestVoteReply(currentTerm, false);
      if args.term < currentTerm {
        return;
      }
      if args.term > currentTerm {
        StepDown(args.term);
        reply := reply.(term := currentTerm);
      }
      var myIndex := LastIndexHere();
      var myTerm := TermHere(myIndex);
      var upToDate := if args.lastLogTerm != myTerm then args.lastLogTerm > myTerm else args.lastLogIndex >= myIndex;
      if (votedFor == -1 || votedFor == args.candidateId) && upToDate {
        votedFor := args.candidateId;
        reply := reply.(voteGranted := true);
        Save();
      }
    }

    method TakeOffice()
      requires Valid()
      modifies this
      ensures State() == BecomeLeader(old(State()))
    {
      role := Leader;
      nextIndex, matchIndex := [], [];
      var next := LastIndexHere() + 1;
      for i := 0 to peers
        invariant nextIndex == seq(i, k => next) && matchIndex == seq(i, k => 0)
        invariant State() == old(State()).(role := Leader, nextIndex := nextIndex, matchIndex := matchIndex)
      {
        nextIndex := nextIndex + [next];
        matchIndex := matchIndex + [0];
      }
    }

    method HandleVoteReply(term: nat, from: nat, reply: RequestVoteReply)
      requires Valid()
      modifies this
      ensures State() == VoteReply(old(State()), term, from, reply)
    {
      if currentTerm != term || role != Candidate {
        return;
      }
      if reply.term > currentTerm {
        StepDown(reply.term);
        return;
      }
      if reply.voteGranted {
        votes := votes + {from};
        if |votes| > peers / 2 {
          TakeOffice();
        }
      }
    }

    // ----- replication -----

    method StartCommand(cmd: Command) returns (index: int, term: nat, isLeader: bool)
      requires Valid()
      modifies this
      ensures State() == Start(old(State()), cmd)
      ensures isLeader == (role == Leader) && term == currentTerm
      ensures index == if isLeader then LastLogIndex(State()) else -1
    {
      if role != Leader {
        return -1, currentTerm, false;
      }
      log := log + [Entry(currentTerm, cmd)];
      index := LastIndexHere();
      Save();
      return index, currentTerm, true;
    }

    method HandleAppendEntries(args: AppendArgs) returns (reply: AppendReply)
      requires Valid()
      modifies this
      ensures (State(), reply) == AppendEntries(old(State()), args)
    {
      hide Merge, FirstOfTerm;
      reply := AppendReply(currentTerm, false, -1, -1);
      if args.term < currentTerm {
        return;
      }
      Follow(args.term);
      reply := reply.(term := currentTerm);

      var prev, prevTerm, entries := args.prevLogIndex, args.prevLogTerm, args.entries;
      if prev < lastIncludedIndex {
        reply := reply.(conflictIndex := lastIncludedIndex + 1);
        if prev + |entries| <= lastIncludedIndex {
          return;
        }
        var offset := lastIncludedIndex - prev;
        prev, prevTerm, entries := lastIncludedIndex, lastIncludedTerm, entries[offset..];
      }

      if prev > LastIndexHere() {
        reply := reply.(conflictIndex := LastIndexHere() + 1);
        return;
      }
      if TermHere(prev) != prevTerm {
        var first := FindFirstOfTerm(prev);
        reply := reply.(conflictTerm := TermHere(prev), conflictIndex := first);
        return;
      }
      AppendNew(prev, entries);
      Save();
      if args.leaderCommit > commitIndex {
        commitIndex := if args.leaderCommit < LastIndexHere() then args.leaderCommit else LastIndexHere();
      }
      reply := reply.(success := true);
    }

    method FindFirstOfTerm(prev: int) returns (i: int)
      requires Valid() && lastIncludedIndex <= prev <= LastIndexHere()
      ensures i == lastIncludedIndex + FirstOfTerm(log, prev - lastIncludedIndex)
    {
      i := prev;
      while i > lastIncludedIndex && TermHere(i - 1) == TermHere(prev)
        invariant lastIncludedIndex <= i <= prev && TermHere(i) == TermHere(prev)
        invariant FirstOfTerm(log, i - lastIncludedIndex) == FirstOfTerm(log, prev - lastIncludedIndex)
      {
        i := i - 1;
      }
    }

    /** The loop that deletes a conflicting suffix and appends what is new. */
    method AppendNew(prev: int, entries: seq<Entry>)
      requires Valid() && lastIncludedIndex <= prev <= LastIndexHere()
      modifies this`log
      ensures log == Merge(old(log), prev - lastIncludedIndex + 1, entries)
    {
      var i := 0;
      while i < |entries|
        invariant 0 <= i <= |entries| && log == old(log)
        invariant prev + i <= LastIndexHere()
        invariant Merge(log, prev - lastIncludedIndex + 1 + i, entries[i..])
               == Merge(log, prev - lastIncludedIndex + 1, entries)
      {
        var idx := prev + 1 + i;
        if idx <= LastIndexHere() {
          if TermHere(idx) == entries[i].term {
            assert entries[i..][0] == entries[i] && entries[i..][1..] == entries[i + 1..];
            i := i + 1;
            continue;
          }
          log := log[..idx - lastIncludedIndex];
        }
        log := log + entries[i..];
        break;
      }
    }

    method ReplicateTo(peer: nat) returns (app: Option<AppendArgs>, snap: Option<SnapshotArgs>)
      requires Valid() && peer < |nextIndex| && nextIndex[peer] <= LastIndexHere() + 1
      ensures NeedsSnapshot(State(), peer) ==> app.None? && snap == Some(SnapshotArgsFor(State()))
      ensures !NeedsSnapshot(State(), peer) ==> app == Some(AppendArgsFor(State(), peer)) && snap.None?
    {
      var next := nextIndex[peer];
      if next <= lastIncludedIndex {
        return None, Some(SnapshotArgs(currentTerm, me, lastIncludedIndex, lastIncludedTerm, snapshot));
      }
      var prevIndex := next - 1;
      var entries := log[prevIndex - lastIncludedIndex + 1..];
      return Some(AppendArgs(currentTerm, me, prevIndex, TermHere(prevIndex), entries, commitIndex)), None;
    }

    method HandleAppendReply(peer: nat, args: AppendArgs, reply: AppendReply)
      requires Valid()
      requires role == Leader ==> peer < peers == |nextIndex| == |matchIndex| && lastIncludedIndex <= commitIndex
      modifies this
      ensures State() == AppendReplied(old(State()), peer, args, reply)
    {
      if role != Leader || currentTerm != args.term {
        return;
      }
      if reply.term > currentTerm {
        StepDown(reply.term);
        return;
      }
      if reply.success {
        var newMatch := args.prevLogIndex + |args.entries|;
        if newMatch > matchIndex[peer] {
          matchIndex := matchIndex[peer := newMatch];
          nextIndex := nextIndex[peer := newMatch + 1];
        }
        Advance();
        return;
      }
      if reply.conflictTerm == -1 {
        if reply.conflictIndex > 0 {
          nextIndex := nextIndex[peer := reply.conflictIndex];
        }
      } else {
        var lastOfTerm := FindLastOfTerm(reply.conflictTerm);
        if lastOfTerm >= 0 {
          nextIndex := nextIndex[peer := lastOfTerm + 1];
        } else {
          nextIndex := nextIndex[peer := reply.conflictIndex];
        }
      }
      if nextIndex[peer] < 1 {
        nextIndex := nextIndex[peer := 1];
      }
    }

    method FindLastOfTerm(term: int) returns (l: int)
      requires Valid()
      ensures l == LastOfTerm(State(), term, LastLogIndex(State()))
    {
      var i := LastIndexHere();
      while i > lastIncludedIndex
        invariant lastIncludedIndex <= i <= LastIndexHere()
        invariant LastOfTerm(State(), term, i) == LastOfTerm(State(), term, LastLogIndex(State()))
      {
        if TermHere(i) == term {
          return i;
        }
        i := i - 1;
      }
      return -1;
    }

    method CountHolders(n: int) returns (count: int)
      requires Valid() && peers == |matchIndex|
      ensures count == |Holders(State(), n)|
    {
      count := 1;
      ghost var seen: set<nat> := {me};
      for peer := 0 to peers
        invariant count == |seen|
        invariant forall p: nat :: p in seen <==> p == me || (p < peer && matchIndex[p] >= n)
      {
        if peer != me && matchIndex[peer] >= n {
          count := count + 1;
          seen := seen + {peer};
        }
      }
      assert seen == Holders(State(), n);
    }

    method Advance()
      requires Valid() && peers == |matchIndex| && lastIncludedIndex <= commitIndex
      modifies this`commitIndex
      ensures State() == AdvanceCommit(old(State()))
    {
      var n := LastIndexHere();
      while n > commitIndex
        invariant n <= LastIndexHere() && commitIndex == old(commitIndex)
        invariant CommitFrom(State(), n) == CommitFrom(State(), LastLogIndex(State()))
      {
        if TermHere(n) == currentTerm {
          var count := CountHolders(n);
          if count > peers / 2 {
            commitIndex := n;
            return;
          }
        }
        n := n - 1;
      }
    }

    // ----- snapshots -----

    method Trim(index: int, data: Data)
      requires Valid() && commitIndex <= LastIndexHere()
      modifies this
      ensures State() == TakeSnapshot(old(State()), index, data)
    {
      if index <= lastIncludedIndex || index > commitIndex {
        return;
      }
      var newLog := [Entry(TermHere(index), "")];
      newLog := newLog + log[index - lastIncludedIndex + 1..];
      lastIncludedTerm := TermHere(index);
      lastIncludedIndex := index;
      log := newLog;
      snapshot := data;
      Save();
    }

    /** Keep the tail after a covered entry we have; otherwise start fresh from the snapshot. */
    method CutLog(index: int, term: nat)
      requires Valid() && lastIncludedIndex <= index
      modifies this`log
      ensures log == TrimTo(old(log), lastIncludedIndex, index, term)
    {
      if index < LastIndexHere() && TermHere(index) == term {
        log := [Entry(term, "")] + log[index - lastIncludedIndex + 1..];
      } else {
        log := [Entry(term, "")];
      }
    }

    /** Replace what the snapshot covers. */
    method Adopt(args: SnapshotArgs)
      requires Valid() && lastIncludedIndex < args.lastIncludedIndex
      modifies this
      ensures var s, n := old(State()), args.lastIncludedIndex;
              State() == Persist(s.(log := TrimTo(s.log, s.lastIncludedIndex, n, args.lastIncludedTerm),
                                    lastIncludedIndex := n, lastIncludedTerm := args.lastIncludedTerm,
                                    commitIndex := if s.commitIndex < n then n else s.commitIndex,
                                    lastApplied := if s.lastApplied < n then n else s.lastApplied,
                                    snapshot := args.data))
    {
      hide TrimTo;
      CutLog(args.lastIncludedIndex, args.lastIncludedTerm);
      lastIncludedIndex, lastIncludedTerm := args.lastIncludedIndex, args.lastIncludedTerm;
      if commitIndex < args.lastIncludedIndex {
        commitIndex := args.lastIncludedIndex;
      }
      if lastApplied < args.lastIncludedIndex {
        lastApplied := args.lastIncludedIndex;
      }
      snapshot := args.data;
      Save();
    }

    method HandleInstallSnapshot(args: SnapshotArgs) returns (reply: SnapshotReply, msg: Option<ApplyMsg>)
      requires Valid()
      modifies this
      ensures (State(), reply, msg) == InstallSnapshot(old(State()), args)
    {
      hide TrimTo;
      reply, msg := SnapshotReply(currentTerm), None;
      if args.term < currentTerm {
        return;
      }
      Follow(args.term);
      reply := SnapshotReply(currentTerm);
      if args.lastIncludedIndex <= lastIncludedIndex {
        return;
      }
      Adopt(args);
      msg := Some(SnapshotMsg(args.lastIncludedIndex, args.lastIncludedTerm, args.data));
    }

    method HandleSnapshotReply(peer: nat, args: SnapshotArgs, reply: SnapshotReply)
      requires Valid()
      requires role == Leader ==> peer < |nextIndex| == |matchIndex|
      modifies this
      ensures State() == SnapshotReplied(old(State()), peer, args, reply)
    {
      if role != Leader || currentTerm != args.term {
        return;
      }
      if reply.term > currentTerm {
        StepDown(reply.term);
        return;
      }
      var m := if matchIndex[peer] > args.lastIncludedIndex then matchIndex[peer] else args.lastIncludedIndex;
      matchIndex := matchIndex[peer := m];
      nextIndex := nextIndex[peer := m + 1];
    }

    // ----- apply -----

    /** One turn of the applier: the next committed entry, or nothing to do yet. */
    method ApplyOne() returns (msg: Option<ApplyMsg>)
      requires Valid() && commitIndex <= LastIndexHere()
      modifies this`lastApplied
      ensures CanApply(old(State())) ==> msg.Some? && (State(), msg.value) == ApplyNext(old(State()))
      ensures !CanApply(old(State())) ==> msg.None? && State() == old(State())
    {
      if lastApplied < commitIndex && lastApplied >= lastIncludedIndex {
        lastApplied := lastApplied + 1;
        assert lastApplied > lastIncludedIndex;   // what the code checks once more here
        msg := Some(CommandMsg(lastApplied, log[lastApplied - lastIncludedIndex].cmd));
      } else {
        msg := None;
      }
    }
  }
}
