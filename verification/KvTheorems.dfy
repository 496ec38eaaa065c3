/** What the replicas of the key/value service hold, over every run. */
module KvTheorems {
  import opened Common
  import opened Counting
  import opened ShardServer
  import opened KvReplica

  // ----- what a log means -----

  predicate Mutates(op: ClientOp) {
    op.kind != Get
  }

  /** Entry i counts: it is a mutation with a higher number than all earlier mutations
      of its client. */
  ghost predicate Fresh(log: seq<ClientOp>, i: nat)
    requires i < |log|
  {
    Mutates(log[i]) && forall j :: 0 <= j < i && Mutates(log[j]) && log[j].client == log[i].client ==>
      log[j].seqNo < log[i].seqNo
  }

  /** The data after the mutations that count. */
  ghost function DataOf(log: seq<ClientOp>): Data {
    if log == [] then map[]
    else
      var rest := DataOf(log[..|log| - 1]);
      if Fresh(log, |log| - 1) then Write(rest, log[|log| - 1]) else rest
  }

  /** dedup holds the highest mutation number of every client. */
  ghost predicate DedupOf(log: seq<ClientOp>, dedup: Replies) {
    && (forall i :: 0 <= i < |log| && Mutates(log[i]) ==>
          log[i].client in dedup && log[i].seqNo <= dedup[log[i].client].seqNo)
    && (forall c :: c in dedup ==> dedup[c] == LastReply(dedup[c].seqNo, "", OK))
    && (forall c :: c in dedup ==>
          exists i :: 0 <= i < |log| && Mutates(log[i]) && log[i].client == c && log[i].seqNo == dedup[c].seqNo)
  }

  ghost predicate StoreOf(log: seq<ClientOp>, st: Store) {
    st.data == DataOf(log) && DedupOf(log, st.dedup)
  }

  lemma SeenIff(log: seq<ClientOp>, st: Store, op: ClientOp)
    requires DedupOf(log, st.dedup) && Mutates(op)
    ensures Seen(st, op) <==> !Fresh(log + [op], |log|)
  {
    var l := log + [op];
    if Seen(st, op) {
      var i :| 0 <= i < |log| && Mutates(log[i]) && log[i].client == op.client
               && log[i].seqNo == st.dedup[op.client].seqNo;
      assert l[i] == log[i];
    } else {
      forall j | 0 <= j < |log| && Mutates(l[j]) && l[j].client == op.client
        ensures l[j].seqNo < op.seqNo
      {
        assert l[j] == log[j];
      }
    }
  }

  lemma DedupGrows(log: seq<ClientOp>, st: Store, op: ClientOp)
    requires DedupOf(log, st.dedup)
    ensures DedupOf(log + [op], Execute(st, op).0.dedup)
  {
    var l, dedup := log + [op], Execute(st, op).0.dedup;
    forall i | 0 <= i < |l| && Mutates(l[i])
      ensures l[i].client in dedup && l[i].seqNo <= dedup[l[i].client].seqNo
    {
      assert i < |log| ==> l[i] == log[i];
    }
    forall c | c in dedup
      ensures exists i :: 0 <= i < |l| && Mutates(l[i]) && l[i].client == c && l[i].seqNo == dedup[c].seqNo
    {
      if c in st.dedup && dedup[c] == st.dedup[c] {
        var i :| 0 <= i < |log| && Mutates(log[i]) && log[i].client == c && log[i].seqNo == dedup[c].seqNo;
        assert l[i] == log[i];
      } else {
        assert l[|log|] == op;
      }
    }
  }

  /** Executing the next command of the log keeps the store equal to what the log means. */
  lemma ExecuteKeeps(log: seq<ClientOp>, st: Store, op: ClientOp)
    requires StoreOf(log, st)
    ensures StoreOf(log + [op], Execute(st, op).0)
  {
    DedupGrows(log, st, op);
    assert (log + [op])[..|log|] == log;
    if Mutates(op) {
      SeenIff(log, st, op);
    }
  }

  lemma {:induction false} SameDedup(log: seq<ClientOp>, a: Replies, b: Replies, c: int)
    requires DedupOf(log, a) && DedupOf(log, b) && c in a
    ensures c in b && a[c] == b[c]
  {
    var i :| 0 <= i < |log| && Mutates(log[i]) && log[i].client == c && log[i].seqNo == a[c].seqNo;
    assert c in b;
    var j :| 0 <= j < |log| && Mutates(log[j]) && log[j].client == c && log[j].seqNo == b[c].seqNo;
  }

  /** A log means one store. */
  lemma OneStore(log: seq<ClientOp>, a: Store, b: Store)
    requires StoreOf(log, a) && StoreOf(log, b)
    ensures a == b
  {
    hide DedupOf;
    forall c
      ensures (c in a.dedup <==> c in b.dedup) && (c in a.dedup ==> a.dedup[c] == b.dedup[c])
    {
      if c in a.dedup {
        SameDedup(log, a.dedup, b.dedup, c);
      } else if c in b.dedup {
        SameDedup(log, b.dedup, a.dedup, c);
      }
    }
    SameMap(a.dedup, b.dedup);
  }

  // ----- runs -----

  datatype Snapshot = Snapshot(index: nat, store: Store)

  /** pos counts the log entries the state stands for; Raft delivers the next one after it. */
  datatype Replica = Replica(store: Store, lastApplied: nat, pos: nat, persisted: Option<Snapshot>)

  datatype World = World(replicas: seq<Replica>, taken: set<Snapshot>)

  datatype Step =
    | Command(r: nat, index: nat)      // a committed command is delivered
    | Save(r: nat)                     // the service hands its state to Raft
    | Install(r: nat, snap: Snapshot)  // a snapshot is delivered
    | Persist(r: nat, snap: Snapshot)  // Raft stores a snapshot it was sent
    | Restart(r: nat)
    | Unseen                           // something the services do not see

  const FIRST := Replica(EMPTY, 0, 0, None)

  predicate Enabled(log: seq<ClientOp>, w: World, e: Step) {
    match e
    case Command(r, index) =>
      && r < |w.replicas| && 1 <= index <= |log|
      && (index <= w.replicas[r].lastApplied || index == w.replicas[r].pos + 1)
    case Save(r) => r < |w.replicas|
    case Install(r, snap) => r < |w.replicas| && snap in w.taken
    case Persist(r, snap) => r < |w.replicas| && snap in w.taken
    case Restart(r) => r < |w.replicas|
    case Unseen => true
  }

  function After(log: seq<ClientOp>, w: World, e: Step): World
    requires Enabled(log, w, e)
  {
    match e
    case Command(r, index) =>
      var x := w.replicas[r];
      if index <= x.lastApplied then w
      else
        var store := Execute(x.store, log[index - 1]).0;
        w.(replicas := w.replicas[r := x.(store := store, lastApplied := index, pos := index)])
    case Save(r) =>
      var x := w.replicas[r];
      if x.lastApplied <= SavedUpTo(x) then w
      else
        var snap := Snapshot(x.lastApplied, x.store);
        World(w.replicas[r := x.(persisted := Some(snap))], w.taken + {snap})
    case Install(r, snap) =>
      var x := w.replicas[r];
      if snap.index <= x.lastApplied then w
      else w.(replicas := w.replicas[r := x.(store := snap.store, lastApplied := snap.index, pos := snap.index)])
    case Persist(r, snap) => w.(replicas := w.replicas[r := w.replicas[r].(persisted := Some(snap))])
    case Restart(r) =>
      var x := w.replicas[r];
      var x' := if x.persisted.Some? then Replica(x.persisted.value.store, 0, x.persisted.value.index, x.persisted)
                else Replica(EMPTY, 0, 0, None);
      w.(replicas := w.replicas[r := x'])
    case Unseen => w
  }

  /** Raft ignores a snapshot that is not newer than the one it has. */
  function SavedUpTo(x: Replica): nat {
    if x.persisted.Some? then x.persisted.value.index else 0
  }

  ghost predicate IsRun(log: seq<ClientOp>, ws: seq<World>, es: seq<Step>) {
    && |ws| == |es| + 1 && ws[0].taken == {} && (forall r :: 0 <= r < |ws[0].replicas| ==> ws[0].replicas[r] == FIRST)
    && forall i :: 0 <= i < |es| ==> Enabled(log, ws[i], es[i]) && ws[i + 1] == After(log, ws[i], es[i])
  }

  ghost predicate SnapOk(log: seq<ClientOp>, s: Snapshot) {
    s.index <= |log| && StoreOf(log[..s.index], s.store)
  }

  ghost predicate ReplicaOk(log: seq<ClientOp>, x: Replica) {
    && x.pos <= |log| && StoreOf(log[..x.pos], x.store) && (x.lastApplied == x.pos || x.lastApplied == 0)
    && (x.persisted.Some? ==> SnapOk(log, x.persisted.value))
  }

  ghost predicate Inv(log: seq<ClientOp>, w: World) {
    && (forall r :: 0 <= r < |w.replicas| ==> ReplicaOk(log, w.replicas[r]))
    && (forall s :: s in w.taken ==> SnapOk(log, s))
  }

  lemma StepInv(log: seq<ClientOp>, w: World, e: Step)
    requires Enabled(log, w, e) && Inv(log, w)
    ensures Inv(log, After(log, w, e))
  {
    hide StoreOf, Execute;
    if e.Command? && e.index > w.replicas[e.r].lastApplied {
      var x := w.replicas[e.r];
      assert ReplicaOk(log, x);
      ExecuteKeeps(log[..x.pos], x.store, log[x.pos]);
      assert log[..x.pos] + [log[x.pos]] == log[..e.index];
    } else if e.Restart? {
      EmptyStore();
      assert log[..0] == [];
    }
  }

  lemma EmptyStore()
    ensures StoreOf([], EMPTY)
  {
  }

  lemma {:induction false} RunInv(log: seq<ClientOp>, ws: seq<World>, es: seq<Step>, k: nat)
    requires IsRun(log, ws, es) && k < |ws|
    ensures Inv(log, ws[k])
    decreases k
  {
    hide StoreOf;
    if k == 0 {
      EmptyStore();
      assert log[..0] == [];
    } else {
      RunInv(log, ws, es, k - 1);
      StepInv(log, ws[k - 1], es[k - 1]);
    }
  }

  /** In every run, with commands in order and any mix of snapshots and restarts, a
      replica holds what the part of the log it stands for means. */
  lemma ReplicaIsLog(log: seq<ClientOp>, ws: seq<World>, es: seq<Step>, k: nat, r: nat)
    requires IsRun(log, ws, es) && k < |ws| && r < |ws[k].replicas|
    ensures var x := ws[k].replicas[r];
            && x.pos <= |log| && x.lastApplied in {0, x.pos}
            && x.store.data == DataOf(log[..x.pos]) && DedupOf(log[..x.pos], x.store.dedup)
  {
    RunInv(log, ws, es, k);
    assert ReplicaOk(log, ws[k].replicas[r]);
  }

  /** Replicas that stand for equally much of the log are equal. */
  lemma ReplicasAgree(log: seq<ClientOp>, ws: seq<World>, es: seq<Step>, k: nat, r: nat, l: nat, t: nat)
    requires IsRun(log, ws, es) && k < |ws| && r < |ws[k].replicas| && l < |ws| && t < |ws[l].replicas|
    requires ws[k].replicas[r].pos == ws[l].replicas[t].pos
    ensures ws[k].replicas[r].store == ws[l].replicas[t].store
  {
    hide StoreOf;
    RunInv(log, ws, es, k);
    RunInv(log, ws, es, l);
    assert ReplicaOk(log, ws[k].replicas[r]) && ReplicaOk(log, ws[l].replicas[t]);
    OneStore(log[..ws[k].replicas[r].pos], ws[k].replicas[r].store, ws[l].replicas[t].store);
  }

  // ----- answers -----

  /** However often it is logged, a request counts at most once. */
  lemma CountsOnce(log: seq<ClientOp>, i: nat, j: nat)
    requires i < j < |log| && Fresh(log, i) && Fresh(log, j)
    ensures !SameRequest(log[i], log[j])
  {
    assert Mutates(log[i]) && log[i].client == log[j].client ==> log[i].seqNo < log[j].seqNo;
  }

  /** The mutation at i has taken effect by then. */
  ghost predicate TookEffect(log: seq<ClientOp>, i: nat)
    requires i < |log|
  {
    exists j :: 0 <= j <= i && SameRequest(log[j], log[i]) && Fresh(log, j)
  }

  /** The client's later mutations were logged only after this one had been. */
  ghost predicate InTurn(log: seq<ClientOp>, i: nat)
    requires i < |log|
  {
    forall j :: 0 <= j < i && Mutates(log[j]) && log[j].client == log[i].client && log[j].seqNo > log[i].seqNo ==>
      Logged(log, j, log[i])
  }

  ghost predicate Logged(log: seq<ClientOp>, n: nat, op: ClientOp)
    requires n <= |log|
  {
    exists k :: 0 <= k < n && Mutates(log[k]) && SameRequest(log[k], op)
  }

  lemma {:induction false} FirstLogged(log: seq<ClientOp>, n: nat, op: ClientOp) returns (f: nat)
    requires n <= |log| && Logged(log, n, op)
    ensures f < n && Mutates(log[f]) && SameRequest(log[f], op) && !Logged(log, f, op)
    decreases n
  {
    var k :| 0 <= k < n && Mutates(log[k]) && SameRequest(log[k], op);
    if Logged(log, k, op) {
      f := FirstLogged(log, k, op);
    } else {
      f := k;
    }
  }

  lemma Ahead(log: seq<ClientOp>, i: nat, j: nat, f: nat)
    requires j < f <= i < |log| && InTurn(log, i)
    requires Mutates(log[j]) && log[j].client == log[i].client
    ensures log[j].seqNo >= log[i].seqNo ==> Logged(log, f, log[i])
  {
    if log[j].seqNo > log[i].seqNo {
      assert Logged(log, j, log[i]);
    }
  }

  /** A logged mutation has taken effect exactly if its client did not run ahead of it. */
  lemma EffectIff(log: seq<ClientOp>, i: nat)
    requires i < |log| && Mutates(log[i])
    ensures TookEffect(log, i) <==> InTurn(log, i)
  {
    if TookEffect(log, i) {
      var f :| 0 <= f <= i && SameRequest(log[f], log[i]) && Fresh(log, f);
      forall j | 0 <= j < i && Mutates(log[j]) && log[j].client == log[i].client && log[j].seqNo > log[i].seqNo
        ensures Logged(log, j, log[i])
      {
        assert j > f;
      }
    }
    if InTurn(log, i) {
      assert Logged(log, i + 1, log[i]);
      var f := FirstLogged(log, i + 1, log[i]);
      forall j | 0 <= j < f && Mutates(log[j]) && log[j].client == log[f].client
        ensures log[j].seqNo < log[f].seqNo
      {
        Ahead(log, i, j, f);
      }
      assert Fresh(log, f);
    }
  }

  /** A request is answered exactly if it was itself the command at its index: a Get with
      what the log before it wrote, and a mutation has then taken effect exactly if its
      client did not run ahead of it. */
  lemma AnswerIsOwn(log: seq<ClientOp>, ws: seq<World>, es: seq<Step>, k: nat, op: ClientOp)
    requires IsRun(log, ws, es) && k < |es| && es[k].Command? && Enabled(log, ws[k], es[k])
    requires es[k].index > ws[k].replicas[es[k].r].lastApplied
    requires forall i :: 0 <= i < |log| && SameRequest(log[i], op) ==> log[i] == op
    ensures var n := es[k].index - 1;
            var res := Answer(op, Execute(ws[k].replicas[es[k].r].store, log[n]).1);
            && (res.err != ErrWrongLeader <==> log[n] == op)
            && (log[n] == op && op.kind == Get && op.key in DataOf(log[..n]) ==>
                  res.err == OK && res.value == DataOf(log[..n])[op.key])
            && (log[n] == op && op.kind == Get && op.key !in DataOf(log[..n]) ==>
                  res.err == ErrNoKey && res.value == "")
            && (log[n] == op && op.kind != Get ==>
                  res.err == OK && res.value == "" && (TookEffect(log, n) <==> InTurn(log, n)))
  {
    hide DataOf, TookEffect, InTurn, Fresh;
    var n := es[k].index - 1;
    ReplicaIsLog(log, ws, es, k, es[k].r);
    if log[n] == op && op.kind != Get {
      EffectIff(log, n);
    }
  }
}
