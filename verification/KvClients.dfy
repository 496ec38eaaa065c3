/** The clients of the key/value service: in every run, what they see is linearizable. */
module KvClients {
  import opened ShardServer
  import opened KvReplica
  import opened KvTheorems
  import opened ClientHistory
  import L = Linearizability
  import M = KvModel

  /** len[k] entries of the log are committed in state k; a replica is given only those. */
  ghost predicate Commits(log: seq<ClientOp>, es: seq<Step>, len: seq<nat>) {
    && |len| == |es| + 1
    && (forall i, j :: 0 <= i <= j < |len| ==> len[i] <= len[j] <= |log|)
    && (forall k :: 0 <= k < |es| && es[k].Command? ==> es[k].index <= len[k])
  }

  /** The step that executes the command a request waits for, and what it hands back. */
  ghost predicate AnsweredBy(log: seq<ClientOp>, ws: seq<World>, es: seq<Step>, r: Request)
    requires IsRun(log, ws, es) && r.answer.Some?
  {
    var a := r.answer.value;
    && r.call <= a.step < a.ret <= |es|
    && es[a.step].Command?
    && es[a.step].index > ws[a.step].replicas[es[a.step].r].lastApplied
    && var res := Answer(r.op, Execute(ws[a.step].replicas[es[a.step].r].store, log[es[a.step].index - 1]).1);
    res.err != ErrWrongLeader && res.value == a.value
  }

  /** Clients give every request a number of its own and have one request at a time; only
      what was asked is logged, and only after it was asked. */
  ghost predicate Clients(log: seq<ClientOp>, ws: seq<World>, es: seq<Step>, len: seq<nat>, rs: seq<Request>) {
    && IsRun(log, ws, es) && Commits(log, es, len)
    && (forall i :: 0 <= i < |log| ==> Asked(rs, log[i]))
    && OwnNumbers(rs)
    && (forall q :: 0 <= q < |rs| ==> rs[q].call <= |es|)
    && (forall q :: 0 <= q < |rs| && rs[q].answer.Some? ==> AnsweredBy(log, ws, es, rs[q]))
    && (forall q, i :: 0 <= q < |rs| && 0 <= i < |log| && log[i] == rs[q].op ==> len[rs[q].call] <= i)
    && (forall p, q :: 0 <= p < |rs| && 0 <= q < |rs| && Later(rs[p], rs[q]) ==>
          rs[p].answer.Some? && rs[p].answer.value.ret <= rs[q].call)
  }

  ghost predicate Took(log: seq<ClientOp>, op: ClientOp) {
    exists i :: 0 <= i < |log| && Fresh(log, i) && log[i] == op
  }

  ghost function TookAll(log: seq<ClientOp>, rs: seq<Request>): seq<bool> {
    seq(|rs|, q requires 0 <= q < |rs| => Took(log, rs[q].op))
  }

  lemma OwnEntry(log: seq<ClientOp>, ws: seq<World>, es: seq<Step>, len: seq<nat>, rs: seq<Request>, q: nat)
    requires Clients(log, ws, es, len, rs) && q < |rs|
    ensures forall i :: 0 <= i < |log| && SameRequest(log[i], rs[q].op) ==> log[i] == rs[q].op
  {
    forall i | 0 <= i < |log| && SameRequest(log[i], rs[q].op)
      ensures log[i] == rs[q].op
    {
      assert Asked(rs, log[i]);
      var p :| 0 <= p < |rs| && rs[p].op == log[i];
      OneNumber(rs, p, q);
    }
  }

  /** No later request of the client was logged before this one was answered. */
  lemma NotOvertaken(log: seq<ClientOp>, ws: seq<World>, es: seq<Step>, len: seq<nat>, rs: seq<Request>, q: nat, i: nat)
    requires Clients(log, ws, es, len, rs) && q < |rs| && rs[q].answer.Some? && i < |log| && log[i] == rs[q].op
    requires i < len[rs[q].answer.value.step]
    ensures InTurn(log, i)
  {
    forall j | 0 <= j < |log| && log[j].client == log[i].client && log[j].seqNo > log[i].seqNo
      ensures i < j
    {
      assert Asked(rs, log[j]);
      var p :| 0 <= p < |rs| && rs[p].op == log[j];
      assert Later(rs[q], rs[p]);
      assert AnsweredBy(log, ws, es, rs[q]);
      assert len[rs[p].call] <= j;
    }
  }

  /** An answered request is in the log, and what it returned is what the log says there. */
  lemma Answered(log: seq<ClientOp>, ws: seq<World>, es: seq<Step>, len: seq<nat>, rs: seq<Request>, q: nat)
    returns (i: nat)
    requires Clients(log, ws, es, len, rs) && q < |rs| && rs[q].answer.Some?
    ensures i < |log| && log[i] == rs[q].op && i < len[rs[q].answer.value.ret]
    ensures rs[q].op.kind == Get ==> rs[q].answer.value.value == Lookup(DataOf(log[..i]), rs[q].op.key)
    ensures rs[q].op.kind != Get ==> Fresh(log, i)
  {
    hide DataOf, Execute;
    var r := rs[q];
    var a := r.answer.value;
    OwnEntry(log, ws, es, len, rs, q);
    assert AnsweredBy(log, ws, es, r);
    assert Enabled(log, ws[a.step], es[a.step]);
    AnswerIsOwn(log, ws, es, a.step, r.op);
    i := es[a.step].index - 1;
    assert i < len[a.step] <= len[a.ret];
    if r.op.kind == Get {
      GetValue(ws[a.step].replicas[es[a.step].r].store, log[i]);
    } else {
      NotOvertaken(log, ws, es, len, rs, q, i);
      var j :| 0 <= j <= i && SameRequest(log[j], log[i]) && Fresh(log, j);
      i := j;
    }
  }

  lemma GetValue(st: KvReplica.Store, op: ClientOp)
    requires op.kind == Get
    ensures Execute(st, op).1.err == ErrNoKey ==> Execute(st, op).1.value == ""
  {
  }

  // ----- where requests act -----

  /** The request acts at entry i: a Get returns what the log before it wrote, and a
      mutation counts. */
  ghost predicate ActsAtEntry(log: seq<ClientOp>, len: seq<nat>, r: Request, i: nat) {
    && i < |log| && log[i] == r.op
    && (r.op.kind == Get ==> r.answer.Some? && r.answer.value.value == Lookup(DataOf(log[..i]), r.op.key))
    && (r.op.kind != Get ==> Fresh(log, i))
    && (r.answer.Some? ==> r.answer.value.ret < |len| && i < len[r.answer.value.ret])
  }

  ghost function Entry(log: seq<ClientOp>, len: seq<nat>, r: Request): nat {
    if exists i: nat :: ActsAtEntry(log, len, r, i) then
      var i: nat :| ActsAtEntry(log, len, r, i);
      i
    else 0
  }

  lemma EntryActs(log: seq<ClientOp>, ws: seq<World>, es: seq<Step>, len: seq<nat>, rs: seq<Request>, q: nat)
    requires Clients(log, ws, es, len, rs) && q < |rs| && Counts(rs[q], Took(log, rs[q].op))
    ensures ActsAtEntry(log, len, rs[q], Entry(log, len, rs[q]))
  {
    hide Clients, DataOf, Fresh;
    if rs[q].answer.Some? {
      var i := Answered(log, ws, es, len, rs, q);
      ReturnsIn(log, ws, es, len, rs, q);
      assert ActsAtEntry(log, len, rs[q], i);
    } else {
      var i :| 0 <= i < |log| && Fresh(log, i) && log[i] == rs[q].op;
      FreshMutates(log, i);
      assert ActsAtEntry(log, len, rs[q], i);
    }
  }

  lemma ReturnsIn(log: seq<ClientOp>, ws: seq<World>, es: seq<Step>, len: seq<nat>, rs: seq<Request>, q: nat)
    requires Clients(log, ws, es, len, rs) && q < |rs| && rs[q].answer.Some?
    ensures |len| == |es| + 1 && rs[q].answer.value.ret <= |es|
  {
    assert AnsweredBy(log, ws, es, rs[q]);
  }

  lemma FreshMutates(log: seq<ClientOp>, i: nat)
    requires i < |log| && Fresh(log, i)
    ensures log[i].kind != Get
  {
  }

  /** The store before entry t. */
  ghost function Stores(log: seq<ClientOp>): seq<M.Store> {
    seq(|log| + 1, t requires 0 <= t <= |log| => DataOf(log[..t]))
  }

  lemma DataStep(log: seq<ClientOp>, t: nat)
    requires t < |log|
    ensures DataOf(log[..t + 1]) == if Fresh(log, t) then Write(DataOf(log[..t]), log[t]) else DataOf(log[..t])
  {
    var l := log[..t + 1];
    assert l[..t] == log[..t];
    assert forall j :: 0 <= j <= t ==> l[j] == log[j];
    assert Fresh(l, t) <==> Fresh(log, t);
  }

  lemma EntryLeads(log: seq<ClientOp>, len: seq<nat>, r: Request, i: nat, end: nat)
    requires ActsAtEntry(log, len, r, i)
    ensures Leads(DataOf(log[..i]), InputOf(r.op), OpOf(r, end).output, DataOf(log[..i + 1]))
  {
    hide DataOf;
    DataStep(log, i);
    var d, op := DataOf(log[..i]), r.op;
    if op.kind == Get {
      assert !Fresh(log, i);
    }
  }

  lemma Acting(log: seq<ClientOp>, ws: seq<World>, es: seq<Step>, len: seq<nat>, rs: seq<Request>, pt: seq<nat>)
    requires Clients(log, ws, es, len, rs) && |pt| == |rs|
    requires forall q :: 0 <= q < |rs| ==> pt[q] == Entry(log, len, rs[q])
    ensures RequestsAct(rs, TookAll(log, rs), |es|, pt, Stores(log))
  {
    hide Clients, DataOf, Fresh, Leads, ActsAtEntry, Entry, Same;
    var took, d := TookAll(log, rs), Stores(log);
    forall q | 0 <= q < |rs| && Counts(rs[q], took[q])
      ensures pt[q] < |log| && log[pt[q]] == rs[q].op
      ensures Leads(d[pt[q]], InputOf(rs[q].op), OpOf(rs[q], |es|).output, d[pt[q] + 1])
    {
      EntryActs(log, ws, es, len, rs, q);
      EntryIs(log, len, rs[q], pt[q]);
      EntryLeads(log, len, rs[q], pt[q], |es|);
    }
    forall p, q | 0 <= p < q < |rs| && Counts(rs[p], took[p]) && Counts(rs[q], took[q])
      ensures pt[p] != pt[q]
    {
      Different(log, ws, es, len, rs, p, q);
    }
    forall t: nat | t + 1 < |d| && Idle(rs, took, pt, t)
      ensures Same(d[t], d[t + 1])
    {
      IdleEntry(log, ws, es, len, rs, pt, t);
    }
    StartsEmpty(log);
  }

  lemma StartsEmpty(log: seq<ClientOp>)
    ensures Same(map[], DataOf(log[..0]))
  {
  }

  lemma EntryIs(log: seq<ClientOp>, len: seq<nat>, r: Request, i: nat)
    requires ActsAtEntry(log, len, r, i)
    ensures i < |log| && log[i] == r.op && (r.op.kind != Get ==> Fresh(log, i))
  {
  }

  lemma Different(log: seq<ClientOp>, ws: seq<World>, es: seq<Step>, len: seq<nat>, rs: seq<Request>, p: nat, q: nat)
    requires Clients(log, ws, es, len, rs) && p < q < |rs|
    ensures rs[p].op != rs[q].op
  {
    assert !SameRequest(rs[p].op, rs[q].op);
  }

  /** Where no request acts, the log entry does not count. */
  lemma IdleEntry(log: seq<ClientOp>, ws: seq<World>, es: seq<Step>, len: seq<nat>, rs: seq<Request>, pt: seq<nat>,
                  t: nat)
    requires Clients(log, ws, es, len, rs) && |pt| == |rs| && t < |log|
    requires forall q :: 0 <= q < |rs| ==> pt[q] == Entry(log, len, rs[q])
    requires Idle(rs, TookAll(log, rs), pt, t)
    ensures Same(DataOf(log[..t]), DataOf(log[..t + 1]))
  {
    hide DataOf, Entry, ActsAtEntry;
    DataStep(log, t);
    if Fresh(log, t) {
      assert Asked(rs, log[t]);
      var q :| 0 <= q < |rs| && rs[q].op == log[t];
      assert Took(log, rs[q].op) && Counts(rs[q], TookAll(log, rs)[q]);
      EntryActs(log, ws, es, len, rs, q);
      EntryIs(log, len, rs[q], pt[q]);
      FreshTwice(log, pt[q], t);
    }
  }

  lemma FreshTwice(log: seq<ClientOp>, i: nat, j: nat)
    requires i < |log| && j < |log| && Fresh(log, j) && log[i] == log[j] && (log[j].kind != Get ==> Fresh(log, i))
    ensures i == j
  {
    if i < j {
      CountsOnce(log, i, j);
    } else if j < i {
      CountsOnce(log, j, i);
    }
  }

  lemma Timing(log: seq<ClientOp>, ws: seq<World>, es: seq<Step>, len: seq<nat>, rs: seq<Request>, pt: seq<nat>)
    requires Clients(log, ws, es, len, rs) && |pt| == |rs|
    requires forall q :: 0 <= q < |rs| ==> pt[q] == Entry(log, len, rs[q])
    ensures InTime(rs, TookAll(log, rs), |es|, pt)
  {
    hide DataOf, Entry, Fresh;
    var took := TookAll(log, rs);
    forall p, q | 0 <= p < |rs| && 0 <= q < |rs| && Counts(rs[p], took[p]) && Counts(rs[q], took[q])
                  && L.Precedes(OpOf(rs[p], |es|), OpOf(rs[q], |es|))
      ensures pt[p] < pt[q]
    {
      EntryActs(log, ws, es, len, rs, p);
      EntryActs(log, ws, es, len, rs, q);
      assert log[pt[q]] == rs[q].op;
      assert len[rs[q].call] <= pt[q];
    }
  }

  /** In every run of replicas and clients, the requests that returned, together with those
      that took effect without returning yet, are a linearizable history of one store. */
  lemma ClientsLinearizable(log: seq<ClientOp>, ws: seq<World>, es: seq<Step>, len: seq<nat>, rs: seq<Request>)
    requires Clients(log, ws, es, len, rs)
    ensures L.Linearizable(M.STORE, History(rs, TookAll(log, rs), |es|))
  {
    hide Clients;
    var pt := seq(|rs|, q requires 0 <= q < |rs| => Entry(log, len, rs[q]));
    Acting(log, ws, es, len, rs, pt);
    Timing(log, ws, es, len, rs, pt);
    RequestsLinearize(rs, TookAll(log, rs), |es|, pt, Stores(log));
  }
}
