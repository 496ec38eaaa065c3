/** The clients of the sharded store: in every run, with shards on the move, what they see
    is linearizable. */
module ShardClients {
  import opened ShardServer
  import opened ShardMigration
  import opened ShardTheorems
  import opened ClientHistory
  import L = Linearizability
  import M = KvModel

  // ----- one store -----

  /** All effective writes, whichever group made them. */
  function Whole(log: seq<ClientOp>): M.Store {
    if log == [] then map[] else Write(Whole(log[..|log| - 1]), log[|log| - 1])
  }

  /** A key is in the one store what it is in its shard. */
  lemma {:induction false} WholeTruth(log: seq<ClientOp>, key: string)
    ensures M.Value(Whole(log), key) == Lookup(Truth(log, Key2Shard(key)), key)
    decreases |log|
  {
    if log != [] {
      WholeTruth(log[..|log| - 1], key);
    }
  }

  // ----- where writes come from -----

  ghost predicate Writes(ws: seq<World>, es: seq<Step>, f: nat)
    requires f < |es| && |ws| == |es| + 1 && WorldWf(ws[f])
  {
    es[f].Client? && es[f].gid in ws[f].hist && Effective(Now(ws[f], es[f].gid), es[f].op)
  }

  lemma LogStep(cs: seq<Config>, gids: set<int>, ws: seq<World>, es: seq<Step>, k: nat)
    requires IsRun(cs, gids, ws, es) && k < |es|
    ensures WorldWf(ws[k])
    ensures ws[k + 1].log == if Writes(ws, es, k) then ws[k].log + [es[k].op] else ws[k].log
  {
  }

  lemma {:induction false} FromStep(cs: seq<Config>, gids: set<int>, ws: seq<World>, es: seq<Step>, k: nat,
                                    op: ClientOp)
    returns (f: nat)
    requires IsRun(cs, gids, ws, es) && k < |ws| && op in ws[k].log
    ensures f < k && WorldWf(ws[f]) && Writes(ws, es, f) && es[f].op == op
    decreases k
  {
    hide Writes, Next;
    LogStep(cs, gids, ws, es, k - 1);
    if op in ws[k - 1].log {
      f := FromStep(cs, gids, ws, es, k - 1, op);
    } else {
      f := k - 1;
    }
  }

  lemma {:induction false} LogGrows(cs: seq<Config>, gids: set<int>, ws: seq<World>, es: seq<Step>, a: nat, b: nat)
    requires IsRun(cs, gids, ws, es) && a <= b < |ws|
    ensures ws[a].log <= ws[b].log
    decreases b - a
  {
    hide Writes, Next;
    if a < b {
      LogGrows(cs, gids, ws, es, a, b - 1);
      LogStep(cs, gids, ws, es, b - 1);
    }
  }

  lemma WritesOnce(cs: seq<Config>, gids: set<int>, ws: seq<World>, es: seq<Step>, f: nat, g: nat)
    requires ConfigsOk(cs, gids) && IsRun(cs, gids, ws, es) && OneRequest(es) && f < |es| && g < |es|
    requires WorldWf(ws[f]) && WorldWf(ws[g]) && Writes(ws, es, f) && Writes(ws, es, g) && es[f].op == es[g].op
    ensures f >= g
  {
    hide ConfigsOk, Next, OneRequest, Writes;
    LogStep(cs, gids, ws, es, f);
    LogStep(cs, gids, ws, es, g);
    if f < g {
      LogGrows(cs, gids, ws, es, f + 1, g);
      AtMostOnce(cs, gids, ws, es, g + 1, |ws[f].log|, |ws[g].log|);
    }
  }

  // ----- clients -----

  /** The step that executes the operation a request waits for, and what it hands back. */
  ghost predicate AnsweredBy(ws: seq<World>, es: seq<Step>, r: Request)
    requires |ws| == |es| + 1 && r.answer.Some?
  {
    var a := r.answer.value;
    && r.call <= a.step < a.ret <= |es|
    && es[a.step].Client? && es[a.step].op == r.op
    && WorldWf(ws[a.step]) && es[a.step].gid in ws[a.step].hist
    && var reply := ApplyClientOp(Now(ws[a.step], es[a.step].gid), r.op).1;
    reply.err != ErrWrongGroup && reply.value == a.value
  }

  /** Clients give every request a number of its own and have one request at a time; groups
      execute only what was asked, and only after it was asked. */
  ghost predicate Clients(cs: seq<Config>, gids: set<int>, ws: seq<World>, es: seq<Step>, rs: seq<Request>) {
    && ConfigsOk(cs, gids) && IsRun(cs, gids, ws, es)
    && (forall k :: 0 <= k < |es| && es[k].Client? ==> Asked(rs, es[k].op))
    && OwnNumbers(rs)
    && (forall q :: 0 <= q < |rs| ==> rs[q].call <= |es|)
    && (forall q :: 0 <= q < |rs| && rs[q].answer.Some? ==> AnsweredBy(ws, es, rs[q]))
    && (forall q, k :: 0 <= q < |rs| && 0 <= k < |es| && es[k].Client? && es[k].op == rs[q].op ==> rs[q].call <= k)
    && (forall p, q :: 0 <= p < |rs| && 0 <= q < |rs| && Later(rs[p], rs[q]) ==>
          rs[p].answer.Some? && rs[p].answer.value.ret <= rs[q].call)
  }

  lemma OneEach(cs: seq<Config>, gids: set<int>, ws: seq<World>, es: seq<Step>, rs: seq<Request>)
    requires Clients(cs, gids, ws, es, rs)
    ensures OneRequest(es)
  {
    forall i, j | 0 <= i < |es| && 0 <= j < |es| && es[i].Client? && es[j].Client?
      ensures SameRequest(es[i].op, es[j].op) ==> es[i].op == es[j].op
    {
      assert Asked(rs, es[i].op) && Asked(rs, es[j].op);
      var p :| 0 <= p < |rs| && rs[p].op == es[i].op;
      var q :| 0 <= q < |rs| && rs[q].op == es[j].op;
      OneNumber(rs, p, q);
    }
  }

  /** While a request waits, its client has nothing later in the log. */
  lemma IsLatest(cs: seq<Config>, gids: set<int>, ws: seq<World>, es: seq<Step>, rs: seq<Request>, q: nat, k: nat)
    requires Clients(cs, gids, ws, es, rs) && q < |rs| && k <= |es|
    requires rs[q].answer.Some? ==> k <= rs[q].answer.value.ret
    ensures forall i :: 0 <= i < |ws[k].log| && ws[k].log[i].client == rs[q].op.client ==>
              ws[k].log[i].seqNo <= rs[q].op.seqNo
  {
    hide ConfigsOk, Next, Writes, AnsweredBy;
    forall i | 0 <= i < |ws[k].log| && ws[k].log[i].client == rs[q].op.client
      ensures ws[k].log[i].seqNo <= rs[q].op.seqNo
    {
      var f := FromStep(cs, gids, ws, es, k, ws[k].log[i]);
      WriteAsked(cs, gids, ws, es, rs, f);
      var p :| 0 <= p < |rs| && rs[p].op == es[f].op;
      assert rs[p].call <= f;
      assert Later(rs[q], rs[p]) <==> rs[p].op.seqNo > rs[q].op.seqNo;
    }
  }

  lemma WriteAsked(cs: seq<Config>, gids: set<int>, ws: seq<World>, es: seq<Step>, rs: seq<Request>, f: nat)
    requires Clients(cs, gids, ws, es, rs) && f < |es| && WorldWf(ws[f]) && Writes(ws, es, f)
    ensures es[f].Client? && es[f].op.kind != Get && Asked(rs, es[f].op)
  {
  }

  // ----- where requests act -----

  /** The request acts at step f: a Get returns what its shard holds, and a mutation
      takes effect. */
  ghost predicate ActsAtStep(ws: seq<World>, es: seq<Step>, r: Request, f: nat)
    requires |ws| == |es| + 1
  {
    && f < |es| && WorldWf(ws[f]) && es[f].Client? && es[f].op == r.op
    && (r.op.kind == Get ==>
          r.answer.Some? && r.answer.value.value == Lookup(Truth(ws[f].log, Key2Shard(r.op.key)), r.op.key))
    && (r.op.kind != Get ==> Writes(ws, es, f))
    && (r.answer.Some? ==> f < r.answer.value.ret)
  }

  ghost predicate Took(ws: seq<World>, r: Request) {
    |ws| > 0 && r.op in ws[|ws| - 1].log
  }

  ghost function TookAll(ws: seq<World>, rs: seq<Request>): seq<bool> {
    seq(|rs|, q requires 0 <= q < |rs| => Took(ws, rs[q]))
  }

  lemma Answered(cs: seq<Config>, gids: set<int>, ws: seq<World>, es: seq<Step>, rs: seq<Request>, q: nat)
    returns (f: nat)
    requires Clients(cs, gids, ws, es, rs) && q < |rs| && rs[q].answer.Some?
    ensures ActsAtStep(ws, es, rs[q], f)
  {
    hide ConfigsOk, Next, Truth, Writes, OneRequest, ApplyClientOp;
    var r := rs[q];
    var k := r.answer.value.step;
    assert AnsweredBy(ws, es, r);
    if r.op.kind == Get {
      f := k;
      GetReadsTruth(cs, gids, ws, es, k, es[k].gid, r.op);
    } else {
      OneEach(cs, gids, ws, es, rs);
      IsLatest(cs, gids, ws, es, rs, q, k);
      WriteOk(Now(ws[k], es[k].gid), r.op);
      AnsweredIsApplied(cs, gids, ws, es, k);
      f := FromStep(cs, gids, ws, es, k + 1, r.op);
      WriteAsked(cs, gids, ws, es, rs, f);
    }
  }

  lemma WriteOk(g: Group, op: ClientOp)
    requires WfGroup(g) && op.kind != Get && ApplyClientOp(g, op).1.err != ErrWrongGroup
    ensures ApplyClientOp(g, op).1.err == OK
  {
  }

  ghost function Point(ws: seq<World>, es: seq<Step>, r: Request): nat
    requires |ws| == |es| + 1
  {
    if exists f: nat :: ActsAtStep(ws, es, r, f) then
      var f: nat :| ActsAtStep(ws, es, r, f);
      f
    else 0
  }

  lemma PointActs(cs: seq<Config>, gids: set<int>, ws: seq<World>, es: seq<Step>, rs: seq<Request>, q: nat)
    requires Clients(cs, gids, ws, es, rs) && q < |rs| && Counts(rs[q], Took(ws, rs[q]))
    ensures |ws| == |es| + 1 && ActsAtStep(ws, es, rs[q], Point(ws, es, rs[q]))
  {
    hide ConfigsOk, Next, Truth, Writes, WorldWf;
    if rs[q].answer.Some? {
      var f := Answered(cs, gids, ws, es, rs, q);
      assert ActsAtStep(ws, es, rs[q], f);
    } else {
      var f := FromStep(cs, gids, ws, es, |ws| - 1, rs[q].op);
      WriteAsked(cs, gids, ws, es, rs, f);
      assert ActsAtStep(ws, es, rs[q], f);
    }
  }

  /** The one store before step t. */
  ghost function Stores(ws: seq<World>): seq<M.Store> {
    seq(|ws|, t requires 0 <= t < |ws| => Whole(ws[t].log))
  }

  lemma WholeStep(cs: seq<Config>, gids: set<int>, ws: seq<World>, es: seq<Step>, t: nat)
    requires IsRun(cs, gids, ws, es) && t < |es|
    ensures WorldWf(ws[t])
    ensures Whole(ws[t + 1].log) == if Writes(ws, es, t) then Write(Whole(ws[t].log), es[t].op) else Whole(ws[t].log)
  {
    hide Writes, Next, WorldWf;
    LogStep(cs, gids, ws, es, t);
    if Writes(ws, es, t) {
      assert ws[t + 1].log[..|ws[t].log|] == ws[t].log;
    }
  }

  lemma PointLeads(cs: seq<Config>, gids: set<int>, ws: seq<World>, es: seq<Step>, r: Request, f: nat, end: nat)
    requires IsRun(cs, gids, ws, es) && ActsAtStep(ws, es, r, f)
    ensures Leads(Whole(ws[f].log), InputOf(r.op), OpOf(r, end).output, Whole(ws[f + 1].log))
  {
    hide Whole, Truth, Next, WorldWf;
    WholeStep(cs, gids, ws, es, f);
    if r.op.kind == Get {
      WholeTruth(ws[f].log, r.op.key);
    }
  }

  /** Where no request acts, nothing is written. */
  lemma IdleStep(cs: seq<Config>, gids: set<int>, ws: seq<World>, es: seq<Step>, rs: seq<Request>, pt: seq<nat>, t: nat)
    requires Clients(cs, gids, ws, es, rs) && |pt| == |rs| && t < |es|
    requires forall q :: 0 <= q < |rs| ==> pt[q] == Point(ws, es, rs[q])
    requires Idle(rs, TookAll(ws, rs), pt, t)
    ensures Same(Whole(ws[t].log), Whole(ws[t + 1].log))
  {
    hide ConfigsOk, Next, Truth, Whole, Writes, WorldWf, Point, OneRequest;
    WholeStep(cs, gids, ws, es, t);
    if Writes(ws, es, t) {
      LogStep(cs, gids, ws, es, t);
      LogGrows(cs, gids, ws, es, t + 1, |ws| - 1);
      WriteAsked(cs, gids, ws, es, rs, t);
      var q :| 0 <= q < |rs| && rs[q].op == es[t].op;
      assert ws[|ws| - 1].log[|ws[t].log|] == rs[q].op;
      assert Counts(rs[q], TookAll(ws, rs)[q]);
      PointActs(cs, gids, ws, es, rs, q);
      OneEach(cs, gids, ws, es, rs);
      WritesOnce(cs, gids, ws, es, pt[q], t);
      WritesOnce(cs, gids, ws, es, t, pt[q]);
    }
  }

  lemma Different(cs: seq<Config>, gids: set<int>, ws: seq<World>, es: seq<Step>, rs: seq<Request>, p: nat, q: nat)
    requires Clients(cs, gids, ws, es, rs) && p < q < |rs|
    ensures rs[p].op != rs[q].op
  {
    assert !SameRequest(rs[p].op, rs[q].op);
  }

  lemma RunShape(cs: seq<Config>, gids: set<int>, ws: seq<World>, es: seq<Step>, rs: seq<Request>)
    requires Clients(cs, gids, ws, es, rs)
    ensures IsRun(cs, gids, ws, es) && |ws| == |es| + 1 && Same(map[], Whole(ws[0].log))
  {
  }

  lemma Acting(cs: seq<Config>, gids: set<int>, ws: seq<World>, es: seq<Step>, rs: seq<Request>, pt: seq<nat>)
    requires Clients(cs, gids, ws, es, rs) && |pt| == |rs|
    requires forall q :: 0 <= q < |rs| ==> pt[q] == Point(ws, es, rs[q])
    ensures RequestsAct(rs, TookAll(ws, rs), |es|, pt, Stores(ws))
  {
    hide Clients, IsRun, Whole, Truth, Leads, Point, Same, Took, Writes, WorldWf;
    RunShape(cs, gids, ws, es, rs);
    var took, d := TookAll(ws, rs), Stores(ws);
    forall q | 0 <= q < |rs| && Counts(rs[q], took[q])
      ensures pt[q] < |es| && es[pt[q]].Client? && es[pt[q]].op == rs[q].op
      ensures Leads(d[pt[q]], InputOf(rs[q].op), OpOf(rs[q], |es|).output, d[pt[q] + 1])
    {
      PointActs(cs, gids, ws, es, rs, q);
      PointLeads(cs, gids, ws, es, rs[q], pt[q], |es|);
    }
    forall p, q | 0 <= p < q < |rs| && Counts(rs[p], took[p]) && Counts(rs[q], took[q])
      ensures pt[p] != pt[q]
    {
      Different(cs, gids, ws, es, rs, p, q);
    }
    forall t: nat | t + 1 < |d| && Idle(rs, took, pt, t)
      ensures Same(d[t], d[t + 1])
    {
      IdleStep(cs, gids, ws, es, rs, pt, t);
    }
  }

  lemma Timing(cs: seq<Config>, gids: set<int>, ws: seq<World>, es: seq<Step>, rs: seq<Request>, pt: seq<nat>)
    requires Clients(cs, gids, ws, es, rs) && |pt| == |rs|
    requires forall q :: 0 <= q < |rs| ==> pt[q] == Point(ws, es, rs[q])
    ensures InTime(rs, TookAll(ws, rs), |es|, pt)
  {
    hide ConfigsOk, IsRun, Truth, Point, Writes, WorldWf, AnsweredBy;
    RunShape(cs, gids, ws, es, rs);
    var took := TookAll(ws, rs);
    forall p, q | 0 <= p < |rs| && 0 <= q < |rs| && Counts(rs[p], took[p]) && Counts(rs[q], took[q])
                  && L.Precedes(OpOf(rs[p], |es|), OpOf(rs[q], |es|))
      ensures pt[p] < pt[q]
    {
      PointActs(cs, gids, ws, es, rs, p);
      PointActs(cs, gids, ws, es, rs, q);
      assert rs[q].call <= pt[q];
    }
  }

  /** In every run of groups and clients, however the shards move, the requests that
      returned, together with those that took effect without returning yet, are a
      linearizable history of one store. */
  lemma ClientsLinearizable(cs: seq<Config>, gids: set<int>, ws: seq<World>, es: seq<Step>, rs: seq<Request>)
    requires Clients(cs, gids, ws, es, rs)
    ensures L.Linearizable(M.STORE, History(rs, TookAll(ws, rs), |es|))
  {
    hide Clients, IsRun, Whole, Point, L.Linearizable, History;
    RunShape(cs, gids, ws, es, rs);
    var pt := seq(|rs|, q requires 0 <= q < |rs| => Point(ws, es, rs[q]));
    Acting(cs, gids, ws, es, rs, pt);
    Timing(cs, gids, ws, es, rs, pt);
    RequestsLinearize(rs, TookAll(ws, rs), |es|, pt, Stores(ws));
  }
}
