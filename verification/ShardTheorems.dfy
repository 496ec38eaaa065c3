/** What holds in every run of shard migration, however late, repeated or reordered
    the pulls, installs and deletions are. */
module ShardTheorems {
  import opened Common
  import opened ShardServer
  import opened ShardMigration
  import opened ShardSteps

  lemma InitInv(cs: seq<Config>, gids: set<int>)
    requires ConfigsOk(cs, gids)
    ensures Inv(cs, gids, Init(gids))
  {
    var w := Init(gids);
    forall gid, i | gid in w.hist && 0 <= i < |w.hist[gid]|
      ensures GroupOk(cs, gid, w.hist[gid][i])
    {
    }
    forall s: nat | s < NSHARDS
      ensures ShardOk(cs, w, s)
    {
      assert cs[0].shards[s] == 0;
    }
  }

  lemma StepInv(cs: seq<Config>, gids: set<int>, w: World, e: Step)
    requires Inv(cs, gids, w) && Enabled(cs, w, e)
    ensures Inv(cs, gids, Next(cs, w, e))
  {
    hide Known, ShardOk, ConfigsOk, Takes, Rightful;
    StepKnown(cs, gids, w, e);
    KnownWf(cs, gids, w);
    KnownWf(cs, gids, Next(cs, w, e));
    forall s: nat | s < NSHARDS
      ensures ShardOk(cs, Next(cs, w, e), s)
    {
      if Takes(cs, w, e, s) {
        FirstIsRightful(cs, gids, w, e, s);
      }
      StepShard(cs, gids, w, e, s);
    }
  }

  lemma InvWf(cs: seq<Config>, gids: set<int>, w: World)
    requires Inv(cs, gids, w)
    ensures WorldWf(w) && Shaped(cs) && HistOk(cs, w) && w.hist.Keys == gids && 0 !in gids
    ensures forall s: nat :: s < NSHARDS ==> ShardOk(cs, w, s)
  {
  }

  lemma {:induction false} RunInv(cs: seq<Config>, gids: set<int>, ws: seq<World>, es: seq<Step>, k: nat)
    requires ConfigsOk(cs, gids) && IsRun(cs, gids, ws, es) && k < |ws|
    ensures Inv(cs, gids, ws[k]) && WorldWf(ws[k])
  {
    hide Inv, ConfigsOk;
    if k == 0 {
      InitInv(cs, gids);
    } else {
      RunInv(cs, gids, ws, es, k - 1);
      StepInv(cs, gids, ws[k - 1], es[k - 1]);
    }
    InvWf(cs, gids, ws[k]);
  }

  /** In every reachable state at most one group serves a shard. */
  lemma OneServer(cs: seq<Config>, gids: set<int>, ws: seq<World>, es: seq<Step>, k: nat, a: int, b: int, s: nat)
    requires ConfigsOk(cs, gids) && IsRun(cs, gids, ws, es) && k < |ws| && s < NSHARDS
    requires WorldWf(ws[k]) && a in ws[k].hist && b in ws[k].hist
    requires CanServe(Now(ws[k], a), s) && CanServe(Now(ws[k], b), s)
    ensures a == b
  {
    hide Inv, ConfigsOk, IsRun;
    RunInv(cs, gids, ws, es, k);
    InvWf(cs, gids, ws[k]);
    WriterHolds(cs, ws[k], a, s);
    WriterHolds(cs, ws[k], b, s);
  }

  /** The copy that is served is the fold of every write to the shard that took
      effect so far, by whichever group. */
  lemma ServedIsTruth(cs: seq<Config>, gids: set<int>, ws: seq<World>, es: seq<Step>, k: nat, gid: int, s: nat)
    requires ConfigsOk(cs, gids) && IsRun(cs, gids, ws, es) && k < |ws| && s < NSHARDS
    requires WorldWf(ws[k]) && gid in ws[k].hist && CanServe(Now(ws[k], gid), s)
    ensures Now(ws[k], gid).shards[s].data == Truth(ws[k].log, s)
  {
    hide Inv, ConfigsOk, IsRun;
    RunInv(cs, gids, ws, es, k);
    InvWf(cs, gids, ws[k]);
    WriterHolds(cs, ws[k], gid, s);
  }

  /** A Get that is answered, is answered from the one map. */
  lemma GetReadsTruth(cs: seq<Config>, gids: set<int>, ws: seq<World>, es: seq<Step>, k: nat, gid: int, op: ClientOp)
    requires ConfigsOk(cs, gids) && IsRun(cs, gids, ws, es) && k < |ws|
    requires WorldWf(ws[k]) && gid in ws[k].hist && op.kind == Get
    ensures var r := ApplyClientOp(Now(ws[k], gid), op).1;
            var d := Truth(ws[k].log, Key2Shard(op.key));
            r.err != ErrWrongGroup ==> if op.key in d then r == Reply(OK, d[op.key]) else r == Reply(ErrNoKey, "")
  {
    if CanServe(Now(ws[k], gid), Key2Shard(op.key)) {
      ServedIsTruth(cs, gids, ws, es, k, gid, Key2Shard(op.key));
    }
  }

  // ----- exactly once -----

  /** Every client number and sequence number stands for one request. */
  ghost predicate OneRequest(es: seq<Step>) {
    forall i, j :: 0 <= i < |es| && 0 <= j < |es| && es[i].Client? && es[j].Client? ==>
      SameRequest(es[i].op, es[j].op) ==> es[i].op == es[j].op
  }

  ghost predicate Issued(es: seq<Step>, op: ClientOp) {
    exists i :: 0 <= i < |es| && es[i].Client? && es[i].op == op
  }

  ghost predicate AppliedOnce(log: seq<ClientOp>) {
    forall i, j :: 0 <= i < j < |log| ==> !SameRequest(log[i], log[j])
  }

  /** A sequence number a group remembers for a client was applied. */
  ghost predicate Remembered(log: seq<ClientOp>, dedup: Dedup) {
    forall c :: c in dedup ==> exists i :: 0 <= i < |log| && log[i].client == c && log[i].seqNo == dedup[c]
  }

  ghost predicate OnceInv(es: seq<Step>, w: World)
    requires WorldWf(w)
  {
    && AppliedOnce(w.log)
    && (forall i :: 0 <= i < |w.log| ==> Issued(es, w.log[i]))
    && (forall gid, i :: gid in w.hist && 0 <= i < |w.hist[gid]| ==> Remembered(w.log, w.hist[gid][i].dedup))
  }

  lemma RememberedLater(log: seq<ClientOp>, log': seq<ClientOp>, dedup: Dedup)
    requires Remembered(log, dedup) && |log| <= |log'| && log'[..|log|] == log
    ensures Remembered(log', dedup)
  {
    forall c | c in dedup
      ensures exists i :: 0 <= i < |log'| && log'[i].client == c && log'[i].seqNo == dedup[c]
    {
      var i :| 0 <= i < |log| && log[i].client == c && log[i].seqNo == dedup[c];
      assert log'[i] == log'[..|log|][i];
    }
  }

  /** A write that takes effect has not taken effect before. */
  lemma WriteIsNew(cs: seq<Config>, gids: set<int>, es: seq<Step>, w: World, gid: int, op: ClientOp)
    requires Inv(cs, gids, w) && OnceInv(es, w) && gid in w.hist && Effective(Now(w, gid), op)
    requires OneRequest(es) && Issued(es, op)
    ensures AppliedOnce(w.log + [op])
  {
    hide Inv;
    InvWf(cs, gids, w);
    var s := Key2Shard(op.key);
    WriterHolds(cs, w, gid, s);
    forall i | 0 <= i < |w.log|
      ensures !SameRequest(w.log[i], op)
    {
      assert Issued(es, w.log[i]);
      var j :| 0 <= j < |es| && es[j].Client? && es[j].op == w.log[i];
      var k :| 0 <= k < |es| && es[k].Client? && es[k].op == op;
      assert es[j].op == es[k].op || !SameRequest(es[j].op, es[k].op);
    }
  }

  lemma OnceStep(cs: seq<Config>, gids: set<int>, es: seq<Step>, w: World, e: Step)
    requires Inv(cs, gids, w) && OnceInv(es, w) && Enabled(cs, w, e) && OneRequest(es)
    requires e.Client? ==> Issued(es, e.op)
    ensures WorldWf(Next(cs, w, e)) && OnceInv(es, Next(cs, w, e))
  {
    hide Inv, Issued, OneRequest, Remembered, AppliedOnce, Next, Effective;
    InvWf(cs, gids, w);
    var w' := Next(cs, w, e);
    StepInv(cs, gids, w, e);
    InvWf(cs, gids, w');
    StepAdds(cs, w, e);
    if e.Client? && Effective(Now(w, e.gid), e.op) {
      WriteIsNew(cs, gids, es, w, e.gid, e.op);
    }
    assert w'.log[..|w.log|] == w.log;
    forall gid, i | gid in w'.hist && 0 <= i < |w'.hist[gid]|
      ensures Remembered(w'.log, w'.hist[gid][i].dedup)
    {
      if gid in w.hist && i < |w.hist[gid]| {
        assert w'.hist[gid][i] == w.hist[gid][i];
        RememberedLater(w.log, w'.log, w.hist[gid][i].dedup);
      } else {
        RememberedNew(cs, gids, es, w, e);
      }
    }
  }

  /** A step adds at most one write and one state of one group. */
  lemma StepAdds(cs: seq<Config>, w: World, e: Step)
    requires WorldWf(w) && Enabled(cs, w, e) && WorldWf(Next(cs, w, e))
    ensures var w' := Next(cs, w, e);
            && w'.log == (if e.Client? && Effective(Now(w, e.gid), e.op) then w.log + [e.op] else w.log)
            && w'.hist.Keys == w.hist.Keys && e.gid in w.hist
            && (forall gid :: gid in w.hist && gid != e.gid ==> w'.hist[gid] == w.hist[gid])
            && w.hist[e.gid] <= w'.hist[e.gid] && |w'.hist[e.gid]| <= |w.hist[e.gid]| + 1
  {
    hide ApplyClientOp, ApplyConfig, ApplyInstallShard, ApplyDeleteShard, Effective;
  }

  /** What the new state of the group remembers was applied. */
  lemma RememberedNew(cs: seq<Config>, gids: set<int>, es: seq<Step>, w: World, e: Step)
    requires WorldWf(w) && OnceInv(es, w) && Enabled(cs, w, e) && WorldWf(Next(cs, w, e))
    ensures Remembered(Next(cs, w, e).log, Now(Next(cs, w, e), e.gid).dedup)
  {
    hide AppliedOnce, Issued;
    var w' := Next(cs, w, e);
    var g, g' := Now(w, e.gid), Now(w', e.gid);
    assert Remembered(w.log, w.hist[e.gid][|w.hist[e.gid]| - 1].dedup);
    match e
    case Client(gid, op) =>
      RememberedLater(w.log, w'.log, g.dedup);
      if Effective(g, op) {
        assert w'.log[|w.log|] == op;
      }
    case NextConfig(gid, n) =>
    case Install(gid, asked, from, read) =>
      assert Remembered(w.log, w.hist[from][read].dedup);
    case Delete(gid, owner, asked, from) =>
  }

  lemma {:induction false} RunOnce(cs: seq<Config>, gids: set<int>, ws: seq<World>, es: seq<Step>, k: nat)
    requires ConfigsOk(cs, gids) && IsRun(cs, gids, ws, es) && OneRequest(es) && k < |ws|
    ensures WorldWf(ws[k]) && OnceInv(es, ws[k])
  {
    hide Inv, ConfigsOk, OneRequest, AppliedOnce, Remembered;
    RunInv(cs, gids, ws, es, k);
    if k == 0 {
      StartOnce(es, gids);
    } else {
      RunOnce(cs, gids, ws, es, k - 1);
      RunInv(cs, gids, ws, es, k - 1);
      assert es[k - 1].Client? ==> Issued(es, es[k - 1].op);
      OnceStep(cs, gids, es, ws[k - 1], es[k - 1]);
    }
  }

  lemma StartOnce(es: seq<Step>, gids: set<int>)
    requires WorldWf(Init(gids))
    ensures OnceInv(es, Init(gids))
  {
  }

  /** A client's write takes effect at most once over all groups and configurations. */
  lemma AtMostOnce(cs: seq<Config>, gids: set<int>, ws: seq<World>, es: seq<Step>, k: nat, i: nat, j: nat)
    requires ConfigsOk(cs, gids) && IsRun(cs, gids, ws, es) && OneRequest(es) && k < |ws|
    requires i < j < |ws[k].log|
    ensures !SameRequest(ws[k].log[i], ws[k].log[j])
  {
    RunOnce(cs, gids, ws, es, k);
  }

  /** A write that is answered OK while it is its client's latest has taken effect. */
  lemma AnsweredIsApplied(cs: seq<Config>, gids: set<int>, ws: seq<World>, es: seq<Step>, k: nat)
    requires ConfigsOk(cs, gids) && IsRun(cs, gids, ws, es) && OneRequest(es) && k < |es|
    requires es[k].Client? && es[k].op.kind != Get && es[k].gid in ws[k].hist && WorldWf(ws[k])
    requires ApplyClientOp(Now(ws[k], es[k].gid), es[k].op).1.err == OK
    requires forall i :: 0 <= i < |ws[k].log| && ws[k].log[i].client == es[k].op.client ==>
               ws[k].log[i].seqNo <= es[k].op.seqNo
    ensures es[k].op in ws[k + 1].log
  {
    hide ConfigsOk, AppliedOnce;
    var w, gid, op := ws[k], es[k].gid, es[k].op;
    var g := Now(w, gid);
    RunOnce(cs, gids, ws, es, k);
    if Effective(g, op) {
      assert ws[k + 1].log == w.log + [op];
    } else {
      assert Remembered(w.log, w.hist[gid][|w.hist[gid]| - 1].dedup);
      var i :| 0 <= i < |w.log| && w.log[i].client == op.client && w.log[i].seqNo == g.dedup[op.client];
      assert Issued(es, w.log[i]);
      var j :| 0 <= j < |es| && es[j].Client? && es[j].op == w.log[i];
      assert SameRequest(es[j].op, es[k].op) ==> es[j].op == es[k].op;
    }
  }
}
