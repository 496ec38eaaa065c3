/** What a group must do, and not only may: when it moves on, what becomes of its shards,
    and how a shard changes hands. */
module ShardHandover {
  import opened Common
  import opened ShardServer
  import opened ShardMigration
  import opened ShardSteps
  import opened ShardTheorems

  /** The copy of shard s that a group has, if it has one. */
  function Copy(g: Group, s: nat): Option<Shard> {
    if s in g.shards then Some(g.shards[s]) else None
  }

  // ----- the next configuration -----

  /** A group moves on exactly if the configuration is the next one and it serves all its
      shards.  Then it serves what it keeps or gets from nobody, waits for what another
      group had, and keeps for others what it had to give away. */
  lemma MovesIff(cs: seq<Config>, gids: set<int>, ws: seq<World>, es: seq<Step>, k: nat, s: nat)
    requires ConfigsOk(cs, gids) && IsRun(cs, gids, ws, es) && k < |es| && es[k].NextConfig? && s < NSHARDS
    ensures Shaped(cs) && WorldWf(ws[k]) && WorldWf(ws[k + 1]) && es[k].gid in ws[k].hist && es[k].gid in ws[k + 1].hist
    ensures var gid, n, g, g' := es[k].gid, es[k].n, Now(ws[k], es[k].gid), Now(ws[k + 1], es[k].gid);
            && n < |cs| && g.config.num < |cs|
            && var o, o' := Owner(cs, g.config.num, s), Owner(cs, n, s);
            if n != g.config.num + 1 || exists r :: r in g.shards && g.shards[r].state != Serving then g' == g
            else
              && g'.config == cs[n] && g'.prevConfig == cs[n - 1] && g'.dedup == g.dedup
              && Copy(g', s) ==
                 if o' == gid then
                   if o == gid then Copy(g, s) else Some(Shard(map[], if o == 0 then Serving else Pulling))
                 else if o == gid && s in g.shards then Some(g.shards[s].(state := BePulling)) else None
  {
    hide Inv, ConfigsOk, ApplyConfig, HistOk, ShardOk;
    RunInv(cs, gids, ws, es, k);
    RunInv(cs, gids, ws, es, k + 1);
    InvWf(cs, gids, ws[k]);
    var g := Now(ws[k], es[k].gid);
    NowOk(cs, ws[k], es[k].gid);
    Numbers(cs, gids, es[k].n);
    assert Placed(cs, g, s);
    Settles(g);
    Refused(g, cs[es[k].n]);
    if es[k].n == g.config.num + 1 && Settled(g) {
      ConfigShard(g, cs[es[k].n], s);
    }
  }

  lemma Numbers(cs: seq<Config>, gids: set<int>, n: nat)
    requires ConfigsOk(cs, gids) && n < |cs|
    ensures cs[n].num == n && |cs[n].shards| == NSHARDS
  {
  }

  lemma Settles(g: Group)
    ensures Settled(g) <==> !exists r :: r in g.shards && g.shards[r].state != Serving
  {
  }

  lemma Refused(g: Group, next: Config)
    requires WfGroup(g) && |next.shards| == NSHARDS
    ensures next.num != g.config.num + 1 || !Settled(g) ==> ApplyConfig(g, next) == g
  {
  }

  // ----- installing -----

  /** In configuration num, the group had shard s, from this group, in this state. */
  ghost predicate Had(x: Group, num: int, from: int, st: ShardState, s: nat)
    requires WfGroup(x) && s < NSHARDS
  {
    x.config.num == num && s in x.shards && x.shards[s].state == st && x.prevConfig.shards[s] == from
  }

  /** The state it has asked in is one the group had in its present configuration. */
  ghost predicate Asks(w: World, gid: int, asked: nat, from: int, st: ShardState, s: nat)
    requires WorldWf(w) && s < NSHARDS
  {
    gid in w.hist && asked < |w.hist[gid]| && Had(w.hist[gid][asked], Now(w, gid).config.num, from, st, s)
  }

  lemma AsksWaiting(w: World, gid: int, asked: nat, from: int, st: ShardState, s: nat)
    requires WorldWf(w) && s < NSHARDS && gid in w.hist && asked < |w.hist[gid]|
    requires w.hist[gid][asked].config.num == Now(w, gid).config.num
    ensures Asks(w, gid, asked, from, st, s) <==> s in Waiting(w.hist[gid][asked], from, st)
  {
  }

  /** Once a group has had the shard waiting or pulled in a configuration, it has it in that
      configuration, and if it was pulled the copy is whole. */
  lemma StillHas(cs: seq<Config>, gids: set<int>, w: World, gid: int, asked: nat, from: int, st: ShardState, s: nat)
    requires Inv(cs, gids, w) && WorldWf(w) && s < NSHARDS && Asks(w, gid, asked, from, st, s)
    requires st == Pulling || st == GCing
    ensures var g := Now(w, gid);
            && s in g.shards && g.shards[s].state != BePulling && g.gid == gid
            && g.config.shards[s] == gid && |g.config.shards| == NSHARDS
            && (st == GCing ==> g.shards[s].state in {GCing, Serving} && g.shards[s].data == Truth(w.log, s))
            && (g.shards[s].state != Pulling ==> g.shards[s].data == Truth(w.log, s))
  {
    hide Inv, HistOk, Truth, Covers, FrozenOk, LeftBehind;
    InvWf(cs, gids, w);
    NowOk(cs, w, gid);
    var g, x := Now(w, gid), w.hist[gid][asked];
    StateOk(cs, w, gid, asked);
    assert Placed(cs, g, s) && Placed(cs, x, s);
    assert ShardOk(cs, w, s);
    assert CurrentOk(cs, w, gid, s) && PulledOk(w, s, x);
  }

  lemma StateOk(cs: seq<Config>, w: World, gid: int, i: nat)
    requires Shaped(cs) && WorldWf(w) && HistOk(cs, w) && gid in w.hist && i < |w.hist[gid]|
    ensures GroupOk(cs, gid, w.hist[gid][i])
  {
  }

  /** Installing what was asked for in the present configuration leaves the group with the
      whole shard, and does not touch other shards. */
  lemma InstallTakesOver(cs: seq<Config>, gids: set<int>, w: World, gid: int, asked: nat, from: int, read: nat, s: nat)
    requires Inv(cs, gids, w) && WorldWf(w) && s < NSHARDS && Enabled(cs, w, Install(gid, asked, from, read))
    ensures var w' := Next(cs, w, Install(gid, asked, from, read));
            && WorldWf(w') && gid in w'.hist && w'.log == w.log
            && var g, g' := Now(w, gid), Now(w', gid);
            && g'.config == g.config
            && if Asks(w, gid, asked, from, Pulling, s) then
                 && s in g.shards && s in g'.shards && g'.shards[s].data == Truth(w.log, s)
                 && g'.shards[s].state == if g.shards[s].state == Pulling then GCing else g.shards[s].state
               else Copy(g', s) == Copy(g, s)
  {
    hide Inv, HistOk, Truth, ShardOk, Waiting, Asks;
    InvWf(cs, gids, w);
    var e := Install(gid, asked, from, read);
    StepInv(cs, gids, w, e);
    InvWf(cs, gids, Next(cs, w, e));
    var g, x, y := Now(w, gid), w.hist[gid][asked], w.hist[from][read];
    if x.config.num == g.config.num {
      AsksWaiting(w, gid, asked, from, Pulling, s);
    }
    AsksNow(w, gid, asked, from, Pulling, s);
    if Asks(w, gid, asked, from, Pulling, s) {
      StillHas(cs, gids, w, gid, asked, from, Pulling, s);
      if g.shards[s].state == Pulling {
        PulledFromHolder(cs, w, gid, asked, from, read, s);
      }
    }
  }

  lemma AsksNow(w: World, gid: int, asked: nat, from: int, st: ShardState, s: nat)
    requires WorldWf(w) && s < NSHARDS && gid in w.hist && asked < |w.hist[gid]|
    ensures Asks(w, gid, asked, from, st, s) ==> w.hist[gid][asked].config.num == Now(w, gid).config.num
  {
  }

  // ----- confirming and deleting -----

  /** When a new owner has the deletion of shards it has pulled committed, in the configuration
      in which it pulled them, it serves them, with every write to them; others stay. */
  lemma DeleteServes(cs: seq<Config>, gids: set<int>, w: World, gid: int, asked: nat, from: int, s: nat)
    requires Inv(cs, gids, w) && WorldWf(w) && s < NSHARDS && Enabled(cs, w, Delete(gid, gid, asked, from))
    ensures var w' := Next(cs, w, Delete(gid, gid, asked, from));
            && WorldWf(w') && gid in w'.hist && w'.log == w.log
            && var g, g' := Now(w, gid), Now(w', gid);
            && g'.config == g.config && g'.dedup == g.dedup
            && if Asks(w, gid, asked, from, GCing, s) then
                 CanServe(g', s) && g'.shards[s].data == Truth(w'.log, s)
               else Copy(g', s) == Copy(g, s)
  {
    hide Inv, HistOk, Truth, ShardOk, Waiting, Asks;
    InvWf(cs, gids, w);
    var e := Delete(gid, gid, asked, from);
    StepInv(cs, gids, w, e);
    InvWf(cs, gids, Next(cs, w, e));
    if w.hist[gid][asked].config.num == Now(w, gid).config.num {
      AsksWaiting(w, gid, asked, from, GCing, s);
    }
    AsksNow(w, gid, asked, from, GCing, s);
    if Asks(w, gid, asked, from, GCing, s) {
      StillHas(cs, gids, w, gid, asked, from, GCing, s);
    }
  }

  /** The old owner, in the same configuration, no longer holds them. */
  lemma DeleteFrees(cs: seq<Config>, gids: set<int>, w: World, owner: int, asked: nat, from: int, s: nat)
    requires Inv(cs, gids, w) && WorldWf(w) && s < NSHARDS && from in w.hist && from != owner
    requires Enabled(cs, w, Delete(from, owner, asked, from))
    ensures var w' := Next(cs, w, Delete(from, owner, asked, from));
            && WorldWf(w') && from in w'.hist && w'.log == w.log
            && var x, g, g' := w.hist[owner][asked], Now(w, from), Now(w', from);
            && g'.config == g.config && g'.dedup == g.dedup
            && if Had(x, g.config.num, from, GCing, s) then s !in g'.shards else Copy(g', s) == Copy(g, s)
  {
    hide Inv, HistOk, Truth, ShardOk;
    InvWf(cs, gids, w);
    var e := Delete(from, owner, asked, from);
    StepInv(cs, gids, w, e);
    InvWf(cs, gids, Next(cs, w, e));
    NowOk(cs, w, from);
    StateOk(cs, w, owner, asked);
    assert Placed(cs, w.hist[owner][asked], s) && Placed(cs, Now(w, from), s);
  }

  // ----- in runs -----

  /** What an install and a delete step of a run do to each shard of the group that takes it. */
  lemma InstallInRuns(cs: seq<Config>, gids: set<int>, ws: seq<World>, es: seq<Step>, k: nat, s: nat)
    requires ConfigsOk(cs, gids) && IsRun(cs, gids, ws, es) && k < |es| && es[k].Install? && s < NSHARDS
    ensures WorldWf(ws[k]) && WorldWf(ws[k + 1]) && es[k].gid in ws[k].hist && es[k].gid in ws[k + 1].hist
    ensures var g, g' := Now(ws[k], es[k].gid), Now(ws[k + 1], es[k].gid);
            && g'.config == g.config && ws[k + 1].log == ws[k].log
            && if Asks(ws[k], es[k].gid, es[k].asked, es[k].from, Pulling, s) then
                 && s in g.shards && s in g'.shards && g'.shards[s].data == Truth(ws[k + 1].log, s)
                 && g'.shards[s].state == if g.shards[s].state == Pulling then GCing else g.shards[s].state
               else Copy(g', s) == Copy(g, s)
  {
    hide Inv, Now, Truth, Asks, Copy;
    RunInv(cs, gids, ws, es, k);
    InstallTakesOver(cs, gids, ws[k], es[k].gid, es[k].asked, es[k].from, es[k].read, s);
  }

  lemma DeleteInRuns(cs: seq<Config>, gids: set<int>, ws: seq<World>, es: seq<Step>, k: nat, s: nat)
    requires ConfigsOk(cs, gids) && IsRun(cs, gids, ws, es) && k < |es| && es[k].Delete? && s < NSHARDS
    ensures WorldWf(ws[k]) && WorldWf(ws[k + 1]) && es[k].gid in ws[k].hist && es[k].gid in ws[k + 1].hist
    ensures es[k].owner in ws[k].hist && es[k].asked < |ws[k].hist[es[k].owner]|
    ensures WfGroup(ws[k].hist[es[k].owner][es[k].asked])
    ensures var g, g' := Now(ws[k], es[k].gid), Now(ws[k + 1], es[k].gid);
            var x := ws[k].hist[es[k].owner][es[k].asked];
            && g'.config == g.config && g'.dedup == g.dedup && ws[k + 1].log == ws[k].log
            && if Had(x, g.config.num, es[k].from, GCing, s) then
                 if es[k].gid == es[k].owner then
                   CanServe(g', s) && g'.shards[s].data == Truth(ws[k + 1].log, s)
                 else s !in g'.shards
               else Copy(g', s) == Copy(g, s)
  {
    hide Inv, Truth, Copy, CanServe, ApplyDeleteShard;
    RunInv(cs, gids, ws, es, k);
    if es[k].gid == es[k].owner {
      DeleteServes(cs, gids, ws[k], es[k].gid, es[k].asked, es[k].from, s);
    } else {
      DeleteFrees(cs, gids, ws[k], es[k].owner, es[k].asked, es[k].from, s);
    }
  }

  // ----- the whole handover -----

  /** The group can move on to configuration n, in which it gets shard s from a group that is
      there already. */
  ghost predicate MayTake(cs: seq<Config>, w: World, gid: int, from: int, n: nat, s: nat)
    requires Shaped(cs) && WorldWf(w) && s < NSHARDS
  {
    && gid in w.hist && from in w.hist && from != gid && 0 < n < |cs|
    && Now(w, gid).config.num == n - 1 && Settled(Now(w, gid))
    && Owner(cs, n - 1, s) == from && Owner(cs, n, s) == gid
    && Now(w, from).config.num >= n
  }

  lemma MoveAsks(cs: seq<Config>, gids: set<int>, w: World, gid: int, from: int, n: nat, s: nat) returns (w': World)
    requires Inv(cs, gids, w) && Shaped(cs) && WorldWf(w) && s < NSHARDS && MayTake(cs, w, gid, from, n, s)
    ensures Enabled(cs, w, NextConfig(gid, n)) && w' == Next(cs, w, NextConfig(gid, n))
    ensures Inv(cs, gids, w') && WorldWf(w') && gid in w'.hist && w'.log == w.log
    ensures from in w'.hist && w'.hist[from] == w.hist[from]
    ensures Asks(w', gid, |w'.hist[gid]| - 1, from, Pulling, s) && Now(w', gid).config.num == n
  {
    hide Inv, HistOk, ShardOk, ApplyConfig;
    InvWf(cs, gids, w);
    NowOk(cs, w, gid);
    Configs(cs, gids, w);
    Numbers(cs, gids, n);
    w' := Next(cs, w, NextConfig(gid, n));
    StepInv(cs, gids, w, NextConfig(gid, n));
    InvWf(cs, gids, w');
    ConfigShard(Now(w, gid), cs[n], s);
  }

  lemma Configs(cs: seq<Config>, gids: set<int>, w: World)
    requires Inv(cs, gids, w)
    ensures ConfigsOk(cs, gids)
  {
  }

  lemma InstallAsks(cs: seq<Config>, gids: set<int>, w: World, gid: int, from: int, s: nat) returns (w': World)
    requires Inv(cs, gids, w) && WorldWf(w) && s < NSHARDS && gid in w.hist && from in w.hist
    requires Asks(w, gid, |w.hist[gid]| - 1, from, Pulling, s) && Now(w, from).config.num >= Now(w, gid).config.num
    ensures var e := Install(gid, |w.hist[gid]| - 1, from, |w.hist[from]| - 1);
            Enabled(cs, w, e) && w' == Next(cs, w, e)
    ensures Inv(cs, gids, w') && WorldWf(w') && gid in w'.hist && w'.log == w.log
    ensures Asks(w', gid, |w'.hist[gid]| - 1, from, GCing, s)
  {
    hide Inv, HistOk, Truth, ApplyInstallShard;
    var e := Install(gid, |w.hist[gid]| - 1, from, |w.hist[from]| - 1);
    w' := Next(cs, w, e);
    StepInv(cs, gids, w, e);
    InstallTakesOver(cs, gids, w, gid, |w.hist[gid]| - 1, from, |w.hist[from]| - 1, s);
    PrevStays(cs, w, e);
  }

  lemma PrevStays(cs: seq<Config>, w: World, e: Step)
    requires WorldWf(w) && Enabled(cs, w, e) && e.Install? && WorldWf(Next(cs, w, e)) && e.gid in Next(cs, w, e).hist
    ensures Now(Next(cs, w, e), e.gid).prevConfig == Now(w, e.gid).prevConfig
  {
  }

  /** From any state of a run, a shard changes hands in three steps: the new owner moves on,
      installs what the old one shows, and confirms.  Then it serves the shard, with every
      write to it. */
  lemma Handover(cs: seq<Config>, gids: set<int>, ws: seq<World>, es: seq<Step>, k: nat, gid: int, from: int, n: nat,
                 s: nat)
    returns (w1: World, w2: World, w3: World)
    requires ConfigsOk(cs, gids) && IsRun(cs, gids, ws, es) && k < |ws| && s < NSHARDS && Shaped(cs) && WorldWf(ws[k])
    requires MayTake(cs, ws[k], gid, from, n, s)
    ensures Enabled(cs, ws[k], NextConfig(gid, n)) && w1 == Next(cs, ws[k], NextConfig(gid, n))
    ensures WorldWf(w1) && gid in w1.hist && from in w1.hist
    ensures var e := Install(gid, |w1.hist[gid]| - 1, from, |w1.hist[from]| - 1);
            Enabled(cs, w1, e) && w2 == Next(cs, w1, e)
    ensures WorldWf(w2) && gid in w2.hist
    ensures var e := Delete(gid, gid, |w2.hist[gid]| - 1, from); Enabled(cs, w2, e) && w3 == Next(cs, w2, e)
    ensures WorldWf(w3) && gid in w3.hist
    ensures CanServe(Now(w3, gid), s) && Now(w3, gid).shards[s].data == Truth(w3.log, s) && w3.log == ws[k].log
  {
    hide IsRun, Inv, ConfigsOk, Truth, Asks, CanServe, Next;
    RunInv(cs, gids, ws, es, k);
    w1 := MoveAsks(cs, gids, ws[k], gid, from, n, s);
    w2 := InstallAsks(cs, gids, w1, gid, from, s);
    w3 := Next(cs, w2, Delete(gid, gid, |w2.hist[gid]| - 1, from));
    DeleteServes(cs, gids, w2, gid, |w2.hist[gid]| - 1, from, s);
  }

  // ----- client operations -----

  /** A group answers exactly for the shards its configuration gives it and that it serves.
      A mutation takes effect if its client has no number as high in the log, and does not if
      it has one for the same shard. */
  lemma ServesIff(cs: seq<Config>, gids: set<int>, ws: seq<World>, es: seq<Step>, k: nat)
    requires ConfigsOk(cs, gids) && IsRun(cs, gids, ws, es) && OneRequest(es) && k < |es| && es[k].Client?
    ensures WorldWf(ws[k]) && es[k].gid in ws[k].hist
    ensures var w, gid, op, s := ws[k], es[k].gid, es[k].op, Key2Shard(es[k].op.key);
            var g := Now(w, gid);
            var r := ApplyClientOp(g, op).1;
            var mine := g.config.shards[s] == gid && s in g.shards && g.shards[s].state == Serving;
            && (r.err == ErrWrongGroup <==> !mine)
            && (mine && op.kind != Get ==> r == Reply(OK, ""))
            && (mine && op.kind != Get && NoneAsHigh(w.log, op) ==> ws[k + 1].log == w.log + [op])
            && (!mine || op.kind == Get || HighHere(w.log, op) ==> ws[k + 1].log == w.log)
  {
    hide ConfigsOk, HistOk, AppliedOnce, Issued, Truth;
    RunInv(cs, gids, ws, es, k);
    RunOnce(cs, gids, ws, es, k);
    InvWf(cs, gids, ws[k]);
    var w, gid, op, s := ws[k], es[k].gid, es[k].op, Key2Shard(es[k].op.key);
    NowOk(cs, w, gid);
    var g := Now(w, gid);
    assert Remembered(w.log, w.hist[gid][|w.hist[gid]| - 1].dedup);
    if CanServe(g, s) {
      WriterHolds(cs, w, gid, s);
    }
  }

  ghost predicate NoneAsHigh(log: seq<ClientOp>, op: ClientOp) {
    forall i :: 0 <= i < |log| && log[i].client == op.client ==> log[i].seqNo < op.seqNo
  }

  ghost predicate HighHere(log: seq<ClientOp>, op: ClientOp) {
    exists i :: 0 <= i < |log| && log[i].client == op.client && log[i].seqNo >= op.seqNo
                && Key2Shard(log[i].key) == Key2Shard(op.key)
  }
}
