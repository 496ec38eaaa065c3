/** What becomes of a shard that nobody owns for a while. */
module ShardLoss {
  import opened Common
  import opened ShardServer
  import opened ShardMigration
  import opened ShardSteps
  import opened Counts
  import opened Assignment
  import C = ShardCtrler
  import T = CtrlerTheorems

  // ----- in every run -----

  lemma {:induction false} RunKnown(cs: seq<Config>, gids: set<int>, ws: seq<World>, es: seq<Step>, k: nat)
    requires Numbered(cs, gids) && IsRun(cs, gids, ws, es) && k < |ws|
    ensures Known(cs, gids, ws[k])
    decreases k
  {
    if k == 0 {
      forall gid, i | gid in ws[0].hist && 0 <= i < |ws[0].hist[gid]|
        ensures GroupOk(cs, gid, ws[0].hist[gid][i])
      {
      }
    } else {
      hide Known;
      RunKnown(cs, gids, ws, es, k - 1);
      StepKnown(cs, gids, ws[k - 1], es[k - 1]);
    }
  }

  // ----- one shard -----

  /** In the first k steps shard s is taken from nobody only rightfully. */
  ghost predicate TakenRightly(cs: seq<Config>, ws: seq<World>, es: seq<Step>, k: nat, s: nat)
    requires Shaped(cs) && k <= |es| < |ws| && s < NSHARDS && forall i :: 0 <= i < k ==> WorldWf(ws[i])
  {
    forall i :: 0 <= i < k && Takes(cs, ws[i], es[i], s) ==> Rightful(cs, ws[i], es[i].gid, es[i].n, s)
  }

  /** At most one group serves shard s. */
  ghost predicate ServedOnce(w: World, s: nat)
    requires WorldWf(w) && s < NSHARDS
  {
    forall a, b :: a in w.hist && b in w.hist && CanServe(Now(w, a), s) && CanServe(Now(w, b), s) ==> a == b
  }

  /** Whoever serves shard s has every write to it that took effect. */
  ghost predicate ServedRight(w: World, s: nat)
    requires WorldWf(w) && s < NSHARDS
  {
    forall a :: a in w.hist && CanServe(Now(w, a), s) ==> Now(w, a).shards[s].data == Truth(w.log, s)
  }

  lemma {:induction false} RunShard(cs: seq<Config>, gids: set<int>, ws: seq<World>, es: seq<Step>, k: nat, s: nat)
    requires Numbered(cs, gids) && IsRun(cs, gids, ws, es) && k < |ws| && s < NSHARDS && Shaped(cs)
    requires TakenRightly(cs, ws, es, k, s)
    ensures Known(cs, gids, ws[k]) && WorldWf(ws[k]) && ShardOk(cs, ws[k], s)
    decreases k
  {
    hide Numbered, Known, Rightful, Takes, ShardOk, Next, Enabled;
    RunKnown(cs, gids, ws, es, k);
    KnownWf(cs, gids, ws[k]);
    if k == 0 {
      InitShard(cs, gids, s);
    } else {
      RunShard(cs, gids, ws, es, k - 1, s);
      StepShard(cs, gids, ws[k - 1], es[k - 1], s);
    }
  }

  lemma InitShard(cs: seq<Config>, gids: set<int>, s: nat)
    requires Numbered(cs, gids) && s < NSHARDS && WorldWf(Init(gids)) && Shaped(cs)
    ensures ShardOk(cs, Init(gids), s)
  {
    assert cs[0].shards[s] == 0;
  }

  /** Whatever the controller does: as long as a shard is taken from nobody only when no
      write to it was made and no other group may still come to serve it, one group at
      most serves it, and with all its writes. */
  lemma RightlyServed(cs: seq<Config>, gids: set<int>, ws: seq<World>, es: seq<Step>, k: nat, s: nat)
    requires Numbered(cs, gids) && IsRun(cs, gids, ws, es) && k < |ws| && s < NSHARDS && Shaped(cs)
    requires TakenRightly(cs, ws, es, k, s)
    ensures WorldWf(ws[k]) && ServedOnce(ws[k], s) && ServedRight(ws[k], s)
  {
    hide Numbered, TakenRightly, ShardOk, IsRun, Truth, HistOk;
    RunShard(cs, gids, ws, es, k, s);
    var w := ws[k];
    forall a, b | a in w.hist && b in w.hist && CanServe(Now(w, a), s) && CanServe(Now(w, b), s)
      ensures a == b && Now(w, a).shards[s].data == Truth(w.log, s)
    {
      WriterHolds(cs, w, a, s);
      WriterHolds(cs, w, b, s);
    }
  }

  /** A group that gets a shard from the invalid group serves it at once.  One of the two
      promises is broken at once exactly if there was a write to the shard, or another
      group serves it. */
  lemma FromNobody(cs: seq<Config>, gids: set<int>, ws: seq<World>, es: seq<Step>, k: nat, s: nat)
    requires Numbered(cs, gids) && IsRun(cs, gids, ws, es) && k < |es| && s < NSHARDS && Shaped(cs)
    requires WorldWf(ws[k]) && Takes(cs, ws[k], es[k], s)
    ensures WorldWf(ws[k + 1]) && es[k].gid in ws[k + 1].hist && CanServe(Now(ws[k + 1], es[k].gid), s)
    ensures ServedOnce(ws[k + 1], s) && ServedRight(ws[k + 1], s) <==>
              Unowned(ws[k].log, s) && forall h :: h in ws[k].hist ==> !CanServe(Now(ws[k], h), s)
  {
    hide Numbered, ShardOk, Truth, CanServe, ApplyConfig, Unowned, HistOk;
    var w, w', gid := ws[k], ws[k + 1], es[k].gid;
    RunKnown(cs, gids, ws, es, k);
    RunKnown(cs, gids, ws, es, k + 1);
    KnownWf(cs, gids, w');
    TakerServes(cs, gids, w, es[k], s);
    assert w' == DoConfig(w, gid, cs[es[k].n]);
    CommittedWf(w, w', gid, ApplyConfig(Now(w, gid), cs[es[k].n]));
    assert CanServe(Now(w', gid), s);
    assert forall h :: h in w.hist && h != gid ==> Now(w', h) == Now(w, h);
    UnownedTruth(w.log, s);
    if ServedOnce(w', s) {
      forall h | h in w.hist
        ensures !CanServe(Now(w, h), s)
      {
        assert h != gid ==> Now(w', h) == Now(w, h);
      }
    }
  }

  lemma TakerServes(cs: seq<Config>, gids: set<int>, w: World, e: Step, s: nat)
    requires Known(cs, gids, w) && s < NSHARDS && Takes(cs, w, e, s)
    ensures var g' := ApplyConfig(Now(w, e.gid), cs[e.n]);
            && !CanServe(Now(w, e.gid), s)
            && WfGroup(g') && CanServe(g', s) && g'.shards[s].data == map[]
  {
    hide ApplyConfig, HistOk;
    NowOk(cs, w, e.gid);
    assert Placed(cs, Now(w, e.gid), s);
    ConfigShard(Now(w, e.gid), cs[e.n], s);
  }

  // ----- a shard nobody will pull -----

  ghost predicate Waits(g: Group, s: nat) {
    s in g.shards && g.shards[s].state == BePulling
  }

  /** The group waits for shard s to be pulled, and its configuration gives s to nobody. */
  ghost predicate Abandoned(cs: seq<Config>, g: Group, s: nat)
    requires Shaped(cs) && s < NSHARDS
  {
    Waits(g, s) && g.config.num < |cs| && Owner(cs, g.config.num, s) == 0
  }

  lemma ClientWaits(g: Group, op: ClientOp, s: nat)
    requires WfGroup(g) && Waits(g, s)
    ensures var g' := ApplyClientOp(g, op).0; Waits(g', s) && g'.config == g.config
  {
  }

  lemma ConfigWaits(g: Group, next: Config, s: nat)
    requires WfGroup(g) && Waits(g, s) && |next.shards| == NSHARDS
    ensures ApplyConfig(g, next) == g
  {
    assert !Settled(g);
  }

  lemma InstallWaits(g: Group, n: nat, shards: set<nat>, p: Pulled, s: nat)
    requires WfGroup(g) && Waits(g, s)
    ensures var g' := ApplyInstallShard(g, n, shards, p); Waits(g', s) && g'.config == g.config
  {
  }

  lemma DeleteWaits(g: Group, n: nat, shards: set<nat>, s: nat)
    requires WfGroup(g) && Waits(g, s) && (n == g.config.num ==> s !in shards)
    ensures var g' := ApplyDeleteShard(g, n, shards); Waits(g', s) && g'.config == g.config
  {
  }

  /** Nobody owns the shard in this configuration, so nobody has pulled it. */
  lemma NobodyPulled(cs: seq<Config>, gids: set<int>, w: World, owner: int, asked: nat, from: int, s: nat)
    requires Known(cs, gids, w) && owner in w.hist && asked < |w.hist[owner]| && s < NSHARDS
    requires w.hist[owner][asked].config.num < |cs| && Owner(cs, w.hist[owner][asked].config.num, s) == 0
    ensures s !in Waiting(w.hist[owner][asked], from, GCing)
  {
    assert GroupOk(cs, owner, w.hist[owner][asked]);
    assert Placed(cs, w.hist[owner][asked], s);
  }

  lemma StepStuck(cs: seq<Config>, gids: set<int>, w: World, e: Step, gid: int, s: nat)
    requires Known(cs, gids, w) && Enabled(cs, w, e) && gid in w.hist && s < NSHARDS && Shaped(cs)
    requires Abandoned(cs, Now(w, gid), s)
    ensures WorldWf(Next(cs, w, e)) && gid in Next(cs, w, e).hist
    ensures var g' := Now(Next(cs, w, e), gid); Abandoned(cs, g', s) && g'.config == Now(w, gid).config
  {
    hide HistOk, Numbered, ApplyClientOp, ApplyConfig, ApplyInstallShard, ApplyDeleteShard, Waiting;
    var g := Now(w, gid);
    StepKnown(cs, gids, w, e);
    if e.gid == gid {
      match e
      case Client(_, op) => ClientWaits(g, op, s);
      case NextConfig(_, n) => ConfigWaits(g, cs[n], s);
      case Install(_, asked, from, read) =>
        var x := w.hist[gid][asked];
        var shards := Waiting(x, from, Pulling);
        InstallWaits(g, x.config.num, shards, PullShard(w.hist[from][read], x.config.num, shards).value, s);
      case Delete(_, owner, asked, from) =>
        var x := w.hist[owner][asked];
        if x.config.num == g.config.num {
          NobodyPulled(cs, gids, w, owner, asked, from, s);
        }
        DeleteWaits(g, x.config.num, Waiting(x, from, GCing), s);
    }
  }

  /** A group whose shard goes to nobody waits for ever: it never moves on. */
  lemma {:induction false} StuckForEver(
      cs: seq<Config>, gids: set<int>, ws: seq<World>, es: seq<Step>, k: nat, l: nat, gid: int, s: nat)
    requires Numbered(cs, gids) && IsRun(cs, gids, ws, es) && k <= l < |ws| && s < NSHARDS && Shaped(cs)
    requires WorldWf(ws[k]) && gid in ws[k].hist && Abandoned(cs, Now(ws[k], gid), s)
    ensures WorldWf(ws[l]) && gid in ws[l].hist
    ensures Abandoned(cs, Now(ws[l], gid), s) && Now(ws[l], gid).config == Now(ws[k], gid).config
    ensures !CanServe(Now(ws[l], gid), s)
    decreases l
  {
    hide Numbered, Known, Next, Enabled;
    if k < l {
      StuckForEver(cs, gids, ws, es, k, l - 1, gid, s);
      RunKnown(cs, gids, ws, es, l - 1);
      StepStuck(cs, gids, ws[l - 1], es[l - 1], gid, s);
    }
  }

  // ----- a controller that is left without groups -----

  function All(g: int): seq<int> {
    seq(NSHARDS, s => g)
  }

  lemma {:induction false} CountConstant(n: nat, g: int, h: int)
    ensures Count(seq(n, s => g), h) == if g == h then n else 0
    decreases n
  {
    if n > 0 {
      CountConstant(n - 1, g, h);
      assert seq(n, s => g)[..n - 1] == seq(n - 1, s => g);
    }
  }

  /** The only group gets every shard. */
  lemma AllToOne(g: int)
    requires g != 0
    ensures Rebalanced({g}, All(0), All(g))
  {
    CountConstant(NSHARDS, g, g);
    assert Below({g}, g) == {};
    assert Target(NSHARDS, {g}, g) == NSHARDS;
  }

  /** Group 1 joins, leaves, and group 2 joins. */
  const HISTORY := [C.Join(map[1 := []], 9, 1), C.Leave([1], 9, 2), C.Join(map[2 := []], 9, 3)]

  const C1 := C.Config(1, All(1), map[1 := []])
  const C2 := C.Config(2, All(0), map[])
  const C3 := C.Config(3, All(2), map[2 := []])

  const S1 := C.State([C.FIRST, C1], map[9 := 1], 1)
  const S2 := C.State([C.FIRST, C1, C2], map[9 := 2], 2)
  const S3 := C.State([C.FIRST, C1, C2, C3], map[9 := 3], 3)

  lemma FirstJoin()
    ensures C.Applied(C.INIT, 1, HISTORY[0], S1)
  {
    AllToOne(1);
    assert C.FIRST.shards == All(0);
    assert C.FIRST.groups + C1.groups == C1.groups;
    assert C1.groups.Keys == {1};
    assert C.Mutated(C.FIRST, HISTORY[0], C1);
    assert S1.configs[..1] == [C.FIRST];
  }

  lemma ThenLeave()
    ensures C.WfState(S1) && C.Applied(S1, 2, HISTORY[1], S2)
  {
    assert C1.groups - C.Elements([1]) == map[] by {
      assert 1 in C.Elements([1]);
    }
    assert |All(0)| == |Unassign(All(1), C.Elements([1]))|;
    assert C2.groups.Keys == {};
    assert C.Mutated(C1, HISTORY[1], C2);
    assert S2.configs[..2] == S1.configs;
  }

  lemma SecondJoin()
    ensures C.WfState(S2) && C.Applied(S2, 3, HISTORY[2], S3)
  {
    AllToOne(2);
    assert C2.groups + C3.groups == C3.groups;
    assert C3.groups.Keys == {2};
    assert C.Mutated(C2, HISTORY[2], C3);
    assert S3.configs[..3] == S2.configs;
  }

  /** The controller makes these configurations. */
  lemma ControllerRun()
    ensures T.IsRun(HISTORY, [1, 2, 3], [C.INIT, S1, S2, S3])
  {
    hide C.Applied;
    FirstJoin();
    ThenLeave();
    SecondJoin();
    var at: seq<nat>, sts := [1, 2, 3], [C.INIT, S1, S2, S3];
    forall i | 0 <= i < |at|
      ensures C.WfState(sts[i]) && C.Applied(sts[i], at[i], HISTORY[at[i] - 1], sts[i + 1])
    {
    }
  }

  // ----- and the groups that follow it -----

  const PUT := ClientOp(Put, "", "v", 7, 1)

  function Configs(): seq<Config> {
    T.Told(S3.configs)
  }

  lemma ConfigsAre()
    ensures Configs() == [NO_CONFIG, Config(1, All(1)), Config(2, All(0)), Config(3, All(2))]
    ensures Numbered(Configs(), {1, 2}) && Shaped(Configs()) && NO_CONFIG == Config(0, All(0))
  {
    assert NO_CONFIG.shards == All(0);
    var cs := Configs();
    assert cs[0] == NO_CONFIG && cs[1] == Config(1, All(1)) && cs[2] == Config(2, All(0)) && cs[3] == Config(3, All(2));
  }

  /** A group in its first state, and after it was given every shard from nobody. */
  function Empty(gid: int, config: Config, prev: Config): Group {
    Group(gid, map[], map[], config, prev)
  }

  lemma MovesOn(gid: int, config: Config, prev: Config, next: Config)
    requires |config.shards| == NSHARDS && |prev.shards| == NSHARDS && next.num == config.num + 1
    requires |next.shards| == NSHARDS
    requires forall s :: 0 <= s < NSHARDS ==> next.shards[s] != gid
    ensures ApplyConfig(Empty(gid, config, prev), next) == Empty(gid, next, config)
  {
    assert ApplyConfig(Empty(gid, config, prev), next).shards == map[];
  }

  lemma TakesAll(gid: int, prev: Config, n: nat)
    requires gid != 0 && |prev.shards| == NSHARDS
    ensures var g := ApplyConfig(Empty(gid, Config(n, All(0)), prev), Config(n + 1, All(gid)));
            && WfGroup(g) && g.gid == gid && g.config == Config(n + 1, All(gid)) && g.dedup == map[]
            && Settled(g) && CanServe(g, 0) && g.shards[0].data == map[]
  {
    var g0, next := Empty(gid, Config(n, All(0)), prev), Config(n + 1, All(gid));
    var g := ApplyConfig(g0, next);
    forall s: nat | s in g.shards
      ensures g.shards[s].state == Serving
    {
      assert s in SHARD_IDS;
      ConfigShard(g0, next, s);
    }
    ConfigShard(g0, next, 0);
  }

  ghost predicate EndsIn(ws: seq<World>, es: seq<Step>, w: World) {
    IsRun(Configs(), {1, 2}, ws, es) && ws[|ws| - 1] == w
  }

  ghost predicate Reached(w: World) {
    (exists ws, es :: EndsIn(ws, es, w)) && Known(Configs(), {1, 2}, w)
  }

  lemma ReachInit()
    ensures Reached(Init({1, 2}))
  {
    hide Configs;
    var w := Init({1, 2});
    assert EndsIn([w], [], w);
    ConfigsAre();
    RunKnown(Configs(), {1, 2}, [w], [], 0);
  }

  lemma ReachNext(w: World, e: Step)
    requires Reached(w) && Enabled(Configs(), w, e)
    ensures Reached(Next(Configs(), w, e))
  {
    hide Configs, Enabled, Next, Init;
    var ws, es :| EndsIn(ws, es, w);
    var cs, w' := Configs(), Next(Configs(), w, e);
    var ws', es' := ws + [w'], es + [e];
    forall k | 0 <= k < |es'|
      ensures WorldWf(ws'[k]) && Enabled(cs, ws'[k], es'[k]) && ws'[k + 1] == Next(cs, ws'[k], es'[k])
    {
      if k < |es| {
        assert ws'[k] == ws[k] && ws'[k + 1] == ws[k + 1] && es'[k] == es[k];
      }
    }
    assert EndsIn(ws', es', w');
    ConfigsAre();
    StepKnown(cs, {1, 2}, w, e);
  }

  /** The group with this number is in state g, and these writes took effect. */
  ghost predicate Shows(w: World, gid: int, g: Group, log: seq<ClientOp>) {
    Reached(w) && gid in w.hist && w.hist[gid][|w.hist[gid]| - 1] == g && w.log == log
  }

  lemma Moved(w: World, gid: int, g: Group, log: seq<ClientOp>, n: nat) returns (w': World)
    requires Shows(w, gid, g, log) && 1 <= n <= 3
    ensures |Configs()| == 4 && WfGroup(g) && |Configs()[n].shards| == NSHARDS
    ensures Shows(w', gid, ApplyConfig(g, Configs()[n]), log)
    ensures forall h :: h in w.hist && h != gid ==> h in w'.hist && w'.hist[h] == w.hist[h]
  {
    hide Configs, ApplyConfig;
    ConfigsAre();
    ReachNext(w, NextConfig(gid, n));
    w' := Next(Configs(), w, NextConfig(gid, n));
  }

  lemma Written(w: World, g: Group) returns (w': World)
    requires Shows(w, 1, g, []) && WfGroup(g) && CanServe(g, 0) && g.dedup == map[]
    ensures Shows(w', 1, ApplyClientOp(g, PUT).0, [PUT])
    ensures forall h :: h in w.hist && h != 1 ==> h in w'.hist && w'.hist[h] == w.hist[h]
  {
    hide Configs, ApplyClientOp;
    ReachNext(w, Client(1, PUT));
    w' := Next(Configs(), w, Client(1, PUT));
    assert Effective(g, PUT);
    assert [] + [PUT] == [PUT];
  }

  lemma FirstServesAndStops() returns (w: World, a: Group)
    ensures Shows(w, 1, a, [PUT]) && WfGroup(a) && !CanServe(a, 0)
    ensures Shows(w, 2, Empty(2, NO_CONFIG, NO_CONFIG), [PUT])
  {
    hide Configs, ApplyConfig, ApplyClientOp, Reached, All;
    ConfigsAre();
    ReachInit();
    w := Init({1, 2});
    a := Empty(1, NO_CONFIG, NO_CONFIG);
    TakesAll(1, NO_CONFIG, 0);
    w := Moved(w, 1, a, [], 1);
    a := ApplyConfig(a, Configs()[1]);
    w := Written(w, a);
    Stopped(a);
    a := ApplyClientOp(a, PUT).0;
    w := Moved(w, 1, a, [PUT], 2);
    a := ApplyConfig(a, Configs()[2]);
  }

  lemma SecondServes(w0: World, a: Group, log: seq<ClientOp>) returns (w: World, b: Group)
    requires Shows(w0, 1, a, log) && Shows(w0, 2, Empty(2, NO_CONFIG, NO_CONFIG), log)
    ensures Shows(w, 1, a, log) && Shows(w, 2, b, log)
    ensures WfGroup(b) && CanServe(b, 0) && b.shards[0].data == map[]
  {
    hide Configs, ApplyConfig, Reached;
    ConfigsAre();
    b := Empty(2, NO_CONFIG, NO_CONFIG);
    MovesOn(2, NO_CONFIG, NO_CONFIG, Configs()[1]);
    w := Moved(w0, 2, b, log, 1);
    b := Empty(2, Configs()[1], NO_CONFIG);
    MovesOn(2, Configs()[1], NO_CONFIG, Configs()[2]);
    w := Moved(w, 2, b, log, 2);
    b := Empty(2, Configs()[2], Configs()[1]);
    TakesAll(2, Configs()[1], 2);
    w := Moved(w, 2, b, log, 3);
    b := ApplyConfig(b, Configs()[3]);
  }

  /** With group 1 joining, leaving, and group 2 joining, group 1 takes a write and stops,
      and then group 2 serves the shard without that write. */
  lemma UnassignedIsLost() returns (ws: seq<World>, es: seq<Step>)
    ensures T.IsRun(HISTORY, [1, 2, 3], [C.INIT, S1, S2, S3]) && Configs() == T.Told(S3.configs)
    ensures IsRun(Configs(), {1, 2}, ws, es)
    ensures var w := ws[|ws| - 1];
            && WorldWf(w) && 1 in w.hist && 2 in w.hist
            && !CanServe(Now(w, 1), 0) && CanServe(Now(w, 2), 0)
            && Now(w, 2).shards[0].data == map[] && Truth(w.log, 0) == map["" := "v"]
  {
    hide T.IsRun, IsRun, CanServe, HistOk;
    ControllerRun();
    var w, a := FirstServesAndStops();
    var b;
    w, b := SecondServes(w, a, [PUT]);
    ws, es :| EndsIn(ws, es, w);
    assert [PUT][..0] == [];
  }

  // ----- an old owner that lags behind -----

  lemma BothServe() returns (w: World, a: Group, b: Group)
    ensures Shows(w, 1, a, []) && WfGroup(a) && CanServe(a, 0) && a.dedup == map[]
    ensures Shows(w, 2, b, []) && WfGroup(b) && CanServe(b, 0) && b.shards[0].data == map[]
  {
    hide Configs, ApplyConfig, Reached, All;
    ConfigsAre();
    ReachInit();
    w := Init({1, 2});
    a := Empty(1, NO_CONFIG, NO_CONFIG);
    TakesAll(1, NO_CONFIG, 0);
    w := Moved(w, 1, a, [], 1);
    a := ApplyConfig(a, Configs()[1]);
    w, b := SecondServes(w, a, []);
  }

  /** Group 1 stays in configuration 1 while group 2 goes through 1 and 2 to 3: both serve
      the shard, and what group 1 then writes group 2 does not have. */
  lemma TwoServers() returns (ws: seq<World>, es: seq<Step>)
    ensures IsRun(Configs(), {1, 2}, ws, es)
    ensures var w := ws[|ws| - 1];
            && WorldWf(w) && 1 in w.hist && 2 in w.hist
            && CanServe(Now(w, 1), 0) && CanServe(Now(w, 2), 0)
            && Now(w, 2).shards[0].data == map[] && Truth(w.log, 0) == map["" := "v"]
  {
    hide IsRun, CanServe, HistOk, ApplyClientOp;
    var w, a, b := BothServe();
    StillServes(a);
    w := Written(w, a);
    ws, es :| EndsIn(ws, es, w);
    assert [PUT][..0] == [];
  }

  lemma StillServes(g: Group)
    requires WfGroup(g) && CanServe(g, 0)
    ensures WfGroup(ApplyClientOp(g, PUT).0) && CanServe(ApplyClientOp(g, PUT).0, 0)
  {
  }

  lemma Stopped(g: Group)
    requires WfGroup(g) && g.gid == 1 && g.config.num == 1 && Settled(g)
    ensures var g' := ApplyClientOp(g, PUT).0;
            var g2 := ApplyConfig(g', Config(2, All(0)));
            WfGroup(g') && WfGroup(g2) && !CanServe(g2, 0)
  {
    var g' := ApplyClientOp(g, PUT).0;
    assert Settled(g');
    ConfigShard(g', Config(2, All(0)), 0);
  }
}
