/** Every step of every group keeps the invariant of shard migration. */
module ShardSteps {
  import opened Common
  import opened ShardServer
  import opened ShardMigration

  /** w' is w after group gid committed g'. */
  ghost predicate Committed(w: World, w': World, gid: int, g': Group)
    requires WorldWf(w) && gid in w.hist
  {
    && w'.hist == w.hist[gid := w.hist[gid] + [g']]
    && |w'.taken| == NSHARDS
    && WfGroup(g')
  }

  lemma CommittedWf(w: World, w': World, gid: int, g': Group)
    requires WorldWf(w) && gid in w.hist && Committed(w, w', gid, g')
    ensures WorldWf(w') && Now(w', gid) == g'
    ensures forall h :: h in w.hist && h != gid ==> w'.hist[h] == w.hist[h]
    ensures w'.hist.Keys == w.hist.Keys
  {
  }

  lemma HistKeeps(cs: seq<Config>, w: World, w': World, gid: int, g': Group)
    requires Shaped(cs) && WorldWf(w) && HistOk(cs, w) && gid in w.hist && Committed(w, w', gid, g')
    requires GroupOk(cs, gid, g') && Now(w, gid).config.num <= g'.config.num
    ensures HistOk(cs, w')
  {
    var last := |w.hist[gid]| - 1;
    forall h, i, j | h in w'.hist && 0 <= i <= j < |w'.hist[h]|
      ensures w'.hist[h][i].config.num <= w'.hist[h][j].config.num
    {
      if h == gid && j == last + 1 && i <= last {
        assert w.hist[gid][i].config.num <= w.hist[gid][last].config.num;
      }
    }
  }

  /** A shard that the step leaves alone stays as it was. */
  lemma QuietKeeps(cs: seq<Config>, w: World, w': World, gid: int, g': Group, s: nat)
    requires Shaped(cs) && WorldWf(w) && gid in w.hist && Committed(w, w', gid, g') && s < NSHARDS
    requires ShardOk(cs, w, s) && Quiet(Now(w, gid), g', s)
    requires LogQuiet(w.log, w'.log, s) && w'.taken[s] == w.taken[s]
    ensures WorldWf(w') && ShardOk(cs, w', s)
  {
    hide CurrentOk, FrozenOk, PulledOk, Truth, LogQuiet, Unowned;
    CommittedWf(w, w', gid, g');
    TruthQuiet(w.log, w'.log, s);
    forall h | h in w'.hist
      ensures CurrentOk(cs, w', h, s)
    {
      assert CurrentOk(cs, w, h, s);
      CurrentQuiet(cs, w, w', h, s);
    }
    forall h, i | h in w'.hist && 0 <= i < |w'.hist[h]|
      ensures w'.hist[h][i].config.num < |cs| && PulledOk(w', s, w'.hist[h][i])
      ensures h == Owner(cs, w'.taken[s], s) ==> FrozenOk(cs, w', s, w'.hist[h][i])
    {
      var x := w'.hist[h][i];
      var k := if h == gid && i == |w.hist[gid]| then i - 1 else i;
      var y := w.hist[h][k];
      assert y.config.num < |cs| && PulledOk(w, s, y) && (h == Owner(cs, w.taken[s], s) ==> FrozenOk(cs, w, s, y));
      PulledQuiet(w, w', s, y, x);
      if h == Owner(cs, w.taken[s], s) {
        FrozenQuiet(cs, w, w', s, y, x);
      }
    }
  }

  lemma PulledQuiet(w: World, w': World, s: nat, y: Group, x: Group)
    requires |w.taken| == |w'.taken| == NSHARDS && s < NSHARDS && w'.taken[s] == w.taken[s]
    requires PulledOk(w, s, y) && (x == y || Quiet(y, x, s))
    ensures PulledOk(w', s, x)
  {
  }

  lemma CurrentQuiet(cs: seq<Config>, w: World, w': World, h: int, s: nat)
    requires Shaped(cs) && WorldWf(w) && WorldWf(w') && h in w.hist && h in w'.hist && s < NSHARDS
    requires w.taken[s] < |cs| && w'.taken[s] == w.taken[s]
    requires CurrentOk(cs, w, h, s) && (Now(w', h) == Now(w, h) || Quiet(Now(w, h), Now(w', h), s))
    requires LogQuiet(w.log, w'.log, s) && Truth(w'.log, s) == Truth(w.log, s)
    ensures CurrentOk(cs, w', h, s)
  {
    hide Truth;
    if Owner(cs, w.taken[s], s) == h {
      CoversQuiet(Now(w, h).dedup, Now(w', h).dedup, w.log, w'.log, s);
    }
  }

  lemma FrozenQuiet(cs: seq<Config>, w: World, w': World, s: nat, y: Group, x: Group)
    requires Shaped(cs) && |w.taken| == |w'.taken| == NSHARDS && s < NSHARDS
    requires y.config.num < |cs| && x.config == y.config
    requires w'.taken[s] == w.taken[s] && FrozenOk(cs, w, s, y) && (x == y || Quiet(y, x, s))
    requires LogQuiet(w.log, w'.log, s) && Truth(w'.log, s) == Truth(w.log, s)
    ensures FrozenOk(cs, w', s, x)
  {
    hide Truth;
    if y.config.num > w.taken[s] && Start(cs, s, y.config.num) != w.taken[s] {
      CoversQuiet(y.dedup, x.dedup, w.log, w'.log, s);
    }
  }

  // ----- whatever becomes of the owners -----

  lemma StepKnown(cs: seq<Config>, gids: set<int>, w: World, e: Step)
    requires Known(cs, gids, w) && Enabled(cs, w, e)
    ensures Known(cs, gids, Next(cs, w, e))
  {
    var w', g := Next(cs, w, e), Now(w, e.gid);
    NowOk(cs, w, e.gid);
    hide GroupOk, ApplyConfig, ApplyClientOp, ApplyInstallShard, ApplyDeleteShard;
    match e
    case Client(gid, op) =>
      ClientGroupOk(cs, gid, g, op);
      Joined(cs, gids, w, w', gid, ApplyClientOp(g, op).0);
    case NextConfig(gid, n) =>
      ConfigGroupOk(cs, gids, gid, g, n);
      Joined(cs, gids, w, w', gid, ApplyConfig(g, cs[n]));
    case Install(gid, asked, from, read) =>
      var x, y := w.hist[gid][asked], w.hist[from][read];
      var shards := Waiting(x, from, Pulling);
      var p := PullShard(y, x.config.num, shards).value;
      InstallGroupOk(cs, gid, g, x.config.num, shards, p);
      Joined(cs, gids, w, w', gid, ApplyInstallShard(g, x.config.num, shards, p));
    case Delete(gid, owner, asked, from) =>
      var x := w.hist[owner][asked];
      DeleteGroupOk(cs, gid, g, x.config.num, Waiting(x, from, GCing));
      Joined(cs, gids, w, w', gid, ApplyDeleteShard(g, x.config.num, Waiting(x, from, GCing)));
  }

  lemma KnownWf(cs: seq<Config>, gids: set<int>, w: World)
    requires Known(cs, gids, w)
    ensures WorldWf(w) && Shaped(cs) && HistOk(cs, w) && w.hist.Keys == gids && 0 !in gids
  {
  }

  lemma Joined(cs: seq<Config>, gids: set<int>, w: World, w': World, gid: int, g': Group)
    requires Known(cs, gids, w) && gid in w.hist && Committed(w, w', gid, g') && GroupOk(cs, gid, g')
    requires Now(w, gid).config.num <= g'.config.num
    ensures Known(cs, gids, w')
  {
    CommittedWf(w, w', gid, g');
    HistKeeps(cs, w, w', gid, g');
  }

  // ----- client operations -----

  /** Only the holder, within its tenure, can serve. */
  lemma ServingIsHolder(cs: seq<Config>, w: World, gid: int, s: nat)
    requires Shaped(cs) && WorldWf(w) && gid in w.hist && s < NSHARDS && ShardOk(cs, w, s)
    requires Now(w, gid).config.num < |cs| && Now(w, gid).config == cs[Now(w, gid).config.num]
    requires CanServe(Now(w, gid), s)
    ensures Owner(cs, w.taken[s], s) == gid && Start(cs, s, Now(w, gid).config.num) == w.taken[s]
    ensures Now(w, gid).shards[s].data == Truth(w.log, s) && Covers(Now(w, gid).dedup, w.log, s)
  {
    hide Truth, Covers;
    assert CurrentOk(cs, w, gid, s);
  }

  lemma ClientStep(cs: seq<Config>, gids: set<int>, w: World, gid: int, op: ClientOp, s: nat)
    requires Known(cs, gids, w) && gid in w.hist && s < NSHARDS && ShardOk(cs, w, s)
    ensures WorldWf(DoClient(w, gid, op)) && ShardOk(cs, DoClient(w, gid, op), s)
  {
    hide ShardOk, Truth, Covers, HistOk;
    var g, w' := Now(w, gid), DoClient(w, gid, op);
    var g' := ApplyClientOp(g, op).0;
    assert Committed(w, w', gid, g');
    if s == Key2Shard(op.key) && Effective(g, op) {
      WriteKeeps(cs, w, gid, op);
    } else {
      QuietKeeps(cs, w, w', gid, g', s);
    }
  }

  lemma ClientGroupOk(cs: seq<Config>, gid: int, g: Group, op: ClientOp)
    requires Shaped(cs) && GroupOk(cs, gid, g)
    ensures GroupOk(cs, gid, ApplyClientOp(g, op).0)
  {
    var g' := ApplyClientOp(g, op).0;
    forall s: nat | s < NSHARDS
      ensures Placed(cs, g', s)
    {
      assert Placed(cs, g, s);
    }
  }

  /** A write that takes effect changes the holder's copy and the one map alike. */
  lemma WriteKeeps(cs: seq<Config>, w: World, gid: int, op: ClientOp)
    requires Shaped(cs) && WorldWf(w) && HistOk(cs, w) && gid in w.hist && gid != 0
    requires ShardOk(cs, w, Key2Shard(op.key)) && Effective(Now(w, gid), op)
    ensures WorldWf(DoClient(w, gid, op)) && ShardOk(cs, DoClient(w, gid, op), Key2Shard(op.key))
  {
    hide HistOk, Truth, Covers, CurrentOk, FrozenOk, PulledOk;
    var s, w' := Key2Shard(op.key), DoClient(w, gid, op);
    CommittedWf(w, w', gid, ApplyClientOp(Now(w, gid), op).0);
    WriterHolds(cs, w, gid, s);
    forall h | h in w'.hist
      ensures CurrentOk(cs, w', h, s)
    {
      WriteCurrent(cs, w, gid, op, h);
    }
    forall h, i | h in w'.hist && 0 <= i < |w'.hist[h]|
      ensures w'.hist[h][i].config.num < |cs| && PulledOk(w', s, w'.hist[h][i])
      ensures h == Owner(cs, w'.taken[s], s) ==> FrozenOk(cs, w', s, w'.hist[h][i])
    {
      WriteFrozen(cs, w, gid, op, h, i);
    }
  }

  lemma WriterHolds(cs: seq<Config>, w: World, gid: int, s: nat)
    requires Shaped(cs) && WorldWf(w) && HistOk(cs, w) && gid in w.hist && s < NSHARDS
    requires ShardOk(cs, w, s) && CanServe(Now(w, gid), s)
    ensures Now(w, gid).config.num < |cs|
    ensures Owner(cs, w.taken[s], s) == gid && Start(cs, s, Now(w, gid).config.num) == w.taken[s]
    ensures Now(w, gid).shards[s].data == Truth(w.log, s) && Covers(Now(w, gid).dedup, w.log, s)
  {
    assert GroupOk(cs, gid, w.hist[gid][|w.hist[gid]| - 1]);
    hide Truth, Covers, HistOk;
    ServingIsHolder(cs, w, gid, s);
  }

  lemma WriteCurrent(cs: seq<Config>, w: World, gid: int, op: ClientOp, h: int)
    requires Shaped(cs) && WorldWf(w) && HistOk(cs, w) && gid in w.hist && h in w.hist
    requires ShardOk(cs, w, Key2Shard(op.key)) && Effective(Now(w, gid), op)
    requires WorldWf(DoClient(w, gid, op))
    ensures CurrentOk(cs, DoClient(w, gid, op), h, Key2Shard(op.key))
  {
    hide HistOk, Truth, Covers;
    var s, g := Key2Shard(op.key), Now(w, gid);
    WriterHolds(cs, w, gid, s);
    WriteTruth(g.dedup, w.log, op);
    assert CurrentOk(cs, w, h, s);
  }

  lemma WriteFrozen(cs: seq<Config>, w: World, gid: int, op: ClientOp, h: int, i: nat)
    requires Shaped(cs) && WorldWf(w) && HistOk(cs, w) && gid in w.hist && h in w.hist
    requires ShardOk(cs, w, Key2Shard(op.key)) && Effective(Now(w, gid), op)
    requires i < |DoClient(w, gid, op).hist[h]|
    ensures var s, w' := Key2Shard(op.key), DoClient(w, gid, op);
            && w'.hist[h][i].config.num < |cs| && PulledOk(w', s, w'.hist[h][i])
            && (h == Owner(cs, w'.taken[s], s) ==> FrozenOk(cs, w', s, w'.hist[h][i]))
  {
    hide Truth, Covers, CurrentOk;
    var s := Key2Shard(op.key);
    WriterHolds(cs, w, gid, s);
    var k := if h == gid && i == |w.hist[gid]| then i - 1 else i;
    var y := w.hist[h][k];
    assert y.config.num < |cs| && PulledOk(w, s, y);
    if h == gid {
      assert y.config.num <= w.hist[gid][|w.hist[gid]| - 1].config.num;
      if y.config.num > w.taken[s] {
        StartWithin(cs, s, y.config.num, Now(w, gid).config.num);
      }
    }
  }

  lemma WriteTruth(dedup: Dedup, log: seq<ClientOp>, op: ClientOp)
    ensures Truth(log + [op], Key2Shard(op.key)) == Write(Truth(log, Key2Shard(op.key)), op)
    ensures Covers(dedup, log, Key2Shard(op.key)) && (op.client in dedup ==> dedup[op.client] <= op.seqNo)
            ==> Covers(dedup[op.client := op.seqNo], log + [op], Key2Shard(op.key))
  {
    assert (log + [op])[..|log|] == log;
  }

  // ----- configurations -----

  lemma ConfigStep(cs: seq<Config>, gids: set<int>, w: World, gid: int, n: nat, s: nat)
    requires Known(cs, gids, w) && gid in w.hist && n < |cs| && s < NSHARDS && ShardOk(cs, w, s)
    requires Takes(cs, w, NextConfig(gid, n), s) ==> Rightful(cs, w, gid, n, s)
    ensures WorldWf(DoConfig(w, gid, cs[n])) && ShardOk(cs, DoConfig(w, gid, cs[n]), s)
  {
    hide ShardOk, Truth, Covers, HistOk, Rightful;
    var g, w' := Now(w, gid), DoConfig(w, gid, cs[n]);
    if n == g.config.num + 1 && Settled(g) {
      MoveKeeps(cs, gids, w, gid, n, s);
    } else {
      QuietKeeps(cs, w, w', gid, ApplyConfig(g, cs[n]), s);
    }
  }

  lemma ConfigGroupOk(cs: seq<Config>, gids: set<int>, gid: int, g: Group, n: nat)
    requires Numbered(cs, gids) && GroupOk(cs, gid, g) && n < |cs| && gid != 0
    ensures GroupOk(cs, gid, ApplyConfig(g, cs[n]))
  {
    var g' := ApplyConfig(g, cs[n]);
    if n == g.config.num + 1 && Settled(g) {
      forall s: nat | s < NSHARDS
        ensures Placed(cs, g', s)
      {
        assert Placed(cs, g, s);
        ConfigShard(g, cs[n], s);
      }
      forall s | s in g'.shards
        ensures s < NSHARDS
      {
        assert s in g.shards.Keys + SHARD_IDS;
      }
    }
  }

  /** What the next configuration makes of one shard. */
  lemma ConfigShard(g: Group, next: Config, s: nat)
    requires WfGroup(g) && |next.shards| == NSHARDS && s < NSHARDS && next.num == g.config.num + 1 && Settled(g)
    ensures var g' := ApplyConfig(g, next);
            && (s in g'.shards <==> Reassign(g, next, s).Some?)
            && (s in g'.shards ==> g'.shards[s] == Reassign(g, next, s).value)
            && g'.config == next && g'.prevConfig == g.config && g'.dedup == g.dedup && g'.gid == g.gid && WfGroup(g')
  {
    assert s in SHARD_IDS;
  }

  /** A group that moves on to configuration n leaves every shard right. */
  lemma MoveKeeps(cs: seq<Config>, gids: set<int>, w: World, gid: int, n: nat, s: nat)
    requires Known(cs, gids, w) && gid in w.hist && n < |cs| && s < NSHARDS && ShardOk(cs, w, s)
    requires n == Now(w, gid).config.num + 1 && Settled(Now(w, gid))
    requires cs[n].shards[s] == gid && Now(w, gid).config.shards[s] == 0 ==> Rightful(cs, w, gid, n, s)
    ensures WorldWf(DoConfig(w, gid, cs[n])) && ShardOk(cs, DoConfig(w, gid, cs[n]), s)
  {
    hide Truth, Covers, HistOk, ShardOk, Rightful;
    var w' := DoConfig(w, gid, cs[n]);
    CommittedWf(w, w', gid, ApplyConfig(Now(w, gid), cs[n]));
    ConfigShard(Now(w, gid), cs[n], s);
    if cs[n].shards[s] == gid && Now(w, gid).config.shards[s] == 0 {
      TakeFromNobody(cs, gids, w, gid, n, s);
    } else {
      MoveOther(cs, gids, w, gid, n, s);
    }
  }

  lemma NowOk(cs: seq<Config>, w: World, gid: int)
    requires Shaped(cs) && WorldWf(w) && HistOk(cs, w) && gid in w.hist
    ensures GroupOk(cs, gid, Now(w, gid))
    ensures forall i :: 0 <= i < |w.hist[gid]| ==> w.hist[gid][i].config.num <= Now(w, gid).config.num
  {
    assert GroupOk(cs, gid, w.hist[gid][|w.hist[gid]| - 1]);
  }

  // --- a shard that is not taken from nobody ---

  lemma MoveOther(cs: seq<Config>, gids: set<int>, w: World, gid: int, n: nat, s: nat)
    requires Known(cs, gids, w)
    requires gid in w.hist && n < |cs| && s < NSHARDS && ShardOk(cs, w, s)
    requires n == Now(w, gid).config.num + 1 && Settled(Now(w, gid)) && WorldWf(DoConfig(w, gid, cs[n]))
    requires !(cs[n].shards[s] == gid && Now(w, gid).config.shards[s] == 0)
    ensures ShardOk(cs, DoConfig(w, gid, cs[n]), s)
  {
    hide Truth, Covers, HistOk, CurrentOk, FrozenOk, PulledOk, Numbered, ApplyConfig;
    NumberedShape(cs, gids);
    var w' := DoConfig(w, gid, cs[n]);
    ConfigShard(Now(w, gid), cs[n], s);
    CommittedWf(w, w', gid, ApplyConfig(Now(w, gid), cs[n]));
    MovedCurrent(cs, gids, w, gid, n, s);
    forall h | h in w'.hist && h != gid
      ensures CurrentOk(cs, w', h, s)
    {
      SameCurrent(cs, w, w', h, s);
    }
    forall h, i | h in w'.hist && 0 <= i < |w'.hist[h]| && !(h == gid && i == |w.hist[gid]|)
      ensures w'.hist[h][i].config.num < |cs| && PulledOk(w', s, w'.hist[h][i])
      ensures h == Owner(cs, w'.taken[s], s) ==> FrozenOk(cs, w', s, w'.hist[h][i])
    {
      SameFrozen(cs, w, w', s, w.hist[h][i]);
    }
  }

  lemma NumberedShape(cs: seq<Config>, gids: set<int>)
    requires Numbered(cs, gids)
    ensures Shaped(cs) && 0 !in gids && forall n :: 0 <= n < |cs| ==> cs[n].num == n
  {
  }

  lemma SameCurrent(cs: seq<Config>, w: World, w': World, h: int, s: nat)
    requires Shaped(cs) && WorldWf(w) && WorldWf(w') && h in w.hist && h in w'.hist && s < NSHARDS
    requires w.taken[s] == w'.taken[s] < |cs| && w'.log == w.log && Now(w', h) == Now(w, h)
    requires CurrentOk(cs, w, h, s)
    ensures CurrentOk(cs, w', h, s)
  {
  }

  lemma SameFrozen(cs: seq<Config>, w: World, w': World, s: nat, x: Group)
    requires Shaped(cs) && |w.taken| == |w'.taken| == NSHARDS && s < NSHARDS && x.config.num < |cs|
    requires w.taken[s] == w'.taken[s] && w'.log == w.log
    ensures PulledOk(w, s, x) ==> PulledOk(w', s, x)
    ensures FrozenOk(cs, w, s, x) ==> FrozenOk(cs, w', s, x)
  {
  }

  /** The new state of shard s is what Reassign says. */
  ghost predicate Reassigned(g: Group, g': Group, next: Config, s: nat)
    requires WfGroup(g) && |next.shards| == NSHARDS && s < NSHARDS
  {
    && (s in g'.shards <==> Reassign(g, next, s).Some?)
    && (s in g'.shards ==> g'.shards[s] == Reassign(g, next, s).value)
    && g'.config == next && g'.dedup == g.dedup && g'.gid == g.gid
  }

  lemma HolderMoves(cs: seq<Config>, log: seq<ClientOp>, g: Group, g': Group, s: nat, m: nat, n: nat)
    requires Shaped(cs) && s < NSHARDS && n < |cs| && n == g.config.num + 1 && cs[n].num == n
    requires WfGroup(g) && g.config == cs[n - 1] && Settled(g) && Placed(cs, g, s)
    requires m < |cs| && Owner(cs, m, s) == g.gid && HolderOk(cs, log, g, s, m) && Reassigned(g, g', cs[n], s)
    ensures Start(cs, s, n - 1) == m && HolderOk(cs, log, g', s, m) && g'.shards[s].state != GCing
  {
    hide Truth, Covers;
  }

  lemma OtherMoves(cs: seq<Config>, g: Group, g': Group, s: nat, m: nat, n: nat)
    requires Shaped(cs) && s < NSHARDS && n < |cs| && n == g.config.num + 1 && cs[n].num == n
    requires WfGroup(g) && g.config == cs[n - 1] && Settled(g) && Placed(cs, g, s)
    requires OtherOk(cs, g, s, m) && Reassigned(g, g', cs[n], s)
    requires Owner(cs, n, s) == g.gid ==> m < n && Owner(cs, n - 1, s) != 0
    ensures Owner(cs, n - 1, s) != g.gid && OtherOk(cs, g', s, m)
    ensures s in g'.shards ==> g'.shards[s].state != GCing
  {
  }

  lemma MovedCurrent(cs: seq<Config>, gids: set<int>, w: World, gid: int, n: nat, s: nat)
    requires Known(cs, gids, w)
    requires gid in w.hist && n < |cs| && s < NSHARDS && ShardOk(cs, w, s)
    requires n == Now(w, gid).config.num + 1 && Settled(Now(w, gid)) && WorldWf(DoConfig(w, gid, cs[n]))
    requires !(cs[n].shards[s] == gid && Now(w, gid).config.shards[s] == 0)
    ensures var w' := DoConfig(w, gid, cs[n]);
            var g' := ApplyConfig(Now(w, gid), cs[n]);
            && w'.taken[s] == w.taken[s] && CurrentOk(cs, w', gid, s)
            && PulledOk(w', s, g') && (gid == Owner(cs, w.taken[s], s) ==> FrozenOk(cs, w', s, g'))
  {
    hide Truth, Covers, HistOk, LeftBehind, Numbered, ApplyConfig, HolderOk, OtherOk;
    NumberedShape(cs, gids);
    var g, m, w' := Now(w, gid), w.taken[s], DoConfig(w, gid, cs[n]);
    var g' := ApplyConfig(g, cs[n]);
    NowOk(cs, w, gid);
    assert Placed(cs, g, s);
    assert CurrentOk(cs, w, gid, s);
    ConfigShard(g, cs[n], s);
    assert Reassigned(g, g', cs[n], s);
    if Owner(cs, m, s) == gid {
      HolderMoves(cs, w.log, g, g', s, m, n);
      HolderFrozen(cs, w', g', s, m);
    } else {
      if Owner(cs, n, s) == gid {
        NotTakenByOther(cs, w, gid, n, s);
      }
      OtherMoves(cs, g, g', s, m, n);
    }
  }

  lemma HolderFrozen(cs: seq<Config>, w: World, g: Group, s: nat, m: nat)
    requires Shaped(cs) && |w.taken| == NSHARDS && s < NSHARDS && g.config.num < |cs| && m == w.taken[s]
    requires HolderOk(cs, w.log, g, s, m)
    ensures FrozenOk(cs, w, s, g)
  {
  }

  /** While a group has not reached its tenure starting at n, nobody has taken the
      shard in it or after it. */
  lemma NotTakenByOther(cs: seq<Config>, w: World, gid: int, n: nat, s: nat)
    requires Shaped(cs) && WorldWf(w) && gid in w.hist && n < |cs| && s < NSHARDS && ShardOk(cs, w, s)
    requires Now(w, gid).config.num < n && Owner(cs, n, s) == gid && Owner(cs, w.taken[s], s) != gid
    ensures w.taken[s] < n
  {
    hide Truth, Covers, CurrentOk;
  }

  // --- a shard taken from nobody ---

  /** A group that takes a shard from nobody has no copy of it, and nobody has taken it in
      a later configuration. */
  lemma NotYetTaken(cs: seq<Config>, gids: set<int>, w: World, gid: int, n: nat, s: nat)
    requires Known(cs, gids, w) && gid in w.hist && n < |cs| && s < NSHARDS && ShardOk(cs, w, s)
    requires n == Now(w, gid).config.num + 1 && Settled(Now(w, gid))
    requires cs[n].shards[s] == gid && Now(w, gid).config.shards[s] == 0
    ensures Owner(cs, w.taken[s], s) != gid && w.taken[s] < n && s !in Now(w, gid).shards && Owner(cs, n - 1, s) == 0
  {
    hide Truth, Covers, HistOk, Numbered;
    NumberedShape(cs, gids);
    NowOk(cs, w, gid);
    assert Placed(cs, Now(w, gid), s);
    assert CurrentOk(cs, w, gid, s);
    NotTakenByOther(cs, w, gid, n, s);
  }

  /** Where an owned shard stays owned, a shard is taken from nobody only at first. */
  lemma FirstIsRightful(cs: seq<Config>, gids: set<int>, w: World, e: Step, s: nat)
    requires ConfigsOk(cs, gids) && Known(cs, gids, w) && s < NSHARDS && ShardOk(cs, w, s) && Takes(cs, w, e, s)
    ensures Rightful(cs, w, e.gid, e.n, s)
  {
    hide Truth, Covers, HistOk, CurrentOk, Unowned;
    NowOk(cs, w, e.gid);
    NotYetTaken(cs, gids, w, e.gid, e.n, s);
    forall k: nat | k < e.n
      ensures Owner(cs, k, s) == 0
    {
      NeverOwned(cs, gids, s, e.n - 1, k);
    }
  }

  lemma TakeFromNobody(cs: seq<Config>, gids: set<int>, w: World, gid: int, n: nat, s: nat)
    requires Known(cs, gids, w) && gid in w.hist && n < |cs| && s < NSHARDS && ShardOk(cs, w, s)
    requires n == Now(w, gid).config.num + 1 && Settled(Now(w, gid)) && WorldWf(DoConfig(w, gid, cs[n]))
    requires cs[n].shards[s] == gid && Now(w, gid).config.shards[s] == 0 && Rightful(cs, w, gid, n, s)
    ensures ShardOk(cs, DoConfig(w, gid, cs[n]), s)
  {
    hide Truth, Covers, HistOk, CurrentOk, FrozenOk, PulledOk, ApplyConfig, LeftBehind, Numbered, Unowned;
    NumberedShape(cs, gids);
    var w' := DoConfig(w, gid, cs[n]);
    ConfigShard(Now(w, gid), cs[n], s);
    CommittedWf(w, w', gid, ApplyConfig(Now(w, gid), cs[n]));
    NowOk(cs, w, gid);
    NotYetTaken(cs, gids, w, gid, n, s);
    TakerCurrent(cs, gids, w, gid, n, s);
    forall h | h in w'.hist && h != gid
      ensures CurrentOk(cs, w', h, s)
    {
      TakenBeside(cs, w, w', gid, n, s, h);
    }
    TakenFrozen(cs, w, w', gid, ApplyConfig(Now(w, gid), cs[n]), s);
    RightfulLeft(cs, w, w', gid, n, s);
  }

  lemma TakerCurrent(cs: seq<Config>, gids: set<int>, w: World, gid: int, n: nat, s: nat)
    requires Known(cs, gids, w) && gid in w.hist && n < |cs| && s < NSHARDS && ShardOk(cs, w, s)
    requires n == Now(w, gid).config.num + 1 && Settled(Now(w, gid)) && WorldWf(DoConfig(w, gid, cs[n]))
    requires cs[n].shards[s] == gid && Now(w, gid).config.shards[s] == 0
    requires w.taken[s] < n && Unowned(w.log, s) && s !in Now(w, gid).shards && Owner(cs, n - 1, s) == 0
    ensures var w' := DoConfig(w, gid, cs[n]);
            var g' := ApplyConfig(Now(w, gid), cs[n]);
            w'.taken[s] == n && Start(cs, s, n) == n && CurrentOk(cs, w', gid, s) && PulledOk(w', s, g')
            && FrozenOk(cs, w', s, g')
  {
    hide Truth, HistOk, Numbered, ApplyConfig, HolderOk, OtherOk, LeftBehind, FrozenOk, PulledOk;
    NumberedShape(cs, gids);
    var g, w' := Now(w, gid), DoConfig(w, gid, cs[n]);
    NowOk(cs, w, gid);
    assert CurrentOk(cs, w, gid, s);
    ConfigShard(g, cs[n], s);
    UnownedTruth(w.log, s);
    UnownedHolder(cs, w.log, ApplyConfig(g, cs[n]), s, n);
    HolderFrozen(cs, w', ApplyConfig(g, cs[n]), s, n);
    PulledNow(w', s, ApplyConfig(g, cs[n]));
  }

  lemma UnownedHolder(cs: seq<Config>, log: seq<ClientOp>, g: Group, s: nat, n: nat)
    requires Shaped(cs) && s < NSHARDS && g.config.num == n < |cs| && Start(cs, s, n) == n && Unowned(log, s)
    requires s in g.shards && g.shards[s].state == Serving && g.shards[s].data == Truth(log, s)
    ensures HolderOk(cs, log, g, s, n)
  {
  }

  /** For a group not involved, a shard taken later stays ahead of it or behind it. */
  lemma LaterOther(cs: seq<Config>, w: World, w': World, h: int, s: nat)
    requires Shaped(cs) && WorldWf(w) && WorldWf(w') && h in w.hist && h in w'.hist && s < NSHARDS
    requires w.taken[s] <= w'.taken[s] < |cs| && Now(w', h) == Now(w, h) && CurrentOk(cs, w, h, s)
    requires Owner(cs, w.taken[s], s) != h && Owner(cs, w'.taken[s], s) != h
    requires Owner(cs, Now(w, h).config.num, s) == h ==> Now(w, h).config.num > w'.taken[s]
    ensures CurrentOk(cs, w', h, s)
  {
    hide Truth, Covers, HolderOk;
  }

  /** The holder before, if there was one, has stopped. */
  lemma TakenBeside(cs: seq<Config>, w: World, w': World, gid: int, n: nat, s: nat, h: int)
    requires Shaped(cs) && WorldWf(w) && WorldWf(w') && n < |cs| && s < NSHARDS && ShardOk(cs, w, s)
    requires h in w.hist && h in w'.hist && h != gid && Now(w', h) == Now(w, h) && w'.taken[s] == n
    requires w.taken[s] < n && cs[n].shards[s] == gid && cs[n - 1].shards[s] == 0 && Rightful(cs, w, gid, n, s)
    ensures CurrentOk(cs, w', h, s)
  {
    hide Truth, Covers, Unowned;
    assert CurrentOk(cs, w, h, s);
    if Owner(cs, w.taken[s], s) != h {
      LaterOther(cs, w, w', h, s);
    }
  }

  lemma LaterFrozen(cs: seq<Config>, w: World, w': World, s: nat, x: Group)
    requires Shaped(cs) && |w.taken| == |w'.taken| == NSHARDS && s < NSHARDS && x.config.num < |cs|
    requires w.taken[s] <= w'.taken[s]
    ensures PulledOk(w, s, x) ==> PulledOk(w', s, x)
    ensures x.config.num <= w'.taken[s] ==> FrozenOk(cs, w', s, x)
  {
  }

  lemma RightfulLeft(cs: seq<Config>, w: World, w': World, gid: int, n: nat, s: nat)
    requires Shaped(cs) && WorldWf(w) && WorldWf(w') && n < |cs| && s < NSHARDS && Rightful(cs, w, gid, n, s)
    requires w'.hist.Keys == w.hist.Keys && gid in w.hist && w'.taken[s] == n && Now(w', gid).config.num == n
    requires forall h :: h in w.hist && h != gid ==> Now(w', h) == Now(w, h)
    ensures LeftBehind(cs, w', s)
  {
    hide Unowned;
    forall k: nat | k < n && Owner(cs, k, s) in w'.hist
      ensures Now(w', Owner(cs, k, s)).config.num > k
    {
    }
  }

  // ----- installing pulled shards -----

  lemma InstallStep(cs: seq<Config>, gids: set<int>, w: World, gid: int, asked: nat, from: int, read: nat, s: nat)
    requires Known(cs, gids, w) && Enabled(cs, w, Install(gid, asked, from, read)) && s < NSHARDS && ShardOk(cs, w, s)
    ensures var w' := DoInstall(w, gid, w.hist[gid][asked], from, w.hist[from][read]);
            WorldWf(w') && ShardOk(cs, w', s)
  {
    hide ShardOk, Truth, Covers, HistOk;
    var g, x, y := Now(w, gid), w.hist[gid][asked], w.hist[from][read];
    var shards := Waiting(x, from, Pulling);
    var p := PullShard(y, x.config.num, shards).value;
    var w' := DoInstall(w, gid, x, from, y);
    var g' := ApplyInstallShard(g, x.config.num, shards, p);
    assert Committed(w, w', gid, g');
    CommittedWf(w, w', gid, g');
    if x.config.num == g.config.num && s in shards && s in g.shards && g.shards[s].state == Pulling {
      TakeKeeps(cs, gids, w, gid, asked, from, read, s);
    } else {
      QuietKeeps(cs, w, w', gid, g', s);
    }
  }

  lemma InstallGroupOk(cs: seq<Config>, gid: int, g: Group, num: nat, shards: set<nat>, p: Pulled)
    requires Shaped(cs) && GroupOk(cs, gid, g)
    ensures GroupOk(cs, gid, ApplyInstallShard(g, num, shards, p))
  {
    var g' := ApplyInstallShard(g, num, shards, p);
    forall s: nat | s < NSHARDS
      ensures Placed(cs, g', s)
    {
      assert Placed(cs, g, s);
    }
  }

  /** What is known when a pulled shard is about to be installed: the group it came
      from is the holder, stopped at the end of its tenure, and showed the whole shard. */
  lemma PulledFromHolder(cs: seq<Config>, w: World, gid: int, asked: nat, from: int, read: nat, s: nat)
    requires Shaped(cs) && WorldWf(w) && HistOk(cs, w) && s < NSHARDS && ShardOk(cs, w, s)
    requires gid in w.hist && asked < |w.hist[gid]| && from in w.hist && read < |w.hist[from]|
    requires var g, x, y := Now(w, gid), w.hist[gid][asked], w.hist[from][read];
             && y.config.num >= x.config.num == g.config.num
             && s in Waiting(x, from, Pulling) && s in g.shards && g.shards[s].state == Pulling
    ensures Now(w, gid).config.num < |cs|
    ensures var m, n, y := w.taken[s], Now(w, gid).config.num, w.hist[from][read];
            && m < n && Start(cs, s, n) == n && Start(cs, s, n - 1) == m
            && Owner(cs, m, s) == from && Owner(cs, n, s) == gid && from != gid
            && s in y.shards && y.shards[s].data == Truth(w.log, s) && Covers(y.dedup, w.log, s)
            && Now(w, from).config.num == n
  {
    hide Truth, Covers, LeftBehind;
    var g, x, y, m := Now(w, gid), w.hist[gid][asked], w.hist[from][read], w.taken[s];
    var n := g.config.num;
    NowOk(cs, w, gid);
    NowOk(cs, w, from);
    assert GroupOk(cs, gid, x) && GroupOk(cs, from, y);
    assert Placed(cs, g, s) && Placed(cs, x, s);
    assert CurrentOk(cs, w, gid, s) && CurrentOk(cs, w, from, s);
    hide HistOk;
    assert Start(cs, s, n - 1) <= m;
    StartWithin(cs, s, m, n - 1);
    PastStart(cs, s, m, n, y.config.num);
    PastStart(cs, s, m, n, Now(w, from).config.num);
    assert y.config.num < |cs| && FrozenOk(cs, w, s, y);
  }

  /** After a tenure has ended at n, no later configuration belongs to it. */
  lemma PastStart(cs: seq<Config>, s: nat, m: nat, n: nat, c: nat)
    requires Shaped(cs) && s < NSHARDS && m < n <= c < |cs| && Start(cs, s, n) == n
    ensures Start(cs, s, c) != m && (c > n ==> Start(cs, s, c - 1) != m)
  {
    if Start(cs, s, c) == m {
      StartWithin(cs, s, n, c);
    }
    if c > n && Start(cs, s, c - 1) == m {
      StartWithin(cs, s, n, c - 1);
    }
  }

  /** The pulled copy of shard s is in its place. */
  lemma InstallTakes(w: World, gid: int, asked: nat, from: int, read: nat, s: nat)
    requires WorldWf(w) && gid in w.hist && asked < |w.hist[gid]| && from in w.hist && read < |w.hist[from]|
    requires var g, x, y := Now(w, gid), w.hist[gid][asked], w.hist[from][read];
             && y.config.num >= x.config.num == g.config.num && s < NSHARDS
             && s in Waiting(x, from, Pulling) && s in g.shards && g.shards[s].state == Pulling
    ensures var w' := DoInstall(w, gid, w.hist[gid][asked], from, w.hist[from][read]);
            var g, y := Now(w, gid), w.hist[from][read];
            && gid in w'.hist && |w'.hist[gid]| > 0 && var g' := Now(w', gid);
            && Committed(w, w', gid, g') && w'.log == w.log && w'.taken[s] == g.config.num
            && s in g'.shards && g'.shards[s] == Shard(if s in y.shards then y.shards[s].data else map[], GCing)
            && g'.config == g.config && g'.gid == g.gid && DedupLe(y.dedup, g'.dedup)
  {
    hide Waiting, ApplyInstallShard;
    var x, y := w.hist[gid][asked], w.hist[from][read];
    var shards := Waiting(x, from, Pulling);
    InstallShard(Now(w, gid), shards, PullShard(y, x.config.num, shards).value, s);
  }

  lemma TakeKeeps(cs: seq<Config>, gids: set<int>, w: World, gid: int, asked: nat, from: int, read: nat, s: nat)
    requires Known(cs, gids, w) && s < NSHARDS && ShardOk(cs, w, s)
    requires Enabled(cs, w, Install(gid, asked, from, read))
    requires var g, x, y := Now(w, gid), w.hist[gid][asked], w.hist[from][read];
             && x.config.num == g.config.num
             && s in Waiting(x, from, Pulling) && s in g.shards && g.shards[s].state == Pulling
    ensures var w' := DoInstall(w, gid, w.hist[gid][asked], from, w.hist[from][read]);
            WorldWf(w') && ShardOk(cs, w', s)
  {
    hide Truth, Covers, HistOk, CurrentOk, FrozenOk, PulledOk, Numbered, LeftBehind, Waiting, DoInstall, DedupLe;
    NumberedShape(cs, gids);
    InstallTakes(w, gid, asked, from, read, s);
    var w' := DoInstall(w, gid, w.hist[gid][asked], from, w.hist[from][read]);
    var n, g' := Now(w, gid).config.num, Now(w', gid);
    CommittedWf(w, w', gid, g');
    NowOk(cs, w, gid);
    PulledFromHolder(cs, w, gid, asked, from, read, s);
    TakenCurrent(cs, w, w', gid, g', w.hist[from][read].dedup, s);
    forall h | h in w'.hist && h != gid
      ensures CurrentOk(cs, w', h, s)
    {
      TakenOther(cs, w, w', gid, from, n, s, h);
    }
    TakenFrozen(cs, w, w', gid, g', s);
    TakenLeft(cs, w, w', gid, from, n, s);
  }

  /** What the group that took the shard last has shown before does not count yet. */
  lemma TakenFrozen(cs: seq<Config>, w: World, w': World, gid: int, g': Group, s: nat)
    requires Shaped(cs) && WorldWf(w) && HistOk(cs, w) && gid in w.hist && Committed(w, w', gid, g')
    requires s < NSHARDS && ShardOk(cs, w, s) && w.taken[s] <= w'.taken[s] == g'.config.num < |cs|
    requires Owner(cs, w'.taken[s], s) == gid && Now(w, gid).config.num <= g'.config.num
    ensures WorldWf(w')
    ensures forall h, i :: h in w'.hist && 0 <= i < |w'.hist[h]| ==>
              w'.hist[h][i].config.num < |cs| && PulledOk(w', s, w'.hist[h][i])
              && (h == Owner(cs, w'.taken[s], s) ==> FrozenOk(cs, w', s, w'.hist[h][i]))
  {
    hide Truth, Covers, HistOk, CurrentOk, FrozenOk, PulledOk, LeftBehind, Unowned;
    CommittedWf(w, w', gid, g');
    NowOk(cs, w, gid);
    forall h, i | h in w'.hist && 0 <= i < |w'.hist[h]|
      ensures w'.hist[h][i].config.num < |cs| && PulledOk(w', s, w'.hist[h][i])
      ensures h == Owner(cs, w'.taken[s], s) ==> FrozenOk(cs, w', s, w'.hist[h][i])
    {
      if h == gid && i == |w.hist[gid]| {
        PulledNow(w', s, g');
        LaterFrozen(cs, w, w', s, g');
      } else {
        LaterFrozen(cs, w, w', s, w.hist[h][i]);
      }
    }
  }

  lemma PulledNow(w: World, s: nat, g: Group)
    requires |w.taken| == NSHARDS && s < NSHARDS && g.config.num <= w.taken[s]
    ensures PulledOk(w, s, g)
  {
  }

  lemma InstallShard(g: Group, shards: set<nat>, p: Pulled, s: nat)
    requires s in shards && s in g.shards && g.shards[s].state == Pulling && WfGroup(g)
    ensures var g' := ApplyInstallShard(g, g.config.num, shards, p);
            && s in g'.shards && g'.shards[s] == Shard(if s in p.data then p.data[s] else map[], GCing)
            && g'.config == g.config && g'.gid == g.gid && WfGroup(g') && DedupLe(p.dedup, g'.dedup)
  {
  }

  lemma TakenCurrent(cs: seq<Config>, w: World, w': World, gid: int, g': Group, dedup: Dedup, s: nat)
    requires Shaped(cs) && WorldWf(w) && WorldWf(w') && gid in w.hist && gid in w'.hist && s < NSHARDS
    requires Now(w', gid) == g' && g'.gid == gid && g'.config == Now(w, gid).config && g'.config.num < |cs|
    requires w.taken[s] < |cs| && CurrentOk(cs, w, gid, s)
    requires w.taken[s] < g'.config.num == w'.taken[s] && w'.log == w.log
    requires Start(cs, s, g'.config.num) == g'.config.num && Owner(cs, g'.config.num, s) == gid
    requires s in g'.shards && g'.shards[s] == Shard(Truth(w.log, s), GCing)
    requires Covers(dedup, w.log, s) && DedupLe(dedup, g'.dedup)
    ensures CurrentOk(cs, w', gid, s)
  {
    hide Truth;
    CoversQuiet(dedup, g'.dedup, w.log, w.log, s);
  }

  lemma TakenOther(cs: seq<Config>, w: World, w': World, gid: int, from: int, n: nat, s: nat, h: int)
    requires Shaped(cs) && WorldWf(w) && WorldWf(w') && s < NSHARDS && ShardOk(cs, w, s) && n < |cs|
    requires h in w.hist && h in w'.hist && h != gid && Now(w', h) == Now(w, h) && w'.taken[s] == n
    requires from in w.hist && Now(w, from).config.num == n
    requires w.taken[s] < n && Start(cs, s, n) == n && Start(cs, s, n - 1) == w.taken[s]
    requires Owner(cs, w.taken[s], s) == from && Owner(cs, n, s) == gid && from != gid
    ensures CurrentOk(cs, w', h, s)
  {
    hide Truth, Covers, LeftBehind;
    assert CurrentOk(cs, w, h, s);
    if h != from {
      LaterOther(cs, w, w', h, s);
    }
  }

  lemma TakenLeft(cs: seq<Config>, w: World, w': World, gid: int, from: int, n: nat, s: nat)
    requires Shaped(cs) && WorldWf(w) && WorldWf(w') && s < NSHARDS && ShardOk(cs, w, s) && n < |cs|
    requires w'.hist.Keys == w.hist.Keys && gid in w.hist
    requires forall h :: h in w.hist ==> Now(w', h).config.num == Now(w, h).config.num
    requires w'.taken[s] == n && from in w.hist && Now(w, from).config.num == n
    requires w.taken[s] < n && Start(cs, s, n - 1) == w.taken[s] && Owner(cs, w.taken[s], s) == from
    ensures LeftBehind(cs, w', s)
  {
    hide Truth, Covers, CurrentOk;
    forall k: nat | k < n && Owner(cs, k, s) in w'.hist
      ensures Now(w', Owner(cs, k, s)).config.num > k
    {
      if k >= w.taken[s] {
        assert cs[k].shards[s] == cs[n - 1].shards[s];
        assert cs[w.taken[s]].shards[s] == cs[n - 1].shards[s];
      }
    }
  }

  // ----- deleting handed-over shards -----

  lemma DeleteStep(cs: seq<Config>, gids: set<int>, w: World, gid: int, owner: int, asked: nat, from: int, s: nat)
    requires Known(cs, gids, w) && Enabled(cs, w, Delete(gid, owner, asked, from)) && s < NSHARDS && ShardOk(cs, w, s)
    ensures var w' := DoDelete(w, gid, w.hist[owner][asked], from);
            WorldWf(w') && ShardOk(cs, w', s)
  {
    hide ShardOk, Truth, Covers, HistOk;
    var g, x := Now(w, gid), w.hist[owner][asked];
    var shards := Waiting(x, from, GCing);
    var w' := DoDelete(w, gid, x, from);
    var g' := ApplyDeleteShard(g, x.config.num, shards);
    NowOk(cs, w, gid);
    assert Committed(w, w', gid, g');
    if x.config.num == g.config.num && s in shards && s in g.shards && g.shards[s].state == BePulling {
      RemoveKeeps(cs, w, w', gid, g', owner, asked, s);
    } else {
      QuietKeeps(cs, w, w', gid, g', s);
    }
  }

  lemma DeleteGroupOk(cs: seq<Config>, gid: int, g: Group, num: nat, shards: set<nat>)
    requires Shaped(cs) && GroupOk(cs, gid, g)
    ensures GroupOk(cs, gid, ApplyDeleteShard(g, num, shards))
  {
    var g' := ApplyDeleteShard(g, num, shards);
    forall s: nat | s < NSHARDS
      ensures Placed(cs, g', s)
    {
      assert Placed(cs, g, s);
    }
  }

  /** A copy that is deleted is not the holder's: someone took the shard before. */
  lemma RemoveKeeps(cs: seq<Config>, w: World, w': World, gid: int, g': Group, owner: int, asked: nat, s: nat)
    requires Shaped(cs) && WorldWf(w) && HistOk(cs, w) && s < NSHARDS && ShardOk(cs, w, s)
    requires gid in w.hist && Committed(w, w', gid, g') && owner in w.hist && asked < |w.hist[owner]|
    requires w'.log == w.log && w'.taken == w.taken && g'.config == Now(w, gid).config && g'.gid == gid
    requires s !in g'.shards
    requires var g, x := Now(w, gid), w.hist[owner][asked];
             && x.config.num == g.config.num && s in x.shards && x.shards[s].state == GCing
             && s in g.shards && g.shards[s].state == BePulling
    ensures WorldWf(w') && ShardOk(cs, w', s)
  {
    hide Truth, Covers, HistOk, CurrentOk, PulledOk, FrozenOk, LeftBehind, Unowned;
    CommittedWf(w, w', gid, g');
    var m := w.taken[s];
    NowOk(cs, w, gid);
    RemovedCurrent(cs, w, w', gid, owner, asked, s);
    forall h | h in w'.hist && h != gid
      ensures CurrentOk(cs, w', h, s)
    {
      SameCurrent(cs, w, w', h, s);
    }
    SameLeft(cs, w, w', s);
    assert PulledOk(w', s, g') by {
      NotHeld(w', s, g');
    }
    forall h, i | h in w'.hist && 0 <= i < |w'.hist[h]| && !(h == gid && i == |w.hist[gid]|)
      ensures w'.hist[h][i].config.num < |cs| && PulledOk(w', s, w'.hist[h][i])
      ensures h == Owner(cs, m, s) ==> FrozenOk(cs, w', s, w'.hist[h][i])
    {
      SameFrozen(cs, w, w', s, w.hist[h][i]);
    }
  }

  lemma RemovedCurrent(cs: seq<Config>, w: World, w': World, gid: int, owner: int, asked: nat, s: nat)
    requires Shaped(cs) && WorldWf(w) && WorldWf(w') && s < NSHARDS && ShardOk(cs, w, s)
    requires gid in w.hist && gid in w'.hist && owner in w.hist && asked < |w.hist[owner]|
    requires GroupOk(cs, gid, Now(w, gid)) && w'.log == w.log && w'.taken == w.taken
    requires var g, g', x := Now(w, gid), Now(w', gid), w.hist[owner][asked];
             && x.config.num == g.config.num && s in x.shards && x.shards[s].state == GCing
             && s in g.shards && g.shards[s].state == BePulling
             && g'.config == g.config && g'.gid == gid && s !in g'.shards
    ensures Owner(cs, w.taken[s], s) != gid && CurrentOk(cs, w', gid, s)
  {
    hide Truth, Covers, LeftBehind, FrozenOk, Unowned;
    assert Placed(cs, Now(w, gid), s);
    assert CurrentOk(cs, w, gid, s);
    assert PulledOk(w, s, w.hist[owner][asked]);
  }

  lemma SameLeft(cs: seq<Config>, w: World, w': World, s: nat)
    requires Shaped(cs) && WorldWf(w) && WorldWf(w') && s < NSHARDS && LeftBehind(cs, w, s)
    requires w'.taken[s] == w.taken[s] && w'.hist.Keys == w.hist.Keys
    requires forall h :: h in w.hist ==> Now(w', h).config == Now(w, h).config
    ensures LeftBehind(cs, w', s)
  {
  }

  lemma NotHeld(w: World, s: nat, g: Group)
    requires |w.taken| == NSHARDS && s < NSHARDS && s !in g.shards
    ensures PulledOk(w, s, g)
  {
  }

  // ----- any step -----

  /** A step keeps a shard right, unless it takes the shard from nobody wrongly. */
  lemma StepShard(cs: seq<Config>, gids: set<int>, w: World, e: Step, s: nat)
    requires Known(cs, gids, w) && Enabled(cs, w, e) && s < NSHARDS && ShardOk(cs, w, s)
    requires Takes(cs, w, e, s) ==> Rightful(cs, w, e.gid, e.n, s)
    ensures WorldWf(Next(cs, w, e)) && ShardOk(cs, Next(cs, w, e), s)
  {
    hide Known, ShardOk, Rightful;
    match e
    case Client(gid, op) => ClientStep(cs, gids, w, gid, op, s);
    case NextConfig(gid, n) => ConfigStep(cs, gids, w, gid, n, s);
    case Install(gid, asked, from, read) => InstallStep(cs, gids, w, gid, asked, from, read, s);
    case Delete(gid, owner, asked, from) => DeleteStep(cs, gids, w, gid, owner, asked, from, s);
  }
}
