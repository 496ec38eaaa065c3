/** All groups together, moving through numbered configurations and handing shards
    over.  A group is its committed log folded by the apply functions; any replica may
    answer from any prefix of it, so the world keeps every state a group has had. */
module ShardMigration {
  import opened Common
  import opened ShardServer

  datatype World = World(
    hist: map<int, seq<Group>>,   // states of each group, oldest first
    log: seq<ClientOp>,           // the client writes that took effect, in order
    taken: seq<nat>)              // for each shard, the configuration in which its present holder took it

  // ----- the configurations -----

  function Owner(cs: seq<Config>, n: nat, s: nat): int
    requires n < |cs| && |cs[n].shards| == NSHARDS && s < NSHARDS
  {
    cs[n].shards[s]
  }

  /** Numbered from the empty configuration 0, over these groups. */
  ghost predicate Numbered(cs: seq<Config>, gids: set<int>) {
    && |cs| >= 1 && cs[0] == NO_CONFIG && 0 !in gids
    && (forall n :: 0 <= n < |cs| ==> cs[n].num == n && |cs[n].shards| == NSHARDS)
    && (forall n, s :: 0 <= n < |cs| && 0 <= s < NSHARDS ==> cs[n].shards[s] == 0 || cs[n].shards[s] in gids)
  }

  /** Besides, a shard that has an owner keeps having one. */
  ghost predicate ConfigsOk(cs: seq<Config>, gids: set<int>) {
    && Numbered(cs, gids)
    && (forall i, j, s :: 0 <= i <= j < |cs| && 0 <= s < NSHARDS && cs[i].shards[s] != 0 ==> cs[j].shards[s] != 0)
  }

  /** The first configuration of the tenure that n belongs to. */
  function Start(cs: seq<Config>, s: nat, n: nat): (k: nat)
    requires s < NSHARDS && n < |cs| && forall i :: 0 <= i < |cs| ==> |cs[i].shards| == NSHARDS
    ensures k <= n
    ensures forall i :: k <= i <= n ==> cs[i].shards[s] == cs[n].shards[s]
    ensures k > 0 ==> cs[k - 1].shards[s] != cs[n].shards[s]
  {
    if n > 0 && cs[n - 1].shards[s] == cs[n].shards[s] then Start(cs, s, n - 1) else n
  }

  // ----- steps -----

  datatype Step =
    | Client(gid: int, op: ClientOp)
    | NextConfig(gid: int, n: nat)
    | Install(gid: int, asked: nat, from: int, read: nat)
    | Delete(gid: int, owner: int, asked: nat, from: int)

  function Now(w: World, gid: int): Group
    requires gid in w.hist && |w.hist[gid]| > 0
  {
    w.hist[gid][|w.hist[gid]| - 1]
  }

  ghost predicate WorldWf(w: World) {
    && |w.taken| == NSHARDS
    && forall gid :: gid in w.hist ==>
         |w.hist[gid]| > 0 && forall i :: 0 <= i < |w.hist[gid]| ==> WfGroup(w.hist[gid][i])
  }

  /** The shards of one previous owner that a state of the group still has to pull, or
      has pulled and not confirmed. */
  function Waiting(g: Group, from: int, st: ShardState): set<nat>
    requires WfGroup(g)
  {
    set s | s in g.shards && s < NSHARDS && g.shards[s].state == st && g.prevConfig.shards[s] == from
  }

  ghost predicate Enabled(cs: seq<Config>, w: World, e: Step)
    requires WorldWf(w)
  {
    && e.gid in w.hist
    && match e
       case Client(_, _) => true
       case NextConfig(_, n) => n < |cs| && |cs[n].shards| == NSHARDS
       case Install(g, asked, from, read) =>
         && asked < |w.hist[g]| && from in w.hist && read < |w.hist[from]|
         && w.hist[from][read].config.num >= w.hist[g][asked].config.num
       case Delete(g, owner, asked, from) =>
         owner in w.hist && asked < |w.hist[owner]| && (g == owner || g == from)
  }

  function Commit(w: World, gid: int, g: Group): World
    requires gid in w.hist
  {
    w.(hist := w.hist[gid := w.hist[gid] + [g]])
  }

  ghost function Next(cs: seq<Config>, w: World, e: Step): World
    requires WorldWf(w) && Enabled(cs, w, e)
  {
    match e
    case Client(gid, op) => DoClient(w, gid, op)
    case NextConfig(gid, n) => DoConfig(w, gid, cs[n])
    case Install(gid, asked, from, read) => DoInstall(w, gid, w.hist[gid][asked], from, w.hist[from][read])
    case Delete(gid, owner, asked, from) => DoDelete(w, gid, w.hist[owner][asked], from)
  }

  function DoClient(w: World, gid: int, op: ClientOp): World
    requires WorldWf(w) && gid in w.hist
  {
    var g := Now(w, gid);
    Commit(w, gid, ApplyClientOp(g, op).0).(log := if Effective(g, op) then w.log + [op] else w.log)
  }

  /** A shard given out for the first time is taken at once. */
  function DoConfig(w: World, gid: int, next: Config): World
    requires WorldWf(w) && gid in w.hist && |next.shards| == NSHARDS
  {
    var g := Now(w, gid);
    var g' := ApplyConfig(g, next);
    Commit(w, gid, g').(taken := seq(NSHARDS, s requires 0 <= s < NSHARDS =>
      if g'.config.num == g.config.num + 1 && next.shards[s] == gid && g.config.shards[s] == 0 then next.num
      else w.taken[s]))
  }

  /** The leader that saw x asked the previous owner from, which answered in state y;
      the answer is committed now. */
  function DoInstall(w: World, gid: int, x: Group, from: int, y: Group): World
    requires WorldWf(w) && gid in w.hist && WfGroup(x)
  {
    var g := Now(w, gid);
    var shards := Waiting(x, from, Pulling);
    match PullShard(y, x.config.num, shards)
    case None => w
    case Some(p) =>
      Commit(w, gid, ApplyInstallShard(g, x.config.num, shards, p))
      .(taken := seq(NSHARDS, s requires 0 <= s < NSHARDS =>
        if x.config.num == g.config.num && s in shards && s in g.shards && g.shards[s].state == Pulling
        then x.config.num else w.taken[s]))
  }

  /** A new owner that saw x, with shards pulled from a previous owner, has their
      deletion committed: in the group they came from, and in its own. */
  function DoDelete(w: World, gid: int, x: Group, from: int): World
    requires WorldWf(w) && gid in w.hist && WfGroup(x)
  {
    Commit(w, gid, ApplyDeleteShard(Now(w, gid), x.config.num, Waiting(x, from, GCing)))
  }

  function Init(gids: set<int>): World {
    World(map gid | gid in gids :: [Group(gid, map[], map[], NO_CONFIG, NO_CONFIG)], [], seq(NSHARDS, s => 0))
  }

  ghost predicate IsRun(cs: seq<Config>, gids: set<int>, ws: seq<World>, es: seq<Step>) {
    && |ws| == |es| + 1 && ws[0] == Init(gids)
    && forall k :: 0 <= k < |es| ==> WorldWf(ws[k]) && Enabled(cs, ws[k], es[k]) && ws[k + 1] == Next(cs, ws[k], es[k])
  }

  // ----- shards from nobody -----

  /** In this step a group moves on and takes shard s from the invalid group. */
  ghost predicate Takes(cs: seq<Config>, w: World, e: Step, s: nat)
    requires WorldWf(w) && s < NSHARDS
  {
    && e.NextConfig? && e.gid in w.hist && e.n < |cs| && |cs[e.n].shards| == NSHARDS
    && var g := Now(w, e.gid);
    && cs[e.n].num == g.config.num + 1 && Settled(g) && cs[e.n].shards[s] == e.gid && g.config.shards[s] == 0
  }

  /** Nobody has written to shard s, and no other group is on its way to a configuration
      before n in which it owns the shard. */
  ghost predicate Rightful(cs: seq<Config>, w: World, gid: int, n: nat, s: nat)
    requires WorldWf(w) && n < |cs| && s < NSHARDS && forall m :: 0 <= m < n ==> |cs[m].shards| == NSHARDS
  {
    && Unowned(w.log, s)
    && forall h, m: nat :: h in w.hist && h != gid && Now(w, h).config.num <= m < n ==> Owner(cs, m, s) != h
  }

  // ----- the one map -----

  /** The value of a shard: all effective writes to it, by whichever group, in order. */
  function Truth(log: seq<ClientOp>, s: nat): Data {
    if log == [] then map[]
    else
      var op := log[|log| - 1];
      var d := Truth(log[..|log| - 1], s);
      if Key2Shard(op.key) == s then Write(d, op) else d
  }

  /** dedup knows every effective write to shard s. */
  ghost predicate Covers(dedup: Dedup, log: seq<ClientOp>, s: nat) {
    forall i :: 0 <= i < |log| && Key2Shard(log[i].key) == s ==>
      log[i].client in dedup && dedup[log[i].client] >= log[i].seqNo
  }

  // ----- the invariant -----

  /** The states of a group's shards that its configuration allows. */
  ghost predicate Placed(cs: seq<Config>, g: Group, s: nat)
    requires s < NSHARDS && g.config.num < |cs| && forall n :: 0 <= n < |cs| ==> |cs[n].shards| == NSHARDS
  {
    var c := g.config.num;
    if Owner(cs, c, s) == g.gid then
      && s in g.shards && g.shards[s].state != BePulling
      && (g.shards[s].state != Serving ==> c > 0 && Owner(cs, c - 1, s) != g.gid && Owner(cs, c - 1, s) != 0)
    else
      s in g.shards ==> g.shards[s].state == BePulling && c > 0 && Owner(cs, c - 1, s) == g.gid
  }

  ghost predicate GroupOk(cs: seq<Config>, gid: int, g: Group)
    requires forall n :: 0 <= n < |cs| ==> |cs[n].shards| == NSHARDS
  {
    && g.gid == gid && WfGroup(g)
    && g.config.num < |cs| && g.config == cs[g.config.num]
    && (g.config.num > 0 ==> g.prevConfig == cs[g.config.num - 1])
    && (forall s :: s in g.shards ==> s < NSHARDS)
    && (forall s: nat :: s < NSHARDS ==> Placed(cs, g, s))
  }

  ghost predicate HistOk(cs: seq<Config>, w: World)
    requires forall n :: 0 <= n < |cs| ==> |cs[n].shards| == NSHARDS
  {
    && (forall gid, i :: gid in w.hist && 0 <= i < |w.hist[gid]| ==> GroupOk(cs, gid, w.hist[gid][i]))
    && (forall gid, i, j :: gid in w.hist && 0 <= i <= j < |w.hist[gid]| ==>
          w.hist[gid][i].config.num <= w.hist[gid][j].config.num)
  }

  ghost predicate Shaped(cs: seq<Config>) {
    forall n :: 0 <= n < |cs| ==> |cs[n].shards| == NSHARDS
  }

  /** The holder of shard s, which took it in configuration m: it has served it since,
      or has stopped at the end of its tenure with the data frozen. */
  ghost predicate HolderOk(cs: seq<Config>, log: seq<ClientOp>, g: Group, s: nat, m: nat)
    requires Shaped(cs) && s < NSHARDS && g.config.num < |cs|
  {
    var c := g.config.num;
    && m <= c
    && (Start(cs, s, c) == m || Ended(cs, s, m, c))
    && s in g.shards && g.shards[s].state != Pulling
    && g.shards[s].data == Truth(log, s)
    && Covers(g.dedup, log, s)
  }

  /** Configuration c is the first after the tenure that started at m. */
  ghost predicate Ended(cs: seq<Config>, s: nat, m: nat, c: nat)
    requires Shaped(cs) && s < NSHARDS && c < |cs|
  {
    c > m && Start(cs, s, c - 1) == m && Start(cs, s, c) == c
  }

  /** Any other group that owns s is ahead, waiting at the start of a later tenure. */
  ghost predicate OtherOk(cs: seq<Config>, g: Group, s: nat, m: nat)
    requires Shaped(cs) && s < NSHARDS && g.config.num < |cs|
  {
    var c := g.config.num;
    Owner(cs, c, s) == g.gid ==> c > m && Start(cs, s, c) == c && s in g.shards && g.shards[s].state == Pulling
  }

  /** Tenures a group has gone through are tenures in which the shard was taken. */
  ghost predicate PassedOk(cs: seq<Config>, g: Group, s: nat, m: nat)
    requires Shaped(cs) && s < NSHARDS && g.config.num < |cs|
  {
    forall k: nat :: k < g.config.num && Owner(cs, k, s) == g.gid ==> Start(cs, s, k) <= m
  }

  ghost predicate CurrentOk(cs: seq<Config>, w: World, gid: int, s: nat)
    requires Shaped(cs) && WorldWf(w) && gid in w.hist && s < NSHARDS && w.taken[s] < |cs|
  {
    var g, m := Now(w, gid), w.taken[s];
    && g.config.num < |cs| && g.gid == gid
    && (if Owner(cs, m, s) == gid then HolderOk(cs, w.log, g, s, m) else OtherOk(cs, g, s, m))
    && PassedOk(cs, g, s, m)
  }

  /** Owners of earlier tenures have moved on. */
  ghost predicate LeftBehind(cs: seq<Config>, w: World, s: nat)
    requires Shaped(cs) && WorldWf(w) && s < NSHARDS
  {
    forall k: nat :: k < w.taken[s] && k < |cs| && Owner(cs, k, s) in w.hist ==> Now(w, Owner(cs, k, s)).config.num > k
  }

  /** A state in which the holder had already stopped still shows the whole shard. */
  ghost predicate FrozenOk(cs: seq<Config>, w: World, s: nat, x: Group)
    requires Shaped(cs) && |w.taken| == NSHARDS && s < NSHARDS && x.config.num < |cs|
  {
    x.config.num > w.taken[s] && Start(cs, s, x.config.num) != w.taken[s] ==>
      s in x.shards && x.shards[s].data == Truth(w.log, s) && Covers(x.dedup, w.log, s)
  }

  /** Whoever has been seen with the shard pulled has taken it. */
  ghost predicate PulledOk(w: World, s: nat, x: Group)
    requires |w.taken| == NSHARDS && s < NSHARDS
  {
    s in x.shards && x.shards[s].state == GCing ==> x.config.num <= w.taken[s]
  }

  ghost predicate Unowned(log: seq<ClientOp>, s: nat) {
    forall i :: 0 <= i < |log| ==> Key2Shard(log[i].key) != s
  }

  ghost predicate ShardOk(cs: seq<Config>, w: World, s: nat)
    requires Shaped(cs) && WorldWf(w) && s < NSHARDS
  {
    var m := w.taken[s];
    && m < |cs| && Start(cs, s, m) == m
    && (Owner(cs, m, s) == 0 ==> m == 0 && Unowned(w.log, s))
    && (forall gid :: gid in w.hist ==> CurrentOk(cs, w, gid, s))
    && LeftBehind(cs, w, s)
    && (forall gid, i :: gid in w.hist && 0 <= i < |w.hist[gid]| ==>
          w.hist[gid][i].config.num < |cs| && PulledOk(w, s, w.hist[gid][i])
          && (gid == Owner(cs, m, s) ==> FrozenOk(cs, w, s, w.hist[gid][i])))
  }

  /** What holds whatever becomes of the owners of shards. */
  ghost predicate Known(cs: seq<Config>, gids: set<int>, w: World) {
    Numbered(cs, gids) && w.hist.Keys == gids && WorldWf(w) && HistOk(cs, w)
  }

  ghost predicate Inv(cs: seq<Config>, gids: set<int>, w: World) {
    && ConfigsOk(cs, gids) && Known(cs, gids, w)
    && forall s: nat :: s < NSHARDS ==> ShardOk(cs, w, s)
  }

  // ----- tenures -----

  lemma {:induction false} StartWithin(cs: seq<Config>, s: nat, a: nat, b: nat)
    requires Shaped(cs) && s < NSHARDS && a <= b < |cs| && Start(cs, s, b) <= a
    ensures Start(cs, s, a) == Start(cs, s, b)
    decreases b - a
  {
    if a < b {
      assert cs[b - 1].shards[s] == cs[b].shards[s];
      StartWithin(cs, s, a, b - 1);
    }
  }

  /** Without an owner now, there never was one. */
  lemma NeverOwned(cs: seq<Config>, gids: set<int>, s: nat, n: nat, k: nat)
    requires ConfigsOk(cs, gids) && s < NSHARDS && k <= n < |cs| && Owner(cs, n, s) == 0
    ensures Owner(cs, k, s) == 0
  {
    assert cs[n].shards[s] == 0;
  }

  /** The value of a shard is empty exactly if nothing was ever written to it. */
  lemma {:induction false} UnownedTruth(log: seq<ClientOp>, s: nat)
    ensures Truth(log, s) == map[] <==> Unowned(log, s)
  {
    if log != [] {
      var k := |log| - 1;
      UnownedTruth(log[..k], s);
      assert forall i :: 0 <= i < k ==> log[..k][i] == log[i];
      if Key2Shard(log[k].key) == s {
        assert log[k].key in Truth(log, s);
      }
    }
  }

  // ----- steps that leave a shard alone -----

  ghost predicate DedupLe(a: Dedup, b: Dedup) {
    forall c :: c in a ==> c in b && a[c] <= b[c]
  }

  /** Shard s keeps its data, and at most goes from GCing to Serving. */
  ghost predicate Quiet(g: Group, g': Group, s: nat) {
    && g'.gid == g.gid && g'.config == g.config && DedupLe(g.dedup, g'.dedup)
    && (s in g'.shards <==> s in g.shards)
    && (s in g.shards ==>
          && g'.shards[s].data == g.shards[s].data
          && (g'.shards[s].state == g.shards[s].state || (g.shards[s].state == GCing && g'.shards[s].state == Serving)))
  }

  /** The log did not change for shard s. */
  ghost predicate LogQuiet(log: seq<ClientOp>, log': seq<ClientOp>, s: nat) {
    || log' == log
    || (|log'| == |log| + 1 && log'[..|log|] == log && Key2Shard(log'[|log|].key) != s)
  }

  lemma CoversQuiet(a: Dedup, b: Dedup, log: seq<ClientOp>, log': seq<ClientOp>, s: nat)
    requires LogQuiet(log, log', s) && DedupLe(a, b) && Covers(a, log, s)
    ensures Covers(b, log', s)
  {
    forall i | 0 <= i < |log'| && Key2Shard(log'[i].key) == s
      ensures log'[i].client in b && b[log'[i].client] >= log'[i].seqNo
    {
      assert i < |log|;
      assert log'[i] == log'[..|log|][i];
    }
  }

  lemma TruthQuiet(log: seq<ClientOp>, log': seq<ClientOp>, s: nat)
    requires LogQuiet(log, log', s)
    ensures Truth(log', s) == Truth(log, s)
    ensures Unowned(log, s) ==> Unowned(log', s)
  {
    if log' != log {
      assert log'[..|log'| - 1] == log;
      assert forall i :: 0 <= i < |log| ==> log'[i] == log'[..|log|][i];
    }
  }
}
