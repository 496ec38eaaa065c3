/** One replica group of the sharded store: its state, and what each committed
    operation does to it. */
module ShardServer {
  import opened Common

  const SHARD_IDS: set<nat> := {0, 1, 2, 3, 4, 5, 6, 7, 8, 9}

  /** An assignment of shards to groups; group 0 is the invalid group. */
  datatype Config = Config(num: nat, shards: seq<int>)

  const NO_CONFIG := Config(0, [0, 0, 0, 0, 0, 0, 0, 0, 0, 0])

  datatype ShardState = Serving | Pulling | BePulling | GCing

  type Data = map<string, string>

  datatype Shard = Shard(data: Data, state: ShardState)

  /** clientId -> last applied sequence number. */
  type Dedup = map<int, int>

  datatype Group = Group(gid: int, shards: map<nat, Shard>, dedup: Dedup, config: Config, prevConfig: Config)

  datatype Kind = Get | Put | Append

  datatype ClientOp = ClientOp(kind: Kind, key: string, value: string, client: int, seqNo: int)

  predicate SameRequest(a: ClientOp, b: ClientOp) {
    a.client == b.client && a.seqNo == b.seqNo
  }

  datatype Err = OK | ErrNoKey | ErrWrongGroup | ErrWrongLeader

  datatype Reply = Reply(err: Err, value: string)

  function Key2Shard(key: string): (s: nat)
    ensures s < NSHARDS
  {
    if |key| > 0 then (key[0] as int) % NSHARDS else 0
  }

  /** Only the first character decides, keys ten characters apart share a shard, and the ten
      digits reach all ten shards. */
  lemma KeysSpread(key: string, other: string, d: nat)
    requires d < 10
    ensures key != [] && other != [] ==>
              (Key2Shard(key) == Key2Shard(other) <==> (key[0] as int - other[0] as int) % 10 == 0)
    ensures Key2Shard([('0' as int + d) as char] + key) == (d + 8) % 10 && Key2Shard("") == 0
  {
  }

  predicate WfGroup(g: Group) {
    |g.config.shards| == NSHARDS && |g.prevConfig.shards| == NSHARDS
  }

  predicate CanServe(g: Group, s: nat)
    requires WfGroup(g) && s < NSHARDS
  {
    g.config.shards[s] == g.gid && s in g.shards && g.shards[s].state == Serving
  }

  // ----- client operations -----

  function Lookup(d: Data, key: string): string {
    if key in d then d[key] else ""
  }

  function Write(d: Data, op: ClientOp): Data {
    d[op.key := if op.kind == Put then op.value else Lookup(d, op.key) + op.value]
  }

  predicate Duplicate(g: Group, op: ClientOp) {
    op.client in g.dedup && op.seqNo <= g.dedup[op.client]
  }

  /** Whether op changes the data of its shard here. */
  predicate Effective(g: Group, op: ClientOp)
    requires WfGroup(g)
  {
    CanServe(g, Key2Shard(op.key)) && op.kind != Get && !Duplicate(g, op)
  }

  function ApplyClientOp(g: Group, op: ClientOp): (Group, Reply)
    requires WfGroup(g)
  {
    var s := Key2Shard(op.key);
    if !CanServe(g, s) then (g, Reply(ErrWrongGroup, ""))
    else if op.kind == Get then
      (g, if op.key in g.shards[s].data then Reply(OK, g.shards[s].data[op.key]) else Reply(ErrNoKey, ""))
    else if Duplicate(g, op) then (g, Reply(OK, ""))
    else
      (g.(shards := g.shards[s := g.shards[s].(data := Write(g.shards[s].data, op))],
          dedup := g.dedup[op.client := op.seqNo]),
       Reply(OK, ""))
  }

  // ----- configurations -----

  predicate Settled(g: Group) {
    forall s :: s in g.shards ==> g.shards[s].state == Serving
  }

  function Held(g: Group, s: nat): Option<Shard> {
    if s in g.shards then Some(g.shards[s]) else None
  }

  /** What a held (or not held) shard becomes when its owner changes. */
  function Rehouse(gid: int, oldGid: int, newGid: int, held: Option<Shard>): Option<Shard> {
    if newGid != gid then
      if oldGid == gid && held.Some? then Some(held.value.(state := BePulling)) else held
    else if oldGid == gid || oldGid == 0 then
      Some(if held.Some? then held.value.(state := Serving) else Shard(map[], Serving))
    else Some(Shard(map[], Pulling))
  }

  /** What shard s becomes in the next configuration; None if the group does not hold it. */
  function Reassign(g: Group, next: Config, s: nat): Option<Shard>
    requires WfGroup(g) && |next.shards| == NSHARDS && s < NSHARDS
  {
    Rehouse(g.gid, g.config.shards[s], next.shards[s], Held(g, s))
  }

  function ApplyConfig(g: Group, next: Config): Group
    requires WfGroup(g) && |next.shards| == NSHARDS
  {
    if next.num != g.config.num + 1 || !Settled(g) then g
    else
      g.(prevConfig := g.config, config := next,
         shards := map s | s in g.shards.Keys + SHARD_IDS && (s < NSHARDS ==> Reassign(g, next, s).Some?) ::
           if s < NSHARDS then Reassign(g, next, s).value else g.shards[s])
  }

  // ----- migration -----

  /** What PullShard answers: the data of the shards asked for, and all of dedup. */
  datatype Pulled = Pulled(data: map<nat, Data>, dedup: Dedup)

  function PullShard(g: Group, configNum: nat, shards: set<nat>): Option<Pulled> {
    if configNum > g.config.num then None
    else Some(Pulled(map s | s in shards :: if s in g.shards then g.shards[s].data else map[], g.dedup))
  }

  function MergeDedup(a: Dedup, b: Dedup): (r: Dedup)
    ensures r.Keys == a.Keys + b.Keys
    ensures forall c :: c in a ==> a[c] <= r[c]
    ensures forall c :: c in b ==> b[c] <= r[c]
    ensures forall c :: c in r ==> (c in a && r[c] == a[c]) || (c in b && r[c] == b[c])
  {
    map c | c in a.Keys + b.Keys :: if c !in a || (c in b && b[c] > a[c]) then b[c] else a[c]
  }

  /** A shard after an install of shards, and after their deletion. */
  function Installed(x: Shard, s: nat, shards: set<nat>, p: Pulled): Shard {
    if s in shards && x.state == Pulling then Shard(if s in p.data then p.data[s] else map[], GCing) else x
  }

  function ApplyInstallShard(g: Group, configNum: nat, shards: set<nat>, p: Pulled): Group {
    if configNum != g.config.num then g
    else
      g.(shards := map s | s in g.shards :: Installed(g.shards[s], s, shards, p), dedup := MergeDedup(g.dedup, p.dedup))
  }

  function Confirmed(x: Shard, s: nat, shards: set<nat>): Shard {
    if s in shards && x.state == GCing then x.(state := Serving) else x
  }

  function ApplyDeleteShard(g: Group, configNum: nat, shards: set<nat>): Group {
    if configNum != g.config.num then g
    else
      g.(shards := map s | s in g.shards && !(s in shards && g.shards[s].state == BePulling) ::
          Confirmed(g.shards[s], s, shards))
  }
}
