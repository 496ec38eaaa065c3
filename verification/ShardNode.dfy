/** The group's replica as it is written: an object whose apply methods update its
    shards, dedup table and configurations in place. */
module ShardNode {
  import opened Common
  import opened Counting
  import opened ShardServer

  /** Merge dedup tables, keeping the larger number of each client. */
  method JoinDedup(mine: Dedup, other: Dedup) returns (dedup: Dedup)
    ensures dedup == MergeDedup(mine, other)
  {
    dedup := mine;
    var left := other.Keys;
    while exists c :: c in left
      invariant left <= other.Keys
      invariant dedup.Keys == mine.Keys + (other.Keys - left)
      invariant forall c :: c in left && c in mine ==> dedup[c] == mine[c]
      invariant forall c :: c in dedup && c !in left ==> dedup[c] == MergeDedup(mine, other)[c]
      decreases left
    {
      var cid :| cid in left;
      var seqNo := other[cid];
      if cid !in dedup || seqNo > dedup[cid] {
        dedup := dedup[cid := seqNo];
      }
      left := left - {cid};
    }
    ghost var to := MergeDedup(mine, other);
    assert forall c :: c in dedup <==> c in to;
    forall c | c in dedup
      ensures dedup[c] == to[c]
    {
      assert c !in left;
    }
    SameMap(dedup, to);
  }

  class ShardKV {
    const gid: int
    var shards: map<nat, Shard>
    var dedup: Dedup
    var config: Config
    var prevConfig: Config

    ghost function State(): Group
      reads this
    {
      Group(gid, shards, dedup, config, prevConfig)
    }

    ghost predicate Valid()
      reads this
    {
      WfGroup(State())
    }

    constructor (gid: int)
      ensures Valid() && State() == Group(gid, map[], map[], NO_CONFIG, NO_CONFIG)
    {
      this.gid := gid;
      shards, dedup, config, prevConfig := map[], map[], NO_CONFIG, NO_CONFIG;
    }

    method HandleClientOp(op: ClientOp) returns (reply: Reply)
      requires Valid()
      modifies this
      ensures (State(), reply) == ApplyClientOp(old(State()), op)
    {
      var s := Key2Shard(op.key);
      if config.shards[s] != gid {
        return Reply(ErrWrongGroup, "");
      }
      if s !in shards || shards[s].state != Serving {
        return Reply(ErrWrongGroup, "");
      }
      var data := shards[s].data;
      if op.kind == Get {
        return if op.key in data then Reply(OK, data[op.key]) else Reply(ErrNoKey, "");
      }
      if op.client in dedup && op.seqNo <= dedup[op.client] {
        return Reply(OK, "");
      }
      if op.kind == Put {
        data := data[op.key := op.value];
      } else {
        data := data[op.key := Lookup(data, op.key) + op.value];
      }
      shards := shards[s := shards[s].(data := data)];
      dedup := dedup[op.client := op.seqNo];
      return Reply(OK, "");
    }

    method IsSettled() returns (settled: bool)
      ensures settled <==> Settled(State())
    {
      var left := shards.Keys;
      while left != {}
        invariant left <= shards.Keys
        invariant forall s :: s in shards && s !in left ==> shards[s].state == Serving
        decreases left
      {
        var s :| s in left;
        if shards[s].state != Serving {
          return false;
        }
        left := left - {s};
      }
      return true;
    }

    method MoveShard(shard: nat, oldGid: int, newGid: int)
      modifies this`shards
      ensures Rehouse(gid, oldGid, newGid, Held(old(State()), shard)) == Held(State(), shard)
      ensures forall s :: s != shard ==> Held(State(), s) == Held(old(State()), s)
    {
      if newGid != gid {
        if oldGid == gid {
          if shard in shards {
            shards := shards[shard := shards[shard].(state := BePulling)];
          }
        }
        return;
      }
      if oldGid == gid || oldGid == 0 {
        if shard !in shards {
          shards := shards[shard := Shard(map[], Serving)];
        }
        shards := shards[shard := shards[shard].(state := Serving)];
      } else {
        shards := shards[shard := Shard(map[], Pulling)];
      }
    }

    method HandleConfig(next: Config)
      requires Valid() && |next.shards| == NSHARDS
      modifies this
      ensures Valid() && State() == ApplyConfig(old(State()), next)
    {
      if next.num != config.num + 1 {
        return;
      }
      var settled := IsSettled();
      if !settled {
        return;
      }
      hide Rehouse;
      ghost var g := State();
      var before := config;
      prevConfig := before;
      config := next;
      for shard := 0 to NSHARDS
        invariant config == next && prevConfig == before && dedup == g.dedup
        invariant forall s: nat :: s < shard ==> Held(State(), s) == Reassign(g, next, s)
        invariant forall s: nat :: s >= shard ==> Held(State(), s) == Held(g, s)
      {
        MoveShard(shard, before.shards[shard], next.shards[shard]);
      }
      AllReassigned(g, next, State());
    }

    /** Ten shards reassigned one by one are the next configuration. */
    static lemma AllReassigned(g: Group, next: Config, g': Group)
      requires WfGroup(g) && |next.shards| == NSHARDS && next.num == g.config.num + 1 && Settled(g)
      requires forall s: nat :: s < NSHARDS ==> Held(g', s) == Reassign(g, next, s)
      requires forall s: nat :: s >= NSHARDS ==> Held(g', s) == Held(g, s)
      ensures g'.shards == ApplyConfig(g, next).shards
    {
      hide Reassign;
      var to := ApplyConfig(g, next).shards;
      forall s: nat
        ensures s in g'.shards <==> s in to
        ensures s in to ==> g'.shards[s] == to[s]
      {
        assert s < NSHARDS ==> s in SHARD_IDS;
        if s < NSHARDS {
          assert Held(g', s) == Reassign(g, next, s);
        } else {
          assert Held(g', s) == Held(g, s);
        }
      }
    }

    method HandlePullShard(configNum: nat, list: seq<nat>) returns (r: Option<Pulled>)
      ensures r == PullShard(State(), configNum, (set s | s in list))
    {
      if configNum > config.num {
        return None;
      }
      var data: map<nat, Data> := map[];
      for i := 0 to |list|
        invariant data == map s | s in list[..i] :: if s in shards then shards[s].data else map[]
      {
        var shard := list[i];
        assert list[..i + 1] == list[..i] + [shard];
        data := data[shard := if shard in shards then shards[shard].data else map[]];
      }
      assert list[..|list|] == list;
      ghost var answer := PullShard(State(), configNum, (set s | s in list)).value.data;
      SameMap(data, answer);
      return Some(Pulled(data, dedup));
    }

    method InstallData(list: seq<nat>, p: Pulled)
      modifies this`shards
      ensures shards == map s | s in old(shards) :: Installed(old(shards)[s], s, (set x | x in list), p)
    {
      ghost var was := shards;
      for i := 0 to |list|
        invariant shards.Keys == was.Keys
        invariant forall s :: s in shards ==> shards[s] == Installed(was[s], s, (set x | x in list[..i]), p)
      {
        var shard := list[i];
        assert list[..i + 1] == list[..i] + [shard];
        if shard !in shards || shards[shard].state != Pulling {
          continue;
        }
        var data := if shard in p.data then p.data[shard] else map[];
        shards := shards[shard := Shard(data, GCing)];
      }
      assert list[..|list|] == list;
    }

    method HandleInstallShard(configNum: nat, list: seq<nat>, p: Pulled)
      modifies this
      ensures State() == ApplyInstallShard(old(State()), configNum, (set s | s in list), p)
    {
      if configNum != config.num {
        return;
      }
      InstallData(list, p);
      dedup := JoinDedup(dedup, p.dedup);
    }

    method HandleDeleteShard(configNum: nat, list: seq<nat>)
      modifies this
      ensures State() == ApplyDeleteShard(old(State()), configNum, (set s | s in list))
    {
      if configNum != config.num {
        return;
      }
      ghost var was := shards;
      for i := 0 to |list|
        invariant config == old(config) && prevConfig == old(prevConfig) && dedup == old(dedup)
        invariant forall s :: s in shards <==> s in was && !(s in list[..i] && was[s].state == BePulling)
        invariant forall s :: s in shards ==> shards[s] == Confirmed(was[s], s, (set x | x in list[..i]))
      {
        var shard := list[i];
        assert list[..i + 1] == list[..i] + [shard];
        if shard !in shards {
          continue;
        }
        if shards[shard].state == GCing {
          shards := shards[shard := shards[shard].(state := Serving)];
        } else if shards[shard].state == BePulling {
          shards := shards - {shard};
        }
      }
      assert list[..|list|] == list;
    }
  }
}
