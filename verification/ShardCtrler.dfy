/** The shard controller: a log of joins, leaves and moves folded into numbered
    configurations. */
module ShardCtrler {
  import opened Common
  import opened Assignment
  import opened Rebalancing

  /** shards[s] is the group of shard s; group 0 is the invalid group. */
  datatype Config = Config(num: nat, shards: seq<int>, groups: map<int, seq<string>>)

  datatype Op =
    | Join(servers: map<int, seq<string>>, client: int, seqNo: int)
    | Leave(gids: seq<int>, client: int, seqNo: int)
    | Move(shard: nat, gid: int, client: int, seqNo: int)
    | Query(num: int, client: int, seqNo: int)

  const FIRST := Config(0, [0, 0, 0, 0, 0, 0, 0, 0, 0, 0], map[])

  datatype State = State(configs: seq<Config>, dedup: map<int, int>, lastApplied: nat)

  const INIT := State([FIRST], map[], 0)

  ghost predicate WfState(st: State) {
    |st.configs| > 0 && forall i :: 0 <= i < |st.configs| ==> |st.configs[i].shards| == NSHARDS
  }

  /** Moving a shard that does not exist is an error in the caller. */
  predicate WfOp(op: Op) {
    op.Move? ==> op.shard < NSHARDS
  }

  function Elements(gids: seq<int>): set<int> {
    set g | g in gids
  }

  ghost predicate Spread(groups: set<int>, was: seq<int>, a: seq<int>) {
    && |a| == |was|
    && (groups == {} ==> forall s :: 0 <= s < |a| ==> a[s] == 0)
    && (groups != {} ==> Rebalanced(groups, was, a))
  }

  /** c' is what op makes of the configuration c. */
  ghost predicate Mutated(c: Config, op: Op, c': Config) {
    && c'.num == c.num + 1
    && match op
       case Join(servers, _, _) => c'.groups == c.groups + servers && Spread(c'.groups.Keys, c.shards, c'.shards)
       case Leave(gids, _, _) =>
         && c'.groups == c.groups - Elements(gids)
         && Spread(c'.groups.Keys, Unassign(c.shards, Elements(gids)), c'.shards)
       case Move(shard, gid, _, _) => c'.groups == c.groups && shard < |c.shards| && c'.shards == c.shards[shard := gid]
       case Query(_, _, _) => false
  }

  predicate TakesEffect(st: State, op: Op) {
    !op.Query? && (op.client !in st.dedup || op.seqNo > st.dedup[op.client])
  }

  function Last(st: State): Config
    requires |st.configs| > 0
  {
    st.configs[|st.configs| - 1]
  }

  /** What applying the log entry op at index does to a replica. */
  ghost predicate Applied(st: State, index: nat, op: Op, st': State)
    requires WfState(st)
  {
    if index <= st.lastApplied then st' == st
    else if !TakesEffect(st, op) then st' == st.(lastApplied := index)
    else
      && |st'.configs| == |st.configs| + 1 && st'.configs[..|st.configs|] == st.configs
      && Mutated(Last(st), op, Last(st'))
      && st'.dedup == st.dedup[op.client := op.seqNo] && st'.lastApplied == index
  }

  method CopyGroups(g: map<int, seq<string>>) returns (out: map<int, seq<string>>)
    ensures out == g
  {
    out := AddGroups(map[], g);
    assert map[] + g == g;
  }

  method AddGroups(groups: map<int, seq<string>>, more: map<int, seq<string>>) returns (out: map<int, seq<string>>)
    ensures out == groups + more
  {
    out := groups;
    var left := more.Keys;
    while exists g :: g in left
      invariant left <= more.Keys
      invariant out == groups + (map g | g in more && g !in left :: more[g])
      decreases left
    {
      var g :| g in left;
      out := out[g := more[g]];
      left := left - {g};
    }
    assert (map g | g in more && g !in left :: more[g]) == more;
  }

  method DropGroups(groups: map<int, seq<string>>, gids: seq<int>) returns (out: map<int, seq<string>>)
    ensures out == groups - Elements(gids)
  {
    out := groups;
    for i := 0 to |gids|
      invariant out == groups - Elements(gids[..i])
    {
      assert gids[..i + 1] == gids[..i] + [gids[i]];
      out := out - {gids[i]};
    }
    assert gids[..|gids|] == gids;
  }

  /** Unassign the shards of departed groups. */
  method ClearShards(shards: array<int>, gids: seq<int>)
    modifies shards
    ensures shards[..] == Unassign(old(shards[..]), Elements(gids))
  {
    for s := 0 to shards.Length
      invariant forall t :: 0 <= t < shards.Length ==>
        shards[t] == if t < s && old(shards[t]) in gids then 0 else old(shards[t])
    {
      if shards[s] in gids {
        shards[s] := 0;
      }
    }
  }

  class ShardCtrler {
    var configs: seq<Config>
    var dedup: map<int, int>
    var lastApplied: nat

    ghost function Value(): State
      reads this
    {
      State(configs, dedup, lastApplied)
    }

    ghost predicate Valid()
      reads this
    {
      WfState(Value())
    }

    constructor ()
      ensures Valid() && Value() == INIT
    {
      configs, dedup, lastApplied := [FIRST], map[], 0;
    }

    /** Configuration num, or the latest one if there is none of that number. */
    method ConfigAt(num: int) returns (c: Config)
      requires Valid()
      ensures 0 <= num < |configs| ==> c == configs[num]
      ensures !(0 <= num < |configs|) ==> c == configs[|configs| - 1]
    {
      if num < 0 || num >= |configs| {
        return configs[|configs| - 1];
      }
      return configs[num];
    }

    method ApplyMutation(op: Op)
      requires Valid() && WfOp(op) && !op.Query?
      modifies this`configs
      ensures Valid() && |configs| == |old(configs)| + 1 && configs[..|old(configs)|] == old(configs)
      ensures Mutated(Last(old(Value())), op, Last(Value()))
    {
      var last := configs[|configs| - 1];
      var shards := new int[NSHARDS](s requires 0 <= s < NSHARDS => last.shards[s]);
      assert shards[..] == last.shards;
      var groups := CopyGroups(last.groups);
      match op {
        case Join(servers, _, _) =>
          groups := AddGroups(groups, servers);
          Rebalance(shards, groups);
        case Leave(gids, _, _) =>
          groups := DropGroups(groups, gids);
          ClearShards(shards, gids);
          Rebalance(shards, groups);
        case Move(shard, gid, _, _) =>
          shards[shard] := gid;
      }
      configs := configs + [Config(last.num + 1, shards[..], groups)];
    }

    /** One committed entry. */
    method Apply(index: nat, op: Op)
      requires Valid() && WfOp(op)
      modifies this
      ensures Valid() && Applied(old(Value()), index, op, Value())
    {
      if index <= lastApplied {
        return;
      }
      lastApplied := index;
      if !op.Query? {
        if op.client !in dedup || op.seqNo > dedup[op.client] {
          ApplyMutation(op);
          dedup := dedup[op.client := op.seqNo];
        }
      }
    }
  }
}
