/** What the shard controller guarantees over every run of its replicas. */
module CtrlerTheorems {
  import opened Common
  import opened Assignment
  import opened ShardCtrler
  import ShardServer
  import ShardMigration

  // ----- runs -----

  /** A replica applies the entries of one log in order; entries may be delivered again. */
  ghost predicate IsRun(log: seq<Op>, at: seq<nat>, sts: seq<State>) {
    && |sts| == |at| + 1 && sts[0] == INIT
    && forall i :: 0 <= i < |at| ==>
         && 1 <= at[i] <= |log| && at[i] <= sts[i].lastApplied + 1
         && WfState(sts[i]) && Applied(sts[i], at[i], log[at[i] - 1], sts[i + 1])
  }

  lemma AppliedWf(st: State, index: nat, op: Op, st': State)
    requires WfState(st) && Applied(st, index, op, st')
    ensures WfState(st') && st.configs <= st'.configs
    ensures st'.lastApplied == if index <= st.lastApplied then st.lastApplied else index
  {
    if index > st.lastApplied && TakesEffect(st, op) {
      assert st'.configs == st.configs + [Last(st')];
    }
  }

  lemma RunWf(log: seq<Op>, at: seq<nat>, sts: seq<State>, k: nat)
    requires IsRun(log, at, sts) && k < |sts|
    ensures WfState(sts[k])
  {
    if k > 0 {
      AppliedWf(sts[k - 1], at[k - 1], log[at[k - 1] - 1], sts[k]);
    }
  }

  lemma OneConfig(c: Config, op: Op, x: Config, y: Config)
    requires Mutated(c, op, x) && Mutated(c, op, y)
    ensures x == y
  {
    var groups := x.groups.Keys;
    if groups != {} && !op.Move? {
      OneResult(groups, if op.Join? then c.shards else Unassign(c.shards, Elements(op.gids)), x.shards, y.shards);
    }
  }

  lemma OneOutcome(st: State, index: nat, op: Op, x: State, y: State)
    requires WfState(st) && Applied(st, index, op, x) && Applied(st, index, op, y)
    ensures x == y
  {
    if index > st.lastApplied && TakesEffect(st, op) {
      hide Mutated;
      OneConfig(Last(st), op, Last(x), Last(y));
      assert x.configs == st.configs + [Last(x)] && y.configs == st.configs + [Last(y)];
    }
  }

  /** The log decides the state: replicas that have applied as much of it are equal. */
  lemma {:induction false} SameState(log: seq<Op>, at: seq<nat>, sts: seq<State>, i: nat, at': seq<nat>,
                                     sts': seq<State>, j: nat)
    requires IsRun(log, at, sts) && IsRun(log, at', sts') && i < |sts| && j < |sts'|
    requires sts[i].lastApplied == sts'[j].lastApplied
    ensures sts[i] == sts'[j]
    decreases i + j
  {
    hide Applied, WfState;
    if i > 0 {
      Stepped(log, at, sts, i - 1);
    }
    if j > 0 {
      Stepped(log, at', sts', j - 1);
    }
    if i > 0 && sts[i] == sts[i - 1] {
      SameState(log, at, sts, i - 1, at', sts', j);
    } else if j > 0 && sts'[j] == sts'[j - 1] {
      SameState(log, at, sts, i, at', sts', j - 1);
    } else if i > 0 && j > 0 {
      SameState(log, at, sts, i - 1, at', sts', j - 1);
      OneOutcome(sts[i - 1], at[i - 1], log[at[i - 1] - 1], sts[i], sts'[j]);
    }
  }

  lemma Stepped(log: seq<Op>, at: seq<nat>, sts: seq<State>, i: nat)
    requires IsRun(log, at, sts) && i < |at|
    ensures sts[i + 1] == sts[i] || (at[i] == sts[i + 1].lastApplied == sts[i].lastApplied + 1)
    ensures sts[i].configs <= sts[i + 1].configs && WfState(sts[i]) && WfState(sts[i + 1])
    ensures Applied(sts[i], at[i], log[at[i] - 1], sts[i + 1])
  {
    AppliedWf(sts[i], at[i], log[at[i] - 1], sts[i + 1]);
  }

  lemma {:induction false} Reached(log: seq<Op>, at: seq<nat>, sts: seq<State>, j: nat, n: nat) returns (k: nat)
    requires IsRun(log, at, sts) && j < |sts| && n <= sts[j].lastApplied
    ensures k <= j && sts[k].lastApplied == n && sts[k].configs <= sts[j].configs
  {
    hide Applied, WfState;
    k := j;
    while sts[k].lastApplied != n
      invariant k <= j && n <= sts[k].lastApplied && sts[k].configs <= sts[j].configs
      decreases k
    {
      Stepped(log, at, sts, k - 1);
      k := k - 1;
    }
  }

  /** Of any two replicas, one has all the configurations of the other. */
  lemma ReplicasAgree(log: seq<Op>, at: seq<nat>, sts: seq<State>, i: nat, at': seq<nat>, sts': seq<State>, j: nat)
    requires IsRun(log, at, sts) && IsRun(log, at', sts') && i < |sts| && j < |sts'|
    ensures sts[i].configs <= sts'[j].configs || sts'[j].configs <= sts[i].configs
  {
    hide IsRun;
    if sts[i].lastApplied <= sts'[j].lastApplied {
      var k := Reached(log, at', sts', j, sts[i].lastApplied);
      SameState(log, at, sts, i, at', sts', k);
    } else {
      var k := Reached(log, at, sts, i, sts'[j].lastApplied);
      SameState(log, at', sts', j, at, sts, k);
    }
  }

  // ----- which commands take effect -----

  /** dedup has the highest number of each client among the first n entries, queries aside. */
  ghost predicate Remembers(log: seq<Op>, n: nat, dedup: map<int, int>)
    requires n <= |log|
  {
    && (forall i :: 0 <= i < n && !log[i].Query? ==>
          log[i].client in dedup && log[i].seqNo <= dedup[log[i].client])
    && (forall c :: c in dedup ==>
          exists i :: 0 <= i < n && !log[i].Query? && log[i].client == c && log[i].seqNo == dedup[c])
  }

  ghost predicate Newest(log: seq<Op>, n: nat)
    requires n < |log|
  {
    forall i :: 0 <= i < n && !log[i].Query? && log[i].client == log[n].client ==> log[i].seqNo < log[n].seqNo
  }

  lemma RemembersNext(log: seq<Op>, n: nat, st: State, st': State)
    requires n < |log| && WfState(st) && st.lastApplied == n && Remembers(log, n, st.dedup)
    requires Applied(st, n + 1, log[n], st')
    ensures Remembers(log, n + 1, st'.dedup)
  {
    forall c | c in st'.dedup
      ensures exists i :: 0 <= i < n + 1 && !log[i].Query? && log[i].client == c && log[i].seqNo == st'.dedup[c]
    {
      if !(TakesEffect(st, log[n]) && c == log[n].client) {
        var i :| 0 <= i < n && !log[i].Query? && log[i].client == c && log[i].seqNo == st.dedup[c];
      }
    }
  }

  lemma RemembersNothing(log: seq<Op>)
    ensures Remembers(log, 0, map[])
  {
  }

  lemma {:induction false} RunRemembers(log: seq<Op>, at: seq<nat>, sts: seq<State>, k: nat)
    requires IsRun(log, at, sts) && k < |sts|
    ensures sts[k].lastApplied <= |log| && Remembers(log, sts[k].lastApplied, sts[k].dedup)
  {
    hide Remembers, Applied, WfState;
    if k == 0 {
      RemembersNothing(log);
    } else {
      RunRemembers(log, at, sts, k - 1);
      Stepped(log, at, sts, k - 1);
      if sts[k] != sts[k - 1] {
        RemembersNext(log, at[k - 1] - 1, sts[k - 1], sts[k]);
      }
    }
  }

  /** An entry makes a new configuration exactly if it is applied for the first time, is
      not a query, and has a higher number than all its client's entries before it. */
  lemma ChangesIff(log: seq<Op>, at: seq<nat>, sts: seq<State>, k: nat)
    requires IsRun(log, at, sts) && k < |at|
    ensures var n := at[k] - 1;
            if n == sts[k].lastApplied && !log[n].Query? && Newest(log, n) then
              |sts[k + 1].configs| == |sts[k].configs| + 1
            else sts[k + 1].configs == sts[k].configs
  {
    hide Mutated;
    RunRemembers(log, at, sts, k);
    var st, n := sts[k], at[k] - 1;
    if n == st.lastApplied && log[n].client in st.dedup {
      var i :| 0 <= i < n && !log[i].Query? && log[i].client == log[n].client
               && log[i].seqNo == st.dedup[log[n].client];
    }
  }

  // ----- loads and moves -----

  /** The groups have their target loads, or there are none and nobody has a shard. */
  ghost predicate Levelled(c: Config) {
    && |c.shards| == NSHARDS
    && (c.groups.Keys == {} ==> forall s :: 0 <= s < NSHARDS ==> c.shards[s] == 0)
    && (c.groups.Keys != {} ==> AtTarget(c.groups.Keys, c.shards))
  }

  lemma StepLevels(c: Config, op: Op, c': Config)
    requires |c.shards| == NSHARDS && Mutated(c, op, c') && !op.Move?
    ensures Levelled(c')
  {
  }

  /** From level loads, a join moves shards only to new groups and a leave only those of
      the groups that left. */
  lemma OnlyNeeded(c: Config, op: Op, c': Config, s: nat)
    requires Levelled(c) && Mutated(c, op, c') && 0 !in c.groups && 0 !in c'.groups
    requires s < NSHARDS && c.shards[s] != c'.shards[s]
    ensures op.Join? ==> c'.shards[s] in op.servers && c'.shards[s] !in c.groups
    ensures op.Leave? ==> c.shards[s] in op.gids
    ensures op.Move? ==> s == op.shard
  {
    hide Rebalanced, AtTarget;
    var present, groups := c.groups.Keys, c'.groups.Keys;
    if op.Join? {
      if groups != {} {
        JoinMoves(present, groups, c.shards, c'.shards, s);
      }
    } else if op.Leave? {
      assert groups == present - Elements(op.gids);
      if groups != {} {
        LeaveMoves(present, Elements(op.gids), c.shards, c'.shards, s);
      } else if present != {} {
        InGroups(c, s);
        assert c.shards[s] !in groups;
      }
    }
  }

  /** What the controller was asked for. */
  ghost predicate NoMoves(log: seq<Op>) {
    forall i :: 0 <= i < |log| ==> !log[i].Move?
  }

  ghost predicate NoZero(log: seq<Op>) {
    forall i :: 0 <= i < |log| && log[i].Join? ==> 0 !in log[i].servers
  }

  /** As long as nobody moves shards by hand, every configuration of every replica is level;
      and after moves, every join or leave levels the loads again. */
  lemma {:induction false} RunLevelled(log: seq<Op>, at: seq<nat>, sts: seq<State>, k: nat)
    requires IsRun(log, at, sts) && k < |sts|
    ensures NoMoves(log) ==> forall i :: 0 <= i < |sts[k].configs| ==> Levelled(sts[k].configs[i])
    ensures k > 0 && sts[k].configs != sts[k - 1].configs && !log[at[k - 1] - 1].Move? ==> Levelled(Last(sts[k]))
    decreases k
  {
    hide Mutated, Levelled;
    if k == 0 {
      FirstLevelled();
    } else {
      RunLevelled(log, at, sts, k - 1);
      var st, op := sts[k - 1], log[at[k - 1] - 1];
      if at[k - 1] > st.lastApplied && TakesEffect(st, op) {
        assert sts[k].configs == st.configs + [Last(sts[k])];
        if !op.Move? {
          StepLevels(Last(st), op, Last(sts[k]));
        }
      }
    }
  }

  lemma FirstLevelled()
    ensures Levelled(FIRST)
  {
    assert FIRST.groups.Keys == {};
  }

  lemma {:induction false} RunNoZero(log: seq<Op>, at: seq<nat>, sts: seq<State>, k: nat)
    requires IsRun(log, at, sts) && NoZero(log) && k < |sts|
    ensures |sts[k].configs| > 0 && 0 !in Last(sts[k]).groups
    decreases k
  {
    hide Spread;
    if k > 0 {
      RunNoZero(log, at, sts, k - 1);
    }
  }

  /** In every run without moves and without group 0, each step moves only what it must: a
      join only to new groups, a leave only the leavers' shards. */
  lemma RunMovesNeeded(log: seq<Op>, at: seq<nat>, sts: seq<State>, k: nat, s: nat)
    requires IsRun(log, at, sts) && NoMoves(log) && NoZero(log) && k < |at| && s < NSHARDS
    ensures WfState(sts[k]) && WfState(sts[k + 1])
    ensures var c, op, c' := Last(sts[k]), log[at[k] - 1], Last(sts[k + 1]);
            || c.shards[s] == c'.shards[s]
            || (op.Join? && c'.shards[s] in op.servers && c'.shards[s] !in c.groups)
            || (op.Leave? && c.shards[s] in op.gids)
  {
    hide Mutated, Levelled;
    RunWf(log, at, sts, k);
    RunWf(log, at, sts, k + 1);
    if Last(sts[k]).shards[s] != Last(sts[k + 1]).shards[s] {
      RunLevelled(log, at, sts, k);
      RunNoZero(log, at, sts, k);
      RunNoZero(log, at, sts, k + 1);
      var op := log[at[k] - 1];
      OnlyNeeded(Last(sts[k]), op, Last(sts[k + 1]), s);
      NotQuery(Last(sts[k]), op, Last(sts[k + 1]));
    }
  }

  lemma NotQuery(c: Config, op: Op, c': Config)
    requires Mutated(c, op, c')
    ensures !op.Query?
  {
  }

  lemma InGroups(c: Config, s: nat)
    requires Levelled(c) && c.groups.Keys != {} && s < NSHARDS
    ensures c.shards[s] in c.groups.Keys
  {
  }

  // ----- what the groups are told -----

  /** The groups are never all removed, group 0 never joins, and shards are moved to groups that exist. */
  ghost predicate Sensible(c: Config, op: Op) {
    && (op.Join? ==> 0 !in op.servers)
    && (op.Leave? && c.groups.Keys != {} ==> c.groups.Keys - Elements(op.gids) != {})
    && (op.Move? ==> op.gid in c.groups)
  }

  ghost predicate SensibleRun(log: seq<Op>, at: seq<nat>, sts: seq<State>)
    requires IsRun(log, at, sts)
  {
    forall i :: 0 <= i < |at| && TakesEffect(sts[i], log[at[i] - 1]) ==> Sensible(Last(sts[i]), log[at[i] - 1])
  }

  ghost predicate Owned(c: Config) {
    && |c.shards| == NSHARDS && 0 !in c.groups
    && forall s :: 0 <= s < NSHARDS ==> if c.groups.Keys == {} then c.shards[s] == 0 else c.shards[s] in c.groups
  }

  lemma OwnedStep(c: Config, op: Op, c': Config)
    requires Owned(c) && Sensible(c, op) && Mutated(c, op, c')
    ensures Owned(c') && (c.groups.Keys != {} ==> c'.groups.Keys != {})
  {
    if op.Join? {
      assert c.groups.Keys <= c'.groups.Keys;
    } else if op.Leave? {
      assert c'.groups.Keys == c.groups.Keys - Elements(op.gids);
    }
  }

  ghost predicate Good(cs: seq<Config>) {
    && |cs| > 0 && cs[0] == FIRST
    && (forall i :: 0 <= i < |cs| ==> cs[i].num == i && Owned(cs[i]))
    && (forall i, j :: 0 <= i <= j < |cs| && cs[i].groups.Keys != {} ==> cs[j].groups.Keys != {})
  }

  lemma GoodStep(cs: seq<Config>, op: Op, c': Config)
    requires Good(cs) && Sensible(cs[|cs| - 1], op) && Mutated(cs[|cs| - 1], op, c')
    ensures Good(cs + [c'])
  {
    hide Owned, Mutated, Sensible;
    OwnedStep(cs[|cs| - 1], op, c');
    NextNum(cs[|cs| - 1], op, c');
  }

  lemma NextNum(c: Config, op: Op, c': Config)
    requires Mutated(c, op, c')
    ensures c'.num == c.num + 1
  {
  }

  lemma {:induction false} RunGood(log: seq<Op>, at: seq<nat>, sts: seq<State>, k: nat)
    requires IsRun(log, at, sts) && SensibleRun(log, at, sts) && k < |sts|
    ensures Good(sts[k].configs)
    decreases k
  {
    hide Good, Sensible, Mutated;
    if k == 0 {
      FirstGood();
    } else {
      RunGood(log, at, sts, k - 1);
      var st, op := sts[k - 1], log[at[k - 1] - 1];
      if at[k - 1] > st.lastApplied && TakesEffect(st, op) {
        GoodStep(st.configs, op, Last(sts[k]));
        assert sts[k].configs == st.configs + [Last(sts[k])];
      }
    }
  }

  lemma FirstGood()
    ensures Good([FIRST])
  {
  }

  /** The configurations as a replica group reads them, and every group they name. */
  function Told(cs: seq<Config>): seq<ShardServer.Config> {
    seq(|cs|, i requires 0 <= i < |cs| => ShardServer.Config(cs[i].num, cs[i].shards))
  }

  function Named(cs: seq<Config>): (r: set<int>)
    ensures forall i, g :: 0 <= i < |cs| && g in cs[i].groups ==> g in r
    ensures forall g :: g in r ==> exists i :: 0 <= i < |cs| && g in cs[i].groups
  {
    if cs == [] then {} else Named(cs[..|cs| - 1]) + cs[|cs| - 1].groups.Keys
  }

  lemma GoodNumbered(cs: seq<Config>)
    requires Good(cs)
    ensures ShardMigration.Numbered(Told(cs), Named(cs))
  {
    hide Owned;
    forall n | 0 <= n < |cs|
      ensures |cs[n].shards| == NSHARDS && 0 !in cs[n].groups
      ensures forall s :: 0 <= s < NSHARDS ==> cs[n].shards[s] == 0 || cs[n].shards[s] in cs[n].groups
    {
      OwnedShards(cs[n]);
    }
  }

  lemma OwnedShards(c: Config)
    requires Owned(c)
    ensures |c.shards| == NSHARDS && 0 !in c.groups
    ensures forall s :: 0 <= s < NSHARDS ==> c.shards[s] == 0 || c.shards[s] in c.groups
  {
  }

  lemma GoodKeeps(cs: seq<Config>)
    requires Good(cs)
    ensures forall i, j, s :: 0 <= i <= j < |cs| && 0 <= s < NSHARDS && Told(cs)[i].shards[s] != 0 ==>
              Told(cs)[j].shards[s] != 0
  {
    forall i, j, s | 0 <= i <= j < |cs| && 0 <= s < NSHARDS && cs[i].shards[s] != 0
      ensures cs[j].shards[s] != 0
    {
      assert Owned(cs[i]) && Owned(cs[j]);
    }
  }

  /** A sensibly used controller gives the groups configurations under which shard
      migration keeps its promises. */
  lemma FeedsGroups(log: seq<Op>, at: seq<nat>, sts: seq<State>, k: nat)
    requires IsRun(log, at, sts) && SensibleRun(log, at, sts) && k < |sts|
    ensures ShardMigration.ConfigsOk(Told(sts[k].configs), Named(sts[k].configs))
  {
    hide IsRun, SensibleRun, Good;
    RunGood(log, at, sts, k);
    GoodNumbered(sts[k].configs);
    GoodKeeps(sts[k].configs);
  }
}
