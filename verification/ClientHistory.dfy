/** What clients of a key/value service see: requests with the times of their call and
    return.  If every request has a moment between the two at which it acts on the one
    store, the history is linearizable against the checker's own model. */
module ClientHistory {
  import opened Common
  import opened Linearizability
  import opened KvModel
  import opened ShardServer

  /** The value a request returned, when it returned, and the step that answered it. */
  datatype Returned = Returned(value: string, ret: nat, step: nat)

  datatype Request = Request(op: ClientOp, call: nat, answer: Option<Returned>)

  function InputOf(op: ClientOp): KvInput {
    KvInput(if op.kind == Get then 0 else if op.kind == Put then 1 else 2, op.key, op.value)
  }

  /** A request that has not returned counts as pending until the end. */
  function OpOf(r: Request, end: nat): KvOp {
    if r.answer.Some? then Op(InputOf(r.op), r.call, KvOutput(r.answer.value.value), r.answer.value.ret)
    else Op(InputOf(r.op), r.call, KvOutput(""), end)
  }

  /** The requests of the history: those that returned, and those that took effect. */
  function Counted(rs: seq<Request>, took: seq<bool>): (ids: seq<nat>)
    requires |took| == |rs|
    ensures forall i :: 0 <= i < |ids| ==> ids[i] < |rs| && (rs[ids[i]].answer.Some? || took[ids[i]])
  {
    if rs == [] then []
    else
      var k := |rs| - 1;
      Counted(rs[..k], took[..k]) + if rs[k].answer.Some? || took[k] then [k] else []
  }

  function History(rs: seq<Request>, took: seq<bool>, end: nat): (h: seq<KvOp>)
    requires |took| == |rs|
  {
    var ids := Counted(rs, took);
    seq(|ids|, i requires 0 <= i < |ids| => OpOf(rs[ids[i]], end))
  }

  lemma {:induction false} CountedAll(rs: seq<Request>, took: seq<bool>, q: nat)
    requires |took| == |rs| && q < |rs| && (rs[q].answer.Some? || took[q])
    ensures q in Counted(rs, took)
    decreases |rs|
  {
    if q < |rs| - 1 {
      CountedAll(rs[..|rs| - 1], took[..|rs| - 1], q);
    }
  }

  ghost predicate Rising(ids: seq<nat>) {
    forall i, j :: 0 <= i < j < |ids| ==> ids[i] < ids[j]
  }

  lemma {:induction false} CountedRises(rs: seq<Request>, took: seq<bool>)
    requires |took| == |rs|
    ensures Rising(Counted(rs, took))
    decreases |rs|
  {
    if rs != [] {
      var k := |rs| - 1;
      CountedRises(rs[..k], took[..k]);
      var front, ids := Counted(rs[..k], took[..k]), Counted(rs, took);
      assert forall i :: 0 <= i < |front| ==> front[i] < k;
      assert ids == front || ids == front + [k];
    }
  }

  // ----- points -----

  /** Two stores that look the same: an absent key reads as "". */
  ghost predicate Same(a: Store, b: Store) {
    forall key :: Value(a, key) == Value(b, key)
  }

  /** The operation is allowed in a and leads to b. */
  ghost predicate Leads(a: Store, inp: KvInput, out: KvOutput, b: Store) {
    var (ok, st) := MapStep(a, inp, out);
    ok && Same(st, b)
  }

  lemma LeadsSame(a: Store, a': Store, inp: KvInput, out: KvOutput, b: Store)
    requires Same(a, a') && Leads(a, inp, out, b)
    ensures Leads(a', inp, out, b)
  {
    var (ok, st) := MapStep(a, inp, out);
    var (ok', st') := MapStep(a', inp, out);
    assert Value(a, inp.key) == Value(a', inp.key);
    forall key
      ensures Value(st', key) == Value(b, key)
    {
      assert Value(st, key) == Value(b, key) && Value(a, key) == Value(a', key);
    }
  }

  /** The operations with points before t, in the order of their points. */
  ghost function Before(pts: seq<nat>, t: nat): (ids: seq<nat>)
    ensures InRange(|pts|, ids)
  {
    if t == 0 then []
    else if exists id: nat :: id < |pts| && pts[id] == t - 1 then
      var id: nat :| id < |pts| && pts[id] == t - 1;
      Before(pts, t - 1) + [id]
    else Before(pts, t - 1)
  }

  ghost predicate RisingBy(pts: seq<nat>, ids: seq<nat>)
    requires InRange(|pts|, ids)
  {
    forall i, j :: 0 <= i < j < |ids| ==> pts[ids[i]] < pts[ids[j]]
  }

  lemma {:induction false} BeforeFacts(pts: seq<nat>, t: nat)
    requires Distinct(pts)
    ensures forall id: nat :: id in Before(pts, t) <==> id < |pts| && pts[id] < t
    ensures RisingBy(pts, Before(pts, t))
    decreases t
  {
    if t > 0 {
      BeforeFacts(pts, t - 1);
      var before, ids := Before(pts, t - 1), Before(pts, t);
      assert forall i :: 0 <= i < |before| ==> before[i] in before;
      assert forall i :: 0 <= i < |before| ==> pts[before[i]] < t - 1;
      forall id: nat
        ensures id in ids <==> id < |pts| && pts[id] < t
      {
        assert id in before <==> id < |pts| && pts[id] < t - 1;
      }
    }
  }

  /** Each operation acts at its point, and nothing else changes the store. */
  ghost predicate ActsAt(ops: seq<KvOp>, pts: seq<nat>, d: seq<Store>) {
    && |pts| == |ops| && |d| > 0 && Same(map[], d[0])
    && (forall id :: 0 <= id < |ops| ==>
          pts[id] + 1 < |d| && Leads(d[pts[id]], ops[id].input, ops[id].output, d[pts[id] + 1]))
    && (forall t: nat :: t + 1 < |d| && t !in pts ==> Same(d[t], d[t + 1]))
  }

  lemma {:induction false} RunTo(ops: seq<KvOp>, pts: seq<nat>, d: seq<Store>, t: nat)
    requires ActsAt(ops, pts, d) && t < |d|
    ensures InRange(|ops|, Before(pts, t))
    ensures var r := Run(STORE, ops, map[], Before(pts, t)); r.Some? && Same(r.value, d[t])
    decreases t
  {
    hide Run, Leads;
    if t == 0 {
      NothingRun(ops);
    } else {
      RunTo(ops, pts, d, t - 1);
      var before := Before(pts, t - 1);
      if id: nat :| id < |pts| && pts[id] == t - 1 && Before(pts, t) == before + [id] {
        RunAppend(STORE, ops, map[], before, id);
        LeadsOn(Run(STORE, ops, map[], before).value, d, ops[id], t - 1);
      } else {
        assert t - 1 !in pts;
        SameTrans(Run(STORE, ops, map[], before).value, d[t - 1], d[t]);
      }
    }
  }

  lemma NothingRun(ops: seq<KvOp>)
    ensures Run(STORE, ops, map[], []) == Some(map[])
  {
  }

  lemma LeadsOn(st: Store, d: seq<Store>, op: KvOp, t: nat)
    requires t + 1 < |d| && Same(st, d[t]) && Leads(d[t], op.input, op.output, d[t + 1])
    ensures var (ok, st') := STORE.step(st, op.input, op.output); ok && Same(st', d[t + 1])
  {
    LeadsSame(d[t], st, op.input, op.output, d[t + 1]);
  }

  lemma SameTrans(a: Store, b: Store, c: Store)
    requires Same(a, b) && Same(b, c)
    ensures Same(a, c)
  {
    forall key
      ensures Value(a, key) == Value(c, key)
    {
      assert Value(a, key) == Value(b, key);
    }
  }

  lemma PointsLinearize(ops: seq<KvOp>, pts: seq<nat>, d: seq<Store>)
    requires ActsAt(ops, pts, d) && Distinct(pts)
    requires forall a, b :: 0 <= a < |ops| && 0 <= b < |ops| && Precedes(ops[a], ops[b]) ==> pts[a] < pts[b]
    ensures Linearizable(STORE, ops)
  {
    hide Run, Leads, Same;
    var t := |d| - 1;
    var ids := Before(pts, t);
    BeforeFacts(pts, t);
    RunTo(ops, pts, d, t);
    assert Completion(STORE, ops, {}, STORE.init, ids);
  }

  // ----- requests -----

  ghost predicate Counts(r: Request, took: bool) {
    r.answer.Some? || took
  }

  /** pt gives every counted request its own moment; the store is d[t] before moment t. */
  ghost predicate RequestsAct(rs: seq<Request>, took: seq<bool>, end: nat, pt: seq<nat>, d: seq<Store>) {
    && |took| == |pt| == |rs| && |d| > 0 && Same(map[], d[0])
    && (forall q :: 0 <= q < |rs| && Counts(rs[q], took[q]) ==>
          && pt[q] + 1 < |d|
          && Leads(d[pt[q]], InputOf(rs[q].op), OpOf(rs[q], end).output, d[pt[q] + 1]))
    && (forall p, q :: 0 <= p < q < |rs| && Counts(rs[p], took[p]) && Counts(rs[q], took[q]) ==> pt[p] != pt[q])
    && (forall t: nat :: t + 1 < |d| && Idle(rs, took, pt, t) ==> Same(d[t], d[t + 1]))
  }

  ghost predicate Idle(rs: seq<Request>, took: seq<bool>, pt: seq<nat>, t: nat)
    requires |took| == |pt| == |rs|
  {
    forall q :: 0 <= q < |rs| && Counts(rs[q], took[q]) ==> pt[q] != t
  }

  /** What returned acted before what was called later. */
  ghost predicate InTime(rs: seq<Request>, took: seq<bool>, end: nat, pt: seq<nat>)
    requires |took| == |pt| == |rs|
  {
    forall p, q :: 0 <= p < |rs| && 0 <= q < |rs| && Counts(rs[p], took[p]) && Counts(rs[q], took[q]) ==>
      Precedes(OpOf(rs[p], end), OpOf(rs[q], end)) ==> pt[p] < pt[q]
  }

  lemma RequestsLinearize(rs: seq<Request>, took: seq<bool>, end: nat, pt: seq<nat>, d: seq<Store>)
    requires RequestsAct(rs, took, end, pt, d) && InTime(rs, took, end, pt)
    ensures Linearizable(STORE, History(rs, took, end))
  {
    hide Leads, Same, Linearizable;
    var ids, ops := Counted(rs, took), History(rs, took, end);
    var pts := seq(|ids|, i requires 0 <= i < |ids| => pt[ids[i]]);
    CountedRises(rs, took);
    forall t: nat | t + 1 < |d| && t !in pts
      ensures Same(d[t], d[t + 1])
    {
      forall q | 0 <= q < |rs| && Counts(rs[q], took[q])
        ensures pt[q] != t
      {
        CountedAll(rs, took, q);
        var i :| 0 <= i < |ids| && ids[i] == q;
        assert pts[i] == pt[q];
      }
    }
    assert ActsAt(ops, pts, d);
    PointsLinearize(ops, pts, d);
  }

  // ----- clients -----

  ghost predicate Asked(rs: seq<Request>, op: ClientOp) {
    exists q :: 0 <= q < |rs| && rs[q].op == op
  }

  /** b is a later request of the same client. */
  predicate Later(a: Request, b: Request) {
    a.op.client == b.op.client && a.op.seqNo < b.op.seqNo
  }

  /** Every request has a number of its own. */
  ghost predicate OwnNumbers(rs: seq<Request>) {
    forall p, q :: 0 <= p < q < |rs| ==> !SameRequest(rs[p].op, rs[q].op)
  }

  lemma OneNumber(rs: seq<Request>, p: nat, q: nat)
    requires p < |rs| && q < |rs| && OwnNumbers(rs)
    ensures SameRequest(rs[p].op, rs[q].op) ==> p == q
  {
    if p < q {
      assert !SameRequest(rs[p].op, rs[q].op);
    } else if q < p {
      assert !SameRequest(rs[q].op, rs[p].op);
    }
  }
}
