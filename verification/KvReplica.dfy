/** A replica of the key/value service: what it makes of committed commands, snapshots
    and restarts. */
module KvReplica {
  import opened Common
  import opened ShardServer

  datatype LastReply = LastReply(seqNo: int, value: string, err: Err)

  type Replies = map<int, LastReply>

  /** What applying a command yields, stamped with the command that was applied. */
  datatype Result = Result(err: Err, value: string, client: int, seqNo: int)

  /** The service's state, which is also what a snapshot saves. */
  datatype Store = Store(data: Data, dedup: Replies)

  const EMPTY := Store(map[], map[])

  predicate Seen(st: Store, op: ClientOp) {
    op.client in st.dedup && st.dedup[op.client].seqNo >= op.seqNo && op.kind != Get
  }

  /** Execute op, or answer it from the reply remembered for its client. */
  function Execute(st: Store, op: ClientOp): (Store, Result) {
    if Seen(st, op) then
      (st, Result(st.dedup[op.client].err, st.dedup[op.client].value, op.client, op.seqNo))
    else if op.kind == Get then
      (st, if op.key in st.data then Result(OK, st.data[op.key], op.client, op.seqNo)
           else Result(ErrNoKey, "", op.client, op.seqNo))
    else
      (Store(Write(st.data, op), st.dedup[op.client := LastReply(op.seqNo, "", OK)]),
       Result(OK, "", op.client, op.seqNo))
  }

  /** What the waiting request answers its client: a result of another command means
      that this one lost its place in the log. */
  function Answer(op: ClientOp, res: Result): Result {
    if res.client != op.client || res.seqNo != op.seqNo then Result(ErrWrongLeader, "", 0, 0) else res
  }

  class KVServer {
    var data: Data
    var dedup: Replies
    var lastApplied: nat
    var waiters: set<nat>   // log indices that requests wait for

    ghost function Value(): Store
      reads this
    {
      Store(data, dedup)
    }

    /** Start from the persisted snapshot, if there is one. */
    constructor (persisted: Option<Store>)
      ensures Value() == (if persisted.Some? then persisted.value else EMPTY) && lastApplied == 0 && waiters == {}
    {
      data, dedup, lastApplied, waiters := map[], map[], 0, {};
      new;
      ReadSnapshot(persisted);
    }

    /** Restore the state from a snapshot; None is an empty or unreadable one. */
    method ReadSnapshot(snapshot: Option<Store>)
      modifies this`data, this`dedup
      ensures Value() == if snapshot.Some? then snapshot.value else old(Value())
    {
      if snapshot.Some? {
        data, dedup := snapshot.value.data, snapshot.value.dedup;
      }
    }

    /** Apply a command once; full says whether the log has outgrown its limit. */
    method ApplyCommand(index: nat, op: ClientOp, full: bool) returns (sent: Option<Result>, snapshot: Option<Store>)
      modifies this`data, this`dedup, this`lastApplied
      ensures index <= old(lastApplied) ==>
                Value() == old(Value()) && lastApplied == old(lastApplied) && sent.None? && snapshot.None?
      ensures index > old(lastApplied) ==>
                && Value() == Execute(old(Value()), op).0 && lastApplied == index
                && sent == (if index in waiters then Some(Execute(old(Value()), op).1) else None)
                && snapshot == if full then Some(Value()) else None
    {
      sent, snapshot := None, None;
      if index <= lastApplied {
        return;
      }
      lastApplied := index;
      var err, value := OK, "";
      if op.client in dedup && dedup[op.client].seqNo >= op.seqNo && op.kind != Get {
        err, value := dedup[op.client].err, dedup[op.client].value;
      } else {
        match op.kind {
          case Get =>
            if op.key in data {
              value := data[op.key];
            } else {
              err := ErrNoKey;
            }
          case Put => data := data[op.key := op.value];
          case Append => data := data[op.key := Lookup(data, op.key) + op.value];
        }
        if op.kind != Get {
          dedup := dedup[op.client := LastReply(op.seqNo, value, err)];
        }
      }
      if index in waiters {
        sent := Some(Result(err, value, op.client, op.seqNo));
      }
      if full {
        snapshot := Some(Store(data, dedup));
      }
    }

    method ApplySnapshot(index: nat, snapshot: Option<Store>)
      modifies this`data, this`dedup, this`lastApplied
      ensures index <= old(lastApplied) ==> Value() == old(Value()) && lastApplied == old(lastApplied)
      ensures index > old(lastApplied) ==>
                Value() == (if snapshot.Some? then snapshot.value else old(Value())) && lastApplied == index
    {
      if index <= lastApplied {
        return;
      }
      ReadSnapshot(snapshot);
      lastApplied := index;
    }
  }
}
