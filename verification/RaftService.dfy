/** A service on top of a peer, and the messages on their way to it.  The peer creates
    a message under its lock and sends it after releasing the lock, so messages wait,
    and a later one may be handed over first. */
module RaftService {
  import opened RaftTypes
  import opened RaftServer

  /** What the service has applied, up to which index it thinks it has, and what was
      created for it but not yet handed over, oldest first. */
  datatype Service = Service(applied: Data, lastApplied: nat, pending: seq<ApplyMsg>)

  /** A service skips anything at or below its lastApplied. */
  function Deliver(v: Service, m: ApplyMsg): Service {
    if m.index <= v.lastApplied then v
    else match m
      case CommandMsg(i, cmd) => v.(applied := v.applied + [cmd], lastApplied := i)
      case SnapshotMsg(i, _, data) => v.(applied := data, lastApplied := i)
  }

  function Post(v: Service, m: ApplyMsg): Service {
    v.(pending := v.pending + [m])
  }

  /** The k-th waiting message arrives. */
  function HandOver(v: Service, k: nat): Service
    requires k < |v.pending|
  {
    Deliver(v.(pending := v.pending[..k] + v.pending[k + 1..]), v.pending[k])
  }

  /** What the service saves as its state at an index it has reached. */
  function SavedAt(v: Service, index: nat): Data {
    if index <= |v.applied| then v.applied[..index] else v.applied
  }

  // ----- what a service stands for -----

  /** m tells what the log says at its index. */
  ghost predicate OfLog(F: Log, m: ApplyMsg) {
    && 1 <= m.index < |F|
    && match m
       case CommandMsg(i, cmd) => F[i].cmd == cmd
       case SnapshotMsg(i, _, data) => data == Commands(F, i)
  }

  /** The service has applied a prefix of the log, and knows where it is, unless it has
      just restarted from a snapshot. */
  ghost predicate Stands(F: Log, v: Service) {
    && |v.applied| < |F|
    && v.applied == Commands(F, |v.applied|)
    && (v.lastApplied == |v.applied| || v.lastApplied == 0)
  }

  /** A message of the log leaves a service standing for a prefix of the log exactly when
      it is refused, is a snapshot, or is the command that comes next. */
  lemma DeliverIff(F: Log, v: Service, m: ApplyMsg)
    requires Stands(F, v) && OfLog(F, m)
    ensures Stands(F, Deliver(v, m)) <==> m.index <= v.lastApplied || m.SnapshotMsg? || m.index == |v.applied| + 1
  {
    if m.index > v.lastApplied && m.CommandMsg? && m.index == |v.applied| + 1 {
      assert Commands(F, m.index) == v.applied + [m.cmd];
    }
  }

  // ----- messages in line -----

  /** Handed over in order to a service that has applied p entries and thinks it is at la,
      the messages lead to index q without a gap.  If none of them counts for a service
      that has just restarted, q is where its snapshot ended. */
  ghost predicate InLine(p: nat, la: nat, ms: seq<ApplyMsg>, q: int, base: nat)
    decreases |ms|
  {
    if ms == [] then p == q && (la == p || (la == 0 && p == base))
    else if ms[0].index <= la then InLine(p, la, ms[1..], q, base)
    else (ms[0].SnapshotMsg? || ms[0].index == p + 1) && InLine(ms[0].index, ms[0].index, ms[1..], q, base)
  }

  /** A command for the next index, or a snapshot past base, may join the line. */
  lemma {:induction false} JoinLine(p: nat, la: nat, ms: seq<ApplyMsg>, q: nat, base: nat, m: ApplyMsg, base': nat)
    requires InLine(p, la, ms, q, base)
    requires m.index > base && (m.CommandMsg? ==> m.index == q + 1)
    ensures InLine(p, la, ms + [m], if m.index > q then m.index else q, base')
    decreases |ms|
  {
    if ms == [] {
      assert (ms + [m])[1..] == [];
    } else {
      assert (ms + [m])[1..] == ms[1..] + [m];
      if ms[0].index <= la {
        JoinLine(p, la, ms[1..], q, base, m, base');
      } else {
        JoinLine(ms[0].index, ms[0].index, ms[1..], q, base, m, base');
      }
    }
  }

  /** Where the snapshot ends matters only to a service that has just restarted. */
  lemma {:induction false} LineBase(p: nat, la: nat, ms: seq<ApplyMsg>, q: int, base: nat, base': nat)
    requires InLine(p, la, ms, q, base) && la > 0
    ensures InLine(p, la, ms, q, base')
    decreases |ms|
  {
    if ms != [] {
      if ms[0].index <= la {
        LineBase(p, la, ms[1..], q, base, base');
      } else {
        LineBase(ms[0].index, ms[0].index, ms[1..], q, base, base');
      }
    }
  }
}
