/** Log entries, and how two logs are compared.  A log always starts with a
    sentinel at index 0, so the entry with absolute index i sits at position i. */
module RaftTypes {
  import opened Counting

  /** A client command is opaque to Raft. */
  type Command = string

  datatype Entry = Entry(term: nat, cmd: Command)

  type Log = seq<Entry>

  const SENTINEL := Entry(0, "")

  /** A and B both reach index k and are identical up to and including it. */
  ghost predicate Agree(A: Log, B: Log, k: int) {
    && 0 <= k < |A| && k < |B|
    && forall i :: 0 <= i <= k ==> A[i] == B[i]
  }

  function LastIndex(L: Log): int {
    |L| - 1
  }

  function LastTerm(L: Log): nat
    requires |L| >= 1
  {
    L[|L| - 1].term
  }

  /** The "at least as up-to-date" comparison of the vote rule. */
  predicate UpToDate(lastIndex: int, lastTerm: nat, L: Log)
    requires |L| >= 1
  {
    if lastTerm != LastTerm(L) then lastTerm > LastTerm(L) else lastIndex >= LastIndex(L)
  }

  /** The commands of entries 1..k: the history a service at index k has applied. */
  function Commands(L: Log, k: nat): (r: seq<Command>)
    requires k < |L|
    ensures |r| == k
    ensures forall i :: 0 <= i < k ==> r[i] == L[i + 1].cmd
  {
    seq(k, i requires 0 <= i < k => L[i + 1].cmd)
  }

  ghost predicate Quorum(n: nat, Q: set<nat>) {
    Q <= Ids(n) && 2 * |Q| > n
  }

  /** Any two majorities share a server. */
  lemma QuorumsMeet(n: nat, P: set<nat>, Q: set<nat>) returns (s: nat)
    requires Quorum(n, P) && Quorum(n, Q)
    ensures s in P && s in Q && s < n
  {
    if P * Q == {} {
      assert |P + Q| == |P| + |Q|;
      SubsetSize(P + Q, Ids(n));
      IdsSize(n);
      assert false;
    }
    s :| s in P * Q;
    assert s in Ids(n);
  }
}
