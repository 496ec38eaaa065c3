/** What the handlers do to a trimmed log is what the protocol does to the full one. */
module RaftCompaction {
  import opened RaftTypes
  import opened RaftCore
  import opened RaftServer
  import opened RaftSafety

  /** Where the terms of F and R agree, everything before agrees too. */
  ghost predicate Matching(F: Log, R: Log) {
    forall k :: MatchAt(F, R, k)
  }

  ghost predicate MatchAt(F: Log, R: Log, k: nat) {
    k < |F| && k < |R| && F[k].term == R[k].term ==> Agree(F, R, k)
  }

  lemma WfMatching(r: map<nat, Reign>, F: Log, R: Log)
    requires WfLog(r, F) && WfLog(r, R)
    ensures Matching(F, R)
  {
    forall k: nat
      ensures MatchAt(F, R, k)
    {
      if k < |F| && k < |R| && F[k].term == R[k].term {
        SameTermSamePrefix(r, F, R, k);
      }
    }
  }

  /** Merging into the trimmed log at a slot is merging into the full log at its index. */
  lemma {:induction false} MergeShift(log: Log, F: Log, base: nat, at: nat, es: seq<Entry>)
    requires 1 <= at <= |log| && |F| == base + |log|
    requires forall k :: base < k < |F| ==> F[k] == log[k - base]
    ensures var log' := Merge(log, at, es);
            var F' := Merge(F, base + at, es);
            && |log'| >= 1 && |F'| == base + |log'|
            && log'[0] == log[0] && F'[base] == F[base]
            && (forall k :: base < k < |F'| ==> F'[k] == log'[k - base])
    decreases |es|
  {
    if es != [] && at < |log| && log[at].term == es[0].term {
      MergeShift(log, F, base, at + 1, es[1..]);
    }
  }

  /** Under Log Matching, merging entries p+1.. of R into F adopts R up to the last of them. */
  lemma {:induction false} MergeAdopts(F: Log, R: Log, p: nat, es: seq<Entry>)
    requires Matching(F, R) && Agree(F, R, p)
    requires p + |es| < |R| && forall k :: 0 <= k < |es| ==> es[k] == R[p + 1 + k]
    ensures Merge(F, p + 1, es) == Adopt(F, R, p + |es|)
    decreases |es|
  {
    if es == [] {
    } else if p + 1 < |F| && F[p + 1].term == es[0].term {
      assert es[0] == R[p + 1];
      assert MatchAt(F, R, p + 1);
      MergeAdopts(F, R, p + 1, es[1..]);
    } else {
      assert es[0] == R[p + 1];
      assert F[..p + 1] + es == R[..p + |es| + 1];
    }
  }

  /** The request matches R, and F holds the snapshot's part of R. */
  ghost predicate Fits(s: Server, F: Log, R: Log, a: AppendArgs) {
    && Wf(s) && Compacts(s, F) && Matching(F, R)
    && Agree(F, R, s.lastIncludedIndex)
    && 0 <= a.prevLogIndex && a.prevLogIndex + |a.entries| < |R|
    && R[a.prevLogIndex].term == a.prevLogTerm
    && (forall k :: 0 <= k < |a.entries| ==> a.entries[k] == R[a.prevLogIndex + 1 + k])
  }

  lemma MergeRefines(s: Server, F: Log, R: Log, p: nat, es: seq<Entry>)
    requires Wf(s) && Compacts(s, F) && Matching(F, R) && Agree(F, R, p) && s.lastIncludedIndex <= p
    requires p + |es| < |R| && forall k :: 0 <= k < |es| ==> es[k] == R[p + 1 + k]
    ensures Compacts(s.(log := Merge(s.log, p - s.lastIncludedIndex + 1, es)), Adopt(F, R, p + |es|))
  {
    hide Matching, Adopt, Merge;
    MergeShift(s.log, F, s.lastIncludedIndex, p - s.lastIncludedIndex + 1, es);
    MergeAdopts(F, R, p, es);
  }

  /** The clamped request starts at or after the snapshot. */
  ghost predicate Passes(s: Server, a: AppendArgs) {
    && (a.prevLogIndex >= s.lastIncludedIndex || a.prevLogIndex + |a.entries| > s.lastIncludedIndex)
    && var b := Clamp(s, a);
    s.lastIncludedIndex <= b.prevLogIndex <= LastLogIndex(s) && TermAt(s, b.prevLogIndex) == b.prevLogTerm
  }

  lemma AppendLog(s: Server, a: AppendArgs)
    requires Wf(s) && a.term >= s.currentTerm
    ensures var (s', r) := AppendEntries(s, a);
            && s'.lastIncludedIndex == s.lastIncludedIndex && s'.lastIncludedTerm == s.lastIncludedTerm
            && (r.success <==> Passes(s, a))
            && (!r.success ==> s'.log == s.log)
            && (r.success ==> var b := Clamp(s, a);
                              s'.log == Merge(s.log, b.prevLogIndex - s.lastIncludedIndex + 1, b.entries))
  {
    hide Merge, FirstOfTerm;
  }

  /** AppendEntries on the trimmed log, clamped or not, is adoption on the full log. */
  lemma AppendRefines(s: Server, F: Log, R: Log, a: AppendArgs)
    requires a.term >= s.currentTerm && Fits(s, F, R, a)
    ensures var (s', r) := AppendEntries(s, a);
            && Compacts(s', if r.success then Adopt(F, R, a.prevLogIndex + |a.entries|) else F)
  {
    hide Adopt, Merge, Matching, AppendEntries, FirstOfTerm, Agree;
    var (s', r) := AppendEntries(s, a);
    AppendLog(s, a);
    if r.success {
      ClampFits(s, F, R, a);
      var b := Clamp(s, a);
      MergeRefines(s, F, R, b.prevLogIndex, b.entries);
    }
  }

  lemma ClampFits(s: Server, F: Log, R: Log, a: AppendArgs)
    requires Fits(s, F, R, a) && Passes(s, a)
    ensures var b := Clamp(s, a);
            && Agree(F, R, b.prevLogIndex)
            && b.prevLogIndex + |b.entries| == a.prevLogIndex + |a.entries|
            && forall k :: 0 <= k < |b.entries| ==> b.entries[k] == R[b.prevLogIndex + 1 + k]
  {
    hide Matching;
    if a.prevLogIndex >= s.lastIncludedIndex {
      MatchingAt(F, R, a.prevLogIndex);
    }
  }

  lemma MatchingAt(F: Log, R: Log, k: nat)
    requires Matching(F, R) && k < |F| && k < |R| && F[k].term == R[k].term
    ensures Agree(F, R, k)
  {
    assert MatchAt(F, R, k);
  }

  /** No entry has the sentinel's term. */
  ghost predicate Rooted(F: Log) {
    forall k :: 1 <= k < |F| ==> F[k].term != F[0].term
  }

  /** The conflict hint is an index, and never past the end of the leader's own log. */
  lemma HintInRange(s: Server, F: Log, R: Log, a: AppendArgs)
    requires a.term >= s.currentTerm && Fits(s, F, R, a)
    requires Rooted(F)
    ensures var (s', r) := AppendEntries(s, a);
            r.term == a.term && (!r.success ==> 1 <= r.conflictIndex <= |R|)
  {
    hide Matching, Merge, FirstOfTerm;
    if s.lastIncludedIndex <= a.prevLogIndex <= LastLogIndex(s) {
      var k := a.prevLogIndex - s.lastIncludedIndex;
      FirstOfTermBound(s.log, k);
      assert F[a.prevLogIndex].term == s.log[k].term && F[s.lastIncludedIndex].term == s.log[0].term;
    }
  }

  lemma {:induction false} FirstOfTermBound(log: Log, k: nat)
    requires k < |log|
    ensures forall j :: FirstOfTerm(log, k) <= j <= k ==> log[j].term == log[k].term
    ensures FirstOfTerm(log, k) > 0 ==> log[FirstOfTerm(log, k) - 1].term != log[k].term
  {
    if k > 0 && log[k - 1].term == log[k].term {
      FirstOfTermBound(log, k - 1);
    }
  }
}
