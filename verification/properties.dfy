/**
 Properties that relate several calls of the signal stack: the bookkeeping
 invariant over any sequence of operations, LIFO undo, baseline capture, and
 the agreement of `back` and the classifiers with the live kernel.
 */
module StackProperties {
  import opened Posix
  import opened SignalStack
  import opened Classify

  /** One mutating call of the public interface. */
  datatype Op =
    | BuildOp(sig: nat, act: Action)
    | RestoreOp(sig: nat)
    | ResetOp(sig: nat)
    | ClearOp(sig: nat)
    | IgnoreOp(sig: nat)

  function Apply(s: State, op: Op): Outcome {
    match op
    case BuildOp(sig, act) => Build(s, sig, act)
    case RestoreOp(sig) => Restore(s, sig)
    case ResetOp(sig) => Reset(s, sig)
    case ClearOp(sig) => Clear(s, sig)
    case IgnoreOp(sig) => Ignore(s, sig)
  }

  /** The state after running `ops` in order, whatever each call returns. */
  function Run(s: State, ops: seq<Op>): State
    decreases |ops|
  {
    if |ops| == 0 then s else Run(Apply(s, ops[0]).next, ops[1..])
  }

  /** The bookkeeping invariant survives any sequence of mutating calls. */
  lemma {:induction false} RunKeepsInvariant(s: State, ops: seq<Op>)
    requires Invariant(s)
    ensures Invariant(Run(s, ops))
    decreases |ops|
  {
    if |ops| > 0 {
      RunKeepsInvariant(Apply(s, ops[0]).next, ops[1..]);
    }
  }

  /** Every state a freshly constructed manager can reach satisfies the invariant. */
  lemma ReachableStatesKeepInvariant(os: Kernel, ops: seq<Op>)
    ensures Invariant(Run(State(map[], os), ops))
  {
    RunKeepsInvariant(State(map[], os), ops);
  }

  /** On a reachable state `restore` cannot fail: every recorded signal was accepted by the kernel before. */
  lemma RestoreSucceedsUnderInvariant(s: State, sig: nat)
    requires Invariant(s)
    ensures Restore(s, sig).ok
  {
  }

  /** `back` reports the live disposition of every signal that has a history. */
  lemma BackIsLive(s: State, sig: nat)
    requires Invariant(s)
    requires sig in s.data
    ensures Query(s.os, sig) == Some(Back(s.data, sig))
  {
    assert TopIsLiveAt(s, sig);
  }

  /** After a successful build, `back` yields the record just installed. */
  lemma BackAfterBuild(s: State, sig: nat, act: Action)
    requires CanInstall(s.os, sig)
    ensures Back(Build(s, sig, act).next.data, sig) == act
  {
  }

  /** After a successful restore of a layered signal, `back` yields the layer beneath the old top. */
  lemma BackAfterRestore(s: State, sig: nat)
    requires sig in s.data && |s.data[sig]| >= 2
    requires Restore(s, sig).ok
    ensures Back(Restore(s, sig).next.data, sig) == s.data[sig][|s.data[sig]| - 2]
  {
  }

  /** The classifiers read the same record `back` returns, for a signal with a history. */
  lemma ClassifiersSeeBack(s: State, sig: nat)
    requires Invariant(s)
    requires sig in s.data
    ensures HasIgnored(s.os, sig) == IgnoredRecord(Back(s.data, sig))
    ensures HasDefaulted(s.os, sig) == DefaultedRecord(Back(s.data, sig))
    ensures HasHandled(s.os, sig) == HandledRecord(Back(s.data, sig))
  {
    BackIsLive(s, sig);
  }

  /** Once captured, the baseline of a signal changes only by removal of its whole entry. */
  lemma BaselineStable(s: State, op: Op, sig: nat)
    requires sig in s.data && |s.data[sig]| > 0
    requires sig in Apply(s, op).next.data
    ensures |Apply(s, op).next.data[sig]| > 0
    ensures Apply(s, op).next.data[sig][0] == s.data[sig][0]
  {
  }

  /** A build followed by a restore is undone exactly, history and kernel alike. */
  lemma BuildThenRestore(s: State, sig: nat, act: Action)
    requires sig in s.data && |s.data[sig]| > 0
    requires TopIsLiveAt(s, sig)
    requires CanInstall(s.os, sig)
    ensures Restore(Build(s, sig, act).next, sig) == Outcome(true, s)
  {
  }

  /** The state after building each record of `acts` on `sig`, in order. */
  function BuildSeq(s: State, sig: nat, acts: seq<Action>): State
    decreases |acts|
  {
    if |acts| == 0 then s else BuildSeq(Build(s, sig, acts[0]).next, sig, acts[1..])
  }

  /** The state after `n` restores of `sig`. */
  function RestoreTimes(s: State, sig: nat, n: nat): State {
    if n == 0 then s else Restore(RestoreTimes(s, sig, n - 1), sig).next
  }

  /** Builds on a signal with a history push exactly the given records on top of it. */
  lemma {:induction false} BuildSeqStacks(s: State, sig: nat, acts: seq<Action>)
    requires sig in s.data && |s.data[sig]| > 0
    requires CanInstall(s.os, sig)
    ensures BuildSeq(s, sig, acts).data == s.data[sig := s.data[sig] + acts]
    ensures |acts| > 0 ==> Query(BuildSeq(s, sig, acts).os, sig) == Some(acts[|acts| - 1])
    decreases |acts|
  {
    if |acts| == 0 {
      assert s.data[sig] + acts == s.data[sig];
    } else {
      var t := Build(s, sig, acts[0]).next;
      BuildSeqStacks(t, sig, acts[1..]);
      assert s.data[sig] + [acts[0]] + acts[1..] == s.data[sig] + acts;
      if |acts| == 1 {
        assert BuildSeq(t, sig, acts[1..]) == t;
      }
    }
  }

  /**
   Builds on a never-touched signal leave the baseline (the disposition live
   before the first build) followed by exactly the records built.
   */
  lemma BaselineCapturedOnce(s: State, sig: nat, acts: seq<Action>)
    requires sig !in s.data
    requires CanInstall(s.os, sig)
    requires |acts| > 0
    ensures BuildSeq(s, sig, acts).data == s.data[sig := [s.os.table[sig]] + acts]
    ensures Query(BuildSeq(s, sig, acts).os, sig) == Some(acts[|acts| - 1])
  {
    var base := s.os.table[sig];
    var t := Build(s, sig, acts[0]).next;
    assert t.data == s.data[sig := [base, acts[0]]];
    var rest := acts[1..];
    assert BuildSeq(s, sig, acts) == BuildSeq(t, sig, rest);
    BuildSeqStacks(t, sig, rest);
    assert [base, acts[0]] + rest == [base] + acts;
    if |acts| == 1 {
      assert BuildSeq(t, sig, rest) == t;
    }
  }

  /** On a signal with a history, N builds followed by N restores give back the starting state. */
  lemma {:induction false} StackedRoundTrip(s: State, sig: nat, acts: seq<Action>)
    requires sig in s.data && |s.data[sig]| > 0
    requires TopIsLiveAt(s, sig)
    requires CanInstall(s.os, sig)
    ensures RestoreTimes(BuildSeq(s, sig, acts), sig, |acts|) == s
    decreases |acts|
  {
    if |acts| > 0 {
      var t := Build(s, sig, acts[0]).next;
      StackedRoundTrip(t, sig, acts[1..]);
      BuildThenRestore(s, sig, acts[0]);
    }
  }

  /**
   On a never-touched signal, N builds followed by N restores put the
   baseline back in the kernel and leave exactly `[baseline]` recorded; one
   more restore removes the entry and returns to the starting state.
   */
  lemma FreshRoundTrip(s: State, sig: nat, acts: seq<Action>)
    requires sig !in s.data
    requires CanInstall(s.os, sig)
    requires |acts| > 0
    ensures RestoreTimes(BuildSeq(s, sig, acts), sig, |acts|) == State(s.data[sig := [s.os.table[sig]]], s.os)
    ensures Restore(RestoreTimes(BuildSeq(s, sig, acts), sig, |acts|), sig) == Outcome(true, s)
  {
    var t := Build(s, sig, acts[0]).next;
    FreshBuildThenRestore(s, sig, acts[0]);
    var rest := acts[1..];
    StackedRoundTrip(t, sig, rest);
    var x := BuildSeq(s, sig, acts);
    assert x == BuildSeq(t, sig, rest);
    assert |rest| == |acts| - 1;
    assert RestoreTimes(x, sig, |rest|) == t;
    assert RestoreTimes(x, sig, |acts|) == Restore(t, sig).next;
    BaselineOnlyRestore(s, sig);
  }

  /** The first build of a fresh signal, undone, leaves the kernel as it was and only the baseline recorded. */
  lemma FreshBuildThenRestore(s: State, sig: nat, act: Action)
    requires sig !in s.data
    requires CanInstall(s.os, sig)
    ensures Restore(Build(s, sig, act).next, sig) == Outcome(true, State(s.data[sig := [s.os.table[sig]]], s.os))
  {
  }

  /** Restoring a signal whose only record is its baseline forgets it. */
  lemma BaselineOnlyRestore(s: State, sig: nat)
    requires sig !in s.data
    requires CanInstall(s.os, sig)
    ensures Restore(State(s.data[sig := [s.os.table[sig]]], s.os), sig) == Outcome(true, s)
  {
  }

  /** `reset` brings back the baseline only when the baseline happens to be `SIG_DFL`. */
  lemma ResetRestoresBaselineOnlyIfDefault(s: State, sig: nat)
    requires sig in s.data && |s.data[sig]| > 0
    requires CanInstall(s.os, sig)
    ensures Query(Reset(s, sig).next.os, sig) == Some(s.data[sig][0]) <==> s.data[sig][0] == DefaultAction
  {
  }

  /** After a successful clear the stack of `sig` is empty: `back` is the default record and `restore` does nothing. */
  lemma ClearEmptiesStack(s: State, sig: nat)
    requires Clear(s, sig).ok
    ensures Back(Clear(s, sig).next.data, sig) == DefaultAction
    ensures Restore(Clear(s, sig).next, sig) == Clear(s, sig)
  {
  }

  /**
   `clear` loses the original baseline for good: a build after it records
   `SIG_DFL` as the new baseline, and restoring that build leaves `SIG_DFL`
   live, whatever was live before the manager first touched the signal.
   */
  lemma ClearForgetsBaseline(s: State, sig: nat, act: Action)
    requires CanInstall(s.os, sig)
    ensures var c := Clear(s, sig).next;
            var b := Build(c, sig, act).next;
            && b.data[sig] == [DefaultAction, act]
            && Restore(b, sig).ok
            && Query(Restore(b, sig).next.os, sig) == Some(DefaultAction)
            && Restore(b, sig).next.data[sig] == [DefaultAction]
  {
  }

  /** Ignoring a fresh signal and restoring it: ignored in between, then classified as it was before. */
  lemma IgnoreThenRestore(s: State, sig: nat)
    requires sig !in s.data
    requires CanInstall(s.os, sig)
    ensures HasIgnored(Ignore(s, sig).next.os, sig)
    ensures HasIgnored(Restore(Ignore(s, sig).next, sig).next.os, sig) == IgnoredRecord(s.os.table[sig])
  {
  }

  /**
   Two nested handlers on a fresh signal: `back` follows each build and each
   restore, ending at the baseline.
   */
  lemma NestedHandlersScenario(s: State, sig: nat, a: Action, b: Action)
    requires sig !in s.data
    requires CanInstall(s.os, sig)
    ensures var s1 := Build(s, sig, a).next;
            var s2 := Build(s1, sig, b).next;
            var s3 := Restore(s2, sig).next;
            var s4 := Restore(s3, sig).next;
            && Back(s1.data, sig) == a
            && Back(s2.data, sig) == b
            && Back(s3.data, sig) == a
            && Back(s4.data, sig) == s.os.table[sig]
            && Query(s4.os, sig) == Query(s.os, sig)
  {
  }
}
