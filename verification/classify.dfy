/**
 The three live-state classifiers `has_ignored`, `has_defaulted` and
 `has_handled`.  They ask the kernel, not the history, and give up (answer
 false) on a record in `SA_SIGINFO` form.
 */
module Classify {
  import opened Posix

  /** The test `has_ignored` applies to the record it reads. */
  predicate IgnoredRecord(a: Action) {
    !SigInfo(a) && a.handler == Ign
  }

  /** The test `has_defaulted` applies to the record it reads. */
  predicate DefaultedRecord(a: Action) {
    !SigInfo(a) && a.handler == Dfl
  }

  /** The test `has_handled` applies to the record it reads. */
  predicate HandledRecord(a: Action) {
    !SigInfo(a) && a.handler != Ign && a.handler != Dfl
  }

  // As written, the classifiers discard the query's result code.  When the
  // query fails the struct they inspect was never filled in; `junk` stands
  // for whatever it happens to hold.

  function Observed(k: Kernel, sig: nat, junk: Action): (r: Action)
    ensures sig in k.table ==> r == k.table[sig]
    ensures sig !in k.table ==> r == junk
  {
    match Query(k, sig)
    case Some(a) => a
    case None => junk
  }

  function HasIgnoredAsWritten(k: Kernel, sig: nat, junk: Action): (r: bool)
    ensures sig in k.table ==> (r <==> IgnoredRecord(k.table[sig]))
    ensures sig !in k.table ==> (r <==> IgnoredRecord(junk))
  {
    IgnoredRecord(Observed(k, sig, junk))
  }

  function HasDefaultedAsWritten(k: Kernel, sig: nat, junk: Action): (r: bool)
    ensures sig in k.table ==> (r <==> DefaultedRecord(k.table[sig]))
    ensures sig !in k.table ==> (r <==> DefaultedRecord(junk))
  {
    DefaultedRecord(Observed(k, sig, junk))
  }

  function HasHandledAsWritten(k: Kernel, sig: nat, junk: Action): (r: bool)
    ensures sig in k.table ==> (r <==> HandledRecord(k.table[sig]))
    ensures sig !in k.table ==> (r <==> HandledRecord(junk))
  {
    HandledRecord(Observed(k, sig, junk))
  }

  /** For a number the kernel does not know, each as-written answer is decided by the uninitialised struct. */
  lemma UnknownSignalReadsJunk(k: Kernel, sig: nat)
    requires sig !in k.table
    ensures HasIgnoredAsWritten(k, sig, IgnoreAction) && !HasIgnoredAsWritten(k, sig, DefaultAction)
    ensures HasDefaultedAsWritten(k, sig, DefaultAction) && !HasDefaultedAsWritten(k, sig, IgnoreAction)
    ensures HasHandledAsWritten(k, sig, Action(Catch(0), 0, {})) && !HasHandledAsWritten(k, sig, DefaultAction)
  {
  }

  // The classifiers as evidently intended: a failed query answers false.

  function HasIgnored(k: Kernel, sig: nat): (r: bool)
    ensures r <==> sig in k.table && !SigInfo(k.table[sig]) && k.table[sig].handler == Ign
  {
    match Query(k, sig)
    case Some(a) => IgnoredRecord(a)
    case None => false
  }

  function HasDefaulted(k: Kernel, sig: nat): (r: bool)
    ensures r <==> sig in k.table && !SigInfo(k.table[sig]) && k.table[sig].handler == Dfl
  {
    match Query(k, sig)
    case Some(a) => DefaultedRecord(a)
    case None => false
  }

  function HasHandled(k: Kernel, sig: nat): (r: bool)
    ensures r <==> sig in k.table && !SigInfo(k.table[sig]) && k.table[sig].handler.Catch?
  {
    match Query(k, sig)
    case Some(a) => HandledRecord(a)
    case None => false
  }

  /** On a number the kernel knows, the corrected classifiers give the answers the source gives. */
  lemma AsWrittenAgreesOnKnownSignals(k: Kernel, sig: nat, junk: Action)
    requires sig in k.table
    ensures HasIgnoredAsWritten(k, sig, junk) == HasIgnored(k, sig)
    ensures HasDefaultedAsWritten(k, sig, junk) == HasDefaulted(k, sig)
    ensures HasHandledAsWritten(k, sig, junk) == HasHandled(k, sig)
  {
  }

  /**
   At most one classifier holds, and one does exactly when the kernel knows
   the number and its record is not in `SA_SIGINFO` form.
   */
  lemma ClassifiersPartition(k: Kernel, sig: nat)
    ensures !(HasIgnored(k, sig) && HasDefaulted(k, sig))
    ensures !(HasIgnored(k, sig) && HasHandled(k, sig))
    ensures !(HasDefaulted(k, sig) && HasHandled(k, sig))
    ensures HasIgnored(k, sig) || HasDefaulted(k, sig) || HasHandled(k, sig) <==>
              sig in k.table && !SigInfo(k.table[sig])
  {
  }
}
