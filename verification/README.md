# signal_stack in Dafny

A model of `icy::signal_stack`, a per-process undo stack for POSIX signal
dispositions. For each signal number the manager keeps the `struct sigaction`
records it has seen, oldest first. The first record is the baseline: the
disposition that was live when the entry was created by a build. For a signal
never touched before that is its original disposition; after `clear` it is
`SIG_DFL`, because `clear` erases the entry and the original is lost. The
last record is the disposition the manager installed most recently. `build`
installs a record and pushes it. `restore` pops one layer and reinstalls the
layer beneath it. `reset` and `ignore` push `SIG_DFL` and `SIG_IGN`. `clear`
resets and then forgets the signal's whole history. `back` peeks at the newest
record. `has_ignored`, `has_defaulted` and `has_handled` classify the live
disposition as the kernel reports it.

Layout:

- `posix.dfy` (module `Posix`): the platform boundary. It holds the
  `struct sigaction` record (`Action`: handler, `sa_flags` as a 32-bit
  vector, `sa_mask` as a set of signal numbers) and the kernel's disposition
  table (`Kernel`). `Query` and `Install` stand for the two uses of
  `sigaction`, and `FillMask` for `sigemptyset` followed by `sigaddset` over
  a list. The kernel knows the signals in `table`; an install succeeds
  exactly for the known signals that are also in `settable`. A failed call
  changes nothing.
- `signal_stack.dfy` (module `SignalStack`): the history `map<nat,
  seq<Action>>` paired with the kernel as one `State`. Each mutating call is
  a pure function to an `Outcome` (the returned boolean and the next state).
  The module also defines three invariants the code relies on and keeps:
  `NonEmpty`, `TopIsLive` and `Settable`. The header's own comment
  (include/signal_stack.hpp:80-84), that a one-element history holds the
  initial handler, holds only until the first `clear`.
- `classify.dfy` (module `Classify`): the three classifiers, both as the
  source writes them and corrected (see Findings).
- `properties.dfy` (module `StackProperties`): properties that span several
  calls. These are the invariant over any sequence of calls, the LIFO round
  trips, baseline capture, and the agreement of `back` and the classifiers
  with the kernel.

The public `restore`, `reset`, `clear` and `ignore`, and `build(sig, nact)`,
only take the lock and call the private `_M_*` versions; each such pair is
modelled by one member, as one atomic step. The overloads `build(sig, h,
flags)` and `build(sig, h, flags, mask_list)` first assemble the record
themselves and then call `_M_build(sig, nact)`: the first is modelled by
`SignalStack.BuildHandler` (which also stands for the private
`_M_build(sig, h, flags)`), the second by `SignalStack.BuildMasked`, which has
no private counterpart.

Where the header comments and the code disagree, or where a reader might
expect other behaviour, the model follows the code:

- `_M_reset` installs `SIG_DFL` with no flags and an empty mask, not the
  recorded baseline that the header comment (include/signal_stack.hpp:67-72)
  speaks of. `StackProperties.ResetRestoresBaselineOnlyIfDefault` states the
  consequence.
- `_M_clear` erases the signal's entry, baseline included, so no record is
  left, although the header comment (include/signal_stack.hpp:73-78) says it
  sets the initial handler. The next build records the `SIG_DFL` that `clear`
  installed as a new baseline, so the original disposition cannot be restored
  any more. `StackProperties.ClearForgetsBaseline` states this.
- `back` on a signal with no history returns a fixed `SIG_DFL` record without
  querying the kernel.
- `_M_restore` on a signal with no history does nothing; it records no
  baseline.
- `_M_reset` and `_M_ignore` call the handler overload of `_M_build` with two
  arguments. The model takes the omitted flags to be 0; the declaration that
  gives this default is not part of this model.

## Model

| member | source | states |
|---|---|---|
| `Posix.Query` | src/signal_stack.cpp:60 | the query `sigaction(sig, 0, &oact)` yields a record exactly when the kernel knows the number, and then it is the live one |
| `Posix.Install` | src/signal_stack.cpp:96 | the install `sigaction(sig, &nact, &oact)` succeeds exactly for a known, settable number; it makes the new record live, returns the prior live record, and changes no other entry or the settable set |
| `Posix.FillMask` | src/signal_stack.cpp:17-21 | the blocked set holds exactly the listed numbers that `sigaddset` accepts; the others are skipped silently |
| `SignalStack.Build` | src/signal_stack.cpp:94-104 | succeeds exactly when the kernel accepts the install; on failure nothing changes and no entry is created; on success the kernel holds the new record; a signal with no history ends with `[prior live record, new]`; a signal with a history gets exactly the new record appended after an unchanged prefix; other signals are untouched; all three invariants are preserved |
| `SignalStack.BuildHandler` | src/signal_stack.cpp:87-93 | installs a record with the given handler and flags and an empty mask, which becomes live; a signal with no history ends with `[prior live record, that record]`, otherwise the record is appended after an unchanged prefix; other signals untouched; same success and failure behaviour as `Build`; invariants preserved |
| `SignalStack.BuildMasked` | src/signal_stack.cpp:15-25 | installs a record with the given handler and flags whose mask holds exactly the accepted listed numbers, by way of `Build` |
| `SignalStack.Back` | src/signal_stack.cpp:30-40 | the newest recorded record when the history is non-empty, otherwise `SIG_DFL` with flags 0 and an empty mask; it reads the history only |
| `SignalStack.Restore` | src/signal_stack.cpp:105-117 | a signal with no entry: success, nothing changes; an entry of length at most 1: success, entry erased, kernel untouched; a longer entry: succeeds exactly when the kernel accepts reinstalling the second-newest record, which becomes live, and exactly one record is popped; on failure nothing changes; other signals untouched; invariants preserved |
| `SignalStack.Reset` | src/signal_stack.cpp:118-120 | succeeds exactly when the kernel accepts the install; on success `SIG_DFL` is live and pushed exactly as `Build` pushes (after the prior live record on a fresh signal, after an unchanged prefix otherwise); other signals untouched; on failure nothing changes; invariants preserved |
| `SignalStack.Clear` | src/signal_stack.cpp:121-128 | fails with no change when installing `SIG_DFL` fails; on success `SIG_DFL` is live, the signal has no entry, and every other entry is untouched; invariants preserved |
| `SignalStack.Ignore` | src/signal_stack.cpp:129-131 | succeeds exactly when the kernel accepts the install; on success `SIG_IGN` is live and pushed exactly as `Build` pushes (after the prior live record on a fresh signal, after an unchanged prefix otherwise); other signals untouched; on failure nothing changes; invariants preserved |
| `Classify.Observed` | src/signal_stack.cpp:59-60 | the struct the classifiers inspect: the live record when the kernel knows the signal, otherwise whatever the uninitialised struct holds |
| `Classify.HasIgnoredAsWritten` | src/signal_stack.cpp:57-65 | as written: for a known signal, true exactly when its live record is `SIG_IGN` without `SA_SIGINFO`; for an unknown one, the same test applied to the uninitialised struct |
| `Classify.HasDefaultedAsWritten` | src/signal_stack.cpp:66-74 | as written: for a known signal, true exactly when its live record is `SIG_DFL` without `SA_SIGINFO`; for an unknown one, the same test applied to the uninitialised struct |
| `Classify.HasHandledAsWritten` | src/signal_stack.cpp:75-83 | as written: for a known signal, true exactly when its live record is a program handler without `SA_SIGINFO`; for an unknown one, the same test applied to the uninitialised struct |
| `Classify.HasIgnored` | src/signal_stack.cpp:57-65 | corrected (see Findings): true exactly when the kernel knows the signal and its live record is `SIG_IGN` without `SA_SIGINFO` |
| `Classify.HasDefaulted` | src/signal_stack.cpp:66-74 | corrected (see Findings): true exactly when the kernel knows the signal and its live record is `SIG_DFL` without `SA_SIGINFO` |
| `Classify.HasHandled` | src/signal_stack.cpp:75-83 | corrected (see Findings): true exactly when the kernel knows the signal and its live record is a program handler without `SA_SIGINFO` |
| `Classify.UnknownSignalReadsJunk` | src/signal_stack.cpp:57-83 | as written, for a signal number the kernel does not know, each classifier's answer depends on the contents of the uninitialised struct |
| `Classify.AsWrittenAgreesOnKnownSignals` | src/signal_stack.cpp:57-83 | on every signal the kernel knows, the corrected classifiers answer exactly as the as-written ones |
| `Classify.ClassifiersPartition` | src/signal_stack.cpp:57-83 | no two classifiers hold at once; one holds exactly when the kernel knows the signal and its record is not in `SA_SIGINFO` form |
| `StackProperties.RunKeepsInvariant` | include/signal_stack.hpp:80-85 | every sequence of build, restore, reset, clear and ignore calls preserves non-empty entries, newest record equal to the live one, and recorded signals settable |
| `StackProperties.ReachableStatesKeepInvariant` | include/signal_stack.hpp:80-85 | every state reachable from a freshly constructed manager satisfies the invariant, whatever the kernel |
| `StackProperties.RestoreSucceedsUnderInvariant` | src/signal_stack.cpp:112-114 | on a state satisfying the invariant, `restore` never returns false |
| `StackProperties.BackIsLive` | include/signal_stack.hpp:56-60 | for a signal with a history, `back` is the disposition the kernel reports as live |
| `StackProperties.BackAfterBuild` | include/signal_stack.hpp:56-60 | after a successful build, `back` yields the record just built |
| `StackProperties.BackAfterRestore` | include/signal_stack.hpp:61-66 | after a successful restore of a layered signal, `back` yields the layer beneath the old top |
| `StackProperties.ClassifiersSeeBack` | src/signal_stack.cpp:57-83 | for a signal with a history, each classifier agrees with the record `back` returns |
| `StackProperties.BaselineStable` | include/signal_stack.hpp:80-84 | no call changes a signal's baseline; a call can only remove the whole entry |
| `StackProperties.BuildThenRestore` | include/signal_stack.hpp:61-66 | on a signal with a history, a build followed by a restore returns exactly the starting history and kernel |
| `StackProperties.BuildSeqStacks` | src/signal_stack.cpp:98-103 | builds on a signal with a history append exactly the built records, in order, and the last one is live |
| `StackProperties.BaselineCapturedOnce` | src/signal_stack.cpp:98-102 | builds on an untouched signal leave the disposition live before the first build, followed by exactly the built records |
| `StackProperties.StackedRoundTrip` | include/signal_stack.hpp:61-66 | on a signal with a history, N builds followed by N restores return exactly the starting state |
| `StackProperties.FreshBuildThenRestore` | src/signal_stack.cpp:112-116 | on an untouched signal, one build and one restore leave the kernel unchanged and only the baseline recorded |
| `StackProperties.BaselineOnlyRestore` | src/signal_stack.cpp:107-110 | restoring a signal whose only record is its baseline erases the entry and leaves the kernel alone |
| `StackProperties.FreshRoundTrip` | include/signal_stack.hpp:61-66 | on an untouched signal, N ≥ 1 builds and N restores leave the kernel as it was and exactly `[baseline]` recorded; one more restore returns exactly the starting state |
| `StackProperties.ResetRestoresBaselineOnlyIfDefault` | src/signal_stack.cpp:118-120 | after `reset`, the baseline is live exactly when the baseline is `SIG_DFL` with no flags and no mask |
| `StackProperties.ClearForgetsBaseline` | src/signal_stack.cpp:121-128 | after `clear` and a build, the history is `[SIG_DFL, new]`; one restore leaves `SIG_DFL` live and `[SIG_DFL]` recorded, whatever the original baseline was |
| `StackProperties.ClearEmptiesStack` | include/signal_stack.hpp:73-78 | after a successful clear, `back` is the default record and a further restore does nothing |
| `StackProperties.IgnoreThenRestore` | src/signal_stack.cpp:129-131 | ignoring an untouched signal makes it classified as ignored; restoring it brings back the classification of its prior disposition |
| `StackProperties.NestedHandlersScenario` | include/signal_stack.hpp:56-66 | two nested builds and two restores on an untouched signal: `back` follows each layer, then returns the baseline, which is live again |

## Left out

- Other writers of the kernel table: the model assumes the disposition table changes only through this manager's calls. Code that calls `sigaction` directly, or the kernel resetting an `SA_RESETHAND` handler to `SIG_DFL` on delivery, breaks "newest recorded record is live" (`SignalStack.TopIsLive`). `BackIsLive`, `ClassifiersSeeBack`, `RestoreSucceedsUnderInvariant` and the round-trip lemmas rely on that invariant.
- Locking: the `std::shared_mutex` in the public wrappers is concurrency. Each operation is modelled as one atomic step.
- The real `sigaction` call and the kernel's handling of a record. The kernel's removal of SIGKILL and SIGSTOP from an installed mask is not modelled, and neither are `sa_restorer` or the other fields.
- `sigaction` failures other than an unknown or unsettable signal number, such as a bad pointer. In the model an install fails or succeeds depending only on the signal number.
- glibc's `sigaddset` also rejects the signal numbers it reserves for internal use. The model only enforces the range 1 to 64.
- Only the `SA_SIGINFO` bit of `sa_flags` is interpreted. The flags are an uninterpreted 32-bit value otherwise.
- `empty()` is declared in include/signal_stack.hpp:24 and defined nowhere, so it is not modelled.
- The header and the source list the `build` parameters in different orders. The model follows the source.
- The `build(sig, nact)` overload (src/signal_stack.cpp:26-29) is `SignalStack.Build` itself.
- A signal-mask stack: src/signal_stack.cpp and include/signal_stack.hpp define none.
- The example programs, which only call the interface around `system()`.

## Findings

| source | as written | input that shows it | evidently intended | confidence | as-written member | corrected member |
|---|---|---|---|---|---|---|
| src/signal_stack.cpp:57-65 | the query's result code is stored in `_r` and never tested; `sa_flags` and `sa_handler` are then read from a struct the failed call never filled | a signal number the kernel does not know, such as 0 | answer false when the query fails | medium, not executed | `Classify.UnknownSignalReadsJunk` | `Classify.HasIgnored` |
| src/signal_stack.cpp:66-74 | same unchecked query in `has_defaulted` | a signal number the kernel does not know, such as 0 | answer false when the query fails | medium, not executed | `Classify.UnknownSignalReadsJunk` | `Classify.HasDefaulted` |
| src/signal_stack.cpp:75-83 | same unchecked query in `has_handled` | a signal number the kernel does not know, such as 0 | answer false when the query fails | medium, not executed | `Classify.UnknownSignalReadsJunk` | `Classify.HasHandled` |
