/**
 The platform boundary of the signal stack: `struct sigaction` records, the
 kernel's per-process disposition table, the `sigaction` call that swaps an
 entry of that table, and the `sigemptyset`/`sigaddset` pair that builds a
 handler's blocked set.  The kernel is a value, so every operation of the
 stack takes it and hands back its successor.
 */
module Posix {

  datatype Option<+T> = None | Some(value: T)

  /** What `sa_handler` designates: `SIG_DFL`, `SIG_IGN`, or a function of the program (by identity). */
  datatype Handler = Dfl | Ign | Catch(fn: nat)

  /** One `struct sigaction`: the handler, `sa_flags` and `sa_mask`. */
  datatype Action = Action(handler: Handler, flags: bv32, mask: set<nat>)

  /** The `SA_SIGINFO` bit of `sa_flags` (Linux value). */
  const SA_SIGINFO: bv32 := 4

  /** One past the largest signal number `sigaddset` accepts (glibc on Linux). */
  const NSIG: int := 65

  /** True when the record uses the three-argument `sa_sigaction` form. */
  predicate SigInfo(a: Action) {
    a.flags & SA_SIGINFO != 0
  }

  /** `SIG_DFL` with no flags and an empty mask. */
  const DefaultAction: Action := Action(Dfl, 0, {})

  /** `SIG_IGN` with no flags and an empty mask. */
  const IgnoreAction: Action := Action(Ign, 0, {})

  /**
   The process's disposition table as the kernel holds it.  `table` has an
   entry for every signal number the kernel knows; `settable` holds the
   numbers whose disposition may be changed (SIGKILL and SIGSTOP, say, are
   known but not settable).
   */
  datatype Kernel = Kernel(table: map<nat, Action>, settable: set<nat>)

  /** Whether `sigaction(sig, &act, ...)` is accepted. */
  predicate CanInstall(k: Kernel, sig: nat) {
    sig in k.table && sig in k.settable
  }

  /** `sigaction(sig, nullptr, &oact)`: the live disposition, or nothing when the number is unknown. */
  function Query(k: Kernel, sig: nat): (r: Option<Action>)
    ensures r.Some? <==> sig in k.table
    ensures r.Some? ==> r.value == k.table[sig]
  {
    if sig in k.table then Some(k.table[sig]) else None
  }

  /** The two results of a successful install: the updated kernel and the record it replaced. */
  datatype Swap = Swap(after: Kernel, prior: Action)

  /**
   `sigaction(sig, &act, &oact)`: atomically installs `act` and hands back the
   previous record, or fails and changes nothing.
   */
  function Install(k: Kernel, sig: nat, act: Action): (r: Option<Swap>)
    ensures r.Some? <==> CanInstall(k, sig)
    ensures r.Some? ==> Query(r.value.after, sig) == Some(act)
    ensures r.Some? ==> r.value.prior == k.table[sig]
    ensures r.Some? ==> r.value.after.settable == k.settable
    ensures r.Some? ==> r.value.after.table - {sig} == k.table - {sig}
  {
    if CanInstall(k, sig) then
      Some(Swap(k.(table := k.table[sig := act]), k.table[sig]))
    else
      None
  }

  /** Whether `sigaddset` accepts `m`; a rejected number is silently skipped because its result is not checked. */
  predicate SigAddAccepts(m: int) {
    0 < m < NSIG
  }

  /**
   The blocked set `build` assembles for a handler: start from `sigemptyset`
   and `sigaddset` every listed number in turn.
   */
  method FillMask(list: seq<int>) returns (mask: set<nat>)
    ensures forall n: nat :: n in mask <==> n in list && SigAddAccepts(n)
  {
    mask := {};
    for i := 0 to |list|
      invariant forall n: nat :: n in mask <==> n in list[..i] && SigAddAccepts(n)
    {
      assert list[..i + 1] == list[..i] + [list[i]];
      if SigAddAccepts(list[i]) {
        mask := mask + {list[i] as nat};
      }
    }
    assert list[..|list|] == list;
  }
}
