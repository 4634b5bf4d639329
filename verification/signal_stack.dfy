/**
 The per-signal disposition undo stack.  `data` maps a signal number to the
 records this manager has seen for it, oldest first: the first element is the
 baseline, the disposition live when the entry was created by a build (after a
 `clear` that is `SIG_DFL`, not the original), the last one is what the
 manager last installed.  Every operation is one atomic step (the source
 runs each under an exclusive lock) over the pair of history and kernel.
 */
module SignalStack {
  import opened Posix

  type History = map<nat, seq<Action>>

  datatype State = State(data: History, os: Kernel)

  /** The boolean the source returns, and the state after the call. */
  datatype Outcome = Outcome(ok: bool, next: State)

  function Last(h: seq<Action>): Action
    requires |h| > 0
  {
    h[|h| - 1]
  }

  /** Every signal present in the history has at least one record. */
  ghost predicate NonEmpty(data: History) {
    forall sig :: sig in data ==> |data[sig]| > 0
  }

  /** The newest record of `sig`, if any, is what the kernel reports as live. */
  ghost predicate TopIsLiveAt(s: State, sig: nat) {
    sig in s.data && |s.data[sig]| > 0 ==> Query(s.os, sig) == Some(Last(s.data[sig]))
  }

  ghost predicate TopIsLive(s: State) {
    forall sig :: TopIsLiveAt(s, sig)
  }

  /** Every signal present in the history is one the kernel lets us change. */
  ghost predicate Settable(s: State) {
    forall sig :: sig in s.data ==> CanInstall(s.os, sig)
  }

  ghost predicate Invariant(s: State) {
    NonEmpty(s.data) && TopIsLive(s) && Settable(s)
  }

  /** Nothing but the history and the live disposition of `sig` differ between `s` and `t`. */
  ghost predicate OthersUnchanged(s: State, t: State, sig: nat) {
    && s.data - {sig} == t.data - {sig}
    && s.os.table - {sig} == t.os.table - {sig}
    && s.os.settable == t.os.settable
  }

  /** When only `sig` changed, the invariants elsewhere carry over and only `sig` itself needs checking. */
  lemma FrameKeepsInvariants(s: State, t: State, sig: nat)
    requires OthersUnchanged(s, t, sig)
    ensures NonEmpty(s.data) && (sig in t.data ==> |t.data[sig]| > 0) ==> NonEmpty(t.data)
    ensures TopIsLive(s) && TopIsLiveAt(t, sig) ==> TopIsLive(t)
    ensures Settable(s) && (sig in t.data ==> CanInstall(t.os, sig)) ==> Settable(t)
  {
    forall u | u != sig
      ensures u in s.data <==> u in t.data
      ensures u in s.data ==> s.data[u] == t.data[u]
      ensures u in s.os.table <==> u in t.os.table
      ensures u in s.os.table ==> s.os.table[u] == t.os.table[u]
    {
      assert u in s.data <==> u in s.data - {sig};
      assert u in t.data <==> u in t.data - {sig};
      assert u in s.os.table <==> u in s.os.table - {sig};
      assert u in t.os.table <==> u in t.os.table - {sig};
      if u in s.data {
        assert s.data[u] == (s.data - {sig})[u];
        assert t.data[u] == (t.data - {sig})[u];
      }
      if u in s.os.table {
        assert s.os.table[u] == (s.os.table - {sig})[u];
        assert t.os.table[u] == (t.os.table - {sig})[u];
      }
    }
    if TopIsLive(s) && TopIsLiveAt(t, sig) {
      forall u ensures TopIsLiveAt(t, u) {
        if u != sig {
          assert TopIsLiveAt(s, u);
        }
      }
    }
  }

  /** `_M_build(sig, nact)`: install `act`, capture the prior record as baseline if the history is empty, push `act`. */
  function Build(s: State, sig: nat, act: Action): (r: Outcome)
    ensures r.ok <==> CanInstall(s.os, sig)
    ensures !r.ok ==> r.next == s
    ensures r.ok ==> Query(r.next.os, sig) == Some(act)
    ensures r.ok && (sig !in s.data || |s.data[sig]| == 0) ==>
              r.next.data == s.data[sig := [s.os.table[sig], act]]
    ensures r.ok && sig in s.data && |s.data[sig]| > 0 ==>
              r.next.data == s.data[sig := s.data[sig] + [act]]
    ensures OthersUnchanged(s, r.next, sig)
    ensures NonEmpty(s.data) ==> NonEmpty(r.next.data)
    ensures TopIsLive(s) ==> TopIsLive(r.next)
    ensures Settable(s) ==> Settable(r.next)
  {
    match Install(s.os, sig, act)
    case None => Outcome(false, s)
    case Some(swap) =>
      var h := if sig in s.data then s.data[sig] else [];
      var base := if |h| == 0 then [swap.prior] else h;
      assert |h| == 0 ==> base + [act] == [s.os.table[sig], act];
      var t := State(s.data[sig := base + [act]], swap.after);
      FrameKeepsInvariants(s, t, sig);
      Outcome(true, t)
  }

  /** `_M_build(sig, h, flags)` and the public `build(sig, h, flags)`: a record with an empty blocked set. */
  function BuildHandler(s: State, sig: nat, h: Handler, flags: bv32): (r: Outcome)
    ensures r.ok <==> CanInstall(s.os, sig)
    ensures !r.ok ==> r.next == s
    ensures r.ok ==> Query(r.next.os, sig) == Some(Action(h, flags, {}))
    ensures r.ok ==> Back(r.next.data, sig) == Action(h, flags, {})
    ensures r.ok && (sig !in s.data || |s.data[sig]| == 0) ==>
              r.next.data == s.data[sig := [s.os.table[sig], Action(h, flags, {})]]
    ensures r.ok && sig in s.data && |s.data[sig]| > 0 ==>
              r.next.data == s.data[sig := s.data[sig] + [Action(h, flags, {})]]
    ensures OthersUnchanged(s, r.next, sig)
    ensures NonEmpty(s.data) ==> NonEmpty(r.next.data)
    ensures TopIsLive(s) ==> TopIsLive(r.next)
    ensures Settable(s) ==> Settable(r.next)
  {
    Build(s, sig, Action(h, flags, {}))
  }

  /** The public `build(sig, h, flags, mask_list)`: the handler blocks every listed number `sigaddset` accepts. */
  method BuildMasked(s: State, sig: nat, h: Handler, flags: bv32, list: seq<int>) returns (r: Outcome, act: Action)
    ensures act.handler == h && act.flags == flags
    ensures forall n: nat :: n in act.mask <==> n in list && SigAddAccepts(n)
    ensures r == Build(s, sig, act)
  {
    var mask := FillMask(list);
    act := Action(h, flags, mask);
    r := Build(s, sig, act);
  }

  /** `back`: the newest record of `sig`, or `SIG_DFL` with no flags and no mask when none is recorded. */
  function Back(data: History, sig: nat): (r: Action)
    ensures sig in data && |data[sig]| > 0 ==> r == data[sig][|data[sig]| - 1]
    ensures sig !in data || |data[sig]| == 0 ==> r == DefaultAction
  {
    if sig in data && |data[sig]| > 0 then Last(data[sig]) else DefaultAction
  }

  /** `_M_restore`: drop the newest layer and reinstall the one beneath it. */
  function Restore(s: State, sig: nat): (r: Outcome)
    ensures sig !in s.data ==> r == Outcome(true, s)
    ensures sig in s.data && |s.data[sig]| <= 1 ==>
              r == Outcome(true, State(s.data - {sig}, s.os))
    ensures sig in s.data && |s.data[sig]| >= 2 ==>
              (r.ok <==> CanInstall(s.os, sig))
    ensures sig in s.data && |s.data[sig]| >= 2 && !r.ok ==> r.next == s
    ensures sig in s.data && |s.data[sig]| >= 2 && r.ok ==>
              && r.next.data == s.data[sig := s.data[sig][..|s.data[sig]| - 1]]
              && Query(r.next.os, sig) == Some(s.data[sig][|s.data[sig]| - 2])
    ensures OthersUnchanged(s, r.next, sig)
    ensures NonEmpty(s.data) ==> NonEmpty(r.next.data)
    ensures TopIsLive(s) ==> TopIsLive(r.next)
    ensures Settable(s) ==> Settable(r.next)
  {
    if sig !in s.data then
      Outcome(true, s)
    else
      var h := s.data[sig];
      if |h| <= 1 then
        FrameKeepsInvariants(s, State(s.data - {sig}, s.os), sig);
        Outcome(true, State(s.data - {sig}, s.os))
      else
        match Install(s.os, sig, h[|h| - 2])
        case None => Outcome(false, s)
        case Some(swap) =>
          var t := State(s.data[sig := h[..|h| - 1]], swap.after);
          FrameKeepsInvariants(s, t, sig);
          Outcome(true, t)
  }

  /** `_M_reset`: push `SIG_DFL` (not the recorded baseline). */
  function Reset(s: State, sig: nat): (r: Outcome)
    ensures r.ok <==> CanInstall(s.os, sig)
    ensures !r.ok ==> r.next == s
    ensures r.ok ==> Query(r.next.os, sig) == Some(DefaultAction)
    ensures r.ok ==> Back(r.next.data, sig) == DefaultAction
    ensures r.ok && (sig !in s.data || |s.data[sig]| == 0) ==>
              r.next.data == s.data[sig := [s.os.table[sig], DefaultAction]]
    ensures r.ok && sig in s.data && |s.data[sig]| > 0 ==>
              r.next.data == s.data[sig := s.data[sig] + [DefaultAction]]
    ensures OthersUnchanged(s, r.next, sig)
    ensures NonEmpty(s.data) ==> NonEmpty(r.next.data)
    ensures TopIsLive(s) ==> TopIsLive(r.next)
    ensures Settable(s) ==> Settable(r.next)
  {
    BuildHandler(s, sig, Dfl, 0)
  }

  /** `_M_clear`: reset, then forget the whole history of `sig`, baseline included. */
  function Clear(s: State, sig: nat): (r: Outcome)
    ensures r.ok <==> CanInstall(s.os, sig)
    ensures !r.ok ==> r.next == s
    ensures r.ok ==> Query(r.next.os, sig) == Some(DefaultAction)
    ensures r.ok ==> r.next.data == s.data - {sig}
    ensures OthersUnchanged(s, r.next, sig)
    ensures NonEmpty(s.data) ==> NonEmpty(r.next.data)
    ensures TopIsLive(s) ==> TopIsLive(r.next)
    ensures Settable(s) ==> Settable(r.next)
  {
    var reset := Reset(s, sig);
    if !reset.ok then reset
    else
      var t := reset.next.(data := reset.next.data - {sig});
      FrameKeepsInvariants(s, t, sig);
      Outcome(true, t)
  }

  /** `_M_ignore`: push `SIG_IGN`. */
  function Ignore(s: State, sig: nat): (r: Outcome)
    ensures r.ok <==> CanInstall(s.os, sig)
    ensures !r.ok ==> r.next == s
    ensures r.ok ==> Query(r.next.os, sig) == Some(IgnoreAction)
    ensures r.ok ==> Back(r.next.data, sig) == IgnoreAction
    ensures r.ok && (sig !in s.data || |s.data[sig]| == 0) ==>
              r.next.data == s.data[sig := [s.os.table[sig], IgnoreAction]]
    ensures r.ok && sig in s.data && |s.data[sig]| > 0 ==>
              r.next.data == s.data[sig := s.data[sig] + [IgnoreAction]]
    ensures OthersUnchanged(s, r.next, sig)
    ensures NonEmpty(s.data) ==> NonEmpty(r.next.data)
    ensures TopIsLive(s) ==> TopIsLive(r.next)
    ensures Settable(s) ==> Settable(r.next)
  {
    BuildHandler(s, sig, Ign, 0)
  }
}
