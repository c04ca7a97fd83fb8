/** A model of `stdx::scope_guard<F>`: a move-only guard that runs a stored
    cleanup action when it is destroyed, unless it was released or moved from.

    The guard is a two-state machine on its `active` flag (armed / disarmed).
    C++ runs the destructor at scope exit; here destruction is the explicit,
    single-use method `Destroy`, and the ghost flag `live` records whether the
    guard's lifetime has ended. */
module ScopeGuard {

  /** The stored callable `fn_`, kept opaque: all the model observes of it is
      how many times it has been invoked. */
  class Action {
    var calls: nat

    constructor ()
      ensures calls == 0
    {
      calls := 0;
    }

    /** `fn_()`: one invocation. */
    method Invoke()
      modifies this
      ensures calls == old(calls) + 1
    {
      calls := calls + 1;
    }
  }

  class Guard {
    /** `fn_`: bound at construction and never reassigned afterwards. */
    const fn: Action
    /** `active_`: true while the guard is armed. */
    var active: bool
    /** False once `Destroy` has run: the object's lifetime is over. */
    ghost var live: bool

    /** `explicit scope_guard(F&& fn)`: the new guard owns the action and is
        armed; the action is not invoked. */
    constructor (action: Action)
      ensures fn == action && active && live
      ensures action.calls == old(action.calls)
    {
      fn := action;
      active := true;
      live := true;
    }

    /** `scope_guard(scope_guard&& other)`: the new guard takes the source's
        action and armed state, and the source is disarmed. Nothing of the
        source is written but its flag, and the action is not invoked. */
    constructor Move(other: Guard)
      requires other.live
      modifies other`active
      ensures fn == other.fn && active == old(other.active) && live
      ensures !other.active && other.live
      ensures fn.calls == old(other.fn.calls)
    {
      fn := other.fn;
      active := other.active;
      live := true;
      new;
      other.active := false;
    }

    /** `release()`: disarms the guard whatever its prior state; the action
        is neither invoked nor replaced. */
    method Release()
      requires live
      modifies this`active
      ensures !active && live
      ensures fn.calls == old(fn.calls)
    {
      active := false;
    }

    /** `~scope_guard()`: invokes the action exactly once if the guard is
        still armed, and does nothing otherwise. The flag is left as it was;
        the guard's lifetime ends. */
    method Destroy()
      requires live
      modifies this`live, fn
      ensures !live && active == old(active)
      ensures fn.calls == old(fn.calls) + (if active then 1 else 0)
    {
      if active {
        fn.Invoke();
      }
      live := false;
    }
  }

  /** A guard left armed until scope exit runs its action exactly once. */
  method ArmedGuardRunsOnce() returns (calls: nat)
    ensures calls == 1
  {
    var action := new Action();
    var g := new Guard(action);
    assert action.calls == 0;
    g.Destroy();
    calls := action.calls;
  }

  /** A guard released before scope exit never runs its action. */
  method ReleasedGuardNeverRuns() returns (calls: nat)
    ensures calls == 0
  {
    var action := new Action();
    var g := new Guard(action);
    g.Release();
    g.Destroy();
    calls := action.calls;
  }

  /** A guard moved into a second one: destroying the source does nothing,
      destroying the destination runs the action once. */
  method MovedFromGuardNeverRuns() returns (afterSource: nat, afterTarget: nat)
    ensures afterSource == 0 && afterTarget == 1
  {
    var action := new Action();
    var source := new Guard(action);
    var target := new Guard.Move(source);
    source.Destroy();
    afterSource := action.calls;
    target.Destroy();
    afterTarget := action.calls;
  }

  /** Releasing twice leaves the same state as releasing once: the guard is
      disarmed, its action unchanged and not invoked. */
  method ReleaseTwice(g: Guard)
    requires g.live
    modifies g`active
    ensures !g.active && g.live
    ensures g.fn.calls == old(g.fn.calls)
  {
    g.Release();
    g.Release();
  }

  /** Chain A -> B -> C, every guard destroyed in turn: the action runs only
      at C's destruction. The out-parameters are the call counts after each
      destruction. */
  method MoveChainOfThree() returns (afterA: nat, afterB: nat, afterC: nat)
    ensures afterA == 0 && afterB == 0 && afterC == 1
  {
    var action := new Action();
    var a := new Guard(action);
    var b := new Guard.Move(a);
    var c := new Guard.Move(b);
    a.Destroy();
    afterA := action.calls;
    b.Destroy();
    afterB := action.calls;
    c.Destroy();
    afterC := action.calls;
  }

  /** A chain of `n` moves of any length, each moved-from guard destroyed as
      soon as the next one holds the action: the action has not run when the
      final holder is reached, and runs exactly once when it is destroyed. */
  method MoveChain(n: nat) returns (beforeLast: nat, calls: nat)
    ensures beforeLast == 0 && calls == 1
  {
    var action := new Action();
    var g := new Guard(action);
    var i := 0;
    while i < n
      invariant i <= n
      invariant fresh(action) && fresh(g)
      invariant g.live && g.active && g.fn == action
      invariant action.calls == 0
    {
      var next := new Guard.Move(g);
      g.Destroy();
      g := next;
      i := i + 1;
    }
    beforeLast := action.calls;
    g.Destroy();
    calls := action.calls;
  }
}
