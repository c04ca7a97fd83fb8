# scope_guard and allocator growth policy, modelled in Dafny

This project models the two header-only shims of the repository that have
behaviour of their own:

- `stdx::scope_guard<F>` (`scope_guard.dfy`, module `ScopeGuard`): a move-only
  guard that owns a cleanup callable and an armed flag `active_`. The
  constructor arms it, `release()` disarms it, the move constructor hands the
  armed state to the new guard and disarms the source, and the destructor
  calls the callable only if the guard is still armed. The model is a class
  `Guard` with a mutable `active` field and a `const fn` field holding an
  `Action`, an opaque object whose `calls` counter records each invocation.
  Destruction, which C++ performs at scope exit, is the explicit method
  `Destroy`; the ghost field `live` marks the end of the guard's lifetime and
  every operation requires it, so each guard is destroyed at most once and
  never used afterwards. Copy construction and copy assignment are deleted in
  the source; correspondingly the class has no member that duplicates a
  guard (a Dafny reference assignment aliases the same guard, it does not
  create a second armed one). The client methods at the end of the module
  state the exactly-once and never-after-release/move properties over whole
  lifetimes, including a move chain of any length.
- `qlibs::default_allocator_policy::grow` (`allocator.dfy`, module
  `Allocator`): `0 -> 8`, otherwise `n -> n * 2` in `std::size_t`. The model
  takes `std::size_t` as 64 bits (`SizeT`, `0 <= n < 2^64`) and writes the
  unsigned wrap-around out as `% 2^64`. The policy is a stateless datatype
  and `Grow` a total function on it, matching a `const noexcept` member of an
  empty struct: it cannot fail and cannot change the policy.

## Model

| member | source | states |
|---|---|---|
| ScopeGuard.Guard.constructor | vcpkg-overlays/stdx/files/include/stdx/scope_guard.hpp:11 | a new guard holds the given action and is armed; the action's call count is unchanged |
| ScopeGuard.Guard.Move | vcpkg-overlays/stdx/files/include/stdx/scope_guard.hpp:12 | the new guard holds the source's action and the source's prior armed flag; afterwards the source is disarmed; only the source's flag is written and the action is not invoked |
| ScopeGuard.Guard.Release | vcpkg-overlays/stdx/files/include/stdx/scope_guard.hpp:21 | the guard is disarmed whatever its prior state; only the flag may change and the action is not invoked |
| ScopeGuard.Guard.Destroy | vcpkg-overlays/stdx/files/include/stdx/scope_guard.hpp:15-19 | the call count grows by exactly one if the guard was armed and is unchanged otherwise; the guard's lifetime ends, so it cannot fire again |
| ScopeGuard.Action.Invoke | vcpkg-overlays/stdx/files/include/stdx/scope_guard.hpp:17 | one invocation of the stored callable adds one to its call count |
| ScopeGuard.ArmedGuardRunsOnce | vcpkg-overlays/stdx/files/include/stdx/scope_guard.hpp:11-19 | a guard constructed and destroyed while armed runs its action exactly once |
| ScopeGuard.ReleasedGuardNeverRuns | vcpkg-overlays/stdx/files/include/stdx/scope_guard.hpp:15-21 | a guard released before destruction never runs its action |
| ScopeGuard.MovedFromGuardNeverRuns | vcpkg-overlays/stdx/files/include/stdx/scope_guard.hpp:12-19 | destroying a moved-from guard does nothing; destroying the guard it moved into runs the action once |
| ScopeGuard.ReleaseTwice | vcpkg-overlays/stdx/files/include/stdx/scope_guard.hpp:21 | releasing twice leaves the same state as releasing once: disarmed, action not invoked |
| ScopeGuard.MoveChainOfThree | vcpkg-overlays/stdx/files/include/stdx/scope_guard.hpp:12-19 | in a chain A to B to C with every guard destroyed, the action has run zero times after A's and B's destruction and once after C's |
| ScopeGuard.MoveChain | vcpkg-overlays/stdx/files/include/stdx/scope_guard.hpp:12-19 | for a chain of any number of moves, the action has not run when the final holder is reached and runs exactly once at its destruction |
| Allocator.DefaultAllocatorPolicy.Grow | vcpkg-overlays/qlibs-core/files/include/qlibs/allocator.hpp:9-11 | the grown capacity is always even, also at the wrap point, and is zero exactly when the current capacity is 2^63 |
| Allocator.GrowOfEmpty | vcpkg-overlays/qlibs-core/files/include/qlibs/allocator.hpp:10 | an empty buffer grows to 8 |
| Allocator.GrowDoubles | vcpkg-overlays/qlibs-core/files/include/qlibs/allocator.hpp:10 | for 0 < n < 2^63 the result is exactly 2n and strictly greater than n |
| Allocator.GrowWraps | vcpkg-overlays/qlibs-core/files/include/qlibs/allocator.hpp:10 | for n >= 2^63 the unsigned doubling wraps: the result is 2n - 2^64, strictly smaller than n |
| Allocator.GrowMonotone | vcpkg-overlays/qlibs-core/files/include/qlibs/allocator.hpp:10 | on 0 < m < n < 2^63, Grow(m) < Grow(n) |
| Allocator.GrowNotMonotoneAtEmpty | vcpkg-overlays/qlibs-core/files/include/qlibs/allocator.hpp:10 | monotonicity fails at the empty capacity: Grow(0) = 8 > Grow(1) = 2 |
| Allocator.GrowTimesFromEmpty | vcpkg-overlays/qlibs-core/files/include/qlibs/allocator.hpp:9-11 | starting from 0, k >= 1 growths give 8 * 2^(k-1) whenever that is below 2^64 |
| Allocator.GrowTimesAdd | vcpkg-overlays/qlibs-core/files/include/qlibs/allocator.hpp:9-11 | growing a + b times is growing a times and then b times |
| Allocator.GrowTimesWrapsToEmpty | vcpkg-overlays/qlibs-core/files/include/qlibs/allocator.hpp:10 | from 0, the 61st growth reaches 2^63 and the 62nd wraps back to 0 |
| Allocator.GrowTimesPeriodic | vcpkg-overlays/qlibs-core/files/include/qlibs/allocator.hpp:10 | the capacities reached from 0 repeat with period 62 |

## Left out

- Destructor timing and exception unwinding: C++ runs the destructor automatically on every scope exit; the model calls `Destroy` explicitly, and exceptions thrown by the callable are not modelled.
- The callable's own behaviour and its moved-from state: the move constructor moves `other.fn_`, but the model keeps one opaque `Action` object that both guards refer to. The moved-from guard is disarmed, so it never invokes it.
- The deduction guide (scope_guard.hpp:28-29), `noexcept`, `[[nodiscard]]`, `constexpr` and perfect forwarding have no runtime behaviour to state.
- Threading: the guard has no synchronisation and is single-owner by design.
- `boost::outcome::result` (a type alias over `std::expected`) and `cib::version`, `cib::current_version` and `cib::service` (plain data and a type tag) have no operations to model.
- Allocator.DefaultAllocatorPolicy.Grow: `std::size_t` is taken to be 64 bits wide; other widths are not modelled.
