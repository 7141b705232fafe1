/**
 * The table-lock error policy of a connection: whether a statement that fails
 * because a shared-cache table is locked is retried, and after what delay.
 * `TimeInterval` (seconds, a `Double`) is modelled as an exact `real`.
 */
module TableLockRetryPolicy {
  import opened Wrappers
  import opened SQLite

  datatype TableLockErrorPolicy = On(delay: real) | Off

  /** The largest value `UInt32` holds. */
  const UINT32_MAX: int := 0xFFFF_FFFF

  /** `x` is an integer. */
  predicate IsWhole(x: real) {
    x.Floor as real == x
  }

  /** The default policy retries after 10 milliseconds. */
  function Default(): (p: TableLockErrorPolicy)
    ensures IsEnabled(p)
    ensures Delay(p) == Some(0.01)
    ensures DelayInMicroseconds(p) == Some(10_000)
  {
    On(0.01)
  }

  function IsEnabled(p: TableLockErrorPolicy): (b: bool)
    ensures b <==> p.On?
  {
    match p
    case On(_) => true
    case Off => false
  }

  function IsDisabled(p: TableLockErrorPolicy): (b: bool)
    ensures b <==> p.Off?
    ensures b == !IsEnabled(p)
  {
    !IsEnabled(p)
  }

  function Delay(p: TableLockErrorPolicy): (d: Option<real>)
    ensures d.Some? <==> IsEnabled(p)
    ensures forall t :: p == On(t) ==> d == Some(t)
  {
    match p
    case On(t) => Some(t)
    case Off => None
  }

  /** Swift's `UInt32(exactly:)`: the value when it is a whole number `UInt32` can hold, nil otherwise. */
  function UInt32Exactly(x: real): (r: Option<uint32>)
    ensures r.Some? <==> IsWhole(x) && 0.0 <= x <= UINT32_MAX as real
    ensures r.Some? ==> r.value as real == x
  {
    if IsWhole(x) && 0.0 <= x <= UINT32_MAX as real then Some(x.Floor as uint32) else None
  }

  /** The delay as a whole number of microseconds, if there is a delay and it is one. */
  function DelayInMicroseconds(p: TableLockErrorPolicy): (r: Option<uint32>)
    ensures p.Off? ==> r.None?
    ensures p.On? ==> (r.Some? <==> IsWhole(p.delay * 1_000_000.0) && 0.0 <= p.delay * 1_000_000.0 <= UINT32_MAX as real)
    ensures r.Some? ==> IsEnabled(p) && r.value as real == p.delay * 1_000_000.0
  {
    match Delay(p)
    case None => None
    case Some(d) => UInt32Exactly(d * 1_000_000.0)
  }
}
