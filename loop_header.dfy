/*
 * Constants, value types and the two straight-line macros of the binding's
 * header: default sizes, the timer-kind codes, the signal-table capacity,
 * the PHP values a user callback can hand back, the callable wrapping done
 * by PHP_CB_TO_MRLOOP_CB, and the C integer casts the binding applies to
 * PHP integers.
 */
module LoopHeader {

  datatype Option<T> = None | Some(value: T)

  /** Default byte count of a stream read buffer (DEFAULT_STREAM_BUFF_LEN). */
  const DefaultStreamBuffLen: nat := 8192
  /** Default receive-buffer size of one TCP connection (DEFAULT_CONN_BUFF_LEN). */
  const DefaultConnBuffLen: nat := 65536
  /** Default bound on parsed HTTP headers (DEFAULT_HTTP_HEADER_LIMIT). */
  const DefaultHttpHeaderLimit: nat := 100
  /** Number of slots of the signal-callback table sig_cb. */
  const SignalSlots: nat := 3

  /** Message of the exception raised when a user callback fails. */
  const CallbackErrorMessage: string := "There is an error in your callback"

  // ---------------------------------------------------------------------
  // Timer kinds and their integer codes (stored in the callback's `signal`)
  // ---------------------------------------------------------------------

  datatype TimerKind = OneShot | Periodic | FutureTick

  const TimerCode: int := 1
  const PeriodicTimerCode: int := 2
  const FutureTickCode: int := 3

  /** The integer tag the binding stores for each timer kind. */
  function Code(k: TimerKind): (c: int)
    ensures TimerCode <= c <= FutureTickCode
  {
    match k
    case OneShot => TimerCode
    case Periodic => PeriodicTimerCode
    case FutureTick => FutureTickCode
  }

  /** The timer kind a stored tag stands for, if any. */
  function KindOf(c: int): (k: Option<TimerKind>)
    ensures k.Some? <==> TimerCode <= c <= FutureTickCode
    ensures k.Some? ==> Code(k.value) == c
  {
    if c == TimerCode then Some(OneShot)
    else if c == PeriodicTimerCode then Some(Periodic)
    else if c == FutureTickCode then Some(FutureTick)
    else None
  }

  /** Each kind is recovered from its code, so the three codes are distinct. */
  lemma CodeRoundTrip(k: TimerKind)
    ensures KindOf(Code(k)) == Some(k)
  {
  }

  // ---------------------------------------------------------------------
  // PHP values and callback outcomes
  // ---------------------------------------------------------------------

  /** The shape of a PHP value as far as the binding inspects it. */
  datatype PhpValue = Long(n: int) | Str(s: string) | OtherValue

  /** What calling a user callback produced: a failed call, or a return value. */
  datatype CallOutcome = CallFailed | Returned(value: PhpValue)

  /**
   * A PHP callable as held by a callback record: the reference count of its
   * function-name value (None when that value is not reference-counted, such
   * as an interned string) and, for a callable bound to an object, the
   * object's reference count (None when there is no object).
   */
  datatype Callable = Callable(id: nat, nameRefs: Option<nat>, objectRefs: Option<nat>)

  /** Total references the callable's parts hold. */
  function References(c: Callable): nat
  {
    (if c.nameRefs.Some? then c.nameRefs.value else 0)
    + (if c.objectRefs.Some? then c.objectRefs.value else 0)
  }

  /**
   * PHP_CB_TO_MRLOOP_CB: copy the callable into a callback record, adding one
   * reference to the function name (when it is counted) and one to the bound
   * object only when there is one.
   */
  function WrapCallable(c: Callable): (w: Callable)
    ensures w.id == c.id
    ensures w.nameRefs.Some? == c.nameRefs.Some? && w.objectRefs.Some? == c.objectRefs.Some?
    ensures c.nameRefs.Some? ==> w.nameRefs.value == c.nameRefs.value + 1
    ensures c.objectRefs.Some? ==> w.objectRefs.value == c.objectRefs.value + 1
    ensures References(w) == References(c)
                             + (if c.nameRefs.Some? then 1 else 0)
                             + (if c.objectRefs.Some? then 1 else 0)
  {
    var name := match c.nameRefs case Some(k) => Some(k + 1) case None => None;
    var obj := match c.objectRefs case Some(k) => Some(k + 1) case None => None;
    Callable(c.id, name, obj)
  }

  // ---------------------------------------------------------------------
  // C integer widths
  // ---------------------------------------------------------------------

  const Two32: int := 0x1_0000_0000
  const Two63: int := 0x8000_0000_0000_0000
  const Two64: int := 0x1_0000_0000_0000_0000

  /** A PHP integer (zend_long, 64-bit signed). */
  type ZendLong = x: int | -0x8000_0000_0000_0000 <= x < 0x8000_0000_0000_0000

  /** The (size_t) cast of a PHP integer: reduction modulo 2^64. */
  function ToSizeT(x: ZendLong): (r: nat)
    ensures r < Two64
    ensures 0 <= x ==> r == x
    ensures x < 0 ==> r == x + Two64
  {
    x % Two64
  }

  /**
   * The (int) cast of a PHP integer or a size_t value: two's-complement
   * truncation to 32 bits.
   */
  function ToCInt(x: int): (r: int)
    ensures -Two32 / 2 <= r < Two32 / 2
    ensures -Two32 / 2 <= x < Two32 / 2 ==> r == x
    ensures (x - r) % Two32 == 0
  {
    (x + Two32 / 2) % Two32 - Two32 / 2
  }
}
