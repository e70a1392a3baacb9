/**
 * A hardware device that may or may not be reachable.  The wrapper is an
 * immutable value: the device handle (absent when acquisition failed) and the
 * availability flag that always agrees with it.  Java object identity, which
 * `equals` and `hashCode` fall back on, is the explicit `ref` field.
 */
module ConditionalHardware {
  import opened Wrappers

  /** A thrown Java object, known by its exact run-time class. */
  datatype Throwable = Throwable(className: string)

  const IllegalArgumentClass: string := "java.lang.IllegalArgumentException"
  const NullPointerException: Throwable := Throwable("java.lang.NullPointerException")

  /** The identity of a Java object (what `==` on references and `Object.hashCode` use). */
  type Ref = nat

  /**
   * Which registry call acquisition makes: the custom PIDF motor factory, or
   * the plain hardware-map lookup.  Stands for the reflective class test.
   */
  datatype DeviceKind = PidfMotor | PlainDevice

  /**
   * The device registry as seen by acquisition: for each kind of lookup, what
   * the call returns for a device name, or what it throws.
   */
  datatype Registry<T> = Registry(pidfMotorGet: string -> Result<T, Throwable>,
                                  hardwareMapGet: string -> Result<T, Throwable>)

  datatype Conditional<T> = Conditional(ref: Ref, device: Option<T>, available: bool)
  {
    /** The class invariant: the device is usable exactly when it is present. */
    predicate Valid() {
      available == device.Some?
    }
  }

  /** The private constructor: `available` is derived from the device once and never changes. */
  function Make<T>(ref: Ref, device: Option<T>): (w: Conditional<T>)
    ensures w.Valid()
    ensures w.available <==> device.Some?
    ensures w.device == device && w.ref == ref
  {
    Conditional(ref, device, device.Some?)
  }

  /** The registry call that the device kind selects. */
  function Lookup<T>(registry: Registry<T>, kind: DeviceKind, name: string): Result<T, Throwable>
  {
    match kind
    case PidfMotor => registry.pidfMotorGet(name)
    case PlainDevice => registry.hardwareMapGet(name)
  }

  /**
   * The body of the `try` block: look the device up, then ask it for its
   * connection information, which throws when nothing is plugged in.
   */
  function Attempt<T>(registry: Registry<T>, kind: DeviceKind, name: string,
                      getConnectionInfo: T -> Outcome<Throwable>): (a: Result<T, Throwable>)
    ensures a.Success? <==> Lookup(registry, kind, name).Success?
                            && getConnectionInfo(Lookup(registry, kind, name).value).Pass?
    ensures a.Success? ==> a.value == Lookup(registry, kind, name).value
    ensures Lookup(registry, kind, name).Failure? ==> a == Lookup(registry, kind, name)
    ensures Lookup(registry, kind, name).Success? && getConnectionInfo(Lookup(registry, kind, name).value).Fail? ==>
              a == Failure(getConnectionInfo(Lookup(registry, kind, name).value).error)
  {
    match Lookup(registry, kind, name)
    case Failure(th) => Failure(th)
    case Success(d) =>
      match getConnectionInfo(d)
      case Fail(th) => Failure(th)
      case Pass => Success(d)
  }

  /**
   * Acquisition.  A failure whose class is exactly IllegalArgumentException
   * becomes an unavailable wrapper; any other throwable, subclasses included,
   * escapes unchanged.  `ref` is the identity the new wrapper object receives.
   */
  function TryGetHardwareDevice<T>(registry: Registry<T>, kind: DeviceKind, name: string,
                                   getConnectionInfo: T -> Outcome<Throwable>, ref: Ref)
    : (r: Result<Conditional<T>, Throwable>)
    ensures r.Failure? <==> Attempt(registry, kind, name, getConnectionInfo).Failure?
                            && Attempt(registry, kind, name, getConnectionInfo).error.className != IllegalArgumentClass
    ensures r.Failure? ==> r.error == Attempt(registry, kind, name, getConnectionInfo).error
    ensures r.Success? ==> r.value.Valid() && r.value.ref == ref
    ensures r.Success? ==> (r.value.available <==> Attempt(registry, kind, name, getConnectionInfo).Success?)
    ensures r.Success? && r.value.available ==>
              r.value.device.value == Attempt(registry, kind, name, getConnectionInfo).value
    ensures var lookup := Lookup(registry, kind, name);
            lookup.Success? && getConnectionInfo(lookup.value).Fail? ==>
              var th := getConnectionInfo(lookup.value).error;
              if th.className == IllegalArgumentClass then r.Success? && !r.value.available && r.value.ref == ref
              else r == Failure(th)
  {
    match Attempt(registry, kind, name, getConnectionInfo)
    case Success(d) => Success(Make(ref, Some(d)))
    case Failure(th) =>
      if th.className != IllegalArgumentClass then Failure(th)
      else Success(Make(ref, None))
  }

  /** `requireDevice`: the device, or a NullPointerException when there is none. */
  function RequireDevice<T>(w: Conditional<T>): (r: Result<T, Throwable>)
    requires w.Valid()
    ensures r.Success? <==> w.available
    ensures r.Success? ==> w.device == Some(r.value)
    ensures r.Failure? ==> r.error == NullPointerException
  {
    match w.device
    case Some(d) => Success(d)
    case None => Failure(NullPointerException)
  }

  /**
   * The two-argument `runIfAvailable`, with the effect of each branch given
   * as a transformation of the state `s` it acts on.
   */
  function RunIfAvailable<T, S>(w: Conditional<T>, runnable: (T, S) -> S, onUnavailable: S -> S, s: S): (r: S)
    requires w.Valid()
    ensures w.available ==> r == runnable(w.device.value, s)
    ensures !w.available ==> r == onUnavailable(s)
  {
    if w.available then runnable(w.device.value, s) else onUnavailable(s)
  }

  /** The one-argument `runIfAvailable`: the fallback does nothing. */
  function RunIfAvailableOrSkip<T, S>(w: Conditional<T>, runnable: (T, S) -> S, s: S): (r: S)
    requires w.Valid()
    ensures w.available ==> r == runnable(w.device.value, s)
    ensures !w.available ==> r == s
  {
    RunIfAvailable(w, runnable, (t: S) => t, s)
  }

  /** Applies `step` `n` times: `n` control-loop ticks. */
  function Repeat<S>(n: nat, step: S -> S, s: S): S
    decreases n
  {
    if n == 0 then s else Repeat(n - 1, step, step(s))
  }

  /**
   * Over any number of ticks, an unavailable wrapper only ever runs the
   * fallback: the primary branch has no influence on the state.
   */
  lemma {:induction false} UnavailableRunsOnlyFallback<T, S>(w: Conditional<T>, runnable: (T, S) -> S,
                                                               onUnavailable: S -> S, n: nat, s: S)
    requires w.Valid() && !w.available
    ensures Repeat(n, (t: S) => RunIfAvailable(w, runnable, onUnavailable, t), s) == Repeat(n, onUnavailable, s)
  {
    if n > 0 {
      UnavailableRunsOnlyFallback(w, runnable, onUnavailable, n - 1, onUnavailable(s));
    }
  }

  /** Over any number of ticks, the one-argument form on an unavailable wrapper leaves the state alone. */
  lemma {:induction false} UnavailableSkipsForever<T, S>(w: Conditional<T>, runnable: (T, S) -> S, n: nat, s: S)
    requires w.Valid() && !w.available
    ensures Repeat(n, (t: S) => RunIfAvailableOrSkip(w, runnable, t), s) == s
  {
    if n > 0 {
      UnavailableSkipsForever(w, runnable, n - 1, s);
    }
  }

  /** The argument of `equals`: null, another wrapper, or an object of some other class. */
  datatype JavaObject<T> = Null | Wrapper(w: Conditional<T>) | OtherObject

  /**
   * `equals`: the same object is equal to itself; otherwise only two available
   * wrappers can be equal, and then exactly when their devices are.
   */
  function Equals<T(==)>(self: Conditional<T>, obj: JavaObject<T>): (r: bool)
    requires self.Valid()
    requires obj.Wrapper? ==> obj.w.Valid()
    ensures r ==> obj.Wrapper?
    ensures obj == Wrapper(self) ==> r
    ensures obj.Wrapper? && obj.w.ref != self.ref ==>
              (r <==> self.available && obj.w.available && self.device.value == obj.w.device.value)
  {
    if obj.Wrapper? && obj.w.ref == self.ref then true
    else if obj.Null? then false
    else if !obj.Wrapper? then false
    else if !self.available || !obj.w.available then false
    else self.device.value == obj.w.device.value
  }

  /** `hashCode`: the identity hash when unavailable, the device's hash otherwise. */
  function HashCode<T>(w: Conditional<T>, identityHash: Ref -> int, deviceHash: T -> int): (h: int)
    requires w.Valid()
    ensures !w.available ==> h == identityHash(w.ref)
    ensures w.available ==> h == deviceHash(w.device.value)
  {
    if !w.available then identityHash(w.ref) else deviceHash(w.device.value)
  }

  /** The three rules of `equals`, stated without reference to its branches. */
  lemma EqualsRules<T>(a: Conditional<T>, b: Conditional<T>)
    requires a.Valid() && b.Valid()
    ensures Equals(a, Wrapper(a))
    ensures a.ref != b.ref && (!a.available || !b.available) ==> !Equals(a, Wrapper(b))
    ensures a.ref != b.ref && a.available && b.available ==>
              (Equals(a, Wrapper(b)) <==> a.device.value == b.device.value)
    ensures !Equals(a, Null) && !Equals(a, OtherObject)
  {
  }

  /**
   * Where every object has one state (equal identities mean the same wrapper),
   * `equals` is symmetric and equal wrappers hash equally.
   */
  lemma EqualsConsistentWithHash<T>(a: Conditional<T>, b: Conditional<T>,
                                        identityHash: Ref -> int, deviceHash: T -> int)
    requires a.Valid() && b.Valid()
    requires a.ref == b.ref ==> a == b
    ensures Equals(a, Wrapper(b)) <==> Equals(b, Wrapper(a))
    ensures Equals(a, Wrapper(b)) ==> HashCode(a, identityHash, deviceHash) == HashCode(b, identityHash, deviceHash)
  {
  }
}
