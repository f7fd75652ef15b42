/** The parts of the Android platform that the overlay code relies on, reduced to values:
    API levels, intent extras with the typed getters' fallback rules, view visibility,
    touch actions and the delay rule of `Handler.postDelayed`. */
module Platform {
  import opened Wrappers

  const SDK_KITKAT := 19
  const SDK_LOLLIPOP := 21
  const SDK_M := 23
  const SDK_O := 26
  const SDK_TIRAMISU := 33

  /** A value stored in an intent's extras, tagged with the type it was put with. */
  datatype ExtraValue = LongExtra(l: int) | IntExtra(i: int) | FloatExtra(f: real) | StringExtra(s: string)

  type Extras = map<string, ExtraValue>

  /** `intent?.getLongExtra(key, default) ?: default`: the default when the intent is
      null, the key is missing, or the value was put with another type. */
  function GetLongExtra(intent: Option<Extras>, key: string, default: int): int {
    if intent.Some? && key in intent.value && intent.value[key].LongExtra? then intent.value[key].l
    else default
  }

  function GetIntExtra(intent: Option<Extras>, key: string, default: int): int {
    if intent.Some? && key in intent.value && intent.value[key].IntExtra? then intent.value[key].i
    else default
  }

  function GetFloatExtra(intent: Option<Extras>, key: string, default: real): real {
    if intent.Some? && key in intent.value && intent.value[key].FloatExtra? then intent.value[key].f
    else default
  }

  /** `intent?.getStringExtra(key)`: null unless a string was put under `key`. */
  function GetStringExtra(intent: Option<Extras>, key: string): Option<string> {
    if intent.Some? && key in intent.value && intent.value[key].StringExtra? then Some(intent.value[key].s)
    else None
  }

  const INT_MIN := -0x8000_0000
  const INT_MAX := 0x7FFF_FFFF
  const LONG_MIN := -0x8000_0000_0000_0000
  const LONG_MAX := 0x7FFF_FFFF_FFFF_FFFF

  /** A real number with its fraction dropped, rounding toward zero. */
  function Truncate(r: real): (i: int)
    ensures r >= 0.0 ==> 0 <= i && i as real <= r < i as real + 1.0
    ensures r < 0.0 ==> i <= 0 && i as real - 1.0 < r <= i as real
  {
    if r >= 0.0 then r.Floor else -((-r).Floor)
  }

  function ClampTo(i: int, lo: int, hi: int): (c: int)
    requires lo <= hi
    ensures lo <= c <= hi
    ensures lo <= i <= hi ==> c == i
  {
    if i < lo then lo else if i > hi then hi else i
  }

  /** Kotlin's `Float.toInt()`: truncation toward zero, saturating at the 32-bit bounds. */
  function FloatToInt(r: real): int {
    ClampTo(Truncate(r), INT_MIN, INT_MAX)
  }

  /** Kotlin's `Double.toLong()`: truncation toward zero, saturating at the 64-bit bounds. */
  function DoubleToLong(r: real): int {
    ClampTo(Truncate(r), LONG_MIN, LONG_MAX)
  }

  /** A whole number within the 64-bit range survives `toLong()` unchanged. */
  lemma DoubleToLongOfWhole(i: int)
    requires LONG_MIN <= i <= LONG_MAX
    ensures DoubleToLong(i as real) == i
  {
  }

  datatype Visibility = Visible | Invisible | Gone

  datatype MotionAction = ActionDown | ActionMove | OtherAction(code: int)

  /** The time at which `Handler.postDelayed(r, delay)` posted at `now` runs: a negative
      delay counts as zero. */
  function DueAfter(now: int, delay: int): (due: int)
    ensures due >= now
    ensures delay >= 0 ==> due == now + delay
  {
    now + WaitFor(delay)
  }

  const LONG_RANGE := 0x1_0000_0000_0000_0000

  /** A `Long` sum as the JVM computes it: wrapped into the 64-bit range. */
  function WrapLong(x: int): (r: int)
    ensures LONG_MIN <= r <= LONG_MAX
    ensures LONG_MIN <= x <= LONG_MAX ==> r == x
    ensures LONG_MAX < x <= LONG_MAX + LONG_RANGE ==> r == x - LONG_RANGE
  {
    (x - LONG_MIN) % LONG_RANGE + LONG_MIN
  }

  /** The due time `Handler.postDelayed(r, delay)` hands to the message queue: the delay
      made non-negative and added to the `Long` uptime clock in 64 bits. */
  function AndroidDue(now: int, delay: int): int
    requires LONG_MIN <= now <= LONG_MAX && delay <= LONG_MAX
  {
    WrapLong(now + WaitFor(delay))
  }

  /** While the sum stays within the `Long` range, Android's due time is `DueAfter`. */
  lemma AndroidDueAgrees(now: int, delay: int)
    requires 0 <= now <= LONG_MAX && delay <= LONG_MAX
    requires now + WaitFor(delay) <= LONG_MAX
    ensures AndroidDue(now, delay) == DueAfter(now, delay)
  {
  }

  /** Past that range the 64-bit sum wraps below zero: the post is due before it was
      made, so the looper runs it at once, where `DueAfter` puts it beyond `LONG_MAX`. */
  lemma AndroidDueWrapsPastLongMax(now: int, delay: int)
    requires 0 <= now <= LONG_MAX && delay <= LONG_MAX
    requires now + delay > LONG_MAX
    ensures AndroidDue(now, delay) < 0 <= now
    ensures DueAfter(now, delay) > LONG_MAX
  {
    assert WaitFor(delay) == delay;
    assert LONG_MAX < now + delay <= LONG_MAX + LONG_RANGE;
  }

  /** How long `postDelayed` actually waits for a requested delay. */
  function WaitFor(delay: int): nat {
    if delay < 0 then 0 else delay
  }
}
