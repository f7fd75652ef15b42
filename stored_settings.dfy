/** The overlay settings the two settings screens keep in AsyncStorage: six keys
    written together by `saveState` and read back on mount. Numbers are stored as
    their decimal text and the two switches as JSON `true`/`false`. */
module StoredSettings {
  import opened Wrappers
  import opened Text

  const KEY_OVERLAY_ON := "@overlayOn"
  const KEY_ALWAYS_ON := "@alwaysOn"
  const KEY_ON_DURATION := "@onDuration"
  const KEY_OFF_DURATION := "@offDuration"
  const KEY_OVERLAY_COLOR := "@overlayColor"
  const KEY_OVERLAY_SIZE := "@overlaySize"

  const SETTING_KEYS := {KEY_OVERLAY_ON, KEY_ALWAYS_ON, KEY_ON_DURATION, KEY_OFF_DURATION,
                         KEY_OVERLAY_COLOR, KEY_OVERLAY_SIZE}

  const DEFAULT_SIZE := 50
  const DEFAULT_COLOR := "blue"

  /** The timings the Always-On mode blinks with: an hour on, a second off. */
  const ALWAYS_ON_MS := 60 * 60 * 1000
  const ALWAYS_OFF_MS := 1000

  type Storage = map<string, string>

  /** A JavaScript number as the screens hold it: whole, or the NaN that `parseInt`
      gives for text without digits. */
  datatype JsNum = Whole(n: int) | NaN

  /** `n.toString()`. */
  function NumText(x: JsNum): string {
    match x
    case Whole(n) => IntToString(n)
    case NaN => "NaN"
  }

  /** `parseInt(text, 10)` (and `parseFloat` on the whole-number texts the screens write). */
  function ParseNum(text: string): JsNum {
    match ParseInt(text)
    case Some(n) => Whole(n)
    case None => NaN
  }

  lemma ParseNumOfNumText(x: JsNum)
    ensures ParseNum(NumText(x)) == x
  {
    match x
    case Whole(n) => ParseIntOfIntToString(n);
    case NaN => {
      assert TrimStart("NaN") == "NaN";
      assert LeadingDigits("NaN") == 0;
    }
  }

  /** `JSON.stringify(b)`. */
  function BoolText(b: bool): string {
    if b then "true" else "false"
  }

  /** `JSON.parse(text)` for a stored switch; `None` when it throws. */
  function ParseBool(text: string): Option<bool> {
    if text == "true" then Some(true) else if text == "false" then Some(false) else None
  }

  /** A stored text that JavaScript counts as present: neither missing nor empty. */
  function Present(storage: Storage, key: string): Option<string> {
    if key in storage && storage[key] != "" then Some(storage[key]) else None
  }

  /** The six settings. */
  datatype Prefs = Prefs(overlayOn: bool, alwaysOn: bool, onDuration: JsNum, offDuration: JsNum,
                         size: JsNum, color: string)

  /** `saveState(…)`: one `multiSet` of the six keys; when it fails nothing is written
      and the failure is only logged. */
  function Saved(storage: Storage, p: Prefs, fails: bool): (st: Storage)
    ensures !fails ==> st.Keys == storage.Keys + {KEY_OVERLAY_ON, KEY_ALWAYS_ON, KEY_ON_DURATION,
                                                  KEY_OFF_DURATION, KEY_OVERLAY_SIZE, KEY_OVERLAY_COLOR}
    ensures !fails ==> forall k :: k in storage && k !in SETTING_KEYS ==> st[k] == storage[k]
    ensures fails ==> st == storage
  {
    if fails then storage
    else storage[KEY_OVERLAY_ON := BoolText(p.overlayOn)][KEY_ALWAYS_ON := BoolText(p.alwaysOn)]
                [KEY_ON_DURATION := NumText(p.onDuration)][KEY_OFF_DURATION := NumText(p.offDuration)]
                [KEY_OVERLAY_SIZE := NumText(p.size)][KEY_OVERLAY_COLOR := p.color]
  }

  /** The settings screen's load: every key read, missing or empty ones defaulted, then
      all set together; `None` when a switch's text is not JSON `true`/`false` and the
      parse throws, so nothing is set. */
  function Loaded(storage: Storage, defaultDuration: int): Option<Prefs> {
    var on := Present(storage, KEY_OVERLAY_ON);
    var always := Present(storage, KEY_ALWAYS_ON);
    var overlayOn := if on.Some? then ParseBool(on.value) else Some(false);
    var alwaysOn := if always.Some? then ParseBool(always.value) else Some(false);
    if overlayOn.None? || alwaysOn.None? then None
    else
      Some(Prefs(overlayOn.value, alwaysOn.value,
                 NumOr(storage, KEY_ON_DURATION, defaultDuration),
                 NumOr(storage, KEY_OFF_DURATION, defaultDuration),
                 NumOr(storage, KEY_OVERLAY_SIZE, DEFAULT_SIZE),
                 Present(storage, KEY_OVERLAY_COLOR).GetOr(DEFAULT_COLOR)))
  }

  /** `saved ? parseInt(saved, 10) : default`. */
  function NumOr(storage: Storage, key: string, default: int): JsNum {
    var text := Present(storage, key);
    if text.Some? then ParseNum(text.value) else Whole(default)
  }

  /** With nothing stored the load gives the defaults: overlay off, Always-On off, the
      default durations, size 50 and blue. */
  lemma LoadedFromEmpty(defaultDuration: int)
    ensures Loaded(map[], defaultDuration) ==
      Some(Prefs(false, false, Whole(defaultDuration), Whole(defaultDuration), Whole(DEFAULT_SIZE), DEFAULT_COLOR))
  {
  }

  /** What a successful save wrote is what the next load reads, provided the colour is
      not the empty text (which reads back as blue). */
  lemma {:induction false} LoadedAfterSaved(storage: Storage, p: Prefs, defaultDuration: int)
    requires p.color != ""
    ensures Loaded(Saved(storage, p, false), defaultDuration) == Some(p)
  {
    var st := Saved(storage, p, false);
    SavedReadsBack(storage, p);
    SwitchReadsBack(st, KEY_OVERLAY_ON, p.overlayOn);
    SwitchReadsBack(st, KEY_ALWAYS_ON, p.alwaysOn);
    NumOrReadsBack(st, KEY_ON_DURATION, p.onDuration, defaultDuration);
    NumOrReadsBack(st, KEY_OFF_DURATION, p.offDuration, defaultDuration);
    NumOrReadsBack(st, KEY_OVERLAY_SIZE, p.size, DEFAULT_SIZE);
    assert Present(st, KEY_OVERLAY_COLOR) == Some(p.color);
  }

  /** A switch written as `JSON.stringify(b)` is present and parses back to `b`. */
  lemma SwitchReadsBack(st: Storage, key: string, b: bool)
    requires key in st && st[key] == BoolText(b)
    ensures Present(st, key) == Some(BoolText(b)) && ParseBool(st[key]) == Some(b)
  {
  }

  /** A number written as its text is present and `parseInt` gives it back. */
  lemma NumOrReadsBack(st: Storage, key: string, x: JsNum, default: int)
    requires key in st && st[key] == NumText(x)
    ensures NumOr(st, key, default) == x
  {
    NonEmptyNumText(x);
    ParseNumOfNumText(x);
  }

  /** Each key of a successful save holds the text of its setting. */
  lemma SavedReadsBack(storage: Storage, p: Prefs)
    ensures var st := Saved(storage, p, false);
      st[KEY_OVERLAY_ON] == BoolText(p.overlayOn) && st[KEY_ALWAYS_ON] == BoolText(p.alwaysOn) &&
      st[KEY_ON_DURATION] == NumText(p.onDuration) && st[KEY_OFF_DURATION] == NumText(p.offDuration) &&
      st[KEY_OVERLAY_SIZE] == NumText(p.size) && st[KEY_OVERLAY_COLOR] == p.color
  {
  }

  lemma NonEmptyNumText(x: JsNum)
    ensures NumText(x) != ""
  {
  }
}
