/**
 * The storefront's game-style overlay: a wanted level cycled with Tab,
 * its five stars, and the custom cursor driven by key, mouse-button and
 * hover events. Sound is reduced to a count of siren requests; the hovered
 * DOM element is reduced to what the cursor choice looks at.
 */
module Hud {

  /** The wanted level runs from 0 to this value and wraps back to 0. */
  const MaxWantedLevel: int := 5

  /** The mouse-button mask that means "right button only". */
  const RightButton: int := 2

  datatype Cursor = DefaultCursor | Pointer | Grab | Aiming | Loading

  /** The class name each cursor puts on the cursor element. */
  function ClassName(c: Cursor): string {
    match c
    case DefaultCursor => "gta-default"
    case Pointer => "gta-pointer"
    case Grab => "gta-grab"
    case Aiming => "gta-aiming"
    case Loading => "gta-loading"
  }

  /** The letter after `gta-` that tells the class names apart. */
  function Key(c: Cursor): char {
    match c
    case DefaultCursor => 'd'
    case Pointer => 'p'
    case Grab => 'g'
    case Aiming => 'a'
    case Loading => 'l'
  }

  lemma ClassNameKey(c: Cursor)
    ensures |ClassName(c)| > 4 && ClassName(c)[4] == Key(c)
  {
  }

  /** Different cursors put different classes on the element. */
  lemma ClassNamesDistinct(a: Cursor, b: Cursor)
    ensures ClassName(a) == ClassName(b) <==> a == b
  {
    ClassNameKey(a);
    ClassNameKey(b);
  }

  /**
   * The hovered element as the cursor choice sees it: whether it is or sits
   * inside a button, a link, or an element with the `draggable` class.
   */
  datatype Target = Target(isButton: bool, isLink: bool, isDraggable: bool)

  datatype HudState = HudState(
    wantedLevel: int,
    isAiming: bool,
    currentCursor: Cursor,
    mouseX: int,
    mouseY: int,
    sirenRequests: nat)

  /** The overlay after `ngOnInit`: the loading cursor is up until its timer fires. */
  function Init(): (h: HudState)
    ensures h.wantedLevel == 0 && !h.isAiming && h.currentCursor == Loading && h.sirenRequests == 0
    ensures h.mouseX == 0 && h.mouseY == 0
    ensures WellFormed(h)
  {
    HudState(0, false, Loading, 0, 0, 0)
  }

  /** `setCursor`: the current cursor becomes `c`, whatever it was. */
  function SetCursor(h: HudState, c: Cursor): (r: HudState)
    ensures r.currentCursor == c
    ensures r.(currentCursor := h.currentCursor) == h
  {
    h.(currentCursor := c)
  }

  /** The loading effect's timer: the cursor goes back to the default one. */
  function LoadingTimerFired(h: HudState): (r: HudState)
    ensures r.currentCursor == DefaultCursor
    ensures r.(currentCursor := h.currentCursor) == h
  {
    SetCursor(h, DefaultCursor)
  }

  /**
   * `toggleWantedLevel`: 5 wraps to 0, anything else goes up by one; a
   * siren is requested exactly when the new level is above 0.
   */
  function ToggleWantedLevel(h: HudState): (r: HudState)
    ensures 0 <= h.wantedLevel <= MaxWantedLevel ==> 0 <= r.wantedLevel <= MaxWantedLevel
    ensures h.wantedLevel == MaxWantedLevel ==> r.wantedLevel == 0
    ensures h.wantedLevel != MaxWantedLevel ==> r.wantedLevel == h.wantedLevel + 1
    ensures r.sirenRequests == h.sirenRequests + 1 <==> r.wantedLevel > 0
    ensures r.sirenRequests == h.sirenRequests <==> r.wantedLevel <= 0
    ensures r.(wantedLevel := h.wantedLevel, sirenRequests := h.sirenRequests) == h
  {
    var level := if h.wantedLevel == MaxWantedLevel then 0 else h.wantedLevel + 1;
    h.(wantedLevel := level,
       sirenRequests := if level > 0 then h.sirenRequests + 1 else h.sirenRequests)
  }

  /** `n` presses of Tab. */
  function ToggleTimes(h: HudState, n: nat): HudState {
    if n == 0 then h else ToggleWantedLevel(ToggleTimes(h, n - 1))
  }

  /** From a level in range, `n` toggles (at most one lap) land `n` places further round 0..5. */
  lemma {:induction false} ToggleTimesLevel(h: HudState, n: nat)
    requires 0 <= h.wantedLevel <= MaxWantedLevel && n <= MaxWantedLevel + 1
    ensures ToggleTimes(h, n).wantedLevel ==
              if h.wantedLevel + n <= MaxWantedLevel then h.wantedLevel + n else h.wantedLevel + n - (MaxWantedLevel + 1)
  {
    if n > 0 {
      ToggleTimesLevel(h, n - 1);
    }
  }

  /** Toggles change only the level and the siren count. */
  lemma {:induction false} ToggleTimesFrame(h: HudState, n: nat)
    ensures ToggleTimes(h, n).(wantedLevel := h.wantedLevel, sirenRequests := h.sirenRequests) == h
  {
    if n > 0 {
      ToggleTimesFrame(h, n - 1);
    }
  }

  /** Six toggles bring the level back; on the way the siren is requested five times. */
  lemma SixTogglesRestoreLevel(h: HudState)
    requires 0 <= h.wantedLevel <= MaxWantedLevel
    ensures ToggleTimes(h, 6).wantedLevel == h.wantedLevel
    ensures ToggleTimes(h, 6).sirenRequests == h.sirenRequests + 5
    ensures ToggleTimes(h, 6) == h.(sirenRequests := h.sirenRequests + 5)
  {
    ToggleTimesLevel(h, 6);
    ToggleTimesFrame(h, 6);
    SirenCount(h, 6);
  }

  /** Over one lap of toggles the siren sounds on every step but the one that lands on 0. */
  lemma {:induction false} SirenCount(h: HudState, n: nat)
    requires 0 <= h.wantedLevel <= MaxWantedLevel && n <= MaxWantedLevel + 1
    ensures ToggleTimes(h, n).sirenRequests ==
              h.sirenRequests + (if h.wantedLevel + n <= MaxWantedLevel then n else n - 1)
  {
    if n > 0 {
      SirenCount(h, n - 1);
      ToggleTimesLevel(h, n - 1);
      ToggleTimesLevel(h, n);
    }
  }

  /** The stars shown for a wanted level: star i (counting from 1) is lit when i <= level. */
  function Stars(level: int): (r: seq<bool>)
    ensures |r| == MaxWantedLevel
    ensures forall i :: 0 <= i < |r| ==> (r[i] <==> i + 1 <= level)
  {
    seq(MaxWantedLevel, i requires 0 <= i < MaxWantedLevel => i + 1 <= level)
  }

  /** `getWantedStars`: one entry per star, built by counting up from 1 to 5. */
  method GetWantedStars(h: HudState) returns (stars: seq<bool>)
    ensures |stars| == MaxWantedLevel
    ensures forall i :: 0 <= i < |stars| ==> (stars[i] <==> i + 1 <= h.wantedLevel)
  {
    stars := [];
    var i := 1;
    while i <= MaxWantedLevel
      invariant 1 <= i <= MaxWantedLevel + 1
      invariant |stars| == i - 1
      invariant forall k :: 0 <= k < |stars| ==> (stars[k] <==> k + 1 <= h.wantedLevel)
    {
      stars := stars + [i <= h.wantedLevel];
      i := i + 1;
    }
  }

  function CountLit(stars: seq<bool>): nat {
    if |stars| == 0 then 0 else (if stars[0] then 1 else 0) + CountLit(stars[1..])
  }

  /** Lit stars form a prefix. */
  lemma {:induction false} CountLitPrefix(stars: seq<bool>, k: nat)
    requires k <= |stars|
    requires forall i :: 0 <= i < |stars| ==> (stars[i] <==> i < k)
    ensures CountLit(stars) == k
  {
    if |stars| > 0 {
      if k > 0 {
        CountLitPrefix(stars[1..], k - 1);
      } else {
        CountLitPrefix(stars[1..], 0);
      }
    }
  }

  /** As many stars are lit as the wanted level says, for every level the overlay can reach. */
  lemma LitStarsMatchLevel(level: int)
    requires 0 <= level <= MaxWantedLevel
    ensures CountLit(Stars(level)) == level
  {
    CountLitPrefix(Stars(level), level);
  }

  predicate IsAimKey(code: string) {
    code == "ShiftRight" || code == "ControlRight"
  }

  /**
   * `onKeyDown`: a right Shift or Control starts aiming; Tab toggles the
   * wanted level once; other keys change nothing.
   */
  function OnKeyDown(h: HudState, code: string): (r: HudState)
    ensures IsAimKey(code) ==> r.isAiming && r.currentCursor == Aiming
    ensures IsAimKey(code) ==> r.(isAiming := h.isAiming, currentCursor := h.currentCursor) == h
    ensures r.mouseX == h.mouseX && r.mouseY == h.mouseY
    ensures !IsAimKey(code) ==> r.isAiming == h.isAiming && r.currentCursor == h.currentCursor
    ensures code == "Tab" ==> r == ToggleWantedLevel(h)
    ensures code != "Tab" ==> r.wantedLevel == h.wantedLevel && r.sirenRequests == h.sirenRequests
    ensures !IsAimKey(code) && code != "Tab" ==> r == h
  {
    var aimed := if IsAimKey(code) then SetCursor(h.(isAiming := true), Aiming) else h;
    if code == "Tab" then ToggleWantedLevel(aimed) else aimed
  }

  /** `onKeyUp`: releasing a right Shift or Control stops aiming; other keys change nothing. */
  function OnKeyUp(h: HudState, code: string): (r: HudState)
    ensures IsAimKey(code) ==> !r.isAiming && r.currentCursor == DefaultCursor
    ensures IsAimKey(code) ==> r.(isAiming := h.isAiming, currentCursor := h.currentCursor) == h
    ensures !IsAimKey(code) ==> r == h
  {
    if IsAimKey(code) then SetCursor(h.(isAiming := false), DefaultCursor) else h
  }

  /**
   * `checkAimingState`: the right button alone means aiming; anything else
   * ends aiming, and takes the aiming cursor (only that one) back to default.
   */
  function CheckAimingState(h: HudState, buttons: int): (r: HudState)
    ensures buttons == RightButton ==> r.isAiming && r.currentCursor == Aiming
    ensures buttons != RightButton ==> !r.isAiming
    ensures buttons != RightButton && h.currentCursor == Aiming ==> r.currentCursor == DefaultCursor
    ensures buttons != RightButton && h.currentCursor != Aiming ==> r.currentCursor == h.currentCursor
    ensures r.(isAiming := h.isAiming, currentCursor := h.currentCursor) == h
  {
    if buttons == RightButton then SetCursor(h.(isAiming := true), Aiming)
    else
      var h1 := h.(isAiming := false);
      if h1.currentCursor == Aiming then SetCursor(h1, DefaultCursor) else h1
  }

  /** `onMouseMove`: the pointer position is recorded, then the buttons are checked. */
  function OnMouseMove(h: HudState, x: int, y: int, buttons: int): (r: HudState)
    ensures r.mouseX == x && r.mouseY == y
    ensures r.isAiming <==> buttons == RightButton
    ensures buttons == RightButton ==> r.currentCursor == Aiming
    ensures buttons != RightButton ==> r.currentCursor == (if h.currentCursor == Aiming then DefaultCursor else h.currentCursor)
    ensures r.wantedLevel == h.wantedLevel && r.sirenRequests == h.sirenRequests
  {
    CheckAimingState(h.(mouseX := x, mouseY := y), buttons)
  }

  /** The cursor for a hovered element: button, then link, then draggable, then default. */
  function HoverCursor(t: Target): (c: Cursor)
    ensures c == Pointer <==> t.isButton || t.isLink
    ensures c == Grab <==> !t.isButton && !t.isLink && t.isDraggable
    ensures c == DefaultCursor <==> !t.isButton && !t.isLink && !t.isDraggable
  {
    if t.isButton then Pointer
    else if t.isLink then Pointer
    else if t.isDraggable then Grab
    else DefaultCursor
  }

  /** `onMouseOver`: the cursor follows the hovered element; aiming is left as it was. */
  function OnMouseOver(h: HudState, t: Target): (r: HudState)
    ensures r.currentCursor != Aiming && r.currentCursor != Loading
    ensures r.currentCursor == HoverCursor(t)
    ensures r.(currentCursor := h.currentCursor) == h
  {
    SetCursor(h, HoverCursor(t))
  }

  /**
   * What every event keeps: the level stays in 0..5, and the aiming cursor
   * is only ever shown while aiming.
   */
  predicate WellFormed(h: HudState) {
    && 0 <= h.wantedLevel <= MaxWantedLevel
    && (h.currentCursor == Aiming ==> h.isAiming)
  }

  /** Every event handler of the overlay preserves `WellFormed`. */
  lemma EventsKeepWellFormed(h: HudState, code: string, x: int, y: int, buttons: int, t: Target)
    requires WellFormed(h)
    ensures WellFormed(OnKeyDown(h, code))
    ensures WellFormed(OnKeyUp(h, code))
    ensures WellFormed(OnMouseMove(h, x, y, buttons))
    ensures WellFormed(OnMouseOver(h, t))
    ensures WellFormed(LoadingTimerFired(h))
  {
  }

  /** Pressing and releasing an aim key ends with aiming off and the default cursor. */
  lemma AimKeyPressRelease(h: HudState, code: string)
    requires IsAimKey(code)
    ensures OnKeyUp(OnKeyDown(h, code), code) == h.(isAiming := false, currentCursor := DefaultCursor)
  {
  }

  /** Checking the buttons twice in a row is the same as checking once. */
  lemma CheckAimingStateIdempotent(h: HudState, buttons: int)
    ensures CheckAimingState(CheckAimingState(h, buttons), buttons) == CheckAimingState(h, buttons)
  {
  }
}
