/** Navigation decisions of the dashboard: which tab `switchTab` moves to,
    how a touch swipe is classified, and which action a camera control
    button runs. */
module Navigation {
  import opened Wrappers

  /** JavaScript's `%` by a positive divisor: the remainder takes the sign
      of the dividend (truncating division), where Dafny's `%` is Euclidean. */
  function JsRem(a: int, b: int): (r: int)
    requires b > 0
    ensures a >= 0 ==> r == a % b
    ensures a < 0 ==> -b < r <= 0
    ensures (a - r) % b == 0
  {
    var q := if a >= 0 then a / b else -((-a) / b);
    MultipleRem(q, b);
    if a >= 0 then a % b else -((-a) % b)
  }

  /** A multiple of the divisor leaves no remainder. */
  lemma MultipleRem(q: int, b: int)
    requires b > 0
    ensures (q * b) % b == 0
  {
    var d := q - (q * b) / b;
    assert d * b == (q * b) % b;
    assert d >= 1 ==> d * b >= b;
    assert d <= -1 ==> d * b <= -b;
  }

  /** The remainder of a number below twice the divisor. */
  lemma ModOfRange(x: int, n: int)
    requires n > 0 && 0 <= x < 2 * n
    ensures x % n == (if x < n then x else x - n)
  {
    if x < n {
      assert x == n * 0 + x;
    } else {
      assert x == n * 1 + (x - n);
    }
  }

  datatype Direction = Next | Prev

  /** The index `switchTab` hands to `handleNavigation` (script.js:942-954):
      `activeIndex` is what `findIndex` found (-1 when no item is active) and
      `n` the number of nav items. With no nav items the remainder is NaN and
      no item is selected. */
  function SwitchTab(dir: Direction, activeIndex: int, n: nat): (r: Option<nat>)
    requires activeIndex == -1 || 0 <= activeIndex < n
    ensures r.Some? <==> n > 0
    ensures r.Some? ==> r.value < n
  {
    if n == 0 then None
    else
      var raw := match dir
        case Next => JsRem(activeIndex + 1, n)
        case Prev => JsRem(activeIndex - 1 + n, n);
      assert raw >= 0 by {
        if dir == Prev && activeIndex - 1 + n < 0 {
          assert n == 1 && raw == -(1 % 1);
        }
      }
      Some(raw)
  }

  /** From an active tab, `next` moves one step forward and `prev` one step
      back, wrapping around at both ends. */
  lemma SwitchTabSteps(i: int, n: nat)
    requires 0 <= i < n
    ensures SwitchTab(Next, i, n) == Some(if i == n - 1 then 0 else i + 1)
    ensures SwitchTab(Prev, i, n) == Some(if i == 0 then n - 1 else i - 1)
  {
    ModOfRange(i + 1, n);
    ModOfRange(i - 1 + n, n);
  }

  /** `prev` undoes `next` and `next` undoes `prev`. */
  lemma SwitchTabInverse(i: int, n: nat)
    requires 0 <= i < n
    ensures SwitchTab(Prev, SwitchTab(Next, i, n).value, n) == Some(i)
    ensures SwitchTab(Next, SwitchTab(Prev, i, n).value, n) == Some(i)
  {
    SwitchTabSteps(i, n);
    SwitchTabSteps(SwitchTab(Next, i, n).value, n);
    SwitchTabSteps(SwitchTab(Prev, i, n).value, n);
  }

  /** With no active item, `next` selects the first item, and `prev`
      selects the second-to-last one (`(-1 - 1 + n) % n`), or the only one. */
  lemma SwitchTabFromNone(n: nat)
    requires n > 0
    ensures SwitchTab(Next, -1, n) == Some(0)
    ensures SwitchTab(Prev, -1, n) == Some(if n >= 2 then n - 2 else 0)
  {
    ModOfRange(0, n);
    if n >= 2 {
      ModOfRange(n - 2, n);
    }
  }

  /** What a touch swipe does (script.js:884-912). */
  datatype SwipeAction = Refresh | PullHint | NextTab | PrevTab | Ignore

  const SwipeThreshold: int := 50

  function Abs(x: int): nat
  {
    if x < 0 then -x else x
  }

  /** A swipe is vertical when its vertical travel is strictly larger than
      its horizontal travel; it acts only when that travel exceeds 50. */
  function ClassifySwipe(startX: int, startY: int, endX: int, endY: int): (a: SwipeAction)
    ensures var v, h := startY - endY, startX - endX;
      && (a == Refresh <==> Abs(v) > Abs(h) && v > SwipeThreshold)
      && (a == PullHint <==> Abs(v) > Abs(h) && v < -SwipeThreshold)
      && (a == NextTab <==> Abs(v) <= Abs(h) && h > SwipeThreshold)
      && (a == PrevTab <==> Abs(v) <= Abs(h) && h < -SwipeThreshold)
  {
    var verticalDiff := startY - endY;
    var horizontalDiff := startX - endX;
    if Abs(verticalDiff) > Abs(horizontalDiff) then
      if Abs(verticalDiff) > SwipeThreshold then
        if verticalDiff > 0 then Refresh else PullHint
      else Ignore
    else
      if Abs(horizontalDiff) > SwipeThreshold then
        if horizontalDiff > 0 then NextTab else PrevTab
      else Ignore
  }

  /** A gesture traced backwards does the opposite thing. */
  lemma ReversedSwipe(startX: int, startY: int, endX: int, endY: int)
    ensures var a, b := ClassifySwipe(startX, startY, endX, endY), ClassifySwipe(endX, endY, startX, startY);
      (a == Refresh <==> b == PullHint) && (a == NextTab <==> b == PrevTab) && (a == Ignore <==> b == Ignore)
  {
  }

  /** A movement of at most 50 in both directions does nothing. */
  lemma ShortSwipeIgnored(startX: int, startY: int, endX: int, endY: int)
    requires Abs(startX - endX) <= SwipeThreshold && Abs(startY - endY) <= SwipeThreshold
    ensures ClassifySwipe(startX, startY, endX, endY) == Ignore
  {
  }

  /** The camera control buttons, in page order (script.js:76-97). */
  datatype Control = Photo | Record | Fullscreen

  /** `['photo', 'record', 'fullscreen'][index]`: any other index reads
      `undefined` and the switch runs no case. */
  function ControlAction(index: int): (c: Option<Control>)
    ensures c.Some? <==> 0 <= index < 3
  {
    if index == 0 then Some(Photo)
    else if index == 1 then Some(Record)
    else if index == 2 then Some(Fullscreen)
    else None
  }

  /** The position of each action among the buttons. */
  function ControlIndex(c: Control): nat
  {
    match c
    case Photo => 0
    case Record => 1
    case Fullscreen => 2
  }

  /** Each action is run by exactly one button: the one at its position. */
  lemma ControlActionIndex(c: Control, index: int)
    ensures ControlAction(index) == Some(c) <==> index == ControlIndex(c)
  {
  }
}
