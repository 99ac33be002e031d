/**
  The key machine of `display_menu` (ui/menu.py): a highlighted row, a set
  of ticked rows in multi-select mode, and a result that is an index
  (including the sentinels -2 for refresh and -3 for back), a selection or
  `None`.
 */
module Menu {
  import opened Wrappers
  import opened Terminal
  import opened UiUtils

  /** What `display_menu` returns: `None`, an `int`, or the ticked rows (their list order is not modelled). */
  datatype MenuResult = NoneResult | Index(i: int) | Selection(items: set<int>)

  const REFRESH: int := -2
  const BACK: int := -3

  /** `current_row` and `selected` (always empty in single-select mode, where Python has `None`). */
  datatype MenuState = MenuState(row: int, selected: set<int>)

  datatype Step = Continue(state: MenuState) | Return(result: MenuResult)

  /** The state every reachable point of the loop satisfies, for `n` options. */
  predicate InRange(n: int, multi: bool, s: MenuState) {
    && 0 <= s.row < n
    && (forall i :: i in s.selected ==> 0 <= i < n)
    && (!multi ==> s.selected == {})
  }

  function Toggle(s: set<int>, i: int): (r: set<int>)
    ensures i in r <==> i !in s
    ensures forall j :: j != i ==> (j in r <==> j in s)
  {
    if i in s then s - {i} else s + {i}
  }

  /** A result a menu over `n` options can give. */
  predicate ValidResult(n: int, multi: bool, r: MenuResult) {
    match r
    case NoneResult => !multi
    case Index(i) => i == REFRESH || i == BACK || (0 <= i < n && !multi)
    case Selection(items) => multi && forall i :: i in items ==> 0 <= i < n
  }

  predicate IsDigitKey(k: Key) {
    Ord('1') <= k <= Ord('9')
  }

  /** One pass of the `if`/`elif` chain on a key. */
  function StepKey(n: int, multi: bool, s: MenuState, key: Key): (r: Step)
    requires InRange(n, multi, s)
    ensures r.Continue? ==> InRange(n, multi, r.state)
    ensures r.Return? ==> ValidResult(n, multi, r.result)
  {
    if IsUpKey(key) && s.row > 0 then Continue(s.(row := s.row - 1))
    else if IsDownKey(key) && s.row < n - 1 then Continue(s.(row := s.row + 1))
    else if key == SPACE then
      Continue(if multi then s.(selected := Toggle(s.selected, s.row)) else s)
    else if IsEnterKey(key) then
      Return(if multi then Selection(s.selected) else Index(s.row))
    else if IsDigitKey(key) then
      var num := key - Ord('1');
      if num < n then
        (if multi then Continue(s.(selected := Toggle(s.selected, num))) else Return(Index(num)))
      else Continue(s)
    else if key == Ord('r') || key == Ord('R') then Return(Index(REFRESH))
    else if key == Ord('b') || key == Ord('B') then Return(Index(BACK))
    else if key == Ord('q') || key == Ord('Q') then
      Return(if multi then Selection(s.selected) else NoneResult)
    else Continue(s)
  }

  /** What each key does, branch by branch of the chain. */
  lemma StepKeyBehaviour(n: int, multi: bool, s: MenuState, key: Key)
    requires InRange(n, multi, s)
    ensures IsUpKey(key) ==> StepKey(n, multi, s, key) == Continue(s.(row := if s.row > 0 then s.row - 1 else s.row))
    ensures IsDownKey(key) ==> StepKey(n, multi, s, key) == Continue(s.(row := if s.row < n - 1 then s.row + 1 else s.row))
    ensures key == SPACE ==> StepKey(n, multi, s, key) == Continue(if multi then s.(selected := Toggle(s.selected, s.row)) else s)
    ensures IsEnterKey(key) ==> StepKey(n, multi, s, key) == Return(if multi then Selection(s.selected) else Index(s.row))
    ensures IsDigitKey(key) && key - Ord('1') < n ==>
      StepKey(n, multi, s, key) == (if multi then Continue(s.(selected := Toggle(s.selected, key - Ord('1')))) else Return(Index(key - Ord('1'))))
    ensures IsDigitKey(key) && key - Ord('1') >= n ==> StepKey(n, multi, s, key) == Continue(s)
    ensures key == Ord('0') ==> StepKey(n, multi, s, key) == Continue(s)
    ensures StepKey(n, multi, s, key) == Return(Index(REFRESH)) <==> key == Ord('r') || key == Ord('R')
    ensures StepKey(n, multi, s, key) == Return(Index(BACK)) <==> key == Ord('b') || key == Ord('B')
    ensures key == Ord('q') || key == Ord('Q') ==> StepKey(n, multi, s, key) == Return(if multi then Selection(s.selected) else NoneResult)
    ensures StepKey(n, multi, s, key).Return? && StepKey(n, multi, s, key).result.NoneResult? <==> !multi && (key == Ord('q') || key == Ord('Q'))
  {
  }

  /** How a menu ends: with a result and the keys left over, or still waiting for a key. */
  datatype MenuRun = Chosen(result: MenuResult, rest: seq<Key>) | Waiting(state: MenuState)

  /** The loop of `display_menu` from state `s` over the keys still to be pressed. */
  function Run(n: int, multi: bool, s: MenuState, keys: seq<Key>): MenuRun
    requires InRange(n, multi, s)
    decreases |keys|
  {
    if keys == [] then Waiting(s)
    else match StepKey(n, multi, s, keys[0])
      case Return(r) => Chosen(r, keys[1..])
      case Continue(s') => Run(n, multi, s', keys[1..])
  }

  /** The state a menu over `n` options starts in. */
  function Start(): MenuState {
    MenuState(0, {})
  }

  /** Whatever keys are pressed, a menu result is one the caller can expect and the rest is a suffix of the keys. */
  lemma {:induction false} RunIsValid(n: int, multi: bool, s: MenuState, keys: seq<Key>)
    requires InRange(n, multi, s)
    ensures Run(n, multi, s, keys).Chosen? ==>
      && ValidResult(n, multi, Run(n, multi, s, keys).result)
      && |Run(n, multi, s, keys).rest| < |keys|
      && Run(n, multi, s, keys).rest == keys[|keys| - |Run(n, multi, s, keys).rest|..]
    ensures Run(n, multi, s, keys).Waiting? ==> InRange(n, multi, Run(n, multi, s, keys).state)
    decreases |keys|
  {
    if keys != [] {
      match StepKey(n, multi, s, keys[0])
      case Return(r) =>
      case Continue(s') =>
        RunIsValid(n, multi, s', keys[1..]);
        var rest := Run(n, multi, s', keys[1..]);
        if rest.Chosen? {
          assert keys[1..][|keys| - 1 - |rest.rest|..] == keys[|keys| - |rest.rest|..];
        }
    }
  }

  /** Without a terminating key the menu never returns: only the keys of the `if` chain that return end it. */
  lemma {:induction false} NavigationNeverReturns(n: int, s: MenuState, keys: seq<Key>)
    requires InRange(n, false, s)
    requires forall i :: 0 <= i < |keys| ==> IsUpKey(keys[i]) || IsDownKey(keys[i]) || keys[i] == SPACE || keys[i] == Ord('0')
    ensures Run(n, false, s, keys).Waiting?
    decreases |keys|
  {
    if keys != [] {
      NavigationNeverReturns(n, StepKey(n, false, s, keys[0]).state, keys[1..]);
    }
  }

  /** The box `display_menu` draws, or `None` where `max()` over no options raises ValueError. */
  datatype Box = Box(x: int, y: int, width: int, height: int)

  function Longest(options: seq<string>): (m: nat)
    ensures forall i :: 0 <= i < |options| ==> |options[i]| <= m
    ensures options != [] ==> exists i :: 0 <= i < |options| && |options[i]| == m
    ensures options == [] ==> m == 0
  {
    if options == [] then 0
    else
      var t := Longest(options[1..]);
      assert forall i :: 1 <= i < |options| ==> options[i] == options[1..][i - 1];
      if |options[0]| >= t then |options[0]| else t
  }

  function Min(a: int, b: int): int {
    if a < b then a else b
  }

  function Max(a: int, b: int): int {
    if a > b then a else b
  }

  function MenuBox(screen: Screen, options: seq<string>, multi: bool): (b: Option<Box>)
    ensures b.None? <==> options == []
    ensures b.Some? ==>
      && b.value.width == Min(screen.width - 4, Max(60, Longest(options) + 10 + (if multi then 6 else 0)))
      && b.value.height == Min(screen.height - 4, |options| + 8)
    ensures b.Some? && UsableScreen(screen) ==>
      && 2 <= b.value.x && b.value.x + b.value.width <= screen.width - 2
      && 2 <= b.value.y && b.value.y + b.value.height <= screen.height - 2
      && b.value.height >= 6
  {
    if options == [] then None
    else
      var extra := if multi then 6 else 0;
      var w := Min(screen.width - 4, Max(60, Longest(options) + 10 + extra));
      var h := Min(screen.height - 4, |options| + 8);
      Some(Box((screen.width - w) / 2, (screen.height - h) / 2, w, h))
  }

  /** The number of option rows drawn: rows from `y + 3` up to the last three lines of the box. */
  function VisibleRows(b: Box, n: nat): (v: int)
    ensures b.height >= 6 ==> 0 <= v <= n
    ensures v == n || v == b.height - 6
  {
    Min(n, b.height - 6)
  }

  /**
    The loop of `display_menu`, reading keys from the front of `keys`. With
    no options the first frame raises ValueError, reported as `None`.
   */
  method DisplayMenu(screen: Screen, options: seq<string>, multi: bool, keys: seq<Key>) returns (out: Option<MenuRun>)
    ensures out.None? <==> options == []
    ensures out.Some? ==> out.value == Run(|options|, multi, Start(), keys)
    ensures out.Some? && out.value.Chosen? ==> ValidResult(|options|, multi, out.value.result)
  {
    var box := MenuBox(screen, options, multi);
    if box.None? {
      return None;
    }
    var n := |options|;
    var row := 0;
    var selected: set<int> := {};
    var i := 0;
    while i < |keys|
      invariant 0 <= i <= |keys|
      invariant InRange(n, multi, MenuState(row, selected))
      invariant Run(n, multi, MenuState(row, selected), keys[i..]) == Run(n, multi, Start(), keys)
      decreases |keys| - i
    {
      var key := keys[i];
      assert keys[i..][1..] == keys[i + 1..];
      i := i + 1;
      if IsUpKey(key) && row > 0 {
        row := row - 1;
      } else if IsDownKey(key) && row < n - 1 {
        row := row + 1;
      } else if key == SPACE {
        if multi {
          if row in selected {
            selected := selected - {row};
          } else {
            selected := selected + {row};
          }
        }
      } else if IsEnterKey(key) {
        RunIsValid(n, multi, Start(), keys);
        return Some(Chosen(if multi then Selection(selected) else Index(row), keys[i..]));
      } else if IsDigitKey(key) {
        var num := key - Ord('1');
        if num < n {
          if multi {
            if num in selected {
              selected := selected - {num};
            } else {
              selected := selected + {num};
            }
          } else {
            RunIsValid(n, multi, Start(), keys);
            return Some(Chosen(Index(num), keys[i..]));
          }
        }
      } else if key == Ord('r') || key == Ord('R') {
        RunIsValid(n, multi, Start(), keys);
        return Some(Chosen(Index(REFRESH), keys[i..]));
      } else if key == Ord('b') || key == Ord('B') {
        RunIsValid(n, multi, Start(), keys);
        return Some(Chosen(Index(BACK), keys[i..]));
      } else if key == Ord('q') || key == Ord('Q') {
        RunIsValid(n, multi, Start(), keys);
        return Some(Chosen(if multi then Selection(selected) else NoneResult, keys[i..]));
      }
    }
    assert keys[i..] == [];
    return Some(Waiting(MenuState(row, selected)));
  }
}
