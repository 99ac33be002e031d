/**
  Terminal input as the console sees it. `getch()` key codes come from one
  stream and `getstr()` line reads from another; every screen takes what it
  reads from the front of these streams and hands the rest on. A screen
  that needs more input than is left is still waiting for it.
 */
module Terminal {
  import opened Wrappers
  import opened PyText

  /** A `getch()` result: a curses key code or a character code. */
  type Key = int

  const KEY_DOWN: Key := 258
  const KEY_UP: Key := 259
  const KEY_ENTER: Key := 343
  const ESCAPE: Key := 27
  const SPACE: Key := 32

  function Ord(c: char): Key {
    c as int
  }

  predicate IsUpKey(k: Key) {
    k == KEY_UP || k == Ord('k')
  }

  predicate IsDownKey(k: Key) {
    k == KEY_DOWN || k == Ord('j')
  }

  /** The keys every screen treats as Enter: KEY_ENTER, 10, 13 and `l`. */
  predicate IsEnterKey(k: Key) {
    k == KEY_ENTER || k == 10 || k == 13 || k == Ord('l')
  }

  /** One `getstr()` call: the characters typed before Enter, or Ctrl+C (KeyboardInterrupt). */
  datatype Read = Typed(text: string) | Interrupted

  /** `getstr(y, x, limit).decode().strip()`: `None` stands for the KeyboardInterrupt. */
  function ReadLine(r: Read, limit: nat): (s: Option<string>)
    ensures r.Interrupted? <==> s.None?
    ensures s.Some? ==> |s.value| <= limit && s.value == Strip(PyPrefix(r.text, limit))
  {
    match r
    case Interrupted => None
    case Typed(t) => Some(Strip(PyPrefix(t, limit)))
  }

  /** The input still to come: key presses for `getch()` and lines for `getstr()`. */
  datatype Input = Input(keys: seq<Key>, texts: seq<Read>)

  /** A screen's outcome: what it returned and the input it left, or still waiting for input. */
  datatype Next<T> = Got(value: T, rest: Input) | Blocked

  /** `rest` is what is left of `inp` once some keys and some lines were read from its front. */
  predicate Consumed(inp: Input, rest: Input) {
    && |rest.keys| <= |inp.keys| && rest.keys == inp.keys[|inp.keys| - |rest.keys|..]
    && |rest.texts| <= |inp.texts| && rest.texts == inp.texts[|inp.texts| - |rest.texts|..]
  }

  lemma {:induction false} ConsumedTrans(a: Input, b: Input, c: Input)
    requires Consumed(a, b) && Consumed(b, c)
    ensures Consumed(a, c)
  {
    assert c.keys == a.keys[|a.keys| - |c.keys|..] by {
      assert b.keys[|b.keys| - |c.keys|..] == a.keys[|a.keys| - |b.keys|..][|b.keys| - |c.keys|..];
    }
    assert c.texts == a.texts[|a.texts| - |c.texts|..] by {
      assert b.texts[|b.texts| - |c.texts|..] == a.texts[|a.texts| - |b.texts|..][|b.texts| - |c.texts|..];
    }
  }

  /** Reading one line consumes it. */
  lemma {:induction false} ConsumedLine(inp: Input)
    requires inp.texts != []
    ensures Consumed(inp, inp.(texts := inp.texts[1..]))
  {
    assert inp.keys[|inp.keys| - |inp.keys|..] == inp.keys;
  }

  /** Reading one line and one key consumes both. */
  lemma {:induction false} ConsumedLineAndKey(inp: Input)
    requires inp.texts != [] && inp.keys != []
    ensures Consumed(inp, Input(inp.keys[1..], inp.texts[1..]))
  {
  }
}
