/** Layout arithmetic of the curses helpers (ui/utils.py); drawing itself is not modelled. */
module UiUtils {
  import opened Wrappers
  import opened PyText

  /** Terminal size as the helpers use it: rows and columns. */
  datatype Screen = Screen(height: int, width: int)

  /** What `stdscr.getmaxyx()` gave: a size, or an exception. */
  datatype SizeQuery = Reported(rows: int, cols: int) | QueryFailed

  /** A size `get_screen_size` can return. */
  predicate UsableScreen(s: Screen) {
    s.height >= 10 && s.width >= 40
  }

  /** `get_screen_size`: the reported size raised to at least 10 x 40, or 24 x 80 when the query fails. */
  function GetScreenSize(q: SizeQuery): (s: Screen)
    ensures UsableScreen(s)
    ensures q.QueryFailed? ==> s == Screen(24, 80)
    ensures q.Reported? ==> (s.height == q.rows || (q.rows < 10 && s.height == 10))
    ensures q.Reported? ==> (s.width == q.cols || (q.cols < 40 && s.width == 40))
  {
    match q
    case QueryFailed => Screen(24, 80)
    case Reported(h, w) => Screen(if h > 10 then h else 10, if w > 40 then w else 40)
  }

  /** `center_string`: `text` padded with spaces on both sides, or cut, to `width` characters. */
  function CenterString(text: string, width: int): (r: string)
    ensures width >= 0 ==> |r| == width
    ensures |text| >= width ==> r == PyPrefix(text, width)
    ensures |text| < width ==>
      var pad := (width - |text|) / 2;
      && pad + |text| <= |r|
      && r[..pad] == Spaces(pad)
      && r[pad..pad + |text|] == text
      && r[pad + |text|..] == Spaces(|r| - pad - |text|)
      && (|r| - pad - |text| == pad || |r| - pad - |text| == pad + 1)
  {
    if |text| >= width then PyPrefix(text, width)
    else
      var pad := (width - |text|) / 2;
      var r := Spaces(pad) + text + Spaces(width - |text| - pad);
      assert r[..pad] == Spaces(pad);
      assert r[pad..pad + |text|] == text;
      assert r[pad + |text|..] == Spaces(width - |text| - pad);
      r
  }

  /** `truncate_text`: the text itself when it fits, otherwise a prefix followed by the suffix. */
  function TruncateText(text: string, maxWidth: int, suffix: string := "..."): (r: string)
    ensures |text| <= maxWidth ==> r == text
    ensures |text| > maxWidth ==>
      && EndsWith(r, suffix)
      && StartsWith(text, r[..|r| - |suffix|])
      && r[..|r| - |suffix|] == PyPrefix(text, maxWidth - |suffix|)
    ensures |text| > maxWidth >= |suffix| ==> |r| == maxWidth
  {
    if |text| <= maxWidth then text
    else
      var head := PyPrefix(text, maxWidth - |suffix|);
      var r := head + suffix;
      assert r[..|r| - |suffix|] == head;
      assert r[|r| - |suffix|..] == suffix;
      r
  }

  /** With a width below the suffix, the "truncated" text is longer than the width. */
  lemma {:induction false} TruncateCanExceedWidth()
    ensures TruncateText("abcdef", 2) == "abcde..."
  {
    assert PyPrefix("abcdef", 2 - 3) == "abcde";
  }

  /**
    The rule `draw_border` uses for its title: the column where " title "
    is written, or `None` when there is no title or it does not fit.
   */
  function TitleColumn(x: int, width: int, title: string): (col: Option<int>)
    ensures col.Some? <==> title != "" && |title| + 2 < width - 2
    ensures col.Some? ==> col.value == x + (width - |title| - 2) / 2
    ensures col.Some? ==> x + 1 <= col.value && col.value + |title| + 2 <= x + width - 1
  {
    if title == "" then None
    else
      var titleText := " " + title + " ";
      if |titleText| < width - 2 then Some(x + (width - |titleText|) / 2) else None
  }
}
