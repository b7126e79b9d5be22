/** The two display helpers of the editor (src/editor/mod.rs): the LCD text
    formatter and the timeout that clears the parameter-edit message. */
module Editor {

  /** Characters the segment display draws between digits: they take no cell. */
  predicate Punctuation(c: char)
  {
    c == '.' || c == ':' || c == '\''
  }

  /** The number of display cells s occupies: its characters other than punctuation. */
  function Cells(s: string): (n: nat)
    ensures n <= |s|
    decreases |s|
  {
    if |s| == 0 then 0
    else Cells(s[..|s| - 1]) + (if Punctuation(s[|s| - 1]) then 0 else 1)
  }

  function Spaces(n: int): (s: string)
    ensures |s| == if n < 0 then 0 else n
    ensures forall i :: 0 <= i < |s| ==> s[i] == ' '
  {
    seq(if n < 0 then 0 else n, _ => ' ')
  }

  /** The cells of the first n characters of msg. */
  function PrefixCells(msg: string, n: nat): nat
    requires n <= |msg|
  {
    Cells(msg[..n])
  }

  /** msg[..n] is the shortest non-empty prefix occupying exactly `width` cells. */
  ghost predicate FirstFull(msg: string, width: nat, n: int)
  {
    1 <= n <= |msg| && PrefixCells(msg, n) == width
    && forall k :: 1 <= k < n ==> PrefixCells(msg, k) != width
  }

  /** No non-empty prefix of msg occupies exactly `width` cells. */
  ghost predicate NeverFull(msg: string, width: nat)
  {
    forall k :: 1 <= k <= |msg| ==> PrefixCells(msg, k) != width
  }

  /** lcd_format: msg cut after the character that fills the width-th cell, or,
      if no prefix fills exactly `width` cells, msg padded with the missing spaces. */
  method LcdFormat(msg: string, width: nat) returns (result: string)
    ensures (exists n :: FirstFull(msg, width, n) && result == msg[..n])
      || (NeverFull(msg, width) && result == msg + Spaces(width - Cells(msg)))
  {
    result := [];
    var len: nat := 0;
    for i := 0 to |msg|
      invariant result == msg[..i] && len == Cells(msg[..i])
      invariant forall k :: 1 <= k <= i ==> PrefixCells(msg, k) != width
    {
      var c := msg[i];
      assert msg[..i + 1][..i] == msg[..i];
      result := result + [c];
      assert result == msg[..i + 1];
      if !Punctuation(c) {
        len := len + 1;
      }
      if len == width {
        assert FirstFull(msg, width, i + 1);
        return;
      }
    }
    assert msg[..|msg|] == msg;
    assert result == msg + Spaces(0);
    while len < width
      invariant Cells(msg) <= len && (Cells(msg) < width ==> len <= width)
      invariant width <= Cells(msg) ==> len == Cells(msg)
      invariant result == msg + Spaces(len - Cells(msg))
      decreases width - len
    {
      assert Spaces(len + 1 - Cells(msg)) == Spaces(len - Cells(msg)) + [' '];
      result := result + [' '];
      len := len + 1;
    }
  }

  /** Adding a character adds at most one cell. */
  lemma {:induction false} CellsOfPrefix(s: string, i: nat)
    requires i < |s|
    ensures Cells(s[..i + 1]) == Cells(s[..i]) + (if Punctuation(s[i]) then 0 else 1)
  {
    assert s[..i + 1][..i] == s[..i];
  }

  /** Appended text adds its own cells. */
  lemma {:induction false} CellsOfConcat(s: string, t: string)
    ensures Cells(s + t) == Cells(s) + Cells(t)
    decreases |t|
  {
    if |t| == 0 {
      assert s + t == s;
    } else {
      var t' := t[..|t| - 1];
      assert (s + t)[..|s + t| - 1] == s + t';
      CellsOfConcat(s, t');
    }
  }

  /** n spaces occupy n cells. */
  lemma {:induction false} CellsOfSpaces(n: nat)
    ensures Cells(Spaces(n)) == n
    decreases n
  {
    if n > 0 {
      assert Spaces(n)[..n - 1] == Spaces(n - 1);
      CellsOfSpaces(n - 1);
    }
  }

  /** A prefix occupies no more cells than the whole. */
  lemma {:induction false} CellsMonotone(s: string, i: nat)
    requires i <= |s|
    ensures Cells(s[..i]) <= Cells(s)
    decreases |s| - i
  {
    if i < |s| {
      CellsOfPrefix(s, i);
      CellsMonotone(s, i + 1);
    } else {
      assert s[..i] == s;
    }
  }

  /** For width >= 1 some prefix fills exactly `width` cells iff msg has at least
      `width` cells. */
  lemma FullIffEnoughCells(msg: string, width: nat)
    requires 1 <= width
    ensures !NeverFull(msg, width) <==> width <= Cells(msg)
  {
    if !NeverFull(msg, width) {
      var k :| 1 <= k <= |msg| && PrefixCells(msg, k) == width;
      CellsMonotone(msg, k);
    }
    if width <= Cells(msg) {
      assert msg[..0] == [];
      var j := ReachWidth(msg, width, 0);
    }
  }

  /** Cells grow by at most one per character from 0, so every count up to
      Cells(msg) is met by a prefix of at least one character. */
  lemma {:induction false} ReachWidth(msg: string, width: nat, i: nat) returns (j: nat)
    requires 1 <= width <= Cells(msg) && i < |msg| && Cells(msg[..i]) < width
    ensures i < j <= |msg| && PrefixCells(msg, j) == width
    decreases |msg| - i
  {
    assert msg[..|msg|] == msg;
    CellsOfPrefix(msg, i);
    if Cells(msg[..i + 1]) == width {
      j := i + 1;
    } else {
      j := ReachWidth(msg, width, i + 1);
    }
  }

  /** For width >= 1 the formatted text always occupies exactly `width` cells:
      cut when msg has at least `width` cells, padded otherwise. */
  lemma LcdFormatFillsWidth(msg: string, width: nat, result: string)
    requires 1 <= width
    requires (exists n :: FirstFull(msg, width, n) && result == msg[..n])
      || (NeverFull(msg, width) && result == msg + Spaces(width - Cells(msg)))
    ensures Cells(result) == width
    ensures width <= Cells(msg) ==> exists n :: FirstFull(msg, width, n) && result == msg[..n]
    ensures Cells(msg) < width ==> result == msg + Spaces(width - Cells(msg))
  {
    FullIffEnoughCells(msg, width);
    if NeverFull(msg, width) {
      CellsOfConcat(msg, Spaces(width - Cells(msg)));
      CellsOfSpaces(width - Cells(msg));
    }
  }

  /** u64 subtraction as a release build computes it: wrapping modulo 2^64. */
  function WrappingSub(a: nat, b: nat): (r: nat)
    requires a < 0x1_0000_0000_0000_0000 && b < 0x1_0000_0000_0000_0000
    ensures r < 0x1_0000_0000_0000_0000
    ensures b <= a ==> r == a - b
    ensures a < b ==> r == 0x1_0000_0000_0000_0000 - (b - a)
  {
    (a - b) % 0x1_0000_0000_0000_0000
  }

  /** The text shown in the LCD: nothing, or a parameter edit message with the
      millisecond time it was set. */
  datatype EditText = None | Editing(text: string, since: nat)

  /** The editor state shared with the GUI thread; only the message is modelled. */
  class SynthUiState {
    var editText: EditText

    constructor (t: EditText)
      ensures editText == t
    {
      editText := t;
    }

    /** reset_edit_text: an edit message older than 2000 ms (by the wrapping u64
        difference of `now` and its time) is cleared; any other text is kept. */
    method ResetEditText(now: nat)
      requires now < 0x1_0000_0000_0000_0000
      requires editText.Editing? ==> editText.since < 0x1_0000_0000_0000_0000
      modifies this
      ensures old(editText).Editing? && WrappingSub(now, old(editText).since) > 2000 ==> editText == None
      ensures !(old(editText).Editing? && WrappingSub(now, old(editText).since) > 2000) ==> editText == old(editText)
    {
      match editText {
        case Editing(_, t) =>
          if WrappingSub(now, t) > 2000 {
            editText := None;
          }
        case None =>
      }
    }
  }

  /** A message set at or before `now` is cleared exactly when more than 2000 ms
      have passed; one time-stamped after `now` (a clock that went back) is cleared
      at once, as the wrapped difference is huge. */
  lemma ResetTimeout(now: nat, t: nat)
    requires now < 0x1_0000_0000_0000_0000 && t < 0x1_0000_0000_0000_0000
    ensures t <= now ==> (WrappingSub(now, t) > 2000 <==> now - t > 2000)
    ensures now < t && t - now < 0x1_0000_0000_0000_0000 - 2000 ==> WrappingSub(now, t) > 2000
  {
  }
}
