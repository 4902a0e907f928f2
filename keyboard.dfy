/** Inline keyboards: buttons carrying callback data, and the split of a
    button list into rows of two (main.py:79). */
module Keyboard {

  /** `InlineKeyboardButton(text, callback_data=data)` */
  datatype Button = Button(text: string, data: string)

  /** Python's slice `s[i:j]` for `i <= j`, clipped to the length of `s`. */
  function Slice<T>(s: seq<T>, i: nat, j: nat): seq<T>
    requires i <= j
  {
    if |s| <= i then [] else s[i..if j <= |s| then j else |s|]
  }

  /** `[s[i:i+2] for i in range(0, len(s), 2)]`: `range` yields
      ceil(n/2) starts, and row `k` is the slice from `2k`. Every row but
      the last holds two items; the last holds one exactly when n is odd. */
  function Rows<T>(s: seq<T>): (r: seq<seq<T>>)
    ensures |r| == (|s| + 1) / 2
    ensures forall k :: 0 <= k < |r| - 1 ==> |r[k]| == 2
    ensures |s| > 0 ==> |r[|r| - 1]| == (if |s| % 2 == 1 then 1 else 2)
  {
    seq((|s| + 1) / 2, k requires 0 <= k < (|s| + 1) / 2 => Slice(s, 2 * k, 2 * k + 2))
  }

  /** The concatenation of a list of rows. */
  function Flatten<T>(rows: seq<seq<T>>): seq<T>
    decreases |rows|
  {
    if |rows| == 0 then [] else rows[0] + Flatten(rows[1..])
  }

  /** The callback data of each button, in order. */
  function DataOf(buttons: seq<Button>): (r: seq<string>)
    ensures |r| == |buttons|
    ensures forall i :: 0 <= i < |r| ==> r[i] == buttons[i].data
  {
    seq(|buttons|, i requires 0 <= i < |buttons| => buttons[i].data)
  }

  /** Every callback data string of a keyboard. */
  function KeyboardData(rows: seq<seq<Button>>): seq<string> {
    DataOf(Flatten(rows))
  }

  /** Slicing after dropping the first two items shifts the bounds by two. */
  lemma SliceShift<T>(s: seq<T>, i: nat, j: nat)
    requires |s| >= 2 && i <= j
    ensures Slice(s[2..], i, j) == Slice(s, i + 2, j + 2)
  {
  }

  /** Rows of a list of more than two: the first pair, then the rows of the rest. */
  lemma RowsUnfold<T>(s: seq<T>)
    requires |s| > 2
    ensures Rows(s) == [s[..2]] + Rows(s[2..])
  {
    var a, b := Rows(s), [s[..2]] + Rows(s[2..]);
    assert |a| == |b|;
    forall k | 0 <= k < |a| ensures a[k] == b[k] {
      if k > 0 {
        var m := k - 1;
        assert b[k] == Rows(s[2..])[m] == Slice(s[2..], 2 * m, 2 * m + 2);
        SliceShift(s, 2 * m, 2 * m + 2);
        assert 2 * m + 2 == 2 * k;
      }
    }
  }

  /** The rows hold the buttons in order: concatenated they give the list back. */
  lemma {:induction false} FlattenRows<T>(s: seq<T>)
    ensures Flatten(Rows(s)) == s
    decreases |s|
  {
    if |s| == 0 {
    } else if |s| <= 2 {
      assert Rows(s)[0] == Slice(s, 0, 2) == s;
      assert Rows(s) == [s];
      assert Flatten(Rows(s)) == s + Flatten([]);
    } else {
      RowsUnfold(s);
      FlattenRows(s[2..]);
      assert ([s[..2]] + Rows(s[2..]))[1..] == Rows(s[2..]);
      assert s[..2] + s[2..] == s;
    }
  }
}
