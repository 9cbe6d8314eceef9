/**
 * The sign-selection keyboard of bot/keyboards/zodiac_keyboard.py: one
 * button per catalog sign, in catalog order, laid out in rows of three.
 */
module Keyboard {
  import opened Zodiac

  /** An inline button: its label and the callback data it sends back. */
  datatype Button = Button(text: string, callbackData: string)

  /** The prefix of every button's callback data. */
  const CallbackPrefix: string := "zodiac:"

  /** Buttons per full row. */
  const RowWidth: nat := 3

  /** The button for one catalog entry: label `emoji + " " + ru`, data `"zodiac:" + id`. */
  function ButtonFor(entry: CatalogEntry): (b: Button)
    ensures |b.callbackData| == |CallbackPrefix| + |entry.0|
    ensures b.callbackData[..|CallbackPrefix|] == CallbackPrefix
    ensures b.callbackData[|CallbackPrefix|..] == entry.0
    ensures b.text == entry.1.emoji + [' '] + entry.1.ru
  {
    Button(entry.1.emoji + " " + entry.1.ru, CallbackPrefix + entry.0)
  }

  /** The buttons of a list of entries, in order. */
  function Buttons(entries: seq<CatalogEntry>): (bs: seq<Button>)
    ensures |bs| == |entries|
    ensures forall i :: 0 <= i < |entries| ==> bs[i] == ButtonFor(entries[i])
  {
    seq(|entries|, i requires 0 <= i < |entries| => ButtonFor(entries[i]))
  }

  /** The rows read left to right, top to bottom. */
  function Flatten(rows: seq<seq<Button>>): seq<Button>
  {
    if rows == [] then [] else rows[0] + Flatten(rows[1..])
  }

  /** Appending a row appends its buttons. */
  lemma {:induction false} FlattenAppend(rows: seq<seq<Button>>, row: seq<Button>)
    ensures Flatten(rows + [row]) == Flatten(rows) + row
  {
    if rows != [] {
      assert (rows + [row])[1..] == rows[1..] + [row];
      FlattenAppend(rows[1..], row);
    }
  }

  /**
   * The row-chunking loop of `get_zodiac_keyboard`: buttons go into the
   * current row, which is flushed at three buttons; a last partial row is
   * flushed after the loop.
   */
  method LayoutRows(entries: seq<CatalogEntry>) returns (keyboard: seq<seq<Button>>)
    ensures Flatten(keyboard) == Buttons(entries)
    ensures forall i :: 0 <= i < |keyboard| ==> 1 <= |keyboard[i]| <= RowWidth
    ensures forall i :: 0 <= i < |keyboard| - 1 ==> |keyboard[i]| == RowWidth
    ensures |keyboard| == (|entries| + RowWidth - 1) / RowWidth
    ensures |keyboard| > 0 ==> |keyboard[|keyboard| - 1]| == (|entries| - 1) % RowWidth + 1
  {
    keyboard := [];
    var row: seq<Button> := [];
    for n := 0 to |entries|
      invariant Flatten(keyboard) + row == Buttons(entries[..n])
      invariant forall i :: 0 <= i < |keyboard| ==> |keyboard[i]| == RowWidth
      invariant |row| == n % RowWidth
      invariant |keyboard| == n / RowWidth
    {
      assert entries[..n + 1] == entries[..n] + [entries[n]];
      row := row + [ButtonFor(entries[n])];
      if |row| == RowWidth {
        FlattenAppend(keyboard, row);
        keyboard := keyboard + [row];
        row := [];
      }
    }
    assert entries[..|entries|] == entries;
    if row != [] {
      FlattenAppend(keyboard, row);
      keyboard := keyboard + [row];
    }
  }

  /** `get_zodiac_keyboard`: the whole catalog in four full rows of three. */
  method GetZodiacKeyboard() returns (keyboard: seq<seq<Button>>)
    ensures Flatten(keyboard) == Buttons(Catalog)
    ensures |keyboard| == 4
    ensures forall i :: 0 <= i < |keyboard| ==> |keyboard[i]| == RowWidth
  {
    keyboard := LayoutRows(Catalog);
  }
}
