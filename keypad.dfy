/** The on-screen numeric keypad: its key layout and the edit that a key press
    makes to the bound answer text (`NumericKeypad.handleKeyPress`). */
module Keypad {
  import opened SwiftInt

  const Delete: string := "←"
  const Confirm: string := "✔"

  /** The keypad's buttons, row by row. */
  const Keys: seq<seq<string>> := [
    ["1", "2", "3"],
    ["4", "5", "6"],
    ["7", "8", "9"],
    [Delete, "0", Confirm]
  ]

  /** A key the keypad offers; `handleKeyPress` is only ever called with one. */
  predicate IsKey(key: string) {
    exists row :: row in Keys && key in row
  }

  /** A key that types one decimal digit. */
  predicate IsDigitKey(key: string) {
    |key| == 1 && IsDigit(key[0])
  }

  /** The text after `key` is pressed on `input`: the delete key drops the last
      character if there is one, the confirm key does nothing, and every other
      key is appended. */
  function KeyPressed(input: string, key: string): (r: string)
    ensures key == Delete && input != [] ==> r + [input[|input| - 1]] == input
    ensures key == Delete && input == [] ==> r == input
    ensures key == Confirm ==> r == input
    ensures key != Delete && key != Confirm ==> r == input + key
  {
    if key == Delete then
      if input != [] then input[..|input| - 1] else input
    else if key == Confirm then input
    else input + key
  }

  /** Besides the delete and confirm keys, the keypad only has the ten digits. */
  lemma KeyAlphabet(key: string)
    ensures IsKey(key) <==> key == Delete || key == Confirm || IsDigitKey(key)
  {
    if IsDigitKey(key) {
      var d := DigitValue(key[0]);
      var row := if d == 0 then Keys[3] else Keys[(d - 1) / 3];
      assert key == [DigitChar(d)];
      assert row in Keys && key in row;
    }
    if key == Delete || key == Confirm {
      assert Keys[3] in Keys && key in Keys[3];
    }
  }

  /** Pressing keys of the keypad keeps a text made only of digits so. */
  lemma PressKeepsDigits(input: string, key: string)
    requires AllDigits(input) && IsKey(key)
    ensures AllDigits(KeyPressed(input, key))
  {
  }

  /** The delete key undoes the press of a digit key. */
  lemma DeleteUndoesDigit(input: string, key: string)
    requires IsDigitKey(key)
    ensures KeyPressed(KeyPressed(input, key), Delete) == input
  {
  }
}
