/** Callback tokens `captcha_option_<slot>_<option>`, their parsing by `split('_')`,
    and the three-row inline keyboard that carries them. */
module Tokens {
  import opened Common
  import opened Decimal
  import opened CaptchaCodes

  const Separator := '_'

  /** The number of times `c` occurs in `s`. */
  function Occurrences(s: string, c: char): nat {
    if s == [] then 0 else (if s[0] == c then 1 else 0) + Occurrences(s[1..], c)
  }

  /** JavaScript's `s.split(sep)` for a one-character separator: the maximal runs between
      separators, empty runs included, so one part more than there are separators. */
  function Split(s: string, sep: char): (parts: seq<string>)
    ensures |parts| == Occurrences(s, sep) + 1
    decreases |s|
  {
    if s == [] then [[]]
    else
      var rest := Split(s[1..], sep);
      if s[0] == sep then [[]] + rest else [[s[0]] + rest[0]] + rest[1..]
  }

  /** JavaScript's `parts.join(sep)`. */
  function Join(parts: seq<string>, sep: char): string
    requires |parts| >= 1
  {
    if |parts| == 1 then parts[0] else parts[0] + [sep] + Join(parts[1..], sep)
  }

  /** Splitting a separator-free prefix: it becomes the start of the first part. */
  lemma {:induction false} SplitFreePrefix(a: string, r: string, sep: char)
    requires sep !in a
    ensures Split(a + r, sep) == [a + Split(r, sep)[0]] + Split(r, sep)[1..]
    decreases |a|
  {
    if a == [] {
      var parts := Split(r, sep);
      assert a + r == r && a + parts[0] == parts[0];
      assert [parts[0]] + parts[1..] == parts;
    } else {
      assert (a + r)[0] == a[0] != sep;
      assert (a + r)[1..] == a[1..] + r;
      var rest := Split(a[1..] + r, sep);
      SplitFreePrefix(a[1..], r, sep);
      assert Split(a + r, sep) == [[a[0]] + rest[0]] + rest[1..];
      assert [a[0]] + (a[1..] + Split(r, sep)[0]) == a + Split(r, sep)[0];
    }
  }

  /** No part that `Split` returns contains the separator. */
  lemma {:induction false} SplitPartsFree(s: string, sep: char)
    ensures forall k :: 0 <= k < |Split(s, sep)| ==> sep !in Split(s, sep)[k]
    decreases |s|
  {
    if s != [] {
      SplitPartsFree(s[1..], sep);
    }
  }

  /** Splitting undoes joining, as long as no part contains the separator. */
  lemma {:induction false} SplitJoin(parts: seq<string>, sep: char)
    requires |parts| >= 1
    requires forall k :: 0 <= k < |parts| ==> sep !in parts[k]
    ensures Split(Join(parts, sep), sep) == parts
    decreases |parts|
  {
    if |parts| == 1 {
      SplitFreePrefix(parts[0], [], sep);
      assert parts[0] + [] == parts[0];
    } else {
      var tail := Join(parts[1..], sep);
      SplitFreePrefix(parts[0], [sep] + tail, sep);
      assert ([sep] + tail)[1..] == tail;
      SplitJoin(parts[1..], sep);
      assert parts[0] + [sep] + tail == parts[0] + ([sep] + tail);
      assert parts[0] + [] == parts[0];
      assert [parts[0]] + parts[1..] == parts;
    }
  }

  /** Joining undoes splitting: no character of the input is lost. */
  lemma {:induction false} JoinSplit(s: string, sep: char)
    ensures Join(Split(s, sep), sep) == s
    decreases |s|
  {
    if s != [] {
      var rest := Split(s[1..], sep);
      JoinSplit(s[1..], sep);
      if s[0] == sep {
        assert Split(s, sep)[1..] == rest;
      } else {
        var parts := [[s[0]] + rest[0]] + rest[1..];
        assert parts[1..] == rest[1..];
        if |rest| > 1 {
          assert rest[0] + [sep] + Join(rest[1..], sep) == s[1..];
        }
      }
    }
  }

  /** The `callback_data` of the button for global slot `slot` holding `option`. */
  function Token(slot: nat, option: string): string {
    "captcha_option_" + NatToString(slot) + "_" + option
  }

  /** The check at the top of the `callback_query` handler: four parts, the first two the
      fixed markers; the selected code is the fourth part. The slot part is not checked. */
  function ParseToken(data: string): (selected: Option<string>)
    ensures selected.Some? ==> Separator !in selected.value
  {
    var parts := Split(data, Separator);
    SplitPartsFree(data, Separator);
    if |parts| != 4 || parts[0] != "captcha" || parts[1] != "option" then None
    else Some(parts[3])
  }

  lemma DigitStringFree(s: string)
    requires IsDigitString(s)
    ensures Separator !in s
  {
  }

  /** A token whose option has no `_` splits into the two markers, the slot and the option. */
  lemma TokenSplits(slot: nat, option: string)
    requires Separator !in option
    ensures Split(Token(slot, option), Separator) == ["captcha", "option", NatToString(slot), option]
  {
    var slotText := NatToString(slot);
    DigitStringFree(slotText);
    var parts := ["captcha", "option", slotText, option];
    SplitJoin(parts, Separator);
    assert parts[1..][1..][1..] == [option];
    assert Join(parts[1..][1..], Separator) == slotText + "_" + option;
    assert Join(parts, Separator) == Token(slot, option);
  }

  /** Every token the bot issues parses back to the option it was built from. */
  lemma TokenRoundTrip(slot: nat, option: string)
    requires Separator !in option
    ensures ParseToken(Token(slot, option)) == Some(option)
  {
    TokenSplits(slot, option);
  }

  /** Every token the handler accepts has the shape `captcha_option_<middle>_<selected>`. */
  lemma AcceptedTokenShape(data: string)
    requires ParseToken(data).Some?
    ensures var parts := Split(data, Separator);
      data == "captcha_option_" + parts[2] + "_" + ParseToken(data).value
  {
    var parts := Split(data, Separator);
    JoinSplit(data, Separator);
    assert parts[1..][1..][1..] == [parts[3]];
    assert Join(parts[1..][1..], Separator) == parts[2] + "_" + parts[3];
    assert Join(parts, Separator) == "captcha_option_" + parts[2] + "_" + parts[3];
  }

  /** Conversely, any `_`-free middle part and selection make an accepted token: the slot
      part is never checked. */
  lemma ShapedTokenAccepted(middle: string, selected: string)
    requires Separator !in middle && Separator !in selected
    ensures ParseToken("captcha_option_" + middle + "_" + selected) == Some(selected)
  {
    var parts := ["captcha", "option", middle, selected];
    SplitJoin(parts, Separator);
    assert parts[1..][1..][1..] == [selected];
    assert Join(parts[1..][1..], Separator) == middle + "_" + selected;
    assert Join(parts, Separator) == "captcha_option_" + middle + "_" + selected;
  }

  /** A button of the inline keyboard. */
  datatype Button = Button(text: string, callbackData: string)

  /** `options.slice(base, base + 3).map((option, index) => ...)` with slot `index + base`. */
  function Row(options: seq<string>, base: nat): (row: seq<Button>)
    requires base + 3 <= |options|
    ensures |row| == 3
    ensures forall k :: 0 <= k < 3 ==>
      row[k] == Button(options[base + k], Token(base + k, options[base + k]))
  {
    var slice := options[base..base + 3];
    seq(|slice|, index requires 0 <= index < |slice| => Button(slice[index], Token(index + base, slice[index])))
  }

  /** The keyboard `[row1, row2, row3]` the `/start` handler sends with the captcha. */
  function Keyboard(options: seq<string>): (rows: seq<seq<Button>>)
    requires |options| == OptionCount
    ensures |rows| == 3
    ensures forall r :: 0 <= r < 3 ==> |rows[r]| == 3
    ensures forall r, k :: 0 <= r < 3 && 0 <= k < 3 ==>
      rows[r][k] == Button(options[3 * r + k], Token(3 * r + k, options[3 * r + k]))
  {
    [Row(options, 0), Row(options, 3), Row(options, 6)]
  }

  /** Pressing the button for slot `slot` sends a token from which the handler recovers
      exactly the option shown on it. */
  lemma KeyboardButtonSelectsOption(options: seq<string>, slot: Slot)
    requires |options| == OptionCount
    requires IsDigitString(options[slot])
    ensures var b := Keyboard(options)[slot / 3][slot % 3];
      b.text == options[slot] && ParseToken(b.callbackData) == Some(options[slot])
  {
    DigitStringFree(options[slot]);
    TokenRoundTrip(slot, options[slot]);
  }

  /** In the challenge the `/start` handler sends, the button at the correct slot carries the
      session's code, and pressing it makes the handler read back exactly that code. */
  lemma ChallengeAnswersWithCode(code: string, correct: Slot, distractors: seq<Draw5>)
    requires |distractors| == OptionCount - 1
    requires IsCode(code)
    ensures var b := Keyboard(OptionList(code, correct, distractors))[correct / 3][correct % 3];
      b.text == code && ParseToken(b.callbackData) == Some(code)
  {
    KeyboardButtonSelectsOption(OptionList(code, correct, distractors), correct);
  }
}
