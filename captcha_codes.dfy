/** Captcha codes and the nine-option list built around the correct one
    (`generateCaptchaCode` and the option loop of the `/start` handler). */
module CaptchaCodes {
  import opened Decimal

  /** Default length of `generateCaptchaCode()` and the length of every distractor. */
  const CodeLength := 5
  /** Number of options offered in one challenge (three rows of three). */
  const OptionCount := 9

  /** One draw of `Math.floor(Math.random() * 10)`. */
  type Digit = d: nat | d < 10

  /** The five draws consumed by one call of `generateCaptchaCode(5)`. */
  type Draw5 = s: seq<Digit> | |s| == CodeLength witness [0, 0, 0, 0, 0]

  /** A value of `Math.floor(Math.random() * 9)`: the slot holding the correct code. */
  type Slot = i: nat | i < OptionCount

  /** A code as the bot issues it: five decimal digits. */
  predicate IsCode(s: string) {
    |s| == CodeLength && IsDigitString(s)
  }

  /** `generateCaptchaCode(length)` where the random draws are given; the code has one
      character per draw, each the digit drawn. */
  function GenerateCode(draws: seq<Digit>): (code: string)
    ensures |code| == |draws| && IsDigitString(code)
    ensures forall i :: 0 <= i < |draws| ==> DigitValue(code[i]) == draws[i]
  {
    seq(|draws|, i requires 0 <= i < |draws| => DigitChar(draws[i]))
  }

  /** Distinct draws give distinct codes, so a distractor equals the code only when
      the draws coincide. */
  lemma CodeDeterminesDraws(a: seq<Digit>, b: seq<Digit>)
    requires GenerateCode(a) == GenerateCode(b)
    ensures a == b
  {
  }

  /** The distractor draw used for a slot other than the correct one: the distractors
      are generated in slot order, skipping the correct slot. */
  function DistractorIndex(slot: Slot, correct: Slot): (k: nat)
    requires slot != correct
    ensures k < OptionCount - 1
  {
    if slot < correct then slot else slot - 1
  }

  /** The option list the `/start` handler builds. Distractors are not compared with the
      code or with each other. */
  function OptionList(code: string, correct: Slot, distractors: seq<Draw5>): (options: seq<string>)
    requires |distractors| == OptionCount - 1
    ensures |options| == OptionCount
    ensures options[correct] == code
    ensures forall i :: 0 <= i < OptionCount && i != correct ==>
      options[i] == GenerateCode(distractors[DistractorIndex(i, correct)])
    ensures IsCode(code) ==> forall i :: 0 <= i < OptionCount ==> IsCode(options[i])
  {
    seq(OptionCount, i requires 0 <= i < OptionCount =>
      if i == correct then code else GenerateCode(distractors[DistractorIndex(i, correct)]))
  }

  /** A slot other than the correct one shows the code exactly when its distractor was drawn
      with the code's own draws: nothing tells such a duplicate apart from the code. */
  lemma DistractorMatchesCode(codeDraws: Draw5, correct: Slot, distractors: seq<Draw5>, slot: Slot)
    requires |distractors| == OptionCount - 1
    requires slot != correct
    ensures OptionList(GenerateCode(codeDraws), correct, distractors)[slot] == GenerateCode(codeDraws)
      <==> distractors[DistractorIndex(slot, correct)] == codeDraws
  {
    var d := distractors[DistractorIndex(slot, correct)];
    if GenerateCode(d) == GenerateCode(codeDraws) {
      CodeDeterminesDraws(d, codeDraws);
    }
  }

  /** The loop of the `/start` handler that pushes the code at the correct slot and a
      fresh distractor everywhere else. */
  method BuildOptions(code: string, correct: Slot, distractors: seq<Draw5>) returns (options: seq<string>)
    requires |distractors| == OptionCount - 1
    ensures options == OptionList(code, correct, distractors)
  {
    options := [];
    var next := 0;
    for i := 0 to OptionCount
      invariant |options| == i
      invariant next == if i <= correct then i else i - 1
      invariant forall j :: 0 <= j < i ==> options[j] == OptionList(code, correct, distractors)[j]
    {
      if i == correct {
        options := options + [code];
      } else {
        options := options + [GenerateCode(distractors[next])];
        next := next + 1;
      }
    }
  }
}
