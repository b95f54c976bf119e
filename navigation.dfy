/** The pure rules that both generations of the engine apply when they
    navigate: how a typed line picks an option, how a form's cursor moves,
    and (for the prototype, which renders its own prompts) the prompt text. */
module Navigation {
  import opened Records

  /** Largest value of Rust's `u32`. */
  const U32_MAX: nat := 4294967295

  predicate IsDigit(c: char) {
    '0' <= c <= '9'
  }

  predicate AllDigits(s: string) {
    forall i :: 0 <= i < |s| ==> IsDigit(s[i])
  }

  function DigitValue(c: char): (d: nat)
    requires IsDigit(c)
    ensures d < 10
  {
    c as int - '0' as int
  }

  function DigitChar(d: nat): (c: char)
    requires d < 10
    ensures IsDigit(c) && DigitValue(c) == d
  {
    ('0' as int + d) as char
  }

  /** The number a run of decimal digits denotes. */
  function DigitsValue(s: string): nat
    requires AllDigits(s)
  {
    if s == [] then 0 else DigitsValue(s[..|s| - 1]) * 10 + DigitValue(s[|s| - 1])
  }

  /** Decimal rendering of a number without leading zeros (Rust's `{}`). */
  function Decimal(n: nat): (s: string)
    ensures |s| >= 1 && AllDigits(s)
    ensures s[0] == '0' ==> n == 0
  {
    if n < 10 then [DigitChar(n)] else Decimal(n / 10) + [DigitChar(n % 10)]
  }

  /** `str::parse::<u32>`: an optional leading `+`, then one or more decimal
      digits (leading zeros allowed) whose value fits in 32 bits. No sign
      `-`, no white space, no empty digit run. */
  function ParseU32(s: string): (r: Option<nat>)
    ensures r.Some? ==> r.value <= U32_MAX
  {
    var digits := if |s| > 0 && s[0] == '+' then s[1..] else s;
    if |digits| > 0 && AllDigits(digits) && DigitsValue(digits) <= U32_MAX then Some(DigitsValue(digits)) else None
  }

  /** Reading back a rendered number gives the number. */
  lemma {:induction false} DecimalValue(n: nat)
    ensures DigitsValue(Decimal(n)) == n
  {
    if n >= 10 {
      DecimalValue(n / 10);
      var s := Decimal(n);
      assert s[..|s| - 1] == Decimal(n / 10);
    }
  }

  /** Leading zeros do not change the value of a digit run. */
  lemma {:induction false} LeadingZeroValue(s: string)
    requires AllDigits(s)
    ensures AllDigits("0" + s) && DigitsValue("0" + s) == DigitsValue(s)
  {
    var t := "0" + s;
    assert AllDigits(t) by {
      forall i | 0 <= i < |t| ensures IsDigit(t[i]) {
        if i > 0 { assert t[i] == s[i - 1]; }
      }
    }
    if s != [] {
      LeadingZeroValue(s[..|s| - 1]);
      assert t[..|t| - 1] == "0" + s[..|s| - 1];
    }
  }

  /** Every number that fits in 32 bits parses back from its rendering, with
      or without a leading `+` or a leading zero; a larger one does not parse. */
  lemma ParseDecimal(n: nat)
    ensures n <= U32_MAX ==> ParseU32(Decimal(n)) == Some(n)
    ensures n <= U32_MAX ==> ParseU32("+" + Decimal(n)) == Some(n)
    ensures n <= U32_MAX ==> ParseU32("0" + Decimal(n)) == Some(n)
    ensures n > U32_MAX ==> ParseU32(Decimal(n)) == None
  {
    DecimalValue(n);
    LeadingZeroValue(Decimal(n));
    assert ("+" + Decimal(n))[1..] == Decimal(n);
  }

  /** A leading `-` never parses, whatever follows it. */
  lemma ParseRejectsMinus(s: string)
    ensures ParseU32("-" + s) == None
  {
    assert !IsDigit(("-" + s)[0]);
  }

  /** The first position whose name equals the typed line exactly. */
  function FirstNamed(names: seq<string>, input: string): (r: Option<nat>)
    ensures r.Some? ==> r.value < |names| && names[r.value] == input
    ensures r.Some? ==> forall j :: 0 <= j < r.value ==> names[j] != input
    ensures r.None? <==> input !in names
  {
    if names == [] then None
    else if names[0] == input then Some(0)
    else match FirstNamed(names[1..], input)
      case None => None
      case Some(k) => Some(k + 1)
  }

  /** The option a typed line selects: its 1-based position when the line
      parses as a `u32` naming an existing position, otherwise the first
      option whose name is exactly the line, otherwise none. */
  function Selected(names: seq<string>, input: string): (r: Option<nat>)
    ensures r.Some? ==> r.value < |names|
    ensures ParseU32(input).Some? && 1 <= ParseU32(input).value <= |names| ==>
              r == Some(ParseU32(input).value - 1)
    ensures !(ParseU32(input).Some? && 1 <= ParseU32(input).value <= |names|) ==>
              r == FirstNamed(names, input)
    ensures r.None? <==> !(ParseU32(input).Some? && 1 <= ParseU32(input).value <= |names|) && input !in names
  {
    match ParseU32(input)
    case Some(n) => if 0 < n <= |names| then Some(n - 1) else FirstNamed(names, input)
    case None => FirstNamed(names, input)
  }

  /** Typing the position printed in front of an option selects it, even
      when another option happens to be named like that number. */
  lemma SelectByPosition(names: seq<string>, i: nat)
    requires i < |names| && |names| <= U32_MAX
    ensures Selected(names, Decimal(i + 1)) == Some(i)
  {
    ParseDecimal(i + 1);
  }

  /** Typing an option's exact name selects the first option so named,
      provided the name is not a valid position in the list. A name such
      as "0", or a number larger than the list, still reaches the search
      by name. */
  lemma SelectByName(names: seq<string>, i: nat)
    requires i < |names|
    requires !(ParseU32(names[i]).Some? && 1 <= ParseU32(names[i]).value <= |names|)
    requires forall j :: 0 <= j < i ==> names[j] != names[i]
    ensures Selected(names, names[i]) == Some(i)
  {
    assert names[i] in names;
  }

  /** A form's cursor after one answer: it moves on by one while it is on a
      field, and stays put once it is past the last field. */
  function AdvanceIndex(index: nat, len: nat): (r: nat)
    ensures index <= len ==> r <= len
    ensures index < len ==> r == index + 1
    ensures index >= len ==> r == index
  {
    if index < len then index + 1 else index
  }

  /** The answer lands in the field under the cursor, if there is one. */
  function FillAt(values: seq<string>, index: nat, input: string): (r: seq<string>)
    ensures |r| == |values|
    ensures forall j :: 0 <= j < |r| && j != index ==> r[j] == values[j]
    ensures index < |values| ==> r[index] == input
  {
    if index < |values| then values[index := input] else values
  }

  /** Values and cursor of a form after a run of answers. */
  function AnswerAll(values: seq<string>, index: nat, inputs: seq<string>): (seq<string>, nat)
    decreases |inputs|
  {
    if inputs == [] then (values, index)
    else AnswerAll(FillAt(values, index, inputs[0]), AdvanceIndex(index, |values|), inputs[1..])
  }

  function Min(a: nat, b: nat): nat {
    if a <= b then a else b
  }

  /** Answering a fresh form: the k-th answer fills field k-1, the cursor
      counts the answers up to the number of fields, and answers beyond the
      last field are dropped. */
  lemma {:induction false} AnswersFillInOrder(values: seq<string>, index: nat, inputs: seq<string>)
    requires index <= |values|
    ensures var (vs, i) := AnswerAll(values, index, inputs);
            var k := Min(index + |inputs|, |values|);
            i == k && |vs| == |values| &&
            vs == values[..index] + inputs[..k - index] + values[k..]
    decreases |inputs|
  {
    if inputs != [] {
      var v1 := FillAt(values, index, inputs[0]);
      var i1 := AdvanceIndex(index, |values|);
      AnswersFillInOrder(v1, i1, inputs[1..]);
      var k := Min(index + |inputs|, |values|);
      if index < |values| {
        FillStep(values, index, inputs, k);
      } else {
        assert v1 == values && k == index;
        assert inputs[1..][..0] == inputs[..0] == [];
      }
    }
  }

  /** One answer followed by the rest, seen as one block of answers. */
  lemma FillStep(values: seq<string>, index: nat, inputs: seq<string>, k: nat)
    requires index < |values| && inputs != [] && index < k <= |values| && k - index <= |inputs|
    ensures values[index := inputs[0]][..index + 1] + inputs[1..][..k - index - 1] + values[index := inputs[0]][k..] ==
            values[..index] + inputs[..k - index] + values[k..]
  {
    var v1 := values[index := inputs[0]];
    assert v1[..index + 1] == values[..index] + [inputs[0]];
    assert v1[k..] == values[k..];
    assert inputs[..k - index] == [inputs[0]] + inputs[1..][..k - index - 1];
  }

  /** The answer that brings a fresh form of `n` fields to its end is the
      n-th one; every later answer finds the form already at its end. */
  lemma CompletionOnLastAnswer(values: seq<string>, inputs: seq<string>)
    ensures (AnswerAll(values, 0, inputs).1 >= |values|) <==> |inputs| >= |values|
  {
    AnswersFillInOrder(values, 0, inputs);
  }

  /** A form's cursor and its flag that asks the form to hand control back
      to its parent on the next prompt. */
  datatype Cursor = Cursor(index: nat, goBack: bool)

  /** `decrease_index`: step the cursor back by `amount`, or, when that would
      go below the first field, rest at the first field and raise the flag. */
  function Decreased(c: Cursor, amount: nat): (r: Cursor)
    ensures r.index <= c.index
    ensures amount <= c.index ==> r.index + amount == c.index && r.goBack == c.goBack
    ensures amount > c.index ==> r == Cursor(0, true)
  {
    if amount > c.index then Cursor(0, true) else Cursor(c.index - amount, c.goBack)
  }

  /** Backing out of the menu that field `k` opened (the form moved its
      cursor past field `k` when it handed the menu over, and the menu steps
      it back by two): the form resumes at field `k - 1`, or, from its
      first field, returns control to its own parent. */
  lemma MenuBackProtocol(k: nat, len: nat)
    requires k < len
    ensures k >= 1 ==> Decreased(Cursor(AdvanceIndex(k, len), false), 2) == Cursor(k - 1, false)
    ensures k == 0 ==> Decreased(Cursor(AdvanceIndex(k, len), false), 2) == Cursor(0, true)
  {
  }

  /** The prototype's form prompt: the heading, the description on the
      first field only, then the name of the field under the cursor. */
  function FieldPrompt(name: string, description: string, index: nat, field: Option<string>): string {
    "[" + name + "]\n"
    + (if index == 0 then description + "\n" else "")
    + (if field.Some? then field.value + "\n" else "")
  }

  /** One numbered line of the prototype's menu prompt. */
  function OptionLine(position: nat, name: string): string {
    Decimal(position) + ". " + name + "\n"
  }

  /** The numbered lines for a run of options, starting at `first`. */
  function OptionLines(names: seq<string>, first: nat): string
    decreases |names|
  {
    if names == [] then "" else OptionLine(first, names[0]) + OptionLines(names[1..], first + 1)
  }

  /** The prototype's menu prompt: heading, description, and one line per
      option numbered from 1. */
  function MenuPrompt(name: string, description: string, names: seq<string>): string {
    "[" + name + "]\n" + description + "\n" + OptionLines(names, 1)
  }

  /** The lines of two runs of options, numbered on from each other. */
  lemma {:induction false} OptionLinesAppend(a: seq<string>, b: seq<string>, first: nat)
    ensures OptionLines(a + b, first) == OptionLines(a, first) + OptionLines(b, first + |a|)
    decreases |a|
  {
    if a != [] {
      assert (a + b)[1..] == a[1..] + b;
      OptionLinesAppend(a[1..], b, first + 1);
    } else {
      assert a + b == b;
    }
  }

  /** The menu prompt shows option `i` on its own line, after the lines of
      the options before it and numbered with the position whose typing
      selects it. */
  lemma MenuPromptLine(names: seq<string>, i: nat, first: nat)
    requires i < |names|
    ensures OptionLines(names, first) ==
            OptionLines(names[..i], first) + OptionLine(first + i, names[i]) + OptionLines(names[i + 1..], first + i + 1)
  {
    assert names == names[..i] + names[i..];
    OptionLinesAppend(names[..i], names[i..], first);
    assert names[i..][1..] == names[i + 1..];
  }
}
