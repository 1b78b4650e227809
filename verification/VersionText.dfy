/** What the texts of versions stand for: numerals for numbers, and parsed versions for their spelling. */
module VersionText {
  import opened Wrappers
  import opened Text
  import opened Versions
  import opened VersionOrder
  import opened VersionRanges

  // ----- numerals ---------------------------------------------------------------------------

  const DIGITS := "0123456789"

  /** The decimal numeral of `n`. */
  function Numeral(n: nat): string {
    if n < 10 then [DIGITS[n]] else Numeral(n / 10) + [DIGITS[n % 10]]
  }

  lemma DigitStands(d: nat)
    requires d < 10
    ensures Digit(DIGITS[d]) && DIGITS[d] as int - '0' as int == d
  {
  }

  /** Reading a numeral gives back its number, and it has no leading zero. */
  lemma {:induction false} NumeralReadsBack(n: nat)
    ensures NoZeroInFront(Numeral(n)) && Number(Numeral(n)) == n
    ensures n > 0 ==> Numeral(n)[0] != '0'
  {
    var s := Numeral(n);
    DigitStands(n % 10);
    if n >= 10 {
      NumeralReadsBack(n / 10);
      assert s[..|s| - 1] == Numeral(n / 10) && s[|s| - 1] == DIGITS[n % 10];
      assert n == n / 10 * 10 + n % 10;
    } else {
      assert s[..0] == "" && s[0] == DIGITS[n];
    }
  }

  /** And a text of digits without leading zeros is the numeral of what it reads as. */
  lemma SpelledAsNumeral(s: string)
    requires NoZeroInFront(s)
    ensures Numeral(Number(s)) == s
  {
    NumeralReadsBack(Number(s));
    NumberIsInjective(s, Numeral(Number(s)));
  }

  // ----- splitting and joining ------------------------------------------------------------------

  lemma PartitionAt(s: string, c: char, t: string)
    requires c !in s
    ensures Partition(s + [c] + t, c) == (s, true, t)
    ensures Partition(s, c) == (s, false, "")
    decreases |s|
  {
    if s == "" {
      assert (s + [c] + t)[1..] == t;
    } else {
      assert (s + [c] + t)[1..] == s[1..] + [c] + t;
      PartitionAt(s[1..], c, t);
      assert s == [s[0]] + s[1..] && s + [c] + t == [s[0]] + (s[1..] + [c] + t);
    }
  }

  /** The parts hold no separator, and joined by it they are the text. */
  lemma {:induction false} SplitJoins(s: string, c: char)
    ensures Join([c], Split(s, c)) == s
    ensures forall i | 0 <= i < |Split(s, c)| :: c !in Split(s, c)[i]
    decreases |s|
  {
    PartitionFinds(s, c);
    var (head, found, tail) := Partition(s, c);
    if found {
      PartitionShrinks(s, c);
      SplitJoins(tail, c);
      var parts := Split(s, c);
      assert parts == [head] + Split(tail, c);
      assert parts[1..] == Split(tail, c);
      assert Join([c], parts) == head + [c] + Join([c], Split(tail, c));
    }
  }

  lemma {:induction false} JoinSplits(parts: seq<string>, c: char)
    requires parts != [] && forall i | 0 <= i < |parts| :: c !in parts[i]
    ensures Split(Join([c], parts), c) == parts
    decreases |parts|
  {
    var rest := if |parts| == 1 then "" else Join([c], parts[1..]);
    PartitionAt(parts[0], c, rest);
    if |parts| > 1 {
      JoinSplits(parts[1..], c);
      assert Join([c], parts) == parts[0] + [c] + rest;
      assert Split(Join([c], parts), c) == [parts[0]] + Split(rest, c);
      assert parts == [parts[0]] + parts[1..];
    }
  }

  lemma {:induction false} JoinHolds(parts: seq<string>, separator: string, x: char)
    requires x in Join(separator, parts)
    ensures x in separator || exists i | 0 <= i < |parts| :: x in parts[i]
    decreases |parts|
  {
    if |parts| > 1 && x !in separator && x !in parts[0] {
      JoinHolds(parts[1..], separator, x);
      var i :| 0 <= i < |parts| - 1 && x in parts[1..][i];
      assert parts[i + 1] == parts[1..][i];
    }
  }

  // ----- spelling a parsed version ------------------------------------------------------------------

  function Spelled(p: Parsed): string {
    Join(".", p.core)
    + (if p.pre.Some? then "-" + Join(".", p.pre.value) else "")
    + (if p.build.Some? then "+" + Join(".", p.build.value) else "")
  }

  predicate Spellable(p: Parsed) {
    && 1 <= |p.core| <= 4 && NumbersForm(p.core)
    && (p.pre.Some? ==> p.pre.value != [] && IdentifiersForm(p.pre.value))
    && (p.build.Some? ==> p.build.value != [] && IdentifiersForm(p.build.value))
  }

  lemma NumbersHold(parts: seq<string>, x: char)
    requires NumbersForm(parts) && x in Join(".", parts)
    ensures x == '.' || Digit(x)
  {
    JoinHolds(parts, ".", x);
    if x != '.' {
      var i :| 0 <= i < |parts| && x in parts[i];
      assert NumberForm(parts[i]);
    }
  }

  lemma IdentifiersHold(parts: seq<string>, x: char)
    requires IdentifiersForm(parts) && x in Join(".", parts)
    ensures x == '.' || IdentifierChar(x)
  {
    JoinHolds(parts, ".", x);
    if x != '.' {
      var i :| 0 <= i < |parts| && x in parts[i];
      assert IdentifierForm(parts[i]);
    }
  }

  lemma CorePlain(core: seq<string>)
    requires NumbersForm(core)
    ensures '-' !in Join(".", core) && '+' !in Join(".", core)
    ensures forall i | 0 <= i < |core| :: '.' !in core[i]
  {
    hide NumbersForm;
    if '-' in Join(".", core) {
      NumbersHold(core, '-');
    }
    if '+' in Join(".", core) {
      NumbersHold(core, '+');
    }
    assert forall i | 0 <= i < |core| :: NumberForm(core[i]) by {
      NumbersAre(core);
    }
  }

  lemma NumbersAre(core: seq<string>)
    requires NumbersForm(core)
    ensures forall i | 0 <= i < |core| :: NumberForm(core[i])
  {
  }

  lemma IdentifiersPlain(parts: seq<string>)
    requires IdentifiersForm(parts)
    ensures '+' !in Join(".", parts)
    ensures forall i | 0 <= i < |parts| :: '.' !in parts[i]
  {
    if '+' in Join(".", parts) {
      IdentifiersHold(parts, '+');
    }
    forall i | 0 <= i < |parts| ensures '.' !in parts[i] {
      assert IdentifierForm(parts[i]);
    }
  }

  /** What is parsed is the text's own spelling: nothing is lost, added or taken for something else. */
  lemma ParsedSpells(value: string)
    requires Parse(value).Some?
    ensures Spellable(Parse(value).value) && Spelled(Parse(value).value) == value
  {
    PartitionFinds(value, '+');
    var (main, hasBuild, build) := Partition(value, '+');
    PartitionFinds(main, '-');
    var (core, hasPre, pre) := Partition(main, '-');
    SplitJoins(core, '.');
    SplitJoins(pre, '.');
    SplitJoins(build, '.');
    hide Partition, Split, NumbersForm, IdentifiersForm;
  }

  lemma {:induction false} MainSplits(core: string, pre: Option<string>)
    requires '-' !in core
    ensures Partition(core + (if pre.Some? then "-" + pre.value else ""), '-')
            == (core, pre.Some?, if pre.Some? then pre.value else "")
  {
    PartitionAt(core, '-', if pre.Some? then pre.value else "");
    hide Partition;
    if pre.Some? {
      assert core + ("-" + pre.value) == core + ['-'] + pre.value;
    } else {
      assert core + "" == core;
    }
  }

  lemma {:induction false} WholeSplits(main: string, build: Option<string>)
    requires '+' !in main
    ensures Partition(main + (if build.Some? then "+" + build.value else ""), '+')
            == (main, build.Some?, if build.Some? then build.value else "")
  {
    PartitionAt(main, '+', if build.Some? then build.value else "");
    hide Partition;
    if build.Some? {
      assert main + ("+" + build.value) == main + ['+'] + build.value;
    } else {
      assert main + "" == main;
    }
  }

  /** And every version spelled out is parsed as just that. */
  lemma SpelledParses(p: Parsed)
    requires Spellable(p)
    ensures Parse(Spelled(p)) == Some(p)
  {
    var core := Join(".", p.core);
    var pre := if p.pre.Some? then Some(Join(".", p.pre.value)) else None;
    var build := if p.build.Some? then Some(Join(".", p.build.value)) else None;
    CorePlain(p.core);
    JoinSplits(p.core, '.');
    if p.pre.Some? {
      IdentifiersPlain(p.pre.value);
      JoinSplits(p.pre.value, '.');
    }
    if p.build.Some? {
      IdentifiersPlain(p.build.value);
      JoinSplits(p.build.value, '.');
    }
    hide Join, Split, NumbersForm, IdentifiersForm, Partition;
    var main := core + (if pre.Some? then "-" + pre.value else "");
    MainSplits(core, pre);
    WholeSplits(main, build);
  }

  // ----- exactly what is accepted -----------------------------------------------------------------------

  predicate NumberText(s: string) { 0 < |s| < 33 && forall x | x in s :: '0' <= x && x <= '9' }

  predicate FieldText(s: string) {
    0 < |s| < 65 && forall x | x in s ::
      ('0' <= x && x <= '9') || ('A' <= x && x <= 'Z') || ('a' <= x && x <= 'z') || x == '-'
  }

  predicate FieldTexts(parts: seq<string>) { |parts| > 0 && forall part | part in parts :: FieldText(part) }

  /** One to four numbers, and dot-separated fields before and after a `+`. */
  predicate Grammar(p: Parsed) {
    && 0 < |p.core| < 5 && (forall part | part in p.core :: NumberText(part))
    && (p.pre.Some? ==> FieldTexts(p.pre.value)) && (p.build.Some? ==> FieldTexts(p.build.value))
  }

  /** Not a number with a zero in front of another digit. */
  predicate ZeroFree(part: string) {
    (forall x | x in part :: '0' <= x && x <= '9') && |part| > 1 ==> part[0] != '0'
  }

  lemma NumberTextExactly(s: string)
    ensures NumberForm(s) <==> NumberText(s)
  {
    assert forall i | 0 <= i < |s| :: s[i] in s;
  }

  lemma FieldTextExactly(s: string)
    ensures IdentifierForm(s) <==> FieldText(s)
  {
    assert forall i | 0 <= i < |s| :: s[i] in s;
  }

  lemma NumbersTextExactly(parts: seq<string>)
    ensures NumbersForm(parts) <==> forall part | part in parts :: NumberText(part)
  {
    hide NumberForm, NumberText;
    forall part ensures NumberForm(part) <==> NumberText(part) {
      NumberTextExactly(part);
    }
    assert forall i | 0 <= i < |parts| :: parts[i] in parts;
  }

  lemma FieldsTextExactly(parts: seq<string>)
    requires parts != []
    ensures IdentifiersForm(parts) <==> FieldTexts(parts)
  {
    hide IdentifierForm, FieldText;
    forall part ensures IdentifierForm(part) <==> FieldText(part) {
      FieldTextExactly(part);
    }
    assert forall i | 0 <= i < |parts| :: parts[i] in parts;
  }

  lemma GrammarExactly(p: Parsed)
    ensures Spellable(p) <==> Grammar(p)
  {
    NumbersTextExactly(p.core);
    if p.pre.Some? && p.pre.value != [] {
      FieldsTextExactly(p.pre.value);
    }
    if p.build.Some? && p.build.value != [] {
      FieldsTextExactly(p.build.value);
    }
    hide NumbersForm, NumberText, IdentifiersForm, FieldText;
  }

  lemma ZerosExactly(parts: seq<string>)
    ensures NoLeadingZeros(parts) <==> forall part | part in parts :: ZeroFree(part)
  {
    forall i | 0 <= i < |parts|
      ensures (AllDigits(parts[i]) && |parts[i]| > 1 ==> parts[i][0] != '0') <==> ZeroFree(parts[i])
    {
      assert forall k | 0 <= k < |parts[i]| :: parts[i][k] in parts[i];
    }
    hide AllDigits, ZeroFree;
    assert forall i | 0 <= i < |parts| :: parts[i] in parts;
  }

  /** A version text is accepted exactly if it is short enough and spells something the grammar allows. */
  lemma AcceptedExactly(value: string)
    ensures VersionKey(value).Ok? <==>
              && |value| <= 256
              && exists p :: Grammar(p) && Spelled(p) == value
                             && (p.pre.Some? ==> forall part | part in p.pre.value :: ZeroFree(part))
  {
    if Parse(value).Some? {
      ParsedSpells(value);
      GrammarExactly(Parse(value).value);
      if Parse(value).value.pre.Some? {
        ZerosExactly(Parse(value).value.pre.value);
      }
    }
    hide Parse, Spelled, Grammar, NoLeadingZeros, ZeroFree;
    if p :| Grammar(p) && Spelled(p) == value
            && (p.pre.Some? ==> forall part | part in p.pre.value :: ZeroFree(part)) {
      GrammarExactly(p);
      SpelledParses(p);
    }
  }

  predicate PlainNumberText(s: string) { NumberText(s) && (|s| > 1 ==> s[0] != '0') }

  lemma PlainNumbersExactly(core: seq<string>)
    ensures (forall i | 0 <= i < |core| :: PlainNumber(core[i]))
            <==> forall part | part in core :: PlainNumberText(part)
  {
    forall i | 0 <= i < |core|
      ensures PlainNumber(core[i]) <==> PlainNumberText(core[i])
    {
      NumberTextExactly(core[i]);
      hide NumberText, AllDigits;
    }
    hide PlainNumber, PlainNumberText;
    assert forall i | 0 <= i < |core| :: core[i] in core;
  }

  /** An operand of a range: up to three numbers without zeros in front, and all three where a dash follows. */
  lemma OperandExactly(value: string)
    requires Parse(value).Some?
    ensures OperandForm(value) <==>
              var core := Parse(value).value.core;
              |core| <= 3 && (forall part | part in core :: PlainNumberText(part)) && ('-' in value ==> |core| == 3)
  {
    CoreComesFirst(value);
    PartitionFinds(value, '-');
    PlainNumbersExactly(Parse(value).value.core);
    hide Partition, Split, PlainNumber, PlainNumberText, NumbersForm, IdentifiersForm;
  }
}
