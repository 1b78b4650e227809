/** Which versions caret, tilde and exact constraints admit, from the constraint's text to the verdict. */
module VersionRanges {
  import opened Wrappers
  import opened Text
  import opened Versions
  import opened VersionOrder

  // ----- text ---------------------------------------------------------------------------

  lemma {:induction false} PartitionFinds(s: string, c: char)
    ensures Partition(s, c).1 <==> c in s
    ensures c !in Partition(s, c).0
    ensures c !in s ==> Partition(s, c).0 == s
    ensures s == Partition(s, c).0 + (if Partition(s, c).1 then [c] else []) + Partition(s, c).2
  {
    if s != "" {
      assert s == [s[0]] + s[1..];
      if s[0] != c {
        PartitionFinds(s[1..], c);
      }
    }
  }

  lemma {:induction false} SplitCovers(s: string, c: char, x: char)
    requires x in s && x != c
    ensures exists i | 0 <= i < |Split(s, c)| :: x in Split(s, c)[i]
    decreases |s|
  {
    PartitionFinds(s, c);
    PartitionShrinks(s, c);
    var (head, found, tail) := Partition(s, c);
    if x in head {
      assert x in Split(s, c)[0];
    } else {
      SplitCovers(tail, c, x);
      var i :| 0 <= i < |Split(tail, c)| && x in Split(tail, c)[i];
      assert Split(s, c)[i + 1] == Split(tail, c)[i];
    }
  }

  lemma SplitWhole(s: string, c: char)
    requires c !in s
    ensures Split(s, c) == [s]
  {
    PartitionFinds(s, c);
  }

  lemma FirstPart(s: string, c: char)
    requires s != "" && s[0] != c
    ensures Partition(s, c).0 != "" && Partition(s, c).0[0] == s[0]
    ensures Split(s, c)[0] != "" && Split(s, c)[0][0] == s[0]
  {
  }

  /** What parses starts with a digit and holds no comma. */
  lemma ParsedText(s: string)
    requires Parse(s).Some?
    ensures s != "" && Digit(s[0]) && ',' !in s
  {
    var p := Parse(s).value;
    ParsedStart(s);
    if ',' in s {
      ParsedChars(s, ',');
    }
  }

  lemma ParsedStart(s: string)
    requires Parse(s).Some?
    ensures s != "" && Digit(s[0])
  {
    var main := Partition(s, '+').0;
    var core := Partition(main, '-').0;
    assert NumberForm(Split(core, '.')[0]);
    if s != "" && !Digit(s[0]) {
      if s[0] != '+' {
        FirstPart(s, '+');
        if s[0] != '-' {
          FirstPart(main, '-');
          if s[0] != '.' {
            FirstPart(core, '.');
          }
        }
      }
    }
  }

  lemma ParsedChars(s: string, x: char)
    requires Parse(s).Some? && x in s
    ensures IdentifierChar(x) || x == '.' || x == '+'
  {
    PartitionFinds(s, '+');
    var (main, _, build) := Partition(s, '+');
    PartitionFinds(main, '-');
    var (core, _, pre) := Partition(main, '-');
    if x != '.' && x != '+' && x != '-' {
      var text := if x in core then core else if x in pre then pre else build;
      SplitCovers(text, '.', x);
      var i :| 0 <= i < |Split(text, '.')| && x in Split(text, '.')[i];
      var part := Split(text, '.')[i];
      assert NumberForm(part) || IdentifierForm(part);
    }
  }

  lemma PrereleaseShows(value: string)
    requires VersionKey(value).Ok?
    ensures HasPrerelease(value) <==> !VersionKey(value).value.release
  {
    PartitionFinds(Partition(value, '+').0, '-');
  }

  // ----- from the constraint's text to one series test ------------------------------------------

  function Sign(caret: bool): char { if caret then '^' else '~' }

  /** The caret or tilde in front decides every test on the text. */
  lemma SignedText(caret: bool, operand: string)
    ensures var text := [Sign(caret)] + operand;
            && Parse(text).None? && !IsPartial(text) && !Starts(text, 'v') && text != "*"
            && Starts(text, Sign(caret)) && text[1..] == operand && (!caret ==> !Starts(text, '^'))
  {
    var text := [Sign(caret)] + operand;
    if Parse(text).Some? {
      ParsedStart(text);
    }
    FirstPart(text, '.');
    assert !AllDigits(Split(text, '.')[0]) by {
      assert !Digit(Split(text, '.')[0][0]);
    }
  }

  lemma OneOperand(r: Registry, operand: string)
    requires RangeOperand(r, operand).Ok?
    ensures var b := RangeOperand(r, operand).value;
            && VersionKey(b).Ok?
            && PrereleaseCores(r, [operand]) == Ok(if HasPrerelease(b) then {VersionKey(b).value.numbers} else {})
  {
    hide VersionKey, HasPrerelease, OperandForm;
    assert [operand][1..] == [];
    assert PrereleaseCores(r, []) == Ok({});
    var key := VersionKey(RangeOperand(r, operand).value);
    assert key.Ok? && {} + {key.value.numbers} == {key.value.numbers};
  }

  /** The verdict of the range test, and the prerelease filter in front of it. */
  lemma SeriesDecided(r: Registry, caret: bool, constraint: string, operand: string, value: string)
    requires Strip(constraint) == [Sign(caret)] + operand
    requires ConcreteVersion(r, value).Ok? && RangeOperand(r, operand).Ok?
    ensures var v, b := ConcreteVersion(r, value).value, RangeOperand(r, operand).value;
            var kv, kb := VersionKey(v).value, VersionKey(b).value;
            ConstraintAllows(r, constraint, value)
            == if kv.release || (!kb.release && kv.numbers == kb.numbers) then SeriesAllows(r, caret, operand, kv)
               else Ok(Some(false))
  {
    var text := [Sign(caret)] + operand;
    SignedText(caret, operand);
    StripEnds(constraint);
    StripKeeps(text);
    var v, b := ConcreteVersion(r, value).value, RangeOperand(r, operand).value;
    PrereleaseShows(v);
    PrereleaseShows(b);
    OneOperand(r, operand);
    hide Parse, IsPartial, Strip, SeriesAllows, VersionKey, HasPrerelease, OperandForm, Strict, PrereleaseCores;
    assert NamedOperands(text) == [operand];
    hide NamedOperands, RangeOperand;
  }

  // ----- the series itself --------------------------------------------------------------------------

  /** The place caret fixes: the first non-zero number, or the last one written. */
  function CaretPlace(n: seq<nat>, components: nat): nat
    requires |n| == 4
  {
    if n[0] > 0 || components <= 1 then 0 else if n[1] > 0 || components == 2 then 1 else 2
  }

  function TildePlace(components: nat): nat { if components <= 1 then 0 else 1 }

  function Place(caret: bool, n: seq<nat>, components: nat): nat
    requires |n| == 4
  {
    if caret then CaretPlace(n, components) else TildePlace(components)
  }

  lemma SplitStep(s: string, c: char)
    requires s != ""
    ensures |Split(s, c)| == |Split(s[1..], c)| + if s[0] == c then 1 else 0
  {
  }

  lemma {:induction false} SplitOfConcat(s: string, t: string, c: char)
    ensures |Split(s + t, c)| == |Split(s, c)| + |Split(t, c)| - 1
  {
    if s == "" {
      assert s + t == t;
    } else {
      SplitStep(s, c);
      SplitStep(s + t, c);
      assert (s + t)[1..] == s[1..] + t;
      SplitOfConcat(s[1..], t, c);
    }
  }

  lemma {:induction false} PartitionAfter(s: string, t: string, c: char)
    requires c !in s
    ensures Partition(s + t, c).0 == s + Partition(t, c).0
  {
    if s == "" {
      assert s + t == t;
    } else {
      assert (s + t)[1..] == s[1..] + t;
      PartitionAfter(s[1..], t, c);
    }
  }

  /** How many numbers the text writes out. */
  function Written(value: string): nat
    requires Parse(value).Some?
  {
    |Parse(value).value.core|
  }

  lemma PartitionFirst(x: char, t: string, c: char)
    ensures Partition([x] + t, c).0 == if x == c then "" else [x] + Partition(t, c).0
  {
    assert ([x] + t)[1..] == t;
  }

  /** The text up to the first `-`: the core, and the build metadata where no prerelease comes before it. */
  lemma CoreComesFirst(value: string)
    ensures var (main, plus, build) := Partition(value, '+');
            var core, head := Partition(main, '-').0, Partition(value, '-').0;
            && head == core + (if '-' !in main && plus then ['+'] + Partition(build, '-').0 else "")
            && Partition(head, '+').0 == core
  {
    PartitionFinds(value, '+');
    var (main, plus, build) := Partition(value, '+');
    PartitionFinds(main, '-');
    var core, pre := Partition(main, '-').0, Partition(main, '-').2;
    hide Partition;
    var tail := if plus then ['+'] + build else "";
    if '-' in main {
      assert value == core + (['-'] + (pre + tail));
      CutAt(core, '-', pre + tail);
    } else if plus {
      assert value == core + (['+'] + build);
      CutAt(core, '+', build);
    } else {
      PartitionFinds(core, '-');
      PartitionFinds(core, '+');
      assert value == core;
    }
  }

  /** `core` up to its first sign. */
  lemma CutAt(core: string, sign: char, rest: string)
    requires '-' !in core && '+' !in core && (sign == '-' || sign == '+')
    ensures var head := Partition(core + ([sign] + rest), '-').0;
            && head == core + (if sign == '-' then "" else ['+'] + Partition(rest, '-').0)
            && Partition(head, '+').0 == core
  {
    hide Partition;
    PartitionFirst(sign, rest, '-');
    PartitionAfter(core, [sign] + rest, '-');
    if sign == '-' {
      PartitionFinds(core, '+');
      assert core + "" == core;
    } else {
      var text := Partition(rest, '-').0;
      PartitionFirst('+', text, '+');
      PartitionAfter(core, ['+'] + text, '+');
      assert core + "" == core;
    }
  }

  /** The range test counts the written numbers, and the dots of the build metadata up to its first `-` on top. */
  lemma ComponentsCounted(value: string)
    requires Parse(value).Some?
    ensures var (main, plus, build) := Partition(value, '+');
            Components(value)
            == Written(value) + if '-' !in main && plus then |Split(Partition(build, '-').0, '.')| - 1 else 0
  {
    hide Partition, Split, NumbersForm, IdentifiersForm;
    CoreComesFirst(value);
    var (main, plus, build) := Partition(value, '+');
    var core := Partition(main, '-').0;
    if '-' !in main && plus {
      var text := ['+'] + Partition(build, '-').0;
      SplitOfConcat(core, text, '.');
      SplitStep(text, '.');
    } else {
      assert core + "" == core;
    }
  }

  /** Numbers the range test does not count are not written, so they are zero. */
  lemma OperandNumbers(canonical: string)
    requires VersionKey(canonical).Ok?
    ensures var n := VersionKey(canonical).value.numbers;
            && 1 <= Components(canonical) && |n| == 4
            && forall i | Components(canonical) <= i < 4 :: n[i] == 0
  {
    ComponentsCounted(canonical);
  }

  lemma ConcreteNumbers(value: string)
    requires VersionKey(value).Ok? && Strict(value)
    ensures |VersionKey(value).value.numbers| == 4 && VersionKey(value).value.numbers[3] == 0
  {
  }

  /** At least the base and below the upper core means: equal to the base up to the fixed place, and not below it. */
  lemma SeriesIsPrefix(caret: bool, v: seq<nat>, b: seq<nat>, components: nat)
    requires |v| == |b| == 4 && v[3] == 0 && 1 <= components <= 3
    requires forall i | components <= i < 4 :: b[i] == 0
    ensures var upper := if caret then CaretUpper(b, components) else TildeUpper(b, components);
            var p := Place(caret, b, components);
            && NumbersLess(b, upper) && b != upper
            && (!NumbersLess(v, b) ==> (NumbersLess(v, upper) <==> v[..p + 1] == b[..p + 1]))
  {
    var upper := if caret then CaretUpper(b, components) else TildeUpper(b, components);
    FourLess(v, b);
    FourLess(v, upper);
    FourLess(b, upper);
    assert v[..1] == b[..1] <==> v[0] == b[0];
    assert v[..2] == b[..2] <==> v[0] == b[0] && v[1] == b[1];
    assert v[..3] == b[..3] <==> v[0] == b[0] && v[1] == b[1] && v[2] == b[2];
    hide NumbersLess;
  }

  lemma WithinSeries(kv: Key, kb: Key, upper: seq<nat>, p: nat)
    requires |kv.numbers| == |kb.numbers| == 4 && p < 4
    requires kv.release || (!kb.release && kv.numbers == kb.numbers)
    requires NumbersLess(kb.numbers, upper) && kb.numbers != upper
    requires !NumbersLess(kv.numbers, kb.numbers) ==>
               (NumbersLess(kv.numbers, upper) <==> kv.numbers[..p + 1] == kb.numbers[..p + 1])
    requires kv.release ==> kv.identifiers == []
    ensures Within(kv, kb, Bound(upper)) <==> !KeyLess(kv, kb) && kv.numbers[..p + 1] == kb.numbers[..p + 1]
  {
    NumbersTotal(kv.numbers, upper);
    NumbersTotal(kv.numbers, kb.numbers);
    hide NumbersLess;
  }

  lemma ReleaseHasNoIdentifiers(value: string)
    requires VersionKey(value).Ok? && VersionKey(value).value.release
    ensures VersionKey(value).value.identifiers == []
  {
  }

  /**
   `^b` and `~b` admit exactly the versions that are at least `b`, agree with it up to the fixed place - so never
   the next series, nor a prerelease of it - and are a release or a prerelease of b's own core where `b` is one.
   A base that counts more than three components decides nothing.
  */
  lemma SeriesAdmitsExactly(r: Registry, caret: bool, constraint: string, operand: string, value: string)
    requires Strip(constraint) == [Sign(caret)] + operand
    requires ConcreteVersion(r, value).Ok? && RangeOperand(r, operand).Ok?
    ensures var v, b := ConcreteVersion(r, value).value, RangeOperand(r, operand).value;
            && VersionKey(v).Ok? && VersionKey(b).Ok?
            && var kv, kb := VersionKey(v).value, VersionKey(b).value;
            && |kv.numbers| == |kb.numbers| == 4
            && var fixed := Place(caret, kb.numbers, Components(b)) + 1;
               ConstraintAllows(r, constraint, value)
               == if !(kv.release || (!kb.release && kv.numbers == kb.numbers)) then Ok(Some(false))
                  else if Components(b) > 3 then Ok(None)
                  else Ok(Some(!KeyLess(kv, kb) && kv.numbers[..fixed] == kb.numbers[..fixed]))
  {
    SeriesDecided(r, caret, constraint, operand, value);
    var v, b := ConcreteVersion(r, value).value, RangeOperand(r, operand).value;
    var kv, kb := VersionKey(v).value, VersionKey(b).value;
    OperandNumbers(b);
    ConcreteNumbers(v);
    if kv.release {
      ReleaseHasNoIdentifiers(v);
    }
    hide Strip, Parse, VersionKey, OperandForm, Strict, ConstraintAllows, KeyLess, Within;
    if Components(b) <= 3 && (kv.release || (!kb.release && kv.numbers == kb.numbers)) {
      SeriesIsPrefix(caret, kv.numbers, kb.numbers, Components(b));
      hide CaretUpper, TildeUpper, NumbersLess, Place;
      var upper := if caret then CaretUpper(kb.numbers, Components(b)) else TildeUpper(kb.numbers, Components(b));
      WithinSeries(kv, kb, upper, Place(caret, kb.numbers, Components(b)));
    }
  }

  /** The place that the written numbers alone would fix. */
  function WrittenPlace(caret: bool, b: string): nat
    requires VersionKey(b).Ok?
  {
    KeyHasFour(b);
    Place(caret, VersionKey(b).value.numbers, Written(b))
  }

  /** The operand check looks at exactly the written numbers, so there are at most three. */
  lemma OperandWritten(b: string)
    requires Parse(b).Some? && OperandForm(b)
    ensures 1 <= Written(b) <= 3
  {
    hide Partition, Split, NumbersForm, IdentifiersForm, PlainNumber;
    CoreComesFirst(b);
  }

  /** Dots in build metadata move the fixed place exactly behind leading zeros or, in `~`, behind one number. */
  lemma BuildDotsMatterExactly(caret: bool, b: string)
    requires VersionKey(b).Ok? && OperandForm(b)
    ensures var n, written, counted := VersionKey(b).value.numbers, Written(b), Components(b);
            && |n| == 4 && 1 <= written <= 3 && written <= counted
            && (Place(caret, n, counted) != WrittenPlace(caret, b)
                <==> counted > written
                     && if !caret then written == 1
                        else n[0] == 0 && (written == 1 || (written == 2 && n[1] == 0)))
  {
    KeyHasFour(b);
    ComponentsCounted(b);
    OperandWritten(b);
    OperandNumbers(b);
    var n := VersionKey(b).value.numbers;
    assert forall i | Written(b) <= i < 4 :: n[i] == 0;
  }

  // ----- exact constraints in Go ---------------------------------------------------------------------

  /** The operand an exact Go constraint names has lost its `v`, so naming a prerelease fails. */
  lemma GoNames(w: string)
    requires VersionKey(w).Ok? && SpaceFreeEnds(w)
    ensures PrereleaseCores(Go, NamedOperands(w)) == if HasPrerelease(w) then Err(Malformed) else Ok({})
  {
    ParsedText(w);
    StripKeeps(w);
    SplitWholes(w);
    hide Strip, Parse, VersionKey, OperandForm, Comparator, Split, HasPrerelease;
    assert !("v" <= w);
  }

  lemma SplitWholes(w: string)
    requires w != "" && Digit(w[0]) && ',' !in w && Strip(w) == w
    ensures ComparatorOperands(Split(w, ',')) == []
  {
    SplitWhole(w, ',');
    hide Strip, Split;
    assert Comparator(w).None?;
    assert [w][1..] == [] && ComparatorOperands([]) == [];
  }

  /**
   An exact Go constraint is decided - as identity - exactly when constraint and version are not both
   prereleases; where both are, the `v` has been dropped already and the operand is refused.
  */
  lemma GoExactConstraint(constraint: string, value: string)
    requires ConcreteVersion(Go, value).Ok? && CanonicalVersion(Go, Strip(constraint)).Ok?
    ensures var v, w := ConcreteVersion(Go, value).value, CanonicalVersion(Go, Strip(constraint)).value;
            ConstraintAllows(Go, constraint, value)
            == if HasPrerelease(v) && HasPrerelease(w) then Err(Malformed) else Ok(Some(SameIdentity(v, w)))
  {
    var v, w := ConcreteVersion(Go, value).value, CanonicalVersion(Go, Strip(constraint)).value;
    StripEnds(constraint);
    assert VersionKey(w).Ok? && w == Strip(constraint)[1..];
    ParsedText(w);
    assert !IsSpace(w[0]);
    GoNames(w);
    PrereleaseShows(v);
    PrereleaseShows(w);
    hide Strip, Parse, VersionKey, Strict, HasPrerelease, NamedOperands, PrereleaseCores, SeriesAllows, TermsAllow;
  }
}
