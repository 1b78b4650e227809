/** What exact, partial, starred and comparator constraints admit, from the constraint's text to the verdict. */
module VersionConstraints {
  import opened Wrappers
  import opened Text
  import opened Versions
  import opened VersionOrder
  import opened VersionRanges
  import opened VersionText

  // ----- exact constraints ---------------------------------------------------------------------

  /** On strict versions identity is equality of the texts. */
  lemma IdentityIsEquality(a: string, b: string)
    requires SemVer(a) && SemVer(b)
    ensures SameIdentity(a, b) <==> a == b
  {
    ParsedSpells(a);
    ParsedSpells(b);
    KeyOrderIsPrecedence(a, b);
    if SameIdentity(a, b) {
      BuildIsRest(a);
      BuildIsRest(b);
      hide Parse, VersionKey, Precedes, KeyLess, Spelled, Strict;
      assert Parse(a).value == Parse(b).value;
    }
  }

  lemma BuildIsRest(value: string)
    requires Parse(value).Some?
    ensures var p, rest := Parse(value).value, Partition(value, '+').2;
            && (p.build.None? <==> rest == "") && (p.build.Some? ==> p.build.value == Split(rest, '.'))
  {
    PartitionFinds(value, '+');
    var p := Parse(value).value;
    assert Split("", '.') == [""] && !IdentifierForm([""][0]);
    if !Partition(value, '+').1 {
      EmptyRest(value, '+');
    }
  }

  lemma {:induction false} EmptyRest(s: string, c: char)
    requires !Partition(s, c).1
    ensures Partition(s, c).2 == ""
  {
    if s != "" && s[0] != c {
      EmptyRest(s[1..], c);
    }
  }

  // ----- the text of an operand --------------------------------------------------------------------

  predicate VersionChar(x: char) { IdentifierChar(x) || x == '.' || x == '+' }

  /** An operand that is accepted holds only characters of versions, after a `v` in Go. */
  lemma OperandText(r: Registry, operand: string)
    requires RangeOperand(r, operand).Ok?
    ensures operand != "" && (Digit(operand[0]) || operand[0] == 'v')
    ensures forall x | x in operand :: VersionChar(x)
  {
    var canonical := RangeOperand(r, operand).value;
    ParsedText(canonical);
    forall x | x in operand
      ensures VersionChar(x)
    {
      if r.Go? {
        assert operand == [operand[0]] + canonical;
      }
      if x in canonical {
        ParsedChars(canonical, x);
      }
    }
  }

  // ----- comparators -----------------------------------------------------------------------------------

  function Symbol(op: Operator): string {
    match op
    case EQ => "=="
    case GE => ">="
    case LE => "<="
    case GT => ">"
    case LT => "<"
  }

  /** One comparator: its sign and its operand. */
  datatype Term = Term(op: Operator, operand: string)

  predicate Writes(text: string, t: Term) {
    text == Symbol(t.op) + t.operand || (t.op.EQ? && text == "=" + t.operand)
  }

  lemma ComparatorReads(r: Registry, text: string, t: Term)
    requires RangeOperand(r, t.operand).Ok? && Writes(text, t)
    ensures Comparator(text) == Some((t.op, t.operand))
    ensures text != "" && text[0] in {'=', '>', '<'} && ',' !in text && SpaceFreeEnds(text)
  {
    OperandText(r, t.operand);
    SignReads(text, t);
  }

  /** A sign and then something that does not continue it. */
  lemma SignComes(sign: string, rest: string, op: Operator)
    requires sign == Symbol(op) || (op.EQ? && sign == "=")
    requires rest != "" && rest[0] !in {'=', '>', '<'} && '\n' !in rest
    ensures Comparator(sign + rest) == Some((op, rest))
  {
    var text := sign + rest;
    assert '\n' !in text;
    assert text[0] == sign[0] && text[|sign|] == rest[0] && text[|sign|..] == rest;
    assert "==" <= text <==> text[0] == '=' && text[1] == '=';
    assert "=" <= text <==> text[0] == '=';
    assert ">=" <= text <==> text[0] == '>' && text[1] == '=';
    assert "<=" <= text <==> text[0] == '<' && text[1] == '=';
    assert ">" <= text <==> text[0] == '>';
    assert "<" <= text <==> text[0] == '<';
  }

  lemma SignReads(text: string, t: Term)
    requires Writes(text, t) && t.operand != "" && (Digit(t.operand[0]) || t.operand[0] == 'v')
    requires forall x | x in t.operand :: VersionChar(x)
    ensures Comparator(text) == Some((t.op, t.operand))
    ensures text != "" && text[0] in {'=', '>', '<'} && ',' !in text && SpaceFreeEnds(text)
  {
    assert !VersionChar('\n') && !VersionChar(',');
    var sign := if text == Symbol(t.op) + t.operand then Symbol(t.op) else "=";
    SignComes(sign, t.operand, t.op);
    hide Comparator, Writes;
    assert text == sign + t.operand;
    assert ',' !in sign && ',' !in t.operand;
    assert text[0] == sign[0] && text[|text| - 1] == t.operand[|t.operand| - 1];
    NoSpaceInVersions(t.operand[|t.operand| - 1]);
  }

  lemma NoSpaceInVersions(x: char)
    requires VersionChar(x)
    ensures !IsSpace(x)
  {
  }

  predicate WritesAll(r: Registry, parts: seq<string>, terms: seq<Term>) {
    && |parts| == |terms|
    && forall i | 0 <= i < |terms| :: RangeOperand(r, terms[i].operand).Ok? && Writes(Strip(parts[i]), terms[i])
  }

  function Operands(terms: seq<Term>): seq<string> {
    seq(|terms|, i requires 0 <= i < |terms| => terms[i].operand)
  }

  lemma {:induction false} OperandsNamed(r: Registry, parts: seq<string>, terms: seq<Term>)
    requires WritesAll(r, parts, terms)
    ensures ComparatorOperands(parts) == Operands(terms)
  {
    hide Comparator, RangeOperand, Strip, Writes;
    if parts != [] {
      ComparatorReads(r, Strip(parts[0]), terms[0]);
      OperandsNamed(r, parts[1..], terms[1..]);
      assert Operands(terms) == [terms[0].operand] + Operands(terms[1..]);
    }
  }

  /** What the sign asks of two keys; equality also asks for the same build metadata. */
  predicate Meets(r: Registry, version: string, t: Term)
    requires VersionKey(version).Ok? && RangeOperand(r, t.operand).Ok?
  {
    var b := RangeOperand(r, t.operand).value;
    var kv, kb := VersionKey(version).value, VersionKey(b).value;
    match t.op
    case EQ => SameIdentity(version, b)
    case GE => kv == kb || KeyLess(kb, kv)
    case LE => kv == kb || KeyLess(kv, kb)
    case GT => KeyLess(kb, kv)
    case LT => KeyLess(kv, kb)
  }

  /** On strict operands the signs mean precedence in the sense of section 11, and equality of the texts. */
  lemma MeetsIsPrecedence(r: Registry, version: string, t: Term)
    requires SemVer(version) && RangeOperand(r, t.operand).Ok? && SemVer(RangeOperand(r, t.operand).value)
    ensures var b := RangeOperand(r, t.operand).value;
            var p, q := Parse(version).value, Parse(b).value;
            var same := p.core == q.core && p.pre == q.pre;
            Meets(r, version, t) <==>
              match t.op
              case EQ => version == b
              case GE => same || Precedes(q, p)
              case LE => same || Precedes(p, q)
              case GT => Precedes(q, p)
              case LT => Precedes(p, q)
  {
    var b := RangeOperand(r, t.operand).value;
    IdentityIsEquality(version, b);
    KeyOrderIsPrecedence(version, b);
    KeyOrderIsPrecedence(b, version);
    hide SameIdentity, Parse, VersionKey, KeyLess, Precedes, RangeOperand, SemVer;
  }

  lemma {:induction false} TermsDecided(r: Registry, parts: seq<string>, terms: seq<Term>, version: string)
    requires WritesAll(r, parts, terms) && VersionKey(version).Ok?
    ensures TermsAllow(r, parts, version)
            == Ok(Some(forall i | 0 <= i < |terms| :: Meets(r, version, terms[i])))
  {
    hide Comparator, RangeOperand, Strip, Writes, VersionKey, SameIdentity, Meets;
    if parts != [] {
      ComparatorReads(r, Strip(parts[0]), terms[0]);
      TermsDecided(r, parts[1..], terms[1..], version);
      SatisfiesIsMeeting(r, version, terms[0]);
      assert forall i | 1 <= i < |terms| :: terms[i] == terms[1..][i - 1];
    }
  }

  lemma SatisfiesIsMeeting(r: Registry, version: string, t: Term)
    requires VersionKey(version).Ok? && RangeOperand(r, t.operand).Ok?
    ensures VersionKey(RangeOperand(r, t.operand).value).Ok?
    ensures Satisfies(t.op, version, RangeOperand(r, t.operand).value) <==> Meets(r, version, t)
  {
    var b := RangeOperand(r, t.operand).value;
    KeysTotal(VersionKey(version).value, VersionKey(b).value);
    hide KeyLess, Parse, SameIdentity;
  }

  /** The operand names a prerelease with these numbers. */
  predicate NamesCore(r: Registry, operand: string, numbers: seq<nat>)
    requires RangeOperand(r, operand).Ok?
  {
    var key := VersionKey(RangeOperand(r, operand).value).value;
    !key.release && key.numbers == numbers
  }

  lemma {:induction false} CoresNamed(r: Registry, terms: seq<Term>)
    requires forall i | 0 <= i < |terms| :: RangeOperand(r, terms[i].operand).Ok?
    ensures PrereleaseCores(r, Operands(terms)).Ok?
    ensures forall numbers :: numbers in PrereleaseCores(r, Operands(terms)).value <==>
                                exists i | 0 <= i < |terms| :: NamesCore(r, terms[i].operand, numbers)
  {
    hide RangeOperand, VersionKey, HasPrerelease, NamesCore;
    if terms != [] {
      CoresNamed(r, terms[1..]);
      var rest := PrereleaseCores(r, Operands(terms[1..])).value;
      assert Operands(terms)[1..] == Operands(terms[1..]);
      CoreNamed(r, terms[0].operand);
      var all := PrereleaseCores(r, Operands(terms)).value;
      forall numbers
        ensures numbers in all <==> exists i | 0 <= i < |terms| :: NamesCore(r, terms[i].operand, numbers)
      {
        if i :| 0 <= i < |terms| && NamesCore(r, terms[i].operand, numbers) {
          assert i > 0 ==> terms[i] == terms[1..][i - 1];
        }
        if j :| 0 <= j < |terms| - 1 && NamesCore(r, terms[1..][j].operand, numbers) {
          assert terms[1..][j] == terms[j + 1];
        }
      }
    }
  }

  lemma CoreNamed(r: Registry, operand: string)
    requires RangeOperand(r, operand).Ok?
    ensures var b := RangeOperand(r, operand).value;
            && VersionKey(b).Ok?
            && forall numbers :: NamesCore(r, operand, numbers) <==>
                                   HasPrerelease(b) && numbers == VersionKey(b).value.numbers
  {
    var b := RangeOperand(r, operand).value;
    assert VersionKey(b).Ok?;
    PrereleaseShows(b);
    hide VersionKey, HasPrerelease, RangeOperand;
  }

  /** A text that starts with a comparison sign is read as a list of comparators. */
  lemma SignedList(r: Registry, text: string)
    requires text != "" && text[0] in {'=', '>', '<'} && Strip(text) == text
    ensures Parse(text).None? && !IsPartial(text) && !Starts(text, 'v') && !Starts(text, '^') && !Starts(text, '~')
    ensures NamedOperands(text) == ComparatorOperands(Split(text, ',')) && Normalized(r, text) == Ok(text)
  {
    if Parse(text).Some? {
      ParsedStart(text);
    }
    FirstPart(text, '.');
    assert !AllDigits(Split(text, '.')[0]) by {
      assert !Digit(Split(text, '.')[0][0]);
    }
  }

  lemma FirstTermStarts(r: Registry, text: string, terms: seq<Term>)
    requires WritesAll(r, Split(text, ','), terms) && SpaceFreeEnds(text)
    ensures text != "" && text[0] in {'=', '>', '<'}
  {
    var head := Split(text, ',')[0];
    assert Strip("") == "" && Split("", ',') == [""];
    ComparatorReads(r, Strip(head), terms[0]);
    if text != "" && text[0] != ',' {
      FirstPart(text, ',');
      StripStarts(head);
    }
  }

  lemma StripStarts(s: string)
    requires s != "" && !IsSpace(s[0])
    ensures Strip(s) != "" && Strip(s)[0] == s[0]
  {
    assert TrimLeft(s) == s;
    TrimRightStarts(s);
  }

  lemma {:induction false} TrimRightStarts(s: string)
    requires s != "" && !IsSpace(s[0])
    ensures TrimRight(s) != "" && TrimRight(s)[0] == s[0]
  {
    if IsSpace(s[|s| - 1]) {
      TrimRightStarts(s[..|s| - 1]);
    }
  }

  /** How a list of comparators is decided once it is read. */
  lemma ListDecided(r: Registry, text: string, v: string)
    requires text != "" && text[0] in {'=', '>', '<'} && Strip(text) == text && VersionKey(v).Ok?
    ensures Decide(r, text, v) == TermsAllow(r, Split(text, ','), v)
  {
    SignedList(r, text);
    hide Split, Strip, Parse, VersionKey, IsPartial, TermsAllow, SeriesAllows, PartialAllows, RangeOperand;
  }

  /**
   A list of comparators, with any white space around them: it admits exactly the versions that meet every one of
   them and are a release, or a prerelease whose core one of the operands names as a prerelease.
  */
  lemma ComparatorsAdmitExactly(r: Registry, constraint: string, terms: seq<Term>, value: string)
    requires ConcreteVersion(r, value).Ok? && WritesAll(r, Split(Strip(constraint), ','), terms)
    ensures var v := ConcreteVersion(r, value).value;
            && VersionKey(v).Ok?
            && var key := VersionKey(v).value;
               ConstraintAllows(r, constraint, value)
               == Ok(Some((key.release || exists i | 0 <= i < |terms| :: NamesCore(r, terms[i].operand, key.numbers))
                          && forall i | 0 <= i < |terms| :: Meets(r, v, terms[i])))
  {
    var text := Strip(constraint);
    var v := ConcreteVersion(r, value).value;
    assert VersionKey(v).Ok?;
    StripEnds(constraint);
    StripKeeps(text);
    FirstTermStarts(r, text, terms);
    SignedList(r, text);
    ListDecided(r, text, v);
    OperandsNamed(r, Split(text, ','), terms);
    CoresNamed(r, terms);
    PrereleaseShows(v);
    TermsDecided(r, Split(text, ','), terms, v);
    hide Split, Strip, RangeOperand, VersionKey, Parse, IsPartial, NamesCore, Meets, TermsAllow, PrereleaseCores;
    hide NamedOperands, HasPrerelease, WritesAll, ComparatorOperands, Operands, Strict, ConcreteVersion, SeriesAllows;
    hide PartialAllows, Normalized, Decide;
  }

  // ----- no constraint, and npm's partial and exact versions ---------------------------------------

  /** An empty constraint or a star admits every release and no prerelease. */
  lemma StarAdmitsReleases(r: Registry, constraint: string, value: string)
    requires ConcreteVersion(r, value).Ok? && (Strip(constraint) == "" || Strip(constraint) == "*")
    ensures var v := ConcreteVersion(r, value).value;
            && VersionKey(v).Ok?
            && ConstraintAllows(r, constraint, value) == Ok(Some(VersionKey(v).value.release))
  {
    var text, v := Strip(constraint), ConcreteVersion(r, value).value;
    assert VersionKey(v).Ok?;
    PrereleaseShows(v);
    StarNamesNothing(text);
    hide Parse, Strip, VersionKey, HasPrerelease, NamedOperands, Strict, TermsAllow;
  }

  lemma StarNamesNothing(text: string)
    requires text == "" || text == "*"
    ensures NamedOperands(text) == [] && Parse(text).None?
  {
    if Parse(text).Some? {
      ParsedStart(text);
    }
    assert Split("", ',') == [""];
    SplitWhole("*", ',');
    StripKeeps(text);
    assert Comparator(text).None?;
    assert [text][1..] == [];
  }

  /** A partial version is one number, or two with a dot between them. */
  lemma PartialExactly(text: string)
    ensures IsPartial(text) <==>
              || AllDigits(text)
              || exists k | 0 <= k < |text| :: text[k] == '.' && AllDigits(text[..k]) && AllDigits(text[k + 1..])
  {
    var parts := Split(text, '.');
    SplitJoins(text, '.');
    if IsPartial(text) && |parts| == 2 {
      assert parts[1..] == [parts[1]];
      assert text == parts[0] + "." + parts[1];
      var k := |parts[0]|;
      assert text[..k] == parts[0] && text[k] == '.' && text[k + 1..] == parts[1];
    }
    if AllDigits(text) {
      SplitWhole(text, '.');
    }
    if k :| 0 <= k < |text| && text[k] == '.' && AllDigits(text[..k]) && AllDigits(text[k + 1..]) {
      assert text == text[..k] + ['.'] + text[k + 1..];
      assert '.' !in text[..k] && '.' !in text[k + 1..];
      PartitionAt(text[..k], '.', text[k + 1..]);
      SplitWhole(text[k + 1..], '.');
    }
  }

  lemma PartialParts(text: string)
    requires IsPartial(text)
    ensures '.' !in text || |Split(text, '.')| == 2
    ensures text != "" && (forall x | x in text :: Digit(x) || x == '.')
    ensures Split(text + ".0", '.') == Split(text, '.') + ["0"]
  {
    var parts := Split(text, '.');
    SplitJoins(text, '.');
    if |parts| == 1 {
      assert text == parts[0];
    }
    forall x | x in text ensures Digit(x) || x == '.' {
      JoinHolds(parts, ".", x);
    }
    JoinOneMore(parts);
    JoinSplits(parts + ["0"], '.');
  }

  lemma {:induction false} JoinOneMore(parts: seq<string>)
    requires parts != []
    ensures Join(".", parts + ["0"]) == Join(".", parts) + ".0"
    decreases |parts|
  {
    if |parts| == 1 {
      assert (parts + ["0"])[1..] == ["0"];
      assert Join(".", ["0"]) == "0";
      assert Join(".", parts + ["0"]) == parts[0] + "." + "0";
    } else {
      JoinOneMore(parts[1..]);
      assert (parts + ["0"])[1..] == parts[1..] + ["0"];
      assert parts[0] + "." + (Join(".", parts[1..]) + ".0") == parts[0] + "." + Join(".", parts[1..]) + ".0";
    }
  }

  lemma PartialParsed(text: string)
    requires IsPartial(text) && Parse(text + ".0").Some?
    ensures Parse(text + ".0").value == Parsed(Split(text, '.') + ["0"], None, None)
  {
    PartialParts(text);
    var full := text + ".0";
    assert forall x | x in full :: Digit(x) || x == '.';
    PartitionFinds(full, '+');
    PartitionFinds(full, '-');
    hide Split, Partition;
  }

  lemma KeyOfParsed(value: string)
    requires VersionKey(value).Ok?
    ensures Parse(value).Some? && VersionKey(value).value == KeyOf(Parse(value).value)
  {
  }

  /** The numbers of a partial version, with a zero for each place it leaves out. */
  lemma PartialKey(text: string)
    requires IsPartial(text) && VersionKey(text + ".0").Ok?
    ensures var parts, key := Split(text, '.'), VersionKey(text + ".0").value;
            && 1 <= |parts| <= 2 && key.release && key.identifiers == [] && |key.numbers| == 4
            && (forall i | 0 <= i < |parts| :: AllDigits(parts[i]) && key.numbers[i] == Number(parts[i]))
            && (forall i | |parts| <= i < 4 :: key.numbers[i] == 0)
  {
    KeyOfParsed(text + ".0");
    PartialParsed(text);
    var parts := Split(text, '.');
    assert forall i | 0 <= i < |parts| :: (parts + ["0"])[i] == parts[i];
    assert Number("0") == 0 by {
      NumeralReadsBack(0);
    }
    hide Split, Number, Parse, VersionKey;
  }

  lemma PartialDecided(constraint: string, value: string)
    requires ConcreteVersion(Npm, value).Ok? && IsPartial(Strip(constraint))
    ensures var text, v := Strip(constraint), ConcreteVersion(Npm, value).value;
            && VersionKey(v).Ok?
            && ConstraintAllows(Npm, constraint, value)
               == if VersionKey(v).value.release then PartialAllows(text, VersionKey(v).value) else Ok(Some(false))
  {
    var text, v := Strip(constraint), ConcreteVersion(Npm, value).value;
    assert VersionKey(v).Ok?;
    PrereleaseShows(v);
    StripEnds(constraint);
    StripKeeps(text);
    PartialNamesNothing(text);
    FirstIsDigit(text);
    hide Split, Strip, VersionKey, Parse, IsPartial, TermsAllow, NamedOperands, HasPrerelease, Strict, PartialAllows;
  }

  /** The key begins with the numbers written out. */
  predicate BeginsWith(numbers: seq<nat>, parts: seq<string>) {
    |parts| <= |numbers| && forall i | 0 <= i < |parts| :: AllDigits(parts[i]) && numbers[i] == Number(parts[i])
  }

  lemma PartialAllowsExactly(text: string, key: Key)
    requires IsPartial(text) && VersionKey(text + ".0").Ok?
    requires |key.numbers| == 4 && key.numbers[3] == 0 && key.release && key.identifiers == []
    ensures PartialAllows(text, key) == Ok(Some(BeginsWith(key.numbers, Split(text, '.'))))
  {
    PartialKey(text);
    PartialWithin(key, VersionKey(text + ".0").value, |Split(text, '.')|);
    hide Split, VersionKey, IsPartial, Number, Within, AllDigits;
  }

  /** A partial version admits exactly the releases that begin with its numbers. */
  lemma PartialAdmitsExactly(constraint: string, value: string)
    requires ConcreteVersion(Npm, value).Ok? && IsPartial(Strip(constraint))
    requires VersionKey(Strip(constraint) + ".0").Ok?
    ensures var v, parts := ConcreteVersion(Npm, value).value, Split(Strip(constraint), '.');
            && VersionKey(v).Ok? && 1 <= |parts| <= 2
            && ConstraintAllows(Npm, constraint, value)
               == Ok(Some(VersionKey(v).value.release && BeginsWith(VersionKey(v).value.numbers, parts)))
  {
    PartialDecided(constraint, value);
    var text, v := Strip(constraint), ConcreteVersion(Npm, value).value;
    ConcreteNumbers(v);
    PartialKey(text);
    if VersionKey(v).value.release {
      ReleaseHasNoIdentifiers(v);
      PartialAllowsExactly(text, VersionKey(v).value);
    }
    hide Split, Strip, VersionKey, IsPartial, Strict, PartialAllows, BeginsWith, ConstraintAllows, ConcreteVersion;
  }

  lemma PartialNamesNothing(text: string)
    requires IsPartial(text) && Strip(text) == text
    ensures NamedOperands(text) == []
  {
    PartialParts(text);
    PartitionFinds(Partition(text, '+').0, '-');
    PartitionFinds(text, '+');
    FirstIsDigit(text);
    SplitWholes(text);
    hide Split, Strip, Parse, IsPartial, Comparator;
  }

  lemma FirstIsDigit(text: string)
    requires IsPartial(text)
    ensures text != "" && Digit(text[0]) && ',' !in text && '-' !in text
  {
    PartialParts(text);
    assert AllDigits(Split(text, '.')[0]);
    if text[0] != '.' {
      assert text[0] in text;
    }
  }

  lemma PartialWithin(key: Key, lower: Key, places: nat)
    requires |key.numbers| == |lower.numbers| == 4 && 1 <= places <= 2 && key.numbers[3] == 0
    requires key.release && lower.release && key.identifiers == lower.identifiers == []
    requires forall i | places <= i < 4 :: lower.numbers[i] == 0
    ensures var n := lower.numbers;
            var upper := if places == 1 then [n[0] + 1, 0, 0, 0] else [n[0], n[1] + 1, 0, 0];
            Within(key, lower, Bound(upper)) <==> forall i | 0 <= i < places :: key.numbers[i] == n[i]
  {
    var n := lower.numbers;
    var upper := if places == 1 then [n[0] + 1, 0, 0, 0] else [n[0], n[1] + 1, 0, 0];
    FourLess(key.numbers, lower.numbers);
    FourLess(key.numbers, upper);
    hide NumbersLess;
  }

  /** An exact npm constraint that is a strict version admits exactly that text. */
  lemma NpmExactConstraint(constraint: string, value: string)
    requires ConcreteVersion(Npm, value).Ok? && SemVer(Strip(constraint))
    ensures ConstraintAllows(Npm, constraint, value) == Ok(Some(value == Strip(constraint)))
  {
    var text := Strip(constraint);
    assert SemVer(value) && ConcreteVersion(Npm, value) == Ok(value);
    StripEnds(constraint);
    StripKeeps(text);
    IdentityIsEquality(value, text);
    StrictIsOperand(text);
    PrereleaseShows(value);
    PrereleaseShows(text);
    ExactNames(text);
    OneOperand(Npm, text);
    hide Strip, Parse, VersionKey, Strict, IsPartial, OperandForm, NamedOperands, PrereleaseCores, HasPrerelease;
    hide SeriesAllows, TermsAllow;
  }

  lemma StrictIsOperand(text: string)
    requires SemVer(text)
    ensures RangeOperand(Npm, text) == Ok(text) && !IsPartial(text)
    ensures text != "" && Digit(text[0]) && ',' !in text
  {
    ParsedText(text);
    CoreComesFirst(text);
    StrictIsNotPartial(text);
    hide IsPartial, Partition, Split;
  }

  lemma StrictIsNotPartial(text: string)
    requires SemVer(text)
    ensures !IsPartial(text)
  {
    if IsPartial(text) {
      PartialParts(text);
      PartitionFinds(text, '+');
      PartitionFinds(text, '-');
      hide Partition, Split;
      assert false;
    }
  }

  lemma ExactNames(text: string)
    requires SemVer(text) && Strip(text) == text
    ensures NamedOperands(text) == if HasPrerelease(text) then [text] else []
  {
    StrictIsOperand(text);
    SplitWholes(text);
    hide Strip, Split, Parse, HasPrerelease, Comparator;
  }
}
