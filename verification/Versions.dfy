/** Version strings, their comparison keys, and the npm and Go range rules. */
module Versions {
  import opened Wrappers
  import opened Text

  datatype Registry = Npm | Go

  /** Every rejection is the same DocumentationError. */
  datatype Malformed = Malformed

  const MAX_VERSION_LENGTH := 256

  // ----- text ---------------------------------------------------------------------------

  predicate Digit(c: char) { '0' <= c <= '9' }

  predicate AllDigits(s: string) { s != "" && forall i | 0 <= i < |s| :: Digit(s[i]) }

  predicate IdentifierChar(c: char) { Digit(c) || 'A' <= c <= 'Z' || 'a' <= c <= 'z' || c == '-' }

  predicate IdentifierForm(s: string) { 1 <= |s| <= 64 && forall i | 0 <= i < |s| :: IdentifierChar(s[i]) }

  /** `value.partition(separator)` for a single character. */
  function Partition(s: string, c: char): (string, bool, string) {
    if s == "" then ("", false, "")
    else if s[0] == c then ("", true, s[1..])
    else
      var (head, found, tail) := Partition(s[1..], c);
      ([s[0]] + head, found, tail)
  }

  /** `value.split(separator)` for a single character. */
  function Split(s: string, c: char): (parts: seq<string>)
    ensures |parts| >= 1
    decreases |s|
  {
    var (head, found, tail) := Partition(s, c);
    if found then PartitionShrinks(s, c); [head] + Split(tail, c) else [head]
  }

  lemma {:induction false} PartitionShrinks(s: string, c: char)
    ensures Partition(s, c).1 ==> |Partition(s, c).2| < |s|
  {
    if s != "" && s[0] != c {
      PartitionShrinks(s[1..], c);
    }
  }

  /** `int(digits)` */
  function Number(s: string): nat
    requires forall i | 0 <= i < |s| :: Digit(s[i])
  {
    if s == "" then 0
    else
      assert Digit(s[|s| - 1]);
      Number(s[..|s| - 1]) * 10 + (s[|s| - 1] as int - '0' as int)
  }

  // ----- forms -----------------------------------------------------------------------------

  datatype Parsed = Parsed(core: seq<string>, pre: Option<seq<string>>, build: Option<seq<string>>)

  predicate NumberForm(s: string) { AllDigits(s) && |s| <= 32 }

  predicate PlainNumber(s: string) { NumberForm(s) && (s == "0" || s[0] != '0') }

  predicate NumbersForm(parts: seq<string>) { forall i | 0 <= i < |parts| :: NumberForm(parts[i]) }

  predicate IdentifiersForm(parts: seq<string>) { forall i | 0 <= i < |parts| :: IdentifierForm(parts[i]) }

  function Parse(value: string): Option<Parsed> {
    var (main, hasBuild, build) := Partition(value, '+');
    var (core, hasPre, pre) := Partition(main, '-');
    var parsed := Parsed(Split(core, '.'), if hasPre then Some(Split(pre, '.')) else None,
                         if hasBuild then Some(Split(build, '.')) else None);
    if |parsed.core| <= 4 && NumbersForm(parsed.core)
       && (parsed.pre.Some? ==> IdentifiersForm(parsed.pre.value))
       && (parsed.build.Some? ==> IdentifiersForm(parsed.build.value))
    then Some(parsed) else None
  }

  /** A concrete SemVer: three numbers without leading zeros. */
  predicate Strict(value: string) {
    var p := Parse(value);
    p.Some? && |p.value.core| == 3 && forall i | 0 <= i < 3 :: PlainNumber(p.value.core[i])
  }

  /** `"-" in value.partition("+")[0]` */
  predicate HasPrerelease(value: string) { '-' in Partition(value, '+').0 }

  // ----- keys ------------------------------------------------------------------------------

  datatype Identifier = Numeric(n: nat) | Alphanumeric(text: string)

  datatype Key = Key(numbers: seq<nat>, release: bool, identifiers: seq<Identifier>)

  function IdentifierOf(s: string): Identifier {
    if AllDigits(s) then Numeric(Number(s)) else Alphanumeric(s)
  }

  function NumbersOf(parts: seq<string>): seq<nat>
    requires NumbersForm(parts)
  {
    seq(|parts|, i requires 0 <= i < |parts| => assert NumberForm(parts[i]); Number(parts[i]))
  }

  function IdentifiersOf(parts: seq<string>): seq<Identifier> {
    seq(|parts|, i requires 0 <= i < |parts| => IdentifierOf(parts[i]))
  }

  predicate NoLeadingZeros(parts: seq<string>) {
    forall i | 0 <= i < |parts| :: AllDigits(parts[i]) && |parts[i]| > 1 ==> parts[i][0] != '0'
  }

  function Padded(numbers: seq<nat>): seq<nat>
    requires |numbers| <= 4
  {
    numbers + seq(4 - |numbers|, i => 0)
  }

  function KeyOf(p: Parsed): Key
    requires |p.core| <= 4 && NumbersForm(p.core)
  {
    Key(Padded(NumbersOf(p.core)), p.pre.None?, if p.pre.Some? then IdentifiersOf(p.pre.value) else [])
  }

  function VersionKey(value: string): Result<Key, Malformed> {
    if |value| > MAX_VERSION_LENGTH then Err(Malformed)
    else
      match Parse(value)
      case None => Err(Malformed)
      case Some(p) =>
        if p.pre.Some? && !NoLeadingZeros(p.pre.value) then Err(Malformed) else Ok(KeyOf(p))
  }

  predicate NumbersLess(a: seq<nat>, b: seq<nat>) {
    if b == [] then false
    else if a == [] then true
    else if a[0] != b[0] then a[0] < b[0]
    else NumbersLess(a[1..], b[1..])
  }

  predicate IdentifierLess(a: Identifier, b: Identifier) {
    match (a, b)
    case (Numeric(m), Numeric(n)) => m < n
    case (Numeric(_), Alphanumeric(_)) => true
    case (Alphanumeric(_), Numeric(_)) => false
    case (Alphanumeric(x), Alphanumeric(y)) => Before(x, y)
  }

  predicate IdentifiersLess(a: seq<Identifier>, b: seq<Identifier>) {
    if b == [] then false
    else if a == [] then true
    else if a[0] != b[0] then IdentifierLess(a[0], b[0])
    else IdentifiersLess(a[1..], b[1..])
  }

  /** Tuple comparison of the keys. */
  predicate KeyLess(a: Key, b: Key) {
    NumbersLess(a.numbers, b.numbers)
    || (a.numbers == b.numbers
        && ((!a.release && b.release) || (a.release == b.release && IdentifiersLess(a.identifiers, b.identifiers))))
  }

  /** The key and the build metadata: what exact equality compares. */
  predicate SameIdentity(a: string, b: string) {
    VersionKey(a) == VersionKey(b) && Partition(a, '+').2 == Partition(b, '+').2
  }

  // ----- canonical forms -----------------------------------------------------------------------

  function CanonicalVersion(r: Registry, value: string): Result<string, Malformed> {
    if r.Go? && !("v" <= value) then Err(Malformed)
    else
      var canonical := if r.Go? then value[1..] else value;
      if VersionKey(canonical).Ok? then Ok(canonical) else Err(Malformed)
  }

  function ConcreteVersion(r: Registry, value: string): Result<string, Malformed> {
    match CanonicalVersion(r, value)
    case Err(e) => Err(e)
    case Ok(canonical) => if Strict(canonical) then Ok(canonical) else Err(Malformed)
  }

  predicate OperandForm(canonical: string) {
    var (head, separator, _) := Partition(canonical, '-');
    var components := Split(Partition(head, '+').0, '.');
    && |components| <= 3 && (forall i | 0 <= i < |components| :: PlainNumber(components[i]))
    && (separator ==> |components| == 3)
  }

  function RangeOperand(r: Registry, value: string): Result<string, Malformed> {
    match CanonicalVersion(r, value)
    case Err(e) => Err(e)
    case Ok(canonical) => if OperandForm(canonical) then Ok(canonical) else Err(Malformed)
  }

  // ----- constraints ------------------------------------------------------------------------------

  datatype Operator = EQ | GE | LE | GT | LT

  /** `(==|=|>=|<=|>|<)(.+)` on a whole term. */
  function Comparator(term: string): Option<(Operator, string)> {
    if '\n' in term then None
    else if "==" <= term && |term| > 2 then Some((EQ, term[2..]))
    else if "=" <= term && |term| > 1 then Some((EQ, term[1..]))
    else if ">=" <= term && |term| > 2 then Some((GE, term[2..]))
    else if "<=" <= term && |term| > 2 then Some((LE, term[2..]))
    else if ">" <= term && |term| > 1 then Some((GT, term[1..]))
    else if "<" <= term && |term| > 1 then Some((LT, term[1..]))
    else None
  }

  function ComparatorOperands(terms: seq<string>): seq<string> {
    if terms == [] then []
    else
      var c := Comparator(Strip(terms[0]));
      (if c.Some? then [c.value.1] else []) + ComparatorOperands(terms[1..])
  }

  predicate Starts(s: string, c: char) { s != "" && s[0] == c }

  function NamedOperands(constraint: string): seq<string> {
    var normalized := Strip(constraint);
    if Parse(normalized).Some? && HasPrerelease(normalized) then [normalized]
    else if Starts(normalized, '^') || Starts(normalized, '~') then [normalized[1..]]
    else ComparatorOperands(Split(normalized, ','))
  }

  /** The numeric cores under which the operands name a prerelease. */
  function PrereleaseCores(r: Registry, operands: seq<string>): Result<set<seq<nat>>, Malformed> {
    if operands == [] then Ok({})
    else
      match RangeOperand(r, operands[0])
      case Err(e) => Err(e)
      case Ok(operand) =>
        match PrereleaseCores(r, operands[1..])
        case Err(e) => Err(e)
        case Ok(cores) =>
          if HasPrerelease(operand) then
            match VersionKey(operand)
            case Err(e) => Err(e)
            case Ok(key) => Ok(cores + {key.numbers})
          else Ok(cores)
  }

  function Bound(numbers: seq<nat>): Key { Key(numbers, true, []) }

  predicate Within(key: Key, lower: Key, upper: Key) { !KeyLess(key, lower) && KeyLess(key, upper) }

  /** Components before the first `-`, as the range branches count them. */
  function Components(base: string): nat { |Split(Partition(base, '-').0, '.')| }

  function CaretUpper(n: seq<nat>, components: nat): seq<nat>
    requires |n| == 4
  {
    if n[0] > 0 then [n[0] + 1, 0, 0, 0]
    else if components == 1 then [1, 0, 0, 0]
    else if n[1] > 0 then [0, n[1] + 1, 0, 0]
    else if components == 2 then [0, 1, 0, 0]
    else [0, 0, n[2] + 1, 0]
  }

  function TildeUpper(n: seq<nat>, components: nat): seq<nat>
    requires |n| == 4
  {
    if components == 1 then [n[0] + 1, 0, 0, 0] else [n[0], n[1] + 1, 0, 0]
  }

  lemma KeyHasFour(value: string)
    requires VersionKey(value).Ok?
    ensures |VersionKey(value).value.numbers| == 4
  {
  }

  function SeriesAllows(r: Registry, caret: bool, operand: string, version: Key): Result<Option<bool>, Malformed> {
    match RangeOperand(r, operand)
    case Err(e) => Err(e)
    case Ok(base) =>
      if Components(base) > 3 then Ok(None)
      else
        KeyHasFour(base);
        var lower := VersionKey(base).value;
        var upper := if caret then CaretUpper(lower.numbers, Components(base))
                     else TildeUpper(lower.numbers, Components(base));
        Ok(Some(Within(version, lower, Bound(upper))))
  }

  predicate IsPartial(normalized: string) {
    var parts := Split(normalized, '.');
    |parts| <= 2 && forall i | 0 <= i < |parts| :: AllDigits(parts[i])
  }

  function PartialAllows(normalized: string, version: Key): Result<Option<bool>, Malformed> {
    match VersionKey(normalized + ".0")
    case Err(e) => Err(e)
    case Ok(lower) =>
      KeyHasFour(normalized + ".0");
      var n := lower.numbers;
      var upper := if |Split(normalized, '.')| == 1 then [n[0] + 1, 0, 0, 0] else [n[0], n[1] + 1, 0, 0];
      Ok(Some(Within(version, lower, Bound(upper))))
  }

  predicate Satisfies(op: Operator, version: string, operand: string)
    requires VersionKey(version).Ok? && VersionKey(operand).Ok?
  {
    var v, w := VersionKey(version).value, VersionKey(operand).value;
    match op
    case EQ => SameIdentity(version, operand)
    case GE => !KeyLess(v, w)
    case LE => !KeyLess(w, v)
    case GT => KeyLess(w, v)
    case LT => KeyLess(v, w)
  }

  /** The comparators in turn; the first that fails decides, even before a later malformed one. */
  function TermsAllow(r: Registry, terms: seq<string>, version: string): Result<Option<bool>, Malformed>
    requires VersionKey(version).Ok?
  {
    if terms == [] then Ok(Some(true))
    else
      match Comparator(Strip(terms[0]))
      case None => Ok(None)
      case Some((op, text)) =>
        match RangeOperand(r, text)
        case Err(e) => Err(e)
        case Ok(operand) =>
          if !Satisfies(op, version, operand) then Ok(Some(false)) else TermsAllow(r, terms[1..], version)
  }

  /** `None` inside `Ok`: a constraint outside the subset that is decided. */
  function Decide(r: Registry, normalized: string, version: string): Result<Option<bool>, Malformed>
    requires VersionKey(version).Ok?
  {
    var key := VersionKey(version).value;
    if normalized == "" || normalized == "*" then Ok(Some(true))
    else if r.Npm? && IsPartial(normalized) then PartialAllows(normalized, key)
    else if Parse(normalized).Some? then
      if r.Go? then
        if VersionKey(normalized).Err? then Err(Malformed) else Ok(Some(SameIdentity(version, normalized)))
      else
        match RangeOperand(r, normalized)
        case Err(e) => Err(e)
        case Ok(operand) => Ok(Some(SameIdentity(version, operand)))
    else if Starts(normalized, '^') then SeriesAllows(r, true, normalized[1..], key)
    else if Starts(normalized, '~') then SeriesAllows(r, false, normalized[1..], key)
    else TermsAllow(r, Split(normalized, ','), version)
  }

  /** A prerelease is only considered where the constraint names a prerelease of the same core. */
  function Considered(r: Registry, normalized: string, version: string): Result<bool, Malformed>
    requires VersionKey(version).Ok?
  {
    if !HasPrerelease(version) then Ok(true)
    else
      match PrereleaseCores(r, NamedOperands(normalized))
      case Err(e) => Err(e)
      case Ok(cores) => Ok(VersionKey(version).value.numbers in cores)
  }

  function Normalized(r: Registry, constraint: string): Result<string, Malformed> {
    var normalized := Strip(constraint);
    if r.Go? && (Starts(normalized, 'v') || Parse(normalized).Some?) then CanonicalVersion(r, normalized)
    else Ok(normalized)
  }

  function ConstraintAllows(r: Registry, constraint: string, value: string): Result<Option<bool>, Malformed> {
    match ConcreteVersion(r, value)
    case Err(e) => Err(e)
    case Ok(version) =>
      match Normalized(r, constraint)
      case Err(e) => Err(e)
      case Ok(normalized) =>
        match Considered(r, normalized, version)
        case Err(e) => Err(e)
        case Ok(considered) => if considered then Decide(r, normalized, version) else Ok(Some(false))
  }
}
