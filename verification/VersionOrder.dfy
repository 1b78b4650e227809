/** On strict SemVer strings the key order is the precedence of section 11 of Semantic Versioning 2.0.0. */
module VersionOrder {
  import opened Wrappers
  import opened Text
  import opened Versions

  // ----- section 11, stated on the parsed strings ------------------------------------------

  predicate NumberBefore(x: string, y: string) {
    AllDigits(x) && AllDigits(y) && Number(x) < Number(y)
  }

  /** ASCII order: at the first difference, or a proper prefix. */
  predicate TextBefore(x: string, y: string) {
    exists k | 0 <= k <= |x| && k <= |y| ::
      x[..k] == y[..k] && ((k == |x| && k < |y|) || (k < |x| && k < |y| && x[k] < y[k]))
  }

  predicate FieldBefore(x: string, y: string) {
    if AllDigits(x) && AllDigits(y) then NumberBefore(x, y)
    else if AllDigits(x) || AllDigits(y) then AllDigits(x)
    else TextBefore(x, y)
  }

  /** Dot-separated fields from left to right until one differs; a larger set of fields is higher. */
  predicate FieldsBefore(p: seq<string>, q: seq<string>) {
    exists k | 0 <= k <= |p| && k <= |q| ::
      p[..k] == q[..k] && ((k == |p| && k < |q|) || (k < |p| && k < |q| && FieldBefore(p[k], q[k])))
  }

  /** Major, minor and patch, compared numerically in that order. */
  predicate CoreBefore(p: seq<string>, q: seq<string>) {
    exists k | 0 <= k < |p| && k < |q| :: p[..k] == q[..k] && NumberBefore(p[k], q[k])
  }

  predicate Precedes(a: Parsed, b: Parsed) {
    CoreBefore(a.core, b.core)
    || (a.core == b.core
        && match (a.pre, b.pre)
           case (Some(_), None) => true
           case (Some(p), Some(q)) => FieldsBefore(p, q)
           case (None, _) => false)
  }

  // ----- numbers without leading zeros -----------------------------------------------------------

  function TenTo(n: nat): nat { if n == 0 then 1 else 10 * TenTo(n - 1) }

  lemma {:induction false} NumberBounds(s: string)
    requires AllDigits(s)
    ensures Number(s) < TenTo(|s|)
    ensures s[0] != '0' ==> TenTo(|s| - 1) <= Number(s)
  {
    if |s| > 1 {
      var front := s[..|s| - 1];
      NumberBounds(front);
      assert Digit(s[|s| - 1]);
    } else {
      assert Digit(s[0]) && s[..0] == "";
      assert TenTo(1) == 10 * TenTo(0);
    }
  }

  lemma {:induction false} TenToGrows(m: nat, n: nat)
    requires m <= n
    ensures TenTo(m) <= TenTo(n)
  {
    if m < n {
      TenToGrows(m, n - 1);
    }
  }

  predicate NoZeroInFront(s: string) { AllDigits(s) && (|s| > 1 ==> s[0] != '0') }

  lemma {:induction false} NumberIsInjective(x: string, y: string)
    requires NoZeroInFront(x) && NoZeroInFront(y) && Number(x) == Number(y)
    ensures x == y
  {
    if |x| < |y| {
      ShorterIsLess(x, y);
    } else if |y| < |x| {
      ShorterIsLess(y, x);
    } else {
      SameDigits(x, y);
    }
  }

  lemma ShorterIsLess(x: string, y: string)
    requires NoZeroInFront(x) && NoZeroInFront(y) && |x| < |y|
    ensures Number(x) < Number(y)
  {
    NumberBounds(x);
    NumberBounds(y);
    TenToGrows(|x|, |y| - 1);
  }

  lemma {:induction false} SameDigits(x: string, y: string)
    requires |x| == |y| && (forall i | 0 <= i < |x| :: Digit(x[i]) && Digit(y[i])) && Number(x) == Number(y)
    ensures x == y
  {
    if x != "" {
      var n := |x| - 1;
      assert Digit(x[n]) && Digit(y[n]);
      assert Number(x) == Number(x[..n]) * 10 + (x[n] as int - '0' as int);
      assert Number(y) == Number(y[..n]) * 10 + (y[n] as int - '0' as int);
      SameDigits(x[..n], y[..n]);
      assert x == x[..n] + [x[n]] && y == y[..n] + [y[n]];
    }
  }

  // ----- identifiers ---------------------------------------------------------------------------------

  lemma {:induction false} BeforeIsTextBefore(x: string, y: string)
    ensures Before(x, y) <==> TextBefore(x, y)
  {
    if x != "" && y != "" && x[0] == y[0] {
      BeforeIsTextBefore(x[1..], y[1..]);
      if TextBefore(x[1..], y[1..]) {
        var k :| 0 <= k <= |x| - 1 && k <= |y| - 1 && x[1..][..k] == y[1..][..k]
                 && ((k == |x| - 1 && k < |y| - 1) || (k < |x| - 1 && k < |y| - 1 && x[1..][k] < y[1..][k]));
        assert x[..k + 1] == [x[0]] + x[1..][..k] && y[..k + 1] == [y[0]] + y[1..][..k];
      }
      if TextBefore(x, y) {
        var k :| 0 <= k <= |x| && k <= |y| && x[..k] == y[..k]
                 && ((k == |x| && k < |y|) || (k < |x| && k < |y| && x[k] < y[k]));
        assert x[1..][..k - 1] == x[..k][1..] && y[1..][..k - 1] == y[..k][1..];
      }
    } else if x == "" || y == "" {
      assert x[..0] == y[..0];
    } else {
      assert x[..0] == y[..0];
      forall k | 0 < k <= |x| && k <= |y| ensures x[..k] != y[..k] {
        assert x[..k][0] != y[..k][0];
      }
    }
  }

  lemma IdentifiersAgree(x: string, y: string)
    requires (AllDigits(x) ==> NoZeroInFront(x)) && (AllDigits(y) ==> NoZeroInFront(y))
    ensures IdentifierOf(x) == IdentifierOf(y) <==> x == y
    ensures IdentifierLess(IdentifierOf(x), IdentifierOf(y)) <==> FieldBefore(x, y)
    ensures FieldBefore(x, y) ==> x != y
  {
    BeforeIsTextBefore(x, y);
    BeforeIsTotal(x, y);
    if AllDigits(x) && AllDigits(y) && Number(x) == Number(y) {
      NumberIsInjective(x, y);
    }
    hide TextBefore, Number;
  }

  predicate FieldsOk(p: seq<string>) {
    forall i | 0 <= i < |p| :: AllDigits(p[i]) ==> NoZeroInFront(p[i])
  }

  lemma {:induction false} FieldsAgree(p: seq<string>, q: seq<string>)
    requires FieldsOk(p) && FieldsOk(q)
    ensures IdentifiersLess(IdentifiersOf(p), IdentifiersOf(q)) <==> FieldsBefore(p, q)
    ensures IdentifiersOf(p) == IdentifiersOf(q) <==> p == q
  {
    var a, b := IdentifiersOf(p), IdentifiersOf(q);
    hide IdentifierLess, FieldBefore, IdentifierOf;
    if p == [] || q == [] {
      assert p[..0] == q[..0];
    } else {
      IdentifiersAgree(p[0], q[0]);
      assert a[1..] == IdentifiersOf(p[1..]) && b[1..] == IdentifiersOf(q[1..]);
      assert a[0] == IdentifierOf(p[0]) && b[0] == IdentifierOf(q[0]);
      FieldsSplit(p, q);
      assert a == [a[0]] + a[1..] && b == [b[0]] + b[1..];
      assert p == [p[0]] + p[1..] && q == [q[0]] + q[1..];
      FieldsAgree(p[1..], q[1..]);
    }
  }

  lemma FieldsSplit(p: seq<string>, q: seq<string>)
    requires p != [] && q != []
    ensures FieldsBefore(p, q) <==> if p[0] == q[0] then FieldsBefore(p[1..], q[1..]) || FieldBefore(p[0], q[0])
                                    else FieldBefore(p[0], q[0])
  {
    hide FieldBefore;
    if FieldBefore(p[0], q[0]) {
      assert p[..0] == q[..0];
    }
    if p[0] == q[0] && FieldsBefore(p[1..], q[1..]) {
      var k :| 0 <= k <= |p| - 1 && k <= |q| - 1 && p[1..][..k] == q[1..][..k]
               && ((k == |p| - 1 && k < |q| - 1) || (k < |p| - 1 && k < |q| - 1 && FieldBefore(p[1..][k], q[1..][k])));
      assert p[..k + 1] == [p[0]] + p[1..][..k] && q[..k + 1] == [q[0]] + q[1..][..k];
    }
    if FieldsBefore(p, q) {
      var k :| 0 <= k <= |p| && k <= |q| && p[..k] == q[..k]
               && ((k == |p| && k < |q|) || (k < |p| && k < |q| && FieldBefore(p[k], q[k])));
      if k > 0 {
        assert p[..k][0] == q[..k][0];
        assert p[1..][..k - 1] == p[..k][1..] && q[1..][..k - 1] == q[..k][1..];
      }
    }
  }

  // ----- numeric cores -----------------------------------------------------------------------------------

  predicate CoreOk(p: seq<string>) { |p| == 3 && forall i | 0 <= i < 3 :: PlainNumber(p[i]) }

  lemma CoresAgree(p: seq<string>, q: seq<string>)
    requires CoreOk(p) && CoreOk(q)
    ensures NumbersForm(p) && NumbersForm(q)
    ensures NumbersLess(Padded(NumbersOf(p)), Padded(NumbersOf(q))) <==> CoreBefore(p, q)
    ensures Padded(NumbersOf(p)) == Padded(NumbersOf(q)) <==> p == q
  {
    forall i | 0 <= i < 3
      ensures Number(p[i]) == Number(q[i]) <==> p[i] == q[i]
    {
      if Number(p[i]) == Number(q[i]) {
        NumberIsInjective(p[i], q[i]);
      }
    }
    var a, b := Padded(NumbersOf(p)), Padded(NumbersOf(q));
    assert |a| == |b| == 4 && a[3] == b[3] == 0;
    assert forall i | 0 <= i < 3 :: a[i] == Number(p[i]) && b[i] == Number(q[i]);
    hide Number, NumbersOf, PlainNumber;
    FourLess(a, b);
    assert p[..0] == q[..0];
    assert p[..1] == q[..1] <==> p[0] == q[0];
    assert p[..2] == q[..2] <==> p[0] == q[0] && p[1] == q[1];
    assert a == b ==> p == q;
  }

  lemma FourLess(a: seq<nat>, b: seq<nat>)
    requires |a| == |b| == 4
    ensures NumbersLess(a, b) <==>
              || a[0] < b[0]
              || (a[0] == b[0] && (a[1] < b[1] || (a[1] == b[1] && (a[2] < b[2] || (a[2] == b[2] && a[3] < b[3])))))
  {
    assert a[1..][1..] == a[2..] && a[2..][1..] == a[3..] && a[3..][1..] == [];
    assert b[1..][1..] == b[2..] && b[2..][1..] == b[3..] && b[3..][1..] == [];
    assert NumbersLess(a[3..], b[3..]) <==> a[3] < b[3];
    assert NumbersLess(a[2..], b[2..]) <==> a[2] < b[2] || (a[2] == b[2] && a[3] < b[3]);
  }

  // ----- the theorem -----------------------------------------------------------------------------------------

  predicate SemVer(value: string) { Strict(value) && VersionKey(value).Ok? }

  lemma SemVerParts(value: string)
    requires SemVer(value)
    ensures Parse(value).Some? && CoreOk(Parse(value).value.core)
    ensures Parse(value).value.pre.Some? ==> FieldsOk(Parse(value).value.pre.value)
    ensures VersionKey(value) == Ok(KeyOf(Parse(value).value))
  {
  }

  /** The key order is SemVer precedence, and two keys are equal exactly when only build metadata differs. */
  lemma KeyOrderIsPrecedence(a: string, b: string)
    requires SemVer(a) && SemVer(b)
    ensures var p, q := Parse(a).value, Parse(b).value;
            && (KeyLess(VersionKey(a).value, VersionKey(b).value) <==> Precedes(p, q))
            && (VersionKey(a) == VersionKey(b) <==> p.core == q.core && p.pre == q.pre)
  {
    SemVerParts(a);
    SemVerParts(b);
    var p, q := Parse(a).value, Parse(b).value;
    CoresAgree(p.core, q.core);
    if p.pre.Some? && q.pre.Some? {
      FieldsAgree(p.pre.value, q.pre.value);
    }
    hide Parse, VersionKey, NumbersLess, CoreBefore, FieldsBefore, IdentifiersLess, IdentifiersOf, NumbersOf, Padded;
    hide CoreOk, FieldsOk, Strict;
  }

  lemma {:induction false} NumbersTotal(a: seq<nat>, b: seq<nat>)
    ensures NumbersLess(a, b) || NumbersLess(b, a) || a == b
    ensures !(NumbersLess(a, b) && NumbersLess(b, a)) && (a == b ==> !NumbersLess(a, b))
  {
    if a != [] && b != [] && a[0] == b[0] {
      NumbersTotal(a[1..], b[1..]);
      assert a == [a[0]] + a[1..] && b == [b[0]] + b[1..];
    }
  }

  lemma {:induction false} IdentifiersTotal(a: seq<Identifier>, b: seq<Identifier>)
    ensures IdentifiersLess(a, b) || IdentifiersLess(b, a) || a == b
    ensures !(IdentifiersLess(a, b) && IdentifiersLess(b, a)) && (a == b ==> !IdentifiersLess(a, b))
  {
    if a != [] && b != [] {
      if a[0].Alphanumeric? && b[0].Alphanumeric? {
        BeforeIsTotal(a[0].text, b[0].text);
      }
      if a[0] == b[0] {
        IdentifiersTotal(a[1..], b[1..]);
        assert a == [a[0]] + a[1..] && b == [b[0]] + b[1..];
      }
    }
  }

  lemma KeysTotal(a: Key, b: Key)
    ensures KeyLess(a, b) || KeyLess(b, a) || a == b
    ensures !(KeyLess(a, b) && KeyLess(b, a)) && (a == b ==> !KeyLess(a, b))
  {
    NumbersTotal(a.numbers, b.numbers);
    IdentifiersTotal(a.identifiers, b.identifiers);
  }

  /** Precedence is total: of two versions that differ in more than build metadata exactly one precedes the other. */
  lemma PrecedenceIsTotal(a: string, b: string)
    requires SemVer(a) && SemVer(b)
    ensures var p, q := Parse(a).value, Parse(b).value;
            && (p.core == q.core && p.pre == q.pre <==> !Precedes(p, q) && !Precedes(q, p))
            && !(Precedes(p, q) && Precedes(q, p))
  {
    KeyOrderIsPrecedence(a, b);
    KeyOrderIsPrecedence(b, a);
    KeysTotal(VersionKey(a).value, VersionKey(b).value);
    hide Parse, VersionKey, Precedes, KeyLess;
  }
}
