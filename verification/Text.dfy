/** The few operations on Python text that the modelled validators rely on. */
module Text {
  import opened Wrappers

  /** The code points Python's `str.strip` removes. */
  predicate IsSpace(c: char) {
    var n := c as int;
    9 <= n <= 13 || 28 <= n <= 32 || n == 0x85 || n == 0xa0 || n == 0x1680 || 0x2000 <= n <= 0x200a
    || n == 0x2028 || n == 0x2029 || n == 0x202f || n == 0x205f || n == 0x3000
  }

  /** `not value.strip()` */
  predicate Blank(s: string) {
    forall i | 0 <= i < |s| :: IsSpace(s[i])
  }

  function TrimLeft(s: string): string {
    if s != "" && IsSpace(s[0]) then TrimLeft(s[1..]) else s
  }

  function TrimRight(s: string): string {
    if s != "" && IsSpace(s[|s| - 1]) then TrimRight(s[..|s| - 1]) else s
  }

  /** `value.strip()` */
  function Strip(s: string): string {
    TrimRight(TrimLeft(s))
  }

  predicate SpaceFreeEnds(s: string) {
    s != "" ==> !IsSpace(s[0]) && !IsSpace(s[|s| - 1])
  }

  lemma {:induction false} TrimLeftEnds(s: string)
    ensures TrimLeft(s) != "" ==> !IsSpace(TrimLeft(s)[0])
  {
    if s != "" && IsSpace(s[0]) {
      TrimLeftEnds(s[1..]);
    }
  }

  lemma {:induction false} TrimRightEnds(s: string)
    ensures TrimRight(s) != "" ==> !IsSpace(TrimRight(s)[|TrimRight(s)| - 1]) && TrimRight(s)[0] == s[0]
  {
    if s != "" && IsSpace(s[|s| - 1]) {
      TrimRightEnds(s[..|s| - 1]);
    }
  }

  lemma StripEnds(s: string)
    ensures SpaceFreeEnds(Strip(s))
  {
    TrimLeftEnds(s);
    TrimRightEnds(TrimLeft(s));
  }

  /** Nothing is stripped from a text without white space at its ends. */
  lemma StripKeeps(s: string)
    requires SpaceFreeEnds(s)
    ensures Strip(s) == s
  {
  }

  lemma {:induction false} TrimLeftCuts(s: string)
    ensures exists a :: Blank(a) && s == a + TrimLeft(s)
  {
    if s != "" && IsSpace(s[0]) {
      TrimLeftCuts(s[1..]);
      var a :| Blank(a) && s[1..] == a + TrimLeft(s[1..]);
      assert s == ([s[0]] + a) + TrimLeft(s) && Blank([s[0]] + a);
    } else {
      assert s == "" + TrimLeft(s) && Blank("");
    }
  }

  lemma {:induction false} TrimRightCuts(s: string)
    ensures exists b :: Blank(b) && s == TrimRight(s) + b
  {
    if s != "" && IsSpace(s[|s| - 1]) {
      TrimRightCuts(s[..|s| - 1]);
      var b :| Blank(b) && s[..|s| - 1] == TrimRight(s[..|s| - 1]) + b;
      assert s == TrimRight(s) + (b + [s[|s| - 1]]) && Blank(b + [s[|s| - 1]]);
    } else {
      assert s == TrimRight(s) + "" && Blank("");
    }
  }

  /** Stripping cuts white space at the ends and nothing else; what is left has none there. */
  lemma StripCuts(s: string)
    ensures SpaceFreeEnds(Strip(s))
    ensures exists a, b :: Blank(a) && Blank(b) && s == a + Strip(s) + b
  {
    StripEnds(s);
    TrimLeftCuts(s);
    TrimRightCuts(TrimLeft(s));
    var a :| Blank(a) && s == a + TrimLeft(s);
    var b :| Blank(b) && TrimLeft(s) == Strip(s) + b;
    assert s == a + Strip(s) + b;
  }

  /** A text is blank exactly if stripping leaves nothing of it. */
  lemma BlankIsStripped(s: string)
    ensures Blank(s) <==> Strip(s) == ""
  {
    StripCuts(s);
    var a, b :| Blank(a) && Blank(b) && s == a + Strip(s) + b;
    hide Strip;
    assert Strip(s) != "" ==> s[|a|] == Strip(s)[0];
  }

  /** `value or fallback` on an optional text: both a missing and an empty text fall back. */
  function OrElse(value: Option<string>, fallback: string): string {
    if value.None? || value.value == "" then fallback else value.value
  }

  /** Python's `<` on texts: code point by code point, a proper prefix first. */
  predicate Before(a: string, b: string) {
    if b == "" then false
    else if a == "" then true
    else if a[0] != b[0] then a[0] < b[0]
    else Before(a[1..], b[1..])
  }

  lemma {:induction false} BeforeIsTotal(a: string, b: string)
    ensures Before(a, b) || Before(b, a) || a == b
    ensures !(Before(a, b) && Before(b, a))
  {
    if a != "" && b != "" && a[0] == b[0] {
      BeforeIsTotal(a[1..], b[1..]);
      assert a == [a[0]] + a[1..] && b == [b[0]] + b[1..];
    }
  }

  lemma {:induction false} BeforeIsTransitive(a: string, b: string, c: string)
    ensures Before(a, b) && Before(b, c) ==> Before(a, c)
  {
    if a != "" && b != "" && c != "" {
      BeforeIsTransitive(a[1..], b[1..], c[1..]);
    }
  }

  /** `separator.join(parts)` */
  function Join(separator: string, parts: seq<string>): string {
    if parts == [] then ""
    else if |parts| == 1 then parts[0]
    else parts[0] + separator + Join(separator, parts[1..])
  }
}
