/**
 * The string primitives the service relies on: ECMAScript's `String.prototype.trim`
 * (also what express-validator's `trim()` sanitizer and Mongoose's `trim` setter do),
 * `toLowerCase` on the characters a slug may hold, and the length validator.js's
 * `isLength` measures.
 */
module Text {

  /** The characters `trim` strips: the ECMAScript WhiteSpace and LineTerminator
      productions (tab, line feed, vertical tab, form feed, carriage return, space,
      no-break space, every Unicode space separator, line and paragraph separator,
      and the byte order mark). */
  predicate IsJsWhitespace(c: char) {
    c == '\t' || c == '\n' || c == '\U{000B}' || c == '\U{000C}' || c == '\r' || c == ' '
    || c == '\U{00A0}' || c == '\U{1680}' || ('\U{2000}' <= c <= '\U{200A}')
    || c == '\U{2028}' || c == '\U{2029}' || c == '\U{202F}' || c == '\U{205F}'
    || c == '\U{3000}' || c == '\U{FEFF}'
  }

  /** Drops the leading whitespace: what is left does not start with whitespace, and
      everything dropped was whitespace. (`TrimStartIsSuffix` says what is left.) */
  function TrimStart(s: string): (r: string)
    ensures |r| <= |s|
    ensures r == [] || !IsJsWhitespace(r[0])
    ensures forall i | 0 <= i < |s| - |r| :: IsJsWhitespace(s[i])
    decreases |s|
  {
    if |s| > 0 && IsJsWhitespace(s[0]) then TrimStart(s[1..]) else s
  }

  /** Drops the trailing whitespace: what is left does not end with whitespace, and
      everything dropped was whitespace. (`TrimEndIsPrefix` says what is left.) */
  function TrimEnd(s: string): (r: string)
    ensures |r| <= |s|
    ensures r == [] || !IsJsWhitespace(r[|r| - 1])
    ensures forall i | |r| <= i < |s| :: IsJsWhitespace(s[i])
    decreases |s|
  {
    if |s| > 0 && IsJsWhitespace(s[|s| - 1]) then TrimEnd(s[..|s| - 1]) else s
  }

  /** What `TrimStart` leaves is a suffix of its input. */
  lemma {:induction false} TrimStartIsSuffix(s: string)
    ensures TrimStart(s) == s[|s| - |TrimStart(s)|..]
    decreases |s|
  {
    if |s| > 0 && IsJsWhitespace(s[0]) {
      TrimStartIsSuffix(s[1..]);
      assert s[1..][|s| - 1 - |TrimStart(s)|..] == s[|s| - |TrimStart(s)|..];
    }
  }

  /** What `TrimEnd` leaves is a prefix of its input. */
  lemma {:induction false} TrimEndIsPrefix(s: string)
    ensures TrimEnd(s) == s[..|TrimEnd(s)|]
    decreases |s|
  {
    if |s| > 0 && IsJsWhitespace(s[|s| - 1]) {
      TrimEndIsPrefix(s[..|s| - 1]);
      assert s[..|s| - 1][..|TrimEnd(s)|] == s[..|TrimEnd(s)|];
    }
  }

  /** JavaScript's `s.trim()`: the result neither starts nor ends with whitespace. The
      lemmas below say what else it keeps and drops. */
  function Trim(s: string): (r: string)
    ensures |r| <= |s|
    ensures r == [] || (!IsJsWhitespace(r[0]) && !IsJsWhitespace(r[|r| - 1]))
  {
    TrimEndIsPrefix(TrimStart(s));
    TrimEnd(TrimStart(s))
  }

  /** Trimming keeps only characters of `s`. */
  lemma TrimMembers(s: string)
    ensures forall i | 0 <= i < |Trim(s)| :: Trim(s)[i] in s
  {
    var t := TrimStart(s);
    var r := TrimEnd(t);
    TrimStartIsSuffix(s);
    TrimEndIsPrefix(t);
    forall i | 0 <= i < |r| ensures r[i] in s {
      var j := |s| - |t| + i;
      assert r[i] == t[..|r|][i] == t[i];
      assert t[i] == s[|s| - |t|..][i] == s[j];
    }
  }

  /** Trimming leaves nothing exactly when every character is whitespace. */
  lemma TrimEmptyIff(s: string)
    ensures Trim(s) == [] <==> forall i | 0 <= i < |s| :: IsJsWhitespace(s[i])
  {
    var t := TrimStart(s);
    TrimStartIsSuffix(s);
    if t != [] {
      assert t[0] == s[|s| - |t|];
    }
  }

  /** A string that neither starts nor ends with whitespace is its own trim. */
  lemma TrimKeeps(s: string)
    requires s == [] || (!IsJsWhitespace(s[0]) && !IsJsWhitespace(s[|s| - 1]))
    ensures Trim(s) == s
  {
  }

  /** The test `!v || v.trim() === ''` used throughout: empty or whitespace only. */
  predicate IsBlank(s: string) {
    Trim(s) == ""
  }

  /** `toLowerCase` on one character: the ASCII letters, and the KELVIN SIGN (U+212A),
      the one character outside ASCII whose lower case is an ASCII letter ('k'). */
  function LowerChar(c: char): char {
    if 'A' <= c <= 'Z' then (c as int + 32) as char
    else if c == '\U{212A}' then 'k'
    else c
  }

  /** `toLowerCase` applied character by character. */
  function Lower(s: string): (r: string)
    ensures |r| == |s|
    ensures forall i | 0 <= i < |s| :: r[i] == LowerChar(s[i])
  {
    if s == [] then [] else [LowerChar(s[0])] + Lower(s[1..])
  }

  /** `s.toLowerCase().trim()`: how the normaliser and the pre-save hook canonicalise a
      slug, and how the schema's `lowercase` and `trim` setters cast it. */
  function LowerTrim(s: string): string {
    Trim(Lower(s))
  }

  lemma TrimIdempotent(s: string)
    ensures Trim(Trim(s)) == Trim(s)
  {
    TrimKeeps(Trim(s));
  }

  lemma LowerCharIdempotent(c: char)
    ensures LowerChar(LowerChar(c)) == LowerChar(c)
  {
  }

  /** A string all of whose characters are already lower case is its own `Lower`. */
  lemma LowerFixed(s: string)
    requires forall i | 0 <= i < |s| :: LowerChar(s[i]) == s[i]
    ensures Lower(s) == s
  {
  }

  /** Canonicalising twice is canonicalising once. */
  lemma {:induction false} LowerTrimIdempotent(s: string)
    ensures LowerTrim(LowerTrim(s)) == LowerTrim(s)
  {
    var l := Lower(s);
    var t := Trim(l);
    TrimMembers(l);
    forall i | 0 <= i < |t| ensures LowerChar(t[i]) == t[i] {
      assert t[i] in l;
      var j :| 0 <= j < |l| && l[j] == t[i];
      LowerCharIdempotent(s[j]);
    }
    LowerFixed(t);
    TrimIdempotent(l);
    assert LowerTrim(t) == Trim(Lower(t)) == Trim(t) == t;
  }

  /** Length as validator.js's `isLength` counts it: code points, leaving out the
      variation selectors U+FE0E and U+FE0F. */
  function VisibleLength(s: string): (n: nat)
    ensures n <= |s|
    ensures s == [] ==> n == 0
  {
    if s == [] then 0
    else (if s[0] == '\U{FE0E}' || s[0] == '\U{FE0F}' then 0 else 1) + VisibleLength(s[1..])
  }

  /** `VisibleLength` discounts exactly the two variation selectors: it is the number of
      characters less the number of U+FE0E and U+FE0F among them, so a string without
      them counts every character. */
  lemma {:induction false} VisibleLengthExact(s: string)
    ensures VisibleLength(s) == |s| - multiset(s)['\U{FE0E}'] - multiset(s)['\U{FE0F}']
    ensures (forall i | 0 <= i < |s| :: s[i] != '\U{FE0E}' && s[i] != '\U{FE0F}') ==> VisibleLength(s) == |s|
  {
    if s != [] {
      VisibleLengthExact(s[1..]);
      assert s == [s[0]] + s[1..];
      assert multiset(s) == multiset{s[0]} + multiset(s[1..]);
    }
    if forall i | 0 <= i < |s| :: s[i] != '\U{FE0E}' && s[i] != '\U{FE0F}' {
      assert '\U{FE0E}' !in multiset(s) && '\U{FE0F}' !in multiset(s);
    }
  }
}
