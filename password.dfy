// `utils/password.rs`: a password is secure when it contains at least one
// lowercase letter, one uppercase letter, one digit and one special character.
// Each test is a regex of the form `[...]+` asked whether it matches anywhere
// in the password; the classes are modelled item by item as the regex crate
// parses them.

module Password {

  /** One item of a bracketed regex class: a literal, a range `a-z`, or a
      nested class `[...]` (the regex crate's class-union syntax). */
  datatype ClassItem = Single(c: char) | Span(lo: char, hi: char) | Nested(items: seq<ClassItem>)

  function ItemHas(item: ClassItem, c: char): bool
  {
    match item
    case Single(x) => c == x
    case Span(lo, hi) => lo <= c <= hi
    case Nested(items) => exists i | 0 <= i < |items| :: ItemHas(items[i], c)
  }

  predicate ClassHas(cls: seq<ClassItem>, c: char)
  {
    exists i | 0 <= i < |cls| :: ItemHas(cls[i], c)
  }

  /** `[a-z]`, `[A-Z]` and `[0-9]`. */
  const LOWER: seq<ClassItem> := [Span('a', 'z')]
  const UPPER: seq<ClassItem> := [Span('A', 'Z')]
  const DIGIT: seq<ClassItem> := [Span('0', '9')]

  /** The special class of `utils/password.rs:16` as the regex crate reads it,
      in three stretches of its text: `,-.` is a range, and `[\\]` is a nested
      class holding the backslash alone, so neither `[` nor `]` is a member. */
  const SPECIAL_HEAD: seq<ClassItem> := [
    Single(' '), Single('!'), Single('"'), Single('#'), Single('$'), Single('%'),
    Single('&'), Single('\''), Single('('), Single(')'), Single('*'), Single('+')
  ]
  const SPECIAL_MIDDLE: seq<ClassItem> := [
    Span(',', '.'), Single('/'), Single(':'), Single(';'), Single('<'), Single('='),
    Single('>'), Single('?'), Single('@')
  ]
  const SPECIAL_TAIL: seq<ClassItem> := [
    Nested([Single('\\')]), Single('^'), Single('_'), Single('`'), Single('{'),
    Single('|'), Single('}'), Single('~')
  ]
  const SPECIAL: seq<ClassItem> := SPECIAL_HEAD + SPECIAL_MIDDLE + SPECIAL_TAIL

  /** ASCII punctuation: the printable characters that are neither letters,
      digits nor space (POSIX `[:punct:]`). */
  predicate IsAsciiPunctuation(c: char)
  {
    ('!' <= c <= '/') || (':' <= c <= '@') || ('[' <= c <= '`') || ('{' <= c <= '~')
  }

  /** The special characters as a set: space and ASCII punctuation except the
      two square brackets. */
  predicate IsSpecial(c: char)
  {
    c == ' ' || (IsAsciiPunctuation(c) && c != '[' && c != ']')
  }

  /** A class written as two stretches holds what either stretch holds. */
  lemma ClassHasAppend(a: seq<ClassItem>, b: seq<ClassItem>, c: char)
    ensures ClassHas(a + b, c) <==> ClassHas(a, c) || ClassHas(b, c)
  {
    if ClassHas(a + b, c) {
      var i :| 0 <= i < |a + b| && ItemHas((a + b)[i], c);
      if i >= |a| { assert (a + b)[i] == b[i - |a|]; }
    }
    if ClassHas(a, c) {
      var i :| 0 <= i < |a| && ItemHas(a[i], c);
      assert (a + b)[i] == a[i];
    }
    if ClassHas(b, c) {
      var i :| 0 <= i < |b| && ItemHas(b[i], c);
      assert (a + b)[|a| + i] == b[i];
    }
  }

  lemma HeadHas(c: char)
    ensures ClassHas(SPECIAL_HEAD, c) <==> c == ' ' || '!' <= c <= '+'
  {
    if c == ' ' || '!' <= c <= '+' {
      var i := if c == ' ' then 0 else c as int - '!' as int + 1;
      assert ItemHas(SPECIAL_HEAD[i], c);
    }
  }

  lemma MiddleHas(c: char)
    ensures ClassHas(SPECIAL_MIDDLE, c) <==> ',' <= c <= '/' || ':' <= c <= '@'
  {
    if ',' <= c <= '.' {
      assert ItemHas(SPECIAL_MIDDLE[0], c);
    } else if ',' <= c <= '/' || ':' <= c <= '@' {
      var i := if c == '/' then 1 else c as int - ':' as int + 2;
      assert ItemHas(SPECIAL_MIDDLE[i], c);
    }
  }

  lemma TailHas(c: char)
    ensures ClassHas(SPECIAL_TAIL, c) <==> c == '\\' || '^' <= c <= '`' || '{' <= c <= '~'
  {
    var nested := Nested([Single('\\')]);
    assert ItemHas(nested, c) <==> c == '\\' by {
      assert [Single('\\')][0] == Single('\\');
    }
    assert SPECIAL_TAIL[0] == nested;
    if '^' <= c <= '`' {
      assert ItemHas(SPECIAL_TAIL[c as int - '^' as int + 1], c);
    } else if '{' <= c <= '~' {
      assert ItemHas(SPECIAL_TAIL[c as int - '{' as int + 4], c);
    }
  }

  /** The reading of `utils/password.rs:16` is the set `IsSpecial`. */
  lemma SpecialClassIsSpaceAndPunctuation(c: char)
    ensures ClassHas(SPECIAL, c) <==> IsSpecial(c)
  {
    ClassHasAppend(SPECIAL_HEAD + SPECIAL_MIDDLE, SPECIAL_TAIL, c);
    ClassHasAppend(SPECIAL_HEAD, SPECIAL_MIDDLE, c);
    HeadHas(c);
    MiddleHas(c);
    TailHas(c);
  }

  /** Whether `s` holds a character of `cls`, scanning from the front. */
  function Contains(s: string, cls: seq<ClassItem>): (b: bool)
    ensures b <==> exists i :: 0 <= i < |s| && ClassHas(cls, s[i])
  {
    if s == [] then false
    else if ClassHas(cls, s[0]) then true
    else
      var rest := Contains(s[1..], cls);
      assert forall i :: 1 <= i < |s| ==> s[i] == s[1..][i - 1];
      rest
  }

  /** What `Regex::new("[...]+").is_match(s)` asks: is there a non-empty
      stretch of `s` made only of class members? */
  ghost predicate RegexMatches(s: string, cls: seq<ClassItem>)
  {
    exists i, j :: 0 <= i < j <= |s| && AllInClass(s[i..j], cls)
  }

  ghost predicate AllInClass(run: string, cls: seq<ClassItem>)
  {
    forall k :: 0 <= k < |run| ==> ClassHas(cls, run[k])
  }

  /** The scan answers exactly what the regex search answers. */
  lemma ContainsIsRegexMatch(s: string, cls: seq<ClassItem>)
    ensures Contains(s, cls) <==> RegexMatches(s, cls)
  {
    if Contains(s, cls) {
      var i :| 0 <= i < |s| && ClassHas(cls, s[i]);
      assert s[i..i + 1][0] == s[i];
      assert AllInClass(s[i..i + 1], cls);
    }
    if RegexMatches(s, cls) {
      var i, j :| 0 <= i < j <= |s| && AllInClass(s[i..j], cls);
      assert s[i..j][0] == s[i];
    }
  }

  /** `is_secure_password`: the four checks in order, each returning false
      on failure. No length is checked, yet an accepted password has at least
      four characters, since no character is in two of the classes. */
  function IsSecurePassword(password: string): (secure: bool)
    ensures secure ==> |password| >= 4
  {
    if !Contains(password, LOWER) then false
    else if !Contains(password, UPPER) then false
    else if !Contains(password, DIGIT) then false
    else if !Contains(password, SPECIAL) then false
    else
      FourClassesNeedFourCharacters(password);
      true
  }

  /** A character of each of the four classes takes four distinct positions. */
  lemma FourClassesNeedFourCharacters(p: string)
    requires Contains(p, LOWER) && Contains(p, UPPER) && Contains(p, DIGIT) && Contains(p, SPECIAL)
    ensures |p| >= 4
  {
    var a := RangeWitness(p, 'a', 'z');
    var b := RangeWitness(p, 'A', 'Z');
    var c := RangeWitness(p, '0', '9');
    var d :| 0 <= d < |p| && ClassHas(SPECIAL, p[d]);
    SpecialIsNotAlphanumeric(p[d]);
    assert a != b && a != c && a != d && b != c && b != d && c != d;
  }

  /** A position of `p` holding a member of the one-range class `[lo-hi]`. */
  lemma RangeWitness(p: string, lo: char, hi: char) returns (i: int)
    requires Contains(p, [Span(lo, hi)])
    ensures 0 <= i < |p| && lo <= p[i] <= hi
  {
    i :| 0 <= i < |p| && ClassHas([Span(lo, hi)], p[i]);
    assert [Span(lo, hi)][0] == Span(lo, hi);
  }

  lemma SpecialIsNotAlphanumeric(x: char)
    requires ClassHas(SPECIAL, x)
    ensures !('a' <= x <= 'z') && !('A' <= x <= 'Z') && !('0' <= x <= '9')
  {
    SpecialClassIsSpaceAndPunctuation(x);
  }

  ghost predicate HasLower(p: string) { exists i :: 0 <= i < |p| && 'a' <= p[i] <= 'z' }
  ghost predicate HasUpper(p: string) { exists i :: 0 <= i < |p| && 'A' <= p[i] <= 'Z' }
  ghost predicate HasDigit(p: string) { exists i :: 0 <= i < |p| && '0' <= p[i] <= '9' }
  ghost predicate HasSpecial(p: string) { exists i :: 0 <= i < |p| && IsSpecial(p[i]) }

  /** The password is accepted exactly when all four kinds of character occur
      in it; its length is not looked at. */
  lemma SecureIffAllFourClasses(p: string)
    ensures IsSecurePassword(p) <==> HasLower(p) && HasUpper(p) && HasDigit(p) && HasSpecial(p)
  {
    assert forall c :: ClassHas(LOWER, c) <==> 'a' <= c <= 'z' by {
      forall c ensures ClassHas(LOWER, c) <==> 'a' <= c <= 'z' { assert LOWER[0] == Span('a', 'z'); }
    }
    assert forall c :: ClassHas(UPPER, c) <==> 'A' <= c <= 'Z' by {
      forall c ensures ClassHas(UPPER, c) <==> 'A' <= c <= 'Z' { assert UPPER[0] == Span('A', 'Z'); }
    }
    assert forall c :: ClassHas(DIGIT, c) <==> '0' <= c <= '9' by {
      forall c ensures ClassHas(DIGIT, c) <==> '0' <= c <= '9' { assert DIGIT[0] == Span('0', '9'); }
    }
    forall c ensures ClassHas(SPECIAL, c) <==> IsSpecial(c) {
      SpecialClassIsSpaceAndPunctuation(c);
    }
  }

  /** A password with no lowercase letter is rejected, whatever else it holds;
      likewise for the other three kinds. */
  lemma MissingClassRejects(p: string)
    ensures !HasLower(p) ==> !IsSecurePassword(p)
    ensures !HasUpper(p) ==> !IsSecurePassword(p)
    ensures !HasDigit(p) ==> !IsSecurePassword(p)
    ensures !HasSpecial(p) ==> !IsSecurePassword(p)
  {
    SecureIffAllFourClasses(p);
  }

  /** Only which characters occur matters: neither order, repetition nor
      length changes the verdict. */
  lemma VerdictDependsOnCharactersOnly(p: string, q: string)
    requires forall c :: c in p <==> c in q
    ensures IsSecurePassword(p) == IsSecurePassword(q)
  {
    SecureIffAllFourClasses(p);
    SecureIffAllFourClasses(q);
    forall i | 0 <= i < |p| ensures exists j :: 0 <= j < |q| && q[j] == p[i] {
      assert p[i] in q;
    }
    forall j | 0 <= j < |q| ensures exists i :: 0 <= i < |p| && p[i] == q[j] {
      assert q[j] in p;
    }
  }

  /** Appending characters never turns an accepted password into a rejected one. */
  lemma Monotone(p: string, suffix: string)
    requires IsSecurePassword(p)
    ensures IsSecurePassword(p + suffix)
  {
    SecureIffAllFourClasses(p);
    SecureIffAllFourClasses(p + suffix);
    forall i | 0 <= i < |p| ensures (p + suffix)[i] == p[i] { }
  }

  /** The insecure password of the handler's tests: one lowercase letter. */
  lemma RejectsSingleLetter()
    ensures !IsSecurePassword("a")
  {
  }

  /** The accepted password of the handler's tests. */
  lemma AcceptsTestPassword()
    ensures IsSecurePassword("Password123!")
  {
    var p := "Password123!";
    SecureIffAllFourClasses(p);
    assert 'a' <= p[1] <= 'z' && 'A' <= p[0] <= 'Z' && '0' <= p[8] <= '9' && IsSpecial(p[11]);
  }

  /** A space is a special character, and so is a backslash. */
  lemma SpaceAndBackslashAreSpecial()
    ensures IsSecurePassword("aA1 ")
    ensures IsSecurePassword("aA1\\")
  {
    var p, q := "aA1 ", "aA1\\";
    SecureIffAllFourClasses(p);
    assert 'a' <= p[0] <= 'z' && 'A' <= p[1] <= 'Z' && '0' <= p[2] <= '9' && IsSpecial(p[3]);
    SecureIffAllFourClasses(q);
    assert 'a' <= q[0] <= 'z' && 'A' <= q[1] <= 'Z' && '0' <= q[2] <= '9' && IsSpecial(q[3]);
  }

  /** Square brackets are not special characters. */
  lemma BracketsAreNotSpecial()
    ensures !IsSecurePassword("aA1[]")
  {
    var p := "aA1[]";
    forall i | 0 <= i < |p| ensures !ClassHas(SPECIAL, p[i]) {
      SpecialClassIsSpaceAndPunctuation(p[i]);
    }
  }
}
