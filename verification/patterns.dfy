/**
 The two name patterns of the pre-generation hook and Python `re.match`
 semantics for them.

 Both patterns have the shape `^[H][T]+$`: one character from a head class,
 then one or more characters from a tail class, then the end anchor. Under
 Python's `re` (no MULTILINE flag) `$` matches at the end of the string and
 also just before a single newline that ends the string, so a match may leave
 one trailing "\n" unconsumed.
 */
module Patterns {

  /** One item of a bracketed character class: a literal or a range `lo-hi`. */
  datatype ClassItem = Single(ch: char) | Range(lo: char, hi: char) {
    predicate Has(c: char) {
      match this
      case Single(x) => c == x
      case Range(l, h) => l <= c <= h
    }
  }

  /** A bracketed class `[...]` is the union of its items. */
  type CharClass = seq<ClassItem>

  predicate InClass(cls: CharClass, c: char) {
    exists k :: 0 <= k < |cls| && cls[k].Has(c)
  }

  /** A pattern `^[head][tail]+$`. */
  datatype Pattern = Pattern(head: CharClass, tail: CharClass)

  /** `[_a-zA-Z]`, the head class of both patterns. */
  const IdentStartClass: CharClass := [Single('_'), Range('a', 'z'), Range('A', 'Z')]

  /** `[_a-zA-Z0-9]`, the tail class of MODULE_REGEX. */
  const IdentClass: CharClass := [Single('_'), Range('a', 'z'), Range('A', 'Z'), Range('0', '9')]

  /** `[-_a-zA-Z0-9]`, the tail class of DATABASE_REGEX (the leading `-` is a literal). */
  const DatabaseTailClass: CharClass := [Single('-'), Single('_'), Range('a', 'z'), Range('A', 'Z'), Range('0', '9')]

  /** MODULE_REGEX = `^[_a-zA-Z][_a-zA-Z0-9]+$` */
  const ModulePattern := Pattern(IdentStartClass, IdentClass)

  /** DATABASE_REGEX = `^[_a-zA-Z][-_a-zA-Z0-9]+$` */
  const DatabasePattern := Pattern(IdentStartClass, DatabaseTailClass)

  // ---------------------------------------------------------------------
  // Reference semantics: a match is a prefix s[..j] consumed by `[H][T]+`
  // at whose end `$` holds.
  // ---------------------------------------------------------------------

  /** Python's `$` without MULTILINE holds at position j of s. */
  predicate EndAnchorAt(s: string, j: nat) {
    j == |s| || (j + 1 == |s| && s[j] == '\n')
  }

  /** `^[head][tail]+` can consume exactly s[..j]. */
  predicate ConsumesPrefix(p: Pattern, s: string, j: nat) {
    2 <= j <= |s|
    && InClass(p.head, s[0])
    && forall i :: 1 <= i < j ==> InClass(p.tail, s[i])
  }

  /** `re.match(p, s)` finds a match: some match end satisfies the anchor. */
  ghost predicate FullMatch(p: Pattern, s: string) {
    exists j: nat :: ConsumesPrefix(p, s, j) && EndAnchorAt(s, j)
  }

  // ---------------------------------------------------------------------
  // Executable matcher: greedy `+`, then test `$` once.
  // ---------------------------------------------------------------------

  /** The end of the longest run of `cls` characters starting at i. */
  function TailRunEnd(cls: CharClass, s: string, i: nat): (k: nat)
    requires i <= |s|
    ensures i <= k <= |s|
    ensures forall m :: i <= m < k ==> InClass(cls, s[m])
    ensures k < |s| ==> !InClass(cls, s[k])
    decreases |s| - i
  {
    if i == |s| || !InClass(cls, s[i]) then i else TailRunEnd(cls, s, i + 1)
  }

  /**
   Greedy matching: the head takes s[0], the tail run goes as far as it can,
   and `$` is tested at its end. Backtracking to a shorter run never helps,
   because `$` only holds at |s| or at |s| - 1 before a final newline.
   */
  function Matches(p: Pattern, s: string): (b: bool)
    ensures b <==> FullMatch(p, s)
  {
    if |s| == 0 || !InClass(p.head, s[0]) then false
    else
      var k := TailRunEnd(p.tail, s, 1);
      if 2 <= k && EndAnchorAt(s, k) then
        assert ConsumesPrefix(p, s, k);
        true
      else
        NoShorterMatch(p, s, k);
        false
  }

  /** When `$` fails at the end of the longest tail run, it fails at every shorter one too. */
  lemma NoShorterMatch(p: Pattern, s: string, k: nat)
    requires 1 <= k <= |s|
    requires forall m :: 1 <= m < k ==> InClass(p.tail, s[m])
    requires k < |s| ==> !InClass(p.tail, s[k])
    requires !(2 <= k && EndAnchorAt(s, k))
    ensures !FullMatch(p, s)
  {
  }

  // ---------------------------------------------------------------------
  // The same languages written with plain character tests.
  // ---------------------------------------------------------------------

  predicate IsAsciiLetter(c: char) { 'a' <= c <= 'z' || 'A' <= c <= 'Z' }

  predicate IsAsciiDigit(c: char) { '0' <= c <= '9' }

  predicate IsIdentStart(c: char) { c == '_' || IsAsciiLetter(c) }

  predicate IsIdentChar(c: char) { IsIdentStart(c) || IsAsciiDigit(c) }

  /** At least two characters: an identifier start, then identifier characters. */
  predicate IsModuleName(n: string) {
    |n| >= 2 && IsIdentStart(n[0]) && forall i :: 1 <= i < |n| ==> IsIdentChar(n[i])
  }

  /** As IsModuleName, but hyphens are also allowed after the first character. */
  predicate IsDatabaseName(n: string) {
    |n| >= 2 && IsIdentStart(n[0]) && forall i :: 1 <= i < |n| ==> IsIdentChar(n[i]) || n[i] == '-'
  }

  /** s is n itself or n followed by one newline, which Python's `$` tolerates. */
  predicate NameWithOptionalNewline(s: string, isName: string -> bool) {
    isName(s) || (|s| >= 1 && s[|s| - 1] == '\n' && isName(s[..|s| - 1]))
  }

  lemma IdentStartClassIff(c: char)
    ensures InClass(IdentStartClass, c) <==> IsIdentStart(c)
  {
    if c == '_' {
      assert IdentStartClass[0].Has(c);
    } else if 'a' <= c <= 'z' {
      assert IdentStartClass[1].Has(c);
    } else if 'A' <= c <= 'Z' {
      assert IdentStartClass[2].Has(c);
    }
  }

  lemma IdentClassIff(c: char)
    ensures InClass(IdentClass, c) <==> IsIdentChar(c)
  {
    if c == '_' {
      assert IdentClass[0].Has(c);
    } else if 'a' <= c <= 'z' {
      assert IdentClass[1].Has(c);
    } else if 'A' <= c <= 'Z' {
      assert IdentClass[2].Has(c);
    } else if '0' <= c <= '9' {
      assert IdentClass[3].Has(c);
    }
  }

  lemma DatabaseTailClassIff(c: char)
    ensures InClass(DatabaseTailClass, c) <==> IsIdentChar(c) || c == '-'
  {
    if c == '-' {
      assert DatabaseTailClass[0].Has(c);
    } else if c == '_' {
      assert DatabaseTailClass[1].Has(c);
    } else if 'a' <= c <= 'z' {
      assert DatabaseTailClass[2].Has(c);
    } else if 'A' <= c <= 'Z' {
      assert DatabaseTailClass[3].Has(c);
    } else if '0' <= c <= '9' {
      assert DatabaseTailClass[4].Has(c);
    }
  }

  /** All of n is consumed by `[head][tail]+`. */
  predicate ConsumesAll(p: Pattern, n: string) {
    ConsumesPrefix(p, n, |n|)
  }

  /** A match either consumes everything or stops before one final newline. */
  lemma FullMatchShape(p: Pattern, s: string)
    ensures FullMatch(p, s) <==>
              ConsumesAll(p, s) || (|s| >= 1 && s[|s| - 1] == '\n' && ConsumesAll(p, s[..|s| - 1]))
  {
    if |s| >= 1 && s[|s| - 1] == '\n' && ConsumesAll(p, s[..|s| - 1]) {
      assert ConsumesPrefix(p, s, |s| - 1);
    }
    if ConsumesAll(p, s) {
      assert ConsumesPrefix(p, s, |s|);
    }
    if FullMatch(p, s) {
      var j: nat :| ConsumesPrefix(p, s, j) && EndAnchorAt(s, j);
      if j < |s| {
        var n := s[..|s| - 1];
        assert forall i :: 1 <= i < |n| ==> n[i] == s[i];
      }
    }
  }

  lemma ModuleConsumesAllIff(n: string)
    ensures ConsumesAll(ModulePattern, n) <==> IsModuleName(n)
  {
    if |n| >= 2 {
      IdentStartClassIff(n[0]);
      forall i | 1 <= i < |n| {
        IdentClassIff(n[i]);
      }
    }
  }

  lemma DatabaseConsumesAllIff(n: string)
    ensures ConsumesAll(DatabasePattern, n) <==> IsDatabaseName(n)
  {
    if |n| >= 2 {
      IdentStartClassIff(n[0]);
      forall i | 1 <= i < |n| {
        DatabaseTailClassIff(n[i]);
      }
    }
  }

  /** MODULE_REGEX accepts exactly the module names, each optionally followed by one newline. */
  lemma ModuleMatchIff(s: string)
    ensures Matches(ModulePattern, s) <==> NameWithOptionalNewline(s, IsModuleName)
  {
    FullMatchShape(ModulePattern, s);
    ModuleConsumesAllIff(s);
    if |s| >= 1 {
      ModuleConsumesAllIff(s[..|s| - 1]);
    }
  }

  /** DATABASE_REGEX accepts exactly the database names, each optionally followed by one newline. */
  lemma DatabaseMatchIff(s: string)
    ensures Matches(DatabasePattern, s) <==> NameWithOptionalNewline(s, IsDatabaseName)
  {
    FullMatchShape(DatabasePattern, s);
    DatabaseConsumesAllIff(s);
    if |s| >= 1 {
      DatabaseConsumesAllIff(s[..|s| - 1]);
    }
  }

  // ---------------------------------------------------------------------
  // Consequences for the names the hook sees.
  // ---------------------------------------------------------------------

  /** Without a newline in it, a name matches MODULE_REGEX exactly when it is a module name. */
  lemma ModuleMatchWithoutNewline(s: string)
    requires '\n' !in s
    ensures Matches(ModulePattern, s) <==> IsModuleName(s)
  {
    ModuleMatchIff(s);
  }

  /** `+` demands at least one tail character: no one-character name matches either pattern. */
  lemma OneCharacterRejected(s: string)
    requires |s| == 1
    ensures !Matches(ModulePattern, s)
    ensures !Matches(DatabasePattern, s)
  {
  }

  /** A module name cannot start with a digit. */
  lemma LeadingDigitRejected(s: string)
    requires |s| >= 1 && IsAsciiDigit(s[0])
    ensures !Matches(ModulePattern, s)
  {
  }

  /** A hyphen anywhere rules out MODULE_REGEX. */
  lemma HyphenRejected(s: string)
    requires '-' in s
    ensures !Matches(ModulePattern, s)
  {
  }

  /** Any character outside ASCII, a non-ASCII letter included, makes the name fail. */
  lemma NonAsciiRejected(s: string, i: nat)
    requires i < |s| && s[i] as int >= 0x80
    ensures !Matches(ModulePattern, s)
    ensures !Matches(DatabasePattern, s)
  {
  }

  /** An otherwise valid module name followed by one newline still matches. */
  lemma TrailingNewlineAccepted(n: string)
    requires IsModuleName(n)
    ensures Matches(ModulePattern, n + "\n")
  {
    var s := n + "\n";
    assert s[..|s| - 1] == n;
    ModuleMatchIff(s);
  }

  /** The tolerance stops at one newline. */
  lemma SecondNewlineRejected(n: string)
    ensures !Matches(ModulePattern, n + "\n\n")
    ensures !Matches(DatabasePattern, n + "\n\n")
  {
    var s := n + "\n\n";
    assert s[|s| - 1] == '\n';
    assert s[..|s| - 1][|s| - 2] == '\n';
    ModuleMatchIff(s);
    DatabaseMatchIff(s);
  }

  /** Every character of class a is in class b. */
  ghost predicate ClassIncluded(a: CharClass, b: CharClass) {
    forall c :: InClass(a, c) ==> InClass(b, c)
  }

  /** Widening both classes of a pattern can only widen the set of matched strings. */
  lemma PatternInclusion(p: Pattern, q: Pattern, s: string)
    requires ClassIncluded(p.head, q.head) && ClassIncluded(p.tail, q.tail)
    ensures FullMatch(p, s) ==> FullMatch(q, s)
  {
  }

  /** Every name MODULE_REGEX accepts is accepted by DATABASE_REGEX. */
  lemma ModuleImpliesDatabase(s: string)
    ensures Matches(ModulePattern, s) ==> Matches(DatabasePattern, s)
  {
    forall c | InClass(IdentClass, c)
      ensures InClass(DatabaseTailClass, c)
    {
      IdentClassIff(c);
      DatabaseTailClassIff(c);
    }
    PatternInclusion(ModulePattern, DatabasePattern, s);
  }

  /** The inclusion is strict: a hyphen after the first character separates the two. */
  lemma DatabaseStrictlyWider()
    ensures Matches(DatabasePattern, "a-b") && !Matches(ModulePattern, "a-b")
  {
    var s := "a-b";
    assert s[1] == '-';
    HyphenRejected(s);
    DatabaseMatchIff(s);
    assert IsDatabaseName(s);
  }
}
