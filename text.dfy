/**
 * The string helpers of the bot: random letter tokens (`randStringBytes`),
 * replace-all (`strings.Replace` with n = -1), decimal rendering
 * (`strconv.Itoa`) and the digit-to-homoglyph step of `replaceFormula`.
 */
module Text {

  /** The alphabet tokens are drawn from (main.go `letterBytes`). */
  const LetterBytes: string := "abcdefghijklmnopqrstuvwxyzABCDEFGHIJKLMNOPQRSTUVWXYZ"

  /** The letters that stand in for '0' and for '1' in a rendered formula. */
  const ZeroGlyphs: string := "Oo"
  const OneGlyphs: string := "Il"

  predicate IsDigit(c: char) { '0' <= c <= '9' }

  predicate AllDigits(s: string) { forall i :: 0 <= i < |s| ==> IsDigit(s[i]) }

  /** Indices into LetterBytes, one per character, as `rand.Intn(len(letterBytes))` yields them. */
  predicate LetterDraws(draws: seq<nat>) { forall i :: 0 <= i < |draws| ==> draws[i] < |LetterBytes| }

  // ---------------------------------------------------------------------------
  // randStringBytes

  /** The string `randStringBytes` builds from the given index draws. */
  function RandomLetters(draws: seq<nat>): (r: string)
    requires LetterDraws(draws)
    ensures |r| == |draws|
    ensures forall i :: 0 <= i < |r| ==> r[i] in LetterBytes
  {
    seq(|draws|, i requires 0 <= i < |draws| => LetterBytes[draws[i]])
  }

  /** Fills a buffer of n bytes, position i with the letter chosen by draws[i]. */
  method RandStringBytes(n: nat, draws: seq<nat>) returns (s: string)
    requires |draws| == n && LetterDraws(draws)
    ensures |s| == n
    ensures forall i :: 0 <= i < n ==> s[i] == LetterBytes[draws[i]]
    ensures s == RandomLetters(draws)
  {
    var b := new char[n];
    for i := 0 to n
      invariant forall j :: 0 <= j < i ==> b[j] == LetterBytes[draws[j]]
    {
      b[i] := LetterBytes[draws[i]];
    }
    s := b[..];
  }

  // ---------------------------------------------------------------------------
  // strings.Replace(s, pat, rep, -1)

  /** `pat` occurs in `s` starting at position i. */
  predicate OccursAt(s: string, pat: string, i: nat) {
    i + |pat| <= |s| && s[i..i + |pat|] == pat
  }

  /**
   * Go's replace-all: scan left to right, replace each leftmost
   * non-overlapping occurrence of `pat` by `rep`. An empty `pat` matches
   * before every character and at the end.
   */
  function ReplaceAll(s: string, pat: string, rep: string): string
    decreases |s|
  {
    if pat == [] then
      if s == [] then rep else rep + [s[0]] + ReplaceAll(s[1..], pat, rep)
    else if |s| < |pat| then s
    else if s[..|pat|] == pat then rep + ReplaceAll(s[|pat|..], pat, rep)
    else [s[0]] + ReplaceAll(s[1..], pat, rep)
  }

  /** Where `pat` (non-empty) does not occur, replace-all changes nothing. */
  lemma {:induction false} ReplaceAbsent(s: string, pat: string, rep: string)
    requires pat != []
    requires forall i: nat :: !OccursAt(s, pat, i)
    ensures ReplaceAll(s, pat, rep) == s
  {
    if |s| >= |pat| {
      assert !OccursAt(s, pat, 0);
      assert s[0..|pat|] == s[..|pat|];
      forall i: nat ensures !OccursAt(s[1..], pat, i) {
        assert !OccursAt(s, pat, i + 1);
        if i + |pat| <= |s[1..]| {
          assert s[1..][i..i + |pat|] == s[i + 1..i + 1 + |pat|];
        }
      }
      ReplaceAbsent(s[1..], pat, rep);
    }
  }

  /** A non-empty pattern whose first character never appears in `s` does not occur in it. */
  lemma AbsentFirstChar(s: string, pat: string)
    requires pat != [] && pat[0] !in s
    ensures forall i: nat :: !OccursAt(s, pat, i)
  {
  }

  /** A prefix that cannot start an occurrence of `pat` is copied through unchanged. */
  lemma {:induction false} ReplaceSkipsPrefix(a: string, t: string, pat: string, rep: string)
    requires pat != [] && pat[0] !in a
    ensures ReplaceAll(a + t, pat, rep) == a + ReplaceAll(t, pat, rep)
  {
    if a != [] {
      var s := a + t;
      assert s[0] == a[0];
      assert s[1..] == a[1..] + t;
      if |s| >= |pat| {
        assert s[..|pat|][0] == a[0];
      }
      ReplaceSkipsPrefix(a[1..], t, pat, rep);
      assert a == [a[0]] + a[1..];
    } else {
      assert a + t == t;
    }
  }

  /** An occurrence of `pat` at the front is replaced and scanning resumes after it. */
  lemma ReplaceAtFront(t: string, pat: string, rep: string)
    requires pat != []
    ensures ReplaceAll(pat + t, pat, rep) == rep + ReplaceAll(t, pat, rep)
  {
    var s := pat + t;
    assert s[..|pat|] == pat;
    assert s[|pat|..] == t;
  }

  /** Replacing every occurrence of `c` by d, character by character. */
  function SubstChar(s: string, c: char, d: char): (r: string)
    ensures |r| == |s|
  {
    seq(|s|, i requires 0 <= i < |s| => if s[i] == c then d else s[i])
  }

  /** Replace-all of a one-character pattern by a one-character replacement is a pointwise substitution. */
  lemma {:induction false} ReplaceCharIsSubst(s: string, c: char, d: char)
    ensures ReplaceAll(s, [c], [d]) == SubstChar(s, c, d)
  {
    if s != [] {
      ReplaceCharIsSubst(s[1..], c, d);
      assert s[..1] == [s[0]];
      assert s[1..] == s[|[c]|..];
      assert SubstChar(s, c, d) == [if s[0] == c then d else s[0]] + SubstChar(s[1..], c, d);
    }
  }

  /** The welcome text: every "{user}" replaced by the name, then every "{formula}" by the formula. */
  function FillWelcome(template: string, name: string, formula: string): string {
    ReplaceAll(ReplaceAll(template, "{user}", name), "{formula}", formula)
  }

  /** The "{formula}" placeholder is not touched by the "{user}" pass. */
  lemma UserPassKeepsFormula(post: string, name: string)
    requires '{' !in post
    ensures ReplaceAll("{formula}" + post, "{user}", name) == "{formula}" + post
  {
    var tail := "{formula}" + post;
    assert tail[..6][1] == 'f';
    assert tail[1..] == "formula}" + post;
    AbsentFirstChar("formula}" + post, "{user}");
    ReplaceAbsent("formula}" + post, "{user}", name);
  }

  /** The first occurrence of `pat`, after a prefix that cannot start one, is replaced. */
  lemma ReplaceAround(a: string, b: string, pat: string, rep: string)
    requires pat != [] && pat[0] !in a
    ensures ReplaceAll(a + pat + b, pat, rep) == a + rep + ReplaceAll(b, pat, rep)
  {
    ReplaceAtFront(b, pat, rep);
    ReplaceSkipsPrefix(a, pat + b, pat, rep);
    assert a + pat + b == a + (pat + b);
  }

  /** The "{user}" pass leaves a text without "{user}" (the middle and the formula placeholder) alone. */
  lemma UserPassKeepsRest(mid: string, post: string, name: string)
    requires '{' !in mid && '{' !in post
    ensures ReplaceAll(mid + "{formula}" + post, "{user}", name) == mid + "{formula}" + post
  {
    ReplaceSkipsPrefix(mid, "{formula}" + post, "{user}", name);
    UserPassKeepsFormula(post, name);
    assert mid + "{formula}" + post == mid + ("{formula}" + post);
  }

  /** Filling the first occurrence of a pattern whose remainder is left alone. */
  lemma FillFirst(pre: string, mid: string, q: string, post: string, pat: string, rep: string)
    requires pat != [] && pat[0] !in pre && ReplaceAll(mid + q + post, pat, rep) == mid + q + post
    ensures ReplaceAll(pre + pat + mid + q + post, pat, rep) == pre + rep + mid + q + post
  {
    ReplaceAround(pre, mid + q + post, pat, rep);
    assert pre + pat + mid + q + post == pre + pat + (mid + q + post);
    assert pre + rep + mid + q + post == pre + rep + (mid + q + post);
  }

  /** The "{user}" pass fills the name and leaves the rest. */
  lemma UserPass(pre: string, mid: string, post: string, name: string)
    requires '{' !in pre && '{' !in mid && '{' !in post
    ensures ReplaceAll(pre + "{user}" + mid + "{formula}" + post, "{user}", name)
         == pre + name + mid + "{formula}" + post
  {
    UserPassKeepsRest(mid, post, name);
    FillFirst(pre, mid, "{formula}", post, "{user}", name);
  }

  /** The "{formula}" pass fills the formula. */
  lemma FormulaPass(head: string, post: string, formula: string)
    requires '{' !in head && '{' !in post
    ensures ReplaceAll(head + "{formula}" + post, "{formula}", formula) == head + formula + post
  {
    AbsentFirstChar(post, "{formula}");
    ReplaceAbsent(post, "{formula}", formula);
    ReplaceAround(head, post, "{formula}", formula);
  }

  /**
   * A template with one "{user}" and then one "{formula}", and no other '{',
   * is filled in place, provided the name brings no '{' of its own.
   */
  lemma FillWelcomePlaceholders(pre: string, mid: string, post: string, name: string, formula: string)
    requires '{' !in pre && '{' !in mid && '{' !in post && '{' !in name
    ensures FillWelcome(pre + "{user}" + mid + "{formula}" + post, name, formula)
         == pre + name + mid + formula + post
  {
    UserPass(pre, mid, post, name);
    var head := pre + name + mid;
    assert '{' !in head;
    FormulaPass(head, post, formula);
  }

  /**
   * The second pass also runs over the name the first pass put in: a name
   * that is "{formula}" shows the formula where the name should be.
   */
  lemma FormulaInNameIsFilled(pre: string, post: string, formula: string)
    requires '{' !in pre && '{' !in post
    ensures FillWelcome(pre + "{user}" + post, "{formula}", formula) == pre + formula + post
  {
    AbsentFirstChar(post, "{user}");
    ReplaceAbsent(post, "{user}", "{formula}");
    ReplaceAround(pre, post, "{user}", "{formula}");
    FormulaPass(pre, post, formula);
  }

  // ---------------------------------------------------------------------------
  // strconv.Itoa on the non-negative numbers the bot renders

  function DigitChar(d: nat): (c: char)
    requires d < 10
    ensures IsDigit(c)
  {
    ('0' as int + d) as char
  }

  /** Decimal rendering of n, most significant digit first. */
  function Itoa(n: nat): (r: string)
    ensures |r| >= 1 && AllDigits(r)
    decreases n
  {
    (if n < 10 then "" else Itoa(n / 10)) + [DigitChar(n % 10)]
  }

  /** Only zero is rendered with a leading '0'. */
  lemma {:induction false} ItoaLeadingDigit(n: nat)
    ensures Itoa(n)[0] == '0' <==> n == 0
  {
    if n >= 10 {
      ItoaLeadingDigit(n / 10);
      assert Itoa(n)[0] == Itoa(n / 10)[0];
    }
  }

  /** The value a string of decimal digits denotes. */
  function ParseDecimal(s: string): nat
    requires AllDigits(s)
  {
    if s == [] then 0 else 10 * ParseDecimal(s[..|s| - 1]) + (s[|s| - 1] as int - '0' as int)
  }

  /** Reading back a rendered number yields the number. */
  lemma {:induction false} ParseItoa(n: nat)
    ensures ParseDecimal(Itoa(n)) == n
  {
    var s := Itoa(n);
    if n < 10 {
      assert s == [DigitChar(n)];
      assert s[..0] == "";
    } else {
      ParseItoa(n / 10);
      assert s[..|s| - 1] == Itoa(n / 10);
    }
  }

  // ---------------------------------------------------------------------------
  // replaceFormula: digit substitution (the widening step is a parameter elsewhere)

  /**
   * `replaceFormula` before widening: every '0' becomes the letter of
   * ZeroGlyphs chosen by zeroPick, then every '1' the letter of OneGlyphs
   * chosen by onePick.
   */
  function Homoglyphs(s: string, zeroPick: nat, onePick: nat): string
    requires zeroPick < |ZeroGlyphs| && onePick < |OneGlyphs|
  {
    ReplaceAll(ReplaceAll(s, "0", [ZeroGlyphs[zeroPick]]), "1", [OneGlyphs[onePick]])
  }

  /**
   * The substitution keeps the length, maps each '0' to the one chosen
   * zero glyph and each '1' to the one chosen one glyph, leaves every other
   * character alone, and so leaves no '0' or '1' behind.
   */
  lemma HomoglyphsPointwise(s: string, zeroPick: nat, onePick: nat)
    requires zeroPick < |ZeroGlyphs| && onePick < |OneGlyphs|
    ensures var r := Homoglyphs(s, zeroPick, onePick);
      && |r| == |s|
      && (forall i :: 0 <= i < |s| ==>
            r[i] == (if s[i] == '0' then ZeroGlyphs[zeroPick] else if s[i] == '1' then OneGlyphs[onePick] else s[i]))
      && '0' !in r && '1' !in r
  {
    var zeros := ReplaceAll(s, "0", [ZeroGlyphs[zeroPick]]);
    ReplaceCharIsSubst(s, '0', ZeroGlyphs[zeroPick]);
    ReplaceCharIsSubst(zeros, '1', OneGlyphs[onePick]);
  }

  /** Reads a homoglyph back as the digit it stands for. */
  function Deglyph(s: string): (r: string)
    ensures |r| == |s|
  {
    seq(|s|, i requires 0 <= i < |s| =>
      if s[i] == 'O' || s[i] == 'o' then '0' else if s[i] == 'I' || s[i] == 'l' then '1' else s[i])
  }

  /** On text without the four glyph letters, the substitution is undone by Deglyph. */
  lemma DeglyphHomoglyphs(s: string, zeroPick: nat, onePick: nat)
    requires zeroPick < |ZeroGlyphs| && onePick < |OneGlyphs|
    requires forall i :: 0 <= i < |s| ==> s[i] !in "OoIl"
    ensures Deglyph(Homoglyphs(s, zeroPick, onePick)) == s
  {
    var h := Homoglyphs(s, zeroPick, onePick);
    HomoglyphsPointwise(s, zeroPick, onePick);
    forall i | 0 <= i < |s| ensures Deglyph(h)[i] == s[i] {
      assert s[i] !in "OoIl";
    }
  }

  /** The full `replaceFormula`: substitution, then the widening transform. */
  function RenderFormula(s: string, zeroPick: nat, onePick: nat, widen: string -> string): string
    requires zeroPick < |ZeroGlyphs| && onePick < |OneGlyphs|
  {
    widen(Homoglyphs(s, zeroPick, onePick))
  }
}
