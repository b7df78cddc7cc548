/**
 * The three regular expressions of `Owner`:
 *
 *   first name  ^[\p{L}]+([ '-][\p{L}]+){0,2}$
 *   last name   ^[\p{L}]+([ '-][\p{L}]+){0,2}\.?$
 *   telephone   ^[0-9]*$
 *
 * each used through `Matcher.matches()`, i.e. against the whole string.
 * The language a name pattern denotes is stated declaratively (a string is
 * one to three letter runs joined by single separators), the matcher splits
 * the string at separators, and the two are proved to agree.
 */
module NamePatterns {

  predicate AsciiLetter(c: char)
  {
    'A' <= c <= 'Z' || 'a' <= c <= 'z'
  }

  /** What the model fixes of Unicode general category L: its ASCII part. */
  predicate AgreesWithAscii(isLetter: char -> bool)
  {
    forall c: char :: c < '\U{80}' ==> (isLetter(c) <==> AsciiLetter(c))
  }

  type LetterClass = f: char -> bool | AgreesWithAscii(f) witness AsciiLetter

  /**
   * `\p{L}`. Beyond ASCII the Unicode letter table is not part of this
   * model: `IsLetter` is some classifier that agrees with it on ASCII.
   */
  const IsLetter: LetterClass

  /** `[ '-]`, the separator class of both name patterns. */
  predicate IsSeparator(c: char)
  {
    c == ' ' || c == '\'' || c == '-'
  }

  lemma SeparatorIsNoLetter(c: char)
    requires IsSeparator(c)
    ensures !IsLetter(c)
  {
  }

  /** `[\p{L}]+` */
  predicate LetterRun(w: string)
  {
    |w| > 0 && forall i :: 0 <= i < |w| ==> IsLetter(w[i])
  }

  predicate NoSeparator(w: string)
  {
    forall i :: 0 <= i < |w| ==> !IsSeparator(w[i])
  }

  /** `words[0] seps[0] words[1] seps[1] ... words[n-1]` */
  function Interleave(words: seq<string>, seps: seq<char>): string
    requires |words| >= 1 && |seps| == |words| - 1
    decreases |words|
  {
    if |words| == 1 then words[0]
    else words[0] + [seps[0]] + Interleave(words[1..], seps[1..])
  }

  /** One to three letter runs, each pair joined by one separator. */
  ghost predicate NameParts(words: seq<string>, seps: seq<char>)
  {
    && 1 <= |words| <= 3
    && |seps| == |words| - 1
    && (forall i :: 0 <= i < |words| ==> LetterRun(words[i]))
    && (forall i :: 0 <= i < |seps| ==> IsSeparator(seps[i]))
  }

  /** The language of `^[\p{L}]+([ '-][\p{L}]+){0,2}$`. */
  ghost predicate FirstNameLanguage(s: string)
  {
    exists words, seps :: NameParts(words, seps) && s == Interleave(words, seps)
  }

  /** The language of `^[\p{L}]+([ '-][\p{L}]+){0,2}\.?$`. */
  ghost predicate LastNameLanguage(s: string)
  {
    || FirstNameLanguage(s)
    || (exists words, seps :: NameParts(words, seps) && s == Interleave(words, seps) + ".")
  }

  /** The pieces of `s` between separators (empty pieces included). */
  function Split(s: string): (pieces: seq<string>)
    ensures |pieces| >= 1
  {
    if |s| == 0 then [""]
    else
      var rest := Split(s[1..]);
      if IsSeparator(s[0]) then [""] + rest
      else [[s[0]] + rest[0]] + rest[1..]
  }

  /** The separators of `s`, in order. */
  function Separators(s: string): seq<char>
  {
    if |s| == 0 then []
    else (if IsSeparator(s[0]) then [s[0]] else []) + Separators(s[1..])
  }

  /** `FIRSTNAME_PATTERN.matcher(s).matches()` */
  predicate MatchesFirstName(s: string)
    ensures MatchesFirstName(s) ==> |s| > 0 && |Separators(s)| <= 2
  {
    SplitCount(s);
    assert |s| == 0 ==> Split(s) == [""] && !LetterRun(Split(s)[0]);
    var pieces := Split(s);
    |pieces| <= 3 && forall i :: 0 <= i < |pieces| ==> LetterRun(pieces[i])
  }

  /** `LASTNAME_PATTERN.matcher(s).matches()` */
  predicate MatchesLastName(s: string)
    ensures MatchesLastName(s) ==> |s| > 0 && (s[|s| - 1] == '.' || MatchesFirstName(s))
  {
    || MatchesFirstName(s)
    || (|s| > 0 && s[|s| - 1] == '.' && MatchesFirstName(s[..|s| - 1]))
  }

  /** `TELEPHONE_PATTERN.matcher(s).matches()` */
  predicate AllDigits(s: string)
    ensures AllDigits(s) ==> forall i :: 0 <= i < |s| ==> !IsLetter(s[i]) && !IsSeparator(s[i])
  {
    forall i :: 0 <= i < |s| ==> '0' <= s[i] <= '9'
  }

  lemma {:induction false} SplitCount(s: string)
    ensures |Split(s)| == |Separators(s)| + 1
    ensures forall i :: 0 <= i < |Separators(s)| ==> IsSeparator(Separators(s)[i])
  {
    if |s| > 0 {
      SplitCount(s[1..]);
    }
  }

  /** Splitting loses nothing: joining the pieces back gives `s`. */
  lemma {:induction false} SplitJoin(s: string)
    ensures |Split(s)| == |Separators(s)| + 1
    ensures Interleave(Split(s), Separators(s)) == s
  {
    SplitCount(s);
    if |s| > 0 {
      SplitJoin(s[1..]);
      var rest, seps := Split(s[1..]), Separators(s[1..]);
      if IsSeparator(s[0]) {
        assert Split(s) == [""] + rest;
        assert Separators(s) == [s[0]] + seps;
        assert ([""] + rest)[1..] == rest;
        assert ([s[0]] + seps)[1..] == seps;
      } else {
        assert Split(s) == [[s[0]] + rest[0]] + rest[1..];
        assert Separators(s) == seps;
        if |rest| > 1 {
          calc {
            Interleave(Split(s), seps);
            ([s[0]] + rest[0]) + [seps[0]] + Interleave(rest[1..], seps[1..]);
            [s[0]] + (rest[0] + [seps[0]] + Interleave(rest[1..], seps[1..]));
            [s[0]] + Interleave(rest, seps);
            [s[0]] + s[1..];
          }
        }
      }
    }
  }

  /** A leading piece without separators joins the first piece of the rest. */
  lemma {:induction false} SplitPrefix(w: string, x: string)
    requires NoSeparator(w)
    ensures Split(w + x) == [w + Split(x)[0]] + Split(x)[1..]
  {
    if |w| > 0 {
      SplitPrefix(w[1..], x);
      assert (w + x)[1..] == w[1..] + x;
      assert [w[0]] + (w[1..] + Split(x)[0]) == w + Split(x)[0];
    } else {
      var pieces := Split(x);
      assert w + x == x;
      assert w + pieces[0] == pieces[0];
      assert [pieces[0]] + pieces[1..] == pieces;
    }
  }

  /** Splitting undoes joining, when the words hold no separator. */
  lemma {:induction false} SplitInterleave(words: seq<string>, seps: seq<char>)
    requires |words| >= 1 && |seps| == |words| - 1
    requires forall i :: 0 <= i < |words| ==> NoSeparator(words[i])
    requires forall i :: 0 <= i < |seps| ==> IsSeparator(seps[i])
    ensures Split(Interleave(words, seps)) == words
    ensures Separators(Interleave(words, seps)) == seps
    decreases |words|
  {
    if |words| == 1 {
      SplitPrefix(words[0], "");
      SeparatorsOfWord(words[0], "");
      assert words[0] + "" == words[0];
    } else {
      var tail := Interleave(words[1..], seps[1..]);
      SplitInterleave(words[1..], seps[1..]);
      assert Interleave(words, seps) == words[0] + ([seps[0]] + tail);
      SplitPrefix(words[0], [seps[0]] + tail);
      assert ([seps[0]] + tail)[1..] == tail;
      assert Split([seps[0]] + tail) == [""] + words[1..];
      assert words[0] + "" == words[0];
      SeparatorsOfWord(words[0], [seps[0]] + tail);
      assert Separators([seps[0]] + tail) == [seps[0]] + seps[1..];
    }
  }

  lemma {:induction false} SeparatorsOfWord(w: string, x: string)
    requires NoSeparator(w)
    ensures Separators(w + x) == Separators(x)
  {
    if |w| > 0 {
      assert (w + x)[1..] == w[1..] + x;
      SeparatorsOfWord(w[1..], x);
    } else {
      assert w + x == x;
    }
  }

  lemma LetterRunHasNoSeparator(w: string)
    requires LetterRun(w)
    ensures NoSeparator(w)
  {
    forall i | 0 <= i < |w| ensures !IsSeparator(w[i]) {
      if IsSeparator(w[i]) {
        SeparatorIsNoLetter(w[i]);
      }
    }
  }

  /** The first-name matcher accepts exactly the pattern's language. */
  lemma FirstNamePatternCorrect(s: string)
    ensures MatchesFirstName(s) <==> FirstNameLanguage(s)
  {
    if MatchesFirstName(s) {
      SplitJoin(s);
      SplitCount(s);
      assert NameParts(Split(s), Separators(s));
    }
    if FirstNameLanguage(s) {
      var words, seps :| NameParts(words, seps) && s == Interleave(words, seps);
      forall i | 0 <= i < |words| ensures NoSeparator(words[i]) {
        LetterRunHasNoSeparator(words[i]);
      }
      SplitInterleave(words, seps);
    }
  }

  /** The last-name matcher accepts exactly the pattern's language. */
  lemma LastNamePatternCorrect(s: string)
    ensures MatchesLastName(s) <==> LastNameLanguage(s)
  {
    FirstNamePatternCorrect(s);
    if |s| > 0 && s[|s| - 1] == '.' {
      var p := s[..|s| - 1];
      FirstNamePatternCorrect(p);
      assert s == p + ".";
      if MatchesFirstName(p) {
        var words, seps :| NameParts(words, seps) && p == Interleave(words, seps);
        assert s == Interleave(words, seps) + ".";
      }
    }
    if exists words, seps :: NameParts(words, seps) && s == Interleave(words, seps) + "." {
      var words, seps :| NameParts(words, seps) && s == Interleave(words, seps) + ".";
      var p := Interleave(words, seps);
      assert s[..|s| - 1] == p;
      FirstNamePatternCorrect(p);
    }
  }
}
