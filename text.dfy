/**
  The handful of Python string operations the connection relies on:
  `startswith`, `in`, `split`, `join`, `replace` (and `re.sub` with a literal
  pattern, which behaves like `replace`), and `lower` on ASCII text.
 */
module Text {

  predicate StartsWith(s: string, prefix: string)
  {
    |prefix| <= |s| && s[..|prefix|] == prefix
  }

  /** Python `sub in s` for a non-empty `sub`. */
  predicate Contains(s: string, sub: string)
    requires sub != ""
    decreases |s|
  {
    StartsWith(s, sub) || (s != "" && Contains(s[1..], sub))
  }

  /** Python `s.split(sep)`: the pieces between the leftmost non-overlapping occurrences. */
  function Split(s: string, sep: string): (parts: seq<string>)
    requires sep != ""
    ensures |parts| >= 1
    decreases |s|
  {
    if s == "" then [""]
    else if StartsWith(s, sep) then [""] + Split(s[|sep|..], sep)
    else
      var rest := Split(s[1..], sep);
      [[s[0]] + rest[0]] + rest[1..]
  }

  /** Python `sep.join(parts)`. */
  function Join(parts: seq<string>, sep: string): string
    requires |parts| >= 1
    decreases |parts|
  {
    if |parts| == 1 then parts[0] else parts[0] + sep + Join(parts[1..], sep)
  }

  /** Python `s.replace(pat, rep)`, scanning left to right. */
  function Replace(s: string, pat: string, rep: string): string
    requires pat != ""
    decreases |s|
  {
    if s == "" then ""
    else if StartsWith(s, pat) then rep + Replace(s[|pat|..], pat, rep)
    else [s[0]] + Replace(s[1..], pat, rep)
  }

  function LowerChar(c: char): char
  {
    if 'A' <= c <= 'Z' then (c - 'A' + 'a') as char else c
  }

  /** Python `s.lower()` restricted to ASCII letters. */
  function Lower(s: string): (r: string)
    ensures |r| == |s|
    ensures forall i :: 0 <= i < |s| ==> r[i] == LowerChar(s[i])
  {
    seq(|s|, i requires 0 <= i < |s| => LowerChar(s[i]))
  }

  lemma LowerIdempotent(s: string)
    ensures Lower(Lower(s)) == Lower(s)
  {
  }

  lemma JoinUnfold(parts: seq<string>, sep: string)
    requires |parts| >= 2
    ensures Join(parts, sep) == parts[0] + sep + Join(parts[1..], sep)
  {
  }

  /** Joining a list whose head was extended by one character. */
  lemma {:induction false} JoinConsHead(c: char, parts: seq<string>, sep: string)
    requires |parts| >= 1
    ensures Join([[c] + parts[0]] + parts[1..], sep) == [c] + Join(parts, sep)
  {
    var q := [[c] + parts[0]] + parts[1..];
    if |parts| > 1 {
      assert q[1..] == parts[1..];
    }
  }

  /** `replace` is `split` followed by `join` with the new text, as Python documents it. */
  lemma {:induction false} ReplaceIsSplitJoin(s: string, pat: string, rep: string)
    requires pat != ""
    ensures Replace(s, pat, rep) == Join(Split(s, pat), rep)
    decreases |s|
  {
    if s == "" {
    } else if StartsWith(s, pat) {
      var tail := s[|pat|..];
      ReplaceIsSplitJoin(tail, pat, rep);
      var parts := [""] + Split(tail, pat);
      assert parts[1..] == Split(tail, pat);
      JoinUnfold(parts, rep);
      assert Replace(s, pat, rep) == rep + Replace(tail, pat, rep);
    } else {
      var rest := Split(s[1..], pat);
      ReplaceIsSplitJoin(s[1..], pat, rep);
      JoinConsHead(s[0], rest, rep);
      assert Split(s, pat) == [[s[0]] + rest[0]] + rest[1..];
      assert Replace(s, pat, rep) == [s[0]] + Replace(s[1..], pat, rep);
    }
  }

  /** Joining the pieces of a split with the separator gives the text back. */
  lemma {:induction false} SplitJoinRoundTrip(s: string, sep: string)
    requires sep != ""
    ensures Join(Split(s, sep), sep) == s
    decreases |s|
  {
    if s == "" {
    } else if StartsWith(s, sep) {
      var tail := s[|sep|..];
      SplitJoinRoundTrip(tail, sep);
      var parts := [""] + Split(tail, sep);
      assert parts[1..] == Split(tail, sep);
      JoinUnfold(parts, sep);
      assert s == sep + tail;
    } else {
      var rest := Split(s[1..], sep);
      SplitJoinRoundTrip(s[1..], sep);
      JoinConsHead(s[0], rest, sep);
      assert Split(s, sep) == [[s[0]] + rest[0]] + rest[1..];
      assert s == [s[0]] + s[1..];
    }
  }

  /** Text without the pattern is left alone by `replace`. */
  lemma {:induction false} ReplaceAbsent(s: string, pat: string, rep: string)
    requires pat != "" && !Contains(s, pat)
    ensures Replace(s, pat, rep) == s
    decreases |s|
  {
    if s != "" {
      ReplaceAbsent(s[1..], pat, rep);
      assert s == [s[0]] + s[1..];
    }
  }

  /** A text starting with `p + rest` still starts with `p` once `rest` is dropped. */
  lemma StartsWithPrefix(s: string, p: string, q: string)
    requires StartsWith(q, p) && StartsWith(s, q)
    ensures StartsWith(s, p)
  {
    assert s[..|p|] == s[..|q|][..|p|];
  }

  /** The first piece of a split is a prefix of the text free of the separator,
      and it is followed by the separator unless it is the whole text. */
  lemma SplitFirstPiece(s: string, sep: string)
    requires sep != ""
    ensures var head := Split(s, sep)[0];
      && StartsWith(s, head)
      && !Contains(head, sep)
      && (head == s || StartsWith(s, head + sep))
      && (head == s <==> !Contains(s, sep))
  {
    SplitHeadPrefix(s, sep);
    SplitHeadFree(s, sep);
  }

  lemma SplitHeadPrefix(s: string, sep: string)
    requires sep != ""
    ensures var head := Split(s, sep)[0];
      StartsWith(s, head) && (head == s || StartsWith(s, head + sep))
  {
    SplitHeadStarts(s, sep);
    SplitHeadThenSep(s, sep);
  }

  /** The first piece is a prefix of the text. */
  lemma {:induction false} SplitHeadStarts(s: string, sep: string)
    requires sep != ""
    ensures StartsWith(s, Split(s, sep)[0])
    decreases |s|
  {
    if s != "" && !StartsWith(s, sep) {
      var t := s[1..];
      var h1 := Split(t, sep)[0];
      SplitHeadStarts(t, sep);
      assert Split(s, sep)[0] == [s[0]] + h1 by { assert Split(s, sep) == [[s[0]] + h1] + Split(t, sep)[1..]; }
      assert s == [s[0]] + t;
      PrefixCons(s[0], t, h1);
    }
  }

  /** Unless the first piece is the whole text, the separator follows it. */
  lemma {:induction false} SplitHeadThenSep(s: string, sep: string)
    requires sep != ""
    ensures var head := Split(s, sep)[0]; head == s || StartsWith(s, head + sep)
    decreases |s|
  {
    if s != "" && !StartsWith(s, sep) {
      var t := s[1..];
      SplitHeadThenSep(t, sep);
      SplitHeadCons(s, sep);
      assert s == [s[0]] + t;
      ConsKeepsThenSep(s[0], t, Split(t, sep)[0], sep);
    } else if s != "" {
      assert Split(s, sep)[0] + sep == sep;
    }
  }

  /** Away from a separator, the first piece starts with the text's first character. */
  lemma SplitHeadCons(s: string, sep: string)
    requires sep != "" && s != "" && !StartsWith(s, sep)
    ensures Split(s, sep)[0] == [s[0]] + Split(s[1..], sep)[0]
  {
  }

  /** A character put in front of both a text and its first piece keeps the
      separator right after the piece. */
  lemma ConsKeepsThenSep(c: char, t: string, h: string, sep: string)
    requires h == t || StartsWith(t, h + sep)
    ensures [c] + h == [c] + t || StartsWith([c] + t, [c] + h + sep)
  {
    if h != t {
      PrefixCons(c, t, h + sep);
      assert [c] + h + sep == [c] + (h + sep);
    }
  }

  /** A common first character keeps a prefix a prefix. */
  lemma PrefixCons(c: char, s: string, p: string)
    requires StartsWith(s, p)
    ensures StartsWith([c] + s, [c] + p)
  {
    assert ([c] + s)[..|[c] + p|] == [c] + s[..|p|];
  }

  /** Splitting `prefix + sep + suffix` where `prefix` has no separator and the
      separator's first character does not occur again in it (as for `$vin`). */
  lemma {:induction false} SplitPrefix(prefix: string, suffix: string, sep: string)
    requires sep != "" && !Contains(prefix, sep)
    requires forall i :: 0 < i < |sep| ==> sep[i] != sep[0]
    ensures Split(prefix + sep + suffix, sep) == [prefix] + Split(suffix, sep)
    decreases |prefix|
  {
    var s := prefix + sep + suffix;
    if prefix == "" {
      assert s == sep + suffix;
      assert s[|sep|..] == suffix;
    } else {
      assert !StartsWith(s, sep) by {
        assert !StartsWith(prefix, sep);
        if |sep| <= |prefix| {
          assert s[..|sep|] == prefix[..|sep|];
        } else {
          assert s[|prefix|] == sep[0] != sep[|prefix|];
        }
      }
      assert s[1..] == prefix[1..] + sep + suffix;
      var rest := Split(s[1..], sep);
      assert rest == [prefix[1..]] + Split(suffix, sep) by {
        SplitPrefix(prefix[1..], suffix, sep);
      }
      assert Split(s, sep) == [[s[0]] + rest[0]] + rest[1..];
      assert [s[0]] + rest[0] == prefix;
      assert rest[1..] == Split(suffix, sep);
    }
  }

  /** A text with one more character in front contains a word exactly when the
      longer text begins with it or the shorter one contains it. */
  lemma ContainsCons(c: char, x: string, sub: string)
    requires sub != ""
    ensures Contains([c] + x, sub) <==> StartsWith([c] + x, sub) || Contains(x, sub)
  {
    assert ([c] + x)[1..] == x;
  }

  /** A character in front: a text begins with a word exactly when the character
      is the word's first and the rest begins with the rest of the word. */
  lemma StartsWithCons(c: char, x: string, w: string)
    requires w != ""
    ensures StartsWith([c] + x, w) <==> c == w[0] && StartsWith(x, w[1..])
  {
    if |w| <= |x| + 1 {
      assert ([c] + x)[..|w|] == [c] + x[..|w| - 1];
    }
  }

  lemma {:induction false} SplitHeadFree(s: string, sep: string)
    requires sep != ""
    ensures var head := Split(s, sep)[0];
      !Contains(head, sep) && (head == s <==> !Contains(s, sep))
    decreases |s|
  {
    if s != "" && !StartsWith(s, sep) {
      SplitHeadFree(s[1..], sep);
      var h1 := Split(s[1..], sep)[0];
      var head := Split(s, sep)[0];
      assert head == [s[0]] + h1;
      assert head[1..] == h1;
      assert !StartsWith(head, sep) by {
        SplitHeadPrefix(s, sep);
        if StartsWith(head, sep) {
          StartsWithPrefix(s, sep, head);
        }
      }
      assert s == [s[0]] + s[1..];
    }
  }

  /** A text without the separator splits into itself alone. */
  lemma {:induction false} SplitAbsent(s: string, sep: string)
    requires sep != "" && !Contains(s, sep)
    ensures Split(s, sep) == [s]
    decreases |s|
  {
    if s != "" {
      SplitAbsent(s[1..], sep);
      assert s == [s[0]] + s[1..];
    }
  }
}
