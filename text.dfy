/** The handful of Python `str` operations the bot relies on, written out
    so that their edge cases are explicit: `startswith`, `split` on one
    separator character (with Python's rule that every separator yields
    a new, possibly empty, part), `"x".join`, `replace` of one character,
    and `lower` on ASCII letters. */
module Text {

  /** `s.startswith(p)` */
  predicate StartsWith(s: string, p: string)
  {
    |p| <= |s| && s[..|p|] == p
  }

  lemma PrefixStartsWith(p: string, t: string)
    ensures StartsWith(p + t, p)
  {
    assert (p + t)[..|p|] == p;
  }

  /** `s.split(sep)` for a one-character separator. Python never returns
      an empty list here: `"".split("_") == [""]`, and `"a__b".split("_")
      == ["a", "", "b"]`. */
  function Split(s: string, sep: char): (parts: seq<string>)
    ensures |parts| >= 1
    decreases |s|
  {
    if s == [] then [""]
    else
      var rest := Split(s[1..], sep);
      if s[0] == sep then [""] + rest
      else [[s[0]] + rest[0]] + rest[1..]
  }

  /** No part of a split holds the separator. */
  lemma {:induction false} SplitPartsFree(s: string, sep: char)
    ensures forall i :: 0 <= i < |Split(s, sep)| ==> sep !in Split(s, sep)[i]
    decreases |s|
  {
    if s != [] {
      SplitPartsFree(s[1..], sep);
    }
  }

  /** `sep.join(parts)` */
  function Join(parts: seq<string>, sep: char): string
    decreases |parts|
  {
    if |parts| == 0 then ""
    else if |parts| == 1 then parts[0]
    else parts[0] + [sep] + Join(parts[1..], sep)
  }

  /** Joining the parts of a split with the same separator gives the
      string back: `split` loses nothing. */
  lemma {:induction false} JoinSplit(s: string, sep: char)
    ensures Join(Split(s, sep), sep) == s
    decreases |s|
  {
    if s != [] {
      var rest := Split(s[1..], sep);
      JoinSplit(s[1..], sep);
      if s[0] == sep {
        assert Split(s, sep) == [""] + rest;
        assert ([""] + rest)[1..] == rest;
      } else if |rest| == 1 {
        assert Split(s, sep) == [[s[0]] + rest[0]];
      } else {
        var parts := Split(s, sep);
        assert parts == [[s[0]] + rest[0]] + rest[1..];
        assert parts[1..] == rest[1..];
        assert Join(rest, sep) == rest[0] + [sep] + Join(rest[1..], sep);
        assert s == [s[0]] + s[1..];
      }
    }
  }

  /** A string without the separator splits into exactly itself. */
  lemma {:induction false} SplitWithoutSep(s: string, sep: char)
    requires sep !in s
    ensures Split(s, sep) == [s]
    decreases |s|
  {
    if s != [] {
      SplitWithoutSep(s[1..], sep);
      assert s == [s[0]] + s[1..];
    }
  }

  /** A string splits into a single part exactly when it does not hold
      the separator. */
  lemma {:induction false} SplitSingleIff(s: string, sep: char)
    ensures |Split(s, sep)| == 1 <==> sep !in s
    decreases |s|
  {
    if s != [] {
      SplitSingleIff(s[1..], sep);
      assert sep in s <==> s[0] == sep || sep in s[1..];
    }
  }

  /** One step of `Split`: a separator in front starts an empty part. */
  lemma SplitConsSep(t: string, sep: char)
    ensures Split([sep] + t, sep) == [""] + Split(t, sep)
  {
    assert ([sep] + t)[1..] == t;
  }

  /** One step of `Split`: any other character joins the first part. */
  lemma SplitConsOther(x: char, t: string, sep: char)
    requires x != sep
    ensures Split([x] + t, sep) == [[x] + Split(t, sep)[0]] + Split(t, sep)[1..]
  {
    assert ([x] + t)[1..] == t;
  }

  /** Splitting distributes over a separator placed between two strings. */
  lemma {:induction false} SplitAround(a: string, b: string, sep: char)
    ensures Split(a + [sep] + b, sep) == Split(a, sep) + Split(b, sep)
    decreases |a|
  {
    if a == [] {
      SplitConsSep(b, sep);
      assert a + [sep] + b == [sep] + b;
    } else {
      var t := a[1..] + [sep] + b;
      var ra, rb := Split(a[1..], sep), Split(b, sep);
      SplitAround(a[1..], b, sep);
      assert a + [sep] + b == [a[0]] + t;
      assert a == [a[0]] + a[1..];
      if a[0] == sep {
        SplitAroundSepStep(t, ra, rb, sep);
        SplitConsSep(a[1..], sep);
      } else {
        SplitAroundOtherStep(a[0], t, ra, rb, sep);
        SplitConsOther(a[0], a[1..], sep);
      }
    }
  }

  lemma SplitAroundSepStep(t: string, ra: seq<string>, rb: seq<string>, sep: char)
    requires Split(t, sep) == ra + rb
    ensures Split([sep] + t, sep) == ([""] + ra) + rb
  {
    SplitConsSep(t, sep);
  }

  lemma SplitAroundOtherStep(x: char, t: string, ra: seq<string>, rb: seq<string>, sep: char)
    requires x != sep && |ra| >= 1
    requires Split(t, sep) == ra + rb
    ensures Split([x] + t, sep) == ([[x] + ra[0]] + ra[1..]) + rb
  {
    SplitConsOther(x, t, sep);
    GrowFirstPart(x, ra, rb);
  }

  /** Prefixing a character to the first of several parts commutes with
      appending further parts. */
  lemma GrowFirstPart(x: char, ra: seq<string>, rb: seq<string>)
    requires |ra| >= 1
    ensures [[x] + (ra + rb)[0]] + (ra + rb)[1..] == ([[x] + ra[0]] + ra[1..]) + rb
  {
    assert (ra + rb)[1..] == ra[1..] + rb;
  }

  /** A leading part free of the separator splits off as the first part. */
  lemma SplitLeading(head: string, rest: string, sep: char)
    requires sep !in head
    ensures Split(head + [sep] + rest, sep) == [head] + Split(rest, sep)
  {
    SplitAround(head, rest, sep);
    SplitWithoutSep(head, sep);
  }

  /** The first part of a split is the longest prefix free of the
      separator: either the whole string, or the text up to the first
      separator. This is what `split(sep)[1]` keeps of a field that itself
      holds the separator. */
  lemma {:induction false} FirstPart(s: string, sep: char)
    ensures |Split(s, sep)[0]| <= |s|
    ensures s[..|Split(s, sep)[0]|] == Split(s, sep)[0]
    ensures |Split(s, sep)[0]| == |s| || s[|Split(s, sep)[0]|] == sep
    ensures sep !in Split(s, sep)[0]
    decreases |s|
  {
    SplitPartsFree(s, sep);
    if s != [] {
      var t := s[1..];
      assert s == [s[0]] + t;
      if s[0] != sep {
        SplitConsOther(s[0], t, sep);
        FirstPart(t, sep);
        var p := Split(t, sep)[0];
        assert Split(s, sep)[0] == [s[0]] + p;
        assert s[..|p| + 1] == [s[0]] + t[..|p|];
      }
    }
  }

  /** `s.replace(c, rep)` for a one-character pattern. */
  function ReplaceChar(s: string, c: char, rep: string): string
    decreases |s|
  {
    if s == [] then []
    else (if s[0] == c then rep else [s[0]]) + ReplaceChar(s[1..], c, rep)
  }

  /** Replacing `c` by text without `c` removes every `c`. */
  lemma {:induction false} ReplaceRemoves(s: string, c: char, rep: string)
    requires c !in rep
    ensures c !in ReplaceChar(s, c, rep)
    decreases |s|
  {
    if s != [] {
      ReplaceRemoves(s[1..], c, rep);
    }
  }

  /** Replacing by a single character keeps the length and acts
      position by position. */
  lemma {:induction false} ReplaceByChar(s: string, c: char, d: char)
    ensures |ReplaceChar(s, c, [d])| == |s|
    ensures forall i :: 0 <= i < |s| ==>
      ReplaceChar(s, c, [d])[i] == (if s[i] == c then d else s[i])
    decreases |s|
  {
    if s != [] {
      ReplaceByChar(s[1..], c, d);
    }
  }

  /** Replacing `c` by `d` is undone by replacing `d` by `c`, provided the
      input held no `d` to begin with. */
  lemma {:induction false} ReplaceCharRoundTrip(s: string, c: char, d: char)
    requires d !in s
    ensures ReplaceChar(ReplaceChar(s, c, [d]), d, [c]) == s
    decreases |s|
  {
    if s != [] {
      ReplaceCharRoundTrip(s[1..], c, d);
      var head := if s[0] == c then [d] else [s[0]];
      assert ReplaceChar(s, c, [d]) == head + ReplaceChar(s[1..], c, [d]);
      assert (head + ReplaceChar(s[1..], c, [d]))[1..] == ReplaceChar(s[1..], c, [d]);
      assert s == [s[0]] + s[1..];
    }
  }

  /** Undoes the `%20` escaping of spaces in a URL path. */
  function UnescapeSpaces(s: string): string
    decreases |s|
  {
    if s == [] then []
    else if |s| >= 3 && s[..3] == "%20" then " " + UnescapeSpaces(s[3..])
    else [s[0]] + UnescapeSpaces(s[1..])
  }

  /** `replace(' ', '%20')` is undone by `UnescapeSpaces` whenever the text
      held no `%` of its own. */
  lemma {:induction false} EscapeSpacesRoundTrip(s: string)
    requires '%' !in s
    ensures UnescapeSpaces(ReplaceChar(s, ' ', "%20")) == s
    decreases |s|
  {
    if s != [] {
      var tail := ReplaceChar(s[1..], ' ', "%20");
      EscapeSpacesRoundTrip(s[1..]);
      if s[0] == ' ' {
        var e := "%20" + tail;
        assert ReplaceChar(s, ' ', "%20") == e;
        assert e[..3] == "%20" && e[3..] == tail;
      } else {
        var e := [s[0]] + tail;
        assert ReplaceChar(s, ' ', "%20") == e;
        assert e[0] != '%';
        assert e[1..] == tail;
      }
      assert s == [s[0]] + s[1..];
    }
  }

  /** The ASCII small letters in alphabetical order. */
  const SmallLetters := "abcdefghijklmnopqrstuvwxyz"

  /** Lowers one ASCII letter, as Python's `str.lower` does for ASCII. */
  function LowerChar(ch: char): (r: char)
    ensures !('A' <= r <= 'Z')
    ensures !('A' <= ch <= 'Z') ==> r == ch
    ensures 'A' <= ch <= 'Z' ==> 'a' <= r <= 'z'
    ensures 'A' <= ch <= 'Z' ==> r == SmallLetters[ch as int - 'A' as int]
  {
    if 'A' <= ch <= 'Z' then (ch as int + 32) as char else ch
  }

  /** `s.lower()` on ASCII text. */
  function Lower(s: string): string
  {
    seq(|s|, i requires 0 <= i < |s| => LowerChar(s[i]))
  }

  /** Lowering neither introduces a separator nor removes one. */
  lemma LowerKeepsNonLetter(s: string, x: char)
    requires !('A' <= x <= 'Z') && !('a' <= x <= 'z')
    ensures x in Lower(s) <==> x in s
  {
    if x in s {
      var i :| 0 <= i < |s| && s[i] == x;
      assert Lower(s)[i] == x;
    }
  }
}
