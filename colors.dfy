/** Colour tagging of console output: the level tag `[LEVEL]` of a rendered
    line is wrapped in an ANSI colour code and the reset code. */
module Colors {
  import opened Common

  const Esc: char := '\U{1B}'

  /** The colour table, keyed by level name. It also holds the reset code
      under the key "RESET", so a level of that name counts as known. */
  function ColorCode(levelname: string): (code: Option<string>)
    ensures code.Some? ==> |code.value| > 1 && code.value[0] == Esc && Esc !in code.value[1..]
  {
    if levelname == "DEBUG" then Some([Esc] + "[0;36m")
    else if levelname == "INFO" then Some([Esc] + "[0;32m")
    else if levelname == "WARNING" then Some([Esc] + "[0;33m")
    else if levelname == "ERROR" then Some([Esc] + "[0;31m")
    else if levelname == "CRITICAL" then Some([Esc] + "[1;31m")
    else if levelname == "RESET" then Some(Reset)
    else None
  }

  const Reset: string := [Esc] + "[0m"

  /** True when `pat` occurs in `s` starting at index `i`. */
  predicate MatchAt(s: string, pat: string, i: nat)
  {
    i + |pat| <= |s| && s[i..i + |pat|] == pat
  }

  /** True when `pat` occurs anywhere in `s`. */
  predicate Occurs(s: string, pat: string)
  {
    exists i: nat | i <= |s| :: MatchAt(s, pat, i)
  }

  /** Replacement of every non-overlapping occurrence of `pat`, scanning from
      the left, as string replacement does. */
  function ReplaceAll(s: string, pat: string, rep: string): (r: string)
    requires pat != []
    decreases |s|
  {
    if |s| < |pat| then s
    else if s[..|pat|] == pat then rep + ReplaceAll(s[|pat|..], pat, rep)
    else [s[0]] + ReplaceAll(s[1..], pat, rep)
  }

  /** The level tag as it appears in a rendered line. */
  function Tag(levelname: string): (t: string)
    ensures t != [] && t[0] == '['
  {
    "[" + levelname + "]"
  }

  /** The tag wrapped in its colour code and the reset code. */
  function ColoredTag(levelname: string): (t: string)
    requires ColorCode(levelname).Some?
    ensures |t| > 0 && t[0] == Esc
  {
    ColorCode(levelname).value + Tag(levelname) + Reset
  }

  /** `ColoredFormatter.format` after the base rendering: a known level gets
      its tags coloured, any other level name leaves the line as it is. */
  function Colorize(levelname: string, line: string): (r: string)
    ensures ColorCode(levelname).None? ==> r == line
  {
    if ColorCode(levelname).Some? then
      ReplaceAll(line, Tag(levelname), ColoredTag(levelname))
    else line
  }

  /** Removing the colour again: every coloured tag back to the plain tag. */
  function Uncolor(levelname: string, line: string): string
    requires ColorCode(levelname).Some?
  {
    ReplaceAll(line, ColoredTag(levelname), Tag(levelname))
  }

  /** A line in which the pattern does not occur is left unchanged. */
  lemma {:induction false} AbsentUnchanged(s: string, pat: string, rep: string)
    requires pat != []
    requires !Occurs(s, pat)
    ensures ReplaceAll(s, pat, rep) == s
    decreases |s|
  {
    if |s| >= |pat| {
      assert s[..|pat|] != pat by { assert !MatchAt(s, pat, 0); }
      assert !Occurs(s[1..], pat) by {
        forall i: nat | MatchAt(s[1..], pat, i) ensures false {
          assert s[1..][i..i + |pat|] == s[i + 1..i + 1 + |pat|];
          assert MatchAt(s, pat, i + 1);
        }
      }
      AbsentUnchanged(s[1..], pat, rep);
    }
  }

  /** A string in which the first character of `pat` never appears is left
      unchanged by replacing `pat`. */
  lemma {:induction false} NoLeadCharUnchanged(s: string, pat: string, rep: string)
    requires pat != []
    requires pat[0] !in s
    ensures ReplaceAll(s, pat, rep) == s
    decreases |s|
  {
    if |s| >= |pat| {
      assert s[..|pat|][0] == s[0];
      NoLeadCharUnchanged(s[1..], pat, rep);
    }
  }

  /** Prepending a character that cannot start the pattern commutes with the
      replacement. */
  lemma ConsNoLead(c: char, x: string, pat: string, rep: string)
    requires pat != [] && c != pat[0]
    ensures ReplaceAll([c] + x, pat, rep) == [c] + ReplaceAll(x, pat, rep)
  {
    var s := [c] + x;
    assert s[1..] == x;
    if |s| >= |pat| {
      assert s[..|pat|][0] == c;
    } else {
      assert |x| < |pat|;
    }
  }

  /** Undoing a replacement: when the replacement text starts with a
      character absent from `s`, replacing it back restores `s`. */
  lemma {:induction false} ReplaceBack(s: string, pat: string, rep: string)
    requires pat != [] && rep != []
    requires rep[0] !in s
    ensures ReplaceAll(ReplaceAll(s, pat, rep), rep, pat) == s
    decreases |s|
  {
    if |s| < |pat| {
      NoLeadCharUnchanged(s, rep, pat);
    } else if s[..|pat|] == pat {
      var rest := s[|pat|..];
      assert rep[0] !in rest by {
        forall k | 0 <= k < |rest| ensures rest[k] != rep[0] { assert rest[k] == s[k + |pat|]; }
      }
      ReplaceBack(rest, pat, rep);
      ReplaceFront(rep, ReplaceAll(rest, pat, rep), pat);
      assert s == pat + rest;
    } else {
      ReplaceBack(s[1..], pat, rep);
      ConsNoLead(s[0], ReplaceAll(s[1..], pat, rep), rep, pat);
      assert s == [s[0]] + s[1..];
    }
  }

  /** Replacing in a string that starts with the pattern. */
  lemma ReplaceFront(pat: string, tail: string, rep: string)
    requires pat != []
    ensures ReplaceAll(pat + tail, pat, rep) == rep + ReplaceAll(tail, pat, rep)
  {
    var t := pat + tail;
    assert t[..|pat|] == pat;
    assert t[|pat|..] == tail;
  }

  /** The pattern occurs first at `|a|`: replacement copies `a`, replaces
      that occurrence and carries on after it. With `AbsentUnchanged` this
      determines the result of every replacement. */
  lemma {:induction false} ReplaceFirst(a: string, pat: string, b: string, rep: string)
    requires pat != []
    requires !Occurs(a + pat[..|pat| - 1], pat)
    ensures ReplaceAll(a + pat + b, pat, rep) == a + rep + ReplaceAll(b, pat, rep)
    decreases |a|
  {
    if a == [] {
      ReplaceFront(pat, b, rep);
      assert a + pat + b == pat + b;
    } else {
      NoMatchAtStart(a, pat, b);
      OccursShift(a, pat[..|pat| - 1], pat);
      ReplaceFirst(a[1..], pat, b, rep);
      SkipHead(a, pat, b, rep);
      Recons(a, rep, ReplaceAll(b, pat, rep));
    }
  }

  /** Replacement steps over a first character that does not start a match. */
  lemma SkipHead(a: string, pat: string, b: string, rep: string)
    requires pat != [] && a != []
    requires (a + pat + b)[..|pat|] != pat
    ensures ReplaceAll(a + pat + b, pat, rep) == [a[0]] + ReplaceAll(a[1..] + pat + b, pat, rep)
  {
    var s := a + pat + b;
    assert s[1..] == a[1..] + pat + b;
  }

  lemma Recons<T>(a: seq<T>, r: seq<T>, x: seq<T>)
    requires a != []
    ensures [a[0]] + (a[1..] + r + x) == a + r + x
  {
    assert a == [a[0]] + a[1..];
  }

  /** The pattern does not start a line that starts with a non-empty `a`
      in which it does not occur before its own last character. */
  lemma NoMatchAtStart(a: string, pat: string, b: string)
    requires pat != [] && a != []
    requires !Occurs(a + pat[..|pat| - 1], pat)
    ensures (a + pat + b)[..|pat|] != pat
  {
    var q := pat[..|pat| - 1];
    assert (a + pat + b)[..|pat|] == (a + q)[..|pat|];
    assert !MatchAt(a + q, pat, 0);
  }

  /** Dropping the first character keeps the pattern absent. */
  lemma OccursShift(a: string, q: string, pat: string)
    requires a != [] && !Occurs(a + q, pat)
    ensures !Occurs(a[1..] + q, pat)
  {
    forall i: nat | MatchAt(a[1..] + q, pat, i) ensures false {
      assert (a[1..] + q)[i..i + |pat|] == (a + q)[i + 1..i + 1 + |pat|];
      assert MatchAt(a + q, pat, i + 1);
    }
  }

  /** For a known level, the first `[LEVEL]` tag of a line becomes the
      coloured tag; the text before it is kept and the rest is coloured in
      turn. */
  lemma ColorizeFirstTag(levelname: string, a: string, b: string)
    requires ColorCode(levelname).Some?
    requires !Occurs(a + Tag(levelname)[..|Tag(levelname)| - 1], Tag(levelname))
    ensures Colorize(levelname, a + Tag(levelname) + b) == a + ColoredTag(levelname) + Colorize(levelname, b)
  {
    ReplaceFirst(a, Tag(levelname), b, ColoredTag(levelname));
  }

  /** For a known level, a line without the tag is unchanged. */
  lemma ColorizeNoTag(levelname: string, line: string)
    requires !Occurs(line, Tag(levelname))
    ensures Colorize(levelname, line) == line
  {
    if ColorCode(levelname).Some? {
      AbsentUnchanged(line, Tag(levelname), ColoredTag(levelname));
    }
  }

  /** Colouring adds nothing but the colour codes: for a line without escape
      characters, removing them gives back the uncoloured line. */
  lemma ColorizeRoundTrip(levelname: string, line: string)
    requires ColorCode(levelname).Some?
    requires Esc !in line
    ensures Uncolor(levelname, Colorize(levelname, line)) == line
  {
    ReplaceBack(line, Tag(levelname), ColoredTag(levelname));
  }

  /** Concrete instance: an INFO line gets its tag coloured green and the
      rest of the line is kept. */
  lemma ColorizeInfoExample()
    ensures Colorize("INFO", "[INFO] hi") == [Esc] + "[0;32m[INFO]" + [Esc] + "[0m hi"
  {
    var line := "[INFO] hi";
    assert line[..6] == Tag("INFO");
    assert line[6..] == " hi";
  }
}
