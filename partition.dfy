/** Where a columnar handler writes: one file per base path, project,
    environment and calendar day,
    `<expanded base>/<project>/<env>/<YYYY-MM-DD>/log.parquet`. */
module Partition {
  import opened Common

  datatype Date = Date(year: nat, month: nat, day: nat)

  predicate ValidDate(d: Date)
  {
    1 <= d.year <= 9999 && 1 <= d.month <= 12 && 1 <= d.day <= 31
  }

  function Pow10(w: nat): (p: nat)
    ensures p >= 1
  {
    if w == 0 then 1 else 10 * Pow10(w - 1)
  }

  predicate IsDigit(c: char)
  {
    '0' <= c <= '9'
  }

  predicate AllDigits(s: string)
  {
    forall i :: 0 <= i < |s| ==> IsDigit(s[i])
  }

  /** `n` in decimal, zero-padded to `w` digits. */
  function Pad(n: nat, w: nat): string
    requires n < Pow10(w)
  {
    if w == 0 then "" else Pad(n / 10, w - 1) + [('0' as int + n % 10) as char]
  }

  /** The value of a string of decimal digits. */
  function DigitsValue(s: string): nat
    requires AllDigits(s)
  {
    if s == [] then 0 else DigitsValue(s[..|s| - 1]) * 10 + (s[|s| - 1] as int - '0' as int)
  }

  /** `strftime('%Y-%m-%d')`. */
  function DateStamp(d: Date): (s: string)
    requires ValidDate(d)
    ensures |s| == 10 && s[4] == '-' && s[7] == '-'
  {
    PadDigits(d.year, 4);
    PadDigits(d.month, 2);
    PadDigits(d.day, 2);
    Pad(d.year, 4) + "-" + Pad(d.month, 2) + "-" + Pad(d.day, 2)
  }

  /** Reading a date stamp back; the partner of `DateStamp`. */
  function ParseStamp(s: string): Option<Date>
  {
    if |s| == 10 && s[4] == '-' && s[7] == '-'
       && AllDigits(s[..4]) && AllDigits(s[5..7]) && AllDigits(s[8..])
    then Some(Date(DigitsValue(s[..4]), DigitsValue(s[5..7]), DigitsValue(s[8..])))
    else None
  }

  lemma {:induction false} PadDigits(n: nat, w: nat)
    requires n < Pow10(w)
    ensures |Pad(n, w)| == w && AllDigits(Pad(n, w)) && DigitsValue(Pad(n, w)) == n
  {
    if w > 0 {
      PadDigits(n / 10, w - 1);
      var s := Pad(n, w);
      assert s[..|s| - 1] == Pad(n / 10, w - 1);
    }
  }

  /** The stamp is ten characters, digits with dashes at 4 and 7, and reads
      back as the date it was made from. */
  lemma StampRoundTrip(d: Date)
    requires ValidDate(d)
    ensures |DateStamp(d)| == 10 && '/' !in DateStamp(d)
    ensures ParseStamp(DateStamp(d)) == Some(d)
  {
    StampShape(d);
    var s := DateStamp(d);
    assert s[..4] == Pad(d.year, 4);
    assert s[5..7] == Pad(d.month, 2);
    assert s[8..] == Pad(d.day, 2);
  }

  /** Every character of a stamp is a digit or a dash. */
  lemma StampShape(d: Date)
    requires ValidDate(d)
    ensures |DateStamp(d)| == 10 && '/' !in DateStamp(d)
    ensures |Pad(d.year, 4)| == 4 && |Pad(d.month, 2)| == 2 && |Pad(d.day, 2)| == 2
    ensures AllDigits(Pad(d.year, 4)) && AllDigits(Pad(d.month, 2)) && AllDigits(Pad(d.day, 2))
    ensures DigitsValue(Pad(d.year, 4)) == d.year && DigitsValue(Pad(d.month, 2)) == d.month
    ensures DigitsValue(Pad(d.day, 2)) == d.day
  {
    PadDigits(d.year, 4);
    PadDigits(d.month, 2);
    PadDigits(d.day, 2);
    var s := DateStamp(d);
    forall i | 0 <= i < |s| ensures s[i] != '/' {
      if i < 4 { assert s[i] == Pad(d.year, 4)[i]; }
      else if 5 <= i < 7 { assert s[i] == Pad(d.month, 2)[i - 5]; }
      else if 8 <= i { assert s[i] == Pad(d.day, 2)[i - 8]; }
    }
  }

  /** Distinct days give distinct stamps. */
  lemma StampInjective(d1: Date, d2: Date)
    requires ValidDate(d1) && ValidDate(d2)
    requires DateStamp(d1) == DateStamp(d2)
    ensures d1 == d2
  {
    StampRoundTrip(d1);
    StampRoundTrip(d2);
  }

  /** Removes trailing separators, as `rstrip('/')` does. */
  function StripTrailingSlashes(s: string): (r: string)
    ensures r == [] || r[|r| - 1] != '/'
    ensures |r| <= |s| && r == s[..|r|]
    ensures forall k :: |r| <= k < |s| ==> s[k] == '/'
  {
    if s != [] && s[|s| - 1] == '/' then StripTrailingSlashes(s[..|s| - 1]) else s
  }

  /** Index of the first '/' at or after `from`, or the length. */
  function FindSlash(s: string, from: nat): (i: nat)
    requires from <= |s|
    ensures from <= i <= |s|
    ensures i < |s| ==> s[i] == '/'
    ensures forall k :: from <= k < i ==> s[k] != '/'
    decreases |s| - from
  {
    if from == |s| || s[from] == '/' then from else FindSlash(s, from + 1)
  }

  /** `os.path.expanduser` on POSIX: a leading `~` names the current user's
      home, `~name` the home of user `name` (left as it is when there is no
      such user); the home's trailing separators are dropped, and an empty
      result becomes the root. */
  function ExpandUser(path: string, home: string, userHomes: map<string, string>): (r: string)
    ensures path == [] || path[0] != '~' ==> r == path
    ensures path != [] ==> r != []
  {
    if path == [] || path[0] != '~' then path
    else
      var i := FindSlash(path, 1);
      var user := path[1..i];
      if i > 1 && user !in userHomes then path
      else
        var h := StripTrailingSlashes(if i == 1 then home else userHomes[user]);
        var joined := h + path[i..];
        if joined == [] then "/" else joined
  }

  /** The directory of one partition. */
  function PartitionDir(base: string, project: string, env: string, today: Date): string
    requires ValidDate(today)
  {
    base + "/" + project + "/" + env + "/" + DateStamp(today)
  }

  const FileName: string := "log.parquet"

  /** The file of one partition. */
  function PartitionFile(base: string, project: string, env: string, today: Date): (p: string)
    requires ValidDate(today)
    ensures p == PartitionDir(base, project, env, today) + "/" + FileName
  {
    base + "/" + project + "/" + env + "/" + DateStamp(today) + "/" + FileName
  }

  /** Splitting at the first separator is unique. */
  lemma SplitAtSlash(a: string, x: string, c: string, y: string)
    requires '/' !in a && '/' !in c
    requires a + "/" + x == c + "/" + y
    ensures a == c && x == y
  {
    var s := a + "/" + x;
    var t := c + "/" + y;
    assert forall k :: 0 <= k < |a| ==> s[k] != '/' by {
      forall k | 0 <= k < |a| ensures s[k] != '/' { assert s[k] == a[k]; }
    }
    assert forall k :: 0 <= k < |c| ==> t[k] != '/' by {
      forall k | 0 <= k < |c| ensures t[k] != '/' { assert t[k] == c[k]; }
    }
    assert s[|a|] == '/' && t[|c|] == '/';
    assert |a| == |c|;
    assert a == s[..|a|];
    assert c == (c + "/" + y)[..|c|];
    assert x == s[|a| + 1..];
    assert y == (c + "/" + y)[|c| + 1..];
  }

  lemma DropPrefix(b: string, t1: string, t2: string)
    requires b + t1 == b + t2
    ensures t1 == t2
  {
    assert t1 == (b + t1)[|b|..];
    assert t2 == (b + t2)[|b|..];
  }

  lemma Regroup<T>(b: seq<T>, sep: seq<T>, p: seq<T>, e: seq<T>, s: seq<T>, f: seq<T>)
    ensures b + sep + p + sep + e + sep + s + sep + f == (b + sep) + (p + sep + (e + sep + (s + sep + f)))
  {
  }

  /** A path of this shape determines its three middle components, when
      none of them contains a separator. */
  lemma KeySplit(base: string, p1: string, e1: string, s1: string, p2: string, e2: string, s2: string)
    requires '/' !in p1 && '/' !in p2 && '/' !in e1 && '/' !in e2 && '/' !in s1 && '/' !in s2
    requires base + "/" + p1 + "/" + e1 + "/" + s1 + "/" + FileName == base + "/" + p2 + "/" + e2 + "/" + s2 + "/" + FileName
    ensures p1 == p2 && e1 == e2 && s1 == s2
  {
    var r1, r2 := s1 + "/" + FileName, s2 + "/" + FileName;
    var q1, q2 := e1 + "/" + r1, e2 + "/" + r2;
    var t1, t2 := p1 + "/" + q1, p2 + "/" + q2;
    Regroup(base, "/", p1, e1, s1, FileName);
    Regroup(base, "/", p2, e2, s2, FileName);
    DropPrefix(base + "/", t1, t2);
    SplitAtSlash(p1, q1, p2, q2);
    SplitAtSlash(e1, r1, e2, r2);
    SplitAtSlash(s1, FileName, s2, FileName);
  }

  /** A name that is a path component of its own: non-empty, not `.` and
      without separators (the path library drops empty and `.` components). */
  predicate PlainComponent(n: string)
  {
    n != "" && n != "." && '/' !in n
  }

  /** Distinct partition keys select distinct files: under one base, the file
      determines the project, the environment and the day, for project and
      environment names that are plain components. */
  lemma PartitionFileInjective(base: string, p1: string, e1: string, d1: Date,
                               p2: string, e2: string, d2: Date)
    requires ValidDate(d1) && ValidDate(d2)
    requires PlainComponent(p1) && PlainComponent(p2) && PlainComponent(e1) && PlainComponent(e2)
    requires PartitionFile(base, p1, e1, d1) == PartitionFile(base, p2, e2, d2)
    ensures p1 == p2 && e1 == e2 && d1 == d2
  {
    StampShape(d1);
    StampShape(d2);
    KeySplit(base, p1, e1, DateStamp(d1), p2, e2, DateStamp(d2));
    StampInjective(d1, d2);
  }
}
