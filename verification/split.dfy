/** `String.prototype.split` and `Array.prototype.join` with a one-character
    separator, as JavaScript defines them: no trimming, empty pieces are kept,
    splitting always yields at least one piece, and joining no pieces gives
    the empty string.
 */
module Split {

  /** No piece of `parts` contains the separator. */
  predicate SeparatorFree(parts: seq<string>, sep: char) {
    forall i :: 0 <= i < |parts| ==> sep !in parts[i]
  }

  /** `s.split(sep)`. */
  function Split(s: string, sep: char): (parts: seq<string>)
    ensures |parts| >= 1
    ensures SeparatorFree(parts, sep)
    decreases |s|
  {
    if s == [] then [""]
    else
      var rest := Split(s[1..], sep);
      if s[0] == sep then [""] + rest
      else [[s[0]] + rest[0]] + rest[1..]
  }

  /** `parts.join(sep)`. */
  function Join(parts: seq<string>, sep: char): string
    decreases |parts|
  {
    if |parts| == 0 then ""
    else if |parts| == 1 then parts[0]
    else parts[0] + [sep] + Join(parts[1..], sep)
  }

  /** Prepending a character to the first piece prepends it to the joined string. */
  lemma {:induction false} JoinConsFirst(c: char, parts: seq<string>, sep: char)
    requires |parts| >= 1
    ensures Join([[c] + parts[0]] + parts[1..], sep) == [c] + Join(parts, sep)
  {
    var ps := [[c] + parts[0]] + parts[1..];
    assert ps[1..] == parts[1..];
    if |parts| > 1 {
      assert Join(ps, sep) == ([c] + parts[0]) + [sep] + Join(parts[1..], sep);
    }
  }

  /** Joining the pieces of a split gives back the original string. */
  lemma {:induction false} JoinSplit(s: string, sep: char)
    ensures Join(Split(s, sep), sep) == s
    decreases |s|
  {
    if s != [] {
      var rest := Split(s[1..], sep);
      JoinSplit(s[1..], sep);
      if s[0] == sep {
        var ps := [""] + rest;
        assert ps[1..] == rest;
        assert Join(ps, sep) == "" + [sep] + Join(rest, sep);
      } else {
        JoinConsFirst(s[0], rest, sep);
      }
      assert s == [s[0]] + s[1..];
    }
  }

  /** Splitting `a + r` where `a` holds no separator glues `a` onto the first
      piece of the split of `r`. */
  lemma {:induction false} SplitPrefix(a: string, r: string, sep: char)
    requires sep !in a
    ensures Split(a + r, sep) == [a + Split(r, sep)[0]] + Split(r, sep)[1..]
    decreases |a|
  {
    if a == [] {
      assert a + r == r;
      var t := Split(r, sep);
      assert a + t[0] == t[0];
      assert [t[0]] + t[1..] == t;
    } else {
      var t := Split(r, sep);
      assert (a + r)[1..] == a[1..] + r;
      assert (a + r)[0] == a[0] && a[0] != sep;
      SplitPrefix(a[1..], r, sep);
      var rest := Split(a[1..] + r, sep);
      assert rest[0] == a[1..] + t[0];
      assert rest[1..] == t[1..];
      assert Split(a + r, sep) == [[a[0]] + rest[0]] + rest[1..];
      assert [a[0]] + (a[1..] + t[0]) == a + t[0];
    }
  }

  /** Splitting a join of separator-free pieces gives back the pieces:
      together with `JoinSplit`, `Split` and `Join` are mutually inverse. */
  lemma {:induction false} SplitJoin(parts: seq<string>, sep: char)
    requires |parts| >= 1
    requires SeparatorFree(parts, sep)
    ensures Split(Join(parts, sep), sep) == parts
    decreases |parts|
  {
    if |parts| == 1 {
      SplitPrefix(parts[0], "", sep);
      assert parts[0] + "" == parts[0];
    } else {
      var tail := parts[1..];
      assert SeparatorFree(tail, sep) by {
        forall i | 0 <= i < |tail| ensures sep !in tail[i] {
          assert tail[i] == parts[i + 1];
        }
      }
      SplitJoin(tail, sep);
      var r := [sep] + Join(tail, sep);
      assert parts[0] + [sep] + Join(tail, sep) == parts[0] + r;
      SplitPrefix(parts[0], r, sep);
      assert r[1..] == Join(tail, sep);
      assert r[0] == sep;
      assert Split(r, sep) == [""] + Split(r[1..], sep);
      assert Split(r, sep) == [""] + tail;
      assert parts[0] + "" == parts[0];
      assert parts == [parts[0]] + tail;
    }
  }

  /** The split is the only separator-free list of pieces that joins back to
      the string. */
  lemma SplitUnique(s: string, parts: seq<string>, sep: char)
    requires |parts| >= 1
    requires SeparatorFree(parts, sep)
    requires Join(parts, sep) == s
    ensures parts == Split(s, sep)
  {
    SplitJoin(parts, sep);
  }

  /** The number of pieces is one more than the number of separators. */
  lemma {:induction false} SplitCount(s: string, sep: char)
    ensures |Split(s, sep)| == multiset(s)[sep] + 1
    decreases |s|
  {
    if s != [] {
      SplitCount(s[1..], sep);
      assert s == [s[0]] + s[1..];
      assert multiset(s) == multiset([s[0]]) + multiset(s[1..]);
    }
  }
}
