/**
 * The string operations the dispatcher relies on, stated as JavaScript defines them:
 * `String.prototype.split` with a one-character separator, `Array.prototype.join`,
 * the `slice(-n)` tail of an array, and the UTF-8 byte length that `fs.statSync`
 * reports for a file written as "utf8".
 */
module Text {

  /** `t` is a (possibly empty) suffix of `s`. */
  predicate IsSuffix(t: string, s: string) {
    |t| <= |s| && s[|s| - |t|..] == t
  }

  /** `s.split(sep)`: the maximal separator-free pieces, always at least one (`"".split(c)` is `[""]`). */
  function Split(s: string, sep: char): (pieces: seq<string>)
    ensures |pieces| >= 1
    ensures forall i :: 0 <= i < |pieces| ==> sep !in pieces[i]
  {
    if s == [] then [""]
    else
      var rest := Split(s[1..], sep);
      if s[0] == sep then [""] + rest
      else [[s[0]] + rest[0]] + rest[1..]
  }

  /** `pieces.join(sep)`; the join of no pieces is the empty string. */
  function Join(pieces: seq<string>, sep: char): string {
    if |pieces| == 0 then ""
    else if |pieces| == 1 then pieces[0]
    else pieces[0] + [sep] + Join(pieces[1..], sep)
  }

  /** `pieces.slice(-n)` for a positive `n`: the last `n` pieces, or all of them when there are fewer. */
  function LastN<T>(pieces: seq<T>, n: nat): seq<T>
    requires n >= 1
  {
    if |pieces| <= n then pieces else pieces[|pieces| - n..]
  }

  /** Joining the pieces of a split gives the string back. */
  lemma {:induction false} JoinSplit(s: string, sep: char)
    ensures Join(Split(s, sep), sep) == s
  {
    if s != [] {
      var rest := Split(s[1..], sep);
      JoinSplit(s[1..], sep);
      if s[0] == sep {
        assert ([""] + rest)[1..] == rest;
      } else {
        var pieces := [[s[0]] + rest[0]] + rest[1..];
        if |rest| > 1 {
          assert pieces[1..] == rest[1..];
        }
      }
      assert s == [s[0]] + s[1..];
    }
  }

  /** A separator-free prefix glues onto the first piece of what follows it. */
  lemma {:induction false} SplitOfPrefixed(a: string, t: string, sep: char)
    requires sep !in a
    ensures Split(a + t, sep) == [a + Split(t, sep)[0]] + Split(t, sep)[1..]
  {
    if a == [] {
      assert a + t == t;
      assert a + Split(t, sep)[0] == Split(t, sep)[0];
      assert Split(t, sep) == [Split(t, sep)[0]] + Split(t, sep)[1..];
    } else {
      SplitOfPrefixed(a[1..], t, sep);
      assert (a + t)[1..] == a[1..] + t;
      assert [a[0]] + (a[1..] + Split(t, sep)[0]) == a + Split(t, sep)[0];
    }
  }

  /** Splitting a join of separator-free pieces gives the pieces back. */
  lemma {:induction false} SplitJoin(pieces: seq<string>, sep: char)
    requires |pieces| >= 1
    requires forall i :: 0 <= i < |pieces| ==> sep !in pieces[i]
    ensures Split(Join(pieces, sep), sep) == pieces
  {
    if |pieces| == 1 {
      SplitOfPrefixed(pieces[0], "", sep);
      assert pieces[0] + "" == pieces[0];
    } else {
      var t := Join(pieces[1..], sep);
      var tail := [sep] + t;
      calc {
        Split(Join(pieces, sep), sep);
        { assert Join(pieces, sep) == pieces[0] + tail; }
        Split(pieces[0] + tail, sep);
        { SplitOfPrefixed(pieces[0], tail, sep); }
        [pieces[0] + Split(tail, sep)[0]] + Split(tail, sep)[1..];
        { SplitAfterSeparator(t, sep); SplitJoin(pieces[1..], sep); }
        [pieces[0] + ""] + pieces[1..];
        { assert pieces[0] + "" == pieces[0]; }
        pieces;
      }
    }
  }

  /** A leading separator splits off an empty first piece. */
  lemma SplitAfterSeparator(t: string, sep: char)
    ensures Split([sep] + t, sep) == [""] + Split(t, sep)
  {
    assert ([sep] + t)[1..] == t;
  }

  /** Joining a concatenation puts one separator between the two joins. */
  lemma {:induction false} JoinConcat(a: seq<string>, b: seq<string>, sep: char)
    requires |a| >= 1 && |b| >= 1
    ensures Join(a + b, sep) == Join(a, sep) + [sep] + Join(b, sep)
  {
    if |a| == 1 {
      assert (a + b)[1..] == b;
    } else {
      JoinConcat(a[1..], b, sep);
      assert (a + b)[1..] == a[1..] + b;
    }
  }

  /** A split has exactly one more piece than the string has separators. */
  lemma {:induction false} SplitCount(s: string, sep: char)
    ensures |Split(s, sep)| == multiset(s)[sep] + 1
  {
    if s != [] {
      SplitCount(s[1..], sep);
      assert s == [s[0]] + s[1..];
      assert multiset(s) == multiset([s[0]]) + multiset(s[1..]);
    }
  }

  /** A trailing separator adds one trailing empty piece. */
  lemma {:induction false} SplitTrailingSeparator(p: string, sep: char)
    ensures Split(p + [sep], sep) == Split(p, sep) + [""]
  {
    if p == [] {
      assert p + [sep] == [sep];
      assert [sep][1..] == [];
    } else {
      SplitTrailingSeparator(p[1..], sep);
      assert (p + [sep])[1..] == p[1..] + [sep];
      var rest := Split(p[1..], sep);
      if p[0] != sep {
        assert (rest + [""])[1..] == rest[1..] + [""];
      }
    }
  }

  /**
   * The tail `pieces.slice(-n).join(sep)` of a string: it is a suffix of the string, and its
   * own pieces are exactly the last `n` pieces of the string.
   */
  lemma {:induction false} LastPieces(s: string, sep: char, n: nat)
    requires n >= 1
    ensures IsSuffix(Join(LastN(Split(s, sep), n), sep), s)
    ensures Split(Join(LastN(Split(s, sep), n), sep), sep) == LastN(Split(s, sep), n)
  {
    var pieces := Split(s, sep);
    JoinSplit(s, sep);
    if |pieces| > n {
      var k := |pieces| - n;
      assert pieces == pieces[..k] + pieces[k..];
      JoinConcat(pieces[..k], pieces[k..], sep);
      var tail := Join(pieces[k..], sep);
      assert s == Join(pieces[..k], sep) + [sep] + tail;
      assert s[|s| - |tail|..] == tail;
    }
    SplitJoin(LastN(pieces, n), sep);
  }

  /** Number of bytes the UTF-8 encoding of one Unicode scalar value takes. */
  function Utf8Width(c: char): nat {
    if c as int < 0x80 then 1
    else if c as int < 0x800 then 2
    else if c as int < 0x1_0000 then 3
    else 4
  }

  /** Byte length of the UTF-8 encoding of `s`: between one and four bytes per character. */
  function Utf8Size(s: string): (bytes: nat)
    ensures |s| <= bytes <= 4 * |s|
  {
    if s == [] then 0 else Utf8Width(s[0]) + Utf8Size(s[1..])
  }

  /** Encoding is per character, so sizes add up over concatenation. */
  lemma {:induction false} Utf8SizeConcat(a: string, b: string)
    ensures Utf8Size(a + b) == Utf8Size(a) + Utf8Size(b)
  {
    if a == [] {
      assert a + b == b;
    } else {
      Utf8SizeConcat(a[1..], b);
      assert (a + b)[1..] == a[1..] + b;
    }
  }

  /** Text made of ASCII characters takes one byte per character. */
  lemma {:induction false} Utf8SizeAscii(s: string)
    requires forall i :: 0 <= i < |s| ==> s[i] as int < 0x80
    ensures Utf8Size(s) == |s|
  {
    if s != [] {
      Utf8SizeAscii(s[1..]);
    }
  }

  /** A suffix never takes more bytes than the whole. */
  lemma Utf8SizeSuffix(t: string, s: string)
    requires IsSuffix(t, s)
    ensures Utf8Size(t) <= Utf8Size(s)
  {
    assert s == s[..|s| - |t|] + t;
    Utf8SizeConcat(s[..|s| - |t|], t);
  }
}
