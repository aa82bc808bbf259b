/** Values and string operations that the three scripts share: optional
    values with JavaScript truthiness, `join`, `split`, `trim` and prefix
    scanning. */
module StringUtil {

  datatype Option<+T> = None | Some(value: T)

  /** JavaScript truthiness of a value that is either `undefined` or a
      string: defined and not the empty string. */
  predicate Truthy(o: Option<string>) {
    o.Some? && o.value != ""
  }

  /** `o || fallback` for a value that is `undefined` or a string. */
  function OrElse(o: Option<string>, fallback: string): string {
    if Truthy(o) then o.value else fallback
  }

  function Max(a: real, b: real): real {
    if a < b then b else a
  }

  function Min(a: real, b: real): real {
    if a < b then a else b
  }

  function Last<T>(xs: seq<T>): T
    requires |xs| > 0
  {
    xs[|xs| - 1]
  }

  predicate StartsWith(s: string, prefix: string) {
    |prefix| <= |s| && s[..|prefix|] == prefix
  }

  /** `parts.join(sep)`. */
  function Join(parts: seq<string>, sep: string): string {
    if |parts| == 0 then ""
    else if |parts| == 1 then parts[0]
    else parts[0] + sep + Join(parts[1..], sep)
  }

  /** `s.split(c)` for a one-character separator: the pieces between
      occurrences of `c`, so there is always at least one piece and no piece
      holds `c`. */
  function Split(s: string, c: char): (r: seq<string>)
    ensures |r| >= 1
    ensures forall k :: 0 <= k < |r| ==> c !in r[k]
  {
    if |s| == 0 then [""]
    else if s[0] == c then [""] + Split(s[1..], c)
    else
      var rest := Split(s[1..], c);
      [[s[0]] + rest[0]] + rest[1..]
  }

  /** The longest prefix of `s` without `c`. */
  function TakeUntil(s: string, c: char): (r: string)
    ensures |r| <= |s| && r == s[..|r|]
    ensures c !in r
    ensures |r| < |s| ==> s[|r|] == c
  {
    if |s| == 0 || s[0] == c then "" else [s[0]] + TakeUntil(s[1..], c)
  }

  /** The characters that `String.prototype.trim` removes: the white space
      and line terminators of ECMAScript (tab to carriage return, space,
      no-break space, the Unicode space separators, line and paragraph
      separators, and the byte-order mark). */
  predicate IsTrimmable(c: char) {
    ('\t' <= c <= '\r') || c == ' ' || c == '\U{00A0}' || c == '\U{1680}'
    || ('\U{2000}' <= c <= '\U{200A}') || c == '\U{2028}' || c == '\U{2029}'
    || c == '\U{202F}' || c == '\U{205F}' || c == '\U{3000}' || c == '\U{FEFF}'
  }

  /** The index of the first character of `s` at or after `i` that is not
      white space, or `|s|`. */
  function SkipLeading(s: string, i: nat): (n: nat)
    requires i <= |s|
    ensures i <= n <= |s|
    ensures forall k :: i <= k < n ==> IsTrimmable(s[k])
    ensures n < |s| ==> !IsTrimmable(s[n])
    decreases |s| - i
  {
    if i < |s| && IsTrimmable(s[i]) then SkipLeading(s, i + 1) else i
  }

  /** The end of `s[lo..hi]` once white space is dropped from its end. */
  function SkipTrailing(s: string, lo: nat, hi: nat): (n: nat)
    requires lo <= hi <= |s|
    ensures lo <= n <= hi
    ensures forall k :: n <= k < hi ==> IsTrimmable(s[k])
    ensures n > lo ==> !IsTrimmable(s[n - 1])
    decreases hi
  {
    if hi > lo && IsTrimmable(s[hi - 1]) then SkipTrailing(s, lo, hi - 1) else hi
  }

  /** How many characters `s.trim()` drops at the front. */
  function Leading(s: string): nat
    ensures Leading(s) <= |s|
  {
    SkipLeading(s, 0)
  }

  /** `s.trim()`: the slice of `s` left after dropping white space at both
      ends. */
  function Trim(s: string): (r: string)
    ensures r != [] ==> !IsTrimmable(r[0]) && !IsTrimmable(r[|r| - 1])
    ensures Leading(s) + |r| <= |s| && r == s[Leading(s)..Leading(s) + |r|]
    ensures forall k :: 0 <= k < Leading(s) ==> IsTrimmable(s[k])
    ensures forall k :: Leading(s) + |r| <= k < |s| ==> IsTrimmable(s[k])
  {
    var a := Leading(s);
    var b := SkipTrailing(s, a, |s|);
    s[a..b]
  }

  /** Regrouping a concatenation; stated on plain sequences so that proofs
      about long literal strings need not compare them element by element. */
  lemma Regroup<T>(a: seq<T>, b: seq<T>, c: seq<T>)
    ensures a + b + c == a + (b + c)
  {
  }

  lemma DropPrefix<T>(a: seq<T>, b: seq<T>)
    ensures (a + b)[..|a|] == a && (a + b)[|a|..] == b
  {
  }

  /** `x` occurs in `s` at offset `i`. */
  predicate At(s: string, x: string, i: int) {
    0 <= i && i + |x| <= |s| && s[i..i + |x|] == x
  }

  lemma AtStart(x: string, q: string)
    ensures At(x + q, x, 0)
  {
    assert (x + q)[..|x|] == x;
  }

  lemma AtShift(p: string, s: string, x: string, i: int)
    requires At(s, x, i)
    ensures At(p + s, x, |p| + i)
  {
    assert (p + s)[|p| + i..|p| + i + |x|] == s[i..i + |x|];
  }

  lemma {:induction false} JoinCons(x: string, xs: seq<string>, sep: string)
    requires |xs| >= 1
    ensures Join([x] + xs, sep) == x + sep + Join(xs, sep)
  {
    assert ([x] + xs)[1..] == xs;
  }

  lemma {:induction false} JoinSnoc(xs: seq<string>, x: string, sep: string)
    requires |xs| >= 1
    ensures Join(xs + [x], sep) == Join(xs, sep) + sep + x
    decreases |xs|
  {
    if |xs| == 1 {
      assert xs + [x] == [xs[0]] + [x];
      JoinCons(xs[0], [x], sep);
    } else {
      assert xs + [x] == [xs[0]] + (xs[1..] + [x]);
      JoinCons(xs[0], xs[1..] + [x], sep);
      JoinSnoc(xs[1..], x, sep);
    }
  }

  lemma {:induction false} SplitWithout(p: string, c: char)
    requires c !in p
    ensures Split(p, c) == [p]
    decreases |p|
  {
    if |p| > 0 {
      SplitWithout(p[1..], c);
      assert [p[0]] + p[1..] == p;
    }
  }

  lemma {:induction false} SplitPiece(p: string, c: char, rest: string)
    requires c !in p
    ensures Split(p + [c] + rest, c) == [p] + Split(rest, c)
    decreases |p|
  {
    var s := p + [c] + rest;
    if |p| == 0 {
      assert s[1..] == rest;
    } else {
      assert s[1..] == p[1..] + [c] + rest;
      SplitPiece(p[1..], c, rest);
      assert [p[0]] + p[1..] == p;
    }
  }

  /** Splitting a join on a separator that no part holds gives the parts
      back. */
  lemma {:induction false} SplitJoin(parts: seq<string>, c: char)
    requires |parts| >= 1
    requires forall k :: 0 <= k < |parts| ==> c !in parts[k]
    ensures Split(Join(parts, [c]), c) == parts
    decreases |parts|
  {
    if |parts| == 1 {
      SplitWithout(parts[0], c);
    } else {
      SplitPiece(parts[0], c, Join(parts[1..], [c]));
      SplitJoin(parts[1..], c);
      assert [parts[0]] + parts[1..] == parts;
    }
  }

  /** The last piece of `s.split(c)` is the suffix of `s` after its last `c`
      (all of `s` when there is none). */
  lemma {:induction false} SplitLast(s: string, c: char)
    ensures var l := Last(Split(s, c));
            |l| <= |s| && l == s[|s| - |l|..] && (|l| < |s| ==> s[|s| - |l| - 1] == c)
    ensures |Split(s, c)| == 1 ==> Split(s, c)[0] == s
    decreases |s|
  {
    if |s| > 0 {
      var rest := Split(s[1..], c);
      SplitLast(s[1..], c);
      var l := Last(rest);
      var t := s[1..];
      assert t[|t| - |l|..] == s[|s| - |l|..];
      if |l| < |t| {
        assert t[|t| - |l| - 1] == s[|s| - |l| - 1];
      }
      if s[0] == c {
        assert Split(s, c) == [""] + rest;
        assert Last(Split(s, c)) == l;
      } else {
        assert Split(s, c) == [[s[0]] + rest[0]] + rest[1..];
        if |rest| > 1 {
          if |l| == |t| {
            SplitWithout(t, c);
            assert false;
          }
          assert Last(Split(s, c)) == l;
        } else {
          assert [s[0]] + t == s;
        }
      }
    }
  }

  lemma JoinFramed(open: string, lines: seq<string>, close: string, c: char)
    requires |lines| >= 1
    ensures Join([open] + (lines + [close]), [c]) == open + [c] + Join(lines, [c]) + [c] + close
  {
    JoinCons(open, lines + [close], [c]);
    JoinSnoc(lines, close, [c]);
    var j := Join(lines, [c]);
    Regroup(open + [c], j, [c]);
    Regroup(open + [c], j + [c], close);
  }

  lemma FramedWithout(open: string, lines: seq<string>, close: string, c: char)
    requires c !in open && c !in close
    requires forall k :: 0 <= k < |lines| ==> c !in lines[k]
    ensures forall k :: 0 <= k < |[open] + (lines + [close])| ==> c !in ([open] + (lines + [close]))[k]
  {
    var tail := lines + [close];
    var parts := [open] + tail;
    forall k | 0 <= k < |parts| ensures c !in parts[k] {
      if k > 0 {
        assert parts[k] == tail[k - 1];
        if k - 1 < |lines| {
          assert tail[k - 1] == lines[k - 1];
        }
      }
    }
  }

  /** Splitting lines framed by an opening and a closing line. */
  lemma SplitFramed(open: string, lines: seq<string>, close: string, c: char)
    requires |lines| >= 1 && c !in open && c !in close
    requires forall k :: 0 <= k < |lines| ==> c !in lines[k]
    ensures Split(open + [c] + Join(lines, [c]) + [c] + close, c) == [open] + lines + [close]
  {
    Regroup([open], lines, [close]);
    JoinFramed(open, lines, close, c);
    FramedWithout(open, lines, close, c);
    SplitJoin([open] + (lines + [close]), c);
  }

  /** A join is its first part followed by the rest. */
  lemma JoinFirst(parts: seq<string>, sep: string)
    requires |parts| >= 1
    ensures Join(parts, sep) == parts[0] + (if |parts| == 1 then "" else sep + Join(parts[1..], sep))
  {
    if |parts| == 1 {
      assert parts[0] + "" == parts[0];
    } else {
      Regroup(parts[0], sep, Join(parts[1..], sep));
    }
  }

  /** Three pieces laid out in order, with text before, between and after. */
  lemma InOrder(p: string, x: string, q: string, y: string, u: string, z: string, w: string)
    ensures var r := p + (x + (q + (y + (u + (z + w)))));
            At(r, x, |p|) && At(r, y, |p| + |x| + |q|) && At(r, z, |p| + |x| + |q| + |y| + |u|)
  {
    var t3 := z + w;
    var t2 := y + (u + t3);
    var t1 := x + (q + t2);
    AtStart(z, w);
    AtShift(u, t3, z, 0);
    AtShift(y, u + t3, z, |u|);
    AtStart(y, u + t3);
    AtShift(q, t2, y, 0);
    AtShift(q, t2, z, |y| + |u|);
    AtShift(x, q + t2, y, |q|);
    AtShift(x, q + t2, z, |q| + |y| + |u|);
    AtStart(x, q + t2);
    AtShift(p, t1, x, 0);
    AtShift(p, t1, y, |x| + |q|);
    AtShift(p, t1, z, |x| + |q| + |y| + |u|);
  }

  lemma {:induction false} TakeUntilBefore(x: string, y: string, c: char)
    requires c !in x && |y| > 0 && y[0] == c
    ensures TakeUntil(x + y, c) == x
    decreases |x|
  {
    if |x| > 0 {
      assert (x + y)[1..] == x[1..] + y;
      TakeUntilBefore(x[1..], y, c);
      assert [x[0]] + x[1..] == x;
    } else {
      assert (x + y)[0] == c;
    }
  }
}
