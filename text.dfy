/** Python `str` and slice operations that the core relies on, written with
    Python's exact semantics (leftmost non-overlapping matches, clamped slice
    bounds, `str.isspace` for `strip`). */
module Text {

  /** `p` occurs in `s` starting at index `i`. */
  predicate OccursAt(s: string, p: string, i: int) {
    0 <= i && i + |p| <= |s| && s[i..i + |p|] == p
  }

  /** Python `p in s`. */
  predicate Contains(s: string, p: string) {
    exists i | 0 <= i <= |s| :: OccursAt(s, p, i)
  }

  /** `p` occurs in `a + p + b` just after `a`. */
  lemma Within(a: string, p: string, b: string)
    ensures OccursAt(a + p + b, p, |a|) && Contains(a + p + b, p)
    ensures StartsWith(a + p + b, a)
  {
    var s := a + p + b;
    assert s[|a|..|a| + |p|] == p;
    assert OccursAt(s, p, |a|);
    assert s[..|a|] == a;
  }

  /** Python `s.startswith(p)`. */
  predicate StartsWith(s: string, p: string) {
    |p| <= |s| && s[..|p|] == p
  }

  /** The first occurrence of `p` in `s` at or after `i`, or -1. */
  function FindFrom(s: string, p: string, i: nat): (r: int)
    requires i <= |s|
    ensures r == -1 || (i <= r && OccursAt(s, p, r))
    ensures r == -1 ==> forall j :: i <= j ==> !OccursAt(s, p, j)
    ensures r != -1 ==> forall j :: i <= j < r ==> !OccursAt(s, p, j)
    decreases |s| - i
  {
    if OccursAt(s, p, i) then i
    else if i == |s| then -1
    else FindFrom(s, p, i + 1)
  }

  /** Python `s.find(p)`: the index of the first occurrence, or -1. */
  function Find(s: string, p: string): (r: int)
    ensures r == -1 <==> !Contains(s, p)
    ensures r != -1 ==> OccursAt(s, p, r) && forall j :: 0 <= j < r ==> !OccursAt(s, p, j)
  {
    FindFrom(s, p, 0)
  }

  /** The last occurrence of `p` in `s` at or before `i`, or -1. */
  function RFindFrom(s: string, p: string, i: int): (r: int)
    requires -1 <= i
    ensures r == -1 || (r <= i && OccursAt(s, p, r))
    ensures r == -1 ==> forall j :: j <= i ==> !OccursAt(s, p, j)
    ensures r != -1 ==> forall j :: r < j <= i ==> !OccursAt(s, p, j)
    decreases i + 1
  {
    if i == -1 then -1
    else if OccursAt(s, p, i) then i
    else RFindFrom(s, p, i - 1)
  }

  /** A pattern whose first character does not occur in `a` is first found just after `a`. */
  lemma FindAfter(a: string, p: string, b: string)
    requires p != [] && p[0] !in a
    ensures Find(a + p + b, p) == |a|
  {
    var s := a + p + b;
    assert s[|a|..|a| + |p|] == p;
    assert OccursAt(s, p, |a|);
    forall j | 0 <= j < |a| ensures !OccursAt(s, p, j) {
      assert s[j..j + |p|][0] == s[j] == a[j];
    }
  }

  /** A pattern whose first character does not occur in `s` does not occur in it. */
  lemma NotContains(s: string, p: string)
    requires p != [] && p[0] !in s
    ensures !Contains(s, p)
  {
    forall j | 0 <= j <= |s| ensures !OccursAt(s, p, j) {
      if j + |p| <= |s| {
        assert s[j..j + |p|][0] == s[j];
      }
    }
  }

  /** Python `s.rfind(p)`: the index of the last occurrence, or -1. */
  function RFind(s: string, p: string): (r: int)
    ensures r == -1 <==> !Contains(s, p)
    ensures r != -1 ==> OccursAt(s, p, r) && forall j :: r < j ==> !OccursAt(s, p, j)
  {
    RFindFrom(s, p, |s|)
  }

  /** Python's normalisation of a slice bound `i` against a length `n`. */
  function Clamp(i: int, n: nat): (r: nat)
    ensures r <= n
    ensures 0 <= i <= n ==> r == i
    ensures i < 0 && n + i >= 0 ==> r == n + i
  {
    if i < 0 then (if n + i < 0 then 0 else n + i)
    else if i > n then n
    else i
  }

  /** Python `s[a:b]`. */
  function Slice<T>(s: seq<T>, a: int, b: int): (r: seq<T>)
    ensures |r| <= |s|
  {
    var i, j := Clamp(a, |s|), Clamp(b, |s|);
    if i < j then s[i..j] else []
  }

  /** Python `s[:n]`. */
  function Take<T>(s: seq<T>, n: int): (r: seq<T>)
    ensures 0 <= n ==> r == s[..if n < |s| then n else |s|]
    ensures n < 0 ==> r == s[..Clamp(n, |s|)]
  {
    Slice(s, 0, n)
  }

  /** Python `s[a:]`. */
  function Drop<T>(s: seq<T>, a: int): (r: seq<T>)
    ensures r == s[Clamp(a, |s|)..]
  {
    Slice(s, a, |s|)
  }

  /** Python `c.isspace()`: the characters with the Unicode White_Space
      property or bidirectional class WS, B or S. */
  predicate IsSpace(c: char) {
    ('\U{9}' <= c <= '\U{D}') || ('\U{1C}' <= c <= ' ') || c == '\U{85}' || c == '\U{A0}'
    || c == '\U{1680}' || ('\U{2000}' <= c <= '\U{200A}') || c == '\U{2028}' || c == '\U{2029}'
    || c == '\U{202F}' || c == '\U{205F}' || c == '\U{3000}'
  }

  /** The number of leading whitespace characters of `s`. */
  function LeadingSpaces(s: string): (r: nat)
    ensures r <= |s|
    ensures forall k :: 0 <= k < r ==> IsSpace(s[k])
    ensures r < |s| ==> !IsSpace(s[r])
  {
    if s == [] || !IsSpace(s[0]) then 0 else 1 + LeadingSpaces(s[1..])
  }

  /** The number of trailing whitespace characters of `s`. */
  function TrailingSpaces(s: string): (r: nat)
    ensures r <= |s|
    ensures forall k :: |s| - r <= k < |s| ==> IsSpace(s[k])
    ensures r < |s| ==> !IsSpace(s[|s| - 1 - r])
  {
    if s == [] || !IsSpace(s[|s| - 1]) then 0 else 1 + TrailingSpaces(s[..|s| - 1])
  }

  /** Python `s.strip()`: `s` without its leading and trailing whitespace. */
  function Strip(s: string): (r: string)
    ensures |r| <= |s|
    ensures r == s[LeadingSpaces(s)..|s| - TrailingSpaces(s[LeadingSpaces(s)..])]
    ensures r != [] ==> !IsSpace(r[0]) && !IsSpace(r[|r| - 1])
  {
    var t := s[LeadingSpaces(s)..];
    var u := t[..|t| - TrailingSpaces(t)];
    assert u != [] ==> !IsSpace(u[0]) by {
      if u != [] && LeadingSpaces(s) < |s| {
        assert u[0] == s[LeadingSpaces(s)];
      }
    }
    u
  }

  /** A string with no whitespace at either end is its own strip. */
  lemma StripUnchanged(s: string)
    requires s != [] ==> !IsSpace(s[0]) && !IsSpace(s[|s| - 1])
    ensures Strip(s) == s
  {
    if s != [] {
      assert LeadingSpaces(s) == 0;
      assert TrailingSpaces(s) == 0;
    }
  }

  /** Stripping a single leading blank off a string without outer whitespace. */
  lemma StripBlankPrefix(n: string)
    requires n != [] ==> !IsSpace(n[0]) && !IsSpace(n[|n| - 1])
    ensures Strip(" " + n) == n
  {
    var s := " " + n;
    assert s[1..] == n;
    assert LeadingSpaces(s) == 1 + LeadingSpaces(n);
    StripUnchanged(n);
  }

  /** Strip is idempotent. */
  lemma StripIdempotent(s: string)
    ensures Strip(Strip(s)) == Strip(s)
  {
    StripUnchanged(Strip(s));
  }

  /** Python `s.split(sep)` for a non-empty separator: the pieces between
      leftmost non-overlapping occurrences of `sep`. */
  function Split(s: string, sep: string): (r: seq<string>)
    requires sep != []
    ensures |r| >= 1
    decreases |s|
  {
    var i := Find(s, sep);
    if i == -1 then [s] else [s[..i]] + Split(s[i + |sep|..], sep)
  }

  /** `[x.name for x in xs]`, where `name` reads an entity's name. */
  function Names<T>(xs: seq<T>, name: T -> string): (r: seq<string>)
    ensures |r| == |xs| && forall k :: 0 <= k < |r| ==> r[k] == name(xs[k])
  {
    seq(|xs|, k requires 0 <= k < |xs| => name(xs[k]))
  }

  /** Python `sep.join(parts)`. */
  function Join(parts: seq<string>, sep: string): string {
    if parts == [] then ""
    else if |parts| == 1 then parts[0]
    else parts[0] + sep + Join(parts[1..], sep)
  }

  /** Python `"".join(parts)`: the pieces one after another. */
  function Concat(parts: seq<string>): string {
    if parts == [] then "" else parts[0] + Concat(parts[1..])
  }

  /** Concatenating one more piece appends it at the end. */
  lemma {:induction false} ConcatAppend(parts: seq<string>, x: string)
    ensures Concat(parts + [x]) == Concat(parts) + x
  {
    if parts != [] {
      assert (parts + [x])[1..] == parts[1..] + [x];
      ConcatAppend(parts[1..], x);
    } else {
      assert [x][1..] == [];
    }
  }

  /** The concatenation of the first `k + 1` pieces, split after the first piece. */
  lemma ConcatPrefixCons(parts: seq<string>, k: nat)
    ensures k < |parts| ==> Concat(parts[..k + 1]) == parts[0] + Concat(parts[1..][..k])
  {
    if k < |parts| {
      assert parts[..k + 1][1..] == parts[1..][..k];
    }
  }

  /** The concatenation of the pieces holds piece `k` between those before and after it. */
  lemma {:induction false} ConcatAround(parts: seq<string>, k: nat)
    requires k < |parts|
    ensures Concat(parts) == Concat(parts[..k]) + parts[k] + Concat(parts[k + 1..])
  {
    if k == 0 {
      assert parts[..0] == [] && parts[1..] == parts[k + 1..];
    } else {
      ConcatAround(parts[1..], k - 1);
      assert parts[1..][..k - 1] == parts[..k][1..];
      assert parts[1..][k..] == parts[k + 1..];
    }
  }

  /** Concatenation regroups. */
  lemma Regroup(a: string, b: string, c: string)
    ensures a + b + c == a + (b + c)
  {
  }

  /** A piece of a concatenation occurs in any text that embeds the concatenation. */
  lemma ConcatWithin(a: string, b: string, parts: seq<string>, c: string, k: nat)
    requires k < |parts|
    ensures Contains(a + (b + Concat(parts)) + c, parts[k])
  {
    ConcatAround(parts, k);
    var x, m, y := Concat(parts[..k]), parts[k], Concat(parts[k + 1..]);
    calc {
      a + (b + Concat(parts)) + c;
      { Regroup(a, b, x + m + y); }
      a + b + (x + m + y) + c;
      { Regroup(a + b, x + m, y); }
      a + b + (x + m) + y + c;
      { Regroup(a + b, x, m); }
      a + b + x + m + y + c;
      { Regroup(a + b + x + m, y, c); }
      a + b + x + m + (y + c);
    }
    Within(a + b + x, m, y + c);
  }

  /** A text opening a section embedded in another text occurs in it. */
  lemma OpensWithin(a: string, p: string, c: string, b: string)
    ensures Contains(a + (p + c) + b, p)
  {
    assert a + (p + c) + b == a + p + (c + b);
    Within(a, p, c + b);
  }

  /** A text starts with the first of the pieces it is made of. */
  lemma OpensWith(a: string, b: string, c: string, d: string)
    ensures StartsWith(a + b + c + d, a)
  {
    assert (a + b + c + d)[..|a|] == a;
  }

  /** Python `s[::-1]`. */
  function Reverse<T>(s: seq<T>): (r: seq<T>)
    ensures |r| == |s|
    ensures forall k :: 0 <= k < |s| ==> r[k] == s[|s| - 1 - k]
  {
    seq(|s|, k requires 0 <= k < |s| => s[|s| - 1 - k])
  }

  /** Python `s.replace(p, "")`, which is `"".join(s.split(p))`. */
  function RemoveAll(s: string, p: string): string
    requires p != []
  {
    Join(Split(s, p), "")
  }

  /** Removing a separator that occurs exactly once joins the text around it. */
  lemma RemoveOnce(a: string, p: string, b: string)
    requires p != [] && p[0] !in a && p[0] !in b
    ensures RemoveAll(a + p + b, p) == a + b
  {
    var s := a + p + b;
    FindAfter(a, p, b);
    assert s[..|a|] == a;
    assert s[|a| + |p|..] == b;
    NotContains(b, p);
    assert Split(b, p) == [b];
    assert Split(s, p) == [a] + [b];
    JoinCons(a, "", [b]);
  }

  /** Joining the pieces of a split with its separator gives back the string. */
  lemma {:induction false} JoinSplit(s: string, sep: string)
    requires sep != []
    ensures Join(Split(s, sep), sep) == s
    decreases |s|
  {
    var i := Find(s, sep);
    if i != -1 {
      var rest := s[i + |sep|..];
      JoinSplit(rest, sep);
      JoinCons(s[..i], sep, Split(rest, sep));
      SplitAround(s, sep, i);
    }
  }

  lemma JoinCons(x: string, sep: string, parts: seq<string>)
    requires |parts| >= 1
    ensures Join([x] + parts, sep) == x + sep + Join(parts, sep)
  {
    assert ([x] + parts)[1..] == parts;
  }

  lemma SplitAround(s: string, p: string, i: nat)
    requires OccursAt(s, p, i)
    ensures s == s[..i] + p + s[i + |p|..]
  {
    assert s[i..] == s[i..i + |p|] + s[i + |p|..];
    assert s == s[..i] + s[i..];
  }

  /** No piece of a split contains the separator. */
  lemma {:induction false} SplitPiecesAreFree(s: string, sep: string)
    requires sep != []
    ensures forall k :: 0 <= k < |Split(s, sep)| ==> !Contains(Split(s, sep)[k], sep)
    decreases |s|
  {
    var i := Find(s, sep);
    if i != -1 {
      var rest := s[i + |sep|..];
      SplitPiecesAreFree(rest, sep);
      var head := s[..i];
      forall j | OccursAt(head, sep, j) ensures false {
        assert s[j..j + |sep|] == head[j..j + |sep|];
        assert OccursAt(s, sep, j);
      }
    }
  }

  /** The piece after the first separator ends at the next separator. */
  lemma SecondPiece(s: string, sep: string)
    requires sep != [] && Contains(s, sep)
    ensures |Split(s, sep)| >= 2
    ensures var rest := s[Find(s, sep) + |sep|..];
            Split(s, sep)[1] == if Contains(rest, sep) then rest[..Find(rest, sep)] else rest
  {
  }

  /** Python `s.lower()` on ASCII letters. */
  function Lower(s: string): (r: string)
    ensures |r| == |s|
    ensures forall k :: 0 <= k < |s| ==> r[k] == LowerChar(s[k])
  {
    seq(|s|, k requires 0 <= k < |s| => LowerChar(s[k]))
  }

  function LowerChar(c: char): char {
    if 'A' <= c <= 'Z' then (c as int + 32) as char else c
  }

  /** `str(n)` for a natural number. */
  function NatToString(n: nat): (r: string)
    ensures |r| >= 1
    ensures forall k :: 0 <= k < |r| ==> '0' <= r[k] <= '9'
    decreases n
  {
    if n < 10 then [DigitChar(n)] else NatToString(n / 10) + [DigitChar(n % 10)]
  }

  function DigitChar(d: nat): (c: char)
    requires d < 10
    ensures '0' <= c <= '9' && c as int - '0' as int == d
  {
    (d + '0' as int) as char
  }

  /** Reads a string of decimal digits back as a number. */
  function DigitsValue(s: string): nat
    requires forall k :: 0 <= k < |s| ==> '0' <= s[k] <= '9'
  {
    if s == [] then 0 else DigitsValue(s[..|s| - 1]) * 10 + (s[|s| - 1] as int - '0' as int)
  }

  /** Reading back the decimal rendering of `n` gives `n`. */
  lemma {:induction false} DecimalRoundTrip(n: nat)
    ensures DigitsValue(NatToString(n)) == n
    decreases n
  {
    if n >= 10 {
      DecimalRoundTrip(n / 10);
      var s := NatToString(n);
      assert s[..|s| - 1] == NatToString(n / 10);
    }
  }

  /** Distinct numbers have distinct decimal renderings. */
  lemma NatToStringInjective(m: nat, n: nat)
    requires NatToString(m) == NatToString(n)
    ensures m == n
  {
    DecimalRoundTrip(m);
    DecimalRoundTrip(n);
  }
}
