/** Python's `str` operations that the report engine uses, over `seq<char>`:
    `split`, `join`, `replace`, `in`, `lstrip`, `capitalize`, slicing that
    clamps at the ends, `list.index` and `list.remove`. */
module Text {

  predicate StartsWith(s: string, prefix: string) {
    |prefix| <= |s| && s[..|prefix|] == prefix
  }

  /** `sub in s`. */
  predicate Contains(s: string, sub: string)
    decreases |s|
  {
    StartsWith(s, sub) || (|s| > 0 && Contains(s[1..], sub))
  }

  /** `sep` starts at position `p` of `s`. */
  predicate OccursAt(s: string, sep: string, p: int) {
    0 <= p && p + |sep| <= |s| && s[p..p + |sep|] == sep
  }

  /** An occurrence at any position makes `Contains` hold. */
  lemma {:induction false} OccursContains(s: string, sub: string, p: int)
    requires OccursAt(s, sub, p)
    ensures Contains(s, sub)
    decreases p
  {
    if p == 0 {
      assert s[..|sub|] == s[0..0 + |sub|];
    } else {
      assert s[1..][p - 1..p - 1 + |sub|] == s[p..p + |sub|];
      OccursContains(s[1..], sub, p - 1);
    }
  }

  /** `Contains` finds an actual occurrence. */
  lemma {:induction false} ContainsOccurs(s: string, sub: string) returns (p: int)
    requires Contains(s, sub)
    ensures OccursAt(s, sub, p)
    decreases |s|
  {
    if StartsWith(s, sub) {
      p := 0;
      assert s[0..0 + |sub|] == s[..|sub|];
    } else {
      var q := ContainsOccurs(s[1..], sub);
      p := q + 1;
      assert s[p..p + |sub|] == s[1..][q..q + |sub|];
    }
  }

  /** The scan behind `s.split(sep)`: `cur` is the part collected so far. */
  function SplitFrom(s: string, sep: string, cur: string): (r: seq<string>)
    requires |sep| > 0
    ensures |r| >= 1
    decreases |s|
  {
    if |s| == 0 then [cur]
    else if StartsWith(s, sep) then [cur] + SplitFrom(s[|sep|..], sep, "")
    else SplitFrom(s[1..], sep, cur + [s[0]])
  }

  /** `s.split(sep)` for a non-empty separator. */
  function SplitOn(s: string, sep: string): (r: seq<string>)
    requires |sep| > 0
    ensures |r| >= 1
  {
    SplitFrom(s, sep, "")
  }

  /** `s.split(c)` for a one-character separator. */
  function Split(s: string, c: char): (r: seq<string>)
    ensures |r| >= 1
  {
    SplitOn(s, [c])
  }

  /** `sep.join(parts)`. */
  function Join(parts: seq<string>, sep: string): string
  {
    if |parts| == 0 then ""
    else if |parts| == 1 then parts[0]
    else parts[0] + sep + Join(parts[1..], sep)
  }

  lemma {:induction false} JoinSplitFrom(s: string, sep: string, cur: string)
    requires |sep| > 0
    ensures Join(SplitFrom(s, sep, cur), sep) == cur + s
    decreases |s|
  {
    if |s| == 0 {
    } else if StartsWith(s, sep) {
      JoinSplitFrom(s[|sep|..], sep, "");
      assert s == sep + s[|sep|..];
    } else {
      JoinSplitFrom(s[1..], sep, cur + [s[0]]);
      assert cur + [s[0]] + s[1..] == cur + s;
    }
  }

  /** Joining the parts of a split with the same separator gives back the input. */
  lemma JoinSplit(s: string, sep: string)
    requires |sep| > 0
    ensures Join(SplitOn(s, sep), sep) == s
  {
    JoinSplitFrom(s, sep, "");
  }

  /** No proper prefix of `sep` is also a suffix of it ("; " has this property). */
  predicate Unbordered(sep: string) {
    forall k :: 0 < k < |sep| ==> sep[k..] != sep[..|sep| - k]
  }

  /** The scan copies the first `n` characters into the current part when no
      separator starts among them. */
  lemma {:induction false} ScanPlain(u: string, n: nat, sep: string, cur: string)
    requires |sep| > 0 && n <= |u|
    requires forall p :: 0 <= p < n ==> !OccursAt(u, sep, p)
    ensures SplitFrom(u, sep, cur) == SplitFrom(u[n..], sep, cur + u[..n])
    decreases n
  {
    if n > 0 {
      assert !OccursAt(u, sep, 0);
      assert !StartsWith(u, sep);
      var u' := u[1..];
      forall p | 0 <= p < n - 1 ensures !OccursAt(u', sep, p) {
        assert !OccursAt(u, sep, p + 1);
        if p + |sep| <= |u'| {
          assert u'[p..p + |sep|] == u[p + 1..p + 1 + |sep|];
        }
      }
      ScanPlain(u', n - 1, sep, cur + [u[0]]);
      assert u'[n - 1..] == u[n..];
      assert cur + [u[0]] + u'[..n - 1] == cur + u[..n];
    } else {
      assert u[0..] == u && cur + u[..0] == cur;
    }
  }

  /** A separator starting inside `x` in `x + sep + t` is either inside `x`
      or overlaps `sep` with itself. */
  lemma EarlySep(x: string, sep: string, t: string, p: int)
    requires |sep| > 0 && 0 <= p < |x| && OccursAt(x + sep + t, sep, p)
    ensures Contains(x, sep) || !Unbordered(sep)
  {
    var u := x + sep + t;
    if p + |sep| <= |x| {
      assert x[p..p + |sep|] == u[p..p + |sep|];
      OccursContains(x, sep, p);
    } else {
      var k := |x| - p;
      assert u[p + k..p + |sep|] == u[p..p + |sep|][k..];
      assert u[p + k..p + |sep|] == sep[..|sep| - k];
      assert sep[k..] == sep[..|sep| - k];
    }
  }

  /** In `x + sep + t`, no separator starts inside `x` when `x` does not
      contain one and `sep` is unbordered. */
  lemma NoEarlySep(x: string, sep: string, t: string)
    requires |sep| > 0 && Unbordered(sep) && !Contains(x, sep)
    ensures forall p :: 0 <= p < |x| ==> !OccursAt(x + sep + t, sep, p)
  {
    forall p | 0 <= p < |x| && OccursAt(x + sep + t, sep, p) ensures false {
      EarlySep(x, sep, t, p);
    }
  }

  lemma {:induction false} SplitJoinFrom(parts: seq<string>, sep: string)
    requires |sep| > 0 && Unbordered(sep) && |parts| >= 1
    requires forall i :: 0 <= i < |parts| ==> !Contains(parts[i], sep)
    ensures SplitOn(Join(parts, sep), sep) == parts
    decreases |parts|
  {
    var x := parts[0];
    if |parts| == 1 {
      forall p | 0 <= p < |x| && OccursAt(x, sep, p) ensures false {
        OccursContains(x, sep, p);
      }
      ScanPlain(x, |x|, sep, "");
      assert x[|x|..] == "" && "" + x[..|x|] == x;
    } else {
      var t := Join(parts[1..], sep);
      var u := x + sep + t;
      assert Join(parts, sep) == u;
      NoEarlySep(x, sep, t);
      ScanPlain(u, |x|, sep, "");
      assert u[..|x|] == x;
      assert u[|x|..] == sep + t;
      assert StartsWith(sep + t, sep) by { assert (sep + t)[..|sep|] == sep; }
      assert (sep + t)[|sep|..] == t;
      assert "" + u[..|x|] == x;
      assert SplitFrom(sep + t, sep, x) == [x] + SplitFrom(t, sep, "");
      SplitJoinFrom(parts[1..], sep);
      assert SplitFrom(u, sep, "") == [x] + SplitOn(t, sep);
    }
  }

  /** Splitting a join gives back the parts, when no part contains the
      separator and the separator cannot overlap itself. */
  lemma SplitJoin(parts: seq<string>, sep: string)
    requires |sep| > 0 && Unbordered(sep) && |parts| >= 1
    requires forall i :: 0 <= i < |parts| ==> !Contains(parts[i], sep)
    ensures SplitOn(Join(parts, sep), sep) == parts
  {
    SplitJoinFrom(parts, sep);
  }

  /** The last part of a one-character split holds no separator and is what
      follows the last separator (or the whole input). */
  lemma {:induction false} LastPartFrom(s: string, c: char, cur: string, w: string)
    requires c !in cur && w == cur + s
    ensures LastPartOf(w, c, Last(SplitFrom(s, [c], cur)))
    decreases |s|
  {
    if |s| == 0 {
      assert w == cur && w[|w| - |cur|..] == cur;
    } else {
      var rest := s[1..];
      assert s == [s[0]] + rest;
      AppendAssociates(cur, [s[0]], rest);
      if StartsWith(s, [c]) {
        var t := Last(SplitFrom(rest, [c], ""));
        assert Last(SplitFrom(s, [c], cur)) == t;
        LastPartFrom(rest, c, "", rest);
        LastPartAfter(cur + [s[0]], rest, c, t);
      } else {
        LastPartFrom(rest, c, cur + [s[0]], w);
      }
    }
  }

  lemma AppendAssociates<T>(a: seq<T>, b: seq<T>, c: seq<T>)
    ensures (a + b) + c == a + (b + c)
  {
  }

  /** Text ending in `c` before a tail leaves the tail's last part last. */
  lemma LastPartAfter(front: string, tail: string, c: char, t: string)
    requires |front| > 0 && front[|front| - 1] == c && LastPartOf(tail, c, t)
    ensures LastPartOf(front + tail, c, t)
  {
    var w := front + tail;
    assert w[|w| - |t|..] == tail[|tail| - |t|..];
    if |t| == |tail| {
      assert w[|w| - |t| - 1] == front[|front| - 1];
    } else {
      assert w[|w| - |t| - 1] == tail[|tail| - |t| - 1];
    }
  }

  /** `t` is the text after the last `c` in `w`, or all of `w`. */
  predicate LastPartOf(w: string, c: char, t: string) {
    c !in t && |t| <= |w| && t == w[|w| - |t|..] &&
    (|t| < |w| ==> w[|w| - |t| - 1] == c)
  }

  /** `s.split(c)[-1]`: the text after the last `c`, or all of `s`. */
  lemma LastPart(s: string, c: char)
    ensures LastPartOf(s, c, Last(Split(s, c)))
  {
    LastPartFrom(s, c, "", s);
  }

  /** A string none of whose characters is `c` does not contain `[c]`. */
  lemma {:induction false} NoCharNoContains(s: string, c: char)
    requires forall i :: 0 <= i < |s| ==> s[i] != c
    ensures !Contains(s, [c])
    decreases |s|
  {
    if |s| > 0 {
      assert s[..1] == [s[0]];
      NoCharNoContains(s[1..], c);
    }
  }

  /** `s.replace(old, new)` for a non-empty `old`: Python replaces the same
      non-overlapping, left-to-right occurrences that `split` cuts at. */
  function ReplaceAll(s: string, pattern: string, replacement: string): string
    requires |pattern| > 0
  {
    Join(SplitOn(s, pattern), replacement)
  }

  /** `s[n:]`, which is empty when `n` is past the end. */
  function DropPrefix(s: string, n: nat): (r: string)
    ensures |r| == if n <= |s| then |s| - n else 0
    ensures n <= |s| ==> r == s[n..]
  {
    if n <= |s| then s[n..] else ""
  }

  /** `s[:-1]`, which is empty for the empty string. */
  function DropLast(s: string): (r: string)
    ensures |s| > 0 ==> s == r + [s[|s| - 1]]
    ensures |s| == 0 ==> r == ""
  {
    if |s| == 0 then "" else s[..|s| - 1]
  }

  /** `s.lstrip(chars)`: removes the longest prefix made of characters in
      `chars`, a character SET, not a prefix string. */
  function LStrip(s: string, chars: set<char>): (r: string)
    ensures |r| <= |s| && r == s[|s| - |r|..]
    ensures r == "" || r[0] !in chars
    ensures forall i :: 0 <= i < |s| - |r| ==> s[i] in chars
    decreases |s|
  {
    if |s| > 0 && s[0] in chars then LStrip(s[1..], chars) else s
  }

  /** `lstrip` stops at the first character it does not strip. */
  lemma LStripStopsAt(s: string, chars: set<char>, k: nat)
    requires k < |s| && s[k] !in chars
    requires forall i :: 0 <= i < k ==> s[i] in chars
    ensures LStrip(s, chars) == s[k..]
  {
  }

  /** The set of characters of a string, as `lstrip` reads its argument. */
  function CharSet(s: string): set<char> {
    set i | 0 <= i < |s| :: s[i]
  }

  /** `xs.index(x)`: the first position holding `x`. */
  function IndexOf<T(==)>(xs: seq<T>, x: T): (i: nat)
    requires x in xs
    ensures i < |xs| && xs[i] == x
    ensures forall j :: 0 <= j < i ==> xs[j] != x
  {
    if xs[0] == x then 0 else 1 + IndexOf(xs[1..], x)
  }

  function Last<T>(xs: seq<T>): T
    requires |xs| > 0
  {
    xs[|xs| - 1]
  }

  /** `xs.remove(x)` on a list that holds `x`: drops its first occurrence. */
  function RemoveFirst<T(==)>(xs: seq<T>, x: T): seq<T>
    requires x in xs
  {
    xs[..IndexOf(xs, x)] + xs[IndexOf(xs, x) + 1..]
  }

  /** `str(n)` for an integer. */
  function IntToString(n: int): string {
    if n < 0 then "-" + NatToString(-n) else NatToString(n)
  }

  function NatToString(n: nat): (r: string)
    ensures |r| > 0
    decreases n
  {
    if n < 10 then [DigitChar(n)] else NatToString(n / 10) + [DigitChar(n % 10)]
  }

  function DigitChar(d: nat): char
    requires d < 10
  {
    ('0' as int + d) as char
  }

  /** Upper case for the Latin and Cyrillic letters the report uses. */
  function ToUpper(c: char): char {
    if 'a' <= c <= 'z' || 'а' <= c <= 'я' then (c as int - 32) as char
    else if 'ѐ' <= c <= 'џ' then (c as int - 80) as char
    else c
  }

  function ToLower(c: char): char {
    if 'A' <= c <= 'Z' || 'А' <= c <= 'Я' then (c as int + 32) as char
    else if 'Ѐ' <= c <= 'Џ' then (c as int + 80) as char
    else c
  }

  predicate IsUpper(c: char) {
    'A' <= c <= 'Z' || 'А' <= c <= 'Я' || 'Ѐ' <= c <= 'Џ'
  }

  function LowerAll(s: string): (r: string)
    ensures |r| == |s| && forall i :: 0 <= i < |s| ==> r[i] == ToLower(s[i])
  {
    if |s| == 0 then "" else [ToLower(s[0])] + LowerAll(s[1..])
  }

  /** `s.capitalize()`: first character upper case, the rest lower case. */
  function Capitalize(s: string): (r: string)
    ensures |r| == |s|
    ensures |s| > 0 ==> r[0] == ToUpper(s[0]) && r[1..] == LowerAll(s[1..])
  {
    if |s| == 0 then "" else [ToUpper(s[0])] + LowerAll(s[1..])
  }

  /** Capitalising a string whose tail has no capital letters changes only
      its first character. */
  lemma CapitalizeLowerTail(s: string)
    requires |s| > 0 && forall i :: 1 <= i < |s| ==> !IsUpper(s[i])
    ensures Capitalize(s) == [ToUpper(s[0])] + s[1..]
  {
    assert LowerAll(s[1..]) == s[1..];
  }

  /** Python's `<` on strings: lexicographic by code point. */
  predicate LexLess(a: string, b: string)
    decreases |a|
  {
    if |a| == 0 then |b| > 0
    else if |b| == 0 then false
    else if a[0] != b[0] then a[0] < b[0]
    else LexLess(a[1..], b[1..])
  }

  /** `sorted(xs)` of distinct strings yields a strictly increasing list. */
  predicate StrictlySorted(xs: seq<string>) {
    forall i, j :: 0 <= i < j < |xs| ==> LexLess(xs[i], xs[j])
  }
}
