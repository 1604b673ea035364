/** ASCII models of the JavaScript string operations the application uses:
    `toLowerCase`, `trim`, `includes`, `split` on a one-character separator,
    `join`, and the `filter` idioms applied to split results. */
module Text {

  /** The ASCII characters JavaScript's `trim` removes. */
  predicate IsWhitespace(c: char) {
    c == ' ' || c == '\t' || c == '\n' || c == '\U{B}' || c == '\U{C}' || c == '\r'
  }

  predicate AllWhitespace(s: string) {
    forall i :: 0 <= i < |s| ==> IsWhitespace(s[i])
  }

  /** Neither end of `s` is whitespace. */
  predicate IsTrimmed(s: string) {
    s == [] || (!IsWhitespace(s[0]) && !IsWhitespace(s[|s| - 1]))
  }

  function LowerChar(c: char): char {
    if 'A' <= c <= 'Z' then (c as int + 32) as char else c
  }

  /** `s.toLowerCase()` restricted to ASCII letters. */
  function ToLower(s: string): string {
    seq(|s|, i requires 0 <= i < |s| => LowerChar(s[i]))
  }

  lemma {:induction false} ToLowerSlice(s: string, a: nat, b: nat)
    requires a <= b <= |s|
    ensures ToLower(s[a..b]) == ToLower(s)[a..b]
  {
  }

  /** `needle` occurs in `s` starting at index `i`. */
  predicate OccursAt(s: string, needle: string, i: nat) {
    i + |needle| <= |s| && s[i..i + |needle|] == needle
  }

  /** `s.includes(needle)`. */
  predicate Contains(s: string, needle: string) {
    exists i: nat | i <= |s| - |needle| :: OccursAt(s, needle, i)
  }

  lemma {:induction false} ContainsAt(s: string, needle: string, i: nat)
    requires OccursAt(s, needle, i)
    ensures Contains(s, needle)
  {
  }

  lemma {:induction false} PrefixContained(s: string, needle: string)
    requires needle <= s
    ensures Contains(s, needle)
  {
    ContainsAt(s, needle, 0);
  }

  /** Whatever stands between two strings is contained in their concatenation. */
  lemma {:induction false} ContainsMiddle(x: string, y: string, z: string)
    ensures Contains(x + y + z, y)
  {
    var s := x + y + z;
    assert s[|x|..|x| + |y|] == y;
    ContainsAt(s, y, |x|);
  }

  predicate EndsWith(s: string, suffix: string) {
    |suffix| <= |s| && s[|s| - |suffix|..] == suffix
  }

  /** A needle holding a character that never occurs in `s` is not contained in it. */
  lemma {:induction false} CharAbsent(s: string, needle: string, k: nat)
    requires k < |needle| && needle[k] !in s
    ensures !Contains(s, needle)
  {
    forall i: nat | i <= |s| - |needle| ensures !OccursAt(s, needle, i) {
      if i + |needle| <= |s| {
        assert s[i..i + |needle|][k] == s[i + k];
      }
    }
  }

  /** Anything contained in a slice of `s` is contained in `s`. */
  lemma {:induction false} ContainsInSlice(s: string, a: nat, b: nat, needle: string)
    requires a <= b <= |s| && Contains(s[a..b], needle)
    ensures Contains(s, needle)
  {
    var t := s[a..b];
    var i: nat :| i <= |t| - |needle| && OccursAt(t, needle, i);
    var inT, inS := t[i..i + |needle|], s[a + i..a + i + |needle|];
    assert forall j :: 0 <= j < |needle| ==> inT[j] == inS[j];
    assert inT == inS;
    assert OccursAt(s, needle, a + i);
    ContainsAt(s, needle, a + i);
  }

  /** `s.trimStart()`: the suffix left after dropping the maximal whitespace prefix. */
  function TrimStart(s: string): (r: string)
    ensures |r| <= |s| && r == s[|s| - |r|..]
    ensures r == [] || !IsWhitespace(r[0])
  {
    if |s| > 0 && IsWhitespace(s[0]) then TrimStart(s[1..]) else s
  }

  /** `s.trimEnd()`: the prefix left after dropping the maximal whitespace suffix. */
  function TrimEnd(s: string): (r: string)
    ensures |r| <= |s| && r == s[..|r|]
    ensures r == [] || !IsWhitespace(r[|r| - 1])
  {
    if |s| > 0 && IsWhitespace(s[|s| - 1]) then TrimEnd(s[..|s| - 1]) else s
  }

  /** `s.trim()`. */
  function Trim(s: string): string {
    TrimEnd(TrimStart(s))
  }

  /** `trimStart` leaves a suffix, and cuts only whitespace. */
  lemma {:induction false} TrimStartSlice(s: string)
    ensures var t := TrimStart(s); t == s[|s| - |t|..] && AllWhitespace(s[..|s| - |t|])
  {
    if |s| > 0 && IsWhitespace(s[0]) {
      var rest := s[1..];
      TrimStartSlice(rest);
      var t := TrimStart(rest);
      assert TrimStart(s) == t;
      var k := |rest| - |t|;
      var cut := s[..k + 1];
      assert AllWhitespace(rest[..k]);
      forall i | 0 <= i < k + 1
        ensures IsWhitespace(cut[i])
      {
        if i > 0 {
          assert cut[i] == rest[..k][i - 1];
        }
      }
    } else {
      assert s[..0] == [];
    }
  }

  /** `trimEnd` leaves a prefix, and cuts only whitespace. */
  lemma {:induction false} TrimEndSlice(t: string)
    ensures var e := TrimEnd(t); e == t[..|e|] && AllWhitespace(t[|e|..])
  {
    var n := |t|;
    if n > 0 && IsWhitespace(t[n - 1]) {
      var init := t[..n - 1];
      TrimEndSlice(init);
      var e := TrimEnd(init);
      assert TrimEnd(t) == e;
      assert AllWhitespace(init[|e|..]);
      var cut := t[|e|..];
      forall i | 0 <= i < n - |e|
        ensures IsWhitespace(cut[i])
      {
        if i < n - 1 - |e| {
          assert cut[i] == init[|e|..][i];
        }
      }
    } else {
      assert t[n..] == [];
    }
  }

  /** A prefix `e` of a suffix `t` of `s` is a slice of `s`; what the two cuts drop
      is what lies outside the slice. */
  lemma {:induction false} SliceOfSuffix(s: string, t: string, e: string) returns (a: nat, b: nat)
    requires |t| <= |s| && t == s[|s| - |t|..] && AllWhitespace(s[..|s| - |t|])
    requires |e| <= |t| && e == t[..|e|] && AllWhitespace(t[|e|..])
    ensures a <= b <= |s| && e == s[a..b]
    ensures AllWhitespace(s[..a]) && AllWhitespace(s[b..])
  {
    a := |s| - |t|;
    b := a + |e|;
    assert s[b..] == t[|e|..];
  }

  /** The trim of `s` is a slice of `s`, both of whose ends are not whitespace,
      and everything cut away is whitespace. */
  lemma {:induction false} TrimIsSlice(s: string) returns (a: nat, b: nat)
    ensures a <= b <= |s| && Trim(s) == s[a..b]
    ensures IsTrimmed(Trim(s))
    ensures AllWhitespace(s[..a]) && AllWhitespace(s[b..])
  {
    var t := TrimStart(s);
    TrimStartSlice(s);
    TrimEndSlice(t);
    a, b := SliceOfSuffix(s, t, TrimEnd(t));
    TrimTrimmed(s);
  }

  /** Neither end of a trimmed string is whitespace. */
  lemma {:induction false} TrimTrimmed(s: string)
    ensures IsTrimmed(Trim(s))
  {
    var t := TrimStart(s);
    var e := TrimEnd(t);
    if e != [] {
      assert e == t[..|e|] && e[0] == t[0];
    }
  }

  lemma {:induction false} TrimStartPadded(front: string, rest: string)
    requires AllWhitespace(front) && rest != [] && !IsWhitespace(rest[0])
    ensures TrimStart(front + rest) == rest
  {
    if front != [] {
      assert (front + rest)[1..] == front[1..] + rest;
      TrimStartPadded(front[1..], rest);
    }
  }

  lemma {:induction false} TrimEndPadded(rest: string, back: string)
    requires AllWhitespace(back) && rest != [] && !IsWhitespace(rest[|rest| - 1])
    ensures TrimEnd(rest + back) == rest
  {
    if back != [] {
      var s := rest + back;
      assert s[..|s| - 1] == rest + back[..|back| - 1];
      TrimEndPadded(rest, back[..|back| - 1]);
    } else {
      assert rest + back == rest;
    }
  }

  /** Trimming removes exactly the whitespace padding around a trimmed core. */
  lemma {:induction false} TrimPadded(front: string, core: string, back: string)
    requires AllWhitespace(front) && AllWhitespace(back)
    requires core != [] && IsTrimmed(core)
    ensures Trim(front + core + back) == core
  {
    assert front + core + back == front + (core + back);
    TrimStartPadded(front, core + back);
    TrimEndPadded(core, back);
  }

  lemma {:induction false} TrimOfTrimmed(s: string)
    requires IsTrimmed(s)
    ensures Trim(s) == s
  {
  }

  /** `trim` is idempotent. */
  lemma {:induction false} TrimIdempotent(s: string)
    ensures Trim(Trim(s)) == Trim(s)
  {
    var _, _ := TrimIsSlice(s);
    TrimOfTrimmed(Trim(s));
  }

  /** A template literal: its literal and interpolated parts, in order. */
  function Concat(parts: seq<string>): string {
    if parts == [] then "" else parts[0] + Concat(parts[1..])
  }

  lemma {:induction false} ConcatSingle(x: string)
    ensures Concat([x]) == x
  {
    assert [x][1..] == [];
  }

  /** A template splits at any part boundary. */
  lemma {:induction false} ConcatSplit(parts: seq<string>, k: nat)
    requires k <= |parts|
    ensures Concat(parts) == Concat(parts[..k]) + Concat(parts[k..])
  {
    if k > 0 {
      ConcatSplit(parts[1..], k - 1);
      assert parts[1..][..k - 1] == parts[..k][1..];
      assert parts[1..][k - 1..] == parts[k..];
    }
  }

  /** A string ends with whatever is appended last. */
  lemma {:induction false} EndsWithAppended(x: string, y: string)
    ensures EndsWith(x + y, y)
  {
    assert (x + y)[|x|..] == y;
  }

  /** Any run of consecutive parts occurs in the whole template. */
  lemma {:induction false} ConcatRun(parts: seq<string>, i: nat, j: nat)
    requires i <= j <= |parts|
    ensures Concat(parts[..i]) + Concat(parts[i..j]) + Concat(parts[j..]) == Concat(parts)
    ensures Contains(Concat(parts), Concat(parts[i..j]))
    ensures Concat(parts[..j]) <= Concat(parts)
    ensures EndsWith(Concat(parts), Concat(parts[i..]))
  {
    var front, run, back := Concat(parts[..i]), Concat(parts[i..j]), Concat(parts[j..]);
    ConcatSplit(parts, j);
    ConcatSplit(parts[..j], i);
    assert parts[..j][..i] == parts[..i];
    assert parts[..j][i..] == parts[i..j];
    assert Concat(parts[..j]) == front + run;
    ConcatSplit(parts, i);
    ContainsMiddle(front, run, back);
    EndsWithAppended(front, Concat(parts[i..]));
  }

  /** A run of parts starts with its first part. */
  lemma {:induction false} ConcatStep(parts: seq<string>, i: nat, j: nat)
    requires i < j <= |parts|
    ensures Concat(parts[i..j]) == parts[i] + Concat(parts[i + 1..j])
  {
    assert parts[i..j][1..] == parts[i + 1..j];
  }

  /** Anything contained in `m` is contained in `m` with text on either side. */
  lemma {:induction false} ContainsFramed(a: string, m: string, b: string, needle: string)
    requires Contains(m, needle)
    ensures Contains(a + m + b, needle)
  {
    var s := a + m + b;
    assert s[|a|..|a| + |m|] == m;
    ContainsInSlice(s, |a|, |a| + |m|, needle);
  }

  /** `a` followed by a prefix of `m` is a prefix of `m` with text before and after it. */
  lemma {:induction false} PrefixFramed(a: string, m: string, b: string, prefix: string)
    requires prefix <= m
    ensures a + prefix <= a + m + b
  {
    var s := a + m + b;
    assert s[..|a + prefix|] == a + m[..|prefix|];
  }

  /** A suffix of `m` followed by `b` is a suffix of `m` with text before it and `b` after it. */
  lemma {:induction false} EndsWithFramed(a: string, m: string, b: string, suffix: string)
    requires EndsWith(m, suffix)
    ensures EndsWith(a + m + b, suffix + b)
  {
    var s := a + m + b;
    assert s[|s| - |suffix + b|..] == m[|m| - |suffix|..] + b;
  }

  /** A template of at least two parts is its first part, the parts between, and its last part. */
  lemma {:induction false} ConcatFrame(parts: seq<string>)
    requires |parts| >= 2
    ensures Concat(parts) == parts[0] + Concat(parts[1..|parts| - 1]) + parts[|parts| - 1]
  {
    var n := |parts|;
    ConcatRun(parts, 1, n - 1);
    ConcatSingle(parts[0]);
    assert parts[..1] == [parts[0]];
    ConcatSingle(parts[n - 1]);
    assert parts[n - 1..] == [parts[n - 1]];
  }

  lemma {:induction false} ConcatTriple(parts: seq<string>, i: nat)
    requires i + 3 <= |parts|
    ensures Concat(parts[i..i + 3]) == parts[i] + parts[i + 1] + parts[i + 2]
  {
    ConcatStep(parts, i, i + 3);
    ConcatStep(parts, i + 1, i + 3);
    ConcatStep(parts, i + 2, i + 3);
    assert parts[i + 3..i + 3] == [];
  }

  /** Three consecutive parts, read together, occur in the whole template. */
  lemma {:induction false} ConcatWindow(parts: seq<string>, i: nat)
    requires i + 3 <= |parts|
    ensures Contains(Concat(parts), parts[i] + parts[i + 1] + parts[i + 2])
  {
    ConcatRun(parts, i, i + 3);
    ConcatTriple(parts, i);
  }

  /** The first three parts start the template. */
  lemma {:induction false} ConcatHead(parts: seq<string>)
    requires 3 <= |parts|
    ensures parts[0] + parts[1] + parts[2] <= Concat(parts)
  {
    ConcatSplit(parts, 3);
    ConcatTriple(parts, 0);
    assert parts[..3] == parts[0..3];
  }

  /** The last three parts end the template. */
  lemma {:induction false} ConcatTail(parts: seq<string>)
    requires 3 <= |parts|
    ensures var n := |parts|; EndsWith(Concat(parts), parts[n - 3] + parts[n - 2] + parts[n - 1])
  {
    var n := |parts|;
    ConcatSplit(parts, n - 3);
    ConcatTriple(parts, n - 3);
    assert parts[n - 3..] == parts[n - 3..n];
    var x, y := Concat(parts[..n - 3]), Concat(parts[n - 3..]);
    assert (x + y)[|x + y| - |y|..] == y;
  }

  /** The last two and the last four parts end the template. */
  lemma {:induction false} ConcatLastFour(parts: seq<string>)
    requires 4 <= |parts|
    ensures var n := |parts|; Concat(parts[n - 2..]) == parts[n - 2] + parts[n - 1]
    ensures var n := |parts|; Concat(parts[n - 4..]) == parts[n - 4] + parts[n - 3] + parts[n - 2] + parts[n - 1]
  {
    var n := |parts|;
    var last := parts[n - 2..];
    ConcatStep(last, 0, 2);
    ConcatStep(last, 1, 2);
    assert last[2..] == [];
    var four := parts[n - 4..];
    ConcatStep(four, 0, 4);
    ConcatStep(four, 1, 4);
    assert four[2..] == last;
    var a, b, c, d := parts[n - 4], parts[n - 3], parts[n - 2], parts[n - 1];
    assert a + (b + (c + d)) == a + b + c + d;
  }

  /** Trimming a template whose first part opens with whitespace before `head`
      and whose last part closes with whitespace after `tail` cuts exactly that
      outer padding, whatever the parts in between hold. */
  lemma {:induction false} TrimFramed(parts: seq<string>, front: string, head: string, tail: string, back: string)
    requires |parts| >= 2 && parts[0] == front + head && parts[|parts| - 1] == tail + back
    requires AllWhitespace(front) && AllWhitespace(back)
    requires head != [] && !IsWhitespace(head[0]) && tail != [] && !IsWhitespace(tail[|tail| - 1])
    ensures Trim(Concat(parts)) == head + Concat(parts[1..|parts| - 1]) + tail
  {
    var mid := Concat(parts[1..|parts| - 1]);
    ConcatFrame(parts);
    var core := head + mid + tail;
    assert Concat(parts) == front + core + back;
    assert core[0] == head[0];
    assert core[|core| - 1] == tail[|tail| - 1];
    TrimPadded(front, core, back);
  }

  /** Number of occurrences of `c` in `s`. */
  function Count(c: char, s: string): nat {
    if s == [] then 0 else (if s[0] == c then 1 else 0) + Count(c, s[1..])
  }

  /** `s.split(sep)` for a one-character separator: always at least one piece,
      and no piece contains the separator. */
  function Split(s: string, sep: char): (r: seq<string>)
    ensures |r| >= 1
    ensures forall k :: 0 <= k < |r| ==> sep !in r[k]
  {
    if s == [] then [""]
    else if s[0] == sep then [""] + Split(s[1..], sep)
    else
      var rest := Split(s[1..], sep);
      [[s[0]] + rest[0]] + rest[1..]
  }

  /** `parts.join(sep)`. */
  function Join(parts: seq<string>, sep: string): string {
    if parts == [] then ""
    else if |parts| == 1 then parts[0]
    else parts[0] + sep + Join(parts[1..], sep)
  }

  /** Splitting yields one piece more than there are separators. */
  lemma {:induction false} SplitCount(s: string, sep: char)
    ensures |Split(s, sep)| == Count(sep, s) + 1
  {
    if s != [] {
      SplitCount(s[1..], sep);
    }
  }

  /** Joining the pieces of a split with the separator gives the string back. */
  lemma {:induction false} JoinSplit(s: string, sep: char)
    ensures Join(Split(s, sep), [sep]) == s
  {
    if s == [] {
    } else if s[0] == sep {
      JoinSplit(s[1..], sep);
      assert s == [sep] + s[1..];
    } else {
      JoinSplit(s[1..], sep);
      var rest := Split(s[1..], sep);
      if |rest| == 1 {
        assert s == [s[0]] + s[1..];
      } else {
        assert Join(rest, [sep]) == rest[0] + [sep] + Join(rest[1..], [sep]);
        assert s == [s[0]] + rest[0] + [sep] + Join(rest[1..], [sep]);
      }
    }
  }

  predicate NoneContain(parts: seq<string>, c: char) {
    forall k :: 0 <= k < |parts| ==> c !in parts[k]
  }

  predicate NoneEmpty(parts: seq<string>) {
    forall k :: 0 <= k < |parts| ==> parts[k] != ""
  }

  /** `parts.filter(Boolean)`: the non-empty parts, in order. */
  function NonEmpty(parts: seq<string>): (r: seq<string>)
    ensures NoneEmpty(r) && |r| <= |parts|
  {
    if parts == [] then []
    else if parts[0] == "" then NonEmpty(parts[1..])
    else [parts[0]] + NonEmpty(parts[1..])
  }

  /** `parts.filter(p => p.trim())`: the parts holding a non-whitespace character, untrimmed. */
  function NonBlank(parts: seq<string>): (r: seq<string>)
    ensures |r| <= |parts|
    ensures forall y :: y in r <==> y in parts && Trim(y) != ""
  {
    if parts == [] then []
    else if Trim(parts[0]) == "" then NonBlank(parts[1..])
    else [parts[0]] + NonBlank(parts[1..])
  }

  /** Filtering works piecewise, so the kept parts stay in their original order. */
  lemma {:induction false} NonBlankAppend(a: seq<string>, b: seq<string>)
    ensures NonBlank(a + b) == NonBlank(a) + NonBlank(b)
  {
    if a == [] {
      assert a + b == b;
    } else {
      var ab := a + b;
      assert ab[0] == a[0] && ab[1..] == a[1..] + b;
      NonBlankAppend(a[1..], b);
      if Trim(a[0]) == "" {
        assert NonBlank(ab) == NonBlank(a[1..] + b);
      } else {
        assert NonBlank(ab) == [a[0]] + NonBlank(a[1..] + b);
      }
    }
  }

  /** `parts.map(p => p.trim())`. */
  function TrimAll(parts: seq<string>): (r: seq<string>)
    ensures |r| == |parts|
    ensures forall k :: 0 <= k < |r| ==> r[k] == Trim(parts[k])
  {
    if parts == [] then [] else [Trim(parts[0])] + TrimAll(parts[1..])
  }

  /** `parts.filter(p => p !== x)`. */
  function RemoveAll(parts: seq<string>, x: string): (r: seq<string>)
    ensures |r| <= |parts| && x !in r
    ensures forall y :: y in parts && y != x ==> y in r
    ensures forall y :: y in r ==> y in parts
  {
    if parts == [] then []
    else if parts[0] == x then RemoveAll(parts[1..], x)
    else [parts[0]] + RemoveAll(parts[1..], x)
  }

  lemma {:induction false} NonEmptyOfNoneEmpty(parts: seq<string>)
    requires NoneEmpty(parts)
    ensures NonEmpty(parts) == parts
  {
    if parts != [] {
      NonEmptyOfNoneEmpty(parts[1..]);
    }
  }

  lemma {:induction false} JoinCons(x: string, parts: seq<string>, sep: string)
    requires parts != []
    ensures Join([x] + parts, sep) == x + sep + Join(parts, sep)
  {
    assert ([x] + parts)[1..] == parts;
  }

  /** Splitting a join of non-empty, separator-free parts and dropping the empty
      pieces recovers the parts, so a comma-joined selection list round-trips. */
  lemma {:induction false} SplitJoin(parts: seq<string>, sep: char)
    requires NoneEmpty(parts) && NoneContain(parts, sep)
    ensures NonEmpty(Split(Join(parts, [sep]), sep)) == parts
  {
    if parts == [] {
    } else if |parts| == 1 {
      SplitNoSep(parts[0], sep);
    } else {
      var tail := parts[1..];
      SplitJoin(tail, sep);
      JoinCons(parts[0], tail, [sep]);
      assert parts == [parts[0]] + tail;
      SplitPrefix(parts[0], Join(tail, [sep]), sep);
      NonEmptyOfNoneEmpty([parts[0]]);
    }
  }

  lemma {:induction false} SplitNoSep(s: string, sep: char)
    requires sep !in s
    ensures Split(s, sep) == [s]
  {
    if s != [] {
      SplitNoSep(s[1..], sep);
      assert [s[0]] + s[1..] == s;
    }
  }

  /** Splitting `x + sep + rest` when `x` holds no separator puts `x` first. */
  lemma {:induction false} SplitPrefix(x: string, rest: string, sep: char)
    requires sep !in x
    ensures Split(x + [sep] + rest, sep) == [x] + Split(rest, sep)
  {
    if x == [] {
      assert [] + [sep] + rest == [sep] + rest;
      assert ([sep] + rest)[1..] == rest;
    } else {
      var s := x + [sep] + rest;
      assert s[1..] == x[1..] + [sep] + rest;
      SplitPrefix(x[1..], rest, sep);
      assert [x[0]] + x[1..] == x;
    }
  }
}
