/** The handful of Python `str` operations the core relies on, stated over
    `seq<char>`: `strip`/`lstrip` with a character set, ASCII `lower`,
    `find`/`rfind`/`count` of one character, `join` and `split` on one separator, and
    `%d` rendering of a natural number. */
module Text {
  import opened Results

  /** The characters Python's argument-less `str.strip()` removes (those below U+0100). */
  const Whitespace: set<char> :=
    {' ', '\t', '\n', '\r', '\U{000B}', '\U{000C}', '\U{001C}', '\U{001D}', '\U{001E}', '\U{001F}',
     '\U{0085}', '\U{00A0}'}

  /** Length of the longest prefix of `s` made only of characters in `cs`. */
  function LeadCount(s: string, cs: set<char>): (n: nat)
    ensures n <= |s|
    ensures forall k :: 0 <= k < n ==> s[k] in cs
    ensures n < |s| ==> s[n] !in cs
  {
    if |s| == 0 || s[0] !in cs then 0 else 1 + LeadCount(s[1..], cs)
  }

  /** Length of the longest suffix of `s` made only of characters in `cs`. */
  function TrailCount(s: string, cs: set<char>): (n: nat)
    ensures n <= |s|
    ensures forall k :: |s| - n <= k < |s| ==> s[k] in cs
    ensures n < |s| ==> s[|s| - n - 1] !in cs
  {
    if |s| == 0 || s[|s| - 1] !in cs then 0 else 1 + TrailCount(s[..|s| - 1], cs)
  }

  /** A prefix of characters in `cs` ended by one outside it has exactly that length. */
  lemma LeadCountIs(s: string, cs: set<char>, n: nat)
    requires n <= |s|
    requires forall k :: 0 <= k < n ==> s[k] in cs
    requires n < |s| ==> s[n] !in cs
    ensures LeadCount(s, cs) == n
  {
  }

  /** `s.lstrip(chars)`: removes leading characters that belong to the SET `cs`
      (not a prefix string), as many as there are. */
  function LStrip(s: string, cs: set<char>): (r: string)
    ensures |r| <= |s| && r == s[|s| - |r|..]
    ensures forall k :: 0 <= k < |s| - |r| ==> s[k] in cs
    ensures |r| > 0 ==> r[0] !in cs
  {
    s[LeadCount(s, cs)..]
  }

  /** `s.rstrip(chars)`. */
  function RStrip(s: string, cs: set<char>): (r: string)
    ensures |r| <= |s| && r == s[..|r|]
    ensures forall k :: |r| <= k < |s| ==> s[k] in cs
    ensures |r| > 0 ==> r[|r| - 1] !in cs
  {
    s[..|s| - TrailCount(s, cs)]
  }

  /** `s.strip(chars)`: the longest run of `cs` characters is removed from each end;
      what is left is a contiguous piece of `s` that neither starts nor ends in `cs`. */
  function StripChars(s: string, cs: set<char>): (r: string)
    ensures LeadCount(s, cs) + |r| <= |s|
    ensures r == s[LeadCount(s, cs)..LeadCount(s, cs) + |r|]
    ensures forall k :: LeadCount(s, cs) + |r| <= k < |s| ==> s[k] in cs
    ensures |r| > 0 ==> r[0] !in cs && r[|r| - 1] !in cs
  {
    RStrip(LStrip(s, cs), cs)
  }

  /** A character outside `cs` bounds the stripped prefix. */
  lemma LeadStopsAt(s: string, cs: set<char>, i: nat)
    requires i < |s| && s[i] !in cs
    ensures LeadCount(s, cs) <= i
  {
  }

  /** A character outside `cs` is kept by `strip`. */
  lemma StripKeeps(s: string, cs: set<char>, j: nat)
    requires j < |s| && s[j] !in cs
    ensures LeadCount(s, cs) + |StripChars(s, cs)| > j
  {
  }

  /** Stripping text that has a piece `m` in the middle, with `m` starting and ending
      outside `cs`, removes only parts of what surrounds `m`. */
  lemma StripAround(p: string, m: string, q: string, cs: set<char>) returns (p': string, q': string)
    requires |m| > 0 && m[0] !in cs && m[|m| - 1] !in cs
    ensures StripChars(p + m + q, cs) == p' + m + q'
    ensures |p'| <= |p| && p' == p[|p| - |p'|..]
    ensures |q'| <= |q| && q' == q[..|q'|]
  {
    var s := p + m + q;
    assert s[|p|] == m[0];
    assert s[|p| + |m| - 1] == m[|m| - 1];
    LeadStopsAt(s, cs, |p|);
    StripKeeps(s, cs, |p| + |m| - 1);
    var a := LeadCount(s, cs);
    var c := StripChars(s, cs);
    SliceAcross(p, m, q, a, a + |c|);
    p' := p[a..];
    q' := q[..a + |c| - |p| - |m|];
    calc {
      c;
      s[a..a + |c|];
      p' + m + q';
    }
  }

  /** A slice of `p + m + q` that covers all of `m` is a tail of `p`, `m`, and a head of `q`. */
  lemma SliceAcross(p: string, m: string, q: string, a: nat, e: nat)
    requires a <= |p| && |p| + |m| <= e <= |p| + |m| + |q|
    ensures (p + m + q)[a..e] == p[a..] + m + q[..e - |p| - |m|]
  {
    var s := p + m + q;
    assert s[a..e] == s[a..|p|] + s[|p|..|p| + |m|] + s[|p| + |m|..e];
    assert s[a..|p|] == p[a..];
    assert s[|p|..|p| + |m|] == m;
    assert s[|p| + |m|..e] == q[..e - |p| - |m|];
  }

  /** `s.strip()` without arguments. */
  function Strip(s: string): string {
    StripChars(s, Whitespace)
  }

  function LowerChar(c: char): char {
    if 'A' <= c <= 'Z' then (c as int + 32) as char else c
  }

  /** `s.lower()` on the ASCII letters. */
  function Lower(s: string): (r: string)
    ensures |r| == |s|
    ensures forall k :: 0 <= k < |s| ==> r[k] == LowerChar(s[k])
  {
    if |s| == 0 then "" else [LowerChar(s[0])] + Lower(s[1..])
  }

  /** `s.find(c)`, as an option: the position of the first `c`. */
  function IndexOf(s: string, c: char): (r: Option<nat>)
    ensures r.None? <==> c !in s
    ensures r.Some? ==> r.value < |s| && s[r.value] == c
    ensures r.Some? ==> forall k :: 0 <= k < r.value ==> s[k] != c
  {
    if |s| == 0 then None
    else if s[0] == c then Some(0)
    else match IndexOf(s[1..], c)
      case None => None
      case Some(i) => Some(i + 1)
  }

  /** `s.rfind(c)`, as an option: the position of the last `c`. */
  function LastIndexOf(s: string, c: char): (r: Option<nat>)
    ensures r.None? <==> c !in s
    ensures r.Some? ==> r.value < |s| && s[r.value] == c
    ensures r.Some? ==> forall k :: r.value < k < |s| ==> s[k] != c
  {
    if |s| == 0 then None
    else if s[|s| - 1] == c then Some(|s| - 1)
    else LastIndexOf(s[..|s| - 1], c)
  }

  /** `sep.join(xs)`. */
  function Join(sep: string, xs: seq<string>): string {
    if |xs| == 0 then ""
    else if |xs| == 1 then xs[0]
    else xs[0] + sep + Join(sep, xs[1..])
  }

  /** `s.split(c)`: the pieces between occurrences of `c`; never empty. */
  function Split(s: string, c: char): (r: seq<string>)
    ensures |r| >= 1
    ensures forall k :: 0 <= k < |r| ==> c !in r[k]
    decreases |s|
  {
    match IndexOf(s, c)
    case None => [s]
    case Some(i) => [s[..i]] + Split(s[i + 1..], c)
  }

  /** Joining pieces that do not contain the separator and splitting again
      gives the pieces back. */
  lemma {:induction false} SplitJoin(xs: seq<string>, c: char)
    requires |xs| >= 1
    requires forall k :: 0 <= k < |xs| ==> c !in xs[k]
    ensures Split(Join([c], xs), c) == xs
  {
    if |xs| > 1 {
      var head := xs[0];
      var tail := Join([c], xs[1..]);
      var s := head + [c] + tail;
      assert Join([c], xs) == s;
      assert s[|head|] == c;
      assert forall k :: 0 <= k < |head| ==> s[k] == head[k];
      var i := IndexOf(s, c).value;
      assert i == |head|;
      assert s[..i] == head;
      assert s[i + 1..] == tail;
      SplitJoin(xs[1..], c);
      assert [head] + xs[1..] == xs;
    }
  }

  /** `s.count(c)`. */
  function CountOf(s: string, c: char): (n: nat)
    ensures n <= |s|
    ensures n == 0 <==> c !in s
  {
    if |s| == 0 then 0 else CountOf(s[..|s| - 1], c) + (if s[|s| - 1] == c then 1 else 0)
  }

  lemma CountOfAbsent(s: string, c: char)
    requires c !in s
    ensures CountOf(s, c) == 0
  {
  }

  function DigitChar(d: nat): (c: char)
    requires d < 10
  {
    ('0' as int + d) as char
  }

  /** `'%d' % n` for a non-negative `n`: decimal digits, most significant first. */
  function Decimal(n: nat): (r: string)
    ensures |r| >= 1
    ensures forall k :: 0 <= k < |r| ==> '0' <= r[k] <= '9'
    ensures r[0] == '0' ==> n == 0
  {
    if n < 10 then [DigitChar(n)] else Decimal(n / 10) + [DigitChar(n % 10)]
  }

  /** `int(s)` for a string of decimal digits. */
  function DigitsValue(s: string): (n: nat)
    requires forall k :: 0 <= k < |s| ==> '0' <= s[k] <= '9'
  {
    if |s| == 0 then 0 else DigitsValue(s[..|s| - 1]) * 10 + (s[|s| - 1] as int - '0' as int)
  }

  /** Reading the digits back gives the number: the rendering loses nothing. */
  lemma {:induction false} DecimalRoundTrip(n: nat)
    ensures DigitsValue(Decimal(n)) == n
  {
    if n >= 10 {
      var d := Decimal(n / 10);
      var r := d + [DigitChar(n % 10)];
      assert Decimal(n) == r;
      assert r[..|r| - 1] == d;
      DecimalRoundTrip(n / 10);
    }
  }
}
