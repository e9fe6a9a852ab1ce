/** The JavaScript string operations the handlers and pages rely on, written
    out over `seq<char>`: `includes`, `indexOf`, `substring(0, n)`, `trim`,
    `join`, `split`, the decimal rendering of a non-negative number in a
    template literal, and the `a || b` fallback on strings. */
module Text {
  import opened Wrappers

  // ---------------------------------------------------------------------
  // Truthiness of an optional string field: present and non-empty.

  predicate Truthy(o: Option<string>) {
    o.Some? && o.value != ""
  }

  /** `o || fallback` for a string-valued field. */
  function OrElse(o: Option<string>, fallback: string): (r: string)
    ensures Truthy(o) ==> r == o.value
    ensures !Truthy(o) ==> r == fallback
    ensures fallback != "" ==> r != ""
  {
    if Truthy(o) then o.value else fallback
  }

  // ---------------------------------------------------------------------
  // Searching: `includes` and `indexOf`.

  predicate IsPrefix(p: string, s: string) {
    |p| <= |s| && s[..|p|] == p
  }

  predicate OccursAt(s: string, p: string, i: int) {
    0 <= i && i + |p| <= |s| && s[i..i + |p|] == p
  }

  lemma OccursAtTail(s: string, p: string, i: int)
    requires |s| > 0 && i >= 0
    ensures OccursAt(s[1..], p, i) <==> OccursAt(s, p, i + 1)
  {
  }

  /** `s.indexOf(p)`: the leftmost position at which `p` occurs in `s`. */
  function IndexOf(s: string, p: string): (r: Option<nat>)
    ensures r.Some? ==> OccursAt(s, p, r.value)
    ensures r.Some? ==> forall k :: 0 <= k < r.value ==> !OccursAt(s, p, k)
    ensures r.None? ==> forall k :: !OccursAt(s, p, k)
    decreases |s|
  {
    if IsPrefix(p, s) then
      assert OccursAt(s, p, 0);
      Some(0)
    else if |s| == 0 then
      None
    else
      var t := IndexOf(s[1..], p);
      assert forall k :: 0 <= k ==> (OccursAt(s[1..], p, k) <==> OccursAt(s, p, k + 1)) by {
        forall k | 0 <= k ensures OccursAt(s[1..], p, k) <==> OccursAt(s, p, k + 1) {
          OccursAtTail(s, p, k);
        }
      }
      assert forall k :: OccursAt(s, p, k) ==> k == 0 || OccursAt(s[1..], p, k - 1);
      if t.Some? then Some(t.value + 1) else None
  }

  /** `s.includes(p)`. */
  predicate Contains(s: string, p: string) {
    IndexOf(s, p).Some?
  }

  // ---------------------------------------------------------------------
  // `s.substring(0, n)` for n >= 0.

  function Take(s: string, n: nat): (r: string)
    ensures |r| <= n && |r| <= |s|
    ensures IsPrefix(r, s)
    ensures |s| <= n ==> r == s
    ensures |s| > n ==> |r| == n
  {
    if |s| <= n then s else s[..n]
  }

  // ---------------------------------------------------------------------
  // `String.prototype.trim`: strips the ECMAScript WhiteSpace and
  // LineTerminator code points from both ends.

  predicate IsWhitespace(c: char) {
    c == '\t' || c == '\n' || c == '\U{000B}' || c == '\U{000C}' || c == '\r' || c == ' '
    || c == '\U{00A0}' || c == '\U{1680}' || ('\U{2000}' <= c <= '\U{200A}')
    || c == '\U{2028}' || c == '\U{2029}' || c == '\U{202F}' || c == '\U{205F}'
    || c == '\U{3000}' || c == '\U{FEFF}'
  }

  predicate AllWhitespace(s: string) {
    forall i :: 0 <= i < |s| ==> IsWhitespace(s[i])
  }

  function TrimStart(s: string): (r: string)
    ensures |r| <= |s| && r == s[|s| - |r|..]
    ensures AllWhitespace(s[..|s| - |r|])
    ensures r == [] || !IsWhitespace(r[0])
    decreases |s|
  {
    if |s| > 0 && IsWhitespace(s[0]) then
      var r := TrimStart(s[1..]);
      assert s[..|s| - |r|] == [s[0]] + s[1..][..|s| - 1 - |r|];
      r
    else
      s
  }

  function TrimEnd(s: string): (r: string)
    ensures |r| <= |s| && r == s[..|r|]
    ensures AllWhitespace(s[|r|..])
    ensures r == [] || !IsWhitespace(r[|r| - 1])
    decreases |s|
  {
    if |s| > 0 && IsWhitespace(s[|s| - 1]) then
      var t := s[..|s| - 1];
      var r := TrimEnd(t);
      assert r == s[..|r|];
      assert s[|r|..] == t[|r|..] + [s[|s| - 1]];
      r
    else
      s
  }

  /** `r` is what is left of `s` once `i` leading and some trailing
      whitespace characters are cut off. */
  predicate TrimmedAt(s: string, r: string, i: int) {
    0 <= i && i + |r| <= |s| && r == s[i..i + |r|]
    && AllWhitespace(s[..i]) && AllWhitespace(s[i + |r|..])
  }

  function Trim(s: string): (r: string)
    ensures r == [] || (!IsWhitespace(r[0]) && !IsWhitespace(r[|r| - 1]))
    ensures TrimmedAt(s, r, |s| - |TrimStart(s)|)
  {
    var t := TrimStart(s);
    var r := TrimEnd(t);
    assert r != [] ==> r[0] == t[0];
    TrimmedParts(s, t, r);
    r
  }

  /** Cutting leading white space and then trailing white space leaves a
      piece of the original with white space on both sides. */
  lemma TrimmedParts(s: string, t: string, r: string)
    requires |t| <= |s| && t == s[|s| - |t|..] && AllWhitespace(s[..|s| - |t|])
    requires |r| <= |t| && r == t[..|r|] && AllWhitespace(t[|r|..])
    ensures TrimmedAt(s, r, |s| - |t|)
  {
  }

  lemma {:induction false} TrimStartAppend(s: string, w: string)
    requires AllWhitespace(w)
    ensures TrimStart(s) != [] ==> TrimStart(s + w) == TrimStart(s) + w
    ensures TrimStart(s) == [] ==> TrimStart(s + w) == []
    decreases |s| + |w|
  {
    if |s| == 0 {
      assert s + w == w;
      if |w| > 0 {
        assert (s + w)[1..] == [] + w[1..];
        TrimStartAppend([], w[1..]);
      }
    } else if IsWhitespace(s[0]) {
      assert (s + w)[1..] == s[1..] + w;
      TrimStartAppend(s[1..], w);
    }
  }

  lemma {:induction false} TrimEndAppend(s: string, w: string)
    requires AllWhitespace(w)
    ensures TrimEnd(s + w) == TrimEnd(s)
    decreases |w|
  {
    if |w| > 0 {
      assert (s + w)[..|s + w| - 1] == s + w[..|w| - 1];
      TrimEndAppend(s, w[..|w| - 1]);
    } else {
      assert s + w == s;
    }
  }

  /** Trailing whitespace never changes the result of `trim`. */
  lemma TrimAppendWhitespace(s: string, w: string)
    requires AllWhitespace(w)
    ensures Trim(s + w) == Trim(s)
  {
    TrimStartAppend(s, w);
    if TrimStart(s) != [] {
      TrimEndAppend(TrimStart(s), w);
    }
  }

  // ---------------------------------------------------------------------
  // `Array.prototype.join` and `String.prototype.split` with a separator.

  function Join(xs: seq<string>, sep: string): (r: string)
    ensures |xs| == 0 ==> r == ""
    ensures |xs| == 1 ==> r == xs[0]
    ensures |xs| > 1 ==> IsPrefix(xs[0] + sep, r)
    decreases |xs|
  {
    if |xs| == 0 then ""
    else if |xs| == 1 then xs[0]
    else
      var r := xs[0] + sep + Join(xs[1..], sep);
      assert r[..|xs[0] + sep|] == xs[0] + sep;
      r
  }

  /** Appending an item to a non-empty list appends the separator and the
      item to the joined string. */
  lemma {:induction false} JoinAppend(xs: seq<string>, x: string, sep: string)
    requires |xs| > 0
    ensures Join(xs + [x], sep) == Join(xs, sep) + sep + x
    decreases |xs|
  {
    if |xs| == 1 {
      assert xs + [x] == [xs[0], x];
      assert [xs[0], x][1..] == [x];
    } else {
      assert (xs + [x])[0] == xs[0];
      assert (xs + [x])[1..] == xs[1..] + [x];
      JoinAppend(xs[1..], x, sep);
    }
  }

  /** No proper prefix of `sep` is also a suffix of it, so one occurrence of
      `sep` cannot overlap the start of another. */
  predicate Unbordered(sep: string) {
    forall k :: 0 < k < |sep| ==> sep[..k] != sep[|sep| - k..]
  }

  function Split(s: string, sep: string): (r: seq<string>)
    requires sep != ""
    ensures |r| > 0
    ensures Join(r, sep) == s
    ensures forall k :: 0 <= k < |r| ==> !Contains(r[k], sep)
    decreases |s|
  {
    match IndexOf(s, sep)
    case None => [s]
    case Some(i) =>
      var rest := Split(s[i + |sep|..], sep);
      var r := [s[..i]] + rest;
      assert r[1..] == rest;
      assert s == s[..i] + sep + s[i + |sep|..];
      NoSeparatorBefore(s, sep, i);
      r
  }

  /** The text before the leftmost separator holds no separator. */
  lemma NoSeparatorBefore(s: string, sep: string, i: nat)
    requires sep != "" && IndexOf(s, sep) == Some(i)
    ensures !Contains(s[..i], sep)
  {
    var t := s[..i];
    forall k | 0 <= k && k + |sep| <= i
      ensures !OccursAt(t, sep, k)
    {
      assert t[k..k + |sep|] == s[k..k + |sep|];
      assert k < i && !OccursAt(s, sep, k);
    }
  }

  /** In `x + sep + rest` the leftmost separator is the one placed after `x`
      when `x` holds none and `sep` cannot overlap itself. */
  lemma IndexOfAfterItem(x: string, sep: string, rest: string)
    requires sep != "" && Unbordered(sep) && !Contains(x, sep)
    ensures IndexOf(x + sep + rest, sep) == Some(|x|)
  {
    var s := x + sep + rest;
    assert s[|x|..|x| + |sep|] == sep;
    assert OccursAt(s, sep, |x|);
    forall k | 0 <= k < |x|
      ensures !OccursAt(s, sep, k)
    {
      if k + |sep| <= |x| {
        assert !OccursAt(x, sep, k);
        assert x[k..k + |sep|] == s[k..k + |sep|];
      } else if k + |sep| <= |s| {
        // an occurrence at k would overlap the separator after x by t
        // characters, making sep[..|sep| - t] a border of sep
        var t := |x| - k;
        assert s[k..k + |sep|][t..] == sep[..|sep| - t];
        assert sep[..|sep| - t] != sep[|sep| - (|sep| - t)..];
      }
    }
  }

  /** Splitting a joined list on the separator gives the list back when no
      item contains the separator. */
  lemma {:induction false} SplitJoin(xs: seq<string>, sep: string)
    requires |xs| > 0 && sep != "" && Unbordered(sep)
    requires forall i :: 0 <= i < |xs| ==> !Contains(xs[i], sep)
    ensures Split(Join(xs, sep), sep) == xs
    decreases |xs|
  {
    var x := xs[0];
    if |xs| == 1 {
      assert !Contains(x, sep);
      assert Split(x, sep) == [x];
    } else {
      var rest := Join(xs[1..], sep);
      var s := x + sep + rest;
      assert Join(xs, sep) == s;
      assert !Contains(x, sep);
      IndexOfAfterItem(x, sep, rest);
      assert s[..|x|] == x;
      assert s[|x| + |sep|..] == rest;
      assert Split(s, sep) == [x] + Split(rest, sep);
      SplitJoin(xs[1..], sep);
      assert xs == [x] + xs[1..];
    }
  }

  // ---------------------------------------------------------------------
  // A non-negative number in a template literal: its decimal digits.

  predicate IsDigit(c: char) {
    '0' <= c <= '9'
  }

  function DigitChar(d: nat): (c: char)
    requires d < 10
    ensures IsDigit(c)
  {
    (48 + d) as char
  }

  function DigitValue(c: char): nat {
    if IsDigit(c) then c as int - 48 else 0
  }

  /** The plain decimal form: no leading zero, and "0" for zero. */
  function ShowNat(n: nat): (s: string)
    ensures |s| > 0
    ensures forall i :: 0 <= i < |s| ==> IsDigit(s[i])
    ensures n == 0 ==> s == "0"
    ensures n > 0 ==> s[0] != '0'
    decreases n
  {
    if n < 10 then [DigitChar(n)] else ShowNat(n / 10) + [DigitChar(n % 10)]
  }

  /** Reads a run of decimal digits back as a number. */
  function ReadNat(s: string): nat
    decreases |s|
  {
    if |s| == 0 then 0 else ReadNat(s[..|s| - 1]) * 10 + DigitValue(s[|s| - 1])
  }

  lemma {:induction false} ReadShowNat(n: nat)
    ensures ReadNat(ShowNat(n)) == n
    decreases n
  {
    var s := ShowNat(n);
    if n >= 10 {
      ReadShowNat(n / 10);
      assert s[..|s| - 1] == ShowNat(n / 10);
    }
  }

  /** Different numbers print differently. */
  lemma ShowNatInjective(a: nat, b: nat)
    requires ShowNat(a) == ShowNat(b)
    ensures a == b
  {
    ReadShowNat(a);
    ReadShowNat(b);
  }

  /** Where a digit run is followed by a non-digit, the run is fixed by the
      whole string: `x + y == x' + y'` with all-digit `x`, `x'` and `y`, `y'`
      starting with the same non-digit forces `x == x'`. */
  lemma {:induction false} DigitRunUnique(x: string, y: string, x': string, y': string)
    requires forall i :: 0 <= i < |x| ==> IsDigit(x[i])
    requires forall i :: 0 <= i < |x'| ==> IsDigit(x'[i])
    requires |y| > 0 && |y'| > 0 && !IsDigit(y[0]) && !IsDigit(y'[0])
    requires x + y == x' + y'
    ensures x == x' && y == y'
  {
    var n := if |x| < |x'| then |x| else |x'|;
    assert (x + y)[n] == (x' + y')[n];
    assert x == (x + y)[..|x|] == (x' + y')[..|x'|] == x';
    assert y == (x + y)[|x|..] == (x' + y')[|x'|..] == y';
  }
}
