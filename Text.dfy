/** Shared value types and the ASCII string operations used by the checkout
    code: JavaScript's `trim`, `toLowerCase`, `includes`, `startsWith`, the
    `/\s+/` replacements and `split(c)[0]`, restricted to ASCII. */
module Text {

  datatype Option<+T> = None | Some(value: T) {
    function GetOr(default: T): T {
      match this
      case Some(v) => v
      case None => default
    }
  }

  /** The whitespace characters matched by `\s` and removed by `trim`
      (ASCII part only). */
  predicate IsSpace(c: char) {
    c == ' ' || c == '\t' || c == '\n' || c == '\r' || c == '\U{B}' || c == '\U{C}'
  }

  predicate IsUpper(c: char) {
    'A' <= c <= 'Z'
  }

  predicate NoSpace(s: string) {
    forall i :: 0 <= i < |s| ==> !IsSpace(s[i])
  }

  predicate NoUpper(s: string) {
    forall i :: 0 <= i < |s| ==> !IsUpper(s[i])
  }

  function LowerChar(c: char): (r: char)
    ensures !IsUpper(r)
    ensures IsSpace(r) <==> IsSpace(c)
  {
    if IsUpper(c) then (c as int + 32) as char else c
  }

  /** `s.toLowerCase()` on ASCII letters. */
  function ToLower(s: string): (r: string)
    ensures |r| == |s| && NoUpper(r)
    ensures forall i {:trigger r[i]} :: 0 <= i < |s| ==> r[i] == LowerChar(s[i])
  {
    seq(|s|, i requires 0 <= i < |s| => LowerChar(s[i]))
  }

  /** The index of the first non-whitespace character at or after `i`. */
  function SkipSpaces(s: string, i: nat): (j: nat)
    requires i <= |s|
    ensures i <= j <= |s|
    ensures j == |s| || !IsSpace(s[j])
    decreases |s| - i
  {
    if i < |s| && IsSpace(s[i]) then SkipSpaces(s, i + 1) else i
  }

  /** The end of `s[lo..j]` once its trailing whitespace is dropped. */
  function SkipSpacesBack(s: string, lo: nat, j: nat): (e: nat)
    requires lo <= j <= |s|
    ensures lo <= e <= j
    ensures e == lo || !IsSpace(s[e - 1])
    decreases j
  {
    if lo < j && IsSpace(s[j - 1]) then SkipSpacesBack(s, lo, j - 1) else j
  }

  /** How many characters `trim` drops at the front. */
  function TrimOffset(s: string): nat
    ensures TrimOffset(s) <= |s|
  {
    SkipSpaces(s, 0)
  }

  /** `s.trim()`. */
  function Trim(s: string): (r: string)
    ensures TrimOffset(s) + |r| <= |s|
    ensures r == s[TrimOffset(s)..TrimOffset(s) + |r|]
    ensures |r| == 0 || (!IsSpace(r[0]) && !IsSpace(r[|r| - 1]))
  {
    var a := SkipSpaces(s, 0);
    s[a..SkipSpacesBack(s, a, |s|)]
  }

  /** Everything `SkipSpaces` passes over is whitespace. */
  lemma {:induction false} SkipSpacesSkipsSpaces(s: string, i: nat)
    requires i <= |s|
    ensures forall k :: i <= k < SkipSpaces(s, i) ==> IsSpace(s[k])
    decreases |s| - i
  {
    if i < |s| && IsSpace(s[i]) {
      SkipSpacesSkipsSpaces(s, i + 1);
    }
  }

  /** Everything `SkipSpacesBack` passes over is whitespace. */
  lemma {:induction false} SkipSpacesBackSkipsSpaces(s: string, lo: nat, j: nat)
    requires lo <= j <= |s|
    ensures forall k :: SkipSpacesBack(s, lo, j) <= k < j ==> IsSpace(s[k])
    decreases j
  {
    if lo < j && IsSpace(s[j - 1]) {
      SkipSpacesBackSkipsSpaces(s, lo, j - 1);
    }
  }

  /** A string trims to nothing exactly when it is all whitespace. */
  lemma TrimAllSpaces(s: string)
    ensures (forall i :: 0 <= i < |s| ==> IsSpace(s[i])) <==> |Trim(s)| == 0
  {
    SkipSpacesSkipsSpaces(s, 0);
    SkipSpacesBackSkipsSpaces(s, SkipSpaces(s, 0), |s|);
  }

  lemma TrimUnchanged(s: string)
    requires s == [] || (!IsSpace(s[0]) && !IsSpace(s[|s| - 1]))
    ensures Trim(s) == s
  {
  }

  /** A slice of a string without capitals has none. */
  lemma NoUpperSlice(s: string, i: nat, j: nat)
    requires i <= j <= |s| && NoUpper(s)
    ensures NoUpper(s[i..j])
  {
    forall k | 0 <= k < j - i ensures !IsUpper(s[i..j][k]) {
      assert s[i..j][k] == s[i + k];
    }
  }

  lemma ToLowerUnchanged(s: string)
    requires NoUpper(s)
    ensures ToLower(s) == s
  {
  }

  /** `s.replace(/\s+/g, "")`. */
  function RemoveSpaces(s: string): (r: string)
    ensures |r| <= |s|
  {
    if s == [] then []
    else if IsSpace(s[0]) then RemoveSpaces(s[1..])
    else [s[0]] + RemoveSpaces(s[1..])
  }

  /** Removing whitespace leaves none, adds no capital, and changes nothing
      in a string that has no whitespace. */
  lemma {:induction false} RemoveSpacesClean(s: string)
    ensures NoSpace(RemoveSpaces(s))
    ensures NoUpper(s) ==> NoUpper(RemoveSpaces(s))
    ensures NoSpace(s) ==> RemoveSpaces(s) == s
  {
    if s != [] {
      RemoveSpacesClean(s[1..]);
    }
  }

  /** Removing whitespace adds no character. */
  lemma {:induction false} RemoveSpacesKeepsOut(s: string, c: char)
    requires c !in s
    ensures c !in RemoveSpaces(s)
  {
    if s != [] {
      assert c !in s[1..];
      RemoveSpacesKeepsOut(s[1..], c);
    }
  }

  /** `s.replace(/\s+/g, " ")`: every maximal run of whitespace becomes one
      blank. */
  function CollapseSpaces(s: string): (r: string)
    ensures forall i :: 0 <= i < |r| ==> (IsSpace(r[i]) ==> r[i] == ' ')
    ensures forall i :: 0 <= i < |r| - 1 ==> !(IsSpace(r[i]) && IsSpace(r[i + 1]))
    ensures NoUpper(s) ==> NoUpper(r)
    ensures r == [] <==> s == []
    ensures s != [] ==> (IsSpace(r[0]) <==> IsSpace(s[0]))
    decreases |s|
  {
    if s == [] then []
    else if IsSpace(s[0]) then
      var rest := s[SkipSpaces(s, 1)..];
      var tail := CollapseSpaces(rest);
      [' '] + tail
    else [s[0]] + CollapseSpaces(s[1..])
  }

  /** Collapsing whitespace twice is collapsing it once. */
  lemma {:induction false} CollapseSpacesIdempotent(s: string)
    ensures CollapseSpaces(CollapseSpaces(s)) == CollapseSpaces(s)
    decreases |s|
  {
    if s != [] {
      var r := CollapseSpaces(s);
      if IsSpace(s[0]) {
        var rest := s[SkipSpaces(s, 1)..];
        var t := CollapseSpaces(rest);
        assert r == [' '] + t;
        assert t == [] || !IsSpace(t[0]);
        assert SkipSpaces(r, 1) == 1;
        assert r[1..] == t;
        CollapseSpacesIdempotent(rest);
      } else {
        assert r[1..] == CollapseSpaces(s[1..]);
        CollapseSpacesIdempotent(s[1..]);
      }
    }
  }

  lemma ToLowerAppend(a: string, b: string)
    ensures ToLower(a + b) == ToLower(a) + ToLower(b)
  {
  }

  lemma ToLowerDrop(s: string, k: nat)
    requires k <= |s|
    ensures ToLower(s)[k..] == ToLower(s[k..])
  {
  }

  /** Lowercasing leaves whitespace where it is. */
  lemma {:induction false} SkipSpacesToLower(s: string, i: nat)
    requires i <= |s|
    ensures SkipSpaces(ToLower(s), i) == SkipSpaces(s, i)
    decreases |s| - i
  {
    if i < |s| && IsSpace(s[i]) {
      SkipSpacesToLower(s, i + 1);
    }
  }

  /** Lowercasing and collapsing whitespace commute. */
  lemma {:induction false} CollapseSpacesToLower(s: string)
    ensures ToLower(CollapseSpaces(s)) == CollapseSpaces(ToLower(s))
    decreases |s|
  {
    if s != [] {
      var l := ToLower(s);
      if IsSpace(s[0]) {
        var k := SkipSpaces(s, 1);
        SkipSpacesToLower(s, 1);
        ToLowerDrop(s, k);
        CollapseSpacesToLower(s[k..]);
        ToLowerAppend([' '], CollapseSpaces(s[k..]));
        assert ToLower([' ']) == [' '];
      } else {
        ToLowerDrop(s, 1);
        CollapseSpacesToLower(s[1..]);
        ToLowerAppend([s[0]], CollapseSpaces(s[1..]));
        assert ToLower([s[0]]) == [l[0]];
      }
    }
  }

  predicate StartsWith(s: string, p: string) {
    |p| <= |s| && s[..|p|] == p
  }

  /** `s.includes(p)`. */
  predicate Contains(s: string, p: string)
    decreases |s|
  {
    StartsWith(s, p) || (s != [] && Contains(s[1..], p))
  }

  /** The index of the first `c` at or after `i`, or `|s|` when there is
      none. */
  function IndexFrom(s: string, c: char, i: nat): (j: nat)
    requires i <= |s|
    ensures i <= j <= |s|
    ensures j == |s| || s[j] == c
    decreases |s| - i
  {
    if i < |s| && s[i] != c then IndexFrom(s, c, i + 1) else i
  }

  /** `IndexFrom` passes over no `c`. */
  lemma {:induction false} IndexFromIsFirst(s: string, c: char, i: nat)
    requires i <= |s|
    ensures forall k :: i <= k < IndexFrom(s, c, i) ==> s[k] != c
    decreases |s| - i
  {
    if i < |s| && s[i] != c {
      IndexFromIsFirst(s, c, i + 1);
    }
  }

  /** The text before the first `c`, i.e. `s.split(c)[0]`. */
  function BeforeFirst(s: string, c: char): (r: string)
    ensures |r| <= |s| && r == s[..|r|]
    ensures r == s || s[|r|] == c
  {
    s[..IndexFrom(s, c, 0)]
  }

  /** The text before the first `c` holds no `c`, and is all of `s` when `s`
      has none. */
  lemma BeforeFirstHasNoSeparator(s: string, c: char)
    ensures c !in BeforeFirst(s, c)
    ensures c !in s ==> BeforeFirst(s, c) == s
  {
    IndexFromIsFirst(s, c, 0);
    var r := BeforeFirst(s, c);
    forall k | 0 <= k < |r| ensures r[k] != c {
      assert r[k] == s[k];
    }
  }

  /** `s.slice(0, -1)` when `s` ends with `c`: `s.replace(/c$/, "")`. */
  function DropLast(s: string, c: char): (r: string)
    ensures r == s || (s != [] && s[|s| - 1] == c && r == s[..|s| - 1])
  {
    if s != [] && s[|s| - 1] == c then s[..|s| - 1] else s
  }

  /** `s.replace(/^p/, "")`. */
  function DropPrefix(s: string, p: string): (r: string)
    ensures |r| <= |s| && r == s[|s| - |r|..]
  {
    if StartsWith(s, p) then s[|p|..] else s
  }

  /** `s.replace(/^https?:\/\//, "")`. */
  function DropScheme(s: string): (r: string)
    ensures |r| <= |s| && r == s[|s| - |r|..]
  {
    if StartsWith(s, "http://") then s[7..]
    else if StartsWith(s, "https://") then s[8..]
    else s
  }

  /** `parts.join(sep)`. */
  function Join(parts: seq<string>, sep: string): string {
    if parts == [] then ""
    else if |parts| == 1 then parts[0]
    else parts[0] + sep + Join(parts[1..], sep)
  }

  function DigitChar(d: int): char
    requires 0 <= d < 10
  {
    "0123456789"[d]
  }

  function NatToString(n: nat): (r: string)
    ensures |r| > 0
    ensures forall i :: 0 <= i < |r| ==> '0' <= r[i] <= '9'
  {
    if n < 10 then [DigitChar(n)] else NatToString(n / 10) + [DigitChar(n % 10)]
  }

  /** The decimal text of an integer, as `${n}` prints it. */
  function IntToString(n: int): (r: string)
    ensures |r| > 0
  {
    if n < 0 then "-" + NatToString(-n) else NatToString(n)
  }
}
