/**
 * The JavaScript string built-ins the sidecar relies on: `String.prototype.trim`
 * (applied to the status file), `toLowerCase` (the method label of a request
 * metric), and `indexOf` / `replace` with a one-character pattern (the uri label).
 * A JavaScript string is modelled as a sequence of Unicode scalar values.
 */
module JsString {

  /** The characters `trim` removes: ECMAScript's WhiteSpace and LineTerminator
      productions (tab, vertical tab, form feed, the space separators of category
      Zs, the byte order mark, and LF, CR, LS, PS). */
  predicate IsTrimSpace(c: char) {
    var n := c as int;
    n == 0x09 || n == 0x0A || n == 0x0B || n == 0x0C || n == 0x0D ||
    n == 0x20 || n == 0xA0 || n == 0x1680 || (0x2000 <= n <= 0x200A) ||
    n == 0x2028 || n == 0x2029 || n == 0x202F || n == 0x205F ||
    n == 0x3000 || n == 0xFEFF
  }

  /** Every character of `s` is trimmed away. */
  predicate AllTrimSpace(s: string) {
    forall k :: 0 <= k < |s| ==> IsTrimSpace(s[k])
  }

  /** `s` neither starts nor ends with a character that `trim` removes. */
  predicate IsTrimmed(s: string) {
    s == [] || (!IsTrimSpace(s[0]) && !IsTrimSpace(s[|s| - 1]))
  }

  /** Drops the leading white space: the result is the suffix of `s` that
      starts at the first character that is not white space. */
  function TrimStart(s: string): (r: string)
    ensures |r| <= |s| && r == s[|s| - |r|..]
    ensures AllTrimSpace(s[..|s| - |r|])
    ensures r != [] ==> !IsTrimSpace(r[0])
  {
    if s != [] && IsTrimSpace(s[0]) then TrimStart(s[1..]) else s
  }

  /** Drops the trailing white space: the result is the prefix of `s` that
      ends at the last character that is not white space. */
  function TrimEnd(s: string): (r: string)
    ensures |r| <= |s| && r == s[..|r|]
    ensures AllTrimSpace(s[|r|..])
    ensures r != [] ==> !IsTrimSpace(r[|r| - 1])
  {
    if s != [] && IsTrimSpace(s[|s| - 1]) then TrimEnd(s[..|s| - 1]) else s
  }

  /** `String.prototype.trim`. */
  function Trim(s: string): (r: string)
    ensures |r| <= |s|
    ensures IsTrimmed(r)
  {
    TrimEnd(TrimStart(s))
  }

  lemma {:induction false} TrimStartAt(s: string, i: nat)
    requires i < |s| && AllTrimSpace(s[..i]) && !IsTrimSpace(s[i])
    ensures TrimStart(s) == s[i..]
  {
    if i > 0 {
      assert IsTrimSpace(s[..i][0]);
      assert s[1..][..i - 1] == s[1..i];
      assert s[1..i] == s[..i][1..];
      TrimStartAt(s[1..], i - 1);
      assert s[1..][i - 1..] == s[i..];
    }
  }

  lemma {:induction false} TrimStartAllSpace(s: string)
    requires AllTrimSpace(s)
    ensures TrimStart(s) == []
  {
    if s != [] {
      assert IsTrimSpace(s[0]);
      TrimStartAllSpace(s[1..]);
    }
  }

  lemma {:induction false} TrimEndAt(s: string, j: nat)
    requires 0 < j <= |s| && AllTrimSpace(s[j..]) && !IsTrimSpace(s[j - 1])
    ensures TrimEnd(s) == s[..j]
  {
    if j < |s| {
      assert IsTrimSpace(s[j..][|s| - j - 1]);
      assert s[..|s| - 1][j..] == s[j..][..|s| - j - 1];
      TrimEndAt(s[..|s| - 1], j);
      assert s[..|s| - 1][..j] == s[..j];
    }
  }

  lemma {:induction false} AllSpaceAround(s: string, i: nat)
    requires i <= |s| && AllTrimSpace(s[..i]) && AllTrimSpace(s[i..])
    ensures AllTrimSpace(s)
  {
    forall k | 0 <= k < |s| ensures IsTrimSpace(s[k]) {
      if k < i { assert s[k] == s[..i][k]; } else { assert s[k] == s[i..][k - i]; }
    }
  }

  /** Trim is characterised uniquely: whenever `s` is `s[i..j]` surrounded by
      white space and `s[i..j]` is itself trimmed, `Trim(s)` is exactly `s[i..j]`. */
  lemma {:induction false} TrimUnique(s: string, i: nat, j: nat)
    requires i <= j <= |s|
    requires AllTrimSpace(s[..i]) && AllTrimSpace(s[j..])
    requires IsTrimmed(s[i..j])
    ensures Trim(s) == s[i..j]
  {
    if i == j {
      AllSpaceAround(s, i);
      TrimStartAllSpace(s);
    } else {
      TrimCore(s, i, j);
    }
  }

  lemma {:induction false} TrimCore(s: string, i: nat, j: nat)
    requires i < j <= |s|
    requires AllTrimSpace(s[..i]) && AllTrimSpace(s[j..])
    requires !IsTrimSpace(s[i]) && !IsTrimSpace(s[j - 1])
    ensures Trim(s) == s[i..j]
  {
    TrimStartAt(s, i);
    TrimEndOfSuffix(s, i, j);
  }

  lemma {:induction false} TrimEndOfSuffix(s: string, i: nat, j: nat)
    requires i < j <= |s|
    requires AllTrimSpace(s[j..]) && !IsTrimSpace(s[j - 1])
    ensures TrimEnd(s[i..]) == s[i..j]
  {
    var t := s[i..];
    assert t[j - i..] == s[j..];
    assert t[j - i - 1] == s[j - 1];
    TrimEndAt(t, j - i);
    assert t[..j - i] == s[i..j];
  }

  /** Trimming twice is trimming once. */
  lemma TrimIdempotent(s: string)
    ensures Trim(Trim(s)) == Trim(s)
  {
    var t := Trim(s);
    assert t[..0] == [] && t[|t|..] == [] && t[0..|t|] == t;
    TrimUnique(t, 0, |t|);
  }

  /** Trim leaves exactly the strings without surrounding white space unchanged. */
  lemma TrimFixedPoints(s: string)
    ensures Trim(s) == s <==> IsTrimmed(s)
  {
    if IsTrimmed(s) {
      assert s[..0] == [] && s[|s|..] == [] && s[0..|s|] == s;
      TrimUnique(s, 0, |s|);
    }
  }

  /** `String.prototype.indexOf` for a one-character pattern: the index of the
      first occurrence of `c`, or -1 when `c` does not occur. */
  function IndexOf(s: string, c: char): (i: int)
    ensures -1 <= i < |s|
    ensures i == -1 <==> c !in s
    ensures 0 <= i ==> s[i] == c && c !in s[..i]
  {
    if s == [] then -1
    else if s[0] == c then 0
    else
      var k := IndexOf(s[1..], c);
      assert s == [s[0]] + s[1..];
      if k == -1 then -1
      else
        assert s[..k + 1] == [s[0]] + s[1..][..k];
        k + 1
  }

  /** Removing position `k + 1` of `s` is removing position `k` of its tail. */
  lemma RemoveAfterHead(s: string, k: nat)
    requires k + 1 < |s|
    ensures [s[0]] + (s[1..][..k] + s[1..][k + 1..]) == s[..k + 1] + s[k + 2..]
  {
    assert [s[0]] + s[1..][..k] == s[..k + 1];
    assert s[1..][k + 1..] == s[k + 2..];
  }

  /** `s.replace(c, '')` for a one-character string pattern `c`: only the first
      occurrence is removed. */
  function RemoveFirst(s: string, c: char): (r: string)
    ensures c !in s ==> r == s
    ensures c in s ==> r == s[..IndexOf(s, c)] + s[IndexOf(s, c) + 1..]
  {
    if s == [] then []
    else if s[0] == c then
      assert s[..0] + s[1..] == s[1..];
      s[1..]
    else
      var rest := RemoveFirst(s[1..], c);
      assert s == [s[0]] + s[1..];
      if c in s[1..] then
        RemoveAfterHead(s, IndexOf(s[1..], c));
        [s[0]] + rest
      else
        [s[0]] + rest
  }

  /** Lower-cases one character (ASCII letters only). */
  function LowerChar(c: char): char {
    if 'A' <= c <= 'Z' then (c as int + 32) as char else c
  }

  /** `String.prototype.toLowerCase` on the ASCII letters. */
  function ToLowerCase(s: string): (r: string)
    ensures |r| == |s|
    ensures forall k :: 0 <= k < |r| ==> !('A' <= r[k] <= 'Z')
    ensures forall k :: 0 <= k < |r| && !('A' <= s[k] <= 'Z') ==> r[k] == s[k]
    ensures forall k :: 0 <= k < |r| && 'A' <= s[k] <= 'Z' ==> r[k] as int == s[k] as int + 32
  {
    seq(|s|, k requires 0 <= k < |s| => LowerChar(s[k]))
  }

  /** Lower-casing twice is lower-casing once. */
  lemma ToLowerCaseIdempotent(s: string)
    ensures ToLowerCase(ToLowerCase(s)) == ToLowerCase(s)
  {
  }
}
