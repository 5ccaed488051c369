/**
 * The JavaScript string builtins the generators rely on (`toLowerCase`,
 * `toUpperCase`, `split`, `substring`/`slice`, and `replace` with a
 * character-class regular expression), written as functions over `string`
 * with contracts that characterise what they return.
 */
module Strings {

  datatype Option<+T> = None | Some(value: T)

  /** JavaScript truthiness of a string that may be `undefined`: defined and non-empty. */
  predicate Truthy(s: Option<string>) {
    s.Some? && s.value != ""
  }

  predicate IsDigit(c: char) { '0' <= c <= '9' }
  predicate IsAsciiUpper(c: char) { 'A' <= c <= 'Z' }
  predicate IsAsciiLower(c: char) { 'a' <= c <= 'z' }

  /** The regular-expression class `[a-zA-Z0-9]`. */
  predicate IsAsciiAlnum(c: char) { IsAsciiLower(c) || IsAsciiUpper(c) || IsDigit(c) }

  /** The regular-expression class `\w`, that is `[A-Za-z0-9_]` (no `u` flag). */
  predicate IsWordChar(c: char) { IsAsciiAlnum(c) || c == '_' }

  predicate NoAsciiUpper(s: string) {
    forall i :: 0 <= i < |s| ==> !IsAsciiUpper(s[i])
  }

  predicate IsPrefix(p: string, s: string) {
    |p| <= |s| && s[..|p|] == p
  }

  predicate EndsWith(s: string, t: string) {
    |t| <= |s| && s[|s| - |t|..] == t
  }

  /**
   * The full lower-case mapping of one character, as far as it can reach
   * ASCII: `A`-`Z`, the Kelvin sign (U+212A, to `k`) and the capital I with
   * dot above (U+0130, to `i` followed by U+0307). Every other character is
   * kept: its lower-case form, if any, is again outside ASCII.
   */
  function LowerChar(c: char): (r: string)
    ensures NoAsciiUpper(r)
    ensures '/' in r <==> c == '/'
    ensures IsAsciiLower(c) || IsDigit(c) || c == '-' || c == '/' ==> r == [c]
  {
    if IsAsciiUpper(c) then [(c as int + 32) as char]
    else if c == '\U{212A}' then "k"
    else if c == '\U{0130}' then "i\U{0307}"
    else [c]
  }

  /** `String.prototype.toLowerCase`, character by character. */
  function LowerCase(s: string): (r: string)
    ensures NoAsciiUpper(r)
    ensures '/' in r <==> '/' in s
  {
    if s == [] then [] else LowerChar(s[0]) + LowerCase(s[1..])
  }

  lemma {:induction false} LowerCaseAppend(a: string, b: string)
    ensures LowerCase(a + b) == LowerCase(a) + LowerCase(b)
  {
    if a == [] {
      assert a + b == b;
    } else {
      assert (a + b)[0] == a[0];
      assert (a + b)[1..] == a[1..] + b;
      LowerCaseAppend(a[1..], b);
    }
  }

  /** The characters that `toLowerCase`, as modelled, leaves alone. */
  predicate IsLowerFixed(c: char) {
    !IsAsciiUpper(c) && c != '\U{212A}' && c != '\U{0130}'
  }

  /** A string without upper-case letters is its own lower-case form. */
  lemma {:induction false} LowerCaseOfLower(s: string)
    requires forall i :: 0 <= i < |s| ==> IsLowerFixed(s[i])
    ensures LowerCase(s) == s
  {
    if s != [] {
      LowerCaseOfLower(s[1..]);
      assert LowerChar(s[0]) == [s[0]];
      assert s == [s[0]] + s[1..];
    }
  }

  /** The ASCII upper-case form of one character. */
  function UpperChar(c: char): (r: char)
    ensures !IsAsciiLower(r)
    ensures !IsAsciiLower(c) ==> r == c
  {
    if IsAsciiLower(c) then (c as int - 32) as char else c
  }

  /** ASCII-only `String.prototype.toUpperCase`. */
  function UpperCase(s: string): (r: string)
    ensures |r| == |s|
    ensures forall i :: 0 <= i < |r| ==> !IsAsciiLower(r[i])
    ensures forall i :: 0 <= i < |s| && !IsAsciiLower(s[i]) ==> r[i] == s[i]
  {
    if s == [] then []
    else [UpperChar(s[0])] + UpperCase(s[1..])
  }

  /** `s.charAt(0).toUpperCase() + s.slice(1)`. */
  function Capitalize(s: string): (r: string)
    ensures |r| == |s|
    ensures s != [] ==> r[1..] == s[1..] && !IsAsciiLower(r[0])
  {
    if s == [] then [] else UpperCase(s[..1]) + s[1..]
  }

  /** `s.split(sep)` with a one-character separator. */
  function Split(s: string, sep: char): (parts: seq<string>)
    ensures |parts| >= 1
    ensures forall k :: 0 <= k < |parts| ==> sep !in parts[k]
    ensures |parts| == 1 <==> sep !in s
    ensures |parts| == 1 ==> parts[0] == s
  {
    if s == [] then [[]]
    else
      var rest := Split(s[1..], sep);
      if s[0] == sep then [[]] + rest
      else [[s[0]] + rest[0]] + rest[1..]
  }

  /** `parts.join(sep)`. */
  function Join(parts: seq<string>, sep: char): string {
    if parts == [] then []
    else if |parts| == 1 then parts[0]
    else parts[0] + [sep] + Join(parts[1..], sep)
  }

  /** Joining the parts of a split gives the string back. */
  lemma {:induction false} SplitJoin(s: string, sep: char)
    ensures Join(Split(s, sep), sep) == s
  {
    if s != [] {
      SplitJoin(s[1..], sep);
      var rest := Split(s[1..], sep);
      if s[0] == sep {
        assert Split(s, sep)[1..] == rest;
        assert s == [sep] + s[1..];
      } else if |rest| > 1 {
        var parts := Split(s, sep);
        assert parts[1..] == rest[1..];
        assert Join(rest, sep) == rest[0] + [sep] + Join(rest[1..], sep);
        assert s == [s[0]] + s[1..];
      }
    }
  }

  lemma {:induction false} SplitLast(s: string, sep: char)
    ensures var parts := Split(s, sep); var last := parts[|parts| - 1];
      && EndsWith(s, last)
      && (|last| < |s| ==> s[|s| - |last| - 1] == sep)
  {
    if s != [] {
      SplitLast(s[1..], sep);
      var rest := Split(s[1..], sep);
      var parts := Split(s, sep);
      if s[0] == sep {
        assert parts[|parts| - 1] == rest[|rest| - 1];
      } else if |rest| > 1 {
        assert parts[|parts| - 1] == rest[|rest| - 1];
      } else {
        assert parts[0] == [s[0]] + s[1..] == s;
      }
    }
  }

  /**
   * The last element of `s.split(sep)`: the longest suffix of `s` that does
   * not contain `sep`.
   */
  function LastSplitPart(s: string, sep: char): (last: string)
    ensures EndsWith(s, last) && sep !in last
    ensures |last| < |s| ==> s[|s| - |last| - 1] == sep
  {
    SplitLast(s, sep);
    var parts := Split(s, sep);
    parts[|parts| - 1]
  }

  /** The last part after a separator is what follows the separator. */
  lemma LastSplitPartAfter(a: string, sep: char, b: string)
    requires sep !in b
    ensures LastSplitPart(a + [sep] + b, sep) == b
  {
    var s := a + [sep] + b;
    var last := LastSplitPart(s, sep);
    assert s[|s| - |b| - 1] == sep;
    assert forall i :: |s| - |b| <= i < |s| ==> s[i] == b[i - (|s| - |b|)];
    assert |last| == |b|;
    assert last == s[|s| - |b|..] == b;
  }

  /** `s.replace(/[^K]/g, '')`: keep only the characters of class `keep`, in order. */
  function Filter(s: string, keep: char -> bool): (r: string)
    ensures |r| <= |s|
    ensures forall c :: c in r <==> c in s && keep(c)
  {
    if s == [] then []
    else if keep(s[0]) then [s[0]] + Filter(s[1..], keep)
    else Filter(s[1..], keep)
  }

  lemma {:induction false} FilterAppend(a: string, b: string, keep: char -> bool)
    ensures Filter(a + b, keep) == Filter(a, keep) + Filter(b, keep)
  {
    if a == [] {
      assert a + b == b;
    } else {
      assert (a + b)[0] == a[0];
      assert (a + b)[1..] == a[1..] + b;
      FilterAppend(a[1..], b, keep);
    }
  }

  lemma {:induction false} FilterAll(s: string, keep: char -> bool)
    requires forall i :: 0 <= i < |s| ==> keep(s[i])
    ensures Filter(s, keep) == s
  {
    if s != [] {
      FilterAll(s[1..], keep);
    }
  }

  lemma {:induction false} FilterNone(s: string, keep: char -> bool)
    requires forall i :: 0 <= i < |s| ==> !keep(s[i])
    ensures Filter(s, keep) == []
  {
    if s != [] {
      FilterNone(s[1..], keep);
    }
  }

  /**
   * `s.replace(/D+$/, '')`: remove the trailing run of characters of class
   * `drop`. The result is the longest prefix of `s` that does not end in such
   * a character, and everything removed belongs to the class.
   */
  function DropTrailing(s: string, drop: char -> bool): (r: string)
    ensures IsPrefix(r, s)
    ensures r == [] || !drop(r[|r| - 1])
    ensures forall i :: |r| <= i < |s| ==> drop(s[i])
  {
    if s == [] || !drop(s[|s| - 1]) then s
    else DropTrailing(s[..|s| - 1], drop)
  }

  /** `s.substring(0, n)` and `s.slice(0, n)` for `n >= 0`. */
  function Take(s: string, n: nat): (r: string)
    ensures |r| == if |s| <= n then |s| else n
    ensures IsPrefix(r, s)
  {
    if |s| <= n then s else s[..n]
  }
}
