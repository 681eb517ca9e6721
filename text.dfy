/**
 * String rules used by the API layer: ASCII case conversion (Python's
 * str.lower / str.upper restricted to ASCII letters), str.split on one
 * separator character with its inverse, and str.endswith for one character.
 */
module Text {

  predicate IsUpper(c: char) { 'A' <= c <= 'Z' }

  predicate IsLower(c: char) { 'a' <= c <= 'z' }

  function ToLower(c: char): (r: char)
    ensures !IsUpper(r)
    ensures IsUpper(c) ==> IsLower(r)
    ensures !IsUpper(c) ==> r == c
  {
    if IsUpper(c) then (c as int + 32) as char else c
  }

  function ToUpper(c: char): (r: char)
    ensures !IsLower(r)
    ensures IsLower(c) ==> IsUpper(r)
    ensures !IsLower(c) ==> r == c
  {
    if IsLower(c) then (c as int - 32) as char else c
  }

  /** Python's s.lower() on ASCII letters. */
  function Lower(s: string): (r: string)
    ensures |r| == |s|
    ensures forall i :: 0 <= i < |s| ==> r[i] == ToLower(s[i])
  {
    if s == [] then [] else [ToLower(s[0])] + Lower(s[1..])
  }

  /** Python's s.upper() on ASCII letters. */
  function Upper(s: string): (r: string)
    ensures |r| == |s|
    ensures forall i :: 0 <= i < |s| ==> r[i] == ToUpper(s[i])
  {
    if s == [] then [] else [ToUpper(s[0])] + Upper(s[1..])
  }

  predicate HasUpper(s: string) {
    s != [] && (IsUpper(s[0]) || HasUpper(s[1..]))
  }

  lemma {:induction false} HasUpperAt(s: string)
    requires HasUpper(s)
    ensures exists i :: 0 <= i < |s| && IsUpper(s[i])
  {
    if !IsUpper(s[0]) {
      HasUpperAt(s[1..]);
      var i :| 0 <= i < |s[1..]| && IsUpper(s[1..][i]);
      assert IsUpper(s[i + 1]);
    }
  }

  /** A lower-cased string can never equal a string that holds an upper-case letter. */
  lemma LowerNeverEqualsUpperCased(s: string, key: string)
    requires HasUpper(key)
    ensures Lower(s) != key
  {
    HasUpperAt(key);
    var i :| 0 <= i < |key| && IsUpper(key[i]);
    if |s| == |key| {
      assert Lower(s)[i] != key[i];
    }
  }

  predicate NoLower(s: string) {
    s == [] || (!IsLower(s[0]) && NoLower(s[1..]))
  }

  lemma {:induction false} UpperKeepsNoLower(s: string)
    requires NoLower(s)
    ensures Upper(s) == s
  {
    if s != [] {
      UpperKeepsNoLower(s[1..]);
      assert Upper(s) == [ToUpper(s[0])] + Upper(s[1..]);
    }
  }

  /** Upper-casing a lower-cased string gives back a string without lower-case letters unchanged. */
  lemma {:induction false} UpperOfLower(s: string)
    requires NoLower(s)
    ensures Upper(Lower(s)) == s
  {
    if s != [] {
      UpperOfLower(s[1..]);
      assert Lower(s) == [ToLower(s[0])] + Lower(s[1..]);
      assert Upper(Lower(s)) == [ToUpper(ToLower(s[0]))] + Upper(Lower(s[1..]));
    }
  }

  /** Position of the first occurrence of c in s, or |s| when c does not occur. */
  function IndexOf(s: string, c: char): (i: nat)
    ensures i <= |s|
    ensures i < |s| ==> s[i] == c
    ensures forall j :: 0 <= j < i ==> s[j] != c
    ensures i == |s| <==> c !in s
  {
    if s == [] then 0 else if s[0] == c then 0 else 1 + IndexOf(s[1..], c)
  }

  /** Python's s.split(sep) for a one-character separator. */
  function Split(s: string, sep: char): (parts: seq<string>)
    ensures |parts| >= 1
    decreases |s|
  {
    var i := IndexOf(s, sep);
    if i == |s| then [s] else [s[..i]] + Split(s[i + 1..], sep)
  }

  /** Python's sep.join(parts). */
  function Join(parts: seq<string>, sep: char): string
    requires |parts| >= 1
  {
    if |parts| == 1 then parts[0] else parts[0] + [sep] + Join(parts[1..], sep)
  }

  /** Splitting and joining again gives back the original string, and no part holds the separator. */
  lemma {:induction false} SplitJoin(s: string, sep: char)
    ensures Join(Split(s, sep), sep) == s
    ensures forall k :: 0 <= k < |Split(s, sep)| ==> sep !in Split(s, sep)[k]
    decreases |s|
  {
    var i := IndexOf(s, sep);
    if i < |s| {
      SplitJoin(s[i + 1..], sep);
      assert s == s[..i] + [sep] + s[i + 1..];
      var parts := Split(s, sep);
      assert parts[1..] == Split(s[i + 1..], sep);
      forall k | 0 <= k < |parts| ensures sep !in parts[k] {
        if k > 0 {
          assert parts[k] == Split(s[i + 1..], sep)[k - 1];
        }
      }
    }
  }

  /** The first part is the text before the first separator; the rest is what follows it. */
  lemma SplitHead(s: string, sep: char)
    ensures Split(s, sep)[0] == s[..IndexOf(s, sep)]
    ensures IndexOf(s, sep) < |s| ==> Split(s, sep)[1..] == Split(s[IndexOf(s, sep) + 1..], sep)
    ensures IndexOf(s, sep) == |s| <==> |Split(s, sep)| == 1
  {
  }

  predicate EndsWith(s: string, c: char) {
    |s| > 0 && s[|s| - 1] == c
  }

  /** Decimal digits of a natural number, as Python's str() prints them. */
  function NatToString(n: nat): (r: string)
    ensures |r| >= 1
    ensures forall i :: 0 <= i < |r| ==> '0' <= r[i] <= '9'
  {
    if n < 10 then [(48 + n) as char] else NatToString(n / 10) + [(48 + n % 10) as char]
  }

  /** Python's str() of an int: decimal digits, with a leading '-' when negative. */
  function IntToString(n: int): (r: string)
    ensures |r| >= 1
    ensures forall i :: 0 <= i < |r| ==> r[i] == '-' || '0' <= r[i] <= '9'
  {
    if n < 0 then "-" + NatToString(-n) else NatToString(n)
  }

  /** Different numbers print differently. */
  lemma {:induction false} NatToStringInjective(a: nat, b: nat)
    requires NatToString(a) == NatToString(b)
    ensures a == b
  {
    var ra, rb := NatToString(a), NatToString(b);
    if a < 10 && b < 10 {
      assert ra[0] == rb[0];
    } else if a >= 10 && b >= 10 {
      var pa, pb := NatToString(a / 10), NatToString(b / 10);
      assert ra == pa + [(48 + a % 10) as char] && rb == pb + [(48 + b % 10) as char];
      assert |pa| == |pb|;
      assert pa == ra[..|pa|] && pb == rb[..|pb|];
      assert ra[|pa|] == rb[|pb|];
      NatToStringInjective(a / 10, b / 10);
    }
  }

  /** A printed int starts with '-' exactly when it is negative. */
  lemma IntToStringSign(n: int)
    ensures IntToString(n)[0] == '-' <==> n < 0
  {
    if n >= 0 {
      assert '0' <= NatToString(n)[0] <= '9';
    }
  }

  lemma IntToStringInjective(a: int, b: int)
    requires IntToString(a) == IntToString(b)
    ensures a == b
  {
    IntToStringSign(a);
    IntToStringSign(b);
    var ra, rb := IntToString(a), IntToString(b);
    if a < 0 && b < 0 {
      assert NatToString(-a) == ra[1..] && NatToString(-b) == rb[1..];
      NatToStringInjective(-a, -b);
    } else if a >= 0 && b >= 0 {
      NatToStringInjective(a, b);
    }
  }
}
