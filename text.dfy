/** Strings, characters and the small pieces of ECMAScript string and regular-expression
    behaviour the importer relies on: the `\s` and `\w` classes, `trim`, ASCII
    case-insensitive matching (`/i` without `u`), substring search and decimal
    formatting of numbers as a template literal does it. */
module Text {

  datatype Option<+T> = None | Some(value: T)

  /** The value of a call that either returns or throws an `Error` with a message. */
  datatype Result<+T> = Ok(value: T) | Err(message: string)

  /** `\s` of an ECMAScript regular expression: WhiteSpace and LineTerminator.
      String.prototype.trim removes exactly the same characters. */
  predicate IsSpace(c: char) {
    c == '\t' || c == '\n' || c == '\U{000B}' || c == '\U{000C}' || c == '\r' || c == ' '
    || c == '\U{00A0}' || c == '\U{1680}' || ('\U{2000}' <= c <= '\U{200A}')
    || c == '\U{2028}' || c == '\U{2029}' || c == '\U{202F}' || c == '\U{205F}'
    || c == '\U{3000}' || c == '\U{FEFF}'
  }

  /** The characters `.` does not match. */
  predicate IsLineTerminator(c: char) {
    c == '\n' || c == '\r' || c == '\U{2028}' || c == '\U{2029}'
  }

  predicate IsDigit(c: char) { '0' <= c <= '9' }
  predicate IsUpper(c: char) { 'A' <= c <= 'Z' }
  predicate IsLower(c: char) { 'a' <= c <= 'z' }

  /** `\w`; also `[A-Z0-9_]` and `[a-zA-Z0-9_]` under the `/i` flag. */
  predicate IsWordChar(c: char) { IsUpper(c) || IsLower(c) || IsDigit(c) || c == '_' }

  /** The character classes the importer's regular expressions use. */
  datatype CharClass =
    | Space        // \s
    | Word         // \w, and [A-Z0-9_] under /i
    | Digit        // \d
    | UpperArg     // [A-Z0-9_] without /i
    | Letter       // [a-zA-Z_]
    | NotLineEnd   // .

  predicate InClass(c: char, k: CharClass) {
    match k
    case Space => IsSpace(c)
    case Word => IsWordChar(c)
    case Digit => IsDigit(c)
    case UpperArg => IsUpper(c) || IsDigit(c) || c == '_'
    case Letter => IsUpper(c) || IsLower(c) || c == '_'
    case NotLineEnd => !IsLineTerminator(c)
  }

  /** End of the longest run of class `k` that starts at `i`: what a greedy `k*` consumes. */
  function ScanEnd(s: string, i: nat, k: CharClass): (j: nat)
    requires i <= |s|
    ensures i <= j <= |s|
    ensures forall m :: i <= m < j ==> InClass(s[m], k)
    ensures j < |s| ==> !InClass(s[j], k)
    decreases |s| - i
  {
    if i < |s| && InClass(s[i], k) then ScanEnd(s, i + 1, k) else i
  }

  /** The two ends of a run are its only description: any index with the run's
      two properties is the one ScanEnd finds. */
  lemma ScanEndUnique(s: string, i: nat, k: CharClass, j: nat)
    requires i <= j <= |s|
    requires forall m :: i <= m < j ==> InClass(s[m], k)
    requires j < |s| ==> !InClass(s[j], k)
    ensures ScanEnd(s, i, k) == j
  {
  }

  /** ASCII upper case; toUpperCase agrees with it on every string the importer upper-cases. */
  function UpperChar(c: char): (u: char)
    ensures IsLower(c) ==> IsUpper(u)
    ensures !IsLower(c) ==> u == c
  {
    if IsLower(c) then (c as int - 32) as char else c
  }

  function Upper(s: string): (r: string)
    ensures |r| == |s|
    ensures forall m :: 0 <= m < |s| ==> r[m] == UpperChar(s[m])
  {
    seq(|s|, m requires 0 <= m < |s| => UpperChar(s[m]))
  }

  /** `s[i..]` begins with `lit`. */
  predicate StartsAt(s: string, i: nat, lit: string) {
    i <= |s| && lit <= s[i..]
  }

  /** `s` begins with `lit` when both are compared as an ECMAScript `/i` pattern
      compares them (`lit` is ASCII): only ASCII letters fold. */
  predicate StartsWithIgnoringCase(s: string, lit: string) {
    |lit| <= |s| && forall m :: 0 <= m < |lit| ==> UpperChar(s[m]) == UpperChar(lit[m])
  }

  /** First index at or after `i` where `c` occurs. */
  function FindChar(s: string, i: nat, c: char): (r: Option<nat>)
    requires i <= |s|
    ensures r.Some? ==> i <= r.value < |s| && s[r.value] == c
    ensures r.Some? ==> forall m :: i <= m < r.value ==> s[m] != c
    ensures r.None? ==> forall m :: i <= m < |s| ==> s[m] != c
    decreases |s| - i
  {
    if i == |s| then None
    else if s[i] == c then Some(i)
    else FindChar(s, i + 1, c)
  }

  /** First index at or after `i` where `lit` occurs (String.prototype.indexOf). */
  function FindSub(s: string, i: nat, lit: string): (r: Option<nat>)
    requires i <= |s|
    ensures r.Some? ==> i <= r.value && r.value + |lit| <= |s| && StartsAt(s, r.value, lit)
    ensures r.Some? ==> forall m :: i <= m < r.value ==> !StartsAt(s, m, lit)
    ensures r.None? ==> forall m :: i <= m <= |s| ==> !StartsAt(s, m, lit)
    decreases |s| - i
  {
    if StartsAt(s, i, lit) then Some(i)
    else if i == |s| then None
    else FindSub(s, i + 1, lit)
  }

  /** String.prototype.includes. */
  predicate Contains(s: string, lit: string) {
    FindSub(s, 0, lit).Some?
  }

  /** A literal cannot occur in a string that lacks one of its characters. */
  lemma NotContainsMissingChar(s: string, lit: string, c: char)
    requires c in lit
    requires c !in s
    ensures !Contains(s, lit)
  {
  }

  /** Index of the last non-space character in `s[lo..hi]`, plus one (or `lo`). */
  function TrimEndIndex(s: string, lo: nat, hi: nat): (j: nat)
    requires lo <= hi <= |s|
    ensures lo <= j <= hi
    ensures forall m :: j <= m < hi ==> IsSpace(s[m])
    ensures j > lo ==> !IsSpace(s[j - 1])
    decreases hi
  {
    if hi > lo && IsSpace(s[hi - 1]) then TrimEndIndex(s, lo, hi - 1) else hi
  }

  /** String.prototype.trim. */
  function Trim(s: string): (r: string)
  {
    var lo := ScanEnd(s, 0, Space);
    s[lo..TrimEndIndex(s, lo, |s|)]
  }

  /** Trim removes exactly the leading and trailing spaces: what it returns is a
      slice of the input with nothing but spaces around it, and neither starts
      nor ends with a space; it is empty exactly when the input is all spaces. */
  lemma TrimSpec(s: string)
    ensures var lo := ScanEnd(s, 0, Space); var hi := TrimEndIndex(s, lo, |s|);
      Trim(s) == s[lo..hi]
      && (forall m :: 0 <= m < lo ==> IsSpace(s[m]))
      && (forall m :: hi <= m < |s| ==> IsSpace(s[m]))
    ensures Trim(s) != [] ==> !IsSpace(Trim(s)[0]) && !IsSpace(Trim(s)[|Trim(s)| - 1])
    ensures Trim(s) == [] <==> forall m :: 0 <= m < |s| ==> IsSpace(s[m])
  {
    var lo := ScanEnd(s, 0, Space);
    var hi := TrimEndIndex(s, lo, |s|);
    if Trim(s) == [] {
      assert lo == hi;
      forall m | 0 <= m < |s| ensures IsSpace(s[m]) {
        if m >= hi {
        } else {
          assert m < lo;
        }
      }
    }
  }

  /** Trimming twice is trimming once. */
  lemma {:induction false} TrimIdempotent(s: string)
    ensures Trim(Trim(s)) == Trim(s)
  {
    var t := Trim(s);
    TrimSpec(s);
    if t == [] {
      assert Trim(t) == [];
    } else {
      assert ScanEnd(t, 0, Space) == 0;
      ScanEndUnique(t, 0, Space, 0);
      assert TrimEndIndex(t, 0, |t|) == |t|;
    }
  }

  /** A string that starts with a non-space character keeps it first after trimming. */
  lemma TrimKeepsFirst(s: string)
    requires s != [] && !IsSpace(s[0])
    ensures Trim(s) != [] && Trim(s)[0] == s[0]
  {
    TrimSpec(s);
    assert ScanEnd(s, 0, Space) == 0;
  }

  function DigitChar(d: nat): (c: char)
    requires d < 10
    ensures IsDigit(c)
  {
    ('0' as int + d) as char
  }

  /** Decimal notation of a natural number, as `${n}` and Number.prototype.toString write it. */
  function NatToString(n: nat): (r: string)
    ensures r != []
    ensures forall m :: 0 <= m < |r| ==> IsDigit(r[m])
    decreases n
  {
    if n < 10 then [DigitChar(n)] else NatToString(n / 10) + [DigitChar(n % 10)]
  }

  /** The number a string of decimal digits denotes. */
  function DigitsValue(s: string): nat
    requires forall m :: 0 <= m < |s| ==> IsDigit(s[m])
    decreases |s|
  {
    if s == [] then 0
    else assert IsDigit(s[|s| - 1]); DigitsValue(s[..|s| - 1]) * 10 + (s[|s| - 1] as int - '0' as int)
  }

  /** Reading back the decimal notation gives the number. */
  lemma {:induction false} NatToStringRoundTrip(n: nat)
    ensures DigitsValue(NatToString(n)) == n
    decreases n
  {
    if n >= 10 {
      var r := NatToString(n);
      assert r[..|r| - 1] == NatToString(n / 10);
      NatToStringRoundTrip(n / 10);
    }
  }

  lemma NatToStringInjective(a: nat, b: nat)
    requires NatToString(a) == NatToString(b)
    ensures a == b
  {
    NatToStringRoundTrip(a);
    NatToStringRoundTrip(b);
  }

  /** `${i}` for an integer. */
  function IntToString(i: int): (r: string)
    ensures r != []
    ensures forall m :: 0 <= m < |r| ==> IsDigit(r[m]) || (m == 0 && r[m] == '-')
  {
    if i < 0 then "-" + NatToString(-i) else NatToString(i)
  }

  lemma IntToStringInjective(a: int, b: int)
    requires IntToString(a) == IntToString(b)
    ensures a == b
  {
    var sa, sb := IntToString(a), IntToString(b);
    assert (a < 0) == (sa[0] == '-');
    assert (b < 0) == (sb[0] == '-');
    if a < 0 {
      assert NatToString(-a) == sa[1..];
      assert NatToString(-b) == sb[1..];
      NatToStringInjective(-a, -b);
    } else {
      NatToStringInjective(a, b);
    }
  }

  /** Two strings joined around a separator that neither left part contains split back
      into the same parts. */
  lemma SplitAtSeparator(x: string, y: string, x2: string, y2: string, sep: char)
    requires sep !in x && sep !in x2
    requires x + [sep] + y == x2 + [sep] + y2
    ensures x == x2 && y == y2
  {
    var s := x + [sep] + y;
    var s2 := x2 + [sep] + y2;
    assert forall m :: 0 <= m < |x| ==> s[m] == x[m];
    assert forall m :: 0 <= m < |x2| ==> s2[m] == x2[m];
    assert s[|x|] == sep && s2[|x2|] == sep;
    var f := FindChar(s, 0, sep);
    assert f == Some(|x|);
    assert f == Some(|x2|);
    assert x == s[..|x|] == s2[..|x|] == x2;
    assert y == s[|x| + 1..] == s2[|x| + 1..] == y2;
  }

  /** Array.prototype.join. */
  function Join(parts: seq<string>, sep: string): string
    decreases |parts|
  {
    if parts == [] then ""
    else if |parts| == 1 then parts[0]
    else parts[0] + sep + Join(parts[1..], sep)
  }
}
