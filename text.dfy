/**
 * The string operations the storefront relies on, as JavaScript's String methods
 * behave on ASCII text: trim, split on a one-character separator, join, lower-case,
 * prefix and substring tests.
 */
module Text {
  import opened Listing

  /** The whitespace `String.prototype.trim` removes, restricted to ASCII. */
  predicate IsSpace(c: char)
  {
    c == ' ' || c == '\t' || c == '\n' || c == '\r' || c == '\U{000B}' || c == '\U{000C}'
  }

  predicate IsBlank(s: string)
  {
    forall i :: 0 <= i < |s| ==> IsSpace(s[i])
  }

  /** No whitespace at either end: what `trim` leaves behind. */
  predicate IsTrimmed(s: string)
  {
    s == [] || (!IsSpace(s[0]) && !IsSpace(s[|s| - 1]))
  }

  /** Drops leading whitespace: the result is the longest suffix that starts with a non-space. */
  function TrimStart(s: string): (r: string)
    ensures |r| <= |s| && r == s[|s| - |r|..]
    ensures r == [] || !IsSpace(r[0])
    ensures forall i :: 0 <= i < |s| - |r| ==> IsSpace(s[i])
    ensures r == [] <==> IsBlank(s)
    decreases |s|
  {
    if s != [] && IsSpace(s[0]) then TrimStart(s[1..]) else s
  }

  /** Drops trailing whitespace: the result is the longest prefix that ends with a non-space. */
  function TrimEnd(s: string): (r: string)
    ensures |r| <= |s| && r == s[..|r|]
    ensures r == [] || !IsSpace(r[|r| - 1])
    ensures forall i :: |r| <= i < |s| ==> IsSpace(s[i])
    ensures r == [] <==> IsBlank(s)
    decreases |s|
  {
    if s != [] && IsSpace(s[|s| - 1]) then TrimEnd(s[..|s| - 1]) else s
  }

  /** `s.trim()`. */
  function Trim(s: string): (r: string)
    ensures IsTrimmed(r)
    ensures |r| <= |s|
    ensures r == [] <==> IsBlank(s)
  {
    var t := TrimStart(s);
    var r := TrimEnd(t);
    assert IsBlank(t) <==> t == [];
    r
  }

  lemma {:induction false} TrimStartOfTrimmed(s: string)
    requires s == [] || !IsSpace(s[0])
    ensures TrimStart(s) == s
  {
  }

  lemma {:induction false} TrimEndOfTrimmed(s: string)
    requires s == [] || !IsSpace(s[|s| - 1])
    ensures TrimEnd(s) == s
  {
  }

  /** Trimming a trimmed string changes nothing, so `trim` is idempotent. */
  lemma TrimOfTrimmed(s: string)
    requires IsTrimmed(s)
    ensures Trim(s) == s
  {
    TrimStartOfTrimmed(s);
    TrimEndOfTrimmed(s);
  }

  lemma TrimIdempotent(s: string)
    ensures Trim(Trim(s)) == Trim(s)
  {
    TrimOfTrimmed(Trim(s));
  }

  /** `s.split(sep)` for a one-character separator: always at least one part, none holding `sep`. */
  function Split(s: string, sep: char): (parts: seq<string>)
    ensures |parts| >= 1
    ensures forall i :: 0 <= i < |parts| ==> sep !in parts[i]
    decreases |s|
  {
    if s == [] then [[]]
    else
      var rest := Split(s[1..], sep);
      if s[0] == sep then [[]] + rest
      else [[s[0]] + rest[0]] + rest[1..]
  }

  /** `parts.join(sep)`. */
  function Join(parts: seq<string>, sep: char): string
  {
    if parts == [] then []
    else if |parts| == 1 then parts[0]
    else parts[0] + [sep] + Join(parts[1..], sep)
  }

  /** Joining the parts of a split gives back the original string. */
  lemma {:induction false} JoinSplit(s: string, sep: char)
    ensures Join(Split(s, sep), sep) == s
    decreases |s|
  {
    if s != [] {
      var rest := Split(s[1..], sep);
      JoinSplit(s[1..], sep);
      if s[0] == sep {
        assert Split(s, sep) == [[]] + rest;
        assert Join(Split(s, sep), sep) == [] + [sep] + Join(rest, sep);
      } else {
        var parts := Split(s, sep);
        assert parts == [[s[0]] + rest[0]] + rest[1..];
        if |rest| == 1 {
          assert Join(parts, sep) == [s[0]] + rest[0];
          assert Join(rest, sep) == rest[0];
        } else {
          assert parts[1..] == rest[1..];
          assert Join(rest, sep) == rest[0] + [sep] + Join(rest[1..], sep);
          assert Join(parts, sep) == ([s[0]] + rest[0]) + [sep] + Join(rest[1..], sep);
        }
      }
    }
  }

  /** Splitting a string that begins with a separator-free prefix extends the first part by that prefix. */
  lemma {:induction false} SplitPrefix(p: string, rest: string, sep: char)
    requires sep !in p
    ensures Split(p + rest, sep) == [p + Split(rest, sep)[0]] + Split(rest, sep)[1..]
    decreases |p|
  {
    if p != [] {
      var tail := Split(p[1..] + rest, sep);
      assert (p + rest)[1..] == p[1..] + rest;
      assert (p + rest)[0] == p[0];
      SplitPrefix(p[1..], rest, sep);
      assert [p[0]] + (p[1..] + Split(rest, sep)[0]) == p + Split(rest, sep)[0];
    } else {
      var parts := Split(rest, sep);
      assert p + rest == rest;
      assert p + parts[0] == parts[0];
      assert parts == [parts[0]] + parts[1..];
    }
  }

  /** Every character of a part comes from the split text. */
  lemma {:induction false} SplitPartsFromText(s: string, sep: char)
    ensures forall i, c :: 0 <= i < |Split(s, sep)| && c in Split(s, sep)[i] ==> c in s
    decreases |s|
  {
    if s != [] {
      SplitPartsFromText(s[1..], sep);
      assert forall c :: c in s[1..] ==> c in s;
    }
  }

  /** Splitting a join of separator-free parts gives back the parts. */
  lemma {:induction false} SplitJoin(parts: seq<string>, sep: char)
    requires |parts| >= 1
    requires forall i :: 0 <= i < |parts| ==> sep !in parts[i]
    ensures Split(Join(parts, sep), sep) == parts
    decreases |parts|
  {
    if |parts| == 1 {
      SplitPrefix(parts[0], [], sep);
      assert parts[0] + [] == parts[0];
    } else {
      var tail := Join(parts[1..], sep);
      SplitJoin(parts[1..], sep);
      assert Join(parts, sep) == parts[0] + ([sep] + tail);
      SplitPrefix(parts[0], [sep] + tail, sep);
      assert ([sep] + tail)[1..] == tail;
      assert Split([sep] + tail, sep) == [[]] + Split(tail, sep);
      assert Split([sep] + tail, sep)[0] == [];
      assert Split([sep] + tail, sep)[1..] == parts[1..];
      assert parts[0] + [] == parts[0];
      assert parts == [parts[0]] + parts[1..];
    }
  }

  /** ASCII `toLowerCase` of one character. */
  function LowerChar(c: char): char
  {
    if 'A' <= c <= 'Z' then (c as int + 32) as char else c
  }

  /** `s.toLowerCase()` on ASCII letters. */
  function Lower(s: string): (r: string)
    ensures |r| == |s|
    ensures forall i :: 0 <= i < |s| ==> r[i] == LowerChar(s[i])
  {
    seq(|s|, i requires 0 <= i < |s| => LowerChar(s[i]))
  }

  /** `a.toLowerCase() === b.toLowerCase()`. */
  predicate EqualsIgnoreCase(a: string, b: string)
  {
    Lower(a) == Lower(b)
  }

  /** `s.startsWith(p)`. */
  predicate StartsWith(s: string, p: string)
  {
    |p| <= |s| && s[..|p|] == p
  }

  /** `s.includes(sub)`: some position of `s` starts a copy of `sub`. */
  predicate Contains(s: string, sub: string)
    decreases |s|
  {
    StartsWith(s, sub) || (s != [] && Contains(s[1..], sub))
  }
  /** The decimal digits of a natural number, as template-literal interpolation prints it. */
  function Decimal(n: nat): (r: string)
    ensures r != []
    ensures forall i :: 0 <= i < |r| ==> '0' <= r[i] <= '9'
  {
    var d := ['0' + (n % 10) as char];
    if n < 10 then d else Decimal(n / 10) + d
  }

  /** `parts.map(v => v.trim())`. */
  function TrimAll(parts: seq<string>): (r: seq<string>)
    ensures |r| == |parts|
    ensures forall i :: 0 <= i < |parts| ==> r[i] == Trim(parts[i])
  {
    seq(|parts|, i requires 0 <= i < |parts| => Trim(parts[i]))
  }

  function NonEmpty(s: string): bool
  {
    s != ""
  }

  /** A field as the list parsers keep it: non-blank, trimmed, free of the separator. */
  predicate CleanField(x: string, sep: char)
  {
    x != "" && IsTrimmed(x) && sep !in x
  }

  /** `s.split(sep).map(v => v.trim()).filter(Boolean)`: the non-blank fields, trimmed, in order. */
  function SplitTrimmed(s: string, sep: char): (r: seq<string>)
    ensures forall x :: x in r ==> CleanField(x, sep)
  {
    var trimmed := TrimAll(Split(s, sep));
    TrimAllFields(Split(s, sep), sep);
    Filter(trimmed, NonEmpty)
  }

  lemma TrimAllFields(parts: seq<string>, sep: char)
    requires forall i :: 0 <= i < |parts| ==> sep !in parts[i]
    ensures forall x :: x in TrimAll(parts) ==> IsTrimmed(x) && sep !in x
  {
    var r := TrimAll(parts);
    forall x | x in r ensures IsTrimmed(x) && sep !in x {
      var i :| 0 <= i < |r| && r[i] == x;
      TrimKeepsOut(parts[i], sep);
    }
  }

  /** Trimming only removes characters, so it cannot introduce one. */
  lemma TrimKeepsOut(s: string, c: char)
    requires c !in s
    ensures c !in Trim(s)
  {
    var t := TrimStart(s);
    SliceKeepsOut(s, |s| - |t|, |s|, c);
    var r := TrimEnd(t);
    SliceKeepsOut(t, 0, |r|, c);
  }

  lemma SliceKeepsOut(s: string, i: int, j: int, c: char)
    requires 0 <= i <= j <= |s| && c !in s
    ensures c !in s[i..j]
  {
    var x := s[i..j];
    forall k | 0 <= k < |x| ensures x[k] != c {
      assert x[k] == s[i + k];
      assert s[i + k] in s;
    }
  }

  lemma TrimAllOfTrimmed(xs: seq<string>)
    requires forall i :: 0 <= i < |xs| ==> IsTrimmed(xs[i])
    ensures TrimAll(xs) == xs
  {
    forall i | 0 <= i < |xs| ensures TrimAll(xs)[i] == xs[i] {
      TrimOfTrimmed(xs[i]);
    }
  }

  /** Joining non-blank, trimmed, separator-free fields and parsing them back gives the same fields. */
  lemma SplitTrimmedJoin(xs: seq<string>, sep: char)
    requires forall x :: x in xs ==> CleanField(x, sep)
    ensures SplitTrimmed(Join(xs, sep), sep) == xs
  {
    if xs == [] {
      assert Split([], sep) == [[]];
      assert TrimAll([[]]) == [[]];
      assert Filter([[]], NonEmpty) == [];
    } else {
      assert forall i :: 0 <= i < |xs| ==> CleanField(xs[i], sep) by {
        forall i | 0 <= i < |xs| ensures CleanField(xs[i], sep) {
          assert xs[i] in xs;
        }
      }
      SplitJoin(xs, sep);
      TrimAllOfTrimmed(xs);
      FilterAll(xs, NonEmpty);
    }
  }
}
