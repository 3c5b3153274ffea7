/** The handful of PHP built-ins the theme relies on, stated over `seq<char>`.
    Only the behaviour the theme's code depends on is modelled. */
module Php {

  datatype Option<+T> = None | Some(value: T)

  datatype Result<+T, +E> = Ok(value: T) | Err(error: E)

  /** PHP's boolean reading of a string: "" and "0" are false. */
  predicate Truthy(s: string) {
    s != "" && s != "0"
  }

  /** `str_starts_with($s, $prefix)`, also `strpos($s, $prefix) === 0`. */
  predicate StartsWith(s: string, prefix: string) {
    |prefix| <= |s| && s[..|prefix|] == prefix
  }

  /** `str_ends_with($s, $suffix)`, also `substr($s, -n) === $suffix`. */
  predicate EndsWith(s: string, suffix: string) {
    |suffix| <= |s| && s[|s| - |suffix|..] == suffix
  }

  /** `str_contains($s, $sub)`, also `strpos($s, $sub) !== false`. */
  predicate Contains(s: string, sub: string)
    decreases |s|
  {
    StartsWith(s, sub) || (|s| > 0 && Contains(s[1..], sub))
  }

  /** `str_replace($from, $to, $s)` for one search string, left to right,
      non-overlapping; an empty search string leaves the subject as it is. */
  function Replace(s: string, from: string, to: string): string
    decreases |s|
  {
    if from == [] || |s| < |from| then s
    else if s[..|from|] == from then to + Replace(s[|from|..], from, to)
    else [s[0]] + Replace(s[1..], from, to)
  }

  /** `explode($c, $s)` with a one-character delimiter. */
  function Explode(s: string, c: char): (parts: seq<string>)
    ensures |parts| >= 1
    decreases |s|
  {
    if s == [] then [""]
    else if s[0] == c then [""] + Explode(s[1..], c)
    else
      var rest := Explode(s[1..], c);
      [[s[0]] + rest[0]] + rest[1..]
  }

  /** `implode($glue, $parts)`. */
  function Implode(parts: seq<string>, glue: string): string
  {
    if parts == [] then ""
    else if |parts| == 1 then parts[0]
    else parts[0] + glue + Implode(parts[1..], glue)
  }

  /** `ltrim($s, $chars)`. */
  function LTrim(s: string, chars: set<char>): (r: string)
    ensures |r| <= |s| && r == s[|s| - |r|..]
    ensures r == [] || r[0] !in chars
    ensures forall i :: 0 <= i < |s| - |r| ==> s[i] in chars
    decreases |s|
  {
    if s != [] && s[0] in chars then LTrim(s[1..], chars) else s
  }

  /** `rtrim($s, $chars)`. */
  function RTrim(s: string, chars: set<char>): (r: string)
    ensures |r| <= |s| && r == s[..|r|]
    ensures r == [] || r[|r| - 1] !in chars
    ensures forall i :: |r| <= i < |s| ==> s[i] in chars
    decreases |s|
  {
    if s != [] && s[|s| - 1] in chars then RTrim(s[..|s| - 1], chars) else s
  }

  /** The characters `trim()` strips by default. */
  const Whitespace: set<char> := {' ', '\t', '\n', '\r', '\0', '\U{0B}'}

  /** `trim($s)` with the default character list. */
  function Trim(s: string): string {
    RTrim(LTrim(s, Whitespace), Whitespace)
  }

  predicate IsUpper(c: char) { 'A' <= c <= 'Z' }
  predicate IsLower(c: char) { 'a' <= c <= 'z' }
  predicate IsLetter(c: char) { IsUpper(c) || IsLower(c) }

  function LowerChar(c: char): char {
    if IsUpper(c) then (c as int + 32) as char else c
  }

  function UpperChar(c: char): char {
    if IsLower(c) then (c as int - 32) as char else c
  }

  /** `strtolower($s)`: ASCII letters only, as in PHP 8. */
  function Lower(s: string): (r: string)
    ensures |r| == |s|
  {
    seq(|s|, i requires 0 <= i < |s| => LowerChar(s[i]))
  }

  /** `ucfirst($s)`. */
  function UcFirst(s: string): string {
    if s == [] then s else [UpperChar(s[0])] + s[1..]
  }

  function DigitChar(d: nat): char
    requires d < 10
  {
    ('0' as int + d) as char
  }

  /** `(string) $n` for an integer. */
  function Decimal(n: int): string
    decreases if n < 0 then -n + 1 else n
  {
    if n < 0 then "-" + Decimal(-n)
    else if n < 10 then [DigitChar(n)]
    else Decimal(n / 10) + [DigitChar(n % 10)]
  }

  // ---------------------------------------------------------------------
  // Facts about these built-ins used by the model's proofs.

  lemma {:induction false} ExplodeParts(s: string, c: char)
    ensures forall k :: 0 <= k < |Explode(s, c)| ==> c !in Explode(s, c)[k]
    decreases |s|
  {
    if s != [] {
      ExplodeParts(s[1..], c);
    }
  }

  lemma {:induction false} ImplodeExplode(s: string, c: char)
    ensures Implode(Explode(s, c), [c]) == s
    decreases |s|
  {
    if s != [] {
      var rest := Explode(s[1..], c);
      ImplodeExplode(s[1..], c);
      if s[0] == c {
        assert Explode(s, c) == [""] + rest;
        assert s == [c] + s[1..];
      } else {
        var p := Explode(s, c);
        assert p == [[s[0]] + rest[0]] + rest[1..];
        if |rest| == 1 {
          assert s == [s[0]] + s[1..];
        } else {
          assert p[1..] == rest[1..];
          assert Implode(rest, [c]) == rest[0] + [c] + Implode(rest[1..], [c]);
          assert s == [s[0]] + s[1..];
        }
      }
    }
  }

  lemma {:induction false} ExplodeImplode(parts: seq<string>, c: char)
    requires |parts| >= 1
    requires forall k :: 0 <= k < |parts| ==> c !in parts[k]
    ensures Explode(Implode(parts, [c]), c) == parts
    decreases |parts|, |parts[0]|
  {
    if |parts| == 1 {
      ExplodeNoSep(parts[0], c);
    } else if parts[0] == [] {
      var tail := Implode(parts[1..], [c]);
      assert Implode(parts, [c]) == [c] + tail;
      ExplodeImplode(parts[1..], c);
      assert ([c] + tail)[1..] == tail;
      assert parts == [""] + parts[1..];
    } else {
      var first := parts[0];
      var parts' := [first[1..]] + parts[1..];
      assert forall k :: 0 <= k < |parts'| ==> c !in parts'[k] by {
        forall k | 0 <= k < |parts'| ensures c !in parts'[k] {
          if k == 0 {
            assert forall x :: x in first[1..] ==> x in first;
          } else {
            assert parts'[k] == parts[k];
          }
        }
      }
      ExplodeImplode(parts', c);
      var whole := Implode(parts, [c]);
      assert Implode(parts', [c]) == first[1..] + [c] + Implode(parts[1..], [c]);
      assert whole == first + [c] + Implode(parts[1..], [c]);
      assert whole[0] == first[0] && whole[0] != c;
      assert whole[1..] == Implode(parts', [c]);
      var rest := Explode(whole[1..], c);
      assert rest == parts';
      assert [first[0]] + first[1..] == first;
      assert parts == [first] + parts'[1..];
    }
  }

  lemma {:induction false} ExplodeNoSep(s: string, c: char)
    requires c !in s
    ensures Explode(s, c) == [s]
    decreases |s|
  {
    if s != [] {
      assert c !in s[1..] by { assert forall x :: x in s[1..] ==> x in s; }
      ExplodeNoSep(s[1..], c);
      assert [s[0]] + s[1..] == s;
    }
  }

  /** Replacing a one-character string by text that lacks that character
      removes every occurrence of it. */
  lemma {:induction false} ReplaceRemovesChar(s: string, c: char, to: string)
    requires c !in to
    ensures c !in Replace(s, [c], to)
    decreases |s|
  {
    if |s| >= 1 {
      ReplaceRemovesChar(s[1..], c, to);
      if s[..1] != [c] {
        assert s[0] != c by { assert s[..1] == [s[0]]; }
      }
    }
  }

  /** Replacing keeps absent characters absent when the replacement lacks them. */
  lemma {:induction false} ReplaceKeepsAbsent(s: string, from: string, to: string, d: char)
    requires d !in s && d !in to
    ensures d !in Replace(s, from, to)
    decreases |s|
  {
    if from != [] && |s| >= |from| {
      if s[..|from|] == from {
        assert d !in s[|from|..] by { assert forall x :: x in s[|from|..] ==> x in s; }
        ReplaceKeepsAbsent(s[|from|..], from, to, d);
      } else {
        assert d !in s[1..] by { assert forall x :: x in s[1..] ==> x in s; }
        ReplaceKeepsAbsent(s[1..], from, to, d);
      }
    }
  }

  /** The parts `explode` yields are made of characters of its subject. */
  lemma {:induction false} ExplodePartsFrom(s: string, c: char)
    ensures forall k, x :: 0 <= k < |Explode(s, c)| && x in Explode(s, c)[k] ==> x in s
    decreases |s|
  {
    if s != [] {
      ExplodePartsFrom(s[1..], c);
      var rest := Explode(s[1..], c);
      assert forall x :: x in s[1..] ==> x in s;
      if s[0] != c {
        forall k, x | 0 <= k < |Explode(s, c)| && x in Explode(s, c)[k] ensures x in s {
          if k == 0 {
            assert Explode(s, c)[0] == [s[0]] + rest[0];
          } else {
            assert Explode(s, c)[k] == rest[k];
          }
        }
      }
    }
  }

  /** A subject ending in the delimiter explodes to the parts of the rest
      followed by one empty part. */
  lemma {:induction false} ExplodeTrailing(s: string, c: char)
    ensures Explode(s + [c], c) == Explode(s, c) + [""]
    decreases |s|
  {
    if s == [] {
      assert [c][1..] == [];
    } else {
      assert (s + [c])[1..] == s[1..] + [c];
      ExplodeTrailing(s[1..], c);
    }
  }

  /** `str_replace` of one character by one character maps the string
      position by position. */
  lemma {:induction false} ReplaceCharAt(s: string, a: char, b: char)
    ensures |Replace(s, [a], [b])| == |s|
    ensures forall i :: 0 <= i < |s| ==> Replace(s, [a], [b])[i] == if s[i] == a then b else s[i]
    decreases |s|
  {
    if |s| >= 1 {
      ReplaceCharAt(s[1..], a, b);
      assert s[..1] == [s[0]];
    }
  }

  lemma {:induction false} ReplaceAbsent(s: string, a: char, to: string)
    requires a !in s
    ensures Replace(s, [a], to) == s
    decreases |s|
  {
    if |s| >= 1 {
      assert s[..1] == [s[0]];
      assert a !in s[1..] by { assert forall x :: x in s[1..] ==> x in s; }
      ReplaceAbsent(s[1..], a, to);
      assert [s[0]] + s[1..] == s;
    }
  }

  /** Text free of the search string's first character passes through
      `str_replace` unchanged. */
  lemma {:induction false} ReplacePassThrough(s: string, t: string, from: string, to: string)
    requires from != [] && from[0] !in s
    ensures Replace(s + t, from, to) == s + Replace(t, from, to)
    decreases |s|
  {
    if s == [] {
      assert s + t == t;
    } else {
      var st := s + t;
      if |st| < |from| {
        assert Replace(t, from, to) == t;
      } else {
        assert st[..|from|][0] == s[0];
        assert st[..|from|] != from;
        assert Replace(st, from, to) == [st[0]] + Replace(st[1..], from, to);
        assert st[1..] == s[1..] + t;
        assert from[0] !in s[1..] by { assert forall x :: x in s[1..] ==> x in s; }
        ReplacePassThrough(s[1..], t, from, to);
        assert [s[0]] + s[1..] == s;
      }
    }
  }

  /** Replacing a single character distributes over concatenation. */
  lemma {:induction false} ReplaceCharConcat(s: string, t: string, a: char, to: string)
    ensures Replace(s + t, [a], to) == Replace(s, [a], to) + Replace(t, [a], to)
    decreases |s|
  {
    if s == [] {
      assert s + t == t;
    } else {
      assert (s + t)[..1] == s[..1];
      assert (s + t)[1..] == s[1..] + t;
      ReplaceCharConcat(s[1..], t, a, to);
    }
  }

  /** Replacing the glue character of a join by another string re-joins the
      parts with that string. */
  lemma {:induction false} ReplaceGlue(parts: seq<string>, a: char, to: string)
    requires forall k :: 0 <= k < |parts| ==> a !in parts[k]
    ensures Replace(Implode(parts, [a]), [a], to) == Implode(parts, to)
    decreases |parts|
  {
    if |parts| == 1 {
      ReplaceAbsent(parts[0], a, to);
    } else if |parts| > 1 {
      ReplaceGlue(parts[1..], a, to);
      ReplaceCharConcat(parts[0], [a] + Implode(parts[1..], [a]), a, to);
      ReplaceCharConcat([a], Implode(parts[1..], [a]), a, to);
      ReplaceAbsent(parts[0], a, to);
      assert Replace([a], [a], to) == to + Replace([], [a], to);
      assert parts[0] + [a] + Implode(parts[1..], [a]) == parts[0] + ([a] + Implode(parts[1..], [a]));
    }
  }

  /** A character absent from every part and from the glue is absent from the
      imploded string. */
  lemma {:induction false} ImplodeAbsent(parts: seq<string>, glue: string, d: char)
    requires d !in glue
    requires forall k :: 0 <= k < |parts| ==> d !in parts[k]
    ensures d !in Implode(parts, glue)
    decreases |parts|
  {
    if |parts| > 1 {
      ImplodeAbsent(parts[1..], glue, d);
    }
  }

  /** A subject in which the search string never occurs passes through. */
  lemma {:induction false} ReplaceNoMatch(s: string, from: string, to: string)
    requires from != [] && !Contains(s, from)
    ensures Replace(s, from, to) == s
    decreases |s|
  {
    if |s| >= |from| {
      assert s[..|from|] != from;
      ReplaceNoMatch(s[1..], from, to);
      assert [s[0]] + s[1..] == s;
    }
  }

  /** A subject that starts with the search string has that occurrence
      replaced first. */
  lemma ReplaceAtStart(t: string, from: string, to: string)
    requires from != []
    ensures Replace(from + t, from, to) == to + Replace(t, from, to)
  {
    assert (from + t)[..|from|] == from;
    assert (from + t)[|from|..] == t;
  }

  /** A string contains every string it has in its middle. */
  lemma {:induction false} ContainsMiddle(a: string, m: string, b: string)
    ensures Contains(a + m + b, m)
    decreases |a|
  {
    if a == [] {
      assert (a + m + b)[..|m|] == m;
    } else {
      assert (a + m + b)[1..] == a[1..] + m + b;
      ContainsMiddle(a[1..], m, b);
    }
  }

  /** A one-character needle is found exactly when the character occurs. */
  lemma {:induction false} ContainsChar(s: string, c: char)
    ensures Contains(s, [c]) <==> c in s
    decreases |s|
  {
    if s != [] {
      ContainsChar(s[1..], c);
      assert s == [s[0]] + s[1..];
    }
  }

  /** The first piece of `explode` is what precedes the first delimiter. */
  lemma {:induction false} ExplodeHead(a: string, c: char, b: string)
    requires c !in a
    ensures Explode(a + [c] + b, c)[0] == a
    decreases |a|
  {
    var s := a + [c] + b;
    if a == [] {
      assert s[0] == c;
    } else {
      assert s[0] == a[0] && s[1..] == a[1..] + [c] + b;
      ExplodeHead(a[1..], c, b);
      assert [a[0]] + a[1..] == a;
    }
  }

  lemma DecimalNonEmpty(n: nat)
    ensures |Decimal(n)| >= 1
    ensures n >= 10 ==> |Decimal(n)| >= 2
  {
  }

  /** Different natural numbers print differently. */
  lemma {:induction false} DecimalInjective(a: nat, b: nat)
    requires Decimal(a) == Decimal(b)
    ensures a == b
    decreases a
  {
    DecimalNonEmpty(a);
    DecimalNonEmpty(b);
    if a >= 10 && b >= 10 {
      var da, db := Decimal(a / 10), Decimal(b / 10);
      assert Decimal(a) == da + [DigitChar(a % 10)];
      assert Decimal(b) == db + [DigitChar(b % 10)];
      assert DigitChar(a % 10) == Decimal(a)[|Decimal(a)| - 1] == DigitChar(b % 10);
      assert da == Decimal(a)[..|Decimal(a)| - 1];
      assert db == Decimal(b)[..|Decimal(b)| - 1];
      DecimalInjective(a / 10, b / 10);
    } else if a < 10 && b < 10 {
      assert Decimal(a)[0] == DigitChar(a) && Decimal(b)[0] == DigitChar(b);
    }
  }
}
