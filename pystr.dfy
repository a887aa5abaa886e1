/**
  The parts of Python's `str` behaviour that the modelled code relies on:
  `strip`, `removesuffix`, `upper`, `capitalize`, `in`, `split`, `join`,
  `replace(c, "")`, `str(int)` and `int(str)`.
 */
module PyStr {
  import opened Wrappers
  import opened Exceptions

  // ---------------------------------------------------------------------------
  // Whitespace and strip
  // ---------------------------------------------------------------------------

  /** The characters Python's `str.isspace` (and so `str.strip`) treats as
      whitespace. */
  predicate IsSpace(c: char)
  {
    c == ' ' || ('\t' <= c <= '\r') || ('\U{1C}' <= c <= '\U{1F}')
    || c == '\U{85}' || c == '\U{A0}' || c == '\U{1680}'
    || ('\U{2000}' <= c <= '\U{200A}')
    || c == '\U{2028}' || c == '\U{2029}' || c == '\U{202F}' || c == '\U{205F}'
    || c == '\U{3000}'
  }

  /** `s.lstrip()`: `s` without its leading whitespace. */
  function StripStart(s: string): (r: string)
    ensures |r| <= |s|
  {
    if |s| > 0 && IsSpace(s[0]) then StripStart(s[1..]) else s
  }

  /** What `lstrip` leaves is the longest suffix that does not start with
      whitespace: everything before it is whitespace. */
  lemma {:induction false} StripStartSpec(s: string)
    ensures var r := StripStart(s);
      && r == s[|s| - |r|..]
      && (forall i :: 0 <= i < |s| - |r| ==> IsSpace(s[i]))
      && (r != [] ==> !IsSpace(r[0]))
  {
    if |s| > 0 && IsSpace(s[0]) {
      StripStartSpec(s[1..]);
    }
  }

  /** `s.rstrip()`: `s` without its trailing whitespace. */
  function StripEnd(s: string): (r: string)
    ensures |r| <= |s|
  {
    if |s| > 0 && IsSpace(s[|s| - 1]) then StripEnd(s[..|s| - 1]) else s
  }

  /** What `rstrip` leaves is the longest prefix that does not end with
      whitespace: everything after it is whitespace. */
  lemma {:induction false} StripEndSpec(s: string)
    ensures var r := StripEnd(s);
      && r == s[..|r|]
      && (forall i :: |r| <= i < |s| ==> IsSpace(s[i]))
      && (r != [] ==> !IsSpace(r[|r| - 1]))
  {
    if |s| > 0 && IsSpace(s[|s| - 1]) {
      StripEndSpec(s[..|s| - 1]);
    }
  }

  /** `s.strip()`: `s` without its leading and trailing whitespace. */
  function Strip(s: string): (r: string)
    ensures |r| <= |s|
  {
    StripEnd(StripStart(s))
  }

  /** `strip` keeps a contiguous piece of `s` that neither starts nor ends
      with whitespace and removes only whitespace around it. */
  lemma StripSpec(s: string)
    ensures var r := Strip(s);
      var k := |s| - |StripStart(s)|;
      && (r != [] ==> !IsSpace(r[0]) && !IsSpace(r[|r| - 1]))
      && k + |r| <= |s| && r == s[k..k + |r|]
      && (forall i :: 0 <= i < k ==> IsSpace(s[i]))
      && (forall i :: k + |r| <= i < |s| ==> IsSpace(s[i]))
  {
    var t := StripStart(s);
    StripStartSpec(s);
    StripEndSpec(t);
    StripEnds(t);
    StripMiddle(s, t, |s| - |t|);
  }

  /** What `rstrip` leaves of a string that does not start with whitespace
      neither starts nor ends with whitespace. */
  lemma StripEnds(t: string)
    requires t != [] ==> !IsSpace(t[0])
    requires var r := StripEnd(t); r == t[..|r|] && (r != [] ==> !IsSpace(r[|r| - 1]))
    ensures var r := StripEnd(t); r != [] ==> !IsSpace(r[0]) && !IsSpace(r[|r| - 1])
  {
    var r := StripEnd(t);
    if r != [] {
      assert r[0] == t[0];
    }
  }

  /** The prefix of the suffix `t` of `s` sits at `k` in `s`, and whitespace
      after it in `t` is whitespace in `s`. */
  lemma StripMiddle(s: string, t: string, k: nat)
    requires k <= |s| && t == s[k..]
    requires var r := StripEnd(t); r == t[..|r|] && forall i :: |r| <= i < |t| ==> IsSpace(t[i])
    ensures var r := StripEnd(t); k + |r| <= |s| && r == s[k..k + |r|]
    ensures var r := StripEnd(t); forall i :: k + |r| <= i < |s| ==> IsSpace(s[i])
  {
    var r := StripEnd(t);
    forall i | k + |r| <= i < |s| ensures IsSpace(s[i]) {
      assert s[i] == t[i - k];
    }
  }

  /** A string without surrounding whitespace is its own strip, so `strip`
      is idempotent. */
  lemma StripFixedPoint(s: string)
    requires s != [] ==> !IsSpace(s[0]) && !IsSpace(s[|s| - 1])
    ensures Strip(s) == s
  {
    assert StripStart(s) == s;
    assert StripEnd(s) == s;
  }

  lemma StripIdempotent(s: string)
    ensures Strip(Strip(s)) == Strip(s)
  {
    StripSpec(s);
    StripFixedPoint(Strip(s));
  }

  // ---------------------------------------------------------------------------
  // Prefixes, suffixes and removesuffix
  // ---------------------------------------------------------------------------

  predicate StartsWith(s: string, prefix: string)
  {
    prefix <= s
  }

  predicate EndsWith(s: string, suffix: string)
  {
    |suffix| <= |s| && s[|s| - |suffix|..] == suffix
  }

  /** `s.removesuffix(suffix)`. */
  function RemoveSuffix(s: string, suffix: string): (r: string)
    ensures EndsWith(s, suffix) ==> r + suffix == s
    ensures !EndsWith(s, suffix) ==> r == s
  {
    if |suffix| > 0 && EndsWith(s, suffix) then s[..|s| - |suffix|] else s
  }

  lemma RemoveSuffixOfAppended(t: string, suffix: string)
    ensures RemoveSuffix(t + suffix, suffix) == t
  {
    assert (t + suffix)[|t|..] == suffix;
    assert (t + suffix)[..|t|] == t;
  }

  // ---------------------------------------------------------------------------
  // Case conversion (ASCII letters; only role names are converted)
  // ---------------------------------------------------------------------------

  function UpperChar(c: char): char
  {
    if 'a' <= c <= 'z' then (c as int - 32) as char else c
  }

  function LowerChar(c: char): char
  {
    if 'A' <= c <= 'Z' then (c as int + 32) as char else c
  }

  /** `s.upper()`. */
  function Upper(s: string): (r: string)
    ensures |r| == |s|
    ensures forall i :: 0 <= i < |s| ==> r[i] == UpperChar(s[i])
  {
    seq(|s|, i requires 0 <= i < |s| => UpperChar(s[i]))
  }

  /** `s.lower()`. */
  function Lower(s: string): (r: string)
    ensures |r| == |s|
    ensures forall i :: 0 <= i < |s| ==> r[i] == LowerChar(s[i])
  {
    seq(|s|, i requires 0 <= i < |s| => LowerChar(s[i]))
  }

  /** `s.capitalize()`: first character upper-cased, the rest lower-cased. */
  function Capitalize(s: string): (r: string)
    ensures |r| == |s|
    ensures s != [] ==> r[0] == UpperChar(s[0]) && r[1..] == Lower(s[1..])
  {
    if s == [] then [] else [UpperChar(s[0])] + Lower(s[1..])
  }

  // ---------------------------------------------------------------------------
  // Substring search, `in`, split and join
  // ---------------------------------------------------------------------------

  predicate OccursAt(s: string, sub: string, i: nat)
  {
    i + |sub| <= |s| && s[i..i + |sub|] == sub
  }

  /** `s.find(sub, from)`: the first index at or after `from` where `sub` occurs. */
  function IndexOf(s: string, sub: string, from: nat): (r: Option<nat>)
    ensures r.Some? ==> from <= r.value && r.value + |sub| <= |s|
    decreases |s| - from
  {
    if from + |sub| > |s| then None
    else if s[from..from + |sub|] == sub then Some(from)
    else IndexOf(s, sub, from + 1)
  }

  /** The index found is an occurrence at or after `from`. */
  lemma {:induction false} IndexOfFound(s: string, sub: string, from: nat)
    requires IndexOf(s, sub, from).Some?
    ensures from <= IndexOf(s, sub, from).value && OccursAt(s, sub, IndexOf(s, sub, from).value)
    decreases |s| - from
  {
    if from + |sub| <= |s| && s[from..from + |sub|] != sub {
      IndexOfFound(s, sub, from + 1);
    }
  }

  /** A string without the character `c` does not contain `[c]`. */
  lemma NotContainsChar(s: string, c: char)
    requires forall i :: 0 <= i < |s| ==> s[i] != c
    ensures !Contains(s, [c])
  {
    forall j | 0 <= j && j + 1 <= |s| ensures !OccursAt(s, [c], j) {
      assert s[j..j + 1][0] == s[j];
    }
    if IndexOf(s, [c], 0).Some? {
      IndexOfFound(s, [c], 0);
    }
  }

  /** The index found is the first occurrence, and none means none at all. */
  lemma {:induction false} IndexOfSpec(s: string, sub: string, from: nat)
    ensures IndexOf(s, sub, from).Some? ==> forall j :: from <= j < IndexOf(s, sub, from).value ==> !OccursAt(s, sub, j)
    ensures IndexOf(s, sub, from).None? ==> forall j :: from <= j ==> !OccursAt(s, sub, j)
    decreases |s| - from
  {
    if from + |sub| <= |s| && s[from..from + |sub|] != sub {
      IndexOfSpec(s, sub, from + 1);
    }
  }

  /** An occurrence with none before it is the one found. */
  lemma FirstOccurrence(s: string, sub: string, p: nat)
    requires OccursAt(s, sub, p)
    requires forall j :: 0 <= j < p ==> !OccursAt(s, sub, j)
    ensures IndexOf(s, sub, 0) == Some(p)
  {
    IndexOfSpec(s, sub, 0);
    if IndexOf(s, sub, 0).Some? {
      IndexOfFound(s, sub, 0);
    }
  }

  /** `sub in s`. */
  predicate Contains(s: string, sub: string)
  {
    IndexOf(s, sub, 0).Some?
  }

  lemma ContainsIff(s: string, sub: string)
    ensures Contains(s, sub) <==> exists i: nat :: OccursAt(s, sub, i)
  {
    IndexOfSpec(s, sub, 0);
    if IndexOf(s, sub, 0).Some? {
      IndexOfFound(s, sub, 0);
    }
  }

  /** `sep.join(parts)`. */
  function Join(sep: string, parts: seq<string>): (r: string)
    ensures |parts| == 1 ==> r == parts[0]
    ensures |parts| >= 1 ==> StartsWith(r, parts[0])
  {
    if |parts| == 0 then ""
    else if |parts| == 1 then parts[0]
    else parts[0] + sep + Join(sep, parts[1..])
  }

  /** `s.split(sep)` for a non-empty separator: the pieces between the
      non-overlapping occurrences of `sep`, found from left to right. */
  function Split(s: string, sep: string): (parts: seq<string>)
    requires |sep| > 0
    ensures |parts| >= 1
    decreases |s|
  {
    match IndexOf(s, sep, 0)
    case None => [s]
    case Some(k) => [s[..k]] + Split(s[k + |sep|..], sep)
  }

  /** Splitting and joining with the same separator gives back the string. */
  lemma {:induction false} SplitJoin(s: string, sep: string)
    requires |sep| > 0
    ensures Join(sep, Split(s, sep)) == s
    decreases |s|
  {
    var found := IndexOf(s, sep, 0);
    if found.Some? {
      IndexOfFound(s, sep, 0);
      var k := found.value;
      var rest := s[k + |sep|..];
      var tail := Split(rest, sep);
      SplitJoin(rest, sep);
      assert Split(s, sep) == [s[..k]] + tail;
      JoinCons(sep, s[..k], tail);
      Recompose(s, k, |sep|);
    }
  }

  /** A string is the text before a window, the window and the text after it. */
  lemma Recompose(s: string, k: nat, n: nat)
    requires k + n <= |s|
    ensures s == s[..k] + s[k..k + n] + s[k + n..]
  {
  }

  lemma JoinCons(sep: string, head: string, tail: seq<string>)
    requires |tail| >= 1
    ensures Join(sep, [head] + tail) == head + sep + Join(sep, tail)
  {
    assert ([head] + tail)[1..] == tail;
  }

  /** No piece of a split contains the separator. */
  lemma {:induction false} SplitPiecesFree(s: string, sep: string)
    requires |sep| > 0
    ensures forall i :: 0 <= i < |Split(s, sep)| ==> !Contains(Split(s, sep)[i], sep)
    decreases |s|
  {
    var parts := Split(s, sep);
    match IndexOf(s, sep, 0)
    case None =>
      assert parts == [s];
    case Some(k) =>
      IndexOfFound(s, sep, 0);
      IndexOfSpec(s, sep, 0);
      var rest := s[k + |sep|..];
      SplitPiecesFree(rest, sep);
      forall j | 0 <= j && j + |sep| <= k ensures !OccursAt(s[..k], sep, j) {
        assert !OccursAt(s, sep, j);
        assert s[..k][j..j + |sep|] == s[j..j + |sep|];
      }
      assert parts == [s[..k]] + Split(rest, sep);
      forall i | 0 <= i < |parts| ensures !Contains(parts[i], sep) {
        if i > 0 {
          assert parts[i] == Split(rest, sep)[i - 1];
        } else if Contains(parts[0], sep) {
          IndexOfFound(parts[0], sep, 0);
        }
      }
  }

  /** A split into exactly two pieces means the separator occurs once between
      them and in neither of them. */
  lemma SplitInTwo(s: string, sep: string)
    requires |sep| > 0 && |Split(s, sep)| == 2
    ensures s == Split(s, sep)[0] + sep + Split(s, sep)[1]
    ensures !Contains(Split(s, sep)[0], sep) && !Contains(Split(s, sep)[1], sep)
  {
    SplitJoin(s, sep);
    SplitPiecesFree(s, sep);
    var parts := Split(s, sep);
    assert Join(sep, parts) == parts[0] + sep + Join(sep, parts[1..]);
  }

  /** With a one-character separator, the last piece of a split is what
      follows the last separator. */
  lemma {:induction false} SplitLast(a: string, c: char, b: string)
    requires !Contains(b, [c])
    ensures var parts := Split(a + [c] + b, [c]); parts[|parts| - 1] == b
    decreases |a|
  {
    var s := a + [c] + b;
    var k := SplitFirstPiece(s, [c], |a|);
    var tail := Split(s[k + 1..], [c]);
    if k == |a| {
      DropThrough(a, c, b, k);
      assert tail == [b];
    } else {
      DropThrough(a, c, b, k);
      SplitLast(a[k + 1..], c, b);
    }
    assert Split(s, [c])[|tail|] == tail[|tail| - 1];
  }

  /** What follows position `k` of `a + [c] + b`. */
  lemma DropThrough(a: string, c: char, b: string, k: nat)
    requires k <= |a|
    ensures k == |a| ==> (a + [c] + b)[k + 1..] == b
    ensures k < |a| ==> (a + [c] + b)[k + 1..] == a[k + 1..] + [c] + b
  {
  }

  /** When `sep` occurs at `q`, the split takes its first piece up to an
      occurrence at or before `q`. */
  lemma SplitFirstPiece(s: string, sep: string, q: nat) returns (k: nat)
    requires |sep| > 0 && OccursAt(s, sep, q)
    ensures k <= q && k + |sep| <= |s|
    ensures Split(s, sep) == [s[..k]] + Split(s[k + |sep|..], sep)
  {
    IndexOfSpec(s, sep, 0);
    k := IndexOf(s, sep, 0).value;
    SplitUnfold(s, sep, k);
  }

  /** A split into two pieces cuts at the first occurrence of the separator,
      and the separator does not start again after that occurrence. */
  /** A string that splits into two pieces contains the separator. */
  lemma SplitTwoContains(s: string, sep: string)
    requires |sep| > 0
    ensures |Split(s, sep)| == 2 ==> Contains(s, sep)
  {
    if |Split(s, sep)| == 2 {
      SplitTwoAt(s, sep);
      ContainsIff(s, sep);
    }
  }

  lemma SplitTwoAt(s: string, sep: string)
    requires |sep| > 0 && |Split(s, sep)| == 2
    ensures IndexOf(s, sep, 0).Some?
    ensures var p := IndexOf(s, sep, 0).value;
      && OccursAt(s, sep, p)
      && Split(s, sep) == [s[..p], s[p + |sep|..]]
      && (forall j :: 0 <= j < p ==> !OccursAt(s, sep, j))
      && (forall j :: p + |sep| <= j ==> !OccursAt(s, sep, j))
  {
    IndexOfFound(s, sep, 0);
    var p := IndexOf(s, sep, 0).value;
    var rest := s[p + |sep|..];
    SplitUnfold(s, sep, p);
    SplitOneNone(rest, sep);
    IndexOfSpec(s, sep, 0);
    NoOccurrenceInSuffix(s, sep, p + |sep|);
  }

  /** One step of the split: the piece before the first separator, then the
      split of the rest. */
  lemma SplitUnfold(s: string, sep: string, k: nat)
    requires |sep| > 0 && IndexOf(s, sep, 0) == Some(k)
    ensures k + |sep| <= |s|
    ensures Split(s, sep) == [s[..k]] + Split(s[k + |sep|..], sep)
  {
    var rest := s[k + |sep|..];
    var parts := Split(s, sep);
    assert parts == [s[..k]] + Split(rest, sep);
  }

  /** A string that splits into one piece holds no separator. */
  lemma SplitOneNone(s: string, sep: string)
    requires |sep| > 0 && |Split(s, sep)| == 1
    ensures IndexOf(s, sep, 0).None?
  {
  }

  /** No occurrence in `s[q..]` means no occurrence in `s` from `q` on. */
  lemma NoOccurrenceInSuffix(s: string, sep: string, q: nat)
    requires q <= |s| && IndexOf(s[q..], sep, 0).None?
    ensures forall j :: q <= j ==> !OccursAt(s, sep, j)
  {
    IndexOfSpec(s[q..], sep, 0);
    forall j | q <= j && j + |sep| <= |s| ensures !OccursAt(s, sep, j) {
      assert !OccursAt(s[q..], sep, j - q);
      assert s[q..][j - q..j - q + |sep|] == s[j..j + |sep|];
    }
  }

  /** Conversely, a separator that occurs first at `p` and never from the end
      of that occurrence on splits the string in two at `p`. */
  lemma SplitTwoFrom(s: string, sep: string, p: nat)
    requires |sep| > 0 && OccursAt(s, sep, p)
    requires forall j :: 0 <= j < p ==> !OccursAt(s, sep, j)
    requires forall j :: p + |sep| <= j ==> !OccursAt(s, sep, j)
    ensures Split(s, sep) == [s[..p], s[p + |sep|..]]
  {
    var rest := s[p + |sep|..];
    FirstOccurrence(s, sep, p);
    NoLaterOccurrence(s, sep, p + |sep|);
    SplitAtFirst(s, sep, p);
  }

  lemma SplitAtFirst(s: string, sep: string, p: nat)
    requires |sep| > 0 && p + |sep| <= |s|
    requires IndexOf(s, sep, 0) == Some(p)
    requires IndexOf(s[p + |sep|..], sep, 0).None?
    ensures Split(s, sep) == [s[..p], s[p + |sep|..]]
  {
    SplitUnfold(s, sep, p);
    SplitNone(s[p + |sep|..], sep);
  }

  /** A string without the separator splits into itself alone. */
  lemma SplitNone(s: string, sep: string)
    requires |sep| > 0 && IndexOf(s, sep, 0).None?
    ensures Split(s, sep) == [s]
  {
  }

  /** A string with no occurrence of `sep` from `q` on has none in `s[q..]`. */
  lemma NoLaterOccurrence(s: string, sep: string, q: nat)
    requires q <= |s|
    requires forall j :: q <= j ==> !OccursAt(s, sep, j)
    ensures IndexOf(s[q..], sep, 0).None?
  {
    var rest := s[q..];
    if IndexOf(rest, sep, 0).Some? {
      IndexOfFound(rest, sep, 0);
      var j := IndexOf(rest, sep, 0).value;
      assert rest[j..j + |sep|] == s[q + j..q + j + |sep|];
      assert OccursAt(s, sep, q + j);
    }
  }

  /** `s.replace(c, "")` for a single character `c`. */
  function RemoveChar(s: string, c: char): (r: string)
    ensures forall i :: 0 <= i < |r| ==> r[i] != c
    ensures |r| <= |s|
  {
    if s == [] then []
    else if s[0] == c then RemoveChar(s[1..], c)
    else [s[0]] + RemoveChar(s[1..], c)
  }

  lemma {:induction false} RemoveCharKeepsOthers(s: string, c: char)
    requires forall i :: 0 <= i < |s| ==> s[i] != c
    ensures RemoveChar(s, c) == s
  {
    if s != [] {
      RemoveCharKeepsOthers(s[1..], c);
    }
  }

  // ---------------------------------------------------------------------------
  // Decimal integers: str(n) and int(s)
  // ---------------------------------------------------------------------------

  predicate IsDigit(c: char)
  {
    '0' <= c <= '9'
  }

  function DigitChar(d: nat): (c: char)
    requires d < 10
    ensures IsDigit(c)
  {
    ('0' as int + d) as char
  }

  function DigitValue(c: char): (d: nat)
    requires IsDigit(c)
    ensures d < 10 && DigitChar(d) == c
  {
    c as int - '0' as int
  }

  /** `str(n)` for a natural number. */
  function NatToString(n: nat): (s: string)
    ensures |s| >= 1
    ensures forall i :: 0 <= i < |s| ==> IsDigit(s[i])
  {
    if n < 10 then [DigitChar(n)] else NatToString(n / 10) + [DigitChar(n % 10)]
  }

  /** `str(i)` for an integer. */
  function IntToString(i: int): (s: string)
    ensures |s| >= 1
  {
    if i < 0 then "-" + NatToString(-i) else NatToString(i)
  }

  /** The value of a non-empty run of decimal digits. */
  function DigitsValue(s: string): nat
    requires forall i :: 0 <= i < |s| ==> IsDigit(s[i])
  {
    if s == [] then 0 else DigitsValue(s[..|s| - 1]) * 10 + DigitValue(s[|s| - 1])
  }

  predicate AllDigits(s: string)
  {
    |s| > 0 && forall i :: 0 <= i < |s| ==> IsDigit(s[i])
  }

  /** `int(s)` for base 10: an optional sign followed by decimal digits;
      anything else raises ValueError. */
  function ParseInt(s: string): (r: Result<int, Error>)
    ensures r.Ok? <==> AllDigits(s) || (|s| > 0 && s[0] in "+-" && AllDigits(s[1..]))
  {
    if AllDigits(s) then Ok(DigitsValue(s))
    else if |s| > 0 && s[0] == '-' && AllDigits(s[1..]) then Ok(0 - DigitsValue(s[1..]) as int)
    else if |s| > 0 && s[0] == '+' && AllDigits(s[1..]) then Ok(DigitsValue(s[1..]))
    else Err(ValueError("invalid literal for int() with base 10: '" + s + "'"))
  }

  /** `int(str(n)) == n`. */
  lemma {:induction false} DigitsRoundTrip(n: nat)
    ensures DigitsValue(NatToString(n)) == n
  {
    if n >= 10 {
      DigitsRoundTrip(n / 10);
      var s := NatToString(n);
      assert s[..|s| - 1] == NatToString(n / 10);
    }
  }

  /** Digits alone read as their value. */
  lemma ParseDigits(t: string)
    requires AllDigits(t)
    ensures ParseInt(t) == Ok(DigitsValue(t) as int)
  {
  }

  /** A minus sign followed by digits reads as the negated number. */
  lemma ParseNegative(t: string)
    requires AllDigits(t)
    ensures ParseInt("-" + t) == Ok(0 - DigitsValue(t) as int)
  {
    var s := "-" + t;
    assert !IsDigit(s[0]);
    assert s[1..] == t;
  }

  lemma IntRoundTrip(i: int)
    ensures ParseInt(IntToString(i)) == Ok(i)
  {
    var s := IntToString(i);
    if i < 0 {
      var t := NatToString(-i);
      DigitsRoundTrip(-i);
      ParseNegative(t);
      assert s == "-" + t;
    } else {
      ParseDigits(NatToString(i));
      DigitsRoundTrip(i);
    }
  }
}
