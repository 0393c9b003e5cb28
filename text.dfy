/**
 * The few Python `str` operations the backend relies on: `isspace`, `strip`,
 * `split()` with no separator, `" ".join`, `upper`, `str(n)` for a natural
 * number, `int(s)` and the prefix slice `s[:k]`.
 */
module Text {
  import opened Wrappers

  /** Python's `str.isspace` for one character (the whole Unicode set Python uses). */
  predicate IsSpace(c: char) {
    var n := c as int;
    (9 <= n <= 13) || (28 <= n <= 32) || n == 0x85 || n == 0xA0 || n == 0x1680
    || (0x2000 <= n <= 0x200A) || n == 0x2028 || n == 0x2029 || n == 0x202F
    || n == 0x205F || n == 0x3000
  }

  predicate AllSpace(s: string) {
    forall i | 0 <= i < |s| :: IsSpace(s[i])
  }

  /** The number of whitespace characters `s` starts with. */
  function LeadingSpaces(s: string): (n: nat)
    ensures n <= |s|
  {
    if s != [] && IsSpace(s[0]) then 1 + LeadingSpaces(s[1..]) else 0
  }

  /** The number of whitespace characters `s` ends with. */
  function TrailingSpaces(s: string): (n: nat)
    ensures n <= |s|
  {
    if s != [] && IsSpace(s[|s| - 1]) then 1 + TrailingSpaces(s[..|s| - 1]) else 0
  }

  /** The leading run of whitespace is maximal. */
  lemma {:induction false} LeadingSpacesMaximal(s: string)
    ensures forall k | 0 <= k < LeadingSpaces(s) :: IsSpace(s[k])
    ensures LeadingSpaces(s) == |s| || !IsSpace(s[LeadingSpaces(s)])
  {
    if s != [] && IsSpace(s[0]) {
      var t := s[1..];
      LeadingSpacesMaximal(t);
      forall k | 0 <= k < LeadingSpaces(s) ensures IsSpace(s[k]) {
        if k > 0 {
          assert s[k] == t[k - 1];
        }
      }
      assert LeadingSpaces(s) < |s| ==> s[LeadingSpaces(s)] == t[LeadingSpaces(t)];
    }
  }

  /** The trailing run of whitespace is maximal. */
  lemma {:induction false} TrailingSpacesMaximal(s: string)
    ensures forall k | |s| - TrailingSpaces(s) <= k < |s| :: IsSpace(s[k])
    ensures TrailingSpaces(s) == |s| || !IsSpace(s[|s| - TrailingSpaces(s) - 1])
  {
    if s != [] && IsSpace(s[|s| - 1]) {
      var p := s[..|s| - 1];
      TrailingSpacesMaximal(p);
      forall k | |s| - TrailingSpaces(s) <= k < |s| ensures IsSpace(s[k]) {
        if k < |s| - 1 {
          assert s[k] == p[k];
        }
      }
      assert TrailingSpaces(s) < |s| ==> s[|s| - TrailingSpaces(s) - 1] == p[|p| - TrailingSpaces(p) - 1];
    }
  }

  /** Python's `lstrip()`. */
  function TrimLeft(s: string): string {
    s[LeadingSpaces(s)..]
  }

  /** Python's `rstrip()`. */
  function TrimRight(s: string): string {
    s[..|s| - TrailingSpaces(s)]
  }

  /** Python's `strip()`: what is left neither starts nor ends with whitespace. */
  function Strip(s: string): (r: string)
    ensures |r| <= |s|
    ensures r != [] ==> !IsSpace(r[0]) && !IsSpace(r[|r| - 1])
  {
    var t := TrimLeft(s);
    LeadingSpacesMaximal(s);
    TrailingSpacesMaximal(t);
    assert |t| > TrailingSpaces(t) ==> t[0] == s[LeadingSpaces(s)];
    TrimRight(t)
  }

  /** A string is all whitespace exactly when its leading run covers it. */
  lemma AllSpaceIffLeading(s: string)
    ensures AllSpace(s) <==> LeadingSpaces(s) == |s|
  {
    LeadingSpacesMaximal(s);
  }

  /** What `strip()` leaves is `s` from its leading whitespace on, cut before the trailing whitespace. */
  lemma StripIsSlice(s: string)
    ensures LeadingSpaces(s) + |Strip(s)| <= |s|
    ensures Strip(s) == s[LeadingSpaces(s)..LeadingSpaces(s) + |Strip(s)|]
  {
    var i := LeadingSpaces(s);
    var t := TrimLeft(s);
    var m := |t| - TrailingSpaces(t);
    assert Strip(s) == TrimRight(t) == t[..m];
    assert s[i..][..m] == s[i..i + m];
  }

  /** Everything before what `strip()` leaves is whitespace. */
  lemma StripDropsLeadingSpace(s: string)
    ensures AllSpace(s[..LeadingSpaces(s)])
  {
    var i := LeadingSpaces(s);
    LeadingSpacesMaximal(s);
    forall k | 0 <= k < i ensures IsSpace(s[..i][k]) {
      assert s[..i][k] == s[k];
    }
  }

  /** Everything after what `strip()` leaves is whitespace. */
  lemma StripDropsTrailingSpace(s: string)
    ensures LeadingSpaces(s) + |Strip(s)| <= |s|
    ensures AllSpace(s[LeadingSpaces(s) + |Strip(s)|..])
  {
    var i := LeadingSpaces(s);
    var t := s[i..];
    var m := |t| - TrailingSpaces(t);
    TrailingSpacesMaximal(t);
    assert Strip(s) == TrimRight(t);
    assert |TrimRight(t)| == m;
    var tail := s[i + m..];
    forall k | 0 <= k < |tail| ensures IsSpace(tail[k]) {
      assert tail[k] == s[i + m + k] == t[m + k];
    }
  }

  /**
   * `strip()` removes exactly the maximal whitespace runs at both ends: what
   * is left is the slice of the input between them.
   */
  lemma StripSlice(s: string)
    ensures var i := LeadingSpaces(s); var r := Strip(s);
      i + |r| <= |s| && r == s[i..i + |r|] && AllSpace(s[..i]) && AllSpace(s[i + |r|..])
  {
    StripIsSlice(s);
    StripDropsLeadingSpace(s);
    StripDropsTrailingSpace(s);
  }

  /** `strip()` leaves nothing exactly when the input is all whitespace. */
  lemma StripEmptyIff(s: string)
    ensures Strip(s) == [] <==> AllSpace(s)
  {
    var i := LeadingSpaces(s);
    var t := TrimLeft(s);
    var j := TrailingSpaces(t);
    AllSpaceIffLeading(s);
    TrailingSpacesMaximal(t);
    assert Strip(s) == [] <==> j == |t|;
    assert i < |s| ==> t[0] == s[i];
    LeadingSpacesMaximal(s);
  }

  lemma StripIdempotent(s: string)
    ensures Strip(Strip(s)) == Strip(s)
  {
    var r := Strip(s);
    if r != [] {
      assert LeadingSpaces(r) == 0;
      assert TrailingSpaces(r) == 0;
    } else {
      assert LeadingSpaces(r) == 0;
    }
  }

  // ---------------------------------------------------------------------
  // split() and " ".join

  /** A word of `split()`: non-empty and free of whitespace. */
  predicate IsWord(w: string) {
    w != [] && forall i | 0 <= i < |w| :: !IsSpace(w[i])
  }

  /** The longest whitespace-free prefix. */
  function TakeWord(s: string): (w: string)
    ensures |w| <= |s| && w == s[..|w|]
    ensures forall i | 0 <= i < |w| :: !IsSpace(w[i])
    ensures |w| == |s| || IsSpace(s[|w|])
  {
    if s == [] || IsSpace(s[0]) then [] else [s[0]] + TakeWord(s[1..])
  }

  /** Python's `s.split()`: the maximal runs of non-whitespace characters, in order. */
  function Split(s: string): (ws: seq<string>)
    ensures forall i | 0 <= i < |ws| :: IsWord(ws[i])
    decreases |s|
  {
    var t := TrimLeft(s);
    if t == [] then []
    else
      var w := TakeWord(t);
      FirstWordOfTrimmed(s);
      var rest := Split(t[|w|..]);
      [w] + rest
  }

  /** Once the leading whitespace is gone, a non-empty rest starts with a whole word. */
  lemma FirstWordOfTrimmed(s: string)
    requires TrimLeft(s) != []
    ensures IsWord(TakeWord(TrimLeft(s)))
  {
    LeadingSpacesMaximal(s);
    assert TrimLeft(s)[0] == s[LeadingSpaces(s)];
  }

  /** Python's `" ".join(ws)`: it starts with the first word. */
  function Join(ws: seq<string>): (r: string)
    ensures |ws| > 0 ==> |ws[0]| <= |r| && r[..|ws[0]|] == ws[0]
  {
    if |ws| == 0 then ""
    else if |ws| == 1 then ws[0]
    else ws[0] + " " + Join(ws[1..])
  }

  lemma {:induction false} TakeWordOfWord(w: string, rest: string)
    requires forall i | 0 <= i < |w| :: !IsSpace(w[i])
    requires rest == [] || IsSpace(rest[0])
    ensures TakeWord(w + rest) == w
  {
    if w != [] {
      assert (w + rest)[1..] == w[1..] + rest;
      TakeWordOfWord(w[1..], rest);
    } else {
      assert w + rest == rest;
    }
  }

  lemma SplitSkipsSpace(c: char, s: string)
    requires IsSpace(c)
    ensures Split([c] + s) == Split(s)
  {
    assert ([c] + s)[1..] == s;
    assert TrimLeft([c] + s) == TrimLeft(s);
  }

  /** A word followed by nothing or by whitespace is split off as the first word. */
  lemma SplitWordThen(w: string, tail: string)
    requires IsWord(w)
    requires tail == [] || IsSpace(tail[0])
    ensures Split(w + tail) == [w] + Split(tail)
  {
    var s := w + tail;
    assert s[0] == w[0];
    assert TrimLeft(s) == s;
    TakeWordOfWord(w, tail);
    assert s[|w|..] == tail;
  }

  /** Splitting a join of words gives the words back. */
  lemma {:induction false} SplitJoin(ws: seq<string>)
    requires forall i | 0 <= i < |ws| :: IsWord(ws[i])
    ensures Split(Join(ws)) == ws
  {
    if |ws| == 1 {
      SplitJoinOne(ws[0]);
      assert [ws[0]] == ws;
    } else if |ws| > 1 {
      SplitJoinFirst(ws);
      SplitJoin(ws[1..]);
      assert [ws[0]] + ws[1..] == ws;
    }
  }

  /** A single word is its own split. */
  lemma SplitJoinOne(w: string)
    requires IsWord(w)
    ensures Split(Join([w])) == [w]
  {
    SplitWordThen(w, []);
    assert w + [] == w;
  }

  /** The first of several joined words is split off ahead of the join of the rest. */
  lemma SplitJoinFirst(ws: seq<string>)
    requires |ws| > 1 && IsWord(ws[0])
    ensures Split(Join(ws)) == [ws[0]] + Split(Join(ws[1..]))
  {
    var rest := Join(ws[1..]);
    assert Join(ws) == ws[0] + " " + rest;
    SplitWordSpaceThen(ws[0], rest);
  }

  /** A word, one space and then anything: the word is split off and the space dropped. */
  lemma SplitWordSpaceThen(w: string, rest: string)
    requires IsWord(w)
    ensures Split(w + " " + rest) == [w] + Split(rest)
  {
    var tail := [' '] + rest;
    assert w + " " + rest == w + tail;
    SplitWordThen(w, tail);
    SplitSkipsSpace(' ', rest);
  }

  /** Appending to a join extends its last word. */
  lemma {:induction false} JoinAppendToLast(ws: seq<string>, x: string)
    requires |ws| >= 1
    ensures Join(ws) + x == Join(ws[..|ws| - 1] + [ws[|ws| - 1] + x])
  {
    var ws' := ws[..|ws| - 1] + [ws[|ws| - 1] + x];
    if |ws| == 1 {
      assert ws' == [ws[0] + x];
    } else {
      assert ws'[0] == ws[0];
      assert ws'[1..] == ws[1..][..|ws| - 2] + [ws[|ws| - 1] + x];
      JoinAppendToLast(ws[1..], x);
      assert Join(ws) + x == ws[0] + " " + (Join(ws[1..]) + x);
    }
  }

  // ---------------------------------------------------------------------
  // upper()

  /** `upper()` on one character; only ASCII letters are modelled. */
  function UpperChar(c: char): char {
    if 'a' <= c <= 'z' then (c as int - 32) as char else c
  }

  function Upper(s: string): (r: string)
    ensures |r| == |s|
    ensures forall i | 0 <= i < |s| :: r[i] == UpperChar(s[i])
  {
    if s == [] then [] else [UpperChar(s[0])] + Upper(s[1..])
  }

  // ---------------------------------------------------------------------
  // str(n) and int(s)

  predicate IsDigit(c: char) {
    '0' <= c <= '9'
  }

  predicate AllDigits(s: string) {
    forall i | 0 <= i < |s| :: IsDigit(s[i])
  }

  function DigitChar(d: nat): (c: char)
    requires d < 10
    ensures IsDigit(c) && c as int - '0' as int == d
  {
    ('0' as int + d) as char
  }

  /** Python's `str(n)` for a natural number: its decimal digits, no leading zeros. */
  function NatToString(n: nat): (s: string)
    ensures |s| >= 1 && AllDigits(s)
    ensures |s| == 1 <==> n < 10
    ensures s[0] != '0' || n == 0
  {
    if n < 10 then [DigitChar(n)] else NatToString(n / 10) + [DigitChar(n % 10)]
  }

  /** The value of a string of decimal digits. */
  function DigitsValue(s: string): nat
    requires AllDigits(s)
  {
    if s == [] then 0 else DigitsValue(s[..|s| - 1]) * 10 + (s[|s| - 1] as int - '0' as int)
  }

  /**
   * Python's `int(s)` on an already stripped string: an optional sign followed
   * by one or more decimal digits; anything else raises `ValueError` (None here).
   * Only a leading minus gives a negative value.
   */
  function ParseInt(s: string): (r: Option<int>)
    ensures r.Some? <==> s != [] && if s[0] == '+' || s[0] == '-' then |s| > 1 && AllDigits(s[1..]) else AllDigits(s)
    ensures r.Some? && r.value < 0 ==> s[0] == '-'
    ensures r.Some? && s[0] == '-' ==> r.value <= 0
  {
    if s == [] then None
    else if s[0] == '+' || s[0] == '-' then
      var body := s[1..];
      if body != [] && AllDigits(body) then
        Some(if s[0] == '-' then -(DigitsValue(body) as int) else DigitsValue(body) as int)
      else None
    else if AllDigits(s) then Some(DigitsValue(s) as int)
    else None
  }

  lemma {:induction false} DigitsValueOfNatToString(n: nat)
    ensures DigitsValue(NatToString(n)) == n
  {
    var s := NatToString(n);
    if n >= 10 {
      assert s[..|s| - 1] == NatToString(n / 10);
      DigitsValueOfNatToString(n / 10);
    }
  }

  /** `int(str(n)) == n`. */
  lemma ParseNatToString(n: nat)
    ensures ParseInt(NatToString(n)) == Some(n as int)
  {
    DigitsValueOfNatToString(n);
  }

  /** A string with a character that is neither a digit nor a leading sign is not a number. */
  lemma ParseIntRejects(s: string, i: nat)
    requires i < |s| && !IsDigit(s[i]) && !(i == 0 && (s[0] == '+' || s[0] == '-'))
    ensures ParseInt(s) == None
  {
    if s[0] == '+' || s[0] == '-' {
      assert s[1..][i - 1] == s[i];
    }
  }

  // ---------------------------------------------------------------------
  // s[:k]

  /** Python's prefix slice `s[:k]`, where a negative `k` counts from the end. */
  function SlicePrefix(s: string, k: int): (r: string)
    ensures |r| == if k >= 0 then (if k < |s| then k else |s|) else (if |s| + k > 0 then |s| + k else 0)
    ensures r == s[..|r|]
  {
    if k >= 0 then (if k < |s| then s[..k] else s)
    else if |s| + k > 0 then s[..|s| + k] else []
  }
}
