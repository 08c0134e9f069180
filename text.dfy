/** The pieces of Rust's standard string handling that the bot relies on:
    `Display` of integers, `to_uppercase`, `trim`, left-justified padding
    (`{:<N}`), `join`, string concatenation by `push_str`, and `contains`.
    Strings are sequences of Unicode scalar values, as Rust's `char`s are. */
module Text {
  import opened Results

  // ---------------------------------------------------------------------
  // Decimal rendering of integers (`{}` on i32 / usize)
  // ---------------------------------------------------------------------

  predicate IsDigit(c: char) { '0' <= c <= '9' }

  predicate AllDigits(s: string) { forall i :: 0 <= i < |s| ==> IsDigit(s[i]) }

  function DigitChar(d: nat): (c: char)
    requires d < 10
    ensures IsDigit(c)
  {
    (48 + d) as char
  }

  function DigitValue(c: char): (d: nat)
    requires IsDigit(c)
    ensures d < 10
    ensures DigitChar(d) == c
  {
    (c as int) - 48
  }

  /** Decimal digits of `n`, most significant first, without leading zeros. */
  function NatToString(n: nat): (s: string)
    ensures 1 <= |s| && AllDigits(s)
    ensures s[0] == '0' ==> n == 0
    decreases n
  {
    if n < 10 then [DigitChar(n)] else NatToString(n / 10) + [DigitChar(n % 10)]
  }

  /** Reads a run of decimal digits back as a number; the inverse of NatToString. */
  function ParseNat(s: string): (n: nat)
    requires AllDigits(s)
    decreases |s|
  {
    if s == [] then 0 else 10 * ParseNat(s[..|s| - 1]) + DigitValue(s[|s| - 1])
  }

  lemma {:induction false} ParseNatToString(n: nat)
    ensures ParseNat(NatToString(n)) == n
    decreases n
  {
    if n >= 10 {
      var s := NatToString(n);
      var p := NatToString(n / 10);
      assert s == p + [DigitChar(n % 10)];
      assert s[..|s| - 1] == p;
      ParseNatToString(n / 10);
    }
  }

  /** A number followed by a space is read off a text unambiguously: two
      numbers that both open a text after the same head, each followed by
      a space, are equal. */
  lemma NumberPrefixUnique(t: string, head: string, a: nat, b: nat)
    requires StartsWith(t, head + NatToString(a) + " ")
    requires StartsWith(t, head + NatToString(b) + " ")
    ensures a == b
  {
    var x := NatToString(a);
    var y := NatToString(b);
    assert forall i :: 0 <= i < |x| ==> t[|head| + i] == x[i] by {
      assert forall i :: 0 <= i < |x| ==> (head + x + " ")[|head| + i] == x[i];
    }
    assert forall i :: 0 <= i < |y| ==> t[|head| + i] == y[i] by {
      assert forall i :: 0 <= i < |y| ==> (head + y + " ")[|head| + i] == y[i];
    }
    assert t[|head| + |x|] == ' ' by { assert (head + x + " ")[|head| + |x|] == ' '; }
    assert t[|head| + |y|] == ' ' by { assert (head + y + " ")[|head| + |y|] == ' '; }
    assert |x| == |y|;
    assert x == y;
    ParseNatToString(a);
    ParseNatToString(b);
  }

  /** Rust's `Display` for a signed integer: a '-' only for negative values. */
  function IntToString(i: int): (s: string)
    ensures 1 <= |s|
    ensures s[0] == '-' <==> i < 0
  {
    if i < 0 then "-" + NatToString(-i) else NatToString(i)
  }

  function ParseInt(s: string): int
    requires 1 <= |s|
    requires if s[0] == '-' then AllDigits(s[1..]) else AllDigits(s)
  {
    if s[0] == '-' then -(ParseNat(s[1..]) as int) else ParseNat(s)
  }

  lemma IntToStringRoundTrip(i: int)
    ensures var s := IntToString(i);
      (if s[0] == '-' then AllDigits(s[1..]) else AllDigits(s)) && ParseInt(s) == i
  {
    var s := IntToString(i);
    if i < 0 {
      assert s[1..] == NatToString(-i);
      ParseNatToString(-i);
    } else {
      ParseNatToString(i);
    }
  }

  // ---------------------------------------------------------------------
  // `to_uppercase`, over the ASCII letters
  // ---------------------------------------------------------------------

  predicate IsLower(c: char) { 'a' <= c <= 'z' }

  function UpperChar(c: char): (u: char)
    ensures !IsLower(u)
    ensures IsLower(c) ==> u as int == c as int - 32
    ensures !IsLower(c) ==> u == c
  {
    if IsLower(c) then (c as int - 32) as char else c
  }

  function Upper(s: string): (r: string)
    ensures |r| == |s|
    ensures forall i :: 0 <= i < |s| ==> r[i] == UpperChar(s[i])
  {
    seq(|s|, i requires 0 <= i < |s| => UpperChar(s[i]))
  }

  lemma UpperIdempotent(s: string)
    ensures Upper(Upper(s)) == Upper(s)
  {
  }

  // ---------------------------------------------------------------------
  // `trim`: strips characters with the Unicode White_Space property,
  // which is what Rust's `char::is_whitespace` tests
  // ---------------------------------------------------------------------

  /** The characters with the White_Space property. */
  const WhitespaceChars: set<char> := {
    '\t', '\n', '\U{B}', '\U{C}', '\r', ' ', '\U{85}', '\U{A0}', '\U{1680}',
    '\U{2000}', '\U{2001}', '\U{2002}', '\U{2003}', '\U{2004}', '\U{2005}',
    '\U{2006}', '\U{2007}', '\U{2008}', '\U{2009}', '\U{200A}',
    '\U{2028}', '\U{2029}', '\U{202F}', '\U{205F}', '\U{3000}' }

  predicate IsWhitespace(c: char)
  {
    c in WhitespaceChars
  }

  /** The number of whitespace characters `s` starts with. */
  function LeadingSpace(s: string, i: nat): (n: nat)
    requires i <= |s|
    requires forall j :: 0 <= j < i ==> IsWhitespace(s[j])
    ensures i <= n <= |s|
    ensures forall j :: 0 <= j < n ==> IsWhitespace(s[j])
    ensures n == |s| || !IsWhitespace(s[n])
    decreases |s| - i
  {
    if i < |s| && IsWhitespace(s[i]) then LeadingSpace(s, i + 1) else i
  }

  /** Where the trailing whitespace of `s` begins, looking no further left than `lo`. */
  function TrailingSpace(s: string, lo: nat, e: nat): (n: nat)
    requires lo <= e <= |s|
    requires forall j :: e <= j < |s| ==> IsWhitespace(s[j])
    ensures lo <= n <= e
    ensures forall j :: n <= j < |s| ==> IsWhitespace(s[j])
    ensures n == lo || !IsWhitespace(s[n - 1])
    decreases e - lo
  {
    if lo < e && IsWhitespace(s[e - 1]) then TrailingSpace(s, lo, e - 1) else e
  }

  /** `r` is the slice of `s` at `a` with only whitespace around it. */
  ghost predicate SliceWithin(s: string, r: string, a: nat)
  {
    a + |r| <= |s| && r == s[a..a + |r|]
    && (forall i :: 0 <= i < a ==> IsWhitespace(s[i]))
    && (forall i :: a + |r| <= i < |s| ==> IsWhitespace(s[i]))
  }

  /** `trim()`: the longest slice of `s` that neither starts nor ends with whitespace. */
  function Trim(s: string): (r: string)
    ensures exists a: nat :: SliceWithin(s, r, a)
    ensures r == [] || (!IsWhitespace(r[0]) && !IsWhitespace(r[|r| - 1]))
  {
    var a := LeadingSpace(s, 0);
    var e := TrailingSpace(s, a, |s|);
    assert SliceWithin(s, s[a..e], a);
    s[a..e]
  }

  /** Trimming only removes characters: one absent from `s` is absent from its trim. */
  lemma TrimKeepsOut(s: string, c: char)
    requires c !in s
    ensures c !in Trim(s)
  {
    var r := Trim(s);
    var a: nat :| SliceWithin(s, r, a);
    forall i | 0 <= i < |r|
      ensures r[i] != c
    {
      assert r[i] == s[a + i];
    }
  }

  lemma TrimIdempotent(s: string)
    ensures Trim(Trim(s)) == Trim(s)
  {
    var r := Trim(s);
    if r != [] {
      assert LeadingSpace(r, 0) == 0;
      assert TrailingSpace(r, 0, |r|) == |r|;
      assert r[0..|r|] == r;
    }
  }

  // ---------------------------------------------------------------------
  // `format!("{:<N}", s)`: left-justified, padded with spaces up to N
  // characters, never truncated
  // ---------------------------------------------------------------------

  function Spaces(n: nat): (r: string)
    ensures |r| == n && forall i :: 0 <= i < n ==> r[i] == ' '
  {
    seq(n, _ => ' ')
  }

  function PadRight(s: string, width: nat): (r: string)
    ensures |r| == if |s| < width then width else |s|
    ensures r[..|s|] == s
    ensures forall i :: |s| <= i < |r| ==> r[i] == ' '
  {
    if |s| < width then s + Spaces(width - |s|) else s
  }

  predicate StartsWith(s: string, prefix: string)
  {
    |prefix| <= |s| && s[..|prefix|] == prefix
  }

  // ---------------------------------------------------------------------
  // Concatenation (`fold` with `push_str`) and `join`
  // ---------------------------------------------------------------------

  /** The strings of `parts` appended one after the other, in order. */
  function Concat(parts: seq<string>): (r: string)
    decreases |parts|
  {
    if parts == [] then "" else Concat(parts[..|parts| - 1]) + parts[|parts| - 1]
  }

  lemma {:induction false} ConcatAppend(parts: seq<string>, p: string)
    ensures Concat(parts + [p]) == Concat(parts) + p
  {
    assert (parts + [p])[..|parts|] == parts;
  }

  /** `lines.join(sep)`: separators between elements, none at the end. */
  function Join(lines: seq<string>, sep: string): (r: string)
    decreases |lines|
  {
    if lines == [] then ""
    else if |lines| == 1 then lines[0]
    else lines[0] + sep + Join(lines[1..], sep)
  }

  // ---------------------------------------------------------------------
  // Splitting on a character, the inverse of Join
  // ---------------------------------------------------------------------

  function IndexOf(s: string, c: char): (k: nat)
    requires c in s
    ensures k < |s| && s[k] == c && c !in s[..k]
    decreases |s|
  {
    if s[0] == c then 0 else 1 + IndexOf(s[1..], c)
  }

  function Split(s: string, c: char): (r: seq<string>)
    ensures |r| >= 1
    decreases |s|
  {
    if c !in s then [s] else var k := IndexOf(s, c); [s[..k]] + Split(s[k + 1..], c)
  }

  /** Splitting a joined text on its separator gives back the lines, as long
      as no line contains the separator itself. */
  lemma {:induction false} SplitJoin(lines: seq<string>, c: char)
    requires |lines| >= 1
    requires forall i :: 0 <= i < |lines| ==> c !in lines[i]
    ensures Split(Join(lines, [c]), c) == lines
    decreases |lines|
  {
    if |lines| > 1 {
      var rest := Join(lines[1..], [c]);
      var s := Join(lines, [c]);
      assert s == lines[0] + [c] + rest;
      assert s[|lines[0]|] == c;
      assert c in s;
      IndexOfAfter(lines[0], [c] + rest, c);
      assert s[..|lines[0]|] == lines[0];
      assert s[|lines[0]| + 1..] == rest;
      SplitJoin(lines[1..], c);
    }
  }

  lemma IndexOfAfter(a: string, b: string, c: char)
    requires c !in a && |b| > 0 && b[0] == c
    ensures c in a + b && IndexOf(a + b, c) == |a|
  {
    var s := a + b;
    assert s[|a|] == c;
    assert s[..|a|] == a;
  }

  /** Rows each ending in a separator concatenate to the join of those rows
      followed by one empty line: splitting recovers them. */
  lemma {:induction false} TerminatedIsJoin(lines: seq<string>, c: char)
    ensures Concat(Terminate(lines, c)) == Join(lines + [""], [c])
    decreases |lines|
  {
    if lines != [] {
      var init := lines[..|lines| - 1];
      var last := lines[|lines| - 1];
      assert lines == init + [last];
      assert Terminate(lines, c) == Terminate(init, c) + [last + [c]];
      ConcatAppend(Terminate(init, c), last + [c]);
      TerminatedIsJoin(init, c);
      JoinSnoc(init, last, c);
    }
  }

  /** Each line followed by the separator character. */
  function Terminate(lines: seq<string>, c: char): (r: seq<string>)
    ensures |r| == |lines|
    ensures forall i :: 0 <= i < |lines| ==> r[i] == lines[i] + [c]
  {
    seq(|lines|, i requires 0 <= i < |lines| => lines[i] + [c])
  }

  /** Text built from terminated lines is empty or ends in the terminator. */
  lemma TerminatedEndsWith(lines: seq<string>, c: char)
    ensures var r := Concat(Terminate(lines, c)); r == [] <==> lines == []
    ensures var r := Concat(Terminate(lines, c)); r == [] || r[|r| - 1] == c
  {
    if lines != [] {
      var parts := Terminate(lines, c);
      assert parts[..|parts| - 1] == Terminate(lines[..|lines| - 1], c);
    }
  }

  /** Splitting terminated lines at the terminator gives the lines back,
      followed by the empty text after the last terminator. */
  lemma TerminatedSplit(lines: seq<string>, c: char)
    requires forall i :: 0 <= i < |lines| ==> c !in lines[i]
    ensures Split(Concat(Terminate(lines, c)), c) == lines + [""]
  {
    TerminatedIsJoin(lines, c);
    SplitJoin(lines + [""], c);
  }

  /** Join(init + [last, ""]) is Join(init + [""]) with `last` and a separator inserted before the empty end. */
  lemma {:induction false} JoinSnoc(init: seq<string>, last: string, c: char)
    ensures Join(init + [last] + [""], [c]) == Join(init + [""], [c]) + last + [c]
    decreases |init|
  {
    if init == [] {
      assert [last] + [""] == [last, ""];
      assert Join([last, ""], [c]) == last + [c] + Join([""], [c]);
    } else {
      assert (init + [last] + [""])[1..] == init[1..] + [last] + [""];
      assert (init + [""])[1..] == init[1..] + [""];
      JoinSnoc(init[1..], last, c);
    }
  }

  // ---------------------------------------------------------------------
  // `str::contains` with a string pattern
  // ---------------------------------------------------------------------

  ghost predicate OccursAt(s: string, needle: string, k: nat)
  {
    k + |needle| <= |s| && s[k..k + |needle|] == needle
  }

  function Contains(s: string, needle: string): (b: bool)
    ensures b <==> exists k: nat :: OccursAt(s, needle, k)
    decreases |s|
  {
    if |needle| > |s| then false
    else if s[..|needle|] == needle then (assert OccursAt(s, needle, 0); true)
    else
      OccursShift(s, needle);
      Contains(s[1..], needle)
  }

  /** An occurrence in `s` other than at 0 is an occurrence in `s[1..]` one place earlier. */
  lemma OccursShift(s: string, needle: string)
    requires |needle| <= |s| && s != [] && s[..|needle|] != needle
    ensures (exists k: nat :: OccursAt(s, needle, k)) <==> (exists k: nat :: OccursAt(s[1..], needle, k))
  {
    if k: nat :| OccursAt(s[1..], needle, k) {
      assert s[k + 1..k + 1 + |needle|] == s[1..][k..k + |needle|];
      assert OccursAt(s, needle, k + 1);
    }
    if k: nat :| OccursAt(s, needle, k) {
      assert k != 0;
      assert s[1..][k - 1..k - 1 + |needle|] == s[k..k + |needle|];
      assert OccursAt(s[1..], needle, k - 1);
    }
  }

  // ---------------------------------------------------------------------
  // Text nodes of a scraped element
  // ---------------------------------------------------------------------

  /** `select(..).next().unwrap().text().next().expect("")`: the first text
      node of the element, absent when either step finds nothing. */
  function FirstText(texts: Option<seq<string>>): (r: Option<string>)
    ensures r.Some? <==> texts.Some? && texts.value != []
    ensures r.Some? ==> r.value == texts.value[0]
  {
    if texts.Some? && texts.value != [] then Some(texts.value[0]) else None
  }
}
