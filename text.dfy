/** The JavaScript string operations the core relies on, over strings of
    Unicode scalar values (JavaScript counts UTF-16 code units, which is
    the same inside the Basic Multilingual Plane): `trim`, `split`,
    `join`, `indexOf`, `substring`, `parseInt`, number-to-string
    conversion, and the lazy "header up to terminator" regular expressions
    used to cut an LLM reply into sections. */
module Text {
  import opened Common

  // ---------------------------------------------------------------------
  // Character classes

  /** LineTerminator of ECMAScript; `.` in a regular expression without the
      `s` flag matches every character except these. */
  predicate IsLineTerminator(c: char) {
    c == '\n' || c == '\r' || c == '\U{2028}' || c == '\U{2029}'
  }

  /** WhiteSpace and LineTerminator of ECMAScript: what `trim` removes and
      what `\s` matches. */
  predicate IsSpace(c: char) {
    || IsLineTerminator(c)
    || c == '\t' || c == '\U{B}' || c == '\U{C}' || c == ' '
    || c == '\U{A0}' || c == '\U{FEFF}' || c == '\U{1680}'
    || ('\U{2000}' <= c <= '\U{200A}')
    || c == '\U{202F}' || c == '\U{205F}' || c == '\U{3000}'
  }

  /** An ASCII decimal digit (what `\d` matches). */
  predicate IsDigit(c: char) {
    '0' <= c <= '9'
  }

  /** An ASCII letter, digit or underscore (what `\w` matches). */
  predicate IsWordChar(c: char) {
    IsDigit(c) || ('a' <= c <= 'z') || ('A' <= c <= 'Z') || c == '_'
  }

  predicate AllSpace(s: string) {
    forall i :: 0 <= i < |s| ==> IsSpace(s[i])
  }

  /** A line is kept by `filter(l => l.trim())` exactly when it is not blank. */
  predicate NonBlank(s: string) {
    !AllSpace(s)
  }

  predicate AllDigits(s: string) {
    forall i :: 0 <= i < |s| ==> IsDigit(s[i])
  }

  // ---------------------------------------------------------------------
  // Generic sequence filtering and mapping (`Array.prototype.filter`, `map`)

  function Filter<T>(s: seq<T>, p: T -> bool): (r: seq<T>)
    ensures |r| <= |s|
    ensures forall k :: 0 <= k < |r| ==> p(r[k])
  {
    if s == [] then [] else (if p(s[0]) then [s[0]] else []) + Filter(s[1..], p)
  }

  /** The kept elements are exactly the elements that pass. */
  lemma {:induction false} FilterMembers<T>(s: seq<T>, p: T -> bool, x: T)
    ensures x in Filter(s, p) <==> x in s && p(x)
  {
    if s != [] {
      FilterMembers(s[1..], p, x);
      assert s == [s[0]] + s[1..];
    }
  }

  /** Filtering keeps order: it distributes over concatenation. */
  lemma {:induction false} FilterAppend<T>(a: seq<T>, b: seq<T>, p: T -> bool)
    ensures Filter(a + b, p) == Filter(a, p) + Filter(b, p)
  {
    if a == [] {
      assert a + b == b;
    } else {
      assert (a + b)[1..] == a[1..] + b;
      FilterAppend(a[1..], b, p);
    }
  }

  /** A sequence all of whose elements pass is kept whole. */
  lemma {:induction false} FilterAllPass<T>(s: seq<T>, p: T -> bool)
    requires forall k :: 0 <= k < |s| ==> p(s[k])
    ensures Filter(s, p) == s
  {
    if s != [] {
      FilterAllPass(s[1..], p);
    }
  }

  /** The index of the last element that passes `p`. */
  function LastWhere<T>(s: seq<T>, p: T -> bool): (r: Option<nat>)
    ensures r.Some? ==> r.value < |s| && p(s[r.value])
    ensures r.Some? ==> forall j :: r.value < j < |s| ==> !p(s[j])
    ensures r.None? ==> forall j :: 0 <= j < |s| ==> !p(s[j])
  {
    if s == [] then None
    else if p(s[|s| - 1]) then Some(|s| - 1)
    else LastWhere(s[..|s| - 1], p)
  }

  function Map<T, U>(s: seq<T>, f: T -> U): (r: seq<U>)
    ensures |r| == |s|
    ensures forall k :: 0 <= k < |s| ==> r[k] == f(s[k])
  {
    if s == [] then [] else [f(s[0])] + Map(s[1..], f)
  }

  /** Mapping one more element of a prefix adds its image at the end. */
  lemma MapPrefixStep<T, U>(s: seq<T>, f: T -> U, i: nat)
    requires i < |s|
    ensures Map(s[..i + 1], f) == Map(s[..i], f) + [f(s[i])]
  {
  }

  // ---------------------------------------------------------------------
  // trim

  function TrimStart(s: string): (r: string)
    ensures |r| <= |s| && r == s[|s| - |r|..]
    ensures forall i :: 0 <= i < |s| - |r| ==> IsSpace(s[i])
    ensures r != [] ==> !IsSpace(r[0])
  {
    if s != [] && IsSpace(s[0]) then TrimStart(s[1..]) else s
  }

  function TrimEnd(s: string): (r: string)
    ensures |r| <= |s| && r == s[..|r|]
    ensures forall i :: |r| <= i < |s| ==> IsSpace(s[i])
    ensures r != [] ==> !IsSpace(r[|r| - 1])
  {
    if s != [] && IsSpace(s[|s| - 1]) then TrimEnd(s[..|s| - 1]) else s
  }

  /** `String.prototype.trim`: the result is empty exactly for a blank
      string, and otherwise neither starts nor ends with white space. */
  function Trim(s: string): (r: string)
    ensures |r| <= |s|
    ensures r == "" <==> AllSpace(s)
    ensures r != "" ==> !IsSpace(r[0]) && !IsSpace(r[|r| - 1])
  {
    var t := TrimStart(s);
    assert t == "" ==> AllSpace(s);
    assert t != "" ==> !IsSpace(t[0]) && t[0] == s[|s| - |t|];
    TrimEnd(t)
  }

  // ---------------------------------------------------------------------
  // split and join

  /** `String.prototype.split` with a one-character separator. */
  function Split(s: string, sep: char): (parts: seq<string>)
    ensures |parts| >= 1
  {
    if s == [] then [[]]
    else
      var rest := Split(s[1..], sep);
      if s[0] == sep then [[]] + rest else [[s[0]] + rest[0]] + rest[1..]
  }

  /** No piece holds the separator. */
  lemma {:induction false} SplitPieces(s: string, sep: char)
    ensures forall k :: 0 <= k < |Split(s, sep)| ==> sep !in Split(s, sep)[k]
  {
    if s != [] {
      SplitPieces(s[1..], sep);
      var rest := Split(s[1..], sep);
      if s[0] != sep {
        assert forall c :: c in [s[0]] + rest[0] ==> c == s[0] || c in rest[0];
      }
    }
  }

  /** `Array.prototype.join`. */
  function Join(parts: seq<string>, sep: string): string {
    if parts == [] then ""
    else if |parts| == 1 then parts[0]
    else parts[0] + sep + Join(parts[1..], sep)
  }

  /** Splitting on a character and joining with it again gives the text back. */
  lemma {:induction false} JoinSplit(s: string, sep: char)
    ensures Join(Split(s, sep), [sep]) == s
  {
    if s != [] {
      var rest := Split(s[1..], sep);
      JoinSplit(s[1..], sep);
      if s[0] == sep {
        assert Split(s, sep) == [[]] + rest;
        assert ([[]] + rest)[1..] == rest;
      } else {
        var parts := Split(s, sep);
        assert parts == [[s[0]] + rest[0]] + rest[1..];
        if |rest| == 1 {
          assert Join(rest, [sep]) == rest[0];
        } else {
          assert Join(rest, [sep]) == rest[0] + [sep] + Join(rest[1..], [sep]);
          assert parts[1..] == rest[1..];
        }
      }
    }
  }

  /** A text without a line break is one line. */
  lemma {:induction false} SplitWithoutSeparator(s: string, sep: char)
    requires sep !in s
    ensures Split(s, sep) == [s]
  {
    if s != [] {
      assert s[0] in s;
      assert forall c :: c in s[1..] ==> c in s;
      SplitWithoutSeparator(s[1..], sep);
      assert [s[0]] + s[1..] == s;
    }
  }

  /** A piece without the separator, then the separator, starts a new
      piece. */
  lemma {:induction false} SplitAfterPiece(a: string, b: string, sep: char)
    requires sep !in a
    ensures Split(a + [sep] + b, sep) == [a] + Split(b, sep)
  {
    if a == [] {
      assert a + [sep] + b == [sep] + b;
      assert ([sep] + b)[1..] == b;
    } else {
      assert (a + [sep] + b)[1..] == a[1..] + [sep] + b;
      assert a[0] in a;
      assert forall c :: c in a[1..] ==> c in a;
      SplitAfterPiece(a[1..], b, sep);
      assert [a[0]] + a[1..] == a;
    }
  }

  /** Joining pieces free of the separator and splitting again gives the
      pieces back. */
  lemma {:induction false} SplitJoin(parts: seq<string>, sep: char)
    requires parts != []
    requires forall k :: 0 <= k < |parts| ==> sep !in parts[k]
    ensures Split(Join(parts, [sep]), sep) == parts
  {
    if |parts| == 1 {
      SplitWithoutSeparator(parts[0], sep);
    } else {
      var rest := Join(parts[1..], [sep]);
      assert Join(parts, [sep]) == parts[0] + [sep] + rest;
      SplitJoin(parts[1..], sep);
      SplitAfterPiece(parts[0], rest, sep);
      assert [parts[0]] + parts[1..] == parts;
    }
  }

  /** `s.split('\n').filter(l => l.trim())`: the lines that are not blank. */
  function NonBlankLines(s: string): (r: seq<string>)
    ensures forall k :: 0 <= k < |r| ==> NonBlank(r[k]) && '\n' !in r[k]
  {
    var lines := Split(s, '\n');
    SplitPieces(s, '\n');
    var r := Filter(lines, NonBlank);
    forall k | 0 <= k < |r|
      ensures r[k] in lines
    {
      FilterMembers(lines, NonBlank, r[k]);
    }
    r
  }

  /** Non-blank lines joined with line breaks are read back as they were. */
  lemma NonBlankLinesOfJoin(lines: seq<string>)
    requires lines != []
    requires forall k :: 0 <= k < |lines| ==> NonBlank(lines[k]) && '\n' !in lines[k]
    ensures NonBlankLines(Join(lines, "\n")) == lines
  {
    SplitJoin(lines, '\n');
    FilterAllPass(lines, NonBlank);
  }

  // ---------------------------------------------------------------------
  // startsWith, indexOf, includes, substring

  /** `s.startsWith(p)`, compared one character at a time. */
  function StartsWith(s: string, p: string): (r: bool)
    ensures r ==> |p| <= |s|
  {
    if p == [] then true else s != [] && s[0] == p[0] && StartsWith(s[1..], p[1..])
  }

  /** A string that starts with `p` agrees with it at every index of `p`. */
  lemma {:induction false} StartsWithAt(s: string, p: string, i: nat)
    requires StartsWith(s, p) && i < |p|
    ensures s[i] == p[i]
  {
    if i > 0 {
      StartsWithAt(s[1..], p[1..], i - 1);
    }
  }

  /** `startsWith` is the prefix relation. */
  lemma {:induction false} StartsWithIsPrefix(s: string, p: string)
    ensures StartsWith(s, p) <==> p <= s
  {
    if p != [] && s != [] {
      StartsWithIsPrefix(s[1..], p[1..]);
      assert p <= s <==> s[0] == p[0] && p[1..] <= s[1..];
    }
  }

  predicate OccursAt(s: string, pat: string, i: nat) {
    i + |pat| <= |s| && s[i..i + |pat|] == pat
  }

  /** `s.indexOf(pat, from)`: the first position at or after `from` where
      `pat` occurs (see `IndexOfFirst`). */
  function IndexOf(s: string, pat: string, from: nat): (r: Option<nat>)
    ensures r.Some? ==> from <= r.value && r.value + |pat| <= |s|
    decreases |s| - from
  {
    if from + |pat| > |s| then None
    else if OccursAt(s, pat, from) then Some(from)
    else IndexOf(s, pat, from + 1)
  }

  /** `indexOf` finds the first occurrence at or after `from`, and reports
      none only when there is none. */
  lemma {:induction false} IndexOfFirst(s: string, pat: string, from: nat)
    ensures IndexOf(s, pat, from).Some? ==> OccursAt(s, pat, IndexOf(s, pat, from).value)
    ensures IndexOf(s, pat, from).Some? ==>
      forall j :: from <= j < IndexOf(s, pat, from).value ==> !OccursAt(s, pat, j)
    ensures IndexOf(s, pat, from).None? ==> forall j :: from <= j ==> !OccursAt(s, pat, j)
    decreases |s| - from
  {
    if from + |pat| <= |s| && !OccursAt(s, pat, from) {
      IndexOfFirst(s, pat, from + 1);
    }
  }

  /** Whether `pat` occurs somewhere in `s`. */
  predicate Contains(s: string, pat: string) {
    IndexOf(s, pat, 0).Some?
  }

  /** `s.substring(0, n)`, `a.slice(0, n)` and a query's `limit(n)`: the
      first `n` elements, or all of them when there are fewer. */
  function Prefix<T>(s: seq<T>, n: nat): (r: seq<T>)
    ensures |r| == Min(n, |s|)
    ensures r <= s
  {
    if n < |s| then s[..n] else s
  }

  // ---------------------------------------------------------------------
  // Regular-expression sections

  /** `text.match(/<header>([\s\S]*?)(?=<terminator>|$)/)[1]`, with `$`
      meaning the end of the whole text (no `m` flag): the text after the
      first occurrence of `header`, up to the first following occurrence of
      `terminator` or to the end. `None` when the header does not occur. */
  function Section(text: string, header: string, terminator: Option<string>): Option<string> {
    match IndexOf(text, header, 0)
    case None => None
    case Some(i) =>
      var rest := text[i + |header|..];
      match terminator
      case None => Some(rest)
      case Some(t) =>
        match IndexOf(rest, t, 0)
        case None => Some(rest)
        case Some(j) => Some(rest[..j])
  }

  /** A section is found exactly when its header occurs. */
  lemma SectionFound(text: string, header: string, terminator: Option<string>)
    ensures Section(text, header, terminator).Some? <==> Contains(text, header)
  {
  }

  /** A section is a piece of the text after the header's first occurrence,
      running to the end when there is no terminator. */
  lemma SectionWithin(text: string, header: string, terminator: Option<string>)
    ensures Section(text, header, terminator).Some? ==>
      var i := IndexOf(text, header, 0).value;
      Section(text, header, terminator).value <= text[i + |header|..]
    ensures Section(text, header, terminator).Some? && terminator.None? ==>
      var i := IndexOf(text, header, 0).value;
      Section(text, header, terminator).value == text[i + |header|..]
  {
  }

  /** The text before the first occurrence of `pat` does not contain it. */
  lemma BeforeFirstOccurrence(s: string, pat: string, j: nat)
    ensures IndexOf(s, pat, 0) == Some(j) && pat != [] ==> !Contains(s[..j], pat)
  {
    if IndexOf(s, pat, 0) == Some(j) && pat != [] {
      IndexOfFirst(s, pat, 0);
      IndexOfFirst(s[..j], pat, 0);
      forall k: nat | OccursAt(s[..j], pat, k)
        ensures OccursAt(s, pat, k)
      {
        assert s[..j][k..k + |pat|] == s[k..k + |pat|];
      }
    }
  }

  /** A section never contains its (non-empty) terminator. */
  lemma SectionStops(text: string, header: string, terminator: Option<string>)
    ensures Section(text, header, terminator).Some? && terminator.Some? && terminator.value != "" ==>
      !Contains(Section(text, header, terminator).value, terminator.value)
  {
    match IndexOf(text, header, 0)
    case None =>
    case Some(i) =>
      var rest := text[i + |header|..];
      match terminator
      case None =>
      case Some(t) =>
        match IndexOf(rest, t, 0)
        case None =>
          IndexOfFirst(rest, t, 0);
        case Some(j) =>
          BeforeFirstOccurrence(rest, t, j);
  }

  // ---------------------------------------------------------------------
  // Numbers

  /** The longest prefix of `s` made of decimal digits (greedy `\d+`). */
  function LeadingDigits(s: string): (r: string)
    ensures r <= s && AllDigits(r)
    ensures |r| < |s| ==> !IsDigit(s[|r|])
  {
    if s != [] && IsDigit(s[0]) then [s[0]] + LeadingDigits(s[1..]) else ""
  }

  function DigitValue(c: char): nat {
    if IsDigit(c) then c as int - '0' as int else 0
  }

  /** The value of a run of decimal digits. */
  function DigitsValue(ds: string): nat {
    if ds == [] then 0 else DigitsValue(ds[..|ds| - 1]) * 10 + DigitValue(ds[|ds| - 1])
  }

  function DigitChar(d: nat): char
    requires d < 10
  {
    ('0' as int + d) as char
  }

  /** `String(n)` for a non-negative integer. */
  function NatToString(n: nat): (r: string)
    ensures r != "" && AllDigits(r)
  {
    if n < 10 then [DigitChar(n)] else NatToString(n / 10) + [DigitChar(n % 10)]
  }

  /** Reading back the decimal rendering of a number gives the number. */
  lemma {:induction false} NatToStringValue(n: nat)
    ensures DigitsValue(NatToString(n)) == n
  {
    if n >= 10 {
      NatToStringValue(n / 10);
      var r := NatToString(n);
      assert r[..|r| - 1] == NatToString(n / 10);
    }
  }

  /** A string made only of digits is its own leading digit run. */
  lemma {:induction false} LeadingDigitsOfDigits(s: string, rest: string)
    requires AllDigits(s)
    requires rest == [] || !IsDigit(rest[0])
    ensures LeadingDigits(s + rest) == s
  {
    if s != [] {
      assert (s + rest)[1..] == s[1..] + rest;
      LeadingDigitsOfDigits(s[1..], rest);
    } else {
      assert s + rest == rest;
    }
  }

  predicate IsHexDigit(c: char) {
    IsDigit(c) || ('a' <= c <= 'f') || ('A' <= c <= 'F')
  }

  function HexDigitValue(c: char): nat {
    if IsDigit(c) then c as int - '0' as int
    else if 'a' <= c <= 'f' then c as int - 'a' as int + 10
    else if 'A' <= c <= 'F' then c as int - 'A' as int + 10
    else 0
  }

  function LeadingHexDigits(s: string): (r: string)
    ensures r <= s
    ensures forall i :: 0 <= i < |r| ==> IsHexDigit(r[i])
  {
    if s != [] && IsHexDigit(s[0]) then [s[0]] + LeadingHexDigits(s[1..]) else ""
  }

  function HexValue(hs: string): nat {
    if hs == [] then 0 else HexValue(hs[..|hs| - 1]) * 16 + HexDigitValue(hs[|hs| - 1])
  }

  /** `parseInt(s)` with no radix: leading white space is skipped, an
      optional sign is read, a `0x`/`0X` prefix selects base 16, and the
      longest run of digits of that base is read; `None` stands for NaN
      (no digit at all). */
  function ParseInt(s: string): Option<int> {
    var t := TrimStart(s);
    if t != [] && t[0] == '-' then
      match ParseMagnitude(t[1..]) { case None => None case Some(m) => Some(-(m as int)) }
    else if t != [] && t[0] == '+' then ParseMagnitude(t[1..])
    else ParseMagnitude(t)
  }

  /** The unsigned part of `parseInt`: hexadecimal after `0x`/`0X`,
      decimal otherwise. */
  function ParseMagnitude(u: string): Option<nat> {
    if |u| >= 2 && u[0] == '0' && (u[1] == 'x' || u[1] == 'X') then
      var hs := LeadingHexDigits(u[2..]);
      if hs == [] then None else Some(HexValue(hs))
    else
      var ds := LeadingDigits(u);
      if ds == [] then None else Some(DigitsValue(ds))
  }

  /** A string that does not start with white space is not trimmed. */
  lemma TrimStartUnchanged(s: string)
    requires s == [] || !IsSpace(s[0])
    ensures TrimStart(s) == s
  {
  }

  /** A string that neither starts nor ends with white space is not
      trimmed. */
  lemma TrimUnchanged(s: string)
    requires s != [] && !IsSpace(s[0]) && !IsSpace(s[|s| - 1])
    ensures Trim(s) == s
  {
    TrimStartUnchanged(s);
  }

  lemma DigitIsNotSpace(c: char)
    requires IsDigit(c)
    ensures !IsSpace(c)
  {
  }

  lemma MagnitudeOfDigits(ds: string)
    requires ds != "" && AllDigits(ds)
    ensures ParseMagnitude(ds) == Some(DigitsValue(ds))
  {
    LeadingDigitsOfDigits(ds, "");
    assert ds + "" == ds;
    assert |ds| >= 2 ==> IsDigit(ds[1]);
  }

  /** `parseInt` reads a string of decimal digits as its value. */
  lemma ParseIntOfDigits(ds: string)
    requires ds != "" && AllDigits(ds)
    ensures ParseInt(ds) == Some(DigitsValue(ds))
  {
    assert IsDigit(ds[0]);
    DigitIsNotSpace(ds[0]);
    TrimStartUnchanged(ds);
    MagnitudeOfDigits(ds);
  }

  /** `parseInt` reads back every decimal rendering of a non-negative number. */
  lemma ParseIntNatToString(n: nat)
    ensures ParseInt(NatToString(n)) == Some(n)
  {
    NatToStringValue(n);
    ParseIntOfDigits(NatToString(n));
  }

  lemma MagnitudeWithoutDigits(u: string)
    requires forall k :: 0 <= k < |u| ==> !IsHexDigit(u[k])
    ensures ParseMagnitude(u) == None
  {
    if u != [] {
      assert !IsHexDigit(u[0]);
    }
    if |u| >= 3 {
      assert !IsHexDigit(u[2]);
    }
  }

  /** A string with no digit at all is NaN to `parseInt`. */
  lemma ParseIntNoDigits(s: string)
    requires forall k :: 0 <= k < |s| ==> !IsHexDigit(s[k])
    ensures ParseInt(s) == None
  {
    var t := TrimStart(s);
    assert t == s[|s| - |t|..];
    MagnitudeWithoutDigits(t);
    if t != [] {
      MagnitudeWithoutDigits(t[1..]);
    }
  }

  /** The first position at or after `from` holding a decimal digit. */
  function FirstDigit(s: string, from: nat): (r: Option<nat>)
    ensures r.Some? ==> from <= r.value < |s| && IsDigit(s[r.value])
    ensures r.Some? ==> forall j :: from <= j < r.value ==> !IsDigit(s[j])
    ensures r.None? ==> forall j :: from <= j < |s| ==> !IsDigit(s[j])
    decreases |s| - from
  {
    if from >= |s| then None
    else if IsDigit(s[from]) then Some(from)
    else FirstDigit(s, from + 1)
  }

  /** `s.match(/\d+/)?.[0]`: the first run of decimal digits, taken whole. */
  function FirstDigitRun(s: string): (r: Option<string>)
    ensures r.Some? ==> r.value != "" && AllDigits(r.value)
  {
    match FirstDigit(s, 0)
    case None => None
    case Some(i) => Some(LeadingDigits(s[i..]))
  }

  /** Text without digits has no digit run. */
  lemma NoDigitRun(s: string)
    ensures (forall j :: 0 <= j < |s| ==> !IsDigit(s[j])) <==> FirstDigitRun(s).None?
  {
    if FirstDigitRun(s).None? {
      assert FirstDigit(s, 0).None?;
    }
  }

  /** After a digit-free lead, the first digit run of a number's decimal
      rendering followed by something that is not a digit is that
      rendering. */
  lemma FirstDigitRunOf(lead: string, n: nat, rest: string)
    requires forall j :: 0 <= j < |lead| ==> !IsDigit(lead[j])
    requires rest == [] || !IsDigit(rest[0])
    ensures FirstDigitRun(lead + NatToString(n) + rest) == Some(NatToString(n))
  {
    var s := lead + NatToString(n) + rest;
    var ds := NatToString(n);
    assert IsDigit(s[|lead|]);
    assert FirstDigit(s, 0) == Some(|lead|);
    assert s[|lead|..] == ds + rest;
    LeadingDigitsOfDigits(ds, rest);
  }

  /** JavaScript's rendering of the number `h / 100` (`String(x)` or a
      template literal) for a value held in hundredths: no fraction for a
      whole number, otherwise one or two fraction digits without a
      trailing zero. */
  function RenderHundredths(h: int): (r: string)
    ensures r != ""
  {
    if h < 0 then "-" + RenderUnsigned(-h) else RenderUnsigned(h)
  }

  function RenderUnsigned(h: nat): (r: string)
    ensures r != "" && IsDigit(r[0])
  {
    NatToString(h / 100) + Fraction(h % 100)
  }

  /** The fraction part of a rendering: `""`, `.d` or `.dd`. */
  function Fraction(f: nat): (r: string)
    requires f < 100
    ensures r == [] || r[0] == '.'
  {
    if f == 0 then ""
    else if f % 10 == 0 then "." + [DigitChar(f / 10)]
    else "." + [DigitChar(f / 10), DigitChar(f % 10)]
  }

  /** Reads a decimal number with at most two fraction digits as a count of
      hundredths; `None` for anything else. */
  function ReadHundredths(s: string): Option<int> {
    if s != [] && s[0] == '-' then
      match ReadUnsigned(s[1..]) { case None => None case Some(m) => Some(-(m as int)) }
    else ReadUnsigned(s)
  }

  function ReadUnsigned(s: string): Option<nat> {
    var ds := LeadingDigits(s);
    if ds == [] then None
    else
      match ReadFraction(s[|ds|..])
      case None => None
      case Some(f) => Some(DigitsValue(ds) * 100 + f)
  }

  /** Nothing, or a point and one or two digits, in hundredths. */
  function ReadFraction(rest: string): Option<nat> {
    if rest == [] then Some(0)
    else if |rest| == 2 && rest[0] == '.' && IsDigit(rest[1]) then
      Some(DigitValue(rest[1]) * 10)
    else if |rest| == 3 && rest[0] == '.' && IsDigit(rest[1]) && IsDigit(rest[2]) then
      Some(DigitValue(rest[1]) * 10 + DigitValue(rest[2]))
    else None
  }

  lemma ReadFractionRendering(f: nat)
    requires f < 100
    ensures ReadFraction(Fraction(f)) == Some(f)
  {
    assert IsDigit(DigitChar(f / 10)) && DigitValue(DigitChar(f / 10)) == f / 10;
    assert IsDigit(DigitChar(f % 10)) && DigitValue(DigitChar(f % 10)) == f % 10;
  }

  /** Reading the rendering of a non-negative count back. */
  lemma ReadUnsignedRendering(h: nat)
    ensures ReadUnsigned(RenderUnsigned(h)) == Some(h)
  {
    var ds := NatToString(h / 100);
    var f := Fraction(h % 100);
    NatToStringValue(h / 100);
    LeadingDigitsOfDigits(ds, f);
    assert (ds + f)[|ds|..] == f;
    ReadFractionRendering(h % 100);
  }

  /** Rendering a number and reading it back gives the number. */
  lemma ReadRenderedHundredths(h: int)
    ensures ReadHundredths(RenderHundredths(h)) == Some(h)
  {
    if h < 0 {
      ReadNegative(h);
    } else {
      ReadNonNegative(h);
    }
  }

  lemma ReadNonNegative(h: int)
    requires h >= 0
    ensures ReadHundredths(RenderHundredths(h)) == Some(h)
  {
    var u := RenderUnsigned(h);
    assert RenderHundredths(h) == u;
    assert ReadHundredths(u) == ReadUnsigned(u);
    ReadUnsignedRendering(h);
  }

  lemma ReadNegative(h: int)
    requires h < 0
    ensures ReadHundredths(RenderHundredths(h)) == Some(h)
  {
    var m: nat := -h;
    var u := RenderUnsigned(m);
    assert RenderHundredths(h) == "-" + u;
    ReadUnsignedRendering(m);
    ReadMinus(u, m);
  }

  lemma ReadMinus(u: string, m: nat)
    requires ReadUnsigned(u) == Some(m)
    ensures ReadHundredths("-" + u) == Some(-(m as int))
  {
    assert ("-" + u)[1..] == u;
  }

  // ---------------------------------------------------------------------
  // toLowerCase

  function ToLowerAscii(c: char): char {
    if 'A' <= c <= 'Z' then (c as int + 32) as char else c
  }

  /** `toLowerCase`, restricted to ASCII letters. */
  function ToLower(s: string): (r: string)
    ensures |r| == |s|
    ensures forall i :: 0 <= i < |s| ==> r[i] == ToLowerAscii(s[i])
  {
    if s == [] then [] else [ToLowerAscii(s[0])] + ToLower(s[1..])
  }
}
