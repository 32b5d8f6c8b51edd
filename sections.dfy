/** Replies laid out as markdown sections (`## Name`, a line break, the
    body) and what the section-cutting expressions of `Text.Section` read
    back from them: each body, exactly, as long as no body contains `#` and
    the section names start with different letters. This is the format the
    agents ask the model to answer in. */
module Sections {
  import opened Common
  import opened Text

  /** The heading line of a section. */
  function Heading(name: string): string {
    "## " + name + "\n"
  }

  datatype Part = Part(name: string, body: string)

  /** The sections one after the other, each body followed by a line break
      before the next heading. */
  function Layout(parts: seq<Part>): string
    requires parts != []
  {
    if |parts| == 1 then Heading(parts[0].name) + parts[0].body
    else Heading(parts[0].name) + (parts[0].body + ("\n" + Layout(parts[1..])))
  }

  /** Names and bodies free of `#`, and names told apart by their first
      letter. */
  predicate WellFormed(parts: seq<Part>) {
    && (forall k :: 0 <= k < |parts| ==> parts[k].name != "" && '#' !in parts[k].name && '#' !in parts[k].body)
    && (forall i, j :: 0 <= i < j < |parts| ==> parts[i].name[0] != parts[j].name[0])
  }

  /** Parts whose names start with the letters of `initials`, all
      different, are well formed when nothing in them holds `#`. */
  lemma WellFormedByInitials(parts: seq<Part>, initials: string)
    requires |initials| == |parts|
    requires forall k :: 0 <= k < |parts| ==>
      parts[k].name != "" && parts[k].name[0] == initials[k] && '#' !in parts[k].name && '#' !in parts[k].body
    requires forall i, j :: 0 <= i < j < |initials| ==> initials[i] != initials[j]
    ensures WellFormed(parts)
  {
  }

  /** What follows the heading of part `k`: its body, then the rest of the
      layout. */
  function After(parts: seq<Part>, k: nat): string
    requires k < |parts|
  {
    if k + 1 == |parts| then parts[k].body
    else parts[k].body + ("\n" + Layout(parts[k + 1..]))
  }

  // ---------------------------------------------------------------------
  // Where a pattern cannot start

  lemma OccursAtChar(s: string, pat: string, j: nat, m: nat)
    requires OccursAt(s, pat, j) && m < |pat|
    ensures s[j + m] == pat[m]
  {
    assert s[j..j + |pat|][m] == pat[m];
  }

  /** `pat` starts nowhere before `n`. */
  predicate NoneBefore(s: string, pat: string, n: nat) {
    forall j :: 0 <= j < n ==> !OccursAt(s, pat, j)
  }

  /** `pat` occurs at `i` and nowhere before. */
  predicate FirstAt(s: string, pat: string, i: nat) {
    OccursAt(s, pat, i) && NoneBefore(s, pat, i)
  }

  lemma FirstIsIndexOf(s: string, pat: string, i: nat)
    ensures FirstAt(s, pat, i) ==> IndexOf(s, pat, 0) == Some(i)
  {
    IndexOfFirst(s, pat, 0);
  }

  lemma NowhereIsIndexOf(s: string, pat: string)
    requires forall j :: 0 <= j < |s| ==> !OccursAt(s, pat, j)
    requires pat != []
    ensures IndexOf(s, pat, 0).None?
  {
    IndexOfFirst(s, pat, 0);
  }

  lemma OccursShift(x: string, y: string, pat: string, j: nat)
    requires |x| <= j
    ensures OccursAt(x + y, pat, j) <==> OccursAt(y, pat, j - |x|)
  {
    if j + |pat| <= |x + y| {
      assert (x + y)[j..j + |pat|] == y[j - |x|..j - |x| + |pat|];
    }
  }

  /** Skipping a prefix in which the pattern cannot start shifts the first
      occurrence by the prefix's length. */
  lemma FirstAfter(x: string, y: string, pat: string, m: nat)
    ensures NoneBefore(x + y, pat, |x|) && FirstAt(y, pat, m) ==> FirstAt(x + y, pat, |x| + m)
  {
    if NoneBefore(x + y, pat, |x|) && FirstAt(y, pat, m) {
      OccursShift(x, y, pat, |x| + m);
      forall j | |x| <= j < |x| + m
        ensures !OccursAt(x + y, pat, j)
      {
        OccursShift(x, y, pat, j);
      }
    }
  }

  /** A pattern starting with `#` cannot start inside text without `#`. */
  lemma NotInPlain(x: string, y: string, pat: string)
    requires pat != [] && pat[0] == '#' && '#' !in x
    ensures NoneBefore(x + y, pat, |x|)
  {
    forall j | 0 <= j < |x| && OccursAt(x + y, pat, j)
      ensures false
    {
      OccursAtChar(x + y, pat, j, 0);
    }
  }

  /** A pattern whose second character is `#` cannot start inside text
      without `#` when what follows does not start with `#`. */
  lemma NotInPlainBefore(x: string, y: string, pat: string)
    requires |pat| >= 2 && pat[1] == '#' && '#' !in x && (y == [] || y[0] != '#')
    ensures NoneBefore(x + y, pat, |x|)
  {
    forall j | 0 <= j < |x| && OccursAt(x + y, pat, j)
      ensures false
    {
      OccursAtChar(x + y, pat, j, 1);
    }
  }

  /** One heading cannot start inside another whose name begins with a
      different letter. */
  lemma NotAtHeading(name: string, y: string, other: string)
    requires name != "" && other != "" && name[0] != other[0] && '#' !in name
    ensures NoneBefore(Heading(name) + y, Heading(other), |Heading(name)|)
  {
    var h := Heading(name);
    forall j | 0 <= j < |h| && OccursAt(h + y, Heading(other), j)
      ensures false
    {
      if j == 0 {
        OccursAtChar(h + y, Heading(other), 0, 3);
      } else if j == 1 {
        OccursAtChar(h + y, Heading(other), 1, 1);
      } else {
        OccursAtChar(h + y, Heading(other), j, 0);
      }
    }
  }

  // ---------------------------------------------------------------------
  // Reading the layout back

  /** The first heading of a layout is found at its very start. */
  lemma FirstHeadingAt(parts: seq<Part>)
    requires parts != []
    ensures FirstAt(Layout(parts), Heading(parts[0].name), 0)
    ensures Layout(parts)[|Heading(parts[0].name)|..] == After(parts, 0)
  {
  }

  lemma RestWellFormed(parts: seq<Part>)
    requires parts != []
    ensures WellFormed(parts) ==> WellFormed(parts[1..])
  {
    assert forall m :: 0 <= m < |parts[1..]| ==> parts[1..][m] == parts[m + 1];
  }

  /** Skipping one part (heading, body, line break) shifts the first
      occurrence of another heading by the part's length. */
  lemma SkipPart(name: string, body: string, tail: string, other: string, i': nat)
    requires name != "" && other != "" && name[0] != other[0] && '#' !in name && '#' !in body
    ensures FirstAt(tail, Heading(other), i')
      ==> FirstAt(Heading(name) + (body + ("\n" + tail)), Heading(other), |Heading(name)| + |body| + 1 + i')
  {
    var h := Heading(other);
    NotInPlain("\n", tail, h);
    FirstAfter("\n", tail, h, i');
    NotInPlain(body, "\n" + tail, h);
    FirstAfter(body, "\n" + tail, h, 1 + i');
    NotAtHeading(name, body + ("\n" + tail), other);
    FirstAfter(Heading(name), body + ("\n" + tail), h, |body| + 1 + i');
  }

  /** A heading found in the layout of the later parts is found in the
      whole layout, shifted by the first part. */
  lemma LaterHeadingAt(parts: seq<Part>, k: nat, i': nat)
    requires 0 < k < |parts|
    ensures WellFormed(parts) && FirstAt(Layout(parts[1..]), Heading(parts[k].name), i')
      ==> FirstAt(Layout(parts), Heading(parts[k].name), |Heading(parts[0].name)| + |parts[0].body| + 1 + i')
  {
    if WellFormed(parts) {
      var p, q := parts[0], parts[k];
      assert p.name != "" && '#' !in p.name && '#' !in p.body;
      assert q.name != "" && p.name[0] != q.name[0];
      assert Layout(parts) == Heading(p.name) + (p.body + ("\n" + Layout(parts[1..])));
      SkipPart(p.name, p.body, Layout(parts[1..]), q.name, i');
    }
  }

  /** What follows a later heading is the same in the whole layout as in
      the layout of the later parts. */
  lemma LaterAfter(parts: seq<Part>, k: nat, i': nat)
    requires 0 < k < |parts|
    requires i' + |Heading(parts[k].name)| <= |Layout(parts[1..])|
    requires Layout(parts[1..])[i' + |Heading(parts[k].name)|..] == After(parts[1..], k - 1)
    ensures |Heading(parts[0].name)| + |parts[0].body| + 1 + i' + |Heading(parts[k].name)| <= |Layout(parts)|
    ensures Layout(parts)[|Heading(parts[0].name)| + |parts[0].body| + 1 + i' + |Heading(parts[k].name)|..]
      == After(parts, k)
  {
    var tail := Layout(parts[1..]);
    var before := Heading(parts[0].name) + (parts[0].body + "\n");
    var n := i' + |Heading(parts[k].name)|;
    assert Layout(parts) == before + tail;
    assert (before + tail)[|before| + n..] == tail[n..];
    if k + 1 < |parts| {
      assert parts[1..][k..] == parts[k + 1..];
    }
  }

  /** The heading of part `k` first occurs at `i`, and what follows it is
      the part's body and the rest of the layout. */
  predicate FoundAt(parts: seq<Part>, k: nat, i: nat)
    requires k < |parts|
  {
    && FirstAt(Layout(parts), Heading(parts[k].name), i)
    && Layout(parts)[i + |Heading(parts[k].name)|..] == After(parts, k)
  }

  /** Finding a later heading in the later parts finds it in the whole
      layout, shifted by the first part. */
  lemma FoundLater(parts: seq<Part>, k: nat, i': nat)
    requires 0 < k < |parts|
    ensures WellFormed(parts) && FoundAt(parts[1..], k - 1, i')
      ==> FoundAt(parts, k, |Heading(parts[0].name)| + |parts[0].body| + 1 + i')
  {
    assert parts[1..][k - 1] == parts[k];
    if WellFormed(parts) && FoundAt(parts[1..], k - 1, i') {
      LaterHeadingAt(parts, k, i');
      LaterAfter(parts, k, i');
    }
  }

  /** The first occurrence of a part's heading is its own. */
  lemma {:induction false} HeadingAt(parts: seq<Part>, k: nat) returns (i: nat)
    requires k < |parts|
    ensures WellFormed(parts) ==> FoundAt(parts, k, i)
  {
    if k == 0 {
      FirstHeadingAt(parts);
      i := 0;
    } else {
      RestWellFormed(parts);
      var i' := HeadingAt(parts[1..], k - 1);
      FoundLater(parts, k, i');
      i := |Heading(parts[0].name)| + |parts[0].body| + 1 + i';
    }
  }

  /** Where the heading of part `k` is found, as `indexOf` reports it. */
  lemma HeadingIndex(parts: seq<Part>, k: nat) returns (i: nat)
    requires k < |parts|
    ensures WellFormed(parts) ==> IndexOf(Layout(parts), Heading(parts[k].name), 0) == Some(i)
    ensures WellFormed(parts) ==>
      (i + |Heading(parts[k].name)| <= |Layout(parts)|
       && Layout(parts)[i + |Heading(parts[k].name)|..] == After(parts, k))
  {
    i := HeadingAt(parts, k);
    FirstIsIndexOf(Layout(parts), Heading(parts[k].name), i);
  }

  /** The text `\n## ` followed by the first `m` letters of a section
      name: what a reader looks for to find where that section starts. */
  predicate Announces(t: string, name: string, m: nat) {
    m <= |name| && t == "\n## " + name[..m]
  }

  lemma NextStartsWithTerminator(parts: seq<Part>, k: nat, t: string, m: nat)
    requires k + 1 < |parts| && Announces(t, parts[k + 1].name, m)
    ensures FirstAt("\n" + Layout(parts[k + 1..]), t, 0)
  {
    var l := Layout(parts[k + 1..]);
    var name := parts[k + 1].name;
    assert parts[k + 1..][0] == parts[k + 1];
    assert l == "## " + name + ("\n" + l[|Heading(name)|..]);
    assert ("\n" + l)[..|t|] == "\n## " + name[..m];
  }

  lemma SectionUpTo(text: string, header: string, t: string, i: nat, rest: string, j: nat)
    requires IndexOf(text, header, 0) == Some(i)
    requires text[i + |header|..] == rest
    requires IndexOf(rest, t, 0) == Some(j)
    ensures Section(text, header, Some(t)) == Some(rest[..j])
  {
  }

  lemma SectionToEnd(text: string, header: string, t: Option<string>, i: nat, rest: string)
    requires IndexOf(text, header, 0) == Some(i)
    requires text[i + |header|..] == rest
    requires t.Some? ==> IndexOf(rest, t.value, 0).None?
    ensures Section(text, header, t) == Some(rest)
  {
  }

  /** In what follows a heading that is not the last, the terminator
      first occurs right after the body. */
  lemma TerminatorAfterBody(parts: seq<Part>, k: nat, t: string, m: nat)
    requires k + 1 < |parts|
    requires Announces(t, parts[k + 1].name, m)
    ensures WellFormed(parts) ==> IndexOf(After(parts, k), t, 0) == Some(|parts[k].body|)
    ensures After(parts, k)[..|parts[k].body|] == parts[k].body
  {
    var b := parts[k].body;
    var next := "\n" + Layout(parts[k + 1..]);
    assert (b + next)[..|b|] == b;
    if WellFormed(parts) {
      NextStartsWithTerminator(parts, k, t, m);
      NotInPlainBefore(b, next, t);
      FirstAfter(b, next, t, 0);
      FirstIsIndexOf(b + next, t, |b|);
    }
  }

  /** In the body of the last part the terminator does not occur. */
  lemma NoTerminatorInLast(parts: seq<Part>, t: string)
    requires parts != []
    requires |t| >= 2 && t[1] == '#'
    ensures WellFormed(parts) ==> IndexOf(After(parts, |parts| - 1), t, 0).None?
  {
    if WellFormed(parts) {
      var b := parts[|parts| - 1].body;
      NotInPlainBefore(b, [], t);
      assert b + [] == b;
      NowhereIsIndexOf(b, t);
    }
  }

  lemma MiddleSectionOfLayout(parts: seq<Part>, k: nat, t: string, m: nat)
    requires k + 1 < |parts|
    requires Announces(t, parts[k + 1].name, m)
    ensures WellFormed(parts) ==> Section(Layout(parts), Heading(parts[k].name), Some(t)) == Some(parts[k].body)
  {
    var i := HeadingIndex(parts, k);
    TerminatorAfterBody(parts, k, t, m);
    if WellFormed(parts) {
      var text, header, rest := Layout(parts), Heading(parts[k].name), After(parts, k);
      assert IndexOf(text, header, 0) == Some(i) && text[i + |header|..] == rest;
      assert IndexOf(rest, t, 0) == Some(|parts[k].body|);
      SectionUpTo(text, header, t, i, rest, |parts[k].body|);
    }
  }

  lemma LastSectionUpTo(parts: seq<Part>, t: string)
    requires parts != []
    requires |t| >= 2 && t[1] == '#'
    ensures WellFormed(parts) ==> Section(Layout(parts), Heading(parts[|parts| - 1].name), Some(t)) == Some(parts[|parts| - 1].body)
  {
    var i := HeadingIndex(parts, |parts| - 1);
    NoTerminatorInLast(parts, t);
    if WellFormed(parts) {
      SectionToEnd(Layout(parts), Heading(parts[|parts| - 1].name), Some(t), i, After(parts, |parts| - 1));
    }
  }

  /** Cutting a section of the layout out, up to a terminator that
      announces the next section (a line break, `## ` and the start of its
      name) or, for the last section, any text whose second character is
      `#`, gives back the section's body. */
  lemma SectionOfLayout(parts: seq<Part>, k: nat, t: string, m: nat)
    requires WellFormed(parts) && k < |parts|
    requires |t| >= 2 && t[1] == '#'
    requires k + 1 < |parts| ==> Announces(t, parts[k + 1].name, m)
    ensures Section(Layout(parts), Heading(parts[k].name), Some(t)) == Some(parts[k].body)
  {
    if k + 1 == |parts| {
      LastSectionUpTo(parts, t);
    } else {
      MiddleSectionOfLayout(parts, k, t, m);
    }
  }

  /** The last section, read up to the end of the text, is its body. */
  lemma LastSectionOfLayout(parts: seq<Part>)
    requires WellFormed(parts) && parts != []
    ensures Section(Layout(parts), Heading(parts[|parts| - 1].name), None) == Some(parts[|parts| - 1].body)
  {
    var i := HeadingIndex(parts, |parts| - 1);
    SectionToEnd(Layout(parts), Heading(parts[|parts| - 1].name), None, i, After(parts, |parts| - 1));
  }
}
