/**
 * The deterministic text handling of the backend's insight helpers
 * (hackuta-backend/gemini_wrapper.py): the section parser for a structured model reply,
 * the line cleaner `_parse_to_list`, and the fallback formatters that build the
 * "Initial Insight" and "Follow-up Insight" texts when no model is available or the model
 * call fails. The model's reply and the environment's API keys are parameters.
 */
module GeminiWrapper {
  import opened Wrappers
  import opened Text

  // ----- parse_structured_response -----

  datatype Tag = Criticism | Strengths | Weaknesses | Suggestions

  function TagText(t: Tag): string {
    match t
    case Criticism => "CRITICISM:"
    case Strengths => "STRENGTHS:"
    case Weaknesses => "WEAKNESSES:"
    case Suggestions => "SUGGESTIONS:"
  }

  /** The four keys of the parse result. */
  datatype Sections = Sections(criticism: string, strengths: string, weaknesses: string, suggestions: string)

  const NoSections := Sections("", "", "", "")

  function FieldOf(r: Sections, t: Tag): string {
    match t
    case Criticism => r.criticism
    case Strengths => r.strengths
    case Weaknesses => r.weaknesses
    case Suggestions => r.suggestions
  }

  function WithField(r: Sections, t: Tag, v: string): (r': Sections)
    ensures FieldOf(r', t) == v
    ensures forall u :: u != t ==> FieldOf(r', u) == FieldOf(r, u)
  {
    match t
    case Criticism => r.(criticism := v)
    case Strengths => r.(strengths := v)
    case Weaknesses => r.(weaknesses := v)
    case Suggestions => r.(suggestions := v)
  }

  /** No text starts with two different tags. */
  lemma TagsExclusive(s: string, t: Tag, u: Tag)
    requires StartsWith(s, TagText(t)) && StartsWith(s, TagText(u))
    ensures t == u
  {
    assert s[0] == TagText(t)[0] && s[0] == TagText(u)[0];
    assert s[1] == TagText(t)[1] && s[1] == TagText(u)[1];
  }

  /** The tag a section starts with once stripped, tested in the source's order. */
  function TagOf(section: string): Option<Tag> {
    FirstTag(PyStrip(section))
  }

  /** The chain of `startswith` tests on the stripped section. */
  function FirstTag(s: string): Option<Tag> {
    if StartsWith(s, "CRITICISM:") then Some(Criticism)
    else if StartsWith(s, "STRENGTHS:") then Some(Strengths)
    else if StartsWith(s, "WEAKNESSES:") then Some(Weaknesses)
    else if StartsWith(s, "SUGGESTIONS:") then Some(Suggestions)
    else None
  }

  /** A section is tagged `t` exactly when it starts with `t`'s text once stripped: the order of the tests does not matter. */
  lemma TagOfTagged(section: string, t: Tag)
    ensures TagOf(section) == Some(t) <==> StartsWith(PyStrip(section), TagText(t))
  {
    FirstTagTagged(PyStrip(section), t);
  }

  lemma FirstTagTagged(s: string, t: Tag)
    ensures FirstTag(s) == Some(t) <==> StartsWith(s, TagText(t))
  {
    var r := FirstTag(s);
    if r.Some? {
      assert StartsWith(s, TagText(r.value));
      if StartsWith(s, TagText(t)) {
        TagsExclusive(s, t, r.value);
      }
    } else {
      assert !StartsWith(s, TagText(t)) by {
        assert t == Criticism || t == Strengths || t == Weaknesses || t == Suggestions;
      }
    }
  }

  /** The value a section tagged `t` sets: stripped, every occurrence of the tag deleted, stripped again. */
  function Extract(section: string, t: Tag): string {
    PyStrip(RemoveAll(PyStrip(section), TagText(t)))
  }

  /** One iteration of the loop over sections. */
  function Apply(r: Sections, section: string): Sections {
    match TagOf(section)
    case None => r
    case Some(t) => WithField(r, t, Extract(section, t))
  }

  lemma ApplyField(r: Sections, section: string, t: Tag)
    ensures FieldOf(Apply(r, section), t) == (if TagOf(section) == Some(t) then Extract(section, t) else FieldOf(r, t))
  {
  }

  /** The loop over all sections, in order. */
  function ApplyAll(r: Sections, sections: seq<string>): Sections
    decreases |sections|
  {
    if sections == [] then r else Apply(ApplyAll(r, sections[..|sections| - 1]), sections[|sections| - 1])
  }

  /** The sections of a reply: the pieces between blank lines. */
  function SectionsOf(response: string): seq<string> {
    Split(response, "\n\n")
  }

  /** What `parse_structured_response` returns. */
  function Parse(response: string): Sections {
    var r := ApplyAll(NoSections, SectionsOf(response));
    if r.criticism == "" then r.(criticism := response) else r
  }

  /** One iteration written out as the source's chain of tests. */
  lemma ApplyAsTests(r: Sections, section: string)
    ensures var s := PyStrip(section);
      Apply(r, section) ==
        if StartsWith(s, "CRITICISM:") then r.(criticism := PyStrip(RemoveAll(s, "CRITICISM:")))
        else if StartsWith(s, "STRENGTHS:") then r.(strengths := PyStrip(RemoveAll(s, "STRENGTHS:")))
        else if StartsWith(s, "WEAKNESSES:") then r.(weaknesses := PyStrip(RemoveAll(s, "WEAKNESSES:")))
        else if StartsWith(s, "SUGGESTIONS:") then r.(suggestions := PyStrip(RemoveAll(s, "SUGGESTIONS:")))
        else r
  {
  }

  /** `parse_structured_response(response)`. */
  method ParseStructuredResponse(response: string) returns (result: Sections)
    ensures result == Parse(response)
  {
    result := NoSections;
    var sections := Split(response, "\n\n");
    for i := 0 to |sections|
      invariant result == ApplyAll(NoSections, sections[..i])
    {
      assert sections[..i + 1][..i] == sections[..i];
      result := ApplySection(result, sections[i]);
    }
    assert sections[..|sections|] == sections;
    if result.criticism == "" {
      result := result.(criticism := response);
    }
  }

  /** The body of the loop over sections. */
  method ApplySection(prior: Sections, raw: string) returns (result: Sections)
    ensures result == Apply(prior, raw)
  {
    ApplyAsTests(prior, raw);
    result := prior;
    var section := PyStrip(raw);
    if StartsWith(section, "CRITICISM:") {
      result := result.(criticism := PyStrip(RemoveAll(section, "CRITICISM:")));
    } else if StartsWith(section, "STRENGTHS:") {
      result := result.(strengths := PyStrip(RemoveAll(section, "STRENGTHS:")));
    } else if StartsWith(section, "WEAKNESSES:") {
      result := result.(weaknesses := PyStrip(RemoveAll(section, "WEAKNESSES:")));
    } else if StartsWith(section, "SUGGESTIONS:") {
      result := result.(suggestions := PyStrip(RemoveAll(section, "SUGGESTIONS:")));
    }
  }

  /** `sections[j]` is tagged `t` and no later section is. */
  predicate LastTaggedAt(sections: seq<string>, t: Tag, j: int) {
    0 <= j < |sections| && TagOf(sections[j]) == Some(t) &&
    forall k :: j < k < |sections| ==> TagOf(sections[k]) != Some(t)
  }

  /** The last section leaves alone a field whose tag it does not carry. */
  lemma ApplyUntaggedStep(r: Sections, sections: seq<string>, t: Tag)
    requires sections != [] && TagOf(sections[|sections| - 1]) != Some(t)
    ensures FieldOf(ApplyAll(r, sections), t) == FieldOf(ApplyAll(r, sections[..|sections| - 1]), t)
  {
    var n := |sections| - 1;
    var prior := ApplyAll(r, sections[..n]);
    assert ApplyAll(r, sections) == Apply(prior, sections[n]);
    ApplyField(prior, sections[n], t);
  }

  lemma LastTaggedInit(sections: seq<string>, t: Tag, j: int)
    requires LastTaggedAt(sections, t, j) && j < |sections| - 1
    ensures LastTaggedAt(sections[..|sections| - 1], t, j)
  {
    var init := sections[..|sections| - 1];
    forall k | j < k < |init| ensures TagOf(init[k]) != Some(t) {
      assert init[k] == sections[k];
    }
  }

  /** A field no section tags keeps its starting value: untagged sections are ignored. */
  lemma {:induction false} ApplyAllUntagged(r: Sections, sections: seq<string>, t: Tag)
    requires forall i :: 0 <= i < |sections| ==> TagOf(sections[i]) != Some(t)
    ensures FieldOf(ApplyAll(r, sections), t) == FieldOf(r, t)
    decreases |sections|
  {
    if sections != [] {
      var init := sections[..|sections| - 1];
      forall i | 0 <= i < |init| ensures TagOf(init[i]) != Some(t) {
        assert init[i] == sections[i];
      }
      ApplyAllUntagged(r, init, t);
      ApplyUntaggedStep(r, sections, t);
    }
  }

  /** A tagged field holds the extract of the last section carrying its tag: later sections overwrite earlier ones. */
  lemma {:induction false} ApplyAllLast(r: Sections, sections: seq<string>, t: Tag, j: int)
    requires LastTaggedAt(sections, t, j)
    ensures FieldOf(ApplyAll(r, sections), t) == Extract(sections[j], t)
    decreases |sections|
  {
    var n := |sections| - 1;
    if j == n {
      var prior := ApplyAll(r, sections[..n]);
      assert ApplyAll(r, sections) == Apply(prior, sections[n]);
      ApplyField(prior, sections[n], t);
    } else {
      LastTaggedInit(sections, t, j);
      ApplyAllLast(r, sections[..n], t, j);
      assert sections[..n][j] == sections[j];
      ApplyUntaggedStep(r, sections, t);
    }
  }

  /**
   * The parsed value of a tag is the extract of the last section carrying it, except that an
   * empty criticism is replaced by the whole reply.
   */
  lemma ParseTagged(response: string, t: Tag, j: int)
    requires LastTaggedAt(SectionsOf(response), t, j)
    ensures var v := Extract(SectionsOf(response)[j], t);
      FieldOf(Parse(response), t) == (if t == Criticism && v == "" then response else v)
  {
    ApplyAllLast(NoSections, SectionsOf(response), t, j);
  }

  /** A tag no section carries parses to `''`, or for the criticism to the whole reply. */
  lemma ParseUntagged(response: string, t: Tag)
    requires forall i :: 0 <= i < |SectionsOf(response)| ==> TagOf(SectionsOf(response)[i]) != Some(t)
    ensures FieldOf(Parse(response), t) == (if t == Criticism then response else "")
  {
    ApplyAllUntagged(NoSections, SectionsOf(response), t);
  }

  /** The criticism is empty only for an empty reply. */
  lemma ParseCriticismEmpty(response: string)
    ensures Parse(response).criticism == "" <==> response == ""
  {
    if response == "" {
      assert Find(response, "\n\n").None?;
      assert SectionsOf(response) == [""];
      assert TagOf("") == None by {
        assert |PyStrip("")| == 0;
      }
      ParseUntagged(response, Criticism);
    } else {
      var r := ApplyAll(NoSections, SectionsOf(response));
      assert Parse(response) == if r.criticism == "" then r.(criticism := response) else r;
    }
  }

  // ----- _parse_to_list -----

  /** The characters `lstrip('- •*123456789.')` removes; `0` is not among them. */
  predicate IsBulletChar(c: char) {
    c == '-' || c == ' ' || c == '•' || c == '*' || ('1' <= c <= '9') || c == '.'
  }

  /** The list comprehension: each line stripped, the blank ones left out. */
  function NonBlankLines(lines: seq<string>): (r: seq<string>)
    ensures |r| <= |lines|
    decreases |lines|
  {
    if lines == [] then []
    else
      var s := PyStrip(lines[|lines| - 1]);
      NonBlankLines(lines[..|lines| - 1]) + (if s != "" then [s] else [])
  }

  /** One line of the cleaning loop: leading bullet characters removed, then stripped. */
  function Clean(line: string): string {
    PyStrip(LStrip(line, IsBulletChar))
  }

  /** Each line cleaned. */
  function CleanEach(lines: seq<string>): (r: seq<string>)
    ensures |r| == |lines|
  {
    seq(|lines|, i requires 0 <= i < |lines| => Clean(lines[i]))
  }

  /** The strings that are not empty, in order. */
  function NonEmptyOnly(xs: seq<string>): (r: seq<string>)
    ensures |r| <= |xs|
    decreases |xs|
  {
    if xs == [] then []
    else NonEmptyOnly(xs[..|xs| - 1]) + (if xs[|xs| - 1] != "" then [xs[|xs| - 1]] else [])
  }

  lemma NonEmptyOnlySnoc(xs: seq<string>, i: int)
    requires 0 <= i < |xs|
    ensures NonEmptyOnly(xs[..i + 1]) == NonEmptyOnly(xs[..i]) + (if xs[i] != "" then [xs[i]] else [])
  {
    assert xs[..i + 1][..i] == xs[..i];
  }

  /** What `_parse_to_list(text)` returns: the non-blank lines cleaned, the empty results left out. */
  function ParseToListOf(text: string): seq<string> {
    if text == "" then [] else NonEmptyOnly(CleanEach(NonBlankLines(Split(text, "\n"))))
  }

  /** `_parse_to_list(text)`. */
  method ParseToList(text: string) returns (cleaned: seq<string>)
    ensures cleaned == ParseToListOf(text)
  {
    if text == "" {
      return [];
    }
    var lines := NonBlankLines(Split(text, "\n"));
    ghost var all := CleanEach(lines);
    cleaned := [];
    for i := 0 to |lines|
      invariant cleaned == NonEmptyOnly(all[..i])
    {
      NonEmptyOnlySnoc(all, i);
      var line := Clean(lines[i]);
      if line != "" {
        cleaned := cleaned + [line];
      }
    }
    assert all[..|lines|] == all;
  }

  /** A string without a line break. */
  predicate OneLine(s: string) {
    forall i :: 0 <= i < |s| ==> s[i] != '\n'
  }

  lemma NoOccurrenceOneLine(s: string)
    requires forall j :: !OccursAt(s, "\n", j)
    ensures OneLine(s)
  {
    forall i | 0 <= i < |s| ensures s[i] != '\n' {
      assert !OccursAt(s, "\n", i);
      assert s[i..i + 1] == [s[i]];
    }
  }

  lemma OneLineSlice(s: string, lo: int, hi: int)
    requires OneLine(s) && 0 <= lo <= hi <= |s|
    ensures OneLine(s[lo..hi])
  {
    assert forall i :: 0 <= i < hi - lo ==> s[lo..hi][i] == s[lo + i];
  }

  lemma StripOneLine(s: string, drop: char -> bool)
    requires OneLine(s)
    ensures OneLine(LStrip(s, drop)) && OneLine(Strip(s, drop))
  {
    var l := LStrip(s, drop);
    OneLineSlice(s, |s| - |l|, |s|);
    assert l == s[|s| - |l|..|s|];
    var r := RStrip(l, drop);
    OneLineSlice(l, 0, |r|);
    assert r == l[0..|r|];
  }

  lemma {:induction false} NonBlankLinesShape(lines: seq<string>)
    requires AllOneLine(lines)
    ensures AllOneLine(NonBlankLines(lines))
    decreases |lines|
  {
    if lines != [] {
      var init := lines[..|lines| - 1];
      var line := lines[|lines| - 1];
      assert AllOneLine(init) by {
        forall k | 0 <= k < |init| ensures OneLine(init[k]) {
          assert init[k] == lines[k];
        }
      }
      NonBlankLinesShape(init);
      StripOneLine(line, IsPySpace);
      var c := PyStrip(line);
      var prior := NonBlankLines(init);
      var r := prior + (if c != "" then [c] else []);
      forall k | 0 <= k < |r| ensures OneLine(r[k]) {
        if k < |prior| {
          assert r[k] == prior[k];
        }
      }
    }
  }

  /** What `_parse_to_list` can return as an item: non-empty, stripped, a single line. */
  predicate IsItem(s: string) {
    s != "" && IsStripped(s, IsPySpace) && OneLine(s)
  }

  lemma PyStripItem(s: string)
    requires OneLine(s)
    ensures PyStrip(s) != "" ==> IsItem(PyStrip(s))
  {
    StripOneLine(s, IsPySpace);
    StripIsStripped(s, IsPySpace);
  }

  lemma CleanShape(line: string)
    requires OneLine(line)
    ensures Clean(line) != "" ==> IsItem(Clean(line))
  {
    var l := LStrip(line, IsBulletChar);
    StripOneLine(line, IsBulletChar);
    PyStripItem(l);
  }


  predicate AllOneLine(lines: seq<string>) {
    forall k :: 0 <= k < |lines| ==> OneLine(lines[k])
  }

  predicate AllItems(items: seq<string>) {
    forall k :: 0 <= k < |items| ==> IsItem(items[k])
  }

  lemma AllItemsAppend(a: seq<string>, b: seq<string>)
    requires AllItems(a) && AllItems(b)
    ensures AllItems(a + b)
  {
    forall k | 0 <= k < |a + b| ensures IsItem((a + b)[k]) {
      if k < |a| {
        assert (a + b)[k] == a[k];
      } else {
        assert (a + b)[k] == b[k - |a|];
      }
    }
  }

  lemma {:induction false} NonEmptyOnlyItems(xs: seq<string>)
    requires forall k :: 0 <= k < |xs| && xs[k] != "" ==> IsItem(xs[k])
    ensures AllItems(NonEmptyOnly(xs))
    decreases |xs|
  {
    if xs != [] {
      var init := xs[..|xs| - 1];
      assert forall k :: 0 <= k < |init| ==> init[k] == xs[k];
      NonEmptyOnlyItems(init);
      var last := xs[|xs| - 1];
      AllItemsAppend(NonEmptyOnly(init), if last != "" then [last] else []);
    }
  }

  lemma CleanEachShape(lines: seq<string>)
    requires AllOneLine(lines)
    ensures forall k :: 0 <= k < |lines| && CleanEach(lines)[k] != "" ==> IsItem(CleanEach(lines)[k])
  {
    forall k | 0 <= k < |lines| && CleanEach(lines)[k] != "" ensures IsItem(CleanEach(lines)[k]) {
      CleanShape(lines[k]);
    }
  }

  /**
   * Every item is non-empty, stripped and a single line, and there are no more items than
   * non-blank lines.
   */
  lemma ParseToListShape(text: string)
    ensures AllItems(ParseToListOf(text))
    ensures text != "" ==> |ParseToListOf(text)| <= |NonBlankLines(Split(text, "\n"))|
  {
    if text != "" {
      var parts := Split(text, "\n");
      forall k | 0 <= k < |parts| ensures OneLine(parts[k]) {
        NoOccurrenceOneLine(parts[k]);
      }
      NonBlankLinesShape(parts);
      CleanEachShape(NonBlankLines(parts));
      NonEmptyOnlyItems(CleanEach(NonBlankLines(parts)));
    }
  }

  /** `0` is not a bullet character: the line "10. Launch" cleans to "0. Launch". */
  lemma LStripOne(c: char, z: string, drop: char -> bool)
    requires drop(c) && z != [] && !drop(z[0])
    ensures LStrip([c] + z, drop) == z
  {
    assert ([c] + z)[1..] == z;
  }

  lemma CleanKeepsZero(s: string, z: string)
    requires s == "10. Launch" && z == "0. Launch"
    ensures Clean(s) == z
  {
    assert s == ['1'] + z;
    assert z[0] == '0' && z[|z| - 1] == 'h';
    LStripOne('1', z, IsBulletChar);
    StripStripped(z, IsPySpace);
  }

  // ----- the Initial Insight fallback -----

  /** The first `n` elements, or all when there are fewer (`xs[:n]`). */
  function Take<T>(xs: seq<T>, n: nat): (r: seq<T>)
    ensures |r| == (if |xs| <= n then |xs| else n)
    ensures r == xs[..|r|]
  {
    if |xs| <= n then xs else xs[..n]
  }

  /** `- item` lines. */
  function Bullets(items: seq<string>): (r: seq<string>)
    ensures |r| == |items|
  {
    seq(|items|, i requires 0 <= i < |items| => "- " + items[i])
  }

  /** `k. item` lines numbered consecutively from `start`. */
  function Numbered(items: seq<string>, start: nat): (r: seq<string>)
    ensures |r| == |items|
  {
    seq(|items|, i requires 0 <= i < |items| => NatToString(start + i) + ". " + items[i])
  }

  /** A titled block: the title, the item lines and, when `gap`, a blank line. */
  function Block(title: string, lines: seq<string>, gap: bool): seq<string> {
    [title] + lines + (if gap then [""] else [])
  }

  /** The lines the fallback writes, each followed by a line break, before the final strip. */
  function FallbackLines(acknowledgment: string, strengths: seq<string>, weaknesses: seq<string>, suggestions: seq<string>): seq<string> {
    ["Initial Insight: " + PyStrip(acknowledgment), ""] + FallbackBlocks(strengths, weaknesses, suggestions)
  }

  /** The blocks after the header: one per non-empty list. */
  function FallbackBlocks(strengths: seq<string>, weaknesses: seq<string>, suggestions: seq<string>): seq<string> {
    (if strengths != [] then Block("Strengths:", Bullets(Take(strengths, 3)), true) else [])
    + (if weaknesses != [] then Block("Weaknesses:", Bullets(Take(weaknesses, 3)), true) else [])
    + (if suggestions != [] then Block("Suggested Improvements:", Numbered(Take(suggestions, 5), 1), false) else [])
  }

  /** The lines, each followed by `\n`, concatenated. */
  function Terminated(lines: seq<string>): string
    decreases |lines|
  {
    if lines == [] then "" else Terminated(lines[..|lines| - 1]) + lines[|lines| - 1] + "\n"
  }

  lemma {:induction false} TerminatedAppend(a: seq<string>, b: seq<string>)
    ensures Terminated(a + b) == Terminated(a) + Terminated(b)
    decreases |b|
  {
    if b == [] {
      assert a + b == a;
    } else {
      var init, last := b[..|b| - 1], b[|b| - 1];
      TerminatedAppend(a, init);
      var ab := a + b;
      assert ab[..|ab| - 1] == a + init && ab[|ab| - 1] == last;
      assert Terminated(ab) == Terminated(a + init) + last + "\n";
      assert Terminated(b) == Terminated(init) + last + "\n";
      ConcatAssoc(Terminated(a), Terminated(init), last, "\n");
    }
  }

  /** The fallback Initial Insight text for the parsed lists. */
  function InitialFallback(acknowledgment: string, strengths: seq<string>, weaknesses: seq<string>, suggestions: seq<string>): string {
    PyStrip(Terminated(FallbackLines(acknowledgment, strengths, weaknesses, suggestions)))
  }

  lemma TerminatedSnoc(lines: seq<string>, line: string)
    ensures Terminated(lines + [line]) == Terminated(lines) + line + "\n"
  {
    assert (lines + [line])[..|lines|] == lines;
  }

  lemma TerminatedHeader(head: string)
    ensures Terminated([head, ""]) == head + "\n\n"
  {
    var none: seq<string> := [];
    TerminatedSnoc(none, head);
    assert none + [head] == [head];
    TerminatedSnoc([head], "");
    assert [head] + [""] == [head, ""];
  }

  /** The `result +=` steps of the fallback: header, then each non-empty block. */
  method FormatInitialFallback(acknowledgment: string, strengths: seq<string>, weaknesses: seq<string>, suggestions: seq<string>)
    returns (text: string)
    ensures text == InitialFallback(acknowledgment, strengths, weaknesses, suggestions)
  {
    var header := ["Initial Insight: " + PyStrip(acknowledgment), ""];
    var strengthBlock := if strengths != [] then Block("Strengths:", Bullets(Take(strengths, 3)), true) else [];
    var weaknessBlock := if weaknesses != [] then Block("Weaknesses:", Bullets(Take(weaknesses, 3)), true) else [];
    var suggestionBlock := if suggestions != [] then Block("Suggested Improvements:", Numbered(Take(suggestions, 5), 1), false) else [];
    var result := "Initial Insight: " + PyStrip(acknowledgment) + "\n\n";
    TerminatedHeader("Initial Insight: " + PyStrip(acknowledgment));
    TerminatedAppend(header, strengthBlock);
    TerminatedAppend(header + strengthBlock, weaknessBlock);
    TerminatedAppend(header + strengthBlock + weaknessBlock, suggestionBlock);
    if strengths != [] {
      result := AppendBlock(result, "Strengths:", Bullets(Take(strengths, 3)), true);
    }
    assert result == Terminated(header + strengthBlock);
    if weaknesses != [] {
      result := AppendBlock(result, "Weaknesses:", Bullets(Take(weaknesses, 3)), true);
    }
    assert result == Terminated(header + strengthBlock + weaknessBlock);
    if suggestions != [] {
      result := AppendBlock(result, "Suggested Improvements:", Numbered(Take(suggestions, 5), 1), false);
    }
    assert result == Terminated(header + strengthBlock + weaknessBlock + suggestionBlock);
    assert strengthBlock + weaknessBlock + suggestionBlock == FallbackBlocks(strengths, weaknesses, suggestions);
    ConcatAssoc(header, strengthBlock, weaknessBlock, suggestionBlock);
    text := PyStrip(result);
  }

  lemma ConcatAssoc<T>(h: seq<T>, a: seq<T>, b: seq<T>, c: seq<T>)
    ensures h + a + b + c == h + (a + b + c)
  {
  }

  /** One block: the title line, a `for` loop writing the item lines, and the optional blank line. */
  method AppendBlock(result: string, title: string, lines: seq<string>, gap: bool) returns (r: string)
    ensures r == result + Terminated(Block(title, lines, gap))
  {
    var none: seq<string> := [];
    TerminatedSnoc(none, title);
    assert none + [title] == [title] + lines[..0];
    r := result + title + "\n";
    for i := 0 to |lines|
      invariant r == result + Terminated([title] + lines[..i])
    {
      TerminatedSnoc([title] + lines[..i], lines[i]);
      assert [title] + lines[..i + 1] == ([title] + lines[..i]) + [lines[i]];
      r := r + lines[i] + "\n";
    }
    assert lines[..|lines|] == lines;
    if gap {
      TerminatedSnoc([title] + lines, "");
      r := r + "\n";
    } else {
      assert Block(title, lines, gap) == [title] + lines;
    }
  }

  /** Stripping leaves alone everything up to a character that is not whitespace. */
  lemma RStripStartsSolid(t: string)
    requires t != [] && !IsPySpace(t[0])
    ensures RStrip(t, IsPySpace) != [] && RStrip(t, IsPySpace)[0] == t[0]
  {
  }

  lemma PyStripSolidStart(s: string)
    requires s != [] && !IsPySpace(s[0])
    ensures PyStrip(s) == RStrip(s, IsPySpace)
  {
    LStripKeeps(s, IsPySpace);
  }

  lemma StripKeepsPrefixUpTo(p: string, b: string, j: nat)
    requires p != [] && !IsPySpace(p[0])
    requires j < |b| && !IsPySpace(b[j])
    ensures StartsWith(PyStrip(p + b), p + b[..j + 1])
  {
    var s := p + b;
    var q := p + b[..j];
    var t := b[j..];
    assert s == q + t;
    PyStripSolidStart(s);
    RStripKeepsPrefix(q, t, 0, IsPySpace);
    RStripStartsSolid(t);
    var tail := RStrip(t, IsPySpace);
    assert PyStrip(s) == q + tail;
    assert (q + tail)[..|q| + 1] == q + [b[j]];
    assert q + [b[j]] == p + b[..j + 1];
  }

  /** The written text is the header line, a blank line, then the blocks. */
  lemma FallbackRaw(acknowledgment: string, strengths: seq<string>, weaknesses: seq<string>, suggestions: seq<string>)
    ensures var lines := FallbackLines(acknowledgment, strengths, weaknesses, suggestions);
      Terminated(lines) == "Initial Insight: " + PyStrip(acknowledgment) + "\n\n" + Terminated(lines[2..]) &&
      (lines[2..] == [] <==> strengths == [] && weaknesses == [] && suggestions == []) &&
      (lines[2..] != [] ==> StartsSolid(lines[2..][0]))
  {
    var lines := FallbackLines(acknowledgment, strengths, weaknesses, suggestions);
    var head := "Initial Insight: " + PyStrip(acknowledgment);
    var blocks := FallbackBlocks(strengths, weaknesses, suggestions);
    assert lines[2..] == blocks;
    assert lines == [head, ""] + blocks;
    TerminatedAppend([head, ""], blocks);
    TerminatedHeader(head);
    FallbackBlocksShape(strengths, weaknesses, suggestions);
  }

  lemma FallbackBlocksShape(strengths: seq<string>, weaknesses: seq<string>, suggestions: seq<string>)
    ensures var blocks := FallbackBlocks(strengths, weaknesses, suggestions);
      (blocks == [] <==> strengths == [] && weaknesses == [] && suggestions == []) &&
      (blocks != [] ==> StartsSolid(blocks[0]))
  {
  }

  /** A non-empty stripped acknowledgment survives the final strip. */
  lemma HeaderKeepsAcknowledgment(p: string, a: string, tail: string)
    requires p != [] && !IsPySpace(p[0])
    requires a != [] && !IsPySpace(a[|a| - 1])
    ensures StartsWith(PyStrip(p + a + tail), p + a)
  {
    var q := p + a[..|a| - 1];
    var b := [a[|a| - 1]] + tail;
    assert p + a + tail == q + b;
    StripKeepsPrefixUpTo(q, b, 0);
    assert q + b[..1] == p + a;
  }

  /** With an empty acknowledgment, the first block keeps the header's trailing space. */
  lemma HeaderBeforeBlock(p: string, t: string)
    requires StartsSolid(p) && StartsSolid(t)
    ensures StartsWith(PyStrip(p + "\n\n" + t), p)
  {
    var b := "\n\n" + t;
    assert p + "\n\n" + t == p + b;
    StripKeepsPrefixUpTo(p, b, 2);
    assert (p + b[..3])[..|p|] == p;
  }

  lemma EmptyHeader()
    ensures PyStrip("Initial Insight: \n\n") == "Initial Insight:"
  {
    var raw := "Initial Insight: \n\n";
    var r1 := "Initial Insight: \n";
    var r2 := "Initial Insight: ";
    var r3 := "Initial Insight:";
    assert raw[..|raw| - 1] == r1;
    assert r1[..|r1| - 1] == r2;
    assert r2[..|r2| - 1] == r3;
    assert RStrip(raw, IsPySpace) == r3;
    LStripKeeps(raw, IsPySpace);
  }

  /** A line that starts with a character stripping does not remove. */
  predicate StartsSolid(line: string) {
    line != [] && !IsPySpace(line[0])
  }

  lemma TerminatedStartsSolid(rest: seq<string>)
    requires rest != [] && StartsSolid(rest[0])
    ensures StartsSolid(Terminated(rest))
  {
    var head := rest[0];
    assert rest == [head] + rest[1..];
    TerminatedAppend([head], rest[1..]);
    TerminatedSnoc([], head);
    assert [] + [head] == [head];
    assert Terminated([head]) == head + "\n";
  }

  lemma HeaderBlockCase(p: string, rest: seq<string>)
    requires StartsSolid(p)
    requires rest != [] && StartsSolid(rest[0])
    ensures StartsWith(PyStrip(p + "\n\n" + Terminated(rest)), p)
  {
    TerminatedStartsSolid(rest);
    HeaderBeforeBlock(p, Terminated(rest));
  }

  /** The header survives the final strip unless there is nothing after it. */
  lemma HeaderCases(p: string, a: string, rest: seq<string>)
    requires StartsSolid(p)
    requires IsStripped(a, IsPySpace)
    requires rest != [] ==> StartsSolid(rest[0])
    requires a != "" || rest != []
    ensures StartsWith(PyStrip(p + a + "\n\n" + Terminated(rest)), p + a)
  {
    if a != "" {
      var tail := "\n\n" + Terminated(rest);
      assert p + a + "\n\n" + Terminated(rest) == p + a + tail;
      HeaderKeepsAcknowledgment(p, a, tail);
    } else {
      assert p + a == p;
      HeaderBlockCase(p, rest);
    }
  }

  lemma HeaderOfText(a: string, rest: seq<string>)
    requires IsStripped(a, IsPySpace)
    requires rest != [] ==> StartsSolid(rest[0])
    ensures var text := PyStrip("Initial Insight: " + a + "\n\n" + Terminated(rest));
      if a == "" && rest == [] then text == "Initial Insight:" else StartsWith(text, "Initial Insight: " + a)
  {
    var p := "Initial Insight: ";
    if a == "" && rest == [] {
      assert p + a + "\n\n" + Terminated(rest) == "Initial Insight: \n\n";
      EmptyHeader();
    } else {
      assert StartsSolid(p);
      HeaderCases(p, a, rest);
    }
  }

  /**
   * The fallback text begins with `Initial Insight: ` and the stripped acknowledgment; only
   * when both the acknowledgment and all three lists are empty is it just `Initial Insight:`.
   */
  lemma InitialFallbackHeader(acknowledgment: string, strengths: seq<string>, weaknesses: seq<string>, suggestions: seq<string>)
    ensures var text := InitialFallback(acknowledgment, strengths, weaknesses, suggestions);
      if PyStrip(acknowledgment) == "" && strengths == [] && weaknesses == [] && suggestions == []
      then text == "Initial Insight:"
      else StartsWith(text, "Initial Insight: " + PyStrip(acknowledgment))
  {
    var lines := FallbackLines(acknowledgment, strengths, weaknesses, suggestions);
    var a, rest := PyStrip(acknowledgment), lines[2..];
    FallbackRaw(acknowledgment, strengths, weaknesses, suggestions);
    assert InitialFallback(acknowledgment, strengths, weaknesses, suggestions) ==
      PyStrip("Initial Insight: " + a + "\n\n" + Terminated(rest));
    assert (a == "" && rest == []) <==>
      (PyStrip(acknowledgment) == "" && strengths == [] && weaknesses == [] && suggestions == []);
    StripIsStripped(acknowledgment, IsPySpace);
    HeaderOfText(a, rest);
  }

  /**
   * The fallback writes at most 3 strengths, at most 3 weaknesses and at most 5 suggestions,
   * and a block exactly when its list is non-empty.
   */
  lemma FallbackLineCount(acknowledgment: string, strengths: seq<string>, weaknesses: seq<string>, suggestions: seq<string>)
    ensures |FallbackLines(acknowledgment, strengths, weaknesses, suggestions)| ==
      2 + (if strengths == [] then 0 else 2 + Min(|strengths|, 3))
        + (if weaknesses == [] then 0 else 2 + Min(|weaknesses|, 3))
        + (if suggestions == [] then 0 else 1 + Min(|suggestions|, 5))
  {
  }

  function Min(a: int, b: int): int {
    if a <= b then a else b
  }

  /** The suggestion lines are numbered 1, 2, ... in list order. */
  lemma NumberedFromOne(items: seq<string>, k: nat)
    requires k < |Take(items, 5)|
    ensures Numbered(Take(items, 5), 1)[k] == NatToString(k + 1) + ". " + items[k]
    ensures DecimalValue(NatToString(k + 1)) == k + 1
  {
    NatToStringRoundTrip(k + 1);
  }

  // ----- the entry points -----

  /** Python truthiness of an optional string: present and non-empty. */
  predicate Truthy(s: Option<string>) {
    s.Some? && s.value != ""
  }

  /** `api_key or os.getenv("GOOGLE_API_KEY") or os.getenv("GEMINI_API_KEY")`. */
  function ResolveKey(apiKey: Option<string>, googleKey: Option<string>, geminiKey: Option<string>): (key: Option<string>)
    ensures Truthy(key) <==> Truthy(apiKey) || Truthy(googleKey) || Truthy(geminiKey)
    ensures Truthy(apiKey) ==> key == apiKey
    ensures !Truthy(apiKey) && Truthy(googleKey) ==> key == googleKey
  {
    if Truthy(apiKey) then apiKey else if Truthy(googleKey) then googleKey else geminiKey
  }

  /**
   * `generate_initial_insight_text`. `reply` is what the model chain returns, `None` when the
   * call raises. Without a key, and when the call raises, the text is the same fallback.
   */
  method GenerateInitialInsightText(
    acknowledgment: string, strengths: string, weaknesses: string, suggestions: string,
    apiKey: Option<string>, googleKey: Option<string>, geminiKey: Option<string>, reply: Option<string>)
    returns (text: string)
    ensures !Truthy(ResolveKey(apiKey, googleKey, geminiKey)) || reply.None? ==>
      text == InitialFallback(acknowledgment, ParseToListOf(strengths), ParseToListOf(weaknesses), ParseToListOf(suggestions))
    ensures Truthy(ResolveKey(apiKey, googleKey, geminiKey)) && reply.Some? ==> text == PyStrip(reply.value)
  {
    var key := ResolveKey(apiKey, googleKey, geminiKey);
    var strengthList := ParseToList(strengths);
    var weaknessList := ParseToList(weaknesses);
    var suggestionList := ParseToList(suggestions);
    if !Truthy(key) || reply.None? {
      text := FormatInitialFallback(acknowledgment, strengthList, weaknessList, suggestionList);
    } else {
      text := PyStrip(reply.value);
    }
  }

  // ----- the Follow-up Insight fallback -----

  /** A Python number argument: an `int`, or a `float` given by its `repr`. */
  datatype PyNumber = PyInt(i: int) | PyFloat(repr: string)

  /** `str(x)` in an f-string for `float | int | None`. */
  function Show(x: Option<PyNumber>): string {
    match x
    case None => "None"
    case Some(PyInt(i)) => IntToString(i)
    case Some(PyFloat(repr)) => repr
  }

  /** A list argument is truthy: present and non-empty. */
  predicate NonEmpty(xs: Option<seq<string>>) {
    xs.Some? && xs.value != []
  }

  /** The performance line without the quality part. */
  function PerformancePrefix(resonance: Option<PyNumber>, engagement: Option<PyNumber>, hostility: Option<PyNumber>, controversy: Option<PyNumber>): string {
    "Performance — R:" + Show(resonance) + " E:" + Show(engagement) + " H:" + Show(hostility) + " C:" + Show(controversy)
  }

  /** The `summary` list of the fallback. */
  function FollowUpLines(
    resonance: Option<PyNumber>, engagement: Option<PyNumber>, hostility: Option<PyNumber>, controversy: Option<PyNumber>,
    totalQuality: Option<PyNumber>, themes: Option<seq<string>>, risks: Option<string>, nextActions: Option<seq<string>>): seq<string>
  {
    ["Follow-up Insight:",
     PerformancePrefix(resonance, engagement, hostility, controversy) + (if totalQuality.Some? then " Q:" + Show(totalQuality) else "")]
    + (if NonEmpty(themes) then ["Themes: " + Join(Take(themes.value, 2), ", ")] else [])
    + (if Truthy(risks) then ["Risk: " + risks.value] else [])
    + (if NonEmpty(nextActions) then ["Next: " + Join(Take(nextActions.value, 2), "; ")] else [])
  }

  /** The fallback text: the `summary` list built by appends, joined with line breaks. */
  method FormatFollowUpFallback(
    resonance: Option<PyNumber>, engagement: Option<PyNumber>, hostility: Option<PyNumber>, controversy: Option<PyNumber>,
    totalQuality: Option<PyNumber>, themes: Option<seq<string>>, risks: Option<string>, nextActions: Option<seq<string>>)
    returns (text: string)
    ensures text == Join(FollowUpLines(resonance, engagement, hostility, controversy, totalQuality, themes, risks, nextActions), "\n")
  {
    var performance := PerformancePrefix(resonance, engagement, hostility, controversy);
    if totalQuality.Some? {
      performance := performance + (" Q:" + Show(totalQuality));
    } else {
      assert performance + "" == performance;
    }
    var summary := ["Follow-up Insight:", performance];
    var themeLine := if NonEmpty(themes) then ["Themes: " + Join(Take(themes.value, 2), ", ")] else [];
    var riskLine := if Truthy(risks) then ["Risk: " + risks.value] else [];
    var nextLine := if NonEmpty(nextActions) then ["Next: " + Join(Take(nextActions.value, 2), "; ")] else [];
    if themes.Some? && themes.value != [] {
      summary := summary + ["Themes: " + Join(Take(themes.value, 2), ", ")];
    }
    assert summary == ["Follow-up Insight:", performance] + themeLine;
    if risks.Some? && risks.value != "" {
      summary := summary + ["Risk: " + risks.value];
    }
    assert summary == ["Follow-up Insight:", performance] + themeLine + riskLine;
    if nextActions.Some? && nextActions.value != [] {
      summary := summary + ["Next: " + Join(Take(nextActions.value, 2), "; ")];
    }
    assert summary == ["Follow-up Insight:", performance] + themeLine + riskLine + nextLine;
    assert summary == FollowUpLines(resonance, engagement, hostility, controversy, totalQuality, themes, risks, nextActions);
    text := Join(summary, "\n");
  }

  /**
   * The fallback has the header line, the performance line (with ` Q:` and the total quality
   * exactly when one is given), then one line per truthy optional argument in the order themes,
   * risk, next actions, with at most two themes and two next actions.
   */
  lemma FollowUpLinesShape(
    resonance: Option<PyNumber>, engagement: Option<PyNumber>, hostility: Option<PyNumber>, controversy: Option<PyNumber>,
    totalQuality: Option<PyNumber>, themes: Option<seq<string>>, risks: Option<string>, nextActions: Option<seq<string>>)
    ensures var lines := FollowUpLines(resonance, engagement, hostility, controversy, totalQuality, themes, risks, nextActions);
      var prefix := PerformancePrefix(resonance, engagement, hostility, controversy);
      |lines| == 2 + (if NonEmpty(themes) then 1 else 0) + (if Truthy(risks) then 1 else 0) + (if NonEmpty(nextActions) then 1 else 0) &&
      lines[0] == "Follow-up Insight:" &&
      StartsWith(lines[1], prefix) && (totalQuality.Some? <==> |lines[1]| > |prefix|) &&
      (totalQuality.Some? ==> lines[1] == prefix + " Q:" + Show(totalQuality)) &&
      (NonEmpty(themes) ==> lines[2] == "Themes: " + Join(Take(themes.value, 2), ", ") && |Take(themes.value, 2)| <= 2) &&
      (Truthy(risks) ==> lines[2 + (if NonEmpty(themes) then 1 else 0)] == "Risk: " + risks.value) &&
      (NonEmpty(nextActions) ==> lines[|lines| - 1] == "Next: " + Join(Take(nextActions.value, 2), "; ") && |Take(nextActions.value, 2)| <= 2)
  {
    var prefix := PerformancePrefix(resonance, engagement, hostility, controversy);
    var lines := FollowUpLines(resonance, engagement, hostility, controversy, totalQuality, themes, risks, nextActions);
    assert lines[1][..|prefix|] == prefix;
  }

  /** The text starts with the header line and the performance figures. */
  lemma FollowUpTextStart(
    resonance: Option<PyNumber>, engagement: Option<PyNumber>, hostility: Option<PyNumber>, controversy: Option<PyNumber>,
    totalQuality: Option<PyNumber>, themes: Option<seq<string>>, risks: Option<string>, nextActions: Option<seq<string>>)
    ensures StartsWith(Join(FollowUpLines(resonance, engagement, hostility, controversy, totalQuality, themes, risks, nextActions), "\n"),
      "Follow-up Insight:\n" + PerformancePrefix(resonance, engagement, hostility, controversy))
  {
    var lines := FollowUpLines(resonance, engagement, hostility, controversy, totalQuality, themes, risks, nextActions);
    var prefix := PerformancePrefix(resonance, engagement, hostility, controversy);
    assert lines[1][..|prefix|] == prefix;
    HeaderJoin(lines, prefix);
  }

  lemma HeaderJoin(lines: seq<string>, prefix: string)
    requires |lines| >= 2 && lines[0] == "Follow-up Insight:" && StartsWith(lines[1], prefix)
    ensures StartsWith(Join(lines, "\n"), "Follow-up Insight:\n" + prefix)
  {
    JoinStart(lines, "\n", prefix);
    assert "Follow-up Insight:" + "\n" == "Follow-up Insight:\n";
  }

  /** Joining keeps the first line and the start of the second in front. */
  lemma JoinStart(lines: seq<string>, sep: string, prefix: string)
    requires |lines| >= 2 && StartsWith(lines[1], prefix)
    ensures StartsWith(Join(lines, sep), lines[0] + sep + prefix)
  {
    var tail := Join(lines[1..], sep);
    assert Join(lines, sep) == lines[0] + sep + tail;
    assert StartsWith(tail, prefix) by {
      if |lines[1..]| == 1 {
        assert tail == lines[1];
      } else {
        assert tail == lines[1] + sep + Join(lines[2..], sep);
      }
      assert tail[..|prefix|] == lines[1][..|prefix|];
    }
    assert (lines[0] + sep + tail)[..|lines[0] + sep + prefix|] == lines[0] + sep + tail[..|prefix|];
  }

  /** When no argument holds a line break, splitting the text on line breaks gives back exactly the lines. */
  lemma FollowUpRoundTrip(
    resonance: Option<PyNumber>, engagement: Option<PyNumber>, hostility: Option<PyNumber>, controversy: Option<PyNumber>,
    totalQuality: Option<PyNumber>, themes: Option<seq<string>>, risks: Option<string>, nextActions: Option<seq<string>>)
    requires var lines := FollowUpLines(resonance, engagement, hostility, controversy, totalQuality, themes, risks, nextActions);
      forall k :: 0 <= k < |lines| ==> '\n' !in lines[k]
    ensures var lines := FollowUpLines(resonance, engagement, hostility, controversy, totalQuality, themes, risks, nextActions);
      Split(Join(lines, "\n"), "\n") == lines
  {
    var lines := FollowUpLines(resonance, engagement, hostility, controversy, totalQuality, themes, risks, nextActions);
    SplitJoin(lines, '\n');
  }

  /**
   * `generate_follow_up_insight_text`. `reply` is what the model chain returns, `None` when the
   * call raises; without a key, and when the call raises, the text is the same fallback.
   */
  method GenerateFollowUpInsightText(
    resonance: Option<PyNumber>, engagement: Option<PyNumber>, hostility: Option<PyNumber>, controversy: Option<PyNumber>,
    totalQuality: Option<PyNumber>, themes: Option<seq<string>>, risks: Option<string>, nextActions: Option<seq<string>>,
    apiKey: Option<string>, googleKey: Option<string>, geminiKey: Option<string>, reply: Option<string>)
    returns (text: string)
    ensures !Truthy(ResolveKey(apiKey, googleKey, geminiKey)) || reply.None? ==>
      text == Join(FollowUpLines(resonance, engagement, hostility, controversy, totalQuality, themes, risks, nextActions), "\n")
    ensures Truthy(ResolveKey(apiKey, googleKey, geminiKey)) && reply.Some? ==> text == PyStrip(reply.value)
  {
    var key := ResolveKey(apiKey, googleKey, geminiKey);
    if !Truthy(key) || reply.None? {
      text := FormatFollowUpFallback(resonance, engagement, hostility, controversy, totalQuality, themes, risks, nextActions);
    } else {
      text := PyStrip(reply.value);
    }
  }
}
