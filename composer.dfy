/** `PromptService.generate_markdown` (services.py:148-172): the markdown text
    of a prompt, composed from a template's sections and the user's entries. */
module Composer {
  import opened Wrappers
  import opened Text

  /** A row of `template_sections` (database.py:21-30). `placeholder` is the
      nullable `content` column; `parentId` is stored but never read here. */
  datatype Section = Section(
    id: int,
    templateId: int,
    level: int,
    title: string,
    placeholder: Option<string>,
    orderIndex: int,
    parentId: Option<int>)

  /** One entry of the user's contents: a section id and its text (models.py:45-47). */
  datatype ContentEntry = ContentEntry(sectionId: int, content: string)

  // ---------------------------------------------------------------------------
  // sorted(template.sections, key=lambda x: x.order_index)
  // ---------------------------------------------------------------------------

  predicate SortedByOrder(s: seq<Section>) {
    forall i, j :: 0 <= i < j < |s| ==> s[i].orderIndex <= s[j].orderIndex
  }

  /** The subsequence of `s` whose order index is `k`, in the order of `s`. */
  function WithOrder(s: seq<Section>, k: int): seq<Section>
  {
    if s == [] then []
    else (if s[0].orderIndex == k then [s[0]] else []) + WithOrder(s[1..], k)
  }

  /** The first section of an ordered sequence leads its order index's
      subsequence, and no section has a smaller index. */
  lemma {:induction false} WithOrderHead(s: seq<Section>, k: int)
    requires SortedByOrder(s) && s != []
    ensures k == s[0].orderIndex ==> WithOrder(s, k) == [s[0]] + WithOrder(s[1..], k)
    ensures k < s[0].orderIndex ==> WithOrder(s, k) == []
  {
    if k < s[0].orderIndex && |s| > 1 {
      WithOrderHead(s[1..], k);
    }
  }

  /** Prepending one section extends exactly its own order index's subsequence. */
  lemma WithOrderCons(x: Section, s: seq<Section>, k: int)
    ensures WithOrder([x] + s, k) == (if x.orderIndex == k then [x] else []) + WithOrder(s, k)
  {
    assert ([x] + s)[1..] == s;
  }

  /** A section no later than the head of an ordered sequence can lead it. */
  lemma SortedCons(x: Section, s: seq<Section>)
    requires SortedByOrder(s) && (s == [] || x.orderIndex <= s[0].orderIndex)
    ensures SortedByOrder([x] + s)
  {
  }

  /** Inserts `x` in front of the first element whose order index is not
      smaller: elements with an equal index stay behind it. */
  function InsertByOrder(x: Section, t: seq<Section>): (r: seq<Section>)
    requires SortedByOrder(t)
    ensures SortedByOrder(r)
    ensures multiset(r) == multiset(t) + multiset{x}
    ensures |r| == |t| + 1 && (r[0] == x || (t != [] && r[0] == t[0]))
  {
    if t == [] || x.orderIndex <= t[0].orderIndex then
      SortedCons(x, t);
      [x] + t
    else
      var rest := InsertByOrder(x, t[1..]);
      assert t == [t[0]] + t[1..];
      SortedCons(t[0], rest);
      [t[0]] + rest
  }

  /** Inserting `x` puts it in front of the sections of `t` that share its order index. */
  lemma {:induction false} InsertByOrderGroups(x: Section, t: seq<Section>, k: int)
    requires SortedByOrder(t)
    ensures WithOrder(InsertByOrder(x, t), k) == (if x.orderIndex == k then [x] else []) + WithOrder(t, k)
  {
    if t == [] || x.orderIndex <= t[0].orderIndex {
      WithOrderCons(x, t, k);
    } else {
      var rest := InsertByOrder(x, t[1..]);
      assert InsertByOrder(x, t) == [t[0]] + rest;
      assert t == [t[0]] + t[1..];
      InsertByOrderGroups(x, t[1..], k);
      InsertBehindHead(x, t[0], rest, t[1..], k);
    }
  }

  /** When `x` comes later than `head`, putting `head` in front of a list in
      which `x` leads its group leaves `x` leading it. */
  lemma InsertBehindHead(x: Section, head: Section, rest: seq<Section>, tail: seq<Section>, k: int)
    requires head.orderIndex < x.orderIndex
    requires WithOrder(rest, k) == (if x.orderIndex == k then [x] else []) + WithOrder(tail, k)
    ensures WithOrder([head] + rest, k) == (if x.orderIndex == k then [x] else []) + WithOrder([head] + tail, k)
  {
    WithOrderCons(head, rest, k);
    WithOrderCons(head, tail, k);
  }

  /** Python's `sorted` by order index: the result is ordered and holds the
      same sections (`SortByOrderStable` adds that it is a stable sort). */
  function SortByOrder(s: seq<Section>): (r: seq<Section>)
    ensures SortedByOrder(r)
    ensures multiset(r) == multiset(s)
  {
    if s == [] then []
    else
      assert s == [s[0]] + s[1..];
      InsertByOrder(s[0], SortByOrder(s[1..]))
  }

  /** Sections sharing an order index keep the relative order they had in the input. */
  lemma {:induction false} SortByOrderStable(s: seq<Section>, k: int)
    ensures WithOrder(SortByOrder(s), k) == WithOrder(s, k)
  {
    if s != [] {
      SortByOrderStable(s[1..], k);
      InsertByOrderGroups(s[0], SortByOrder(s[1..]), k);
      WithOrderCons(s[0], s[1..], k);
      assert s == [s[0]] + s[1..];
    }
  }

  /** Two ordered sequences that agree on every order index's subsequence are equal. */
  lemma {:induction false} SortedGroupsDetermine(a: seq<Section>, b: seq<Section>)
    requires SortedByOrder(a) && SortedByOrder(b)
    requires forall k :: WithOrder(a, k) == WithOrder(b, k)
    ensures a == b
    decreases |a|
  {
    if a == [] {
    } else if b == [] {
      WithOrderHead(a, a[0].orderIndex);
    } else {
      var ka, kb := a[0].orderIndex, b[0].orderIndex;
      WithOrderHead(a, ka);
      WithOrderHead(b, ka);
      WithOrderHead(a, kb);
      WithOrderHead(b, kb);
      assert ka == kb;
      assert a[0] == b[0];
      forall k ensures WithOrder(a[1..], k) == WithOrder(b[1..], k) {
        WithOrderCons(a[0], a[1..], k);
        WithOrderCons(b[0], b[1..], k);
        assert a == [a[0]] + a[1..] && b == [b[0]] + b[1..];
        var head := if a[0].orderIndex == k then [a[0]] else [];
        assert WithOrder(a[1..], k) == WithOrder(a, k)[|head|..];
      }
      SortedGroupsDetermine(a[1..], b[1..]);
    }
  }

  /** `SortByOrder` is THE stable sort: any ordering of `s` by order index that
      keeps equal-index sections in input order is `SortByOrder(s)`. */
  lemma StableSortUnique(s: seq<Section>, t: seq<Section>)
    requires SortedByOrder(t)
    requires forall k :: WithOrder(t, k) == WithOrder(s, k)
    ensures t == SortByOrder(s)
  {
    forall k ensures WithOrder(t, k) == WithOrder(SortByOrder(s), k) {
      SortByOrderStable(s, k);
    }
    SortedGroupsDetermine(t, SortByOrder(s));
  }

  // ---------------------------------------------------------------------------
  // content_map = {content.section_id: content.content for content in contents_data}
  // ---------------------------------------------------------------------------

  /** No entry after position `i` names the same section as entry `i`. */
  predicate IsLastFor(entries: seq<ContentEntry>, i: int)
    requires 0 <= i < |entries|
  {
    forall j :: i < j < |entries| ==> entries[j].sectionId != entries[i].sectionId
  }

  /** The dict built from the entries in order, later entries overwriting earlier ones. */
  function ContentMap(entries: seq<ContentEntry>): map<int, string>
  {
    if entries == [] then map[]
    else
      var n := |entries| - 1;
      ContentMap(entries[..n])[entries[n].sectionId := entries[n].content]
  }

  /** A section id is a key of the dict exactly when some entry names it, and
      its text is that of the LAST entry naming it. */
  lemma {:induction false} ContentMapLastWins(entries: seq<ContentEntry>)
    ensures forall id :: id in ContentMap(entries) <==> exists i :: 0 <= i < |entries| && entries[i].sectionId == id
    ensures forall i :: 0 <= i < |entries| && IsLastFor(entries, i) ==>
      ContentMap(entries)[entries[i].sectionId] == entries[i].content
  {
    if entries != [] {
      var n := |entries| - 1;
      var prefix := entries[..n];
      ContentMapLastWins(prefix);
      assert forall i :: 0 <= i < n ==> prefix[i] == entries[i];
      forall i | 0 <= i < n && IsLastFor(entries, i)
        ensures IsLastFor(prefix, i)
      {
      }
    }
  }

  /** Adding an entry for `e.sectionId` anywhere in the list changes no other key. */
  lemma {:induction false} ContentMapInsertElsewhere(entries: seq<ContentEntry>, i: nat, e: ContentEntry, id: int)
    requires i <= |entries| && id != e.sectionId
    ensures var m, m' := ContentMap(entries), ContentMap(entries[..i] + [e] + entries[i..]);
      (id in m' <==> id in m) && (id in m ==> m'[id] == m[id])
  {
    var longer := entries[..i] + [e] + entries[i..];
    if i < |entries| {
      var n := |entries| - 1;
      assert longer[..|longer| - 1] == entries[..n][..i] + [e] + entries[..n][i..];
      assert longer[|longer| - 1] == entries[n];
      ContentMapInsertElsewhere(entries[..n], i, e, id);
    } else {
      assert longer[..|longer| - 1] == entries;
    }
  }

  // ---------------------------------------------------------------------------
  // One section's lines (services.py:158-170)
  // ---------------------------------------------------------------------------

  /** `"#" * section.level + " " + section.title`; for a level of zero or less
      the `#` run is empty and the line is a space followed by the title. */
  function Header(s: Section): string
  {
    Repeat('#', s.level) + " " + s.title
  }

  /** The body line of a section. The user's text wins whenever the section
      has an entry holding a non-whitespace character; otherwise the
      placeholder, if it is set and holds one; otherwise no body line. */
  function Body(s: Section, userContent: map<int, string>): (r: Option<string>)
    ensures s.id in userContent && !AllSpace(userContent[s.id]) ==> r == Some(userContent[s.id])
    ensures s.id !in userContent || AllSpace(userContent[s.id]) ==>
      r == if s.placeholder.Some? && !AllSpace(s.placeholder.value) then s.placeholder else None
  {
    if s.id in userContent && Strip(userContent[s.id]) != "" then
      Some(userContent[s.id])
    else if s.placeholder.Some? && s.placeholder.value != "" && Strip(s.placeholder.value) != "" then
      s.placeholder
    else
      None
  }

  /** The lines one section appends: its header, its body line if any, and an empty line. */
  function Block(s: Section, userContent: map<int, string>): seq<string>
  {
    [Header(s)] + (match Body(s, userContent) case Some(b) => [b] case None => []) + [""]
  }

  /** The lines appended for a run of sections, in the given order. */
  function Lines(ss: seq<Section>, userContent: map<int, string>): seq<string>
  {
    if ss == [] then [] else Block(ss[0], userContent) + Lines(ss[1..], userContent)
  }

  /** `generate_markdown(template, contents_data)` for a template whose
      sections are `sections` (in the order the relationship loads them). */
  function GenerateMarkdown(sections: seq<Section>, entries: seq<ContentEntry>): string
  {
    Strip(Join(Lines(SortByOrder(sections), ContentMap(entries)), "\n"))
  }

  // ---------------------------------------------------------------------------
  // Properties of the composed document
  // ---------------------------------------------------------------------------

  /** A template without sections composes to the empty document, whatever the entries. */
  lemma NoSectionsNoText(entries: seq<ContentEntry>)
    ensures GenerateMarkdown([], entries) == ""
  {
  }

  /** The lines of two runs of sections are the lines of the first, then those of the second. */
  lemma {:induction false} LinesAppend(a: seq<Section>, b: seq<Section>, userContent: map<int, string>)
    ensures Lines(a + b, userContent) == Lines(a, userContent) + Lines(b, userContent)
  {
    if a == [] {
      assert a + b == b;
    } else {
      assert (a + b)[0] == a[0] && (a + b)[1..] == a[1..] + b;
      LinesAppend(a[1..], b, userContent);
    }
  }

  /** Section `i` owns one contiguous block of the lines, starting where the
      blocks of the sections before it end: first its header, then its body
      line exactly when it has one, then one empty line. */
  lemma BlockLayout(ss: seq<Section>, userContent: map<int, string>, i: nat)
    requires i < |ss|
    ensures var lines, start := Lines(ss, userContent), |Lines(ss[..i], userContent)|;
      var end := |Lines(ss[..i + 1], userContent)|;
      var body := Body(ss[i], userContent);
      && end == start + (if body.Some? then 3 else 2) && end <= |lines|
      && lines[start] == Header(ss[i])
      && (body.Some? ==> lines[start + 1] == body.value)
      && lines[end - 1] == ""
  {
    var m := userContent;
    assert ss == ss[..i] + [ss[i]] + ss[i + 1..];
    assert ss[..i + 1] == ss[..i] + [ss[i]];
    LinesAppend(ss[..i] + [ss[i]], ss[i + 1..], m);
    LinesAppend(ss[..i], [ss[i]], m);
    assert Lines([ss[i]], m) == Block(ss[i], m);
  }

  /** The composed text depends on the user's map only through the sections' own ids. */
  lemma {:induction false} LinesAgree(ss: seq<Section>, m1: map<int, string>, m2: map<int, string>)
    requires forall x :: x in ss ==> (x.id in m1 <==> x.id in m2) && (x.id in m1 ==> m1[x.id] == m2[x.id])
    ensures Lines(ss, m1) == Lines(ss, m2)
  {
    if ss != [] {
      assert Body(ss[0], m1) == Body(ss[0], m2);
      LinesAgree(ss[1..], m1, m2);
    }
  }

  /** An entry whose section id matches no section changes nothing, wherever
      it stands among the entries. */
  lemma UnmatchedEntryIgnored(sections: seq<Section>, entries: seq<ContentEntry>, i: nat, e: ContentEntry)
    requires i <= |entries|
    requires forall x :: x in sections ==> x.id != e.sectionId
    ensures GenerateMarkdown(sections, entries[..i] + [e] + entries[i..]) == GenerateMarkdown(sections, entries)
  {
    var sorted := SortByOrder(sections);
    var m, m' := ContentMap(entries), ContentMap(entries[..i] + [e] + entries[i..]);
    forall x | x in sorted
      ensures (x.id in m' <==> x.id in m) && (x.id in m ==> m'[x.id] == m[x.id])
    {
      assert x in multiset(sorted);
      ContentMapInsertElsewhere(entries, i, e, x.id);
    }
    LinesAgree(sorted, m', m);
  }

  /** Joined lines begin with the first line. */
  lemma JoinStartsWithFirst(lines: seq<string>, sep: string)
    requires lines != []
    ensures |lines[0]| <= |Join(lines, sep)| && Join(lines, sep)[..|lines[0]|] == lines[0]
  {
  }

  /** Before the final strip the text begins with the header of the first section. */
  lemma TextStartsWithFirstHeader(ss: seq<Section>, userContent: map<int, string>)
    requires ss != []
    ensures var text, h := Join(Lines(ss, userContent), "\n"), Header(ss[0]);
      |h| <= |text| && text[..|h|] == h
  {
    var lines := Lines(ss, userContent);
    assert lines[0] == Header(ss[0]);
    JoinStartsWithFirst(lines, "\n");
  }

  /** When the first section (after sorting) has a level of one or more, the
      document starts with its whole `#` run: the final strip keeps it, and
      the run is followed by the header's space unless the document ends there. */
  lemma FirstHeaderKeepsHashes(sections: seq<Section>, entries: seq<ContentEntry>)
    requires sections != []
    requires SortByOrder(sections)[0].level >= 1
    ensures var level, md := SortByOrder(sections)[0].level, GenerateMarkdown(sections, entries);
      && level <= |md| && md[..level] == Repeat('#', level)
      && (level < |md| ==> md[level] == ' ')
  {
    var sorted := SortByOrder(sections);
    var h, level := Header(sorted[0]), sorted[0].level;
    assert |Repeat('#', level)| == level;
    assert h[..level] == Repeat('#', level) && h[level] == ' ';
    TextStartsWithFirstHeader(sorted, ContentMap(entries));
    HashRunKept(Join(Lines(sorted, ContentMap(entries)), "\n"), h, level);
  }

  /** Strip keeps a leading run of `level` `#` characters, and the character
      after it when that one is kept at all. */
  lemma HashRunKept(text: string, h: string, level: int)
    requires level >= 1 && |h| <= |text| && text[..|h|] == h
    requires level < |h| && h[..level] == Repeat('#', level)
    ensures level <= |Strip(text)| && Strip(text)[..level] == Repeat('#', level)
    ensures level < |Strip(text)| ==> Strip(text)[level] == h[level]
  {
    assert text[..level] == Repeat('#', level) by {
      assert text[..level] == text[..|h|][..level];
    }
    assert text[0] == '#' && text[level - 1] == '#' by {
      assert text[..level][0] == text[0] && text[..level][level - 1] == text[level - 1];
    }
    assert text[level] == h[level] by {
      assert text[..|h|][level] == text[level];
    }
    StripKeeps(text, 0);
    StripKeeps(text, level - 1);
    assert StripStart(text) == 0;
    assert Strip(text)[..level] == text[..level];
  }

  /** When the first section (after sorting) has a level of zero or less, its
      header line is a space and the title; the final strip removes only that
      space, so a title starting with a non-whitespace character starts the document. */
  lemma FirstHeaderLosesLeadingSpace(sections: seq<Section>, entries: seq<ContentEntry>)
    requires sections != []
    requires SortByOrder(sections)[0].level <= 0
    requires SortByOrder(sections)[0].title != [] && !IsSpace(SortByOrder(sections)[0].title[0])
    ensures var md := GenerateMarkdown(sections, entries);
      md != [] && md[0] == SortByOrder(sections)[0].title[0]
  {
    var sorted := SortByOrder(sections);
    var first := sorted[0];
    var text := Join(Lines(sorted, ContentMap(entries)), "\n");
    var md := Strip(text);
    var h := Header(first);
    TextStartsWithFirstHeader(sorted, ContentMap(entries));
    assert h == " " + first.title;
    assert text[0] == ' ' && text[1] == first.title[0] by {
      assert h[0] == text[..|h|][0] && h[1] == text[..|h|][1];
    }
    StripKeeps(text, 1);
    assert StripStart(text) == 1;
  }

  /** Before the final strip the text ends with the newline that precedes the
      empty line of the last section. */
  lemma TrailingEmptyLine(ss: seq<Section>, userContent: map<int, string>)
    requires ss != []
    ensures var text := Join(Lines(ss, userContent), "\n");
      text != [] && text[|text| - 1] == '\n'
  {
    var n := |ss| - 1;
    assert ss == ss[..n] + [ss[n]];
    LinesAppend(ss[..n], [ss[n]], userContent);
    var lines := Lines(ss, userContent);
    var block := Block(ss[n], userContent);
    assert Lines([ss[n]], userContent) == block;
    var front := lines[..|lines| - 1];
    assert lines == front + [""];
    assert front != [] by { assert block[0] == lines[|lines| - |block|]; }
    JoinAppend(front, [""], "\n");
  }

  // ---------------------------------------------------------------------------
  // Worked examples
  // ---------------------------------------------------------------------------

  /** Order indices 2, 1, 3 with levels 1, 2, 1: the level-2 section comes
      first, each header is followed by an empty line, and the trailing
      newline is stripped. */
  lemma OrderExample(a: Section, b: Section, c: Section)
    requires a == Section(1, 7, 1, "A", None, 2, None)
    requires b == Section(2, 7, 2, "B", None, 1, None)
    requires c == Section(3, 7, 1, "C", None, 3, None)
    ensures GenerateMarkdown([a, b, c], []) == "## B\n\n# A\n\n# C"
  {
    var sorted := SortByOrder([a, b, c]);
    OrderExampleSort(a, b, c);
    var m := ContentMap([]);
    assert m == map[];
    var lines := Lines(sorted, m);
    OrderExampleLines(a, b, c);
    assert lines == ["## B", "", "# A", "", "# C", ""];
    OrderExampleText(lines);
  }

  lemma OrderExampleText(lines: seq<string>)
    requires lines == ["## B", "", "# A", "", "# C", ""]
    ensures Strip(Join(lines, "\n")) == "## B\n\n# A\n\n# C"
  {
    JoinExample();
    assert Join(lines, "\n") == "## B\n\n# A\n\n# C" + "\n";
    TrailingNewlineStripped("## B\n\n# A\n\n# C");
  }

  lemma OrderExampleSort(a: Section, b: Section, c: Section)
    requires a.orderIndex == 2 && b.orderIndex == 1 && c.orderIndex == 3
    ensures SortByOrder([a, b, c]) == [b, a, c]
  {
    assert SortByOrder([c]) == [c];
    assert [b, c][1..] == [c];
    assert InsertByOrder(b, [c]) == [b, c];
    assert SortByOrder([b, c]) == [b, c];
    assert [a, b, c][1..] == [b, c];
    assert InsertByOrder(a, [b, c]) == [b, a, c] by { assert [b, c][1..] == [c]; }
  }

  lemma OrderExampleLines(a: Section, b: Section, c: Section)
    requires a == Section(1, 7, 1, "A", None, 2, None) && b == Section(2, 7, 2, "B", None, 1, None)
    requires c == Section(3, 7, 1, "C", None, 3, None)
    ensures Lines([b, a, c], map[]) == ["## B", "", "# A", "", "# C", ""]
  {
    var m: map<int, string> := map[];
    assert Header(a) == "# A" && Header(b) == "## B" && Header(c) == "# C" by {
      assert Repeat('#', 1) == "#";
      assert Repeat('#', 2) == "##";
    }
    LinesStep(c, [], m);
    LinesStep(a, [c], m);
    LinesStep(b, [a, c], m);
  }

  lemma LinesStep(x: Section, rest: seq<Section>, m: map<int, string>)
    ensures Lines([x] + rest, m) == Block(x, m) + Lines(rest, m)
  {
    assert ([x] + rest)[1..] == rest;
  }

  lemma JoinExample()
    ensures Join(["## B", "", "# A", "", "# C", ""], "\n") == "## B\n\n# A\n\n# C\n"
  {
    JoinStep("# C", [""]);
    assert Join(["# C", ""], "\n") == "# C\n";
    JoinStep("", ["# C", ""]);
    assert Join(["", "# C", ""], "\n") == "\n# C\n";
    JoinStep("# A", ["", "# C", ""]);
    assert Join(["# A", "", "# C", ""], "\n") == "# A\n\n# C\n";
    JoinStep("", ["# A", "", "# C", ""]);
    assert Join(["", "# A", "", "# C", ""], "\n") == "\n# A\n\n# C\n";
    JoinStep("## B", ["", "# A", "", "# C", ""]);
  }

  lemma JoinStep(x: string, rest: seq<string>)
    requires rest != []
    ensures Join([x] + rest, "\n") == x + "\n" + Join(rest, "\n")
  {
    assert ([x] + rest)[1..] == rest;
  }

  /** A text with non-whitespace ends loses only a trailing newline. */
  lemma TrailingNewlineStripped(body: string)
    requires body != [] && !IsSpace(body[0]) && !IsSpace(body[|body| - 1])
    ensures Strip(body + "\n") == body
  {
    var s := body + "\n";
    assert s[..|body|] == body && s[|body|] == '\n';
    StripUnique(s, 0, |body|);
  }

  /** User text replaces a placeholder; whitespace-only user text falls back to it. */
  lemma PrecedenceExample(x: Section, y: Section, es: seq<ContentEntry>)
    requires x == Section(1, 7, 1, "A", Some("TBD"), 1, None)
    requires y == Section(2, 7, 2, "B", Some("TBD"), 2, None)
    requires es == [ContentEntry(1, "Hi"), ContentEntry(2, "  ")]
    ensures GenerateMarkdown([x, y], es) == "# A\nHi\n\n## B\nTBD"
  {
    assert SortByOrder([x, y]) == [x, y] by {
      assert [x, y][1..] == [y];
    }
    var m := ContentMap(es);
    assert m == map[1 := "Hi", 2 := "  "] by {
      assert es[..1] == [ContentEntry(1, "Hi")];
      assert [ContentEntry(1, "Hi")][..0] == [];
      assert ContentMap(es[..1]) == map[1 := "Hi"];
    }
    PrecedenceExampleBodies(x, y, m);
    PrecedenceExampleHeaders(x, y);
    BlockWithBody(x, m, "# A", "Hi");
    BlockWithBody(y, m, "## B", "TBD");
    PrecedenceExampleLines(x, y, m);
    PrecedenceExampleText(Lines([x, y], m));
  }

  lemma PrecedenceExampleLines(x: Section, y: Section, m: map<int, string>)
    requires Block(x, m) == ["# A", "Hi", ""] && Block(y, m) == ["## B", "TBD", ""]
    ensures Lines([x, y], m) == ["# A", "Hi", "", "## B", "TBD", ""]
  {
    LinesOfTwo(x, y, m);
  }

  lemma PrecedenceExampleHeaders(x: Section, y: Section)
    requires x.level == 1 && x.title == "A" && y.level == 2 && y.title == "B"
    ensures Header(x) == "# A" && Header(y) == "## B"
  {
    assert Repeat('#', 1) == "#";
    assert Repeat('#', 2) == "##";
  }

  lemma LinesOfTwo(x: Section, y: Section, m: map<int, string>)
    ensures Lines([x, y], m) == Block(x, m) + Block(y, m)
  {
    LinesStep(y, [], m);
    LinesStep(x, [y], m);
  }

  lemma BlockWithBody(s: Section, m: map<int, string>, h: string, b: string)
    requires Header(s) == h && Body(s, m) == Some(b)
    ensures Block(s, m) == [h, b, ""]
  {
  }

  lemma PrecedenceExampleJoin()
    ensures Join(["# A", "Hi", "", "## B", "TBD", ""], "\n") == "# A\nHi\n\n## B\nTBD\n"
  {
    JoinStep("TBD", [""]);
    assert Join(["TBD", ""], "\n") == "TBD\n";
    JoinStep("## B", ["TBD", ""]);
    assert Join(["## B", "TBD", ""], "\n") == "## B\nTBD\n";
    JoinStep("", ["## B", "TBD", ""]);
    assert Join(["", "## B", "TBD", ""], "\n") == "\n## B\nTBD\n";
    JoinStep("Hi", ["", "## B", "TBD", ""]);
    assert Join(["Hi", "", "## B", "TBD", ""], "\n") == "Hi\n\n## B\nTBD\n";
    JoinStep("# A", ["Hi", "", "## B", "TBD", ""]);
  }

  lemma PrecedenceExampleBodies(x: Section, y: Section, m: map<int, string>)
    requires x == Section(1, 7, 1, "A", Some("TBD"), 1, None)
    requires y == Section(2, 7, 2, "B", Some("TBD"), 2, None)
    requires m == map[1 := "Hi", 2 := "  "]
    ensures Body(x, m) == Some("Hi") && Body(y, m) == Some("TBD")
  {
    assert !AllSpace("Hi") by { assert !IsSpace("Hi"[0]); }
    assert !AllSpace("TBD") by { assert !IsSpace("TBD"[0]); }
    assert AllSpace("  ");
  }

  lemma PrecedenceExampleText(lines: seq<string>)
    requires lines == ["# A", "Hi", "", "## B", "TBD", ""]
    ensures Strip(Join(lines, "\n")) == "# A\nHi\n\n## B\nTBD"
  {
    PrecedenceExampleJoin();
    assert Join(lines, "\n") == "# A\nHi\n\n## B\nTBD" + "\n";
    TrailingNewlineStripped("# A\nHi\n\n## B\nTBD");
  }
}
