/** `TemplateService`, `PromptService` and `GeminiService` (services.py:12-257)
    over an in-memory database: one field per table. Tables whose rows are
    read back as a relationship collection (`template_sections`,
    `prompt_contents`) are sequences in insertion (rowid) order; the others are
    maps from primary key to row. Each table draws its keys from its own
    counter. Clock readings are parameters. */
module Store {
  import opened Wrappers
  import opened Composer
  import opened Lifecycle

  /** A row of `templates` (database.py:10-16). */
  datatype Template = Template(id: int, title: string, createdAt: int, updatedAt: int)

  /** One requested section, `TemplateSectionCreate` (models.py:5-10). */
  datatype SectionSpec = SectionSpec(
    level: int,
    title: string,
    placeholder: Option<string>,
    orderIndex: int,
    parentId: Option<int>)

  /** A row of `prompts` (database.py:34-41); `template_id` is nullable. */
  datatype Prompt = Prompt(id: int, templateId: Option<int>, title: string, generatedContent: string, createdAt: int)

  /** A row of `prompt_contents` (database.py:47-53). */
  datatype ContentRow = ContentRow(id: int, promptId: int, sectionId: int, content: string)

  /** A template with its sections, as the services return it. */
  datatype TemplateView = TemplateView(template: Template, sections: seq<Section>)

  /** A prompt with its content rows, as `create_prompt` returns it. */
  datatype PromptView = PromptView(prompt: Prompt, contents: seq<ContentRow>)

  /** `ValueError("Template not found")` (services.py:111-112). */
  datatype StoreError = TemplateNotFound

  /** The five tables at one moment. */
  datatype Tables = Tables(
    templates: map<int, Template>,
    sections: seq<Section>,
    prompts: map<int, Prompt>,
    contents: seq<ContentRow>,
    responses: map<int, Response>)

  // ---------------------------------------------------------------------------
  // Row selections
  // ---------------------------------------------------------------------------

  /** `s` is the section row the loop at services.py:21-30 builds from `spec` for template `tid`. */
  predicate Built(s: Section, spec: SectionSpec, tid: int) {
    && s.templateId == tid && s.level == spec.level && s.title == spec.title
    && s.placeholder == spec.placeholder && s.orderIndex == spec.orderIndex && s.parentId == spec.parentId
  }

  /** `row` is the content row the loop at services.py:127-133 builds from entry `e` for prompt `pid`. */
  predicate Stores(row: ContentRow, pid: int, e: ContentEntry) {
    row.promptId == pid && row.sectionId == e.sectionId && row.content == e.content
  }

  /** The rows of template `tid`, in table order: `template.sections`. */
  function SectionsOf(rows: seq<Section>, tid: int): (r: seq<Section>)
    ensures |r| <= |rows|
    ensures forall x :: x in r ==> x in rows
    ensures forall i :: 0 <= i < |r| ==> r[i].templateId == tid
  {
    if rows == [] then []
    else (if rows[0].templateId == tid then [rows[0]] else []) + SectionsOf(rows[1..], tid)
  }

  /** The rows left by `delete(TemplateSection).where(template_id == tid)`. */
  function SectionsNotOf(rows: seq<Section>, tid: int): (r: seq<Section>)
    ensures |r| <= |rows|
    ensures forall i :: 0 <= i < |r| ==> r[i].templateId != tid
    ensures forall x :: x in rows && x.templateId != tid ==> x in r
  {
    if rows == [] then []
    else (if rows[0].templateId != tid then [rows[0]] else []) + SectionsNotOf(rows[1..], tid)
  }

  /** The rows left by `delete(PromptContent).where(prompt_id == pid)`. */
  function ContentsNotOf(rows: seq<ContentRow>, pid: int): (r: seq<ContentRow>)
    ensures |r| <= |rows|
    ensures forall i :: 0 <= i < |r| ==> r[i].promptId != pid
    ensures forall x :: x in rows && x.promptId != pid ==> x in r
  {
    if rows == [] then []
    else (if rows[0].promptId != pid then [rows[0]] else []) + ContentsNotOf(rows[1..], pid)
  }

  /** The rows left by `delete(GeminiResponse).where(prompt_id == pid)`. */
  function ResponsesNotOf(m: map<int, Response>, pid: int): (r: map<int, Response>)
    ensures forall id :: id in r <==> id in m && m[id].promptId != pid
    ensures forall id :: id in r ==> r[id] == m[id]
  {
    map id | id in m && m[id].promptId != pid :: m[id]
  }

  /** The prompts after template `tid` is deleted: the relationship at
      database.py:19 has no delete cascade, so the ORM sets `template_id` to
      NULL on that template's prompts. No prompt disappears, and title,
      generated text and creation time all stay. */
  function Detached(ps: map<int, Prompt>, tid: int): (r: map<int, Prompt>)
    ensures r.Keys == ps.Keys
    ensures forall id :: id in r ==>
      && r[id].id == ps[id].id && r[id].title == ps[id].title
      && r[id].generatedContent == ps[id].generatedContent && r[id].createdAt == ps[id].createdAt
      && r[id].templateId == (if ps[id].templateId == Some(tid) then None else ps[id].templateId)
  {
    map id | id in ps :: if ps[id].templateId == Some(tid) then ps[id].(templateId := None) else ps[id]
  }

  /** Some response row belongs to prompt `pid`. */
  predicate HasResponse(m: map<int, Response>, pid: int) {
    exists id :: id in m && m[id].promptId == pid
  }

  // ---------------------------------------------------------------------------
  // Row-selection lemmas
  // ---------------------------------------------------------------------------

  predicate SectionIdsIncreasing(rows: seq<Section>) {
    forall i, j :: 0 <= i < j < |rows| ==> rows[i].id < rows[j].id
  }

  predicate ContentIdsIncreasing(rows: seq<ContentRow>) {
    forall i, j :: 0 <= i < j < |rows| ==> rows[i].id < rows[j].id
  }

  /** Selecting a template's rows distributes over appending rows. */
  lemma {:induction false} SectionsOfAppend(a: seq<Section>, b: seq<Section>, tid: int)
    ensures SectionsOf(a + b, tid) == SectionsOf(a, tid) + SectionsOf(b, tid)
  {
    if a == [] {
      assert a + b == b;
    } else {
      assert (a + b)[0] == a[0] && (a + b)[1..] == a[1..] + b;
      SectionsOfAppend(a[1..], b, tid);
    }
  }

  /** After deleting template `tid`'s rows, it has none, and every other
      template has exactly the rows it had. */
  lemma {:induction false} SectionsOfAfterDelete(rows: seq<Section>, tid: int, t: int)
    ensures SectionsOf(SectionsNotOf(rows, tid), t) == if t == tid then [] else SectionsOf(rows, t)
  {
    if rows != [] {
      SectionsOfAfterDelete(rows[1..], tid, t);
      var head := if rows[0].templateId != tid then [rows[0]] else [];
      SectionsOfAppend(head, SectionsNotOf(rows[1..], tid), t);
    }
  }

  /** Deleting rows keeps the survivors in order, so keys stay increasing and
      no new key appears. */
  lemma {:induction false} SectionsNotOfSubsequence(rows: seq<Section>, tid: int)
    requires SectionIdsIncreasing(rows)
    ensures SectionIdsIncreasing(SectionsNotOf(rows, tid))
    ensures forall x :: x in SectionsNotOf(rows, tid) ==> x in rows
  {
    if rows != [] {
      SectionsNotOfSubsequence(rows[1..], tid);
      var rest := SectionsNotOf(rows[1..], tid);
      forall x | x in rest ensures rows[0].id < x.id {
        var k :| 0 <= k < |rows[1..]| && rows[1..][k] == x;
        assert rows[k + 1] == x;
      }
    }
  }

  /** Deleting content rows keeps the survivors in order. */
  lemma {:induction false} ContentsNotOfSubsequence(rows: seq<ContentRow>, pid: int)
    requires ContentIdsIncreasing(rows)
    ensures ContentIdsIncreasing(ContentsNotOf(rows, pid))
    ensures forall x :: x in ContentsNotOf(rows, pid) ==> x in rows
  {
    if rows != [] {
      ContentsNotOfSubsequence(rows[1..], pid);
      var rest := ContentsNotOf(rows[1..], pid);
      forall x | x in rest ensures rows[0].id < x.id {
        var k :| 0 <= k < |rows[1..]| && rows[1..][k] == x;
        assert rows[k + 1] == x;
      }
    }
  }
  /** No key outside the map's own, and below the next key to hand out. */
  predicate TemplatesOk(ts: map<int, Template>, next: int) {
    forall id :: id in ts ==> ts[id].id == id && id < next
  }

  /** Section keys increase in table order and every section belongs to a stored template. */
  predicate SectionsOk(rows: seq<Section>, next: int, ts: map<int, Template>) {
    && SectionIdsIncreasing(rows)
    && forall i :: 0 <= i < |rows| ==> rows[i].id < next && rows[i].templateId in ts
  }

  /** A prompt's template is either gone (NULL) or stored. */
  predicate PromptsOk(ps: map<int, Prompt>, next: int, ts: map<int, Template>) {
    forall id :: id in ps ==>
      && ps[id].id == id && id < next
      && (ps[id].templateId.Some? ==> ps[id].templateId.value in ts)
  }

  /** Content keys increase in table order and every row belongs to a stored prompt. */
  predicate ContentsOk(rows: seq<ContentRow>, next: int, ps: map<int, Prompt>) {
    && ContentIdsIncreasing(rows)
    && forall i :: 0 <= i < |rows| ==> rows[i].id < next && rows[i].promptId in ps
  }

  /** Every response is stamped when completed, and no prompt has two
      responses (`scalar_one_or_none` at services.py:222 relies on it). */
  predicate ResponsesOk(rs: map<int, Response>, next: int) {
    && (forall id :: id in rs ==> rs[id].id == id && id < next && Stamped(rs[id]))
    && (forall a, b :: a in rs && b in rs && rs[a].promptId == rs[b].promptId ==> a == b)
  }

  /** No row of `rows` belongs to template `tid`, so it has no sections. */
  lemma {:induction false} SectionsOfNone(rows: seq<Section>, tid: int)
    requires forall i :: 0 <= i < |rows| ==> rows[i].templateId != tid
    ensures SectionsOf(rows, tid) == []
  {
    if rows != [] {
      SectionsOfNone(rows[1..], tid);
    }
  }

  /** Every row of `rows` belongs to template `tid`, so they are all its sections. */
  lemma {:induction false} SectionsOfAll(rows: seq<Section>, tid: int)
    requires forall i :: 0 <= i < |rows| ==> rows[i].templateId == tid
    ensures SectionsOf(rows, tid) == rows
  {
    if rows != [] {
      SectionsOfAll(rows[1..], tid);
      assert rows == [rows[0]] + rows[1..];
    }
  }

  /** Appending rows of template `tid` to a table that had none of its
      rows: they become its sections, and every other template keeps its own. */
  lemma AppendedSections(rows: seq<Section>, created: seq<Section>, tid: int)
    requires SectionsOf(rows, tid) == []
    requires forall i :: 0 <= i < |created| ==> created[i].templateId == tid
    ensures SectionsOf(rows + created, tid) == created
    ensures forall t :: t != tid ==> SectionsOf(rows + created, t) == SectionsOf(rows, t)
  {
    SectionsOfAppend(rows, created, tid);
    SectionsOfAll(created, tid);
    forall t | t != tid
      ensures SectionsOf(rows + created, t) == SectionsOf(rows, t)
    {
      SectionsOfAppend(rows, created, t);
      SectionsOfNone(created, t);
    }
  }

  /** Appending a section under the next key, to a stored template, keeps the table consistent. */
  lemma SectionsOkSnoc(rows: seq<Section>, next: int, ts: map<int, Template>, s: Section)
    requires SectionsOk(rows, next, ts) && s.id == next && s.templateId in ts
    ensures SectionsOk(rows + [s], next + 1, ts)
  {
  }

  /** More stored templates keep the section table consistent. */
  lemma SectionsOkGrow(rows: seq<Section>, next: int, ts: map<int, Template>, us: map<int, Template>)
    requires SectionsOk(rows, next, ts) && ts.Keys <= us.Keys
    ensures SectionsOk(rows, next, us)
  {
  }

  /** Deleting template `tid` together with its sections keeps the section table consistent. */
  lemma SectionsOkDelete(rows: seq<Section>, next: int, ts: map<int, Template>, tid: int)
    requires SectionsOk(rows, next, ts)
    ensures SectionsOk(SectionsNotOf(rows, tid), next, ts - {tid})
  {
    SectionsNotOfSubsequence(rows, tid);
    var r := SectionsNotOf(rows, tid);
    forall i | 0 <= i < |r|
      ensures r[i].id < next && r[i].templateId in ts - {tid}
    {
      assert r[i] in rows;
    }
  }

  /** Storing a prompt under the next key, naming a stored template, keeps the prompt table consistent. */
  lemma PromptsOkAdd(ps: map<int, Prompt>, next: int, ts: map<int, Template>, p: Prompt)
    requires PromptsOk(ps, next, ts) && p.id == next
    requires p.templateId.Some? ==> p.templateId.value in ts
    ensures PromptsOk(ps[next := p], next + 1, ts)
  {
  }

  /** Deleting template `tid` after detaching its prompts keeps the prompt table consistent. */
  lemma PromptsOkDetach(ps: map<int, Prompt>, next: int, ts: map<int, Template>, tid: int)
    requires PromptsOk(ps, next, ts)
    ensures PromptsOk(Detached(ps, tid), next, ts - {tid})
  {
  }

  /** Appending a content row under the next key, to a stored prompt, keeps the table consistent. */
  lemma ContentsOkSnoc(rows: seq<ContentRow>, next: int, ps: map<int, Prompt>, c: ContentRow)
    requires ContentsOk(rows, next, ps) && c.id == next && c.promptId in ps
    ensures ContentsOk(rows + [c], next + 1, ps)
  {
  }

  /** More stored prompts keep the content table consistent. */
  lemma ContentsOkGrow(rows: seq<ContentRow>, next: int, ps: map<int, Prompt>, qs: map<int, Prompt>)
    requires ContentsOk(rows, next, ps) && ps.Keys <= qs.Keys
    ensures ContentsOk(rows, next, qs)
  {
  }

  /** Deleting prompt `pid` together with its content rows keeps the content table consistent. */
  lemma ContentsOkDelete(rows: seq<ContentRow>, next: int, ps: map<int, Prompt>, pid: int)
    requires ContentsOk(rows, next, ps)
    ensures ContentsOk(ContentsNotOf(rows, pid), next, ps - {pid})
  {
    ContentsNotOfSubsequence(rows, pid);
    var r := ContentsNotOf(rows, pid);
    forall i | 0 <= i < |r|
      ensures r[i].id < next && r[i].promptId in ps - {pid}
    {
      assert r[i] in rows;
    }
  }

  /** The database: one field per table, one key counter per table. */
  class Db {
    var templates: map<int, Template>
    var sections: seq<Section>
    var prompts: map<int, Prompt>
    var contents: seq<ContentRow>
    var responses: map<int, Response>
    var nextTemplateId: int
    var nextSectionId: int
    var nextPromptId: int
    var nextContentId: int
    var nextResponseId: int

    /** The five tables, without the key counters. */
    ghost function Snapshot(): Tables
      reads this
    {
      Tables(templates, sections, prompts, contents, responses)
    }

    ghost predicate Valid()
      reads this
    {
      && TemplatesOk(templates, nextTemplateId)
      && SectionsOk(sections, nextSectionId, templates)
      && PromptsOk(prompts, nextPromptId, templates)
      && ContentsOk(contents, nextContentId, prompts)
      && ResponsesOk(responses, nextResponseId)
    }

    /** A freshly created schema (`create_tables`, database.py:76-78). */
    constructor ()
      ensures Valid()
      ensures Snapshot() == Tables(map[], [], map[], [], map[])
    {
      templates := map[];
      sections := [];
      prompts := map[];
      contents := [];
      responses := map[];
      nextTemplateId := 1;
      nextSectionId := 1;
      nextPromptId := 1;
      nextContentId := 1;
      nextResponseId := 1;
    }

    /** One section row built from `spec` for template `tid`, under the next key (services.py:22-30). */
    method AddSection(tid: int, spec: SectionSpec) returns (s: Section)
      requires Valid() && tid in templates
      modifies this
      ensures Valid()
      ensures Built(s, spec, tid)
      ensures Snapshot() == old(Snapshot()).(sections := old(sections) + [s])
    {
      s := Section(nextSectionId, tid, spec.level, spec.title, spec.placeholder, spec.orderIndex, spec.parentId);
      SectionsOkSnoc(sections, nextSectionId, templates, s);
      sections := sections + [s];
      nextSectionId := nextSectionId + 1;
    }

    /** The loop that adds one section row per spec to template `tid`
        (services.py:21-30 and 74-83). */
    method AddSections(tid: int, specs: seq<SectionSpec>) returns (created: seq<Section>)
      requires Valid() && tid in templates && SectionsOf(sections, tid) == []
      modifies this
      ensures Valid()
      ensures Snapshot() == old(Snapshot()).(sections := old(sections) + created)
      ensures |created| == |specs|
      ensures forall i :: 0 <= i < |specs| ==> Built(created[i], specs[i], tid)
      ensures SectionsOf(sections, tid) == created
      ensures forall t :: t != tid ==> SectionsOf(sections, t) == SectionsOf(old(sections), t)
    {
      created := [];
      for i := 0 to |specs|
        invariant Valid()
        invariant Snapshot() == old(Snapshot()).(sections := old(sections) + created)
        invariant |created| == i
        invariant forall k :: 0 <= k < i ==> Built(created[k], specs[k], tid)
      {
        var s := AddSection(tid, specs[i]);
        created := created + [s];
      }
      AppendedSections(old(sections), created, tid);
    }

    /** `TemplateService.create_template`: a new template under a fresh key,
        with one section per spec in spec order. `created_at` and `updated_at`
        each take their own `datetime.now()` default at insert, so they are two
        clock readings, `createdAt` and `updatedAt`, which need not agree. */
    method CreateTemplate(title: string, specs: seq<SectionSpec>, createdAt: int, updatedAt: int)
      returns (view: TemplateView)
      requires Valid()
      modifies this
      ensures Valid()
      ensures view.template.id !in old(templates)
      ensures view.template == Template(view.template.id, title, createdAt, updatedAt)
      ensures |view.sections| == |specs|
      ensures forall i :: 0 <= i < |specs| ==> Built(view.sections[i], specs[i], view.template.id)
      ensures Snapshot() == old(Snapshot()).(
        templates := old(templates)[view.template.id := view.template],
        sections := old(sections) + view.sections)
      ensures SectionsOf(sections, view.template.id) == view.sections
    {
      var tid := nextTemplateId;
      SectionsOfNone(sections, tid);
      SectionsOkGrow(sections, nextSectionId, templates, templates[tid := Template(tid, title, createdAt, updatedAt)]);
      templates := templates[tid := Template(tid, title, createdAt, updatedAt)];
      nextTemplateId := nextTemplateId + 1;
      var created := AddSections(tid, specs);
      view := TemplateView(templates[tid], created);
    }

    /** `TemplateService.update_template`: `None` and no change for an unknown
        key; otherwise the title and `updated_at` change, the template's
        sections are replaced by new rows built from `specs`, and every other
        template keeps its sections. */
    method UpdateTemplate(tid: int, title: string, specs: seq<SectionSpec>, now: int) returns (r: Option<TemplateView>)
      requires Valid()
      modifies this
      ensures Valid()
      ensures tid !in old(templates) ==> r == None && Snapshot() == old(Snapshot())
      ensures tid in old(templates) ==>
        && r.Some?
        && r.value.template == old(templates)[tid].(title := title, updatedAt := now)
        && |r.value.sections| == |specs|
        && (forall i :: 0 <= i < |specs| ==> Built(r.value.sections[i], specs[i], tid))
        && Snapshot() == old(Snapshot()).(
             templates := old(templates)[tid := r.value.template],
             sections := SectionsNotOf(old(sections), tid) + r.value.sections)
        && SectionsOf(sections, tid) == r.value.sections
        && (forall t :: t != tid ==> SectionsOf(sections, t) == SectionsOf(old(sections), t))
    {
      if tid !in templates {
        return None;
      }
      var template := templates[tid].(title := title, updatedAt := now);
      ghost var before := sections;
      SectionsOkDelete(sections, nextSectionId, templates, tid);
      SectionsOkGrow(SectionsNotOf(sections, tid), nextSectionId, templates - {tid}, templates[tid := template]);
      SectionsOfAfterDelete(sections, tid, tid);
      templates := templates[tid := template];
      sections := SectionsNotOf(sections, tid);
      var created := AddSections(tid, specs);
      forall t | t != tid
        ensures SectionsOf(sections, t) == SectionsOf(before, t)
      {
        SectionsOfAfterDelete(before, tid, t);
      }
      r := Some(TemplateView(templates[tid], created));
    }

    /** `TemplateService.delete_template`: `false` and no change for an
        unknown key; otherwise the template and its sections go (the
        `delete-orphan` cascade, database.py:18) and its prompts stay with
        `template_id` set to NULL (database.py:19). */
    method DeleteTemplate(tid: int) returns (deleted: bool)
      requires Valid()
      modifies this
      ensures Valid()
      ensures deleted == (tid in old(templates))
      ensures !deleted ==> Snapshot() == old(Snapshot())
      ensures deleted ==> Snapshot() == old(Snapshot()).(
        templates := old(templates) - {tid},
        sections := SectionsNotOf(old(sections), tid),
        prompts := Detached(old(prompts), tid))
    {
      if tid !in templates {
        return false;
      }
      SectionsOkDelete(sections, nextSectionId, templates, tid);
      PromptsOkDetach(prompts, nextPromptId, templates, tid);
      ContentsOkGrow(contents, nextContentId, prompts, Detached(prompts, tid));
      templates := templates - {tid};
      sections := SectionsNotOf(sections, tid);
      prompts := Detached(prompts, tid);
      deleted := true;
    }

    /** One content row for prompt `pid` holding entry `e`, under the next key (services.py:128-133). */
    method AddContent(pid: int, e: ContentEntry) returns (row: ContentRow)
      requires Valid() && pid in prompts
      modifies this
      ensures Valid()
      ensures Stores(row, pid, e)
      ensures Snapshot() == old(Snapshot()).(contents := old(contents) + [row])
    {
      row := ContentRow(nextContentId, pid, e.sectionId, e.content);
      ContentsOkSnoc(contents, nextContentId, prompts, row);
      contents := contents + [row];
      nextContentId := nextContentId + 1;
    }

    /** The prompt row of template `tid`, under the next key (services.py:118-124). */
    method AddPrompt(tid: int, title: string, text: string, now: int) returns (p: Prompt)
      requires Valid() && tid in templates
      modifies this
      ensures Valid()
      ensures p.id !in old(prompts) && p == Prompt(p.id, Some(tid), title, text, now)
      ensures Snapshot() == old(Snapshot()).(prompts := old(prompts)[p.id := p])
    {
      p := Prompt(nextPromptId, Some(tid), title, text, now);
      PromptsOkAdd(prompts, nextPromptId, templates, p);
      ContentsOkGrow(contents, nextContentId, prompts, prompts[nextPromptId := p]);
      prompts := prompts[nextPromptId := p];
      nextPromptId := nextPromptId + 1;
    }

    /** The loop that adds one content row per entry to prompt `pid` (services.py:127-133). */
    method AddContents(pid: int, entries: seq<ContentEntry>) returns (created: seq<ContentRow>)
      requires Valid() && pid in prompts
      modifies this
      ensures Valid()
      ensures Snapshot() == old(Snapshot()).(contents := old(contents) + created)
      ensures |created| == |entries|
      ensures forall i :: 0 <= i < |entries| ==> Stores(created[i], pid, entries[i])
    {
      created := [];
      for i := 0 to |entries|
        invariant Valid() && pid in prompts
        invariant Snapshot() == old(Snapshot()).(contents := old(contents) + created)
        invariant |created| == i
        invariant forall k :: 0 <= k < i ==> Stores(created[k], pid, entries[k])
      {
        var row := AddContent(pid, entries[i]);
        created := created + [row];
      }
    }

    /** `PromptService.create_prompt`: `TemplateNotFound` and no change for an
        unknown template; otherwise a prompt under a fresh key whose text is
        the composer's output for that template's sections and the entries,
        and one content row per entry, in entry order. */
    method CreatePrompt(tid: int, title: string, entries: seq<ContentEntry>, now: int)
      returns (r: Result<PromptView, StoreError>)
      requires Valid()
      modifies this
      ensures Valid()
      ensures tid !in old(templates) ==> r == Err(TemplateNotFound) && Snapshot() == old(Snapshot())
      ensures tid in old(templates) ==>
        && r.Ok?
        && r.value.prompt.id !in old(prompts)
        && r.value.prompt == Prompt(r.value.prompt.id, Some(tid), title,
                                    GenerateMarkdown(SectionsOf(old(sections), tid), entries), now)
        && |r.value.contents| == |entries|
        && (forall i :: 0 <= i < |entries| ==> Stores(r.value.contents[i], r.value.prompt.id, entries[i]))
        && Snapshot() == old(Snapshot()).(
             prompts := old(prompts)[r.value.prompt.id := r.value.prompt],
             contents := old(contents) + r.value.contents)
    {
      if tid !in templates {
        return Err(TemplateNotFound);
      }
      var text := GenerateMarkdown(SectionsOf(sections, tid), entries);
      var prompt := AddPrompt(tid, title, text, now);
      var created := AddContents(prompt.id, entries);
      r := Ok(PromptView(prompt, created));
    }

    /** `PromptService.delete_prompt`: `false` and no change for an unknown
        key; otherwise the prompt goes together with its content rows and its
        responses, and nothing else changes. */
    method DeletePrompt(pid: int) returns (deleted: bool)
      requires Valid()
      modifies this
      ensures Valid()
      ensures deleted == (pid in old(prompts))
      ensures !deleted ==> Snapshot() == old(Snapshot())
      ensures deleted ==> Snapshot() == old(Snapshot()).(
        prompts := old(prompts) - {pid},
        contents := ContentsNotOf(old(contents), pid),
        responses := ResponsesNotOf(old(responses), pid))
    {
      if pid !in prompts {
        return false;
      }
      ContentsOkDelete(contents, nextContentId, prompts, pid);
      contents := ContentsNotOf(contents, pid);
      responses := ResponsesNotOf(responses, pid);
      prompts := prompts - {pid};
      deleted := true;
    }

    /** `GeminiService.create_gemini_response`: the prompt's existing response
        if it has one, with nothing changed; otherwise a new pending record
        under a fresh key. Either way the prompt then has exactly one
        response, the one returned. The prompt itself is not looked up. */
    method CreateResponse(pid: int, now: int) returns (r: Response)
      requires Valid()
      modifies this
      ensures Valid()
      ensures r.promptId == pid
      ensures r.id in responses && responses[r.id] == r
      ensures forall id :: id in responses && responses[id].promptId == pid ==> id == r.id
      ensures HasResponse(old(responses), pid) ==>
        r.id in old(responses) && r == old(responses)[r.id] && Snapshot() == old(Snapshot())
      ensures !HasResponse(old(responses), pid) ==>
        && r.id !in old(responses) && r == NewResponse(r.id, pid, now)
        && Snapshot() == old(Snapshot()).(responses := old(responses)[r.id := r])
    {
      if rid :| rid in responses && responses[rid].promptId == pid {
        r := responses[rid];
      } else {
        var id := nextResponseId;
        r := NewResponse(id, pid, now);
        responses := responses[id := r];
        nextResponseId := nextResponseId + 1;
      }
    }

    /** `GeminiService.update_gemini_response`: `None` and no change for an
        unknown key; otherwise that record becomes `Updated(...)`. */
    method UpdateResponse(rid: int, content: string, status: string, now: int) returns (r: Option<Response>)
      requires Valid()
      modifies this
      ensures Valid()
      ensures rid !in old(responses) ==> r == None && Snapshot() == old(Snapshot())
      ensures rid in old(responses) ==>
        && r == Some(Updated(old(responses)[rid], content, status, now))
        && Snapshot() == old(Snapshot()).(responses := old(responses)[rid := r.value])
    {
      if rid !in responses {
        return None;
      }
      var u := Updated(responses[rid], content, status, now);
      responses := responses[rid := u];
      r := Some(u);
    }
  }
}
