# Prompt generator: a Dafny model of the service layer

The prompt generator lets a user define document **templates**. A template is a titled list of **sections**, each with a heading level, a title, an optional placeholder text and an order index. The user then creates **prompts** by filling in text per section. The service composes a Markdown document from the template and the user's text, stores it with the prompt, and can send it to an external language model. The model's answer is kept in a **response record** whose status moves from `pending` to `completed` or `error`.

This project models that service layer (`services.py`) and the background job that drives the external call (`main.py`). It has six modules:

- `Wrappers` (`wrappers.dfy`): the `Option` and `Result` types used for absent rows and errors.

- `Text` (`text.dfy`): the Python string operations the composer relies on.
  - `Text.Strip`: `str.strip()` over Python's exact `isspace` character set, as a scan from the left and then from the right. Its result is characterised, and proved unique and idempotent.
  - `Text.Join`: `sep.join(lines)`.
  - `Text.Repeat`: `c * n`, which is empty for `n <= 0`.
- `Composer` (`composer.dfy`): `PromptService.generate_markdown` as pure functions. The top-level composition is `Composer.GenerateMarkdown`.
  - `Composer.SortByOrder`: a stable sort by order index, proved to be the unique stable sort.
  - `Composer.ContentMap`: the dict of user content, where the last entry for a section wins.
  - `Composer.Header` and `Composer.Body`: the header and body rule for each section; `Composer.Block` puts them together.
  - `Composer.Lines`: every section's block, in sorted order. `GenerateMarkdown` joins these lines with `Text.Join` and strips the result with `Text.Strip`. Lemmas describe the document's shape, and two examples are worked out.
- `Lifecycle` (`lifecycle.dfy`): the response record as a value.
  - Its creation and one update.
  - What any run of updates leaves behind.
- `Store` (`store.dfy`): the class `Db`. Each table is one field: templates, prompts and responses are maps from key to row; sections and content rows are sequences in insertion order.
  - Every service operation is a method with a `modifies` clause.
  - Each method's `ensures` states the complete new state of all five tables.
  - The methods keep a consistency invariant, `Valid()`:
    - keys are fresh and distinct;
    - sections belong to stored templates;
    - content rows belong to stored prompts;
    - a prompt's template is stored or NULL;
    - no prompt has two responses;
    - a completed response carries a completion time.
- `Workflow` (`workflow.dfy`): `process_gemini_request` as a method over `Db`. The external call's result is an input `Outcome`: either generated text or an exception message.

Clock readings (`datetime.now()`) are integer parameters. Keys come from one counter per table.

### Behaviour that may surprise a reader

- **Completion time on error.** `update_gemini_response` stamps `completed_at` only when the status is `"completed"` (services.py:252-253). An `"error"` update leaves `completed_at` as it was (`Lifecycle.Updated`). So a failed first request has no completion time. A request sent again for a prompt reuses that prompt's record (main.py:240, services.py:224-225); when the resubmission fails, the record says `"error"` but keeps the completion time of the earlier success. `Workflow.FailedResubmissionKeepsStamp` states this.
- **Unchecked status.** `update_gemini_response` accepts any status string (services.py:240-253). The comment `# pending, completed, error` at database.py:64 is not enforced. `Lifecycle.PendingOverCompletedKeepsStamp` shows that a `"pending"` update over a completed record leaves a pending record with a completion time.
- **Prompts of a deleted template.** `delete_template` deletes the template through the ORM (services.py:101). The `Template.prompts` relationship (database.py:19) has no delete cascade, so the ORM sets the prompts' `template_id` to NULL; the prompts and their generated text stay. `Store.Db.DeleteTemplate` states this through `Store.Detached`.
- **Ties in order index.** `sorted` at services.py:154 is stable, so sections with equal order index keep the order in which the relationship loaded them. That load has no ORDER BY; the model takes it to be insertion order (`Store.SectionsOf`).

## Model

| member | source | states |
|---|---|---|
| Text.SkipLeft | services.py:172 | the left scan of `str.strip()` stops at the first character that is not whitespace, or at the end, and passes over whitespace only |
| Text.SkipRight | services.py:172 | the right scan of `str.strip()` stops just after the last character that is not whitespace, or at the left scan's position, and passes over whitespace only |
| Text.Strip | services.py:164-172 | `str.strip()`: the input's margins before and after the result are all whitespace, the result neither starts nor ends with whitespace, and it is empty exactly when the input is all whitespace, which is what the truth test `if x.strip():` checks; the result is the slice of the input between the two scans |
| Text.StripUnique | services.py:172 | any slice with all-whitespace margins whose ends are not whitespace is the stripped string, so the contract of `Strip` determines it |
| Text.StripKeeps | services.py:172 | stripping never removes a non-whitespace character: it lies within the kept range, at the same offset from its start |
| Text.StripIdempotent | services.py:172 | stripping an already stripped string changes nothing |
| Text.JoinAppend | services.py:172 | joining two non-empty line lists puts exactly one separator between their joins |
| Text.Repeat | services.py:160 | `"#" * level` has length `level` when `level` is positive and is empty otherwise, and every character is the repeated one |
| Composer.InsertByOrder | services.py:154 | inserting into a list sorted by order index keeps it sorted and adds exactly that section |
| Composer.InsertByOrderGroups | services.py:154 | the inserted section goes in front of the sections that share its order index, and every other index's group is unchanged |
| Composer.SortByOrder | services.py:154 | the sorted sections are ascending by order index and are a permutation of the input |
| Composer.SortByOrderStable | services.py:154 | the sort is stable: the sections of any one order index appear in their input order |
| Composer.SortedGroupsDetermine | services.py:154 | two lists sorted by order index with the same per-index groups are equal |
| Composer.StableSortUnique | services.py:154 | any sorted arrangement that keeps every index's group in input order is the result of `SortByOrder`, so `SortByOrder` is Python's stable `sorted` |
| Composer.ContentMapLastWins | services.py:151 | a section id is a key of the content dict exactly when some entry names it, and its text is that of the last entry naming it |
| Composer.ContentMapInsertElsewhere | services.py:151 | adding an entry anywhere in the list changes no other section's key or text |
| Composer.Body | services.py:164-168 | the user's text is used verbatim when the section has an entry with a non-whitespace character; otherwise the placeholder is used when it is set and has one; otherwise there is no body line, so user text always beats the placeholder |
| Composer.LinesAppend | services.py:158-170 | the lines of two runs of sections are the lines of the first run, then those of the second |
| Composer.BlockLayout | services.py:158-170 | the i-th section contributes one block of lines: its header first, its body line next when it has one, and exactly one empty line last, so the block has 3 lines with a body and 2 without |
| Composer.LinesAgree | services.py:164-168 | the lines depend on the user's text only for the sections' own ids |
| Composer.UnmatchedEntryIgnored | services.py:151-172 | an entry whose section id matches no section of the template, inserted anywhere among the entries, leaves the document unchanged |
| Composer.NoSectionsNoText | services.py:156-172 | a template without sections composes to the empty document |
| Composer.JoinStartsWithFirst | services.py:172 | a joined text starts with its first line |
| Composer.TextStartsWithFirstHeader | services.py:160-172 | before the final strip the document starts with the header line of the first section |
| Composer.FirstHeaderKeepsHashes | services.py:160-172 | when the first sorted section has level at least 1, the document starts with exactly that many `#` characters, which the final strip keeps: the next character, if the document goes on, is the header's space |
| Composer.HashRunKept | services.py:172 | stripping keeps a leading run of `#` characters, and the character after it is unchanged when it is kept |
| Composer.FirstHeaderLosesLeadingSpace | services.py:160-172 | when the first sorted section has level 0 or less and a title that is non-empty and starts with a non-whitespace character, its header is a space and the title; the final strip removes that space, so the document starts with the title's first character |
| Composer.TrailingEmptyLine | services.py:170-172 | before the final strip the joined text ends with a newline, which comes from the last section's empty line |
| Composer.TrailingNewlineStripped | services.py:172 | a final newline after text with non-whitespace ends is removed by the strip and nothing else is |
| Composer.OrderExample | services.py:149-172 | three sections with order indices 2, 1, 3 and no entries compose to `"## B\n\n# A\n\n# C"` |
| Composer.OrderExampleSort | services.py:154 | order indices 2, 1, 3 sort to the second, first, third section |
| Composer.PrecedenceExample | services.py:149-172 | with placeholder `"TBD"` on both sections, user text `"Hi"` replaces the first placeholder, and a whitespace-only user text `"  "` falls back to the second, giving `"# A\nHi\n\n## B\nTBD"` |
| Composer.PrecedenceExampleBodies | services.py:164-168 | the body rule on those inputs: `"Hi"` for the first section, the placeholder `"TBD"` for the second |
| Lifecycle.NewResponse | services.py:228-232 | a new record belongs to the given prompt, is `pending` with empty text and no completion time, and carries its creation time |
| Lifecycle.Updated | services.py:250-253 | an update sets the text and the status, stamps the completion time only for `"completed"` and otherwise leaves it, never changes identity, prompt or creation time, and keeps every completed record stamped |
| Lifecycle.ApplyAllSnoc | services.py:240-257 | a run of updates followed by one more is that update applied to the run's result |
| Lifecycle.ApplyAllOverwrites | services.py:240-257 | after a run of updates, text and status are the last update's, and the completion time is that of the last `"completed"` update, or the original one if there was none |
| Lifecycle.DriverUpdatesKeepShape | main.py:246-255 | the `"completed"` and `"error"` updates the background job issues keep a record pending-unstamped, completed-stamped or error |
| Lifecycle.PendingOverCompletedKeepsStamp | services.py:250-253 | because the status is not checked, a `"pending"` update over a completed record leaves a pending record that still has its completion time |
| Store.SectionsOf | services.py:52-58 | the sections `get_template_by_id` loads for `create_prompt` (services.py:110) are rows of the section table, no more than it has, and all belong to that template |
| Store.SectionsNotOf | services.py:71 | the section rows left by deleting a template's sections are exactly the rows of other templates: none of that template survives and every row of another template does |
| Store.ContentsNotOf | services.py:205 | the content rows left by deleting a prompt's contents are exactly the rows of other prompts: none of that prompt survives and every row of another prompt does |
| Store.ResponsesNotOf | services.py:206 | exactly the responses of other prompts remain, unchanged |
| Store.Detached | database.py:19 | after a template is deleted every prompt is still there with the same title, text and creation time; those of that template have their template set to NULL, and the others keep theirs |
| Store.SectionsOfAppend | services.py:21-30 | a template's sections in a table extended by new rows are its old sections followed by its new ones |
| Store.SectionsOfAfterDelete | services.py:71 | after deleting template `tid`'s sections it has none, and every other template has exactly the sections it had |
| Store.SectionsNotOfSubsequence | services.py:71 | deleting section rows keeps the survivors in order, so keys stay increasing and no row appears |
| Store.ContentsNotOfSubsequence | services.py:205 | deleting content rows keeps the survivors in order, so keys stay increasing and no row appears |
| Store.AppendedSections | services.py:74-83 | rows appended for a template that had none become exactly its sections, and no other template's sections change |
| Store.Db.constructor | database.py:76-78 | a new database has five empty tables and is consistent |
| Store.Db.AddSection | services.py:22-30 | one new section row, built from its spec, is appended under a fresh key, and nothing else changes |
| Store.Db.AddSections | services.py:21-30 | one section row per spec is appended, in spec order; they are exactly the template's sections, and every other template keeps its own |
| Store.Db.CreateTemplate | services.py:14-40 | the new template has a fresh key, the given title, and `created_at` and `updated_at` from two separate clock readings (database.py:15-16); its sections are built from the specs, in order; no other table changes |
| Store.Db.UpdateTemplate | services.py:61-93 | an unknown key gives `None` and no change; otherwise the title and `updated_at` change, the template's sections are replaced by exactly the new list, every other template keeps its sections, and no other table changes |
| Store.Db.DeleteTemplate | services.py:96-103 | an unknown key gives `false` and no change; otherwise the template and all its sections go, its prompts stay with their template set to NULL, and content rows and responses are untouched |
| Store.Db.AddPrompt | services.py:118-124 | the prompt row is stored under a fresh key naming the template, and nothing else changes |
| Store.Db.AddContent | services.py:128-133 | one content row holding the entry is appended for the prompt under a fresh key, and nothing else changes |
| Store.Db.AddContents | services.py:127-133 | one content row per entry is appended for the prompt, in entry order, and nothing else changes |
| Store.Db.CreatePrompt | services.py:108-146 | an unknown template gives `TemplateNotFound` and no change; otherwise a prompt with a fresh key stores the composed document of that template's sections and the entries, with one content row per entry in entry order, and templates, sections and responses are untouched |
| Store.Db.DeletePrompt | services.py:197-212 | an unknown key gives `false` and no change; otherwise the prompt, every content row and every response of it go, every other prompt's content rows and responses stay, and templates and sections are untouched |
| Store.Db.CreateResponse | services.py:217-237 | find-or-create: an existing response of the prompt is returned with nothing changed; otherwise exactly one new pending record under a fresh key is added; either way the prompt then has exactly one response, the one returned |
| Store.Db.UpdateResponse | services.py:240-257 | an unknown key gives `None` and no change; otherwise that record, and only that one, becomes the updated record, which is also returned |
| Workflow.Settled | main.py:246-255 | generated text completes the record and stamps the completion time; a failure marks it `"error"` with the message and leaves the completion time; identity is kept and the background job's record shape is preserved |
| Workflow.FailedResubmissionKeepsStamp | main.py:236-255 | a failed resubmission after a success leaves a record with status `"error"`, the failure message, and the earlier success's completion time |
| Workflow.FirstRequestSettles | main.py:236-255 | a new record is never left pending: it ends `"completed"`, with a completion time, exactly when the external call produced text |
| Workflow.ProcessRequest | main.py:236-255 | the prompt's one response record, found or newly created, ends settled by the outcome; no other row of any table changes; if every record had the background job's shape before, every record has it after |

## Left out

- HTTP routes, HTML pages and the 404 mapping in `main.py` are plumbing around the services and are not modelled.
- The scheduling of the background job through FastAPI's `BackgroundTasks` is not modelled. `Workflow.ProcessRequest` runs the job as one sequential call.
- `gemini_client.py` is not part of this model. It wraps an external SDK, runs it in a thread executor and streams results. Its result is the `Outcome` parameter.
- Engine and session setup, SQLite and SQL execution are replaced by in-memory tables. Database exceptions are not modelled, including the path where creating the response record itself raises and nothing is updated.
- `Workflow.Outcome`: generated text is always a string. `gemini_client.py:30` returns the SDK's `response.text` unchecked, which may be None. Then the `"completed"` update writes NULL into the NOT NULL column `response_content` (database.py:63) and the commit raises. The except branch (main.py:250-255) then issues its `"error"` update on a session that has not been rolled back, so that update fails too and the record stays `pending`. This path is not modelled. `Workflow.FirstRequestSettles` holds only because `Generated` always carries a string.
- Concurrent requests are not modelled. The check-then-insert race in `create_gemini_response`, which could create two records for one prompt, cannot arise in a sequential model, and `Valid()` relies on that.
- Keys come from per-table counters that never reuse a value. SQLite can reuse the largest rowid after it is deleted; that reuse is not modelled.
- The ORM's identity map is not modelled. The methods return the rows as stored. The objects the ORM returns after commit may show stale relationship collections; that staleness is not modelled.
- `get_templates`, `get_template_by_id`, `get_prompts` and `get_prompt_by_id` are read-only queries. They appear only inside the operations that use them, as map lookups and `Store.SectionsOf`. The `created_at` listing order is not modelled.
- `parent_id` is stored but never validated by the source, and the model does not validate it either. Likewise a content row's section id is never checked against the template.
- The foreign key from a response to its prompt is not enforced by the source, so `Valid()` does not require a response's prompt to exist.
- Store.SectionsOf: the section relationship is loaded without an ORDER BY. The model takes insertion (rowid) order. That choice matters only for sections with equal order index.
- Timestamps are clock readings passed in. `update_template` assigns `updated_at` itself (services.py:68), so the `onupdate` default at database.py:16 does not apply and that assignment is the only write.
- Column length limits such as `String(255)` are not enforced by SQLite and are not modelled.
- Pydantic request validation (`models.py`) is used only as a list of fields.
