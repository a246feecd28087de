# FlowWriter backend: project state machine

This project models the backend of FlowWriter, a server that turns a short story idea into a
writing project. The project holds characters, a synopsis and per-chapter outlines. On request,
the server expands one chapter's outline into prose. Three parts are modelled:

- **Document model** (`Story`, story.dfy). Characters, chapters with an `outline | completed`
  status, and projects. Each has the defaults its fields take when a constructor omits them.
- **Generation stages** (`StoryGenerator`, story_generator.dfy). The initial structure stage
  returns characters and a synopsis. Neither of its failures is caught. The outline stage
  falls back to placeholders when there is no synopsis, or when the call or the parse fails.
  Building those placeholders raises when the chapter count is null.
  The content stage passes its result through. The character roster is rendered for the
  content prompt.
- **Request handlers and the store** (`Backend`, main.dfy). A `ProjectStore` class holds the
  project documents in a `map` keyed by id. Its `CreateProject` method runs the two stages,
  assembles chapters in a loop and saves. Its `GenerateChapter` method loads a project, finds
  the chapter, calls the content stage, updates that one chapter and saves. Each method is
  proved against a pure function (`CreateOutcome`, `GenerateChapterOutcome`). The lemmas
  state what the handlers promise about those functions.

Outside effects are parameters:

- The completion service is a function `Completer` from `Request` to `Outcome<string>`
  (gateway.dfy). A request is a prompt template together with its filled-in values, a system
  prompt and an output format.
- `json.loads` is a `Loader<T>`: a function from text to an outcome of a record with optional
  fields.
- The fresh `uuid4` id is the `projectId` argument.

"Makes no model call" is stated as "the result does not depend on the completion service".

In Dafny, `str(n)` and `"\n".join` are `Text.Decimal` and `Text.Join` (text.dfy). The source
never splits a string. `Text.Split` is there only to read a join back, in `Text.SplitJoin` and
`StoryGenerator.RosterOneLinePerCharacter`. `Outcomes` (outcomes.dfy) holds `Option` and
`Outcome`.

Where the code's comments, or what the code appears to intend, differ from what it does, the
model follows what it does:

- `create_project` returns the project it built in memory, not a re-read copy
  (backend/main.py:92-93). Reading a document back is exact here, so the two are the same
  value (`SaveThenLookup`).
- The comment at backend/main.py:38 says 5 chapters by default, which is the default of
  `generate_chapter_outlines` itself (backend/services/story_generator.py:41). The request
  field's default at backend/main.py:39 is 3, and that is the one that applies.
- `num_chapters` is `Optional[int]`, so a JSON `null` passes the request layer
  (backend/main.py:39). The outline stage then formats the prompt with `None`. Where it must
  build placeholders, `range(None)` raises. The `except` at backend/main.py:64-67 then falls
  back to no entries, which gives the single placeholder chapter
  (`CreateWithNullCountFallsBack`).
- `StoryProject` has no writing-style field (backend/models/story.py:17-22). Also, the
  chapter-content prompt template has no slot for a writing style, so the style never changes
  the request (`GenerateChapterContent`).
- The comment at backend/main.py:65 says the outlines are empty when the outline step fails.
  For a numeric count, though, a failed outline call or parse gives `n` placeholder outlines
  that embed the error (backend/services/story_generator.py:63-66) and raises nothing
  (`CreateSurvivesOutlineFailure`). Only the null count reaches the empty fallback.
- Listing, replacing and deleting projects do not appear in backend/main.py (line 96 only
  mentions that the GET and PUT handlers exist). They are not part of this model.

## Model

| member | source | states |
|---|---|---|
| `Text.Decimal` | backend/services/story_generator.py:47 | `str(n)` is a non-empty string of digits with no leading zero |
| `Text.DecimalRoundTrip` | backend/services/story_generator.py:47 | reading the digits of `str(n)` back gives `n` |
| `Text.DecimalInjective` | backend/main.py:74 | different chapter numbers print differently |
| `Text.Join` | backend/services/story_generator.py:24 | no parts join to ""; otherwise the join begins with the first part |
| `Text.SplitJoin` | backend/services/story_generator.py:24 | splitting a newline join gives back the lines, when no line holds a newline |
| `Story.StatusName` | backend/models/story.py:15 | a status is stored as "outline" or "completed" and nothing else |
| `Story.ParseStatus` | backend/main.py:26 | reading a stored document back accepts exactly the two status texts "outline" and "completed" (under the two-value status) |
| `Story.StatusRoundTrip` | backend/models/story.py:15 | a stored status reads back as itself, and only its own name reads as it |
| `Story.NewCharacter` | backend/models/story.py:5-8 | each omitted field of a Character takes its default: name "未命名", role "主角", description "待补充"; given fields are kept |
| `Story.NewCharacterFromAllFields` | backend/models/story.py:5-8 | a Character built from all its own fields is that character |
| `Story.NewChapter` | backend/models/story.py:10-15 | id and title are required; outline and content default to "" and status to outline |
| `Story.NewProject` | backend/models/story.py:17-22 | id and initial idea are required; characters and chapters default to empty and synopsis to "" |
| `Story.Defaults` | backend/models/story.py:5-22 | the concrete default values of the three models, all at once |
| `StoryGenerator.ChapterTitle` | backend/services/story_generator.py:47 | the generic title "第 n 章" carries the numeral of n between its fixed ends |
| `StoryGenerator.ChapterTitleInjective` | backend/services/story_generator.py:47 | two chapter numbers never share a generic title |
| `StoryGenerator.StructureRequest` | backend/services/story_generator.py:10-17 | no contract: the initial-generation template filled with the idea, the JSON system prompt, JSON-object output; `GenerateInitialStructure` states what is done with it |
| `StoryGenerator.GenerateInitialStructure` | backend/services/story_generator.py:8-18 | a failed call comes back as that failure; otherwise the result is the parse of the reply, failure included; nothing is caught |
| `StoryGenerator.RosterLine` | backend/services/story_generator.py:24 | no contract: the f-string `"- {name} ({role}): {description}"`; specified by `RosterLines` and `RosterLineIsSingleLine` |
| `StoryGenerator.RosterLines` | backend/services/story_generator.py:24 | one line per character, in input order, line i being "- name (role): description" for character i |
| `StoryGenerator.RosterLineIsSingleLine` | backend/services/story_generator.py:24 | a roster line has no newline when the character's fields have none |
| `StoryGenerator.Roster` | backend/services/story_generator.py:24 | the roster is "" exactly when there are no characters, and otherwise begins with the first character's line |
| `StoryGenerator.RosterOneLinePerCharacter` | backend/services/story_generator.py:24 | when no field holds a newline: no characters give "", and otherwise splitting the roster on newlines gives exactly the per-character lines in order |
| `StoryGenerator.ContentRequest` | backend/services/story_generator.py:26-37 | no contract: the chapter-content template filled with synopsis, roster and outline, the novelist system prompt, plain-text output; `GenerateChapterContent` states what is done with it |
| `StoryGenerator.GenerateChapterContent` | backend/services/story_generator.py:21-39 | the prose is the service's answer to the content prompt (synopsis, roster, outline; novelist system prompt; plain text), failure passed through; the writing style has no effect |
| `StoryGenerator.Placeholders` | backend/services/story_generator.py:47 | max(n, 0) entries; entry i is titled "第 {i+1} 章" and carries the given outline text |
| `StoryGenerator.PlaceholderTitlesDistinct` | backend/services/story_generator.py:66 | no two placeholder entries share a title |
| `StoryGenerator.OutlinesRequest` | backend/services/story_generator.py:49-60 | no contract: the outline template filled with synopsis and count, the JSON system prompt, JSON-object output; `OutlinesReply` states what is done with it |
| `StoryGenerator.OutlinesReply` | backend/services/story_generator.py:54-61 | the guarded block fails with the call's error, or else yields the parse of the reply |
| `StoryGenerator.PlaceholdersFor` | backend/services/story_generator.py:47 | `range(None)` raises its TypeError; for a number, the placeholder list |
| `StoryGenerator.GenerateChapterOutlines` | backend/services/story_generator.py:41-66 | the stage raises exactly when the count is null and it must build placeholders (no synopsis, or a failed call or parse), and then with the TypeError of `range(None)`; otherwise it returns a list |
| `StoryGenerator.EmptySynopsisMakesNoCall` | backend/services/story_generator.py:45-47 | with an empty synopsis the result is the same for every completion service and parser; for a number n it is exactly n placeholders asking for the synopsis first |
| `StoryGenerator.FailedOutlineStageEmbedsError` | backend/services/story_generator.py:63-66 | for a number n, a failed call or parse gives exactly n entries, entry i titled "第 {i+1} 章", each outline being "AI生成概述失败: " followed by the error |
| `StoryGenerator.SuccessfulOutlineStagePassesListThrough` | backend/services/story_generator.py:61-62 | on success the result is the parsed "outlines" list unchanged, or [] when the key is absent, whatever the count, null included |
| `StoryGenerator.OutlineCountNotForced` | backend/services/story_generator.py:62 | the requested count is not enforced: a reply without "outlines" gives no entries although three were asked for |
| `Backend.NewIdeaInput` | backend/main.py:36-39 | a left-out `num_chapters` defaults to 3, a null one stays null, a number is kept |
| `Backend.ValidIdeaInput` | backend/main.py:39 | no contract: a numeric count must lie in 1..20 and a null one is not checked; the precondition of `ProjectStore.CreateProject` |
| `Backend.Lookup` | backend/main.py:21-26 | a stored id reads back as its document; any other id answers 404 "Project not found" |
| `Backend.SaveThenLookup` | backend/main.py:21-33 | after a save, the saved id reads back as the saved project and every other id reads as before |
| `Backend.CharactersFrom` | backend/main.py:56 | one Character per parsed entry, in order, each built with the field defaults; none when the key is absent |
| `Backend.ChapterFromOutline` | backend/main.py:72-77 | entry i becomes chapter i+1, an outline with empty content, titled by the entry or "第 {i+1} 章", outlined by the entry or "AI生成失败，请手动填写。" |
| `Backend.AssembleChapters` | backend/main.py:70-77 | the loop yields one chapter per outline entry, in order, chapter i made from entry i |
| `Backend.PlaceholderChapter` | backend/main.py:80-81 | the fallback chapter is id 1, "第一章", "请填写本章概述。", empty content, outline status |
| `Backend.ChaptersFor` | backend/main.py:79-81 | the placeholder chapter is added exactly when there are no entries; otherwise the chapters are the assembled ones |
| `Backend.AssembleProject` | backend/main.py:84-90 | the project carries the fresh id, the idea, the parsed characters, the synopsis or "" and the chapters for the entries |
| `Backend.OutlinesOrEmpty` | backend/main.py:59-67 | the entries to assemble are the outline stage's list, or none when the stage raises |
| `Backend.CreateOutcome` | backend/main.py:42-93 | creation answers either 500 or a fresh project: the given id and idea, at least one chapter, ids 1..n, all outlines with empty content |
| `Backend.CreateOutcomeShape` | backend/main.py:42-93 | creation fails with 500 exactly when the initial stage fails, carrying its error; otherwise the project has the given id and idea, the parsed characters, synopsis defaulting to "", at least one chapter, ids 1..n, all outlines with empty content |
| `Backend.NoOutlinesGivePlaceholder` | backend/main.py:79-81 | no outline entries give exactly one chapter: id 1, "第一章", "请填写本章概述。", empty content, outline status |
| `Backend.ChaptersFollowOutlines` | backend/main.py:70-77 | with entries there is one chapter per entry, in order, with id i+1 and the entry's title and outline or their defaults |
| `Backend.CreateSurvivesOutlineFailure` | backend/main.py:58-81 | for a numeric count n, a failing outline call or parse does not fail creation: exactly n chapters, chapter i+1 titled "第 {i+1} 章", each outline embedding the error |
| `Backend.CreateWithoutSynopsis` | backend/main.py:55-81 | with no synopsis and a numeric count n, creation gives synopsis "" and exactly n chapters asking for the synopsis first |
| `Backend.CreateWithNullCountFallsBack` | backend/main.py:58-81 | with a null count and no synopsis, or a failed outline call or parse, creation still succeeds, with exactly the one placeholder chapter and the structure's characters and synopsis |
| `Backend.FindChapter` | backend/main.py:106 | the index of the first chapter with the id, or none exactly when no chapter has it |
| `Backend.ContentCall` | backend/main.py:110-116 | the call as written fails with Python's missing-argument TypeError; with a style it is the service's answer for the project's synopsis and characters and the chapter's outline |
| `Backend.CompleteChapter` | backend/main.py:120-121 | chapter k gets the text and status completed, keeping its id, title and outline; every other chapter and project field is unchanged |
| `Backend.GenerateChapterOutcome` | backend/main.py:103-123 | generation answers 404 or 500, or else a project of a stored id, with that project's id and as many chapters as it has |
| `Backend.GenerateChapterNotFound` | backend/main.py:103-108 | 404 "Project not found" for a missing project, 404 "Chapter not found" for a missing chapter, and a 404 answer only in those two cases |
| `Backend.GenerateChapterUpdatesOneChapter` | backend/main.py:103-123 | success exactly when the content call succeeds; a failed call answers 500 with its error; on success only the first chapter with the id changes, getting the text and status completed |
| `Backend.GenerateChapterAsWrittenAlwaysFails` | backend/main.py:110-118 | as the handler is written it never succeeds; when the project and chapter exist it answers 500 with the TypeError text |
| `Backend.GenerateChapterWithStyleCompletes` | backend/main.py:110-122 | once a style is passed, a found chapter whose prose the service returns is completed with that prose |
| `Backend.RegenerateCompletedChapter` | backend/main.py:120-121 | regenerating a completed chapter keeps it completed and replaces its content; the first generation leaves no trace |
| `Backend.CourierScenario` | backend/main.py:42-123 | a worked example with two characters and three outline entries: the project gets exactly those three outline chapters; generating chapter 2 with a style completes it alone; the call as written answers 500 |
| `Backend.ProjectStore.constructor` | backend/main.py:17-18 | the store opens with the documents an earlier run saved, none on a first start, each filed under its own id |
| `Backend.ProjectStore.GetProject` | backend/main.py:21-26 | returns the stored document exactly for a stored id, and 404 "Project not found" otherwise |
| `Backend.ProjectStore.SaveProject` | backend/main.py:29-33 | writes the document under its own id, replacing any earlier one, and changes nothing else; every document stays filed under its own id |
| `Backend.ProjectStore.CreateProject` | backend/main.py:42-93 | the answer is `CreateOutcome`; on success the new project is stored under the fresh id; on failure the store is unchanged; every document stays filed under its own id |
| `Backend.ProjectStore.GenerateChapter` | backend/main.py:103-123 | the answer is `GenerateChapterOutcome` on the old store; on success the updated project replaces the stored one; on any failure the store is unchanged |

## Findings

| source | as written | input that shows it | evidently intended | confidence | as-written member | corrected member |
|---|---|---|---|---|---|---|
| backend/main.py:112-116 | `generate_chapter_content` is called without its required `writing_style` parameter, so Python raises TypeError every time; the `except` turns it into HTTP 500, and no chapter can ever be generated | any existing project and chapter, e.g. chapter 2 of `CourierScenario`: the answer is 500 "LLM service failed: generate_chapter_content() missing 1 required positional argument: 'writing_style'" | pass a writing style, so that a found chapter whose prose the service returns becomes completed with that prose | high, not executed | `Backend.GenerateChapterAsWrittenAlwaysFails` | `Backend.GenerateChapterWithStyleCompletes` |

`ProjectStore.GenerateChapter` and `GenerateChapterOutcome` take `writingStyle: Option<string>`.
`None` is the call as written and `Some(style)` is the corrected call. The project stores no
writing style, so the corrected call takes the style as an argument.

## Left out

- backend/core/llm.py (the OpenAI client, credentials from environment variables, model
  selection, the network call) is not part of this model. It is replaced by the `Completer`
  function, which returns the reply or the text of what the call raised.
- The wording of the prompt templates in backend/core/prompts.py is not part of this model. A
  prompt is the template's name together with the values it is filled with.
- Temperatures (0.7 by default, 0.8 for prose) are omitted. They only affect sampling and do
  not change any branch.
- `json.loads`, `model_dump_json` and `parse_file` are not modelled. Parsed replies are records
  with optional fields. Reading a stored file back is assumed to give exactly what was written.
- An initial-structure reply of the wrong shape is not represented. A list where an object is
  expected fails at `structure.get` (backend/main.py:55). A character entry that is not an
  object, or that has a field that is not a string, fails at `Character(**c)` (backend/main.py:56).
  Both are outside any `try`, which gives an unhandled server error.
- A synopsis that is not a string is not represented (the parsed synopsis is a string or
  absent). A non-empty one, such as `5`, passes backend/main.py:55 and skips the empty-synopsis
  branch (backend/services/story_generator.py:45). The outline request is made
  (backend/services/story_generator.py:49-60) and the chapters are assembled. Only then does
  `StoryProject(...)` validation fail, at backend/main.py:84-90, outside any `try`, which gives
  an unhandled server error.
- An outline reply that parses to a list raises at `result.get` inside the `try` at
  backend/services/story_generator.py:54-62. It is covered as a `Failure` of the outline
  `Loader`, so it gives the n error placeholders.
- An `"outlines"` value of the wrong shape is not represented: the parsed list is a list of
  entries or absent. `result.get("outlines", [])` (backend/services/story_generator.py:62)
  returns it unchanged. A `null` or a number then fails at `enumerate` (backend/main.py:71). A
  non-empty object, or an entry that is not an object, fails at `.get` (backend/main.py:74).
  All of these are outside any `try`. An empty object or an empty string gives nothing to
  enumerate and so acts like an empty list, the model's `OutlinesDoc(Some([]))`. It gives the
  single placeholder chapter (backend/main.py:80-81).
- An entry whose `"title"` or `"outline"` is `null` or not a string is not represented. It
  passes `.get`, then fails `Chapter` validation (backend/main.py:72-77), outside any `try`.
- `uuid.uuid4()` is not modelled. The fresh id is the `projectId` argument, and its
  uniqueness is not modelled. A save simply overwrites.
- `Chapter.status` is a free `str` in the source. The model restricts it to the two values
  the code writes.
- A JSON `null` synopsis is not represented: the parsed synopsis is a string or absent. In
  Python, `structure.get("synopsis", "")` gives `None`, and the outline stage treats it as
  empty. Then `StoryProject(synopsis=None)` fails validation at backend/main.py:84-90, outside
  any `try`, which gives an unhandled server error.
- The request layer checks the bound `0 < num_chapters <= 20` on a numeric count, and no
  request outside it reaches the handler. The bound is a precondition of
  `ProjectStore.CreateProject`. A null count skips the check and is modelled.
- The default `num_chapters = 5` of `generate_chapter_outlines`
  (backend/services/story_generator.py:41) is not modelled: `StoryGenerator.GenerateChapterOutlines`
  always takes the count, as `create_project` always passes it (backend/main.py:60-63).
- A missing `OPENAI_API_KEY` is not modelled. It raises when backend/core/llm.py is imported,
  so the server does not start, and it never reaches a handler as a failed call.
- Logging (`print`), the `__main__` demo blocks and frontend/script.js are left out.
- Races between concurrent requests (two load-modify-save cycles on one project) are left
  out. Each method runs alone.
- The store's file-system layout is left out: path building and a project id that is not a
  plain file name.
