/** The backend's project state machine: a store of projects keyed by id, project
    creation (initial structure, then outlines, then chapter assembly, then save) and
    chapter generation (load, find the chapter, generate its prose, update it, save).
    The HTTP layer becomes a Response: the project, or the status and detail of the
    HTTPException the handler raises. */
module Backend {
  import opened Outcomes
  import opened Story
  import opened Gateway
  import opened StoryGenerator

  datatype Response<T> = Ok(value: T) | HttpError(status: int, detail: string)

  /** The request body of project creation. `num_chapters` is optional: None is a JSON
      null, which the field accepts and passes on unchecked. */
  datatype IdeaInput = IdeaInput(idea: string, numChapters: Option<int>)

  /** The `num_chapters` member of a request body as sent: left out, null, or a number. */
  datatype CountField = Omitted | Null | Given(n: int)

  datatype GenerateChapterInput = GenerateChapterInput(projectId: string, chapterId: int)

  const DEFAULT_NUM_CHAPTERS := 3
  const MAX_NUM_CHAPTERS := 20

  const PROJECT_NOT_FOUND := "Project not found"
  const CHAPTER_NOT_FOUND := "Chapter not found"
  const INITIAL_FAILED_PREFIX := "LLM service failed during initial generation: "
  const CONTENT_FAILED_PREFIX := "LLM service failed: "
  const OUTLINE_MISSING := "AI生成失败，请手动填写。"
  const PLACEHOLDER_TITLE := "第一章"
  const PLACEHOLDER_OUTLINE := "请填写本章概述。"

  /** The text of the TypeError Python raises for the content call as it is written,
      which leaves out the callee's required `writing_style` parameter. */
  const MISSING_WRITING_STYLE := "generate_chapter_content() missing 1 required positional argument: 'writing_style'"

  /** Parsing the body: a left-out count defaults to 3, a null stays null. */
  function NewIdeaInput(idea: string, field: CountField): (input: IdeaInput)
    ensures input.idea == idea
    ensures field.Omitted? ==> input.numChapters == Some(3)
    ensures field.Null? ==> input.numChapters == None
    ensures field.Given? ==> input.numChapters == Some(field.n)
  {
    match field
    case Omitted => IdeaInput(idea, Some(DEFAULT_NUM_CHAPTERS))
    case Null => IdeaInput(idea, None)
    case Given(n) => IdeaInput(idea, Some(n))
  }

  /** The field constraint `0 < num_chapters <= 20`, which a null value is not checked
      against; requests outside it never reach the handler. */
  predicate ValidIdeaInput(input: IdeaInput) {
    input.numChapters.Some? ==> 0 < input.numChapters.value <= MAX_NUM_CHAPTERS
  }

  // ---------------------------------------------------------------- the store

  /** Reading a project back: the document saved under that id, or 404. */
  function Lookup(projects: map<string, StoryProject>, projectId: string): (r: Response<StoryProject>)
    ensures r.Ok? <==> projectId in projects
    ensures r.Ok? ==> r.value == projects[projectId]
    ensures !r.Ok? ==> r == HttpError(404, PROJECT_NOT_FOUND)
  {
    if projectId in projects then Ok(projects[projectId]) else HttpError(404, PROJECT_NOT_FOUND)
  }

  /** Reading back what was just saved gives it back; every other id reads as before. */
  lemma SaveThenLookup(projects: map<string, StoryProject>, p: StoryProject, other: string)
    ensures Lookup(projects[p.id := p], p.id) == Ok(p)
    ensures other != p.id ==> Lookup(projects[p.id := p], other) == Lookup(projects, other)
  {
  }

  // ---------------------------------------------------------------- creation

  /** `[Character(**c) for c in structure.get("characters", [])]`. */
  function CharactersFrom(structure: StructureDoc): (cs: seq<Character>)
    ensures |cs| == |structure.characters.GetOr([])|
    ensures forall i :: 0 <= i < |cs| ==> cs[i] == NewCharacter(structure.characters.GetOr([])[i])
  {
    var docs := structure.characters.GetOr([]);
    seq(|docs|, i requires 0 <= i < |docs| => NewCharacter(docs[i]))
  }

  /** The chapter made from outline entry i (0-based). */
  function ChapterFromOutline(i: nat, o: OutlineFields): (ch: Chapter)
    ensures ch.id == i + 1
    ensures ch.title == o.title.GetOr(ChapterTitle(i + 1))
    ensures ch.outline == o.outline.GetOr(OUTLINE_MISSING)
    ensures ch.content == "" && ch.status == Outline
  {
    NewChapter(i + 1, o.title.GetOr(ChapterTitle(i + 1)), Some(o.outline.GetOr(OUTLINE_MISSING)), None, Some(Outline))
  }

  /** What the assembly loop has built after the given entries: one chapter per entry,
      appended in order. */
  function AssembleChapters(outlines: seq<OutlineFields>): (chapters: seq<Chapter>)
    ensures |chapters| == |outlines|
    ensures forall i :: 0 <= i < |outlines| ==> chapters[i] == ChapterFromOutline(i, outlines[i])
  {
    if |outlines| == 0 then []
    else AssembleChapters(outlines[..|outlines| - 1]) + [ChapterFromOutline(|outlines| - 1, outlines[|outlines| - 1])]
  }

  /** The chapter a project gets when no outline entry is assembled: id 1, "第一章",
      an outline asking to be filled in, no content, outline status. */
  function PlaceholderChapter(): (ch: Chapter)
    ensures ch == Chapter(1, "第一章", "请填写本章概述。", "", Outline)
  {
    NewChapter(1, PLACEHOLDER_TITLE, Some(PLACEHOLDER_OUTLINE), None, Some(Outline))
  }

  /** The chapters of a new project: the assembled ones, or the single placeholder
      exactly when there are no entries. */
  function ChaptersFor(outlines: seq<OutlineFields>): (chapters: seq<Chapter>)
    ensures |outlines| == 0 ==> chapters == [PlaceholderChapter()]
    ensures |outlines| > 0 ==> chapters == AssembleChapters(outlines)
  {
    var assembled := AssembleChapters(outlines);
    if |assembled| == 0 then [PlaceholderChapter()] else assembled
  }

  /** `StoryProject(...)` from the fresh id, the idea, the parsed structure and the
      outline entries. */
  function AssembleProject(projectId: string, idea: string, structure: StructureDoc, outlines: seq<OutlineFields>): (p: StoryProject)
    ensures p.id == projectId && p.initialIdea == idea
    ensures p.characters == CharactersFrom(structure)
    ensures p.synopsis == structure.synopsis.GetOr("")
    ensures p.chapters == ChaptersFor(outlines)
  {
    NewProject(projectId, idea, Some(CharactersFrom(structure)), Some(structure.synopsis.GetOr("")), Some(ChaptersFor(outlines)))
  }

  /** Chapter ids are 1, 2, …, n in order. */
  predicate ContiguousIds(chapters: seq<Chapter>) {
    forall i :: 0 <= i < |chapters| ==> chapters[i].id == i + 1
  }

  /** What every freshly created project looks like. */
  predicate FreshProject(p: StoryProject, projectId: string, idea: string) {
    && p.id == projectId
    && p.initialIdea == idea
    && |p.chapters| >= 1
    && ContiguousIds(p.chapters)
    && forall i :: 0 <= i < |p.chapters| ==> p.chapters[i].status == Outline && p.chapters[i].content == ""
  }

  /** The entries creation assembles: what the outline stage returns, or none when it
      raises. */
  function OutlinesOrEmpty(generated: Outcome<seq<OutlineFields>>): (outlines: seq<OutlineFields>)
    ensures generated.Success? ==> outlines == generated.value
    ensures generated.Failure? ==> outlines == []
  {
    match generated
    case Success(o) => o
    case Failure(_) => []
  }

  /** What project creation answers, given the fresh id and the oracles: 500 or a
      fresh project. */
  function CreateOutcome(input: IdeaInput, projectId: string, complete: Completer,
                         loadStructure: Loader<StructureDoc>, loadOutlines: Loader<OutlinesDoc>): (r: Response<StoryProject>)
    ensures r.HttpError? ==> r.status == 500
    ensures r.Ok? ==> FreshProject(r.value, projectId, input.idea)
  {
    match GenerateInitialStructure(input.idea, complete, loadStructure)
    case Failure(m) => HttpError(500, INITIAL_FAILED_PREFIX + m)
    case Success(structure) =>
      var synopsis := structure.synopsis.GetOr("");
      Ok(AssembleProject(projectId, input.idea, structure,
                         OutlinesOrEmpty(GenerateChapterOutlines(synopsis, input.numChapters, complete, loadOutlines))))
  }

  /** Creation fails exactly when the initial-structure stage fails (HTTP 500 carrying
      its error); otherwise the project has the given id and idea, the structure's
      characters and synopsis ("" when absent), at least one chapter, ids 1..n, and
      every chapter is an outline without content. */
  lemma CreateOutcomeShape(input: IdeaInput, projectId: string, complete: Completer,
                           loadStructure: Loader<StructureDoc>, loadOutlines: Loader<OutlinesDoc>)
    ensures var s := GenerateInitialStructure(input.idea, complete, loadStructure);
      var r := CreateOutcome(input, projectId, complete, loadStructure, loadOutlines);
      && (r.Ok? <==> s.Success?)
      && (s.Failure? ==> r == HttpError(500, INITIAL_FAILED_PREFIX + s.msg))
      && (s.Success? ==>
            && FreshProject(r.value, projectId, input.idea)
            && r.value.synopsis == s.value.synopsis.GetOr("")
            && r.value.characters == CharactersFrom(s.value))
  {
  }

  /** No outline entries give the one placeholder chapter: id 1, "第一章", an outline
      asking to be filled in. This is also what the fallback to an empty outline list
      produces. */
  lemma NoOutlinesGivePlaceholder(projectId: string, idea: string, structure: StructureDoc)
    ensures AssembleProject(projectId, idea, structure, []).chapters ==
      [Chapter(1, "第一章", "请填写本章概述。", "", Outline)]
  {
  }

  /** Otherwise there is one chapter per entry, in order: chapter i+1 takes entry i's
      title and outline, or "第 {i+1} 章" and the failure text where they are missing. */
  lemma ChaptersFollowOutlines(projectId: string, idea: string, structure: StructureDoc, outlines: seq<OutlineFields>)
    requires |outlines| > 0
    ensures var chapters := AssembleProject(projectId, idea, structure, outlines).chapters;
      && |chapters| == |outlines|
      && forall i :: 0 <= i < |outlines| ==>
           && chapters[i].id == i + 1
           && chapters[i].title == outlines[i].title.GetOr(ChapterTitle(i + 1))
           && chapters[i].outline == outlines[i].outline.GetOr(OUTLINE_MISSING)
  {
  }

  /** A failing outline stage does not fail creation: the project gets exactly the
      requested number of chapters, chapter i+1 titled "第 {i+1} 章", each outline
      embedding the error. */
  lemma CreateSurvivesOutlineFailure(input: IdeaInput, projectId: string, complete: Completer,
                                     loadStructure: Loader<StructureDoc>, loadOutlines: Loader<OutlinesDoc>)
    requires ValidIdeaInput(input) && input.numChapters.Some?
    requires GenerateInitialStructure(input.idea, complete, loadStructure).Success?
    requires GenerateInitialStructure(input.idea, complete, loadStructure).value.synopsis.GetOr("") != ""
    requires OutlinesReply(GenerateInitialStructure(input.idea, complete, loadStructure).value.synopsis.GetOr(""),
                           input.numChapters, complete, loadOutlines).Failure?
    ensures var synopsis := GenerateInitialStructure(input.idea, complete, loadStructure).value.synopsis.GetOr("");
      var m := OutlinesReply(synopsis, input.numChapters, complete, loadOutlines).msg;
      var r := CreateOutcome(input, projectId, complete, loadStructure, loadOutlines);
      && r.Ok?
      && |r.value.chapters| == input.numChapters.value
      && forall i :: 0 <= i < input.numChapters.value ==>
           r.value.chapters[i] == Chapter(i + 1, ChapterTitle(i + 1), OUTLINE_FAILED_PREFIX + m, "", Outline)
  {
  }

  /** Without a synopsis the project gets exactly the requested number of chapters,
      each asking for the synopsis first, and no outline request is made. */
  lemma CreateWithoutSynopsis(input: IdeaInput, projectId: string, complete: Completer,
                              loadStructure: Loader<StructureDoc>, loadOutlines: Loader<OutlinesDoc>)
    requires ValidIdeaInput(input) && input.numChapters.Some?
    requires GenerateInitialStructure(input.idea, complete, loadStructure).Success?
    requires GenerateInitialStructure(input.idea, complete, loadStructure).value.synopsis.GetOr("") == ""
    ensures var r := CreateOutcome(input, projectId, complete, loadStructure, loadOutlines);
      && r.Ok?
      && r.value.synopsis == ""
      && |r.value.chapters| == input.numChapters.value
      && forall i :: 0 <= i < input.numChapters.value ==>
           r.value.chapters[i] == Chapter(i + 1, ChapterTitle(i + 1), FILL_IN_SYNOPSIS_FIRST, "", Outline)
  {
  }

  /** A null count reaches the outline stage unchecked. Where that stage has to build
      placeholders (no synopsis, or a failed call or parse), `range(None)` raises, the
      handler falls back to no entries, and the project gets the single placeholder
      chapter; its characters and synopsis are still the structure's. */
  lemma CreateWithNullCountFallsBack(input: IdeaInput, projectId: string, complete: Completer,
                                     loadStructure: Loader<StructureDoc>, loadOutlines: Loader<OutlinesDoc>)
    requires input.numChapters.None?
    requires GenerateInitialStructure(input.idea, complete, loadStructure).Success?
    requires var synopsis := GenerateInitialStructure(input.idea, complete, loadStructure).value.synopsis.GetOr("");
      synopsis == "" || OutlinesReply(synopsis, None, complete, loadOutlines).Failure?
    ensures var s := GenerateInitialStructure(input.idea, complete, loadStructure).value;
      var r := CreateOutcome(input, projectId, complete, loadStructure, loadOutlines);
      && r.Ok?
      && r.value.chapters == [Chapter(1, "第一章", "请填写本章概述。", "", Outline)]
      && r.value.synopsis == s.synopsis.GetOr("")
      && r.value.characters == CharactersFrom(s)
  {
  }

  // ---------------------------------------------------------------- chapter generation

  /** `next((c for c in chapters if c.id == chapterId), None)`: the first chapter with that id. */
  function FindChapter(chapters: seq<Chapter>, chapterId: int): (r: Option<nat>)
    ensures r.Some? ==> r.value < |chapters| && chapters[r.value].id == chapterId
    ensures r.Some? ==> forall j :: 0 <= j < r.value ==> chapters[j].id != chapterId
    ensures r.None? <==> forall j :: 0 <= j < |chapters| ==> chapters[j].id != chapterId
  {
    if |chapters| == 0 then None
    else if chapters[0].id == chapterId then Some(0)
    else match FindChapter(chapters[1..], chapterId)
      case None => None
      case Some(k) => Some(k + 1)
  }

  /** The content call of the handler. With no writing style it is the call as the
      handler writes it, which Python rejects before the service runs; with one, it is
      the service's answer for the project's synopsis and characters and the chapter's
      outline. */
  function ContentCall(p: StoryProject, ch: Chapter, writingStyle: Option<string>, complete: Completer): (r: Outcome<string>)
    ensures writingStyle.None? ==> r == Failure(MISSING_WRITING_STYLE)
    ensures writingStyle.Some? ==> r == complete(ContentRequest(p.synopsis, p.characters, ch.outline))
  {
    match writingStyle
    case None => Failure(MISSING_WRITING_STYLE)
    case Some(style) => GenerateChapterContent(p.synopsis, p.characters, ch.outline, style, complete)
  }

  /** Chapter k gets the text as its content and becomes completed; nothing else changes. */
  function CompleteChapter(p: StoryProject, k: nat, text: string): (q: StoryProject)
    requires k < |p.chapters|
    ensures q.id == p.id && q.initialIdea == p.initialIdea
    ensures q.characters == p.characters && q.synopsis == p.synopsis
    ensures |q.chapters| == |p.chapters|
    ensures q.chapters[k] == Chapter(p.chapters[k].id, p.chapters[k].title, p.chapters[k].outline, text, Completed)
    ensures forall j :: 0 <= j < |p.chapters| && j != k ==> q.chapters[j] == p.chapters[j]
  {
    p.(chapters := p.chapters[k := p.chapters[k].(content := text, status := Completed)])
  }

  /** What chapter generation answers, given the stored projects: 404 or 500, or the
      stored project with the same id and the same number of chapters. */
  function GenerateChapterOutcome(projects: map<string, StoryProject>, input: GenerateChapterInput,
                                  writingStyle: Option<string>, complete: Completer): (r: Response<StoryProject>)
    ensures r.HttpError? ==> r.status == 404 || r.status == 500
    ensures r.Ok? ==> && input.projectId in projects
                      && r.value.id == projects[input.projectId].id
                      && |r.value.chapters| == |projects[input.projectId].chapters|
  {
    match Lookup(projects, input.projectId)
    case HttpError(status, detail) => HttpError(status, detail)
    case Ok(p) =>
      match FindChapter(p.chapters, input.chapterId)
      case None => HttpError(404, CHAPTER_NOT_FOUND)
      case Some(k) =>
        match ContentCall(p, p.chapters[k], writingStyle, complete)
        case Failure(m) => HttpError(500, CONTENT_FAILED_PREFIX + m)
        case Success(text) => Ok(CompleteChapter(p, k, text))
  }

  predicate NoChapterWithId(chapters: seq<Chapter>, chapterId: int) {
    forall j :: 0 <= j < |chapters| ==> chapters[j].id != chapterId
  }

  /** Generation answers 404 exactly when the project or a chapter with that id is
      missing, naming which of the two. */
  lemma GenerateChapterNotFound(projects: map<string, StoryProject>, input: GenerateChapterInput,
                                writingStyle: Option<string>, complete: Completer)
    ensures var r := GenerateChapterOutcome(projects, input, writingStyle, complete);
      && (input.projectId !in projects ==> r == HttpError(404, PROJECT_NOT_FOUND))
      && (input.projectId in projects && NoChapterWithId(projects[input.projectId].chapters, input.chapterId) ==>
            r == HttpError(404, CHAPTER_NOT_FOUND))
      && (r.HttpError? && r.status == 404 <==>
            input.projectId !in projects || FindChapter(projects[input.projectId].chapters, input.chapterId).None?)
  {
  }

  /** Generation succeeds exactly when the project and the chapter exist and the content
      call returns text; then the first chapter with that id, and nothing else, is
      updated: it holds the text and is completed. When the content call fails, the
      answer is 500 carrying its error. */
  lemma GenerateChapterUpdatesOneChapter(projects: map<string, StoryProject>, input: GenerateChapterInput,
                                         writingStyle: Option<string>, complete: Completer)
    requires input.projectId in projects
    requires FindChapter(projects[input.projectId].chapters, input.chapterId).Some?
    ensures var p := projects[input.projectId];
      var k := FindChapter(p.chapters, input.chapterId).value;
      var c := ContentCall(p, p.chapters[k], writingStyle, complete);
      var r := GenerateChapterOutcome(projects, input, writingStyle, complete);
      && (r.Ok? <==> c.Success?)
      && (c.Failure? ==> r == HttpError(500, CONTENT_FAILED_PREFIX + c.msg))
      && (c.Success? ==>
            && r.value.id == p.id && r.value.initialIdea == p.initialIdea
            && r.value.characters == p.characters && r.value.synopsis == p.synopsis
            && |r.value.chapters| == |p.chapters|
            && r.value.chapters[k].id == input.chapterId
            && r.value.chapters[k].content == c.value && r.value.chapters[k].status == Completed
            && r.value.chapters[k].title == p.chapters[k].title && r.value.chapters[k].outline == p.chapters[k].outline
            && (forall j :: 0 <= j < |p.chapters| && j != k ==> r.value.chapters[j] == p.chapters[j]))
  {
  }

  /** As the handler is written, generation never succeeds: whatever the store holds and
      whatever the completion service would answer, it fails, and with 500 carrying the
      TypeError's text whenever the project and the chapter exist. */
  lemma GenerateChapterAsWrittenAlwaysFails(projects: map<string, StoryProject>, input: GenerateChapterInput, complete: Completer)
    ensures var r := GenerateChapterOutcome(projects, input, None, complete);
      && !r.Ok?
      && (input.projectId in projects && FindChapter(projects[input.projectId].chapters, input.chapterId).Some? ==>
            r == HttpError(500, CONTENT_FAILED_PREFIX + MISSING_WRITING_STYLE))
  {
  }

  /** With a writing style passed, a found chapter whose prose the service returns is
      completed with that prose, whatever the style. */
  lemma GenerateChapterWithStyleCompletes(projects: map<string, StoryProject>, input: GenerateChapterInput,
                                          style: string, complete: Completer)
    requires input.projectId in projects
    requires FindChapter(projects[input.projectId].chapters, input.chapterId).Some?
    ensures var p := projects[input.projectId];
      var k := FindChapter(p.chapters, input.chapterId).value;
      var c := complete(ContentRequest(p.synopsis, p.characters, p.chapters[k].outline));
      var r := GenerateChapterOutcome(projects, input, Some(style), complete);
      && (r.Ok? <==> c.Success?)
      && (c.Success? ==> r.value == CompleteChapter(p, k, c.value))
  {
  }

  /** Regenerating a completed chapter keeps it completed and replaces its content;
      generating the same text twice is the same as once. */
  lemma RegenerateCompletedChapter(p: StoryProject, k: nat, first: string, second: string)
    requires k < |p.chapters|
    ensures var q := CompleteChapter(CompleteChapter(p, k, first), k, second);
      q == CompleteChapter(p, k, second) && q.chapters[k].status == Completed && q.chapters[k].content == second
  {
  }

  /** A worked example: an idea, a structure with two characters and a synopsis, three
      outline entries. The project gets three outline chapters; generating chapter 2
      with a style completes it alone, while the call as written answers 500. */
  lemma CourierScenario(projectId: string, complete: Completer,
                        loadStructure: Loader<StructureDoc>, loadOutlines: Loader<OutlinesDoc>)
    requires forall req :: complete(req) == Success("text")
    requires forall text :: loadStructure(text) == Success(StructureDoc(
      Some([CharacterFields(Some("A"), Some("主角"), Some("courier")), CharacterFields(Some("B"), None, None)]),
      Some("a courier becomes a CEO")))
    requires forall text :: loadOutlines(text) == Success(OutlinesDoc(Some(
      [OutlineFields(Some("one"), Some("o1")), OutlineFields(Some("two"), Some("o2")), OutlineFields(Some("three"), None)])))
    ensures var created := CreateOutcome(IdeaInput("a courier becomes a CEO", Some(3)), projectId, complete, loadStructure, loadOutlines);
      && created.Ok?
      && created.value.characters == [Character("A", "主角", "courier"), Character("B", "主角", "待补充")]
      && created.value.chapters == [Chapter(1, "one", "o1", "", Outline), Chapter(2, "two", "o2", "", Outline),
                                    Chapter(3, "three", OUTLINE_MISSING, "", Outline)]
      && var projects := map[projectId := created.value];
      && GenerateChapterOutcome(projects, GenerateChapterInput(projectId, 2), Some("plain"), complete) ==
           Ok(created.value.(chapters := [created.value.chapters[0], Chapter(2, "two", "o2", "text", Completed),
                                          created.value.chapters[2]]))
      && GenerateChapterOutcome(projects, GenerateChapterInput(projectId, 2), None, complete) ==
           HttpError(500, CONTENT_FAILED_PREFIX + MISSING_WRITING_STYLE)
  {
    var structure := loadStructure(complete(StructureRequest("a courier becomes a CEO")).value).value;
    var entries := [OutlineFields(Some("one"), Some("o1")), OutlineFields(Some("two"), Some("o2")), OutlineFields(Some("three"), None)];
    assert GenerateChapterOutlines("a courier becomes a CEO", Some(3), complete, loadOutlines) == Success(entries);
    var chapters := [Chapter(1, "one", "o1", "", Outline), Chapter(2, "two", "o2", "", Outline),
                     Chapter(3, "three", OUTLINE_MISSING, "", Outline)];
    assert AssembleChapters(entries) == chapters;
    var created := CreateOutcome(IdeaInput("a courier becomes a CEO", Some(3)), projectId, complete, loadStructure, loadOutlines);
    assert created == Ok(AssembleProject(projectId, "a courier becomes a CEO", structure, entries));
    assert created.value.chapters == chapters;
    assert FindChapter(chapters, 2) == Some(1);
    var p := created.value;
    var projects := map[projectId := p];
    var input := GenerateChapterInput(projectId, 2);
    assert Lookup(projects, projectId) == Ok(p);
    assert ContentCall(p, p.chapters[1], Some("plain"), complete) == Success("text");
    var q := CompleteChapter(p, 1, "text");
    assert q.chapters == [p.chapters[0], Chapter(2, "two", "o2", "text", Completed), p.chapters[2]];
    assert GenerateChapterOutcome(projects, input, Some("plain"), complete) == Ok(q);
    assert q == p.(chapters := [p.chapters[0], Chapter(2, "two", "o2", "text", Completed), p.chapters[2]]);
  }

  // ---------------------------------------------------------------- the store object

  /** The directory of project documents, one per id. Reading a document back gives
      exactly what was written. */
  class ProjectStore {
    var projects: map<string, StoryProject>

    /** Every document is filed under its own project's id. */
    ghost predicate Valid()
      reads this
    {
      forall id :: id in projects ==> projects[id].id == id
    }

    /** Opens the directory: the documents an earlier run saved survive (none on a
        first start), each filed under its own id. */
    constructor (existing: map<string, StoryProject>)
      requires forall id :: id in existing ==> existing[id].id == id
      ensures Valid() && projects == existing
    {
      projects := existing;
    }

    method GetProject(projectId: string) returns (r: Response<StoryProject>)
      ensures r.Ok? <==> projectId in projects
      ensures r.Ok? ==> r.value == projects[projectId]
      ensures !r.Ok? ==> r == HttpError(404, PROJECT_NOT_FOUND)
    {
      if projectId !in projects {
        r := HttpError(404, PROJECT_NOT_FOUND);
        return;
      }
      r := Ok(projects[projectId]);
    }

    /** Writes the document under its own id, replacing any earlier one. */
    method SaveProject(project: StoryProject)
      requires Valid()
      modifies this
      ensures Valid()
      ensures projects == old(projects)[project.id := project]
    {
      projects := projects[project.id := project];
    }

    /** Creates a project under the fresh id `projectId` (the caller's uuid4). On failure
        nothing is saved; on success the project is saved and returned as built. */
    method CreateProject(input: IdeaInput, projectId: string, complete: Completer,
                         loadStructure: Loader<StructureDoc>, loadOutlines: Loader<OutlinesDoc>)
      returns (r: Response<StoryProject>)
      requires Valid()
      requires ValidIdeaInput(input)
      modifies this
      ensures Valid()
      ensures r == CreateOutcome(input, projectId, complete, loadStructure, loadOutlines)
      ensures r.Ok? ==> projects == old(projects)[projectId := r.value]
      ensures !r.Ok? ==> projects == old(projects)
    {
      var structure := GenerateInitialStructure(input.idea, complete, loadStructure);
      if structure.Failure? {
        r := HttpError(500, INITIAL_FAILED_PREFIX + structure.msg);
        return;
      }
      var synopsis := structure.value.synopsis.GetOr("");
      var characters := CharactersFrom(structure.value);
      var generated := GenerateChapterOutlines(synopsis, input.numChapters, complete, loadOutlines);
      var outlines: seq<OutlineFields>;
      if generated.Success? {
        outlines := generated.value;
      } else {
        outlines := [];
      }

      var chapters: seq<Chapter> := [];
      for i := 0 to |outlines|
        invariant chapters == AssembleChapters(outlines[..i])
      {
        assert outlines[..i + 1][..i] == outlines[..i];
        chapters := chapters + [ChapterFromOutline(i, outlines[i])];
      }
      assert outlines[..|outlines|] == outlines;
      if |chapters| == 0 {
        chapters := chapters + [PlaceholderChapter()];
      }

      var project := NewProject(projectId, input.idea, Some(characters), Some(synopsis), Some(chapters));
      assert chapters == ChaptersFor(outlines);
      assert project == AssembleProject(projectId, input.idea, structure.value, outlines);
      SaveProject(project);
      r := Ok(project);
    }

    /** Generates the prose of one chapter. `writingStyle` None is the content call as the
        handler writes it; Some(style) passes the style the service requires. On any
        failure nothing is saved; on success the updated project is saved and returned. */
    method GenerateChapter(input: GenerateChapterInput, writingStyle: Option<string>, complete: Completer)
      returns (r: Response<StoryProject>)
      requires Valid()
      modifies this
      ensures Valid()
      ensures r == GenerateChapterOutcome(old(projects), input, writingStyle, complete)
      ensures r.Ok? ==> projects == old(projects)[input.projectId := r.value]
      ensures !r.Ok? ==> projects == old(projects)
    {
      var loaded := GetProject(input.projectId);
      if loaded.HttpError? {
        r := loaded;
        return;
      }
      var project := loaded.value;
      var found := FindChapter(project.chapters, input.chapterId);
      if found.None? {
        r := HttpError(404, CHAPTER_NOT_FOUND);
        return;
      }
      var k := found.value;
      var content := ContentCall(project, project.chapters[k], writingStyle, complete);
      if content.Failure? {
        r := HttpError(500, CONTENT_FAILED_PREFIX + content.msg);
        return;
      }
      project := project.(chapters := project.chapters[k := project.chapters[k].(content := content.value)]);
      project := project.(chapters := project.chapters[k := project.chapters[k].(status := Completed)]);
      assert project == CompleteChapter(loaded.value, k, content.value);
      SaveProject(project);
      r := Ok(project);
    }
  }
}
