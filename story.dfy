/** The document model of a story project: characters, chapters and the project that
    owns them, each with the default values its fields take when a constructor is
    called without them. */
module Story {
  import opened Outcomes

  const DEFAULT_CHARACTER_NAME := "未命名"
  const DEFAULT_CHARACTER_ROLE := "主角"
  const DEFAULT_CHARACTER_DESCRIPTION := "待补充"

  datatype Character = Character(name: string, role: string, description: string)

  /** The keyword arguments a Character is built from (`Character(**c)` with `c` a
      parsed JSON object); an absent key is None. */
  datatype CharacterFields = CharacterFields(name: Option<string>, role: Option<string>, description: Option<string>)

  /** A chapter is either still an outline or has generated prose. */
  datatype Status = Outline | Completed

  datatype Chapter = Chapter(id: int, title: string, outline: string, content: string, status: Status)

  datatype StoryProject = StoryProject(
    id: string,
    initialIdea: string,
    characters: seq<Character>,
    synopsis: string,
    chapters: seq<Chapter>)

  /** The status as it is stored ("outline" or "completed"). */
  function StatusName(s: Status): (r: string)
    ensures r == "outline" || r == "completed"
  {
    match s
    case Outline => "outline"
    case Completed => "completed"
  }

  /** Reading the status of a stored document back (`parse_file` when a project is
      loaded). Under the two-value status of this model, any other text is not a status. */
  function ParseStatus(text: string): (r: Option<Status>)
    ensures r.Some? <==> text == "outline" || text == "completed"
  {
    if text == "outline" then Some(Outline)
    else if text == "completed" then Some(Completed)
    else None
  }

  lemma StatusRoundTrip(s: Status, text: string)
    ensures ParseStatus(StatusName(s)) == Some(s)
    ensures ParseStatus(text) == Some(s) ==> StatusName(s) == text
  {
  }

  /** `Character(**fields)`: every omitted field takes its default. */
  function NewCharacter(fields: CharacterFields): (c: Character)
    ensures fields.name.Some? ==> c.name == fields.name.value
    ensures fields.name.None? ==> c.name == DEFAULT_CHARACTER_NAME
    ensures fields.role.Some? ==> c.role == fields.role.value
    ensures fields.role.None? ==> c.role == DEFAULT_CHARACTER_ROLE
    ensures fields.description.Some? ==> c.description == fields.description.value
    ensures fields.description.None? ==> c.description == DEFAULT_CHARACTER_DESCRIPTION
  {
    Character(
      fields.name.GetOr(DEFAULT_CHARACTER_NAME),
      fields.role.GetOr(DEFAULT_CHARACTER_ROLE),
      fields.description.GetOr(DEFAULT_CHARACTER_DESCRIPTION))
  }

  /** A character given every field is exactly that character. */
  lemma NewCharacterFromAllFields(c: Character)
    ensures NewCharacter(CharacterFields(Some(c.name), Some(c.role), Some(c.description))) == c
  {
  }

  /** `Chapter(id=…, title=…, …)`: `id` and `title` are required; outline and content
      default to "" and status to "outline". */
  function NewChapter(id: int, title: string, outline: Option<string>, content: Option<string>, status: Option<Status>): (ch: Chapter)
    ensures ch.id == id && ch.title == title
    ensures outline.None? ==> ch.outline == ""
    ensures outline.Some? ==> ch.outline == outline.value
    ensures content.None? ==> ch.content == ""
    ensures content.Some? ==> ch.content == content.value
    ensures status.None? ==> ch.status == Outline
    ensures status.Some? ==> ch.status == status.value
  {
    Chapter(id, title, outline.GetOr(""), content.GetOr(""), status.GetOr(Outline))
  }

  /** `StoryProject(id=…, initial_idea=…, …)`: `id` and `initial_idea` are required;
      characters and chapters default to empty lists and synopsis to "". */
  function NewProject(id: string, initialIdea: string, characters: Option<seq<Character>>,
                      synopsis: Option<string>, chapters: Option<seq<Chapter>>): (p: StoryProject)
    ensures p.id == id && p.initialIdea == initialIdea
    ensures characters.None? ==> p.characters == []
    ensures characters.Some? ==> p.characters == characters.value
    ensures synopsis.None? ==> p.synopsis == ""
    ensures synopsis.Some? ==> p.synopsis == synopsis.value
    ensures chapters.None? ==> p.chapters == []
    ensures chapters.Some? ==> p.chapters == chapters.value
  {
    StoryProject(id, initialIdea, characters.GetOr([]), synopsis.GetOr(""), chapters.GetOr([]))
  }

  /** The defaults all at once: an argument-free Character, a Chapter given only its
      required fields, a StoryProject given only its required fields. */
  lemma Defaults(id: int, title: string, projectId: string, idea: string)
    ensures NewCharacter(CharacterFields(None, None, None)) == Character("未命名", "主角", "待补充")
    ensures NewChapter(id, title, None, None, None) == Chapter(id, title, "", "", Outline)
    ensures NewProject(projectId, idea, None, None, None) == StoryProject(projectId, idea, [], "", [])
  {
  }
}
