/** The three generation stages: the initial structure (characters and synopsis)
    from an idea, chapter outlines from a synopsis, and chapter prose from an outline.
    Each builds a prompt, asks the completion service and, for the structured stages,
    reads the reply as JSON. Only the outline stage absorbs failures. */
module StoryGenerator {
  import opened Outcomes
  import opened Text
  import opened Story
  import opened Gateway

  /** The JSON object the initial-structure stage returns, by the keys read from it. */
  datatype StructureDoc = StructureDoc(characters: Option<seq<CharacterFields>>, synopsis: Option<string>)

  /** One entry of an outline list: `{"title": …, "outline": …}`, either key may be absent. */
  datatype OutlineFields = OutlineFields(title: Option<string>, outline: Option<string>)

  /** The JSON object the outline stage parses; only its "outlines" key is read. */
  datatype OutlinesDoc = OutlinesDoc(outlines: Option<seq<OutlineFields>>)

  const FILL_IN_SYNOPSIS_FIRST := "请先完善故事梗概，以便生成本章概述。"
  const OUTLINE_FAILED_PREFIX := "AI生成概述失败: "

  /** The generic title of chapter n, `f"第 {n} 章"`. */
  function ChapterTitle(n: nat): (t: string)
    ensures |t| == |Decimal(n)| + 4
    ensures t[2..|t| - 2] == Decimal(n)
  {
    "第 " + Decimal(n) + " 章"
  }

  /** Two chapters with different numbers get different generic titles. */
  lemma ChapterTitleInjective(a: nat, b: nat)
    requires ChapterTitle(a) == ChapterTitle(b)
    ensures a == b
  {
    var t := ChapterTitle(a);
    assert Decimal(a) == t[2..|t| - 2] == Decimal(b);
    DecimalInjective(a, b);
  }

  // ---------------------------------------------------------------- initial structure

  function StructureRequest(idea: string): Request {
    Request(InitialGeneration(idea), JSON_SYSTEM_PROMPT, JsonObject)
  }

  /** Asks for characters and synopsis as one JSON object and parses the reply.
      Neither a failed call nor a failed parse is caught: each comes back as it was. */
  function GenerateInitialStructure(idea: string, complete: Completer, load: Loader<StructureDoc>): (r: Outcome<StructureDoc>)
    ensures complete(StructureRequest(idea)).Failure? ==> r == Failure(complete(StructureRequest(idea)).msg)
    ensures complete(StructureRequest(idea)).Success? ==> r == load(complete(StructureRequest(idea)).value)
  {
    match complete(StructureRequest(idea))
    case Failure(m) => Failure(m)
    case Success(text) => load(text)
  }

  // ---------------------------------------------------------------- character roster

  /** `f"- {c.name} ({c.role}): {c.description}"`. */
  function RosterLine(c: Character): string {
    "- " + c.name + " (" + c.role + "): " + c.description
  }

  function RosterLines(cs: seq<Character>): (lines: seq<string>)
    ensures |lines| == |cs|
    ensures forall i :: 0 <= i < |cs| ==> lines[i] == RosterLine(cs[i])
  {
    seq(|cs|, i requires 0 <= i < |cs| => RosterLine(cs[i]))
  }

  /** The roster the content prompt is filled with: the lines joined by newlines. It is
      empty exactly when there are no characters, and begins with the first line. */
  function Roster(cs: seq<Character>): (r: string)
    ensures r == "" <==> |cs| == 0
    ensures |cs| > 0 ==> RosterLine(cs[0]) <= r
  {
    Join(RosterLines(cs), '\n')
  }

  predicate SingleLine(s: string) {
    '\n' !in s
  }

  lemma RosterLineIsSingleLine(c: Character)
    requires SingleLine(c.name) && SingleLine(c.role) && SingleLine(c.description)
    ensures SingleLine(RosterLine(c))
  {
  }

  /** The roster has exactly one line per character, in order, each of the form
      "- name (role): description" — read back by splitting on newlines, which is
      exact when no field holds a newline itself. No characters give "". */
  lemma RosterOneLinePerCharacter(cs: seq<Character>)
    requires forall i :: 0 <= i < |cs| ==>
      SingleLine(cs[i].name) && SingleLine(cs[i].role) && SingleLine(cs[i].description)
    ensures |cs| == 0 ==> Roster(cs) == ""
    ensures |cs| > 0 ==> Split(Roster(cs), '\n') == RosterLines(cs)
  {
    var lines := RosterLines(cs);
    forall i | 0 <= i < |lines| ensures '\n' !in lines[i] {
      RosterLineIsSingleLine(cs[i]);
    }
    if |cs| > 0 {
      SplitJoin(lines, '\n');
    }
  }

  // ---------------------------------------------------------------- chapter content

  function ContentRequest(synopsis: string, characters: seq<Character>, chapterOutline: string): Request {
    Request(ChapterContent(synopsis, Roster(characters), chapterOutline), NOVELIST_SYSTEM_PROMPT, PlainText)
  }

  /** Chapter prose: the reply to the content prompt, passed through unchanged, a
      failure included. The content template has no slot for the writing style, so no
      style changes the request. */
  function GenerateChapterContent(synopsis: string, characters: seq<Character>, chapterOutline: string,
                                  writingStyle: string, complete: Completer): (r: Outcome<string>)
    ensures r == complete(ContentRequest(synopsis, characters, chapterOutline))
  {
    complete(ContentRequest(synopsis, characters, chapterOutline))
  }

  // ---------------------------------------------------------------- chapter outlines

  /** `[{"title": f"第 {i+1} 章", "outline": text} for i in range(n)]`. */
  function Placeholders(n: int, text: string): (r: seq<OutlineFields>)
    ensures |r| == if n > 0 then n else 0
    ensures forall i :: 0 <= i < |r| ==> r[i] == OutlineFields(Some(ChapterTitle(i + 1)), Some(text))
  {
    seq(if n > 0 then n else 0, i requires 0 <= i => OutlineFields(Some(ChapterTitle(i + 1)), Some(text)))
  }

  /** Placeholder entries never share a title. */
  lemma PlaceholderTitlesDistinct(n: int, text: string, i: nat, j: nat)
    requires i < |Placeholders(n, text)| && j < |Placeholders(n, text)| && i != j
    ensures Placeholders(n, text)[i].title != Placeholders(n, text)[j].title
  {
    if Placeholders(n, text)[i].title == Placeholders(n, text)[j].title {
      ChapterTitleInjective(i + 1, j + 1);
    }
  }

  function OutlinesRequest(synopsis: string, numChapters: Option<int>): Request {
    Request(ChapterOutlines(synopsis, numChapters), JSON_SYSTEM_PROMPT, JsonObject)
  }

  /** The guarded part of the outline stage: the call, then the parse. A parsed value
      that is not an object (`result.get` raising) is a failed parse. */
  function OutlinesReply(synopsis: string, numChapters: Option<int>, complete: Completer, load: Loader<OutlinesDoc>): (r: Outcome<OutlinesDoc>)
    ensures complete(OutlinesRequest(synopsis, numChapters)).Failure? ==>
      r == Failure(complete(OutlinesRequest(synopsis, numChapters)).msg)
    ensures complete(OutlinesRequest(synopsis, numChapters)).Success? ==>
      r == load(complete(OutlinesRequest(synopsis, numChapters)).value)
  {
    match complete(OutlinesRequest(synopsis, numChapters))
    case Failure(m) => Failure(m)
    case Success(text) => load(text)
  }

  /** The text of the TypeError `range(None)` raises. */
  const RANGE_OF_NONE := "'NoneType' object cannot be interpreted as an integer"

  /** The placeholder list for a count that may be JSON null: `range(None)` raises. */
  function PlaceholdersFor(numChapters: Option<int>, text: string): (r: Outcome<seq<OutlineFields>>)
    ensures numChapters.None? ==> r == Failure(RANGE_OF_NONE)
    ensures numChapters.Some? ==> r == Success(Placeholders(numChapters.value, text))
  {
    match numChapters
    case None => Failure(RANGE_OF_NONE)
    case Some(n) => Success(Placeholders(n, text))
  }

  /** Chapter outlines for a synopsis. Without a synopsis, or when the call or the parse
      fails, it returns placeholders instead; it raises only when it must build
      placeholders for a count that is null (the raise in the `except` handler is not
      caught there). */
  function GenerateChapterOutlines(synopsis: string, numChapters: Option<int>, complete: Completer, load: Loader<OutlinesDoc>): (r: Outcome<seq<OutlineFields>>)
    ensures r.Failure? <==> numChapters.None? && (synopsis == "" || OutlinesReply(synopsis, numChapters, complete, load).Failure?)
    ensures r.Failure? ==> r.msg == RANGE_OF_NONE
  {
    if synopsis == "" then PlaceholdersFor(numChapters, FILL_IN_SYNOPSIS_FIRST)
    else
      match OutlinesReply(synopsis, numChapters, complete, load)
      case Success(doc) => Success(doc.outlines.GetOr([]))
      case Failure(m) => PlaceholdersFor(numChapters, OUTLINE_FAILED_PREFIX + m)
  }

  /** An empty synopsis gives n placeholders asking for the synopsis first, whatever
      the completion service and the parser would do: no request is made. */
  lemma EmptySynopsisMakesNoCall(numChapters: Option<int>, complete: Completer, complete': Completer,
                                 load: Loader<OutlinesDoc>, load': Loader<OutlinesDoc>)
    ensures GenerateChapterOutlines("", numChapters, complete, load) == GenerateChapterOutlines("", numChapters, complete', load')
    ensures numChapters.Some? ==>
      var r := GenerateChapterOutlines("", numChapters, complete, load);
      var n := numChapters.value;
      && r.Success?
      && |r.value| == (if n > 0 then n else 0)
      && forall i :: 0 <= i < |r.value| ==> r.value[i] == OutlineFields(Some(ChapterTitle(i + 1)), Some(FILL_IN_SYNOPSIS_FIRST))
  {
  }

  /** When the call or the parse fails, there are exactly n entries, entry i titled
      "第 {i+1} 章" and its outline embedding the error text. */
  lemma FailedOutlineStageEmbedsError(synopsis: string, n: int, complete: Completer, load: Loader<OutlinesDoc>)
    requires synopsis != ""
    requires OutlinesReply(synopsis, Some(n), complete, load).Failure?
    ensures var r := GenerateChapterOutlines(synopsis, Some(n), complete, load);
      && r.Success?
      && |r.value| == (if n > 0 then n else 0)
      && forall i :: 0 <= i < |r.value| ==>
           r.value[i] == OutlineFields(Some(ChapterTitle(i + 1)),
                                       Some(OUTLINE_FAILED_PREFIX + OutlinesReply(synopsis, Some(n), complete, load).msg))
  {
  }

  /** On success the parsed "outlines" list comes back as it is, or [] when the key is
      absent; its length is whatever the model returned, and the count, null or not,
      plays no part. */
  lemma SuccessfulOutlineStagePassesListThrough(synopsis: string, numChapters: Option<int>, complete: Completer, load: Loader<OutlinesDoc>)
    requires synopsis != ""
    requires OutlinesReply(synopsis, numChapters, complete, load).Success?
    ensures GenerateChapterOutlines(synopsis, numChapters, complete, load) ==
      Success(OutlinesReply(synopsis, numChapters, complete, load).value.outlines.GetOr([]))
  {
  }

  /** The requested count is not enforced: a reply without "outlines" gives no entries
      although three were asked for. */
  lemma OutlineCountNotForced()
    ensures GenerateChapterOutlines("a courier becomes a CEO", Some(3),
      (req: Request) => Success("{}"), (text: string) => Success(OutlinesDoc(None))) == Success([])
  {
  }
}
