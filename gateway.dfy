/** The completion service as the generators see it: a request (which prompt
    template, filled with which values; the system prompt; the output format) goes
    out, and either text comes back or the call raises. The service itself and the
    wording of the templates are not part of this model: a completion service is any
    function from requests to outcomes, and a prompt is the template it names
    together with the values it is filled with. */
module Gateway {
  import opened Outcomes

  /** `output_format`: plain text, or a request that the model answer with one JSON object. */
  datatype OutputFormat = PlainText | JsonObject

  /** The three prompt templates and the values each is formatted with (a count that
      is JSON null is formatted as "None"). */
  datatype Prompt =
    | InitialGeneration(userIdea: string)
    | ChapterOutlines(synopsis: string, numChapters: Option<int>)
    | ChapterContent(synopsis: string, characters: string, chapterOutline: string)

  datatype Request = Request(prompt: Prompt, systemPrompt: string, outputFormat: OutputFormat)

  const JSON_SYSTEM_PROMPT := "You are a helpful assistant designed to output JSON."
  const NOVELIST_SYSTEM_PROMPT := "You are a talented novelist."

  /** A completion service: the reply to a request, or the text of what it raised
      (a provider error, an empty response). */
  type Completer = Request -> Outcome<string>

  /** `json.loads` seen at the record type a caller reads out of it. */
  type Loader<T> = string -> Outcome<T>
}
