/** The `POST /api/groq/process` route: a straight-line decision on the `task` of a
    multipart form. `transcribe` forwards an uploaded file to the speech-to-text
    model, `summarize` forwards text to the language model; every thrown error is
    caught and reported as 500. The two model calls are oracle outcomes passed in. */
module GroqProcess {
  import opened Js

  /** The largest upload accepted: 4 MiB. */
  const MaxUploadBytes: nat := 4 * 1024 * 1024

  const MissingKeyMessage: string := "Server Configuration Error: GROQ_API_KEY is missing."
  const NoFileMessage: string := "No file uploaded"
  const TooLargeMessage: string := "File is too large for Vercel Free Tier (Max 4MB). Please try a shorter clip."
  const NoTextMessage: string := "No text provided for summarization"
  const InvalidTaskMessage: string := "Invalid task specified"
  /** What reading `choices[0].message` throws when there is no first choice. */
  const NoChoiceError: JsError := JsError("TypeError", "Cannot read properties of undefined (reading 'message')")

  /** A form field: a text value or an uploaded file with its size in bytes. */
  datatype FormEntry = TextEntry(text: string) | FileEntry(name: string, size: nat)

  /** A multipart form: the first value of each field by name. */
  type Form = map<string, FormEntry>

  /** A completion choice: the content of its message (`null` is None). */
  datatype Choice = Choice(content: Option<string>)

  /** JSON bodies of the route: `{text}`, `{summary}`, `{error}`, and
      `{success: false, error, details}`. */
  datatype Body =
    | Transcript(text: string)
    | Summary(summary: Option<string>)
    | TaskError(error: string)
    | Failure(error: string, details: string)

  datatype Response = Response(status: nat, body: Body)

  /** `formData.get(name)`: the entry, or `null`. */
  function Field(form: Form, name: string): Option<FormEntry> {
    if name in form then Some(form[name]) else None
  }

  /** JavaScript truthiness of a form value: null and the empty string are falsy. */
  predicate Truthy(v: Option<FormEntry>) {
    v.Some? && v.value != TextEntry("")
  }

  /** The body of the `try` block: a response, or the error it throws. */
  function Attempt(apiKey: string, form: Outcome<Form>, transcription: Outcome<string>,
                   completion: Outcome<seq<Choice>>): (r: Outcome<Response>)
    ensures apiKey == "" ==> r == Threw(Error(MissingKeyMessage))
    ensures form.Threw? && apiKey != "" ==> r == Threw(form.error)
    // What the block returns rather than throws: a 200 with a model's answer, or the 400.
    ensures r.Ok? ==> r.value.status == 200 || r.value == Response(400, TaskError(InvalidTaskMessage))
    ensures r.Ok? && r.value.status == 200 ==> r.value.body.Transcript? || r.value.body.Summary?
  {
    if apiKey == "" then Threw(Error(MissingKeyMessage))
    else match form
      case Threw(e) => Threw(e)
      case Ok(f) =>
        var task := Field(f, "task");
        if task == Some(TextEntry("transcribe")) then
          var file := Field(f, "file");
          if !Truthy(file) then Threw(Error(NoFileMessage))
          // A text value has no `size`: `undefined > limit` is false.
          else if file.value.FileEntry? && file.value.size > MaxUploadBytes then Threw(Error(TooLargeMessage))
          else match transcription
            case Threw(e) => Threw(e)
            case Ok(text) => Ok(Response(200, Transcript(text)))
        else if task == Some(TextEntry("summarize")) then
          if !Truthy(Field(f, "text")) then Threw(Error(NoTextMessage))
          else match completion
            case Threw(e) => Threw(e)
            case Ok(choices) =>
              if |choices| == 0 then Threw(NoChoiceError)
              else Ok(Response(200, Summary(choices[0].content)))
        else Ok(Response(400, TaskError(InvalidTaskMessage)))
  }

  /** The `catch` block: every error becomes `{success: false, error, details}` with
      status 500, where `error` is the message or "Internal Server Error" when the
      message is empty, and `details` is the error's string form. */
  function ErrorResponse(e: JsError): (r: Response)
    ensures r.status == 500 && r.body.Failure?
    ensures r.body.error == (if e.message == "" then "Internal Server Error" else e.message)
    ensures r.body.error != ""
  {
    Response(500, Failure(if e.message == "" then "Internal Server Error" else e.message, ErrorToString(e)))
  }

  /** `POST(req)`, given the API key (empty when unset), the parsed form (or the error
      parsing throws) and what the two model calls would return. */
  function Process(apiKey: string, form: Outcome<Form>, transcription: Outcome<string>,
                   completion: Outcome<seq<Choice>>): (r: Response)
    // The key is checked first: without it nothing else is looked at.
    ensures apiKey == "" ==> r == ErrorResponse(Error(MissingKeyMessage))
    // The status tells the body apart.
    ensures r.status == 200 <==> r.body.Transcript? || r.body.Summary?
    ensures r.status == 400 <==> r.body == TaskError(InvalidTaskMessage)
    ensures r.status == 500 <==> r.body.Failure?
    ensures r.status in {200, 400, 500}
    // A task other than the two known ones is a 400, once the key and form are in hand.
    ensures apiKey != "" && form.Ok? &&
            Field(form.value, "task") != Some(TextEntry("transcribe")) &&
            Field(form.value, "task") != Some(TextEntry("summarize"))
            ==> r == Response(400, TaskError(InvalidTaskMessage))
    // A transcript comes only from a transcribe task with an acceptable file.
    ensures r.body.Transcript? ==>
            && apiKey != "" && form.Ok?
            && Field(form.value, "task") == Some(TextEntry("transcribe"))
            && Truthy(Field(form.value, "file"))
            && !(form.value["file"].FileEntry? && form.value["file"].size > MaxUploadBytes)
            && transcription == Ok(r.body.text)
    // A summary is the first choice's content of a summarize task with text.
    ensures r.body.Summary? ==>
            && apiKey != "" && form.Ok?
            && Field(form.value, "task") == Some(TextEntry("summarize"))
            && Truthy(Field(form.value, "text"))
            && completion.Ok? && |completion.value| > 0
            && r.body.summary == completion.value[0].content
  {
    match Attempt(apiKey, form, transcription, completion)
    case Ok(resp) => resp
    case Threw(e) => ErrorResponse(e)
  }

  /** `transcribe` without a file (or with an empty text value in its place) fails
      with "No file uploaded", reported as 500, not 400. */
  lemma TranscribeWithoutFile(apiKey: string, f: Form, t: Outcome<string>, c: Outcome<seq<Choice>>)
    requires apiKey != ""
    requires Field(f, "task") == Some(TextEntry("transcribe")) && !Truthy(Field(f, "file"))
    ensures Process(apiKey, Ok(f), t, c) == Response(500, Failure(NoFileMessage, "Error: " + NoFileMessage))
  {
  }

  /** A file over the limit is refused before the transcription is asked for: the
      response is the same whatever the transcription would have returned. */
  lemma OversizeRejectedBeforeTranscription(apiKey: string, f: Form, t1: Outcome<string>, t2: Outcome<string>,
                                            c: Outcome<seq<Choice>>)
    requires apiKey != ""
    requires Field(f, "task") == Some(TextEntry("transcribe"))
    requires "file" in f && f["file"].FileEntry? && f["file"].size > MaxUploadBytes
    ensures Process(apiKey, Ok(f), t1, c) == Process(apiKey, Ok(f), t2, c)
    ensures Process(apiKey, Ok(f), t1, c) == ErrorResponse(Error(TooLargeMessage))
  {
  }

  /** A file of exactly the limit is accepted: the transcription decides the answer. */
  lemma LimitSizeAccepted(apiKey: string, f: Form, text: string, c: Outcome<seq<Choice>>)
    requires apiKey != ""
    requires Field(f, "task") == Some(TextEntry("transcribe"))
    requires "file" in f && f["file"].FileEntry? && f["file"].size == MaxUploadBytes
    ensures Process(apiKey, Ok(f), Ok(text), c) == Response(200, Transcript(text))
  {
  }

  /** `summarize` with absent or empty text fails with status 500, before the model is asked. */
  lemma SummarizeWithoutText(apiKey: string, f: Form, t: Outcome<string>, c1: Outcome<seq<Choice>>,
                             c2: Outcome<seq<Choice>>)
    requires apiKey != ""
    requires Field(f, "task") == Some(TextEntry("summarize")) && !Truthy(Field(f, "text"))
    ensures Process(apiKey, Ok(f), t, c1) == Process(apiKey, Ok(f), t, c2)
    ensures Process(apiKey, Ok(f), t, c1) == ErrorResponse(Error(NoTextMessage))
  {
  }

  /** A missing key yields 500 whatever the request holds. */
  lemma MissingKeyIgnoresRequest(form1: Outcome<Form>, form2: Outcome<Form>, t: Outcome<string>,
                                 c: Outcome<seq<Choice>>)
    ensures Process("", form1, t, c) == Process("", form2, t, c)
    ensures Process("", form1, t, c).status == 500
  {
  }

  /** An upstream error's message is relayed verbatim in a 500 reply. */
  lemma UpstreamErrorRelayed(apiKey: string, f: Form, e: JsError, c: Outcome<seq<Choice>>)
    requires apiKey != "" && e.message != ""
    requires Field(f, "task") == Some(TextEntry("transcribe")) && Truthy(Field(f, "file"))
    requires !(f["file"].FileEntry? && f["file"].size > MaxUploadBytes)
    ensures Process(apiKey, Ok(f), Threw(e), c) == Response(500, Failure(e.message, ErrorToString(e)))
  {
  }
}
