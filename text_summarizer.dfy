/** Input validation and dispatch of the text summarizer.

    `ProcessInput` takes the text typed by the user and an optional uploaded
    file, picks the one text payload to summarize, and returns either the
    summary or a fixed error message; `SummarizeText` hands a payload to the
    summarization model. Both return a plain string, as the program does.
    The model's effects are parameters: the pretrained summarizer is a
    function from the payload to what the pipeline call produced, and the
    uploaded file carries the outcome of reading and decoding it. */
module TextSummarizer {
  import opened PyStrings

  datatype Option<T> = None | Some(value: T)

  /** What an external call produced: a value, or an exception whose
      `str()` is `message`. */
  datatype Attempt<T> = Ok(value: T) | Fault(message: string)

  /** One candidate produced by the summarization pipeline: a dictionary from
      field names to text. */
  type Candidate = map<string, string>

  /** The pretrained summarization pipeline, called with the payload (and the
      fixed length bounds, which only the pipeline interprets). */
  type Summarizer = string -> Attempt<seq<Candidate>>

  /** An uploaded file: its name, and the outcome of `file.read()` followed by
      UTF-8 decoding. */
  datatype File = File(name: string, content: Attempt<string>)

  const EmptyTextError := "Error: Provided text is empty."
  const SummarizationErrorPrefix := "Error during summarization: "
  const UnsupportedFormatError := "Error: Unsupported file format. Please upload a .txt file."
  const ReadErrorPrefix := "Error reading file: "
  const EmptyFileError := "Error: Uploaded file is empty."
  const NoTextError := "Error: No text provided for summarization."
  const TxtSuffix := ".txt"
  const SummaryKey := "summary_text"
  /** `str()` of the IndexError raised by `[]` on an empty list. */
  const IndexErrorText := "list index out of range"
  /** `str()` of the KeyError raised when a candidate has no summary field. */
  const KeyErrorText := "'summary_text'"

  /** The `try` block of `summarize_text`: the first candidate's summary text,
      with every exception on the way (from the pipeline, an empty candidate
      list, a candidate without the summary field) turned into an error
      string. */
  function FirstSummary(outcome: Attempt<seq<Candidate>>): string {
    match outcome
    case Fault(m) => SummarizationErrorPrefix + m
    case Ok(candidates) =>
      if |candidates| == 0 then SummarizationErrorPrefix + IndexErrorText
      else if SummaryKey in candidates[0] then candidates[0][SummaryKey]
      else SummarizationErrorPrefix + KeyErrorText
  }

  /** `summarize_text(text)`. */
  function SummarizeText(text: string, summarizer: Summarizer): string {
    if Strip(text) == [] then EmptyTextError
    else FirstSummary(summarizer(text))
  }

  /** `process_input(input_text, file)`. */
  function ProcessInput(inputText: string, file: Option<File>, summarizer: Summarizer): string {
    match file
    case Some(f) =>
      if !EndsWith(f.name, TxtSuffix) then UnsupportedFormatError
      else (
        match f.content
        case Fault(m) => ReadErrorPrefix + m
        case Ok(content) =>
          if Strip(content) == [] then EmptyFileError
          else SummarizeText(content, summarizer)
      )
    case None =>
      if Strip(inputText) == [] then NoTextError
      else SummarizeText(inputText, summarizer)
  }

  /** The outcome of the input-resolving stage, before any summarization. */
  datatype Resolution = Accepted(payload: string) | Rejected(error: string)

  /** Reference definition of the input-resolving stage, stated with
      blankness rather than with `strip()`: a present file takes precedence
      over the typed text; its name must end in ".txt", it must read and
      decode, and it must not be blank; without a file the typed text must
      not be blank. An accepted payload is passed on exactly as it came in. */
  function ResolveInput(inputText: string, file: Option<File>): (r: Resolution)
    ensures r.Accepted? ==> !IsBlank(r.payload)
    ensures r.Accepted? && file.None? ==> r.payload == inputText
    ensures r.Accepted? && file.Some? ==> file.value.content == Ok(r.payload)
  {
    match file
    case Some(f) =>
      if !EndsWith(f.name, TxtSuffix) then Rejected(UnsupportedFormatError)
      else (
        match f.content
        case Fault(m) => Rejected(ReadErrorPrefix + m)
        case Ok(content) => if IsBlank(content) then Rejected(EmptyFileError) else Accepted(content)
      )
    case None =>
      if IsBlank(inputText) then Rejected(NoTextError) else Accepted(inputText)
  }

  /** `process_input` is the resolving stage followed by the summarization
      stage: a rejected input yields its error message, and an accepted
      payload is given, verbatim and once, to the summarizer, whose first
      candidate (or fault) decides the result. */
  lemma ProcessInputResolvesThenSummarizes(inputText: string, file: Option<File>, summarizer: Summarizer)
    ensures ProcessInput(inputText, file, summarizer) ==
      match ResolveInput(inputText, file)
      case Rejected(e) => e
      case Accepted(p) => FirstSummary(summarizer(p))
  {
    match file
    case Some(f) =>
      if !EndsWith(f.name, TxtSuffix) {
        UnsupportedFormat(inputText, f, summarizer);
      } else if f.content.Fault? {
        FileReadFault(inputText, f, summarizer);
      } else if IsBlank(f.content.value) {
        BlankFile(inputText, f, summarizer);
      } else {
        FileContentSummarized(inputText, f, summarizer);
      }
    case None =>
      if IsBlank(inputText) {
        NoFileBlankText(inputText, summarizer);
      } else {
        NoFileTextSummarized(inputText, summarizer);
      }
  }

  /** When the input is rejected the summarizer is never consulted: any two
      summarizers give the same result. */
  lemma RejectedInputIgnoresSummarizer(inputText: string, file: Option<File>, s1: Summarizer, s2: Summarizer)
    requires ResolveInput(inputText, file).Rejected?
    ensures ProcessInput(inputText, file, s1) == ProcessInput(inputText, file, s2) == ResolveInput(inputText, file).error
  {
    ProcessInputResolvesThenSummarizes(inputText, file, s1);
    ProcessInputResolvesThenSummarizes(inputText, file, s2);
  }

  /** On the success path the payload handed to `summarize_text` is never
      blank, so its own emptiness check cannot fire from `process_input`. */
  lemma AcceptedPayloadSkipsEmptyCheck(inputText: string, file: Option<File>, summarizer: Summarizer)
    requires ResolveInput(inputText, file).Accepted?
    ensures var p := ResolveInput(inputText, file).payload;
      && ProcessInput(inputText, file, summarizer) == SummarizeText(p, summarizer)
      && SummarizeText(p, summarizer) == FirstSummary(summarizer(p))
  {
    ProcessInputResolvesThenSummarizes(inputText, file, summarizer);
    StripEmptyIffBlank(ResolveInput(inputText, file).payload);
  }

  /** No file and blank typed text: the fixed "no text" error. */
  lemma NoFileBlankText(inputText: string, summarizer: Summarizer)
    requires IsBlank(inputText)
    ensures ProcessInput(inputText, None, summarizer) == NoTextError
  {
    StripEmptyIffBlank(inputText);
  }

  /** No file and non-blank typed text: the typed text, untrimmed, is what
      the summarizer sees. */
  lemma NoFileTextSummarized(inputText: string, summarizer: Summarizer)
    requires !IsBlank(inputText)
    ensures ProcessInput(inputText, None, summarizer) == FirstSummary(summarizer(inputText))
  {
    StripEmptyIffBlank(inputText);
  }

  /** A file whose name does not end in ".txt" is refused whatever its
      content and whatever the typed text. */
  lemma UnsupportedFormat(inputText: string, f: File, summarizer: Summarizer)
    requires !EndsWith(f.name, TxtSuffix)
    ensures ProcessInput(inputText, Some(f), summarizer) == UnsupportedFormatError
  {
  }

  /** The suffix check is case-sensitive: ".TXT" is refused. */
  lemma {:induction false} UpperCaseSuffixRefused(stem: string, content: Attempt<string>, inputText: string, summarizer: Summarizer)
    ensures ProcessInput(inputText, Some(File(stem + ".TXT", content)), summarizer) == UnsupportedFormatError
  {
    var name := stem + ".TXT";
    assert name[|name| - |TxtSuffix|..] == ".TXT";
  }

  /** A ".txt" file that cannot be read or decoded: the fault's message after
      the fixed prefix. */
  lemma FileReadFault(inputText: string, f: File, summarizer: Summarizer)
    requires EndsWith(f.name, TxtSuffix) && f.content.Fault?
    ensures ProcessInput(inputText, Some(f), summarizer) == ReadErrorPrefix + f.content.message
  {
  }

  /** A ".txt" file whose decoded content is blank: the fixed "empty file"
      error. */
  lemma BlankFile(inputText: string, f: File, summarizer: Summarizer)
    requires EndsWith(f.name, TxtSuffix) && f.content.Ok? && IsBlank(f.content.value)
    ensures ProcessInput(inputText, Some(f), summarizer) == EmptyFileError
  {
    StripEmptyIffBlank(f.content.value);
  }

  /** A ".txt" file with non-blank content: the content, untrimmed, is what
      the summarizer sees. */
  lemma FileContentSummarized(inputText: string, f: File, summarizer: Summarizer)
    requires EndsWith(f.name, TxtSuffix) && f.content.Ok? && !IsBlank(f.content.value)
    ensures ProcessInput(inputText, Some(f), summarizer) == FirstSummary(summarizer(f.content.value))
  {
    StripEmptyIffBlank(f.content.value);
  }

  /** Once a file is uploaded the typed text plays no part. */
  lemma FileIgnoresInputText(text1: string, text2: string, f: File, summarizer: Summarizer)
    ensures ProcessInput(text1, Some(f), summarizer) == ProcessInput(text2, Some(f), summarizer)
  {
  }

  /** `summarize_text` on blank text: the fixed "empty text" error, and the
      summarizer is not called. */
  lemma SummarizeBlankText(text: string, summarizer: Summarizer)
    requires IsBlank(text)
    ensures SummarizeText(text, summarizer) == EmptyTextError
  {
    StripEmptyIffBlank(text);
  }

  /** `summarize_text` on non-blank text: the summarizer is called with the
      text as given; its first candidate's summary text is returned, and a
      fault, an empty candidate list or a candidate without the summary field
      becomes "Error during summarization: " followed by the exception's
      message. */
  lemma SummarizeNonBlankText(text: string, summarizer: Summarizer)
    requires !IsBlank(text)
    ensures var r := SummarizeText(text, summarizer);
      match summarizer(text)
      case Fault(m) => r == SummarizationErrorPrefix + m
      case Ok(cs) =>
        if |cs| > 0 && SummaryKey in cs[0] then r == cs[0][SummaryKey]
        else if |cs| == 0 then r == SummarizationErrorPrefix + IndexErrorText
        else r == SummarizationErrorPrefix + KeyErrorText
  {
    StripEmptyIffBlank(text);
  }

  /** The three scenarios whose results the program's tests fix exactly. */
  lemma TestedScenarios(summarizer: Summarizer)
    ensures ProcessInput("", None, summarizer) == NoTextError
    ensures ProcessInput("", Some(File("document.pdf", Ok("Ceci est le contenu du fichier"))), summarizer) == UnsupportedFormatError
    ensures ProcessInput("", Some(File("empty.txt", Ok(""))), summarizer) == EmptyFileError
  {
    NoFileBlankText("", summarizer);
    BlankFile("", File("empty.txt", Ok("")), summarizer);
  }
}
