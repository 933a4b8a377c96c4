# Text summarizer: input validation and dispatch

This project models the logic of `text-summarizer/text_summarizer.py`, the
whole of which is two functions:

- `process_input(input_text, file)` picks the one text to summarize. A
  present file takes precedence over the typed text: its name must end in
  `.txt`, it must read and decode as UTF-8, and its content must not be
  blank. Without a file, the typed text must not be blank. Each refusal
  returns a fixed error string (the read failure appends the exception's
  message). An accepted text is passed on untrimmed.
- `summarize_text(text)` refuses blank text itself, then calls the
  pretrained summarization pipeline and returns the first candidate's
  `summary_text`; any exception on the way becomes
  `"Error during summarization: "` followed by the exception's message.

Both return a plain string, and so do `TextSummarizer.ProcessInput` and
`TextSummarizer.SummarizeText`. The pipeline is a parameter of type
`Summarizer` (a function from the text to a list of candidates or a fault),
and an uploaded file is a `File` value holding its name and the outcome of
reading and decoding it. Python's `str.strip()` and `str.endswith()` are
modelled in `PyStrings`, with the exact set of characters Python treats as
whitespace. `TextSummarizer.ResolveInput` is an independent reference
definition of the validation stage, written with "blank" (every character
is whitespace) instead of `strip()`. `ProcessInputResolvesThenSummarizes`
proves that `process_input` is this stage followed by the summarizer call,
for all inputs.

Files: `py_strings.dfy` (module `PyStrings`), `text_summarizer.dfy`
(module `TextSummarizer`).

## Model

| member | source | states |
|---|---|---|
| PyStrings.TrimStart | text-summarizer/text_summarizer.py:17 | the left half of `strip()`: the result is a suffix of the input, what it drops is all whitespace, and it does not start with whitespace |
| PyStrings.TrimEnd | text-summarizer/text_summarizer.py:17 | the right half of `strip()`: the result is a prefix of the input, what it drops is all whitespace, and it does not end with whitespace |
| PyStrings.Strip | text-summarizer/text_summarizer.py:17 | `strip()` returns a slice of the input that neither starts nor ends with whitespace, with only whitespace before and after it |
| PyStrings.StripEmptyIffBlank | text-summarizer/text_summarizer.py:17 | `not s.strip()` holds exactly when every character of `s` is whitespace (both directions) |
| PyStrings.StripTrimmed | text-summarizer/text_summarizer.py:47 | `strip()` leaves a string without whitespace at either end unchanged |
| PyStrings.StripIdempotent | text-summarizer/text_summarizer.py:55 | stripping twice gives the same as stripping once |
| PyStrings.EndsWithIffConcat | text-summarizer/text_summarizer.py:42 | `name.endswith(".txt")` holds exactly when the name is some string followed by `.txt` |
| TextSummarizer.ResolveInput | text-summarizer/text_summarizer.py:38-56 | an accepted payload is never blank, and is the typed text verbatim when there is no file and the file's decoded content verbatim when there is one |
| TextSummarizer.ProcessInputResolvesThenSummarizes | text-summarizer/text_summarizer.py:38-59 | for every input, `process_input` returns the validation error, or else the summarizer's first candidate (or fault message) for the accepted payload |
| TextSummarizer.RejectedInputIgnoresSummarizer | text-summarizer/text_summarizer.py:38-56 | when validation refuses the input, the result is that error whatever the summarizer does, so the summarizer is not consulted |
| TextSummarizer.AcceptedPayloadSkipsEmptyCheck | text-summarizer/text_summarizer.py:46-59 | on the success path `summarize_text` receives the untrimmed payload and never takes its own empty-text branch |
| TextSummarizer.NoFileBlankText | text-summarizer/text_summarizer.py:52-56 | no file and empty or whitespace-only typed text gives exactly "Error: No text provided for summarization." |
| TextSummarizer.NoFileTextSummarized | text-summarizer/text_summarizer.py:52-59 | no file and non-blank typed text: the summarizer is given the typed text untrimmed |
| TextSummarizer.UnsupportedFormat | text-summarizer/text_summarizer.py:41-43 | a file whose name does not end in `.txt` gives exactly "Error: Unsupported file format. Please upload a .txt file.", whatever its content and the typed text |
| TextSummarizer.UpperCaseSuffixRefused | text-summarizer/text_summarizer.py:42-43 | the suffix check is case-sensitive: a name ending in `.TXT` is refused |
| TextSummarizer.FileReadFault | text-summarizer/text_summarizer.py:45-51 | a `.txt` file whose read or decode fails with message `m` gives exactly "Error reading file: " followed by `m` |
| TextSummarizer.BlankFile | text-summarizer/text_summarizer.py:46-48 | a `.txt` file whose decoded content is blank gives exactly "Error: Uploaded file is empty." |
| TextSummarizer.FileContentSummarized | text-summarizer/text_summarizer.py:46-59 | a `.txt` file with non-blank content: the summarizer is given the decoded content untrimmed |
| TextSummarizer.FileIgnoresInputText | text-summarizer/text_summarizer.py:38-54 | when a file is present the typed text has no influence on the result |
| TextSummarizer.SummarizeBlankText | text-summarizer/text_summarizer.py:17-18 | `summarize_text` on blank text gives exactly "Error: Provided text is empty." for every summarizer |
| TextSummarizer.SummarizeNonBlankText | text-summarizer/text_summarizer.py:19-24 | `summarize_text` on non-blank text returns the first candidate's `summary_text`; a pipeline fault, an empty candidate list or a missing field gives "Error during summarization: " followed by the exception's message |
| TextSummarizer.TestedScenarios | text-summarizer/test_text_summarizer.py:15-40 | the three exact results the tests assert: empty input, a `.pdf` upload, an empty `.txt` upload |

## Left out

- Loading the `facebook/bart-large-cnn` pipeline (lines 1 and 5): a foreign machine-learning library; the model is the `Summarizer` parameter, an arbitrary function of the text.
- The content of a summary. The tests' claims that a summary contains no "Error" and differs from its input depend on what the pretrained model produces and are not stated.
- The `max_length=150`, `min_length=40` and `do_sample=False` arguments (line 21): only the pipeline interprets them.
- Reading the byte stream and decoding it as UTF-8 (line 46): a file carries the outcome of both as `Ok(text)` or `Fault(message)`; the exception messages themselves are abstract strings.
- A file object whose `name` attribute is missing or not a string (it would also end in "Error reading file: "): names are modelled as strings.
- `input_text` being `None` (an unhandled exception in the source): the typed text is always a string.
- The Gradio interface and `launch()` (lines 2 and 62-74): user-interface plumbing.
- The `DummyFile` helper of the tests: a test fixture.
