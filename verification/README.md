# SOC L1 detection summariser and chunked analysis — a Dafny model

`SocL1Analysis.py` reads an EDR export: a JSON list of detection records. It
turns each record into a fixed-layout text block and joins the blocks into one
summary. It cuts the summary into chunks of at most 100,000 characters, sends
one prompt per chunk to a text-generation service, and joins the answers.

This project models the two pure stages of that pipeline, plus the driver step
that connects them:

- **`summarize_detections`** (modules `Json` and `Summarizer`). It covers:
  - the sentinel "No detection data found in JSON file." for anything but a non-empty list;
  - the `.get` fallbacks to `Unknown`, including `display_name` → `description` and
    `context_timestamp` → `timestamp`;
  - the 100-character command-line cut with its `...` marker, for the record, its
    parent and its grandparent;
  - the IOC list;
  - the network list, capped at its first three entries;
  - the remediation flags, using Python truthiness;
  - the 33-line block template headed `Detection k:`;
  - the joining of blocks with a line break.

  Every Python exception the function can raise is a `Fault`. A record that is
  not a mapping, a `.get` on a sub-record that is not a mapping, iterating a
  number, `len` of a scalar command line, slicing a dict command line longer than
  100, and appending `'...'` to a list command line longer than 100 each give one. The first faulty record wins, as the loop stops there. A
  fault turns into the text "Error summarizing data: …".
- **`get_gemini_analysis`** (modules `Chunking` and `Analysis`). It covers:
  - the positional chunking;
  - the per-chunk prompt "…Data Summary (Chunk k):\n<chunk>\n\nAnalyze all detections in this chunk.";
  - one request per chunk, in order, stopping at the first failed request;
  - the `"\n\n"` join of the responses;
  - the "Error getting Gemini AI analysis: …" text on failure.

  The service is the parameter `generate: string -> Result<string, string>`.
- **The driver step** (`Analysis.Run`): summarise, then analyse whatever text came out.

Module layout:

- `wrappers.dfy`: `Option` and `Result`.
- `text.dfy`: joining, concatenation, infix search, and decimal rendering of numbers.
- `json.dfy`: JSON values, last-wins member lookup, truthiness, `str()`/`repr()`.
- `summarizer.dfy`: record extraction, block rendering and the summary.
- `chunking.dfy`: the chunk split.
- `analysis.dfy`: prompts, the request loop and the driver step.
- `scenarios.dfy`: a worked record with a 150-character command line.

On empty or non-list input the code does not short-circuit: the sentinel,
and likewise the summariser's error text, is chunked and sent to the service
like a real summary. `Analysis.Run` proves that for empty or non-list input
exactly one prompt is issued, and that it carries the sentinel.

Two quirks of the template are modelled as written.

- A non-empty IOC or network list renders as an empty bullet followed by the
  entries (`  IOCs:\n    - \n    - Type: …`). This is because the list body
  already begins with the item separator.
- Parent and grandparent users are always `Unknown`.

## Model

| member | source | states |
|---|---|---|
| Json.LookupFindsLastMember | SocL1Analysis.py:38-67 | A key lookup finds nothing exactly when no member carries the key; otherwise it finds the value of the last member with that key, as the dict built by `json.load` does |
| Summarizer.Truncate | SocL1Analysis.py:56 | The kept text is the first min(n, 100) characters unchanged; `...` follows exactly when the string was longer than 100; the length is n or 103 |
| Summarizer.TruncateIdempotent | SocL1Analysis.py:56 | Cutting an already cut command line changes nothing |
| Summarizer.Cmdline | SocL1Analysis.py:56 | Succeeds exactly for an absent value, a string, or a list/dict of at most 100 entries; absent gives `Unknown`; a string gives its cut |
| Summarizer.Section | SocL1Analysis.py:38 | `record.get(key, {})` gives the empty mapping for an absent key and the object's own members for an object; anything else has no `.get` and fails |
| Summarizer.Entries | SocL1Analysis.py:71-72 | Renders each element in order, one line per element, and succeeds exactly when every element is an object |
| Summarizer.Iocs | SocL1Analysis.py:70-72 | Succeeds exactly for an absent value, a list of objects, `""` or `{}`; a list gives one IOC line per element, in order; the others give no lines |
| Summarizer.Network | SocL1Analysis.py:76-83 | Succeeds exactly when the value is absent, `""`, or a list whose first three entries are objects; it renders min(3, n) lines, one per leading entry |
| Summarizer.NetworkBeyondCapIgnored | SocL1Analysis.py:78 | Two network lists that agree on their first three entries render identically, whatever follows them |
| Summarizer.ListBodyEntries | SocL1Analysis.py:73 | The body is `None` exactly when the list is empty; otherwise it is every entry, in order, each preceded by the item separator |
| Summarizer.Extract | SocL1Analysis.py:36-90 | Succeeds exactly for well-shaped records, and fails with `detection` for a non-object. Covers the name and timestamp fallback chains, the always-`Unknown` parent and grandparent users, and `Process Blocked` iff `kill_process` or `operation_blocked` is truthy, `Quarantine File` iff `quarantine_file` is. The plain fields are stated by the three `Extract…Fields` lemmas |
| Summarizer.ExtractDeviceFields | SocL1Analysis.py:38-43 | Hostname, device ID, OS version, local and external IP each show `str()` of the member of `device`, or `Unknown` when `device` lacks it |
| Summarizer.ExtractRecordFields | SocL1Analysis.py:46-87 | Severity, tactic, technique, file name, file path, SHA256, user and disposition each show `str()` of the record's member, or `Unknown` when it is absent |
| Summarizer.ExtractLineageFields | SocL1Analysis.py:60-67 | The parent's and grandparent's file names show `str()` of the member of their own section, or `Unknown` |
| Summarizer.ExtractCommandLines | SocL1Analysis.py:56-66 | The record's, the parent's and the grandparent's shown command lines are each the cut of their own `cmdline` string; an absent one is `Unknown` |
| Summarizer.ExtractLists | SocL1Analysis.py:70-84 | Every IOC is shown in order; of the network accesses only the first min(3, n) are shown, in order |
| Summarizer.EmptyRecordDefaults | SocL1Analysis.py:38-90 | A record with no members shows `Unknown` everywhere, `No` for both flags, and empty lists |
| Summarizer.With | SocL1Analysis.py:38 | Appending a member makes the lookup of that key find the new value and leaves every other key's lookup unchanged |
| Summarizer.BlockFrame | SocL1Analysis.py:92-126 | Block k begins with `Detection k:` and a line break, and ends with a line break |
| Summarizer.BlockShowsFields | SocL1Analysis.py:92-125 | For any view, the block contains the hostname, severity and command-line lines with the view's values; an empty list shows as `- None` |
| Summarizer.RecordShowsHostname | SocL1Analysis.py:39-95 | The block rendered from a record shows `Hostname: ` with `str()` of that record's `device.hostname`, or `Unknown` |
| Summarizer.RecordShowsSeverity | SocL1Analysis.py:46-101 | The block rendered from a record shows `Severity: ` with `str()` of that record's `severity_name`, or `Unknown` |
| Summarizer.RecordShowsCommandLine | SocL1Analysis.py:56-110 | The block rendered from a record with a string `cmdline` shows `CMDline: ` with the cut of that string |
| Summarizer.BlockShowsLists | SocL1Analysis.py:124-125 | The IOC and network sections are each the title, a bullet, and the list body, so a non-empty list starts with an empty bullet |
| Summarizer.HeaderNumber | SocL1Analysis.py:93 | The digits in the header `Detection k:` read back as k, so no two blocks share a header |
| Summarizer.RenderRecord | SocL1Analysis.py:36-126 | A record renders exactly when it is well shaped; a failure carries the extraction fault; a success is framed by its own header |
| Summarizer.Blocks | SocL1Analysis.py:36-126 | Succeeds exactly when every record renders, giving block i from record i alone; a failure names the first record that fails, and all earlier records render |
| Summarizer.Summarize | SocL1Analysis.py:32-36 | Anything but a non-empty list gives the sentinel. Otherwise it succeeds exactly when every record renders, and a failure reports the first failing record and its fault |
| Summarizer.SummarySucceedsIffWellShaped | SocL1Analysis.py:31-130 | A non-empty list is summarised exactly when every record is well shaped; on failure the reported record is the first one that is not |
| Summarizer.SummaryBlocks | SocL1Analysis.py:128 | A summary is its blocks joined by line breaks, one per record, block k+1 rendered from record k |
| Summarizer.BlocksFramed | SocL1Analysis.py:92-126 | Every rendered block k+1 opens with its own header `Detection k+1:` and ends with a line break |
| Summarizer.JoinedBlocksLayout | SocL1Analysis.py:128 | When block k opens with `Detection k+1:`, joining the blocks with line breaks puts that header at block k's offset; together with SummaryBlocks and BlocksFramed, the summary's headers appear in record order |
| Summarizer.SummaryIsNotSentinel | SocL1Analysis.py:32-33 | A real summary never equals the no-data sentinel |
| Summarizer.SummaryText | SocL1Analysis.py:129-130 | A failure becomes a message that starts with `Error summarizing data: ` and says more |
| Chunking.Chunks | SocL1Analysis.py:177-178 | Every chunk has between 1 and 100,000 characters; there are ceil(n / 100,000) of them; together, in order, they give the summary back |
| Chunking.ChunkAt | SocL1Analysis.py:178 | Chunk k is the slice of the summary from k·100,000 to min((k+1)·100,000, n) |
| Chunking.SplitIntoChunks | SocL1Analysis.py:178 | The slicing loop over `range(0, len(s), CHUNK_SIZE)` yields exactly those chunks |
| Analysis.PromptCarriesChunk | SocL1Analysis.py:182 | A prompt starts with the instructions and carries its chunk unchanged at a fixed offset |
| Analysis.PromptInjective | SocL1Analysis.py:182 | Equal prompts have equal chunk numbers and equal chunks |
| Analysis.RequestAll | SocL1Analysis.py:179-187 | Prompt k is chunk k numbered k+1, and requests go in chunk order. It stops at the first failed request and reports that request's error. It succeeds exactly when every chunk was sent and answered, and then gives the responses in order joined by a blank line |
| Analysis.Analyze | SocL1Analysis.py:177-187 | Over the chunks of the summary: prompt k carries chunk k numbered k+1; every request before the last one made succeeded, so it stops at the first failure and reports that error; it succeeds exactly when every chunk was answered, giving the responses joined by a blank line |
| Analysis.ReportText | SocL1Analysis.py:187-189 | A failure becomes `Error getting Gemini AI analysis: ` followed by the error; a success is the report |
| Analysis.Run | SocL1Analysis.py:210-213 | The prompts carry the chunks of the summariser's text, in order, stopping at the first failed request. The output is the responses joined by a blank line when every chunk was answered, and otherwise `Error getting Gemini AI analysis: ` followed by the failed request's error. For empty or non-list input there is exactly one prompt, and it carries the sentinel |
| Text.NatToString | SocL1Analysis.py:93 | `str(n)`: at least one character, all digits, a leading zero only for 0 |
| Text.DigitsValueOfNatToString | SocL1Analysis.py:93 | Reading the decimal text of n gives n back |
| Text.NatToStringInjective | SocL1Analysis.py:93 | Distinct numbers have distinct decimal texts |
| Scenarios.WorkstationView | SocL1Analysis.py:38-84 | A record with host WKS-01 and severity High reads as those values, with the device ID, OS version and both IPs `Unknown` and both lists empty |
| Scenarios.WorkstationEventUnknowns | SocL1Analysis.py:46-90 | The same record's detection name, tactic, technique, timestamp and disposition are `Unknown`, and neither remediation flag is set |
| Scenarios.WorkstationFileUnknowns | SocL1Analysis.py:53-57 | The same record's file name, file path, SHA256 and user are `Unknown` |
| Scenarios.WorkstationAncestorsUnknown | SocL1Analysis.py:60-67 | The same record's parent and grandparent show `Unknown` for file name, command line and user |
| Scenarios.WorkstationCommandLine | SocL1Analysis.py:56 | The same record's 150-character command line is shown as its first 100 characters followed by `...` |
| Scenarios.WorkstationText | SocL1Analysis.py:32-128 | The summary of the one-record list is headed `Detection 1:` and shows the host, the severity, the cut command line and `None` for both lists |

## Left out

- Loading the file (`load_json_file`), JSON parsing, and its error texts. The model starts from an already-parsed value.
- Configuration of the text-generation client, the network call itself, and any retry or timeout. The call is the parameter `generate`.
- The instruction preamble literal of `get_gemini_analysis`. It is the parameter `preamble` of `Analysis.Prompt`, `RequestAll`, `Analyze` and `Run`. Every property holds for any preamble.
- The interactive loop of `main` (prompting for a path, `exit`, printing). `Analysis.Run` models one pass from loaded data to output text.
- Python's own exception messages. `Summarizer.Describe` words each fault in the model's terms. Only the `Error summarizing data: ` prefix is modelled exactly.
- JSON floating-point numbers. Numbers are integers.
- Escaping inside `repr()` of nested strings, used when a command line or a field holds a list or dict. Strings are quoted with `'` without escaping.
- Objects with duplicate keys. `Cmdline` counts members where Python counts distinct keys, and `str()`/`repr()` of such an object (`Json.Repr`) shows every member, where Python's dict shows each key once, at its first position, with its last value.
- Summarizer.NetworkBeyondCapIgnored: stated for the rendered network list rather than the whole record; `Extract` builds the record's list from exactly that function.
- Scenarios.WorkstationText: shows the lines of one concrete record, not the full 33-line block text.
