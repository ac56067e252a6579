# Fireflies meeting analyzer — a verified model of its core

This project models the core of the Fireflies meeting analyzer in Dafny. The analyzer is a Python tool. It fetches sales-meeting transcripts from the Fireflies.ai service and separates what the leads said from what the hosts said. It asks a language model to analyse the lead statements and turns the model's JSON reply into an analysis result. It then renders that result as a German Markdown report.

The model covers four parts of that path, one Dafny module each:

- `FirefliesClient` (`fireflies_client.dfy`) covers the transcript records and host/lead attribution:
  - the lead statements and lead questions of a meeting;
  - mapping a transcript dict to a `Meeting`;
  - the sorted, duplicate-free host list.
- `AiAnalyzer` (`ai_analyzer.dfy`) covers ingesting the model's reply:
  - the budgeted statement list sent in the prompt;
  - the tolerant JSON extraction around an abstract parser;
  - mapping the parsed dict to records, with their defaults;
  - the pain-category tally and the first ten questions;
  - the early returns of `analyze_meetings`.
- `Exporter` (`exporter.dfy`) covers rendering:
  - the Markdown report as a list of lines (fixed header, nine optional sections in fixed order, grouping by category in first-occurrence order);
  - the time-stamped export file name.
- `Config` (`config.dfy`) covers settings:
  - the host e-mail list parsed from its comma-separated raw value;
  - the readiness check over API keys and provider.

Supporting modules:

- `Wrappers` provides `Option`.
- `Seqs` provides filtering, subsequences, flat-map, distinct keys and grouping.
- `Text` provides the Python string operations used: `lower`, `strip`, `split`, `join`, substring test and `str(int)`.
- `JsonModel` provides the JSON values and the `dict.get` helpers.
- `DateTimes` provides a date-time record and the two `strftime` formats used.

Where the source loops and updates state, the model is a method with a loop. Examples: collecting host ids, formatting statements with a running total and a `break`, building the result lists, tallying categories, appending report lines, grouping into dicts. Each method's `ensures` ties its result to a specification function. Lemmas then state what the source promises about that function.

## Model

| member | source | states |
|---|---|---|
| FirefliesClient.GetLeadStatements | fireflies-meeting-analyzer/src/fireflies_client.py:63-99 | The loop over speakers collects exactly the host ids of the specification. The result is the subsequence of the sentences, in order, whose speaker id is not a host id, and every such sentence is in it. |
| FirefliesClient.LeadQuestions | fireflies-meeting-analyzer/src/fireflies_client.py:101-104 | A subsequence of the lead statements holding exactly those whose text contains `?`. |
| FirefliesClient.FlaggedHostsExcluded | fireflies-meeting-analyzer/src/fireflies_client.py:87-88 | No lead statement carries the id of a speaker flagged `is_host`. |
| FirefliesClient.MarkerMatchExcluded | fireflies-meeting-analyzer/src/fireflies_client.py:83-97 | A speaker whose lower-cased name or e-mail contains a non-empty marker speaks no lead statement. |
| FirefliesClient.EmptyMarkerIgnored | fireflies-meeting-analyzer/src/fireflies_client.py:89-90 | Adding the empty marker changes no host decision. With only the empty marker, exactly the flagged speakers are hosts. |
| FirefliesClient.NamelessSpeakerNeverMatched | fireflies-meeting-analyzer/src/fireflies_client.py:83-90 | A speaker with neither name nor e-mail is a host only when flagged. |
| FirefliesClient.CapitalizedIdentifierInert | fireflies-meeting-analyzer/src/fireflies_client.py:74 | Caller identifiers are not lower-cased, so one containing an upper-case letter never matches anyone. |
| FirefliesClient.HostEmailMatchesAnyCase | fireflies-meeting-analyzer/src/fireflies_client.py:75-76 | The meeting's host e-mail is lower-cased before use, so a speaker with the same e-mail in any letter case is a host. |
| FirefliesClient.UnmatchedSentenceKept | fireflies-meeting-analyzer/src/fireflies_client.py:81-97 | A sentence whose speaker id belongs to no speaker is always a lead statement. |
| FirefliesClient.NoSpeakersAllLead | fireflies-meeting-analyzer/src/fireflies_client.py:81-97 | With no speakers, the lead statements are all the sentences. |
| FirefliesClient.FlaggedHostOnly | fireflies-meeting-analyzer/src/fireflies_client.py:73-91 | With no caller identifiers and no host or organizer e-mail, the host ids are exactly the flagged speaker's id. |
| FirefliesClient.AliceAndBob | fireflies-meeting-analyzer/src/fireflies_client.py:63-99 | A worked example: Alice is the flagged host and Bob is not. The lead statements are Bob's two sentences, in order. |
| FirefliesClient.ParseTranscript | fireflies-meeting-analyzer/src/fireflies_client.py:301-363 | There is one speaker per speaker dict and one sentence per sentence dict, in order, each mapped field by field. The meeting is the one the dict describes. No speaker is flagged as host. |
| FirefliesClient.ParseDefaults | fireflies-meeting-analyzer/src/fireflies_client.py:305-353 | Missing keys default as stated: id `""`, name and speaker name `"Unknown"`, title `"Untitled Meeting"`, text `""`. |
| FirefliesClient.LexLessIrreflexive | fireflies-meeting-analyzer/src/fireflies_client.py:384 | Python's string `<` is irreflexive. |
| FirefliesClient.LexLessTotal | fireflies-meeting-analyzer/src/fireflies_client.py:384 | Python's string `<` orders any two distinct strings. |
| FirefliesClient.LexLessTransitive | fireflies-meeting-analyzer/src/fireflies_client.py:384 | Python's string `<` is transitive. |
| FirefliesClient.SortedHasNoDuplicates | fireflies-meeting-analyzer/src/fireflies_client.py:384 | A strictly sorted list has no duplicates. |
| FirefliesClient.InsertSorted | fireflies-meeting-analyzer/src/fireflies_client.py:384 | Inserting into a strictly sorted list keeps it strictly sorted and adds exactly the new element. |
| FirefliesClient.SortedList | fireflies-meeting-analyzer/src/fireflies_client.py:384 | `sorted(list(hosts))` is strictly sorted and holds exactly the set's elements. |
| FirefliesClient.AllHosts | fireflies-meeting-analyzer/src/fireflies_client.py:376-384 | The host list is strictly sorted, so free of duplicates. It holds exactly the non-empty host and organizer e-mails of the transcripts, and no empty string. |
| AiAnalyzer.LinesOf | fireflies-meeting-analyzer/src/ai_analyzer.py:343-344 | One `[speaker_name]: text` line per statement. |
| AiAnalyzer.TotalLengthAppend | fireflies-meeting-analyzer/src/ai_analyzer.py:341-348 | The running character total is additive over concatenated line lists. |
| AiAnalyzer.BudgetedCount | fireflies-meeting-analyzer/src/ai_analyzer.py:343-348 | The number of emitted statements never exceeds the number given. |
| AiAnalyzer.BudgetedPrefix | fireflies-meeting-analyzer/src/ai_analyzer.py:343-348 | The emitted lines are a prefix of the statements whose summed length stays within `max_chars`. When the prefix is not everything, the next line would overflow the budget: no line is skipped in favour of a later one. |
| AiAnalyzer.FormatStatements | fireflies-meeting-analyzer/src/ai_analyzer.py:338-350 | The loop with its running total and `break` returns the budgeted prefix joined by newlines. That prefix fits the budget, and the first statement left out would overflow it. |
| AiAnalyzer.LastIndex | fireflies-meeting-analyzer/src/ai_analyzer.py:363 | The position of the last occurrence of a character. |
| AiAnalyzer.BraceSpanIsRegexMatch | fireflies-meeting-analyzer/src/ai_analyzer.py:363 | The span from the first `{` to the last `}` exists exactly when the regex `\{[\s\S]*\}` matches somewhere. It is then the leftmost-longest match, which is what `re.search` returns. |
| AiAnalyzer.ParseResponse | fireflies-meeting-analyzer/src/ai_analyzer.py:352-370 | A whole-text parse wins. With no `{...}` span the result is `{}`. Otherwise it is the parse of the leftmost-longest span, or `{}` when that does not parse. A failed parse here stands for `JSONDecodeError` only. |
| AiAnalyzer.NoiseAroundObject | fireflies-meeting-analyzer/src/ai_analyzer.py:361-368 | Text without `{` before the object and without `}` after it is ignored: the object's own parse, or `{}`, is the result. |
| AiAnalyzer.PlainTextYieldsEmpty | fireflies-meeting-analyzer/src/ai_analyzer.py:363-370 | An unparsable reply without `{` gives `{}`. |
| AiAnalyzer.CollectProfiles | fireflies-meeting-analyzer/src/ai_analyzer.py:385-397 | The append loop over `customer_profiles` yields one profile per dict, in order, each mapped field by field by `ProfileOf`. |
| AiAnalyzer.CollectPainPoints | fireflies-meeting-analyzer/src/ai_analyzer.py:400-410 | The append loop over `pain_points` yields one pain point per dict, in order, each mapped field by field by `PainPointOf`. |
| AiAnalyzer.CollectQuestions | fireflies-meeting-analyzer/src/ai_analyzer.py:413-420 | The append loop over `questions` yields one question per dict, in order, each mapped field by field by `QuestionOf`. |
| AiAnalyzer.CollectObjections | fireflies-meeting-analyzer/src/ai_analyzer.py:423-432 | The append loop over `objections` yields one objection per dict, in order, each mapped field by field by `ObjectionOf`. |
| AiAnalyzer.CollectPatterns | fireflies-meeting-analyzer/src/ai_analyzer.py:435-441 | The append loop over `language_patterns` yields one language pattern per dict, in order, each mapped field by field by `PatternOf`. |
| AiAnalyzer.CategoriesMembers | fireflies-meeting-analyzer/src/ai_analyzer.py:450-452 | A category is tallied exactly when some pain point carries it. |
| AiAnalyzer.CategoryCountsSnoc | fireflies-meeting-analyzer/src/ai_analyzer.py:450-452 | One more pain point adds one to its own category, inserting it at 1 when new, and changes no other entry. This is the loop body's `get(cat, 0) + 1`. |
| AiAnalyzer.CountAbsent | fireflies-meeting-analyzer/src/ai_analyzer.py:450-452 | A category no pain point carries counts zero. |
| AiAnalyzer.CategoryCountsSum | fireflies-meeting-analyzer/src/ai_analyzer.py:449-452 | The tallied counts sum to the number of pain points. |
| AiAnalyzer.TallyExample | fireflies-meeting-analyzer/src/ai_analyzer.py:449-452 | Two "Technical" and one "Cost" pain points tally to `{Technical: 2, Cost: 1}`. |
| AiAnalyzer.TallyCategories | fireflies-meeting-analyzer/src/ai_analyzer.py:449-452 | The counting loop over the pain points yields the specified tally. |
| AiAnalyzer.CommonQuestions | fireflies-meeting-analyzer/src/ai_analyzer.py:455 | The texts of the first min(10, n) questions, in order. |
| AiAnalyzer.BuildResult | fireflies-meeting-analyzer/src/ai_analyzer.py:372-457 | The result is the specified one. `meetings_analyzed` and `total_lead_statements` are the given counts, whatever the reply holds. The tally's keys are exactly the occurring categories, each counted. |
| AiAnalyzer.ResultRecords | fireflies-meeting-analyzer/src/ai_analyzer.py:383-455 | Each record list is as long as its input array and empty when its key is absent, and the common questions are empty when `questions` is. Missing keys take their `.get` defaults: `""` or `[]` for every profile field, `"Sonstiges"`/`"Mittel"`/`""` for pain points, `"Allgemein"` for the question category, `""` for every objection field. Every `usage_count` is 1. |
| AiAnalyzer.PainTally | fireflies-meeting-analyzer/src/ai_analyzer.py:449-452 | `top_pain_categories[c]` is the number of pain points with category `c`. Its keys are exactly the occurring categories, and its values sum to the number of pain points. |
| AiAnalyzer.AnalyzeMeetings | fireflies-meeting-analyzer/src/ai_analyzer.py:273-336 | No meetings give the empty result, with no prompt sent. Meetings without lead statements give counts (meetings, 0) and empty lists, with no prompt sent. Otherwise the prompt carries the budgeted statements, and the result is built from the parsed reply, or from `{}` when the call failed. |
| Exporter.GroupByKey | fireflies-meeting-analyzer/src/exporter.py:120-125 | The dict-building loop yields the distinct keys in first-occurrence order. Each key maps to its group in original order, and the dict has no other keys. |
| Exporter.AppendRendered | fireflies-meeting-analyzer/src/exporter.py:93-112 | Appending the rendered lines of each item in turn gives the accumulated lines followed by every item's lines. |
| Exporter.RenderProfiles | fireflies-meeting-analyzer/src/exporter.py:90-112 | The loop emits the profiles section as specified, numbered from 1. |
| Exporter.RenderPainPoints | fireflies-meeting-analyzer/src/exporter.py:115-142 | The loop emits the pain point section as specified, grouped by category. |
| Exporter.RenderQuestions | fireflies-meeting-analyzer/src/exporter.py:145-165 | The loop emits the question section as specified, grouped by category. |
| Exporter.RenderEach | fireflies-meeting-analyzer/src/exporter.py:168-249 | A flat section is nothing for an empty list. Otherwise it is its header, a blank line, and each item's lines in order. |
| Exporter.RenderLanguagePatterns | fireflies-meeting-analyzer/src/exporter.py:188-209 | The loop emits the language section as specified. |
| Exporter.RenderTriggers | fireflies-meeting-analyzer/src/exporter.py:244-249 | The loop emits the trigger section as specified. |
| Exporter.BuildMarkdown | fireflies-meeting-analyzer/src/exporter.py:75-251 | The step-by-step appends, joined by newlines, give the specified report. |
| Exporter.MarkdownHeader | fireflies-meeting-analyzer/src/exporter.py:79-87 | The eight header lines open every report, whatever the lists hold, and their join is a prefix of the Markdown text. |
| Exporter.HeaderFields | fireflies-meeting-analyzer/src/exporter.py:80-84 | Line 0 is the title. The meeting count and the lead-statement count read back, as decimal numbers, from their lines. |
| Exporter.ReportSectionHeaders | fireflies-meeting-analyzer/src/exporter.py:89-249 | The report's `## ` lines, in document order, are exactly the titles of the non-empty lists in the fixed order 1 to 9. So each header appears iff its list is non-empty. |
| Exporter.ProfilesTitle | fireflies-meeting-analyzer/src/exporter.py:90-92 | The profiles section carries the `## 1.` header iff there are profiles, and no other `## ` line. |
| Exporter.PainTitle | fireflies-meeting-analyzer/src/exporter.py:115-117 | The pain point section carries the `## 2.` header iff there are pain points, and no other `## ` line. |
| Exporter.QuestionTitle | fireflies-meeting-analyzer/src/exporter.py:145-147 | Likewise for `## 3.` and questions. |
| Exporter.ObjectionTitle | fireflies-meeting-analyzer/src/exporter.py:168-170 | Likewise for `## 4.` and objections. |
| Exporter.LanguageTitle | fireflies-meeting-analyzer/src/exporter.py:188-190 | Likewise for `## 5.` and language patterns. |
| Exporter.ValueTitle | fireflies-meeting-analyzer/src/exporter.py:212-214 | Likewise for `## 6.` and value propositions. |
| Exporter.MarketingTitle | fireflies-meeting-analyzer/src/exporter.py:222-224 | Likewise for `## 7.` and marketing recommendations. |
| Exporter.MessagingTitle | fireflies-meeting-analyzer/src/exporter.py:233-235 | Likewise for `## 8.` and messaging guidelines. |
| Exporter.TriggerTitle | fireflies-meeting-analyzer/src/exporter.py:244-246 | Likewise for `## 9.` and conversion triggers. |
| Exporter.BodyHeaders | fireflies-meeting-analyzer/src/exporter.py:89-249 | The nine sections, concatenated in order, carry the nine conditional titles in order. |
| Exporter.PainPointGrouping | fireflies-meeting-analyzer/src/exporter.py:120-130 | The groups have distinct, non-empty category names in first-occurrence order. An empty category falls under "Sonstiges". Every pain point is in the group of its own category and in no other, each group keeps the original order, and the groups together are a permutation of the pain points. |
| Exporter.QuestionGrouping | fireflies-meeting-analyzer/src/exporter.py:150-160 | The same for questions, with "Allgemein" for an empty category. |
| Exporter.ObjectionQuoted | fireflies-meeting-analyzer/src/exporter.py:171-174 | Every objection's direct quote appears as a `> "<quote>"` line of the report. |
| Exporter.UnknownPatternsIgnored | fireflies-meeting-analyzer/src/exporter.py:193-209 | Patterns of a category other than the four fixed ones change nothing in the language section. |
| Exporter.OnlyUnknownPatterns | fireflies-meeting-analyzer/src/exporter.py:188-209 | When every pattern has an unknown category, the `## 5.` header still appears, with no subsection. |
| Exporter.PatternBlocksIgnoreExtra | fireflies-meeting-analyzer/src/exporter.py:200-209 | Patterns whose category matches none of the rendered categories do not change the rendered blocks. |
| Exporter.GenerateFilename | fireflies-meeting-analyzer/src/exporter.py:30-33 | The file lies in the export directory. Its name starts with `<prefix>_` and ends with `.<extension>`, with the time stamp between them. |
| Exporter.FilenameLayout | fireflies-meeting-analyzer/src/exporter.py:30-33 | The path lies in the export directory and the name is `<prefix>_<YYYYMMDD_HHMMSS>.<extension>`. Each date and time field reads back from its fixed position. |
| DateTimes.ZeroPad | fireflies-meeting-analyzer/src/exporter.py:32 | A zero-padded `strftime` field consists of digits only. |
| DateTimes.ZeroPadFits | fireflies-meeting-analyzer/src/exporter.py:32 | A value below 10^width pads to exactly `width` digits that read back as the value. |
| DateTimes.CompactLayout | fireflies-meeting-analyzer/src/exporter.py:32 | `%Y%m%d_%H%M%S` has 15 characters, `_` at index 8 and digits elsewhere, and every field reads back. |
| DateTimes.StampLayout | fireflies-meeting-analyzer/src/exporter.py:32 | Six digit fields of the right widths, laid out `YYYYMMDD_HHMMSS`, read back field by field. |
| Config.StrippedNonEmpty | fireflies-meeting-analyzer/src/config.py:41 | The stripped, non-empty pieces: no more than the pieces, none empty, none with whitespace at either end. |
| Config.StrippedAvoids | fireflies-meeting-analyzer/src/config.py:41 | Stripping and dropping pieces adds no character. |
| Config.HostEmails | fireflies-meeting-analyzer/src/config.py:36-41 | An empty raw value gives no e-mails. Otherwise no entry is empty, contains a comma, or has whitespace at either end. |
| Config.StrippedClean | fireflies-meeting-analyzer/src/config.py:41 | Already-clean entries pass through unchanged. |
| Config.HostEmailsRoundTrip | fireflies-meeting-analyzer/src/config.py:36-41 | Writing clean e-mails comma-separated and parsing them back gives the same list, in order. |
| Config.ValidateConfig | fireflies-meeting-analyzer/src/config.py:43-68 | The Fireflies flag is set iff its key is set. For `anthropic`/`openai` the provider flag is set iff that key is set. An unknown provider leaves it false and is reported. The messages are exactly the missing-key messages and the unknown-provider message, in order, at most two. `ready` iff both flags, iff no message. |
| Config.DefaultsNotReady | fireflies-meeting-analyzer/src/config.py:18-34 | With every default in place there are no host e-mails. The messages `ValidateConfig` produces are the Fireflies and the Anthropic missing-key messages, so its contract makes the configuration not ready. |
| Text.Lower | fireflies-meeting-analyzer/src/fireflies_client.py:75-85 | The model's case mapping, `str.lower` restricted to ASCII and Latin-1 capitals. It keeps the length and maps each capital to the letter 32 code points above it. No such capital is left, and every other character is unchanged. |
| Text.CapitalNeverInLower | fireflies-meeting-analyzer/src/fireflies_client.py:74-90 | A string with an upper-case letter is never a substring of a lower-cased one. |
| Text.Strip | fireflies-meeting-analyzer/src/config.py:41 | `str.strip` removes whitespace only, from both ends: the result is a slice with whitespace around it, and itself starts and ends with non-whitespace. |
| Text.StripEmpty | fireflies-meeting-analyzer/src/config.py:41 | A string strips to empty iff it is all whitespace. |
| Text.Split | fireflies-meeting-analyzer/src/config.py:41 | `str.split(",")` gives at least one piece, none containing the separator. |
| Text.SplitJoin | fireflies-meeting-analyzer/src/config.py:41 | Splitting a join of separator-free pieces gives the pieces back; `Split` itself ensures that joining its pieces gives the string back. |
| Text.JoinAppend | fireflies-meeting-analyzer/src/exporter.py:251 | Joining two non-empty line lists puts exactly one separator between their joins. |
| Text.NatToStringRoundTrip | fireflies-meeting-analyzer/src/exporter.py:83-84 | `str(n)` is a digit string that reads back as `n`. |
| Seqs.GroupsArePartition | fireflies-meeting-analyzer/src/exporter.py:120-130 | The groups, concatenated in first-occurrence order of their keys, are a permutation of the items. |
| Seqs.DistinctInFirstOccurrenceOrder | fireflies-meeting-analyzer/src/exporter.py:123-127 | Distinct keys come in the order of their first occurrence, as dict insertion order gives them. |

## Left out

- The HTTP and GraphQL transport is not modelled: requests, the pagination loop with its sleeps, client open/close and the error class. All of it is network I/O. `AllHosts` takes the transcript list as a value.
- The language-model provider is not modelled: client set-up, `_call_ai`, the prompt templates, `generate_summary_report`. These are foreign library calls. `AnalyzeMeetings` receives the reply as a parameter, with `None` standing for a call that raised, and returns the statement text it would send.
- The meeting contexts `analyze_meetings` serialises with `json.dumps` are left out, together with the `print` of the error. They only feed the prompt text.
- `json.loads` is the parameter `parse`. Only the span selection and the fallback around it are modelled.
- `AiAnalyzer.ParseResponse`: `parse(t) == None` stands for a `JSONDecodeError` only. Other exceptions `json.loads` can raise, such as a `RecursionError` on a deeply nested reply, escape `_parse_response` and make `analyze_meetings` use `{}` without trying the brace span. The model does not capture that path.
- `AiAnalyzer.BuildResult` and the `Collect*` methods: record fields are modelled as strings only (`AnalysisShape`). `_build_result` stores whatever value `.get` returns, unchecked. So a `null` or non-string field, such as `"category": null` (tallied under the key `None`) or `"company_size": 50`, is not modelled. The precondition also excludes the inputs on which `_build_result` raises an `AttributeError` or `TypeError`: a reply that is not a dict, a list element that is not a dict, or a record list that is `null`.
- `AiAnalyzer.AnalyzeMeetings`: the parsed reply must have the shape `AnalysisShape`, which this model represents. The limits on record fields are those given for `AiAnalyzer.BuildResult`. The three pass-through lists must also hold string-valued dicts, and `conversion_triggers` must hold strings. Python copies those values unchecked, so the whole precondition is stricter than the code.
- `FirefliesClient.ParseTranscript`: the transcript dict must match the declared field types of the dataclasses (`TranscriptShape`). Python stores non-string values such as `"id": 7`, `"text": null` or `"name": 3` unchecked, and raises a `TypeError` on `"speakers": null` or `"sentences": null`. Neither the unchecked values nor that error path are modelled.
- Date handling in `_parse_transcript` is not modelled (epoch milliseconds, ISO strings, `datetime.now`). The meeting date is a given `DateTime`. The float fields (`duration`, `start_time`, `end_time`, `word_count`) are carried as opaque JSON values.
- `datetime.now()` in `_generate_filename` and the result's creation time are given values. `DateTimes.ZeroPadFits` covers years up to 9999, the range `%Y` pads to four digits.
- `Text.Lower` models `str.lower` for ASCII and the Latin-1 upper-case letters only. Other Unicode case mappings are not modelled: Python lowers `"Σ"` to `"σ"`, which the model leaves as it is, and `"İ".lower()` has two characters, while the model always keeps the length.
- `Text.Strip` uses Python's whitespace set for characters up to U+3000 as listed in the module. There is no Unicode database.
- `ReportExporter` file operations are not modelled: `export_to_excel`, the file writes of `export_to_json`/`export_to_markdown`, directory creation, and `Path` normalisation. `GenerateFilename` returns the directory and the name as a pair.
- `AnalysisResult.to_dict` is not modelled; it depends on `asdict` and `isoformat`.
- `Exporter.ReportSectionHeaders` speaks of the report's list of lines. A value that itself contains a newline followed by `## ` would add a header-looking line to the joined text; that case is not covered.
- `Settings` is a plain record of already-loaded values. pydantic, dotenv and environment loading are not modelled, nor are the `TIME_PERIODS` and `UI_TEXTS` tables, which no modelled operation reads.
- The default `host_identifiers=None` of `get_lead_statements` and `analyze_meetings` is the empty list.
- `app.py` (the Streamlit dashboard) and `cli.py` (the command line) are presentation only and are not part of this model.
