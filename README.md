# localsetup core, modelled in Dafny

This project models the text- and list-processing core of the localsetup framework tools and skill scripts, and
proves properties of that model. It covers:

- **Deep analysis of the framework audit.** For every skill, it works out the safe invocations of each script.
  It classifies each run as pass or fail and builds one evidence record per run. It sanitizes the archive path of
  each trace file and counts the summary.
- **Validators and exit-code mappings** of the skill command-line tools: arbiter, linux patcher, sandbox tester
  (create and smoke run), git-state repair plan and its regression harness.
- **The pull-request reviewer:** file categories, the unified-diff line counter and findings, test coverage,
  verdict precedence and the review-state update.
- **Content-safety scan:** the foreign-script run detector, the output sanitizer, frontmatter stripping, keyword
  hits with 1-based positions, pattern loading and the staleness rule.
- **Public skill index builder:** text and URL sanitizing, awesome-list parsing, keyword inference, enrichment and
  URL deduplication.
- **Docs generator:** frontmatter reading, platform and skill tables, managed-block splicing and the major.minor
  version.
- **MCP evaluation harness:** XML tag extraction, header and environment parsing, scoring, the qa-pair filter,
  the emulation provider and the provider factory.
- **Smaller tools:** the output-contract validator, the importer scan's frontmatter helpers and exit codes, and the
  MCP-to-OpenAI tool conversion.

Most Python source files have one Dafny module, named after the file (for example `PrReview` and
`CreateSandbox`). The two largest are split by concern: run_framework_audit.py into `AuditSanitize`,
`AuditCommands`, `AuditHelp`, `AuditInvocations` and `AuditDeep`, and generate_docs_artifacts.py into
`GenerateDocsFrontmatter`, `GenerateDocsTables` and `GenerateDocsBlocks`. Four shared modules sit underneath:
`Text` models the Python string built-ins the sources rely on (`isspace`, `strip`, `split`, `lower`, `in`,
`find`, `replace`, `" ".join(s.split())`). `Seqs` holds first-seen-order deduplication, counting and
filtering. `SplitFirst` holds the facts about splitting once at the first separator that the marker-based
splits share. `Wrappers` holds `Option`, `Result` and the `Json` value of a parsed document.

Conventions:

- Subprocess results, file contents, directory listings, the clock and the outcome of writes are parameters of
  the model. A `World` value or an oracle function stands for them.
- Python exceptions that a caller maps to an exit code are `Result` values.
- Loops of the source are methods with loop invariants. Each is proved equal to a specification function; the
  properties are lemmas about that function.


## Model

| member | source | states |
|---|---|---|
| AuditSanitize.CodeBlock | _localsetup/skills/localsetup-framework-audit/scripts/run_framework_audit.py:176-184 | no lines exactly when the content is blank; otherwise three lines: the opening `~~~lang` fence, the content without its trailing whitespace (a prefix of the content followed only by whitespace), and the closing fence |
| AuditSanitize.RemoveControlChars | _localsetup/skills/localsetup-framework-audit/scripts/run_framework_audit.py:208 | the result has no CONTROL_CHARS character, every character it keeps comes from the input, and it is never longer |
| AuditSanitize.RemoveControlCharsKeepsClean | _localsetup/skills/localsetup-framework-audit/scripts/run_framework_audit.py:208 | removing control characters from a text that has none changes nothing |
| AuditSanitize.NoDotDotIff | _localsetup/skills/localsetup-framework-audit/scripts/run_framework_audit.py:286-287 | "no two adjacent dots" holds exactly when ".." is not a substring |
| AuditSanitize.ReplaceDotDotClears | _localsetup/skills/localsetup-framework-audit/scripts/run_framework_audit.py:286-287 | after `replace("..", "_")` no two adjacent dots remain, and a leading dot survives only from a lone leading dot |
| AuditSanitize.SanitizeScriptRel | _localsetup/skills/localsetup-framework-audit/scripts/run_framework_audit.py:282-289 | the script component is at most 256 characters, has no ".." and no "/", and uses only `[A-Za-z0-9_.-]` |
| AuditSanitize.CleanSkillId | _localsetup/skills/localsetup-framework-audit/scripts/run_framework_audit.py:296 | the stripped, NUL-free, 256-capped id has no NUL and is at most 256 characters |
| AuditSanitize.SanitizeSkillIdAsWritten | _localsetup/skills/localsetup-framework-audit/scripts/run_framework_audit.py:292-299 | the skill-id sanitizer as written: at most 256 characters and no "/" |
| AuditSanitize.AsWrittenBlankIdIsEmpty | _localsetup/skills/localsetup-framework-audit/scripts/run_framework_audit.py:292-299 | as written, the blank id " " sanitizes to "" (the trace path then starts with "/") |
| AuditSanitize.MatchesIdLineFeed | _localsetup/skills/localsetup-framework-audit/scripts/run_framework_audit.py:207 | Python's `$` lets `localsetup-x` followed by a line feed match SKILL_ID_PATTERN although it is not a valid id |
| AuditSanitize.AsWrittenKeepsLineFeed | _localsetup/skills/localsetup-framework-audit/scripts/run_framework_audit.py:292-299 | as written, a valid id followed by a line feed and a NUL sanitizes to the id plus a line feed |
| AuditSanitize.SanitizeSkillId | _localsetup/skills/localsetup-framework-audit/scripts/run_framework_audit.py:292-299 | corrected sanitizer: never empty, at most 256 characters, only `[A-Za-z0-9_-]`, and a valid `localsetup-` id is kept unchanged |
| AuditSanitize.SanitizeSkillIdAgrees | _localsetup/skills/localsetup-framework-audit/scripts/run_framework_audit.py:292-299 | the corrected sanitizer equals the written one on every input outside the two cases of the findings |
| AuditSanitize.AsWrittenIdSafe | _localsetup/skills/localsetup-framework-audit/scripts/run_framework_audit.py:292-299 | as written, no sanitized id contains "..", and an id starting with `localsetup-` never sanitizes to "" |
| AuditSanitize.AsWrittenAgreesOnDirNames | _localsetup/skills/localsetup-framework-audit/scripts/run_framework_audit.py:292-299 | for an id that starts with `localsetup-`, holds no NUL and fits a directory name (at most 255 characters), the written sanitizer and the corrected one give the same result |
| AuditSanitize.NormalizeSnippet | _localsetup/skills/localsetup-framework-audit/scripts/run_framework_audit.py:306-308 | after control-character removal, line-ending normalisation and strip, the text has no control character, no carriage return and no whitespace at either end |
| AuditSanitize.AfterFirstLine | _localsetup/skills/localsetup-framework-audit/scripts/run_framework_audit.py:311-312 | the text after the first line feed is a suffix, with no line feed before it; without a line feed the text is unchanged |
| AuditSanitize.SnippetTail | _localsetup/skills/localsetup-framework-audit/scripts/run_framework_audit.py:310-312 | the result is the part of the last 800 characters after their first line feed (all of them when there is none), stripped; it is at most 800 long and lies within those 800 characters |
| AuditSanitize.LongSnippet | _localsetup/skills/localsetup-framework-audit/scripts/run_framework_audit.py:309-313 | a normalised text over 800 characters yields the stripped part after the first line feed of its last 800 characters, or the placeholder when that is empty; the result is non-empty, clean and at most 800 characters |
| AuditSanitize.SanitizeSnippet | _localsetup/skills/localsetup-framework-audit/scripts/run_framework_audit.py:302-314 | never empty, at most 800 characters, no control character or carriage return, no edge whitespace; empty input gives the placeholder, a short normalised text is returned as is, and a long one is the stripped part after the first line feed of its last 800 characters, or the placeholder when that is empty |
| AuditCommands.CleanLine | _localsetup/skills/localsetup-framework-audit/scripts/run_framework_audit.py:238 | a cleaned line has no control character and no whitespace at either end |
| AuditCommands.ScanLine | _localsetup/skills/localsetup-framework-audit/scripts/run_framework_audit.py:224-242 | one line either leaves the commands unchanged or appends its cleaned form, and only inside a fence, with the block size at most 8192 and the cleaned line a good command (at most 1024 long, naming python and scripts/, not a comment) |
| AuditCommands.ScanLineState | _localsetup/skills/localsetup-framework-audit/scripts/run_framework_audit.py:225-235 | any fence line resets the block size, and only a tagged fence opens a block, so a bare fence always leaves it; outside a fence nothing changes; inside one the size grows by the line length plus one |
| AuditCommands.ScanFrom | _localsetup/skills/localsetup-framework-audit/scripts/run_framework_audit.py:224-242 | scanning keeps the commands found so far as a prefix and appends only good commands |
| AuditCommands.FencedCommands | _localsetup/skills/localsetup-framework-audit/scripts/run_framework_audit.py:220-242 | every command collected from SKILL.md text is a good command |
| AuditCommands.StateAfterFence | _localsetup/skills/localsetup-framework-audit/scripts/run_framework_audit.py:225-235 | after a fence line and non-fence lines, the scan is in a block exactly when that fence was tagged, and the block size counts the lines since |
| AuditCommands.OpenBlockCounts | _localsetup/skills/localsetup-framework-audit/scripts/run_framework_audit.py:233-235 | inside a block the size grows by each line's length plus one |
| AuditCommands.NoFenceNoCommands | _localsetup/skills/localsetup-framework-audit/scripts/run_framework_audit.py:233-234 | outside a fence, lines without a fence change nothing |
| AuditCommands.OversizedBlockIgnored | _localsetup/skills/localsetup-framework-audit/scripts/run_framework_audit.py:236-237 | once a block's size is over 8192 characters, no further line of it is collected |
| AuditCommands.NoFenceNoText | _localsetup/skills/localsetup-framework-audit/scripts/run_framework_audit.py:221-234 | a text without fence lines yields no commands, so untagged code is never scanned |
| AuditCommands.KnownCommands | _localsetup/skills/localsetup-framework-audit/scripts/run_framework_audit.py:244-251 | each kept command is an input command that contains scripts/ and one of the known scripts |
| AuditCommands.KnownCommandsComplete | _localsetup/skills/localsetup-framework-audit/scripts/run_framework_audit.py:244-251 | every command that contains scripts/ and a known script is kept |
| AuditCommands.SkillCommands | _localsetup/skills/localsetup-framework-audit/scripts/run_framework_audit.py:213-252 | a missing SKILL.md gives no commands; every returned command is good and names a known script |
| AuditCommands.MentionsKnown | _localsetup/skills/localsetup-framework-audit/scripts/run_framework_audit.py:248-251 | true exactly when one of the known script paths occurs in the command |
| AuditCommands.ScanOne | _localsetup/skills/localsetup-framework-audit/scripts/run_framework_audit.py:224-242 | one iteration of the fence loop computes the scan step |
| AuditCommands.ExtractCommands | _localsetup/skills/localsetup-framework-audit/scripts/run_framework_audit.py:211-252 | the fence-scanning loop returns exactly the function `SkillCommands`, so a missing SKILL.md gives no commands and every kept command passes the size, comment and known-script tests (AuditCommands.SkillCommands, AuditCommands.FencedCommands) |
| AuditCommands.KeepKnown | _localsetup/skills/localsetup-framework-audit/scripts/run_framework_audit.py:243-251 | the known-script loop returns exactly `KnownCommands`: the input commands, in order, that contain scripts/ and name a discovered script (AuditCommands.KnownCommandsComplete) |
| AuditHelp.IdentEnd | _localsetup/skills/localsetup-framework-audit/scripts/run_framework_audit.py:268 | the end of the identifier run `[A-Za-z0-9_-]*` from a position |
| AuditHelp.RowName | _localsetup/skills/localsetup-framework-audit/scripts/run_framework_audit.py:268-269 | a row matching the name pattern yields its leading identifier token, which starts with a letter |
| AuditHelp.RowNames | _localsetup/skills/localsetup-framework-audit/scripts/run_framework_audit.py:265-271 | a header row yields at most one name, and only when the stripped row matches the name pattern; that name is the row's leading identifier |
| AuditHelp.HeaderRows | _localsetup/skills/localsetup-framework-audit/scripts/run_framework_audit.py:264 | the rows scanned after a header are the ones up to index i+30 (or the end), fewer than 30 of them |
| AuditHelp.BraceGroupFrom | _localsetup/skills/localsetup-framework-audit/scripts/run_framework_audit.py:273 | a found brace group is non-empty, contains no "}", and occurs in the line enclosed in braces |
| AuditHelp.NoCloseNoGroup | _localsetup/skills/localsetup-framework-audit/scripts/run_framework_audit.py:273 | without a "}" after the search position there is no brace group |
| AuditHelp.PartNames | _localsetup/skills/localsetup-framework-audit/scripts/run_framework_audit.py:275-278 | names from comma parts are the non-empty stripped parts |
| AuditHelp.BraceNames | _localsetup/skills/localsetup-framework-audit/scripts/run_framework_audit.py:273-278 | every brace-list name is a listed name (non-empty, no comma, no brace) |
| AuditHelp.CandidatesFrom | _localsetup/skills/localsetup-framework-audit/scripts/run_framework_audit.py:259-278 | every candidate name from the lines is a listed name |
| AuditHelp.Subcommands | _localsetup/skills/localsetup-framework-audit/scripts/run_framework_audit.py:255-279 | the subcommands are distinct and are exactly the candidate names, in first-seen order |
| AuditHelp.HeaderEndsSearch | _localsetup/skills/localsetup-framework-audit/scripts/run_framework_audit.py:263-272 | at the first header line the candidates are exactly the names of the next rows, and no later line is read |
| AuditHelp.SingleLineHelp | _localsetup/skills/localsetup-framework-audit/scripts/run_framework_audit.py:273-278 | a one-line help without a header yields its brace-list names, deduplicated |
| AuditHelp.RowStep | _localsetup/skills/localsetup-framework-audit/scripts/run_framework_audit.py:265-271 | a row adds nothing when it is empty, starts with "-" or "{", or fails the pattern; otherwise its leading identifier is added if new |
| AuditHelp.AddHeaderRows | _localsetup/skills/localsetup-framework-audit/scripts/run_framework_audit.py:264-271 | the header-row loop adds to the name list exactly the first identifiers of the rows after the header, skipping names already present |
| AuditHelp.AddParts | _localsetup/skills/localsetup-framework-audit/scripts/run_framework_audit.py:275-278 | the comma-part loop adds to the name list exactly the non-empty stripped parts not yet present, in order |
| AuditHelp.ParseSubcommands | _localsetup/skills/localsetup-framework-audit/scripts/run_framework_audit.py:255-279 | the parsing loops return exactly `Subcommands`: distinct names in first-seen order (AuditHelp.Subcommands, AuditHelp.HeaderEndsSearch) |
| AuditInvocations.BaseHelp | _localsetup/skills/localsetup-framework-audit/scripts/run_framework_audit.py:438-439 | the base invocation is the interpreter, the script and --help |
| AuditInvocations.SubHelp | _localsetup/skills/localsetup-framework-audit/scripts/run_framework_audit.py:453 | a subcommand invocation is the interpreter, the script, the subcommand and --help |
| AuditInvocations.SubInvocations | _localsetup/skills/localsetup-framework-audit/scripts/run_framework_audit.py:452-453 | one subcommand invocation per subcommand, in order |
| AuditInvocations.DocArgv | _localsetup/skills/localsetup-framework-audit/scripts/run_framework_audit.py:458-471 | an accepted doc command contains the script path and a safe flag, is non-blank, and its vector starts with the interpreter and contains the script path |
| AuditInvocations.DocArgvGate | _localsetup/skills/localsetup-framework-audit/scripts/run_framework_audit.py:458-471 | a doc command is accepted exactly when it contains the script, has a safe flag and a word, and, when its first word is python or python3, the script is the interpreter or one of its later words |
| AuditInvocations.DocArgvShape | _localsetup/skills/localsetup-framework-audit/scripts/run_framework_audit.py:466-469 | a leading python or python3 word becomes the interpreter; any other command gets the interpreter and the script in front |
| AuditInvocations.DocOne | _localsetup/skills/localsetup-framework-audit/scripts/run_framework_audit.py:458-471 | one doc command contributes its accepted vector or nothing |
| AuditInvocations.DocArgvs | _localsetup/skills/localsetup-framework-audit/scripts/run_framework_audit.py:458-471 | the doc vectors are at most as many as the commands |
| AuditInvocations.DocArgvsOrigin | _localsetup/skills/localsetup-framework-audit/scripts/run_framework_audit.py:458-471 | every doc vector comes from an accepted command |
| AuditInvocations.HelpSubcommands | _localsetup/skills/localsetup-framework-audit/scripts/run_framework_audit.py:441-455 | subcommands from the help run are distinct; a help run that timed out or could not start gives none |
| AuditInvocations.HelpInvocations | _localsetup/skills/localsetup-framework-audit/scripts/run_framework_audit.py:439-453 | base help first, then one invocation per subcommand, all distinct |
| AuditInvocations.Invocations | _localsetup/skills/localsetup-framework-audit/scripts/run_framework_audit.py:435-479 | a missing script gives only the base help; otherwise the list starts with the base help and has no duplicates |
| AuditInvocations.InvocationOrigins | _localsetup/skills/localsetup-framework-audit/scripts/run_framework_audit.py:435-479 | every invocation starts with the interpreter, contains the script, and is the base help, a subcommand help or an accepted doc command |
| AuditInvocations.HelpOrigin | _localsetup/skills/localsetup-framework-audit/scripts/run_framework_audit.py:439-453 | a help invocation is the base help or a help for a listed subcommand |
| AuditInvocations.DeriveInvocations | _localsetup/skills/localsetup-framework-audit/scripts/run_framework_audit.py:426-479 | the derivation loops return exactly `Invocations` of the documented commands, so the list starts with the base help, has no duplicates and keeps first-seen order (AuditInvocations.Invocations, AuditInvocations.InvocationOrigins) |
| AuditInvocations.AddHelpInvocations | _localsetup/skills/localsetup-framework-audit/scripts/run_framework_audit.py:439-453 | the subcommand loop returns exactly `HelpInvocations`: the base help, then one `--help` invocation per subcommand, all distinct (AuditInvocations.HelpOrigin) |
| AuditInvocations.AddDocInvocations | _localsetup/skills/localsetup-framework-audit/scripts/run_framework_audit.py:458-471 | the doc loop appends each accepted vector not yet present |
| AuditInvocations.SeenFilter | _localsetup/skills/localsetup-framework-audit/scripts/run_framework_audit.py:472-479 | the seen-set loop keeps the first occurrence of each vector in order; on a duplicate-free list it changes nothing |
| AuditDeep.Observe | _localsetup/skills/localsetup-framework-audit/scripts/run_framework_audit.py:529-542 | a timeout gives exit -1 with stderr "timeout"; a start failure gives exit -1 with the error text; neither has stdout |
| AuditDeep.Classify | _localsetup/skills/localsetup-framework-audit/scripts/run_framework_audit.py:543-549 | pass exactly when the exit code is 0 and stderr has no "Traceback"; fail exactly otherwise; never unvalidated or skipped |
| AuditDeep.UnfinishedRunFails | _localsetup/skills/localsetup-framework-audit/scripts/run_framework_audit.py:539-549 | a timeout or a start failure is classified fail |
| AuditDeep.Snippet | _localsetup/skills/localsetup-framework-audit/scripts/run_framework_audit.py:550-551 | a snippet is a prefix of the output: at most 500 characters for a pass, 2000 otherwise |
| AuditDeep.Stamp | _localsetup/skills/localsetup-framework-audit/scripts/run_framework_audit.py:552 | the timestamp uses digits and "_" only |
| AuditDeep.TraceName | _localsetup/skills/localsetup-framework-audit/scripts/run_framework_audit.py:555 | the trace file name is non-empty, has no "/" and no ".." |
| AuditDeep.TraceRelParts | _localsetup/skills/localsetup-framework-audit/scripts/run_framework_audit.py:553-555 | the trace path splits at "/" into exactly the skill id as the written sanitizer leaves it, the sanitized script and the file name |
| AuditDeep.ThreeParts | _localsetup/skills/localsetup-framework-audit/scripts/run_framework_audit.py:555 | three components without "/" joined by "/" split back into those three |
| AuditDeep.BlankIdTraceAbsolute | _localsetup/skills/localsetup-framework-audit/scripts/run_framework_audit.py:553-555 | with the written sanitizer, a skill id of one space gives a trace path that starts with "/" |
| AuditDeep.SandboxDir | _localsetup/skills/localsetup-framework-audit/scripts/run_framework_audit.py:519 | the sandbox directory taken from the helper's output has no whitespace at either end |
| AuditDeep.KnownScripts | _localsetup/skills/localsetup-framework-audit/scripts/run_framework_audit.py:243-249 | the scripts SKILL.md commands may name are discovered scripts that exist |
| AuditDeep.PlanOf | _localsetup/skills/localsetup-framework-audit/scripts/run_framework_audit.py:524-527 | one planned run per invocation, numbered from 0 |
| AuditDeep.ScriptPlan | _localsetup/skills/localsetup-framework-audit/scripts/run_framework_audit.py:524-527 | a script has at least one run, the first being its base help, all named for the entry and script and numbered from 0 |
| AuditDeep.ScriptsPlan | _localsetup/skills/localsetup-framework-audit/scripts/run_framework_audit.py:524-527 | every planned run of an entry carries the entry's name |
| AuditDeep.EntryPlan | _localsetup/skills/localsetup-framework-audit/scripts/run_framework_audit.py:501-523 | an entry runs nothing unless it is a directory named `localsetup-...` with scripts whose sandbox helper exited 0 and printed a non-blank directory; every run carries the entry's name |
| AuditDeep.SkippedEntryNoRuns | _localsetup/skills/localsetup-framework-audit/scripts/run_framework_audit.py:504-523 | a skipped entry adds no runs |
| AuditDeep.TraceFile | _localsetup/skills/localsetup-framework-audit/scripts/run_framework_audit.py:558-570 | the trace_file field is non-empty exactly when a trace was kept |
| AuditDeep.EvidenceOf | _localsetup/skills/localsetup-framework-audit/scripts/run_framework_audit.py:539-580 | a record keeps the run's skill, script and vector; it is pass or fail; pass snippets are at most 500 and all snippets at most 2000; a trace is kept exactly for a failing run whose write succeeded |
| AuditDeep.EvidenceFrom | _localsetup/skills/localsetup-framework-audit/scripts/run_framework_audit.py:527-581 | one record per planned run |
| AuditDeep.EvidenceFromAt | _localsetup/skills/localsetup-framework-audit/scripts/run_framework_audit.py:527-581 | the k-th record is the record of the k-th run, numbered from the given first |
| AuditDeep.TracedOrigin | _localsetup/skills/localsetup-framework-audit/scripts/run_framework_audit.py:566 | every created trace file belongs to some record |
| AuditDeep.TracedAppend | _localsetup/skills/localsetup-framework-audit/scripts/run_framework_audit.py:566 | the created trace files of two record lists concatenate |
| AuditDeep.Summarize | _localsetup/skills/localsetup-framework-audit/scripts/run_framework_audit.py:582-583 | total_invocations is the number of records |
| AuditDeep.AddedTraces | _localsetup/skills/localsetup-framework-audit/scripts/run_framework_audit.py:591-596 | the trace files that reach the archive are the created ones whose addition succeeded, in order, never more than were created |
| AuditDeep.AddedTracesOrigin | _localsetup/skills/localsetup-framework-audit/scripts/run_framework_audit.py:591-596 | each trace file in the archive is a created one whose addition succeeded |
| AuditDeep.AddedTracesComplete | _localsetup/skills/localsetup-framework-audit/scripts/run_framework_audit.py:591-596 | every created trace file whose addition succeeded is in the archive |
| AuditDeep.AddedTracesAll | _localsetup/skills/localsetup-framework-audit/scripts/run_framework_audit.py:591-596 | when no addition fails, every created trace file is in the archive, in order |
| AuditDeep.AddedTracesNone | _localsetup/skills/localsetup-framework-audit/scripts/run_framework_audit.py:591-596 | when every addition fails (ValueError or OSError), the archive is written with no members |
| AuditDeep.ArchiveNames | _localsetup/skills/localsetup-framework-audit/scripts/run_framework_audit.py:591-596 | there is one member name per trace file that reaches the archive (each is that file's trace path, by `MapFrom`) |
| AuditDeep.Deep | _localsetup/skills/localsetup-framework-audit/scripts/run_framework_audit.py:491-599 | no staging directory gives no evidence and no paths; a missing sandbox helper gives no evidence; otherwise the archive exists exactly when it could be opened, and it lists the trace path of each created trace file whose addition succeeded, a failed one being skipped |
| AuditDeep.SummaryCounts | _localsetup/skills/localsetup-framework-audit/scripts/run_framework_audit.py:582-588 | pass + fail + unvalidated + skipped == total == number of records, with unvalidated and skipped both 0 |
| AuditDeep.EvidenceFacts | _localsetup/skills/localsetup-framework-audit/scripts/run_framework_audit.py:539-581 | the n-th record of the analysis belongs to the n-th planned run: same vector, exit code of that run; pass exactly for exit 0 without "Traceback"; trace_file non-empty exactly for a failing run whose write succeeded; snippet bounds hold |
| AuditDeep.RecordFacts | _localsetup/skills/localsetup-framework-audit/scripts/run_framework_audit.py:539-580 | the same facts for one record |
| AuditDeep.TraceRelSafe | _localsetup/skills/localsetup-framework-audit/scripts/run_framework_audit.py:553-555 | the trace path of a skill whose id starts with `localsetup-` splits into three components, none containing ".." and the first non-empty, so it does not start with "/" |
| AuditDeep.PartsSafe | _localsetup/skills/localsetup-framework-audit/scripts/run_framework_audit.py:555 | three safe components joined by "/" form a safe trace path |
| AuditDeep.ArchiveNamesSafe | _localsetup/skills/localsetup-framework-audit/scripts/run_framework_audit.py:589-596 | every archive name is a safe trace path: the archive names only traces of planned runs, and every planned run belongs to a `localsetup-` skill |
| AuditDeep.EntriesPlanPrefixed | _localsetup/skills/localsetup-framework-audit/scripts/run_framework_audit.py:501-527 | every planned run carries the name of a skill directory that starts with `localsetup-` |
| AuditDeep.DeepAnalysis | _localsetup/skills/localsetup-framework-audit/scripts/run_framework_audit.py:482-599 | the skill and run loops compute exactly `Deep`, whose summary, evidence and archive facts are stated by AuditDeep.SummaryCounts, AuditDeep.EvidenceFacts and AuditDeep.ArchiveNamesSafe |
| AuditDeep.PackArchive | _localsetup/skills/localsetup-framework-audit/scripts/run_framework_audit.py:589-596 | the archive loop adds exactly the members `ArchiveNames` states: each created trace file in order, one whose addition raises passed over |
| AuditDeep.RunSkill | _localsetup/skills/localsetup-framework-audit/scripts/run_framework_audit.py:504-581 | one skill entry appends its records, and the created trace list stays the traces of all records |
| AuditDeep.RunScript | _localsetup/skills/localsetup-framework-audit/scripts/run_framework_audit.py:524-581 | one script appends the records of its invocations |
| AuditDeep.RunAll | _localsetup/skills/localsetup-framework-audit/scripts/run_framework_audit.py:526-581 | the invocation loop appends one record per invocation with run_index counting from 0 |
| AuditDeep.RunOne | _localsetup/skills/localsetup-framework-audit/scripts/run_framework_audit.py:529-580 | one run yields exactly the record `RecordOf` builds from the run's classified outcome, bounded snippets and trace reference (AuditDeep.EvidenceFacts) |
| PrReview.Sanitize | _localsetup/skills/localsetup-pr-reviewer/scripts/pr_review.py:60-66 | a non-string is an error; a string is accepted exactly when its whitespace-collapsed form fits the limit, and the result is that form: single spaces, no edge whitespace |
| PrReview.SanitizeIdempotent | _localsetup/skills/localsetup-pr-reviewer/scripts/pr_review.py:60-66 | sanitizing an accepted result again gives the same result |
| PrReview.BlankAccepted | _localsetup/skills/localsetup-pr-reviewer/scripts/pr_review.py:63 | an all-whitespace string is accepted as "" |
| PrReview.Ext | _localsetup/skills/localsetup-pr-reviewer/scripts/pr_review.py:184 | the extension has no dot, and a name without a dot has none |
| PrReview.ExtOfSuffix | _localsetup/skills/localsetup-pr-reviewer/scripts/pr_review.py:184 | the extension of `stem.ext` is `ext` when `ext` has no dot |
| PrReview.Category | _localsetup/skills/localsetup-pr-reviewer/scripts/pr_review.py:184-202 | every file falls into one of the nine category names |
| PrReview.YamlIsConfig | _localsetup/skills/localsetup-pr-reviewer/scripts/pr_review.py:191 | a `.yml` file is config, whatever the stem |
| PrReview.DockerComposeIsConfig | _localsetup/skills/localsetup-pr-reviewer/scripts/pr_review.py:191-197 | `docker-compose.yml` lands in config, so the docker branch never sees it |
| PrReview.CategorizedFilter | _localsetup/skills/localsetup-pr-reviewer/scripts/pr_review.py:178-203 | a category key is present exactly when some file falls in it, and it lists those files in order |
| PrReview.CategorizedIs | _localsetup/skills/localsetup-pr-reviewer/scripts/pr_review.py:178-203 | the same, stated with an index witness |
| PrReview.CategoriesPartition | _localsetup/skills/localsetup-pr-reviewer/scripts/pr_review.py:181-202 | every non-empty file is listed under its own category and under no other |
| PrReview.CategorizeFiles | _localsetup/skills/localsetup-pr-reviewer/scripts/pr_review.py:178-203 | the loop builds the map with exactly the occupied categories, each listing its files in input order |
| PrReview.HunkStart | _localsetup/skills/localsetup-pr-reviewer/scripts/pr_review.py:215 | a hunk start is parsed only from a line starting with `@@ -` |
| PrReview.HunkStartOf | _localsetup/skills/localsetup-pr-reviewer/scripts/pr_review.py:215-217 | a line `@@ -a[,b] +c...` yields `c` as the new line number |
| PrReview.HunkHeaderStart | _localsetup/skills/localsetup-pr-reviewer/scripts/pr_review.py:215-217 | the header printed from numbers a, b, c parses back to c |
| PrReview.DigitsValueOfNatToStr | _localsetup/skills/localsetup-pr-reviewer/scripts/pr_review.py:217 | decimal digits read back to the number they print |
| PrReview.FileLabel | _localsetup/skills/localsetup-pr-reviewer/scripts/pr_review.py:232 | a finding names its file, or "unknown" when there is none |
| PrReview.Context | _localsetup/skills/localsetup-pr-reviewer/scripts/pr_review.py:236 | the context is at most 120 characters, the stripped text after the first character |
| PrReview.ActivePatterns | _localsetup/skills/localsetup-pr-reviewer/scripts/pr_review.py:221-228 | secret and general patterns always; Go patterns added for `.go`, Python for `.py`, JavaScript for `.js`, `.jsx`, `.ts` and `.tsx`; nothing added without a file or for any other file |
| PrReview.MatchFindings | _localsetup/skills/localsetup-pr-reviewer/scripts/pr_review.py:229-237 | one finding per pattern that matches the line, each with the file label, line number and context, and the category and message of a matching pattern |
| PrReview.Classify | _localsetup/skills/localsetup-pr-reviewer/scripts/pr_review.py:211-239 | a line is a file header exactly when it starts with `+++ b/`, a hunk header when it is not one and parses as a hunk, an added line when it starts with "+" but not "+++", a removed line when it starts with "-" |
| PrReview.AnalyzeDiff | _localsetup/skills/localsetup-pr-reviewer/scripts/pr_review.py:206-240 | the line loop over the diff returns exactly the findings of `Analyze`, so findings come only from added lines with the current file label and line counter (PrReview.FindingsFromAddedLines, PrReview.AnalyzeSourceDiff) |
| PrReview.AnalyzeSourceDiff | _localsetup/skills/localsetup-pr-reviewer/scripts/pr_review.py:206-240 | the same with the source's own pattern tables |
| PrReview.CounterAfterHunk | _localsetup/skills/localsetup-pr-reviewer/scripts/pr_review.py:215-239 | after the last hunk header, the line number is its start plus the count of added and context lines since |
| PrReview.CounterBeforeHunk | _localsetup/skills/localsetup-pr-reviewer/scripts/pr_review.py:209-239 | before any hunk header, the line number counts the added and context lines |
| PrReview.FileAfterHeader | _localsetup/skills/localsetup-pr-reviewer/scripts/pr_review.py:211-213 | the current file is the path of the last `+++ b/` header |
| PrReview.FileWithoutHeader | _localsetup/skills/localsetup-pr-reviewer/scripts/pr_review.py:208 | without a file header there is no current file |
| PrReview.FindingsFromAddedLines | _localsetup/skills/localsetup-pr-reviewer/scripts/pr_review.py:219-237 | every finding comes from an added line of the diff |
| PrReview.BaseName | _localsetup/skills/localsetup-pr-reviewer/scripts/pr_review.py:249 | the base name has no "/" |
| PrReview.Stripped | _localsetup/skills/localsetup-pr-reviewer/scripts/pr_review.py:246 | each file name is stripped, position by position |
| PrReview.Bullets | _localsetup/skills/localsetup-pr-reviewer/scripts/pr_review.py:268 | one `  - ` bullet per missing file, in order |
| PrReview.ReportFor | _localsetup/skills/localsetup-pr-reviewer/scripts/pr_review.py:267-269 | the adequate message exactly when no file is missing |
| PrReview.HasMatchingTest | _localsetup/skills/localsetup-pr-reviewer/scripts/pr_review.py:259-263 | the test loop finds a match exactly when some test file shares the directory or names the source |
| PrReview.CheckTestCoverage | _localsetup/skills/localsetup-pr-reviewer/scripts/pr_review.py:243-269 | the coverage loops return exactly `CoverageReport`, which is the adequate message exactly when no source file lacks a matching test (PrReview.CoverageAdequateIff) |
| PrReview.CoverageAdequateIff | _localsetup/skills/localsetup-pr-reviewer/scripts/pr_review.py:254-269 | the report is the adequate message exactly when every source file has a matching test or is skipped |
| PrReview.ReportedFiles | _localsetup/skills/localsetup-pr-reviewer/scripts/pr_review.py:255-266 | every reported file is a source file with no matching test and no skip keyword |
| PrReview.ChooseVerdict | _localsetup/skills/localsetup-pr-reviewer/scripts/pr_review.py:354-364 | security concerns exactly when a SECURITY finding exists; needs attention exactly when none but an ERROR_HANDLING or RISK finding exists; style notes exactly when only STYLE, TODO or TYPING findings exist; looks good otherwise |
| PrReview.VerdictMonotone | _localsetup/skills/localsetup-pr-reviewer/scripts/pr_review.py:354-364 | adding findings never lowers the verdict's severity |
| PrReview.RecordReview | _localsetup/skills/localsetup-pr-reviewer/scripts/pr_review.py:410-417 | the state gains or replaces only the PR's key, whose status is "reviewed"; every other key is unchanged |
| PrReview.RecordThenReviewed | _localsetup/skills/localsetup-pr-reviewer/scripts/pr_review.py:410-417 | right after recording, the PR counts as reviewed exactly for the head commit that was recorded |
| PrReview.RecordKeepsOthers | _localsetup/skills/localsetup-pr-reviewer/scripts/pr_review.py:410-417 | recording one PR does not change whether another counts as reviewed |
| PrReview.CmdReview | _localsetup/skills/localsetup-pr-reviewer/scripts/pr_review.py:442-447 | exit 2 exactly for a PR number outside 1..999999, leaving the state alone; otherwise a view that was not loaded or is the empty object (`if not view`) gives exit 0 with the state unchanged; a loaded view whose head commit is not a string or list, or whose author is truthy but not an object, raises (Err); any other loaded view gives exit 0 with the state recording the report path `outdir/N.md` |
| SkillValidationScan.InSomeRange | _localsetup/tools/skill_validation_scan.py:51-57 | true exactly when the code point lies in one of the ranges |
| SkillValidationScan.LatinNotForeign | _localsetup/tools/skill_validation_scan.py:34-48 | no character below U+0400 (ASCII, Latin-1, Latin extended) counts as foreign |
| SkillValidationScan.RangeEndsForeign | _localsetup/tools/skill_validation_scan.py:37-57 | both ends of every foreign range count as foreign, so the bounds are inclusive |
| SkillValidationScan.TrailingRunSuffix | _localsetup/tools/skill_validation_scan.py:65-72 | the run counter is the length of the trailing run of script characters: all of them belong to the script, and the one before does not |
| SkillValidationScan.HasLongRun | _localsetup/tools/skill_validation_scan.py:60-73 | the loop says yes exactly when some prefix ends in a run of at least min_run script characters |
| SkillValidationScan.HasSubstantialForeignLanguage | _localsetup/tools/skill_validation_scan.py:60-73 | the same for the foreign-script table |
| SkillValidationScan.ReachedGivesFlag | _localsetup/tools/skill_validation_scan.py:67-70 | reaching min_run at any character flags the text |
| SkillValidationScan.NeverReachedNoFlag | _localsetup/tools/skill_validation_scan.py:66-73 | a text whose runs all stay below min_run is not flagged |
| SkillValidationScan.Printable | _localsetup/tools/skill_validation_scan.py:97-102 | same length; every control character or DEL becomes a space and every other character is kept |
| SkillValidationScan.SanitizeForOutput | _localsetup/tools/skill_validation_scan.py:93-106 | the character loop returns exactly `SanitizedForOutput`, whose length bound, cleanliness and idempotence are stated by SkillValidationScan.SanitizedForOutputLength, SkillValidationScan.SanitizedForOutputClean and SkillValidationScan.SanitizedForOutputIdempotent |
| SkillValidationScan.SanitizedForOutputLength | _localsetup/tools/skill_validation_scan.py:103-106 | with a limit of at least 3 the result fits it: a stripped text over the limit becomes its first limit-3 characters plus "...", exactly the limit long; a shorter one is returned as is |
| SkillValidationScan.SanitizedForOutputClean | _localsetup/tools/skill_validation_scan.py:97-103 | no control character or DEL survives |
| SkillValidationScan.SanitizedForOutputIdempotent | _localsetup/tools/skill_validation_scan.py:93-106 | sanitizing for display twice is the same as once |
| SkillValidationScan.AfterSecond | _localsetup/tools/skill_validation_scan.py:198-199 | no piece after a second separator when the separator is absent |
| SkillValidationScan.AfterSecondParts | _localsetup/tools/skill_validation_scan.py:198-200 | a found third piece means the text is a + sep + b + sep + c with a and b free of the separator |
| SkillValidationScan.StripFrontmatter | _localsetup/tools/skill_validation_scan.py:196-197 | a text without "---" is returned unchanged |
| SkillValidationScan.StripFrontmatterShape | _localsetup/tools/skill_validation_scan.py:194-201 | the result is the text itself, or the part after the second "---" with leading line feeds removed |
| SkillValidationScan.SingleMarkerUnchanged | _localsetup/tools/skill_validation_scan.py:199-201 | a text with a single "---" is returned unchanged |
| SkillValidationScan.BodyAfterFrontmatter | _localsetup/tools/skill_validation_scan.py:194-201 | `---fm---body` yields the body with leading line feeds removed |
| SkillValidationScan.Or | _localsetup/tools/skill_validation_scan.py:184-186 | Python's `x or default`: the value when truthy, the default otherwise |
| SkillValidationScan.PatternOf | _localsetup/tools/skill_validation_scan.py:181-190 | an item becomes a pattern exactly when it is an object with a non-empty keyword list or a truthy regex; scope, id and description default to "all", "" and "" |
| SkillValidationScan.CategoryPatterns | _localsetup/tools/skill_validation_scan.py:181-190 | the item loop keeps, in order, exactly the usable patterns of one category list |
| SkillValidationScan.LoadPatterns | _localsetup/tools/skill_validation_scan.py:170-191 | the category loop returns exactly `LoadedPatterns`, so every loaded pattern comes from one of the six categories and has keywords or a regex (SkillValidationScan.LoadedPatternsOnlyCategories, SkillValidationScan.LoadedPatternsUsable) |
| SkillValidationScan.CollectCategories | _localsetup/tools/skill_validation_scan.py:177-190 | the category loop returns the patterns of the six categories in order |
| SkillValidationScan.LoadedPatternsUsable | _localsetup/tools/skill_validation_scan.py:189-190 | every loaded pattern has keywords or a regex and a truthy scope |
| SkillValidationScan.LoadedPatternsOnlyCategories | _localsetup/tools/skill_validation_scan.py:177-180 | only the six category keys of the document matter |
| SkillValidationScan.LoadedFromMap | _localsetup/tools/skill_validation_scan.py:176-191 | a mapping document loads the six categories in the listed order |
| SkillValidationScan.FirstKeyword | _localsetup/tools/skill_validation_scan.py:219-223 | a found keyword is one of the pattern's keywords |
| SkillValidationScan.FirstKeywordFound | _localsetup/tools/skill_validation_scan.py:219-223 | the found keyword is the first one whose lower-cased form occurs in the lower-cased line, at its first position |
| SkillValidationScan.FirstKeywordNone | _localsetup/tools/skill_validation_scan.py:219-223 | no keyword is found exactly when none of them occurs in the line |
| SkillValidationScan.FirstKeywordFails | _localsetup/tools/skill_validation_scan.py:220 | an error comes from a keyword that is not a string, before any keyword was found |
| SkillValidationScan.FindFirstKeyword | _localsetup/tools/skill_validation_scan.py:219-223 | the keyword loop returns exactly `FirstKeyword`: the first listed keyword found case-insensitively, with its position (SkillValidationScan.FirstKeywordFound, SkillValidationScan.FirstKeywordNone) |
| SkillValidationScan.KeywordHits | _localsetup/tools/skill_validation_scan.py:218-223 | at most one keyword hit per line, on that line, at a 1-based column |
| SkillValidationScan.RegexHits | _localsetup/tools/skill_validation_scan.py:224-230 | at most one regex hit per line, on that line, at a 1-based column |
| SkillValidationScan.KeywordHitIsFirstKeyword | _localsetup/tools/skill_validation_scan.py:218-223 | the first hit of a keyword pattern is the first keyword found, with its id (or the keyword), the line, the column pos+1 and the description; with no keyword found, no keyword occurs |
| SkillValidationScan.AtMostOneHitWithoutRegex | _localsetup/tools/skill_validation_scan.py:218-230 | a pattern without a regex adds at most one hit per line |
| SkillValidationScan.ScanKeywords | _localsetup/tools/skill_validation_scan.py:218-223 | returns exactly the keyword hits of one pattern on one line: at most one hit, at a 1-based column (SkillValidationScan.KeywordHits) |
| SkillValidationScan.ScanRegex | _localsetup/tools/skill_validation_scan.py:224-230 | returns exactly the regex hits of one pattern on one line: at most one hit, at a 1-based column (SkillValidationScan.RegexHits) |
| SkillValidationScan.ScanLine | _localsetup/tools/skill_validation_scan.py:217-230 | returns exactly the hits of one line: the keyword hit, then the regex hit (SkillValidationScan.KeywordHitIsFirstKeyword, SkillValidationScan.AtMostOneHitWithoutRegex) |
| SkillValidationScan.PatternLinesErr | _localsetup/tools/skill_validation_scan.py:216-230 | an error on a line ends the scan of that pattern with that error |
| SkillValidationScan.PatternLineHits | _localsetup/tools/skill_validation_scan.py:215-230 | the line loop returns exactly the hits of one pattern over all lines, lines numbered from 1 (SkillValidationScan.PatternLinesPositions) |
| SkillValidationScan.MatchesErr | _localsetup/tools/skill_validation_scan.py:212-231 | an error in one pattern ends the whole search with that error |
| SkillValidationScan.FindMatchesInText | _localsetup/tools/skill_validation_scan.py:204-231 | the pattern loop returns exactly `Matches`, which uses only patterns in scope and places every hit on a real line and column (SkillValidationScan.MatchesInScopeOnly, SkillValidationScan.MatchesPositions) |
| SkillValidationScan.MatchesInScopeOnly | _localsetup/tools/skill_validation_scan.py:213-214 | only patterns whose scope is the filter or "all" contribute |
| SkillValidationScan.PatternLinesPositions | _localsetup/tools/skill_validation_scan.py:215-228 | every hit of a pattern lies on one of the scanned lines, at a 1-based column |
| SkillValidationScan.MatchesPositions | _localsetup/tools/skill_validation_scan.py:211-231 | every hit lies on line 1..number of lines, at a 1-based column |
| SkillValidationScan.EnsurePatternFile | _localsetup/tools/skill_validation_scan.py:131-167 | a missing file gives "missing" without fetching, else "fetched" or "fetch_failed"; an unreadable one "read_failed"; a parsed non-mapping raises; a parsed mapping gives "ok" or "stale" |
| SkillValidationScan.StaleIff | _localsetup/tools/skill_validation_scan.py:141-153 | "stale" exactly when "updated" is a non-empty string whose parsed age is at least 7 days |
| SkillValidationScan.NoUpdatedIsOk | _localsetup/tools/skill_validation_scan.py:141-143 | a file without a truthy "updated" is ok |
| SkillValidationScan.Str | _localsetup/tools/skill_validation_scan.py:381-383 | `str()` of a string is the string itself |
| SkillValidationScan.HitLines | _localsetup/tools/skill_validation_scan.py:379-384 | the report lines are complete exactly when every hit could be printed, one line per hit |
| SkillValidationScan.ScanReport | _localsetup/tools/skill_validation_scan.py:373-385 | "No concerns" exactly for no hits and no foreign text; otherwise "REVIEW", then the non-Latin note when flagged, then one line per hit |
| SkillValidationScan.NoConcernsIff | _localsetup/tools/skill_validation_scan.py:373-376 | the report says no concerns exactly when there are no hits and no foreign-script flag |
| SkillValidationScan.EnsureExit | _localsetup/tools/skill_validation_scan.py:322-340 | exit 2 exactly for a stale file, 0 exactly when the file is ok, 1 otherwise |
| SkillValidationScan.MainExit | _localsetup/tools/skill_validation_scan.py:305-391 | a NUL in a path exits 1; ensure-only mode exits as the pattern check; no skill directory exits 2; a non-directory or one outside the scan root exits 1; exit 0 exactly when the pattern file is ok and either ensure-only mode or a completed scan of a valid directory |
| Evaluation.ElementText | _localsetup/skills/localsetup-mcp-builder/scripts/evaluation.py:33-34 | an element's text, None read as "", has no whitespace at either end |
| Evaluation.QaPairs | _localsetup/skills/localsetup-mcp-builder/scripts/evaluation.py:27-35 | one pair per qa_pair element that has both a question and an answer |
| Evaluation.QaPairsSound | _localsetup/skills/localsetup-mcp-builder/scripts/evaluation.py:27-35 | every pair comes from a complete element, with its stripped question and answer |
| Evaluation.ParseEvaluationFile | _localsetup/skills/localsetup-mcp-builder/scripts/evaluation.py:20-40 | an unparsable file gives no pairs; otherwise the loop returns exactly `QaPairs`: one pair per element with both a question and an answer (Evaluation.QaPairsSound) |
| Evaluation.ExtractXmlContent | _localsetup/skills/localsetup-mcp-builder/scripts/evaluation.py:43-49 | None exactly for no text, empty text or no `<tag>...</tag>` match; otherwise the stripped last match |
| Evaluation.ExtractWrapped | _localsetup/skills/localsetup-mcp-builder/scripts/evaluation.py:47-49 | `<tag>x</tag>` with no "<" in x yields the stripped x |
| Evaluation.NumToolCallsIsTotalCount | _localsetup/skills/localsetup-mcp-builder/scripts/evaluation.py:94 | num_tool_calls, the sum of the duration lists, equals the sum of the call counts when each list is as long as its count |
| Evaluation.Score | _localsetup/skills/localsetup-mcp-builder/scripts/evaluation.py:91 | score 1 exactly when the extracted answer is non-empty and equal to the expected answer, 0 otherwise |
| Evaluation.EvaluateSingleTask | _localsetup/skills/localsetup-mcp-builder/scripts/evaluation.py:52-97 | a provider error gives no answer, score 0, no tool calls and the summary "Provider error: ..."; otherwise answer, summary and feedback are the extracted tags, the tool metrics are passed through, and the score follows the answer |
| Evaluation.SumScoresCountsCorrect | _localsetup/skills/localsetup-mcp-builder/scripts/evaluation.py:162 | the sum of 0/1 scores is the number of correct tasks |
| Evaluation.Evaluations | _localsetup/skills/localsetup-mcp-builder/scripts/evaluation.py:157-160 | one result per pair, the i-th being the evaluation of the i-th task |
| Evaluation.RunEvaluation | _localsetup/skills/localsetup-mcp-builder/scripts/evaluation.py:133-166 | an error exactly when a task count is given and differs from the number of pairs; otherwise one result per pair in order, and "correct" is the sum of scores, the number of correct tasks |
| Evaluation.PairsMapKeys | _localsetup/skills/localsetup-mcp-builder/scripts/evaluation.py:200-203 | a key is in the parsed map exactly when some well-formed entry sets it |
| Evaluation.PairsMapLastWins | _localsetup/skills/localsetup-mcp-builder/scripts/evaluation.py:200-203 | the value of a key is the one set by the last entry that sets it |
| Evaluation.EntryOfShape | _localsetup/skills/localsetup-mcp-builder/scripts/evaluation.py:201-203 | an accepted entry contains the separator and yields a stripped key and a stripped value |
| Evaluation.ParsePairs | _localsetup/skills/localsetup-mcp-builder/scripts/evaluation.py:195-220 | no list gives an empty map; otherwise the loop returns exactly `PairsMap`, whose keys and last-wins rule are stated by Evaluation.PairsMapKeys and Evaluation.PairsMapLastWins |
| Evaluation.ParseHeaders | _localsetup/skills/localsetup-mcp-builder/scripts/evaluation.py:195-206 | the same with ":" as separator |
| Evaluation.ParseEnvVars | _localsetup/skills/localsetup-mcp-builder/scripts/evaluation.py:209-220 | the same with "=" as separator |
| Emulation.LoadTasks | _localsetup/skills/localsetup-mcp-builder/scripts/llm_providers/emulation.py:20-25 | the script loads exactly when it is an object whose "tasks" is a list, and the tasks are that list |
| Emulation.StepsOf | _localsetup/skills/localsetup-mcp-builder/scripts/llm_providers/emulation.py:41-43 | "steps" when it is a list, else none |
| Emulation.ResponseOf | _localsetup/skills/localsetup-mcp-builder/scripts/llm_providers/emulation.py:44 | "response_text" when present, else "" |
| Emulation.ParseStep | _localsetup/skills/localsetup-mcp-builder/scripts/llm_providers/emulation.py:48-57 | a step is accepted exactly when it is an object with a truthy tool whose arguments are absent, null or an object; null arguments become the empty map |
| Emulation.Record | _localsetup/skills/localsetup-mcp-builder/scripts/llm_providers/emulation.py:66-69 | recording a call adds the tool once, increments its count and appends its duration; other tools are unchanged |
| Emulation.ReplayStep | _localsetup/skills/localsetup-mcp-builder/scripts/llm_providers/emulation.py:47-69 | replaying one more step extends the replay by that step, and an error stays |
| Emulation.ReplayStopsAtError | _localsetup/skills/localsetup-mcp-builder/scripts/llm_providers/emulation.py:47-63 | the first failing step ends the replay with its error |
| Emulation.ReplayOkIff | _localsetup/skills/localsetup-mcp-builder/scripts/llm_providers/emulation.py:47-69 | the replay succeeds exactly when every step is well formed and its call succeeds |
| Emulation.ReplayCountOf | _localsetup/skills/localsetup-mcp-builder/scripts/llm_providers/emulation.py:66-69 | after a successful replay, a tool is in the metrics exactly when some step names it, with a count equal to the number of such steps and one duration per call |
| Emulation.ReplayCounts | _localsetup/skills/localsetup-mcp-builder/scripts/llm_providers/emulation.py:66-69 | the same for all tools at once |
| Emulation.EmulationProvider.GetTask | _localsetup/skills/localsetup-mcp-builder/scripts/llm_providers/emulation.py:27-30 | an index in range gives that task; any other index is an error |
| Emulation.EmulationProvider.Outcome | _localsetup/skills/localsetup-mcp-builder/scripts/llm_providers/emulation.py:32-71 | an index out of range is an error; a successful run returns the task's response text and the metrics of replaying its steps, and succeeds exactly when the replay does |
| Emulation.EmulationProvider.RunAgentLoop | _localsetup/skills/localsetup-mcp-builder/scripts/llm_providers/emulation.py:32-71 | the step loop returns exactly `Outcome`: the response text and replay metrics on success, the first failing step's error otherwise (Emulation.ReplayOkIff, Emulation.ReplayCounts) |
| Emulation.Open | _localsetup/skills/localsetup-mcp-builder/scripts/llm_providers/emulation.py:16-25 | a provider is created exactly when the script loads, holding its tasks |
| Providers.OrString | _localsetup/skills/localsetup-mcp-builder/scripts/llm_providers/__init__.py:37-41 | Python's `x or default` on an optional string |
| Providers.MaxTokensOr | _localsetup/skills/localsetup-mcp-builder/scripts/llm_providers/__init__.py:45 | the given max tokens unless absent or 0, else 4096 |
| Providers.CreateProvider | _localsetup/skills/localsetup-mcp-builder/scripts/llm_providers/__init__.py:24-52 | claude and openai always succeed, emulation only with a non-empty script path, any other name fails; models default to the documented ones and the OpenAI settings are passed through |
| OpenAiCompat.Parameters | _localsetup/skills/localsetup-mcp-builder/scripts/llm_providers/openai_compat.py:53-55 | the input schema unless absent or None, in which case the empty object schema |
| OpenAiCompat.NameOf | _localsetup/skills/localsetup-mcp-builder/scripts/llm_providers/openai_compat.py:59 | the tool name, or "unknown" when absent |
| OpenAiCompat.DescriptionOf | _localsetup/skills/localsetup-mcp-builder/scripts/llm_providers/openai_compat.py:60 | the description when truthy, else "" |
| OpenAiCompat.ConvertTool | _localsetup/skills/localsetup-mcp-builder/scripts/llm_providers/openai_compat.py:56-62 | an object with exactly "type": "function" and a "function" object with exactly name, description and parameters |
| OpenAiCompat.ToOpenAiTools | _localsetup/skills/localsetup-mcp-builder/scripts/llm_providers/openai_compat.py:49-64 | one converted tool per input tool, in order, each of type function |
| OpenAiCompat.NameDefaultOnlyWhenAbsent | _localsetup/skills/localsetup-mcp-builder/scripts/llm_providers/openai_compat.py:59 | the name is "unknown" exactly when the tool has no name or is itself named "unknown" |
| RefreshPublicSkillIndex.Cleaned | _localsetup/tools/refresh_public_skill_index.py:97-105 | never longer; no control character or DEL survives (line feed, carriage return and tab become spaces, the rest are dropped) |
| RefreshPublicSkillIndex.CleanedClean | _localsetup/tools/refresh_public_skill_index.py:97-105 | a clean text is left unchanged |
| RefreshPublicSkillIndex.FinalStripNoop | _localsetup/tools/refresh_public_skill_index.py:106 | the trailing `.strip()` after whitespace collapse changes nothing |
| RefreshPublicSkillIndex.SanitizeText | _localsetup/tools/refresh_public_skill_index.py:88-109 | the character loop returns exactly `SanitizedText`, whose length bound, cleanliness and idempotence are stated by RefreshPublicSkillIndex.SanitizedTextLength, RefreshPublicSkillIndex.SanitizedTextClean and RefreshPublicSkillIndex.SanitizedTextIdempotent |
| RefreshPublicSkillIndex.SanitizedTextLength | _localsetup/tools/refresh_public_skill_index.py:107-109 | with a limit of at least 3 the result fits it; an over-long text becomes its first limit-3 characters plus "...", exactly the limit long |
| RefreshPublicSkillIndex.SanitizedTextClean | _localsetup/tools/refresh_public_skill_index.py:95-109 | the result has single spaces only, no leading space and no control character |
| RefreshPublicSkillIndex.TruncatedCollapsed | _localsetup/tools/refresh_public_skill_index.py:108 | truncating a collapsed text and adding "..." keeps it collapsed and clean |
| RefreshPublicSkillIndex.SanitizedTextIdempotent | _localsetup/tools/refresh_public_skill_index.py:95-109 | sanitizing twice is the same as once |
| RefreshPublicSkillIndex.SchemeEnd | _localsetup/tools/refresh_public_skill_index.py:117 | a scheme is a letter followed by scheme characters up to the first ":" |
| RefreshPublicSkillIndex.AuthorityLen | _localsetup/tools/refresh_public_skill_index.py:117 | the authority runs up to the first "/", "?" or "#" |
| RefreshPublicSkillIndex.SanitizeUrl | _localsetup/tools/refresh_public_skill_index.py:112-120 | raises (Err) exactly when the sanitized text is non-empty and its authority holds one of `[` and `]` but not the other; otherwise "" or the sanitized text, at most 2048 long, non-empty exactly when the sanitized text is non-empty, its lower-cased scheme is http or https and its authority is non-empty |
| RefreshPublicSkillIndex.ResanitizedUrl | _localsetup/tools/refresh_public_skill_index.py:112-120 | an accepted non-empty URL, stripped and sanitized again, comes back unchanged and does not raise |
| RefreshPublicSkillIndex.HttpUrlShape | _localsetup/tools/refresh_public_skill_index.py:117-118 | an http or https URL with an authority starts, lower-cased, with `http://` or `https://` followed by an authority character |
| RefreshPublicSkillIndex.AcceptedUrlShape | _localsetup/tools/refresh_public_skill_index.py:112-120 | every accepted non-empty URL has that shape |
| RefreshPublicSkillIndex.SentenceEnd | _localsetup/tools/refresh_public_skill_index.py:181 | the first position that is whitespace after ".", "!" or "?", or the end |
| RefreshPublicSkillIndex.FirstSentence | _localsetup/tools/refresh_public_skill_index.py:177-182 | a prefix of the collapsed text, at most 220 long, and empty exactly when the collapsed text is |
| RefreshPublicSkillIndex.FirstSentenceEnds | _localsetup/tools/refresh_public_skill_index.py:181-182 | when the first sentence ends within 220 characters, the result is exactly that sentence, ending in ".", "!" or "?" and followed by a space, with no earlier sentence end |
| RefreshPublicSkillIndex.KeysOf | _localsetup/tools/refresh_public_skill_index.py:40-63 | the keys of a hint table in table order |
| RefreshPublicSkillIndex.InferredIff | _localsetup/tools/refresh_public_skill_index.py:185-209 | a key is inferred exactly when one of its words occurs in the lower-cased text |
| RefreshPublicSkillIndex.InferredSound | _localsetup/tools/refresh_public_skill_index.py:188-190 | an inferred key has a matching word |
| RefreshPublicSkillIndex.InferredComplete | _localsetup/tools/refresh_public_skill_index.py:188-190 | a key one of whose words occurs is inferred |
| RefreshPublicSkillIndex.InferKeys | _localsetup/tools/refresh_public_skill_index.py:185-191 | the table loop returns exactly `Inferred` of the lower-cased text: the keys, in table order, one of whose words occurs in it (RefreshPublicSkillIndex.InferredIff) |
| RefreshPublicSkillIndex.InferCapabilities | _localsetup/tools/refresh_public_skill_index.py:185-191 | the same with the capability table |
| RefreshPublicSkillIndex.InferRequirements | _localsetup/tools/refresh_public_skill_index.py:194-200 | the same with the requirement table |
| RefreshPublicSkillIndex.InferRisks | _localsetup/tools/refresh_public_skill_index.py:203-209 | the same with the risk table |
| RefreshPublicSkillIndex.TailGroup | _localsetup/tools/refresh_public_skill_index.py:30 | `(.+)$` takes a non-empty suffix exactly when text remains |
| RefreshPublicSkillIndex.HeaderGroup | _localsetup/tools/refresh_public_skill_index.py:30 | a section title comes only from a line starting with "##" and is a non-empty suffix of it |
| RefreshPublicSkillIndex.HeaderLineMatches | _localsetup/tools/refresh_public_skill_index.py:30 | `## title` yields exactly the title |
| RefreshPublicSkillIndex.EntryMatch | _localsetup/tools/refresh_public_skill_index.py:28 | a matched entry line yields a non-empty name without "]", a non-empty URL without ")" and a non-empty description |
| RefreshPublicSkillIndex.AfterDash | _localsetup/tools/refresh_public_skill_index.py:28 | the same groups, read after the leading dash |
| RefreshPublicSkillIndex.AfterBracket | _localsetup/tools/refresh_public_skill_index.py:28 | the same groups, read after the opening bracket |
| RefreshPublicSkillIndex.AfterParen | _localsetup/tools/refresh_public_skill_index.py:28 | a non-empty URL without ")" and a non-empty description |
| RefreshPublicSkillIndex.DescGroup | _localsetup/tools/refresh_public_skill_index.py:28 | the description group is non-empty |
| RefreshPublicSkillIndex.EntryLineMatches | _localsetup/tools/refresh_public_skill_index.py:28 | `- [name](url) - desc` yields exactly name, URL and description when they have the allowed shape |
| RefreshPublicSkillIndex.EntryStart | _localsetup/tools/refresh_public_skill_index.py:28 | a line starting with `- [` is matched from the bracket on |
| RefreshPublicSkillIndex.BracketPartMatches | _localsetup/tools/refresh_public_skill_index.py:28 | the bracket group ends at the first "]" and is followed by "(" |
| RefreshPublicSkillIndex.ParenPartMatches | _localsetup/tools/refresh_public_skill_index.py:28 | the parenthesis group ends at the first ")" and is followed by the description |
| RefreshPublicSkillIndex.DescGroupMatches | _localsetup/tools/refresh_public_skill_index.py:28 | ` - desc` yields desc |
| RefreshPublicSkillIndex.SecondCapUnused | _localsetup/tools/refresh_public_skill_index.py:136-140 | the description is already within 300 characters after sanitizing, so the second cap never fires |
| RefreshPublicSkillIndex.ClassifyBounds | _localsetup/tools/refresh_public_skill_index.py:127-140 | a section title is at most 120 long; an entry has a non-empty name of at most 140, a non-empty URL of at most 2048 that `sanitize_url` accepts again unchanged, and a description of at most 300 |
| RefreshPublicSkillIndex.ParseAwesomeList | _localsetup/tools/refresh_public_skill_index.py:123-150 | the line loop returns exactly `ParseResult`: the ValueError exactly when some entry line's URL makes `urlparse` raise, otherwise `Parsed`, whose entries are well formed and carry the last preceding category (RefreshPublicSkillIndex.ParsedWellFormed, RefreshPublicSkillIndex.CategoryIsLastHeader) |
| RefreshPublicSkillIndex.UrlErrorLineRaises | _localsetup/tools/refresh_public_skill_index.py:123-150 | one entry line whose URL raises makes the whole parse raise, whatever the other lines are |
| RefreshPublicSkillIndex.ParseRaisesPrefix | _localsetup/tools/refresh_public_skill_index.py:123-150 | once a prefix of the lines raises, the whole list raises |
| RefreshPublicSkillIndex.ParsedStep | _localsetup/tools/refresh_public_skill_index.py:126-149 | one more line appends its entry, if any, under the current category, and a section header replaces the category |
| RefreshPublicSkillIndex.CategoryIsLastHeader | _localsetup/tools/refresh_public_skill_index.py:127-148 | the category of an entry is the title of the last section header before it |
| RefreshPublicSkillIndex.NoHeaderNoCategory | _localsetup/tools/refresh_public_skill_index.py:125-147 | before any section header there is no category |
| RefreshPublicSkillIndex.ParsedCount | _localsetup/tools/refresh_public_skill_index.py:131-149 | exactly one entry per line that is a usable entry line |
| RefreshPublicSkillIndex.CategoryAfterBound | _localsetup/tools/refresh_public_skill_index.py:129 | the current category is at most 120 long |
| RefreshPublicSkillIndex.ParsedWellFormed | _localsetup/tools/refresh_public_skill_index.py:134-149 | every entry has a non-empty name of at most 140, a non-empty URL of at most 2048 that `sanitize_url` accepts again unchanged, a non-empty description of at most 300 (falling back to the name), the given registry and a category of at most 120 |
| RefreshPublicSkillIndex.StrList | _localsetup/tools/refresh_public_skill_index.py:249-251 | a list of strings becomes a list of the same length |
| RefreshPublicSkillIndex.CleanFields | _localsetup/tools/refresh_public_skill_index.py:213-221 | after the fallbacks, name and URL are never empty, and an entry URL that `sanitize_url` already accepted is kept as it is |
| RefreshPublicSkillIndex.LongSummaryParts | _localsetup/tools/refresh_public_skill_index.py:229-235 | the summary parts start with the short summary |
| RefreshPublicSkillIndex.LongSummary | _localsetup/tools/refresh_public_skill_index.py:236-248 | the long summary is at most 420 long |
| RefreshPublicSkillIndex.LongSummaryStarts | _localsetup/tools/refresh_public_skill_index.py:229-248 | the long summary starts with the short one |
| RefreshPublicSkillIndex.Clean | _localsetup/tools/refresh_public_skill_index.py:213-221 | returns exactly the cleaned fields, in which name and URL are never empty (RefreshPublicSkillIndex.CleanFields) |
| RefreshPublicSkillIndex.Derive | _localsetup/tools/refresh_public_skill_index.py:223-244 | returns exactly the derived summaries and hints of the cleaned fields (RefreshPublicSkillIndex.DerivedSummaries) |
| RefreshPublicSkillIndex.EnrichEntry | _localsetup/tools/refresh_public_skill_index.py:212-253 | returns exactly `Enriched`: every original key kept unchanged and the six derived keys added (RefreshPublicSkillIndex.EnrichedKeys, RefreshPublicSkillIndex.EntryKeysNotDerived) |
| RefreshPublicSkillIndex.WithDerivedKeys | _localsetup/tools/refresh_public_skill_index.py:246-252 | setting the derived keys adds exactly those six keys and keeps every other key |
| RefreshPublicSkillIndex.EntryKeysNotDerived | _localsetup/tools/refresh_public_skill_index.py:246 | no original entry key is a derived key |
| RefreshPublicSkillIndex.EnrichedKeys | _localsetup/tools/refresh_public_skill_index.py:212-253 | the enriched map has the entry's keys with their original values plus the six derived keys, so the fallbacks touch only derived fields |
| RefreshPublicSkillIndex.DerivedSummaries | _localsetup/tools/refresh_public_skill_index.py:223-248 | the short summary is non-empty and at most 220 long, the long one at most 420 and starts with the short one |
| RefreshPublicSkillIndex.UnknownNameSummary | _localsetup/tools/refresh_public_skill_index.py:218-223 | a blank name and description give the short summary "unknown-skill" |
| RefreshPublicSkillIndex.UrlDomainHint | _localsetup/tools/refresh_public_skill_index.py:243 | url_domain_hint is "github" exactly when the cleaned URL contains "github.com", ignoring case |
| RefreshPublicSkillIndex.RegistryUrl | _localsetup/tools/refresh_public_skill_index.py:270-272 | a registry line contributes only its non-empty sanitized URL |
| RefreshPublicSkillIndex.RegistryUrlsStep | _localsetup/tools/refresh_public_skill_index.py:269-274 | one more line appends its URL, if any |
| RefreshPublicSkillIndex.RegistryLineUrl | _localsetup/tools/refresh_public_skill_index.py:270-272 | an error exactly when the line is neither blank nor a comment and its URL makes `urlparse` raise; otherwise exactly the non-empty sanitized URL of the line, or none (RefreshPublicSkillIndex.RegistryUrl) |
| RefreshPublicSkillIndex.AddRegistryUrls | _localsetup/tools/refresh_public_skill_index.py:269-274 | returns exactly `Added`: the uncaught ValueError exactly when some registry line raises, otherwise the initial list with each new URL appended once |
| RefreshPublicSkillIndex.RegistryRaisesPrefix | _localsetup/tools/refresh_public_skill_index.py:268-274 | one registry line that raises ends `main`, whatever lines follow it |
| RefreshPublicSkillIndex.CollectSources | _localsetup/tools/refresh_public_skill_index.py:264-274 | the registry loop returns exactly `Sources`: an error exactly when a registry line raises, otherwise a list holding no URL twice and keeping the first occurrence (RefreshPublicSkillIndex.SourcesDedup) |
| RefreshPublicSkillIndex.InitialSourcesDistinct | _localsetup/tools/refresh_public_skill_index.py:264-267 | the two built-in registries differ |
| RefreshPublicSkillIndex.AddAllDedup | _localsetup/tools/refresh_public_skill_index.py:273-274 | adding URLs keeps the initial list as a prefix and yields the deduplication of initial plus added, first occurrence first |
| RefreshPublicSkillIndex.SourcesDedup | _localsetup/tools/refresh_public_skill_index.py:264-274 | when no registry line raises, the sources start with the two registries, have no duplicates, and are the deduplicated registry URLs after them |
| RefreshPublicSkillIndex.UrlInAppend | _localsetup/tools/refresh_public_skill_index.py:283 | a URL occurs in a concatenation exactly when it occurs in one part |
| RefreshPublicSkillIndex.AddUnseen | _localsetup/tools/refresh_public_skill_index.py:282-285 | the loop keeps the entries with a URL not seen before, and the seen set grows by the URLs of all entries |
| RefreshPublicSkillIndex.NewByUrlStep | _localsetup/tools/refresh_public_skill_index.py:283-285 | one more entry is kept exactly when its URL is new |
| RefreshPublicSkillIndex.NewByUrlDistinct | _localsetup/tools/refresh_public_skill_index.py:283-294 | kept entries have distinct URLs, none of them previously seen, all from the input |
| RefreshPublicSkillIndex.NewByUrlFirstWins | _localsetup/tools/refresh_public_skill_index.py:283-294 | the first entry with a new URL is kept |
| RefreshPublicSkillIndex.NewByUrlAppend | _localsetup/tools/refresh_public_skill_index.py:276-296 | deduplicating two lists in turn, sharing the seen set, is deduplicating their concatenation |
| RefreshPublicSkillIndex.EnrichedList | _localsetup/tools/refresh_public_skill_index.py:298 | one enriched entry per skill |
| RefreshPublicSkillIndex.DedupSkills | _localsetup/tools/refresh_public_skill_index.py:276-296 | the skill loop returns exactly `AllSkills`, deduplicated by URL with the first entry winning (RefreshPublicSkillIndex.AllSkillsDedup, RefreshPublicSkillIndex.NewByUrlFirstWins) |
| RefreshPublicSkillIndex.CollectSkills | _localsetup/tools/refresh_public_skill_index.py:276-298 | the method returns the enriched deduplicated skill list |
| RefreshPublicSkillIndex.BuildIndex | _localsetup/tools/refresh_public_skill_index.py:264-305 | returns exactly `IndexDoc`: an error exactly when a registry line raises; otherwise the deduplicated sources and the enriched, URL-deduplicated skills, where an awesome list whose parse raised contributes no skill |
| RefreshPublicSkillIndex.AllSkillsDedup | _localsetup/tools/refresh_public_skill_index.py:276-296 | all skills have distinct URLs, and every first occurrence of a URL among the awesome then Anthropic entries is kept |
| GuidedRepairPlan.Lookup | _localsetup/skills/localsetup-unfuck-my-git-state/scripts/guided_repair_plan.py:107-110 | a found plan belongs to the requested key |
| GuidedRepairPlan.LookupKey | _localsetup/skills/localsetup-unfuck-my-git-state/scripts/guided_repair_plan.py:21-30 | every symptom's key finds that symptom, and the keys are distinct |
| GuidedRepairPlan.LookupOnlyKeys | _localsetup/skills/localsetup-unfuck-my-git-state/scripts/guided_repair_plan.py:107 | a key finds a plan exactly when it is one of the six symptom keys |
| GuidedRepairPlan.Plan | _localsetup/skills/localsetup-unfuck-my-git-state/scripts/guided_repair_plan.py:30-82 | every plan text starts with its bracketed key on its own line |
| GuidedRepairPlan.Sanitize | _localsetup/skills/localsetup-unfuck-my-git-state/scripts/guided_repair_plan.py:85-89 | accepted exactly when the value is a string no longer than the limit before collapsing; the result is the collapsed form |
| GuidedRepairPlan.LimitBeforeCollapse | _localsetup/skills/localsetup-unfuck-my-git-state/scripts/guided_repair_plan.py:86 | a symptom over 64 characters is rejected even when its collapsed form would fit |
| GuidedRepairPlan.PrintPlan | _localsetup/skills/localsetup-unfuck-my-git-state/scripts/guided_repair_plan.py:106-110 | a plan is printed exactly for a known key, starting with that key in brackets; any other key is an error |
| GuidedRepairPlan.LastMeaningfulBelow | _localsetup/skills/localsetup-unfuck-my-git-state/scripts/guided_repair_plan.py:117-120 | the last line below n that is non-blank and not a comment, with none after it |
| GuidedRepairPlan.LastMeaningful | _localsetup/skills/localsetup-unfuck-my-git-state/scripts/guided_repair_plan.py:113-121 | "" exactly when no line is meaningful; otherwise the stripped last meaningful line, which does not start with whitespace or "#" |
| GuidedRepairPlan.LastLineNoComment | _localsetup/skills/localsetup-unfuck-my-git-state/scripts/guided_repair_plan.py:113-121 | a missing file gives ""; a result never starts with whitespace or "#" |
| GuidedRepairPlan.MatchesMembers | _localsetup/skills/localsetup-unfuck-my-git-state/scripts/guided_repair_plan.py:131-171 | a symptom is among the matches exactly when its check fired |
| GuidedRepairPlan.FindOrphan | _localsetup/skills/localsetup-unfuck-my-git-state/scripts/guided_repair_plan.py:135-140 | the loop finds an orphan exactly when some `worktree ` line names a non-empty path that does not exist |
| GuidedRepairPlan.RunChecks | _localsetup/skills/localsetup-unfuck-my-git-state/scripts/guided_repair_plan.py:133-170 | returns exactly the check results of a snapshot, from which GuidedRepairPlan.HeadRefReported and GuidedRepairPlan.ZeroHashReported state when each symptom fires |
| GuidedRepairPlan.Collect | _localsetup/skills/localsetup-unfuck-my-git-state/scripts/guided_repair_plan.py:131-170 | the matches are collected in the source's order |
| GuidedRepairPlan.RunDetection | _localsetup/skills/localsetup-unfuck-my-git-state/scripts/guided_repair_plan.py:124-172 | the matches are those of the snapshot's checks, and the unique list is their order-preserving deduplication, holding exactly the fired symptoms |
| GuidedRepairPlan.HeadRefReported | _localsetup/skills/localsetup-unfuck-my-git-state/scripts/guided_repair_plan.py:158-161 | head-ref-disagreement is reported exactly when both branch names are non-empty and differ |
| GuidedRepairPlan.ZeroHashReported | _localsetup/skills/localsetup-unfuck-my-git-state/scripts/guided_repair_plan.py:142-151 | zero-hash-worktree-entry is reported exactly when the worktree list has a zero-hash HEAD and the status is absent or not an initial repository |
| GuidedRepairPlan.BrokenRefsOnce | _localsetup/skills/localsetup-unfuck-my-git-state/scripts/guided_repair_plan.py:163-172 | when both the status and show-ref checks fire, missing-or-broken-refs is matched twice but listed once |
| GuidedRepairPlan.ExitCode | _localsetup/skills/localsetup-unfuck-my-git-state/scripts/guided_repair_plan.py:222-269 | --list exits 0; a symptom exits 2 when it fails sanitizing, 0 with its plan when known, 1 otherwise; no symptom, snapshot or repo exits 2; exit 0 exactly when something is printed |
| GuidedRepairPlan.SanitizeDir | _localsetup/skills/localsetup-unfuck-my-git-state/scripts/guided_repair_plan.py:92-97 | a path is accepted exactly when it fits 4096 characters and its collapsed form is a directory, which is returned |
| RegressionHarness.Sanitize | _localsetup/skills/localsetup-unfuck-my-git-state/scripts/regression_harness.py:29-35 | accepted exactly when the value is a string of at most 64 characters that is not blank; the result is the non-empty collapsed form |
| RegressionHarness.RunScenario | _localsetup/skills/localsetup-unfuck-my-git-state/scripts/regression_harness.py:130-140 | an unknown scenario fails; a known one passes exactly when its outcome does |
| RegressionHarness.Selected | _localsetup/skills/localsetup-unfuck-my-git-state/scripts/regression_harness.py:159 | a given scenario runs alone, otherwise all four |
| RegressionHarness.RunAll | _localsetup/skills/localsetup-unfuck-my-git-state/scripts/regression_harness.py:172-180 | passes plus failures equal the scenarios run, passes count the passing ones, one PASS or FAIL line per scenario in order |
| RegressionHarness.Execute | _localsetup/skills/localsetup-unfuck-my-git-state/scripts/regression_harness.py:143-183 | --list exits 0 listing the scenarios; a missing guided script exits 2; an invalid or unknown scenario exits 2; otherwise one line per scenario, a blank line and the summary, and exit 0 exactly when all pass |
| RegressionHarness.ScenarioNamesValid | _localsetup/skills/localsetup-unfuck-my-git-state/scripts/regression_harness.py:20-35 | every built-in scenario name passes the sanitizer |
| GenerateDocsFrontmatter.LastLineEnd | _localsetup/tools/generate_docs_artifacts.py:15 | the last end of a line in a range, with no line end after it |
| GenerateDocsFrontmatter.BoundaryEnd | _localsetup/tools/generate_docs_artifacts.py:15 | a boundary line `---` with trailing whitespace ends at least three characters after its start |
| GenerateDocsFrontmatter.FindBoundary | _localsetup/tools/generate_docs_artifacts.py:15-21 | the first boundary line from a position, with none before it; none found means no boundary anywhere after |
| GenerateDocsFrontmatter.BlockBetweenBoundaries | _localsetup/tools/generate_docs_artifacts.py:21-24 | the frontmatter block is exactly the text between the first two boundary lines |
| GenerateDocsFrontmatter.FrontmatterKeys | _localsetup/tools/generate_docs_artifacts.py:21-72 | the result is {} exactly when there are fewer than two boundary lines; otherwise it has exactly the keys name, description and version |
| GenerateDocsFrontmatter.BlockEnd | _localsetup/tools/generate_docs_artifacts.py:45-55 | the block scalar runs over the indented or blank lines after the indicator and stops at the first other line |
| GenerateDocsFrontmatter.BlockScalarExtent | _localsetup/tools/generate_docs_artifacts.py:45-55 | the block scalar ends exactly at the first non-indented non-blank line |
| GenerateDocsFrontmatter.BlockScalarJoin | _localsetup/tools/generate_docs_artifacts.py:56 | a block-scalar description joins its stripped non-empty lines with single spaces |
| GenerateDocsFrontmatter.JoinTrimmed | _localsetup/tools/generate_docs_artifacts.py:56 | joining trimmed parts gives a trimmed text |
| GenerateDocsFrontmatter.VersionRun | _localsetup/tools/generate_docs_artifacts.py:16 | the run of digits and dots |
| GenerateDocsFrontmatter.OptQuote | _localsetup/tools/generate_docs_artifacts.py:16 | an optional quote is skipped |
| GenerateDocsFrontmatter.VersionMatch | _localsetup/tools/generate_docs_artifacts.py:62-64 | a matched version is a non-empty run of digits and dots |
| GenerateDocsFrontmatter.Step | _localsetup/tools/generate_docs_artifacts.py:31-66 | each pass of the loop advances the line index |
| GenerateDocsFrontmatter.ScanStep | _localsetup/tools/generate_docs_artifacts.py:31-66 | scanning from a line is one pass followed by scanning from where it ends |
| GenerateDocsFrontmatter.ReadBlockScalar | _localsetup/tools/generate_docs_artifacts.py:43-56 | the inner loop stops at the end of the block scalar and returns its joined text |
| GenerateDocsFrontmatter.LineActionOf | _localsetup/tools/generate_docs_artifacts.py:32-64 | one line is classed as a name, a block start, a description, a version or nothing, in the source's branch order |
| GenerateDocsFrontmatter.ReadFrontmatter | _localsetup/tools/generate_docs_artifacts.py:19-72 | the line loop returns exactly `Frontmatter`: empty without two boundary lines, otherwise exactly the keys name, description and version (GenerateDocsFrontmatter.FrontmatterKeys) |
| GenerateDocsFrontmatter.DoubleQuotedValue | _localsetup/tools/generate_docs_artifacts.py:36-58 | a double-quoted value after the colon yields the text inside the quotes |
| GenerateDocsFrontmatter.SingleQuotedValue | _localsetup/tools/generate_docs_artifacts.py:36-58 | a single-quoted value yields the text inside the quotes |
| GenerateDocsTables.SkillOf | _localsetup/tools/generate_docs_artifacts.py:79-90 | the record keeps the skill id and the frontmatter version |
| GenerateDocsTables.SkillOfProperties | _localsetup/tools/generate_docs_artifacts.py:80-81 | the name falls back to the id, so it is non-empty for a non-empty id, and is the frontmatter name when that is non-empty; the description has no line feed |
| GenerateDocsTables.CollectSkills | _localsetup/tools/generate_docs_artifacts.py:75-92 | one record per skill file, in order |
| GenerateDocsTables.SkillTableRows | _localsetup/tools/generate_docs_artifacts.py:136-142 | one table row per skill, in order |
| GenerateDocsTables.PipesEscaped | _localsetup/tools/generate_docs_artifacts.py:137 | every pipe character in the escaped description is preceded by a backslash |
| GenerateDocsTables.EscapedHead | _localsetup/tools/generate_docs_artifacts.py:137 | an escaped description never starts with a pipe character |
| GenerateDocsTables.EscapeEmpty | _localsetup/tools/generate_docs_artifacts.py:137-139 | escaping gives "" exactly for "" |
| GenerateDocsTables.UnescapeEscape | _localsetup/tools/generate_docs_artifacts.py:137 | escaping pipes loses nothing: unescaping gives back the description |
| GenerateDocsTables.DescCellCases | _localsetup/tools/generate_docs_artifacts.py:137-139 | an empty description shows "No description in frontmatter.", any other its escaped form |
| GenerateDocsTables.RowOf | _localsetup/tools/generate_docs_artifacts.py:103-115 | a row is kept exactly when it has four cells and a non-empty id, and the cells become id, display name, context loader and skills path |
| GenerateDocsTables.PlatformOf | _localsetup/tools/generate_docs_artifacts.py:97-115 | a platform comes only from a table line (starting with a pipe character, not the header or separator) with a non-empty id |
| GenerateDocsTables.Platforms | _localsetup/tools/generate_docs_artifacts.py:95-116 | one platform per valid table line, each with a non-empty id |
| GenerateDocsTables.CollectPlatforms | _localsetup/tools/generate_docs_artifacts.py:95-116 | the line loop returns exactly `Platforms`: one platform per valid table line, each with a non-empty id (GenerateDocsTables.Platforms) |
| GenerateDocsTables.CellsOfRow | _localsetup/tools/generate_docs_artifacts.py:102 | a row written from four cells splits back into those cells |
| GenerateDocsTables.PlatformRowRoundTrip | _localsetup/tools/generate_docs_artifacts.py:97-115 | a table row written from four valid cells with a non-empty id is read back as exactly that platform |
| GenerateDocsBlocks.StartMarker | _localsetup/tools/generate_docs_artifacts.py:192 | the start marker is non-empty |
| GenerateDocsBlocks.EndMarker | _localsetup/tools/generate_docs_artifacts.py:193 | the end marker is non-empty |
| GenerateDocsBlocks.ReplaceBetween | _localsetup/tools/generate_docs_artifacts.py:195-196 | the file is left alone exactly when the start or end marker is missing |
| GenerateDocsBlocks.ReplaceBetweenWritten | _localsetup/tools/generate_docs_artifacts.py:197-199 | with the first start marker and the first end marker after it, the result is pre + start + line feed + content + line feed + end + post |
| GenerateDocsBlocks.ReplaceBetweenAt | _localsetup/tools/generate_docs_artifacts.py:197-199 | the same stated with the two splits |
| GenerateDocsBlocks.WrittenHasEnd | _localsetup/tools/generate_docs_artifacts.py:197-198 | a rewrite implies an end marker after the first start marker |
| GenerateDocsBlocks.ReplaceBetweenParts | _localsetup/tools/generate_docs_artifacts.py:195-199 | every rewrite has that shape |
| GenerateDocsBlocks.ReplaceBetweenFails | _localsetup/tools/generate_docs_artifacts.py:198 | an end marker that occurs only before the start marker makes the unpacking fail |
| GenerateDocsBlocks.ReplaceBetweenIdempotent | _localsetup/tools/generate_docs_artifacts.py:191-200 | re-applying with the same content, containing no end marker, changes nothing |
| GenerateDocsBlocks.ReplaceBlockIdempotent | _localsetup/tools/generate_docs_artifacts.py:191-200 | the same for a managed block named by its marker |
| GenerateDocsBlocks.MajorMinorOneDot | _localsetup/tools/generate_docs_artifacts.py:246 | a version with one dot is kept whole |
| GenerateDocsBlocks.MajorMinorMoreDots | _localsetup/tools/generate_docs_artifacts.py:246 | a version with more dots is cut to its first two components |
| GenerateDocsBlocks.MajorMinorPrefix | _localsetup/tools/generate_docs_artifacts.py:246 | major.minor is a prefix of the version and, when the version has a dot, has at most one dot |
| ValidateOutputContract.ErrorLog.constructor | _localsetup/tools/validate_output_contract.py:143 | the error list starts empty |
| ValidateOutputContract.ErrorLog.Fail | _localsetup/tools/validate_output_contract.py:65-66 | recording a failure appends exactly that message to the error list and changes nothing else |
| ValidateOutputContract.MissingFields | _localsetup/tools/validate_output_contract.py:92-94 | every reported field is one of the required fields and is absent from the skill mapping |
| ValidateOutputContract.MissingFieldMsgs | _localsetup/tools/validate_output_contract.py:94 | one message per missing field |
| ValidateOutputContract.SkillErrors | _localsetup/tools/validate_output_contract.py:88-94 | a skill entry that is not a mapping yields exactly one error; a mapping yields one error per missing required field |
| ValidateOutputContract.SchemaErrors | _localsetup/tools/validate_output_contract.py:79-81 | at most one error, and none exactly when schema_version is an integer of at least 2 |
| ValidateOutputContract.SkillListErrors | _localsetup/tools/validate_output_contract.py:83-86 | a skills value that is not a non-empty list yields exactly the "Missing or empty skills list" error and stops the per-skill checks |
| ValidateOutputContract.IndexErrors | _localsetup/tools/validate_output_contract.py:69-94 | a missing or unparsable index yields exactly one error; a document that is not a mapping yields none before `data.get` raises; a loaded index without a non-empty skills list yields one or two errors, the last one the missing-skills error |
| ValidateOutputContract.WellFormedIndexClean | _localsetup/tools/validate_output_contract.py:69-94 | an index with a valid schema version and a non-empty list of mappings that all hold every required field produces no error |
| ValidateOutputContract.CheckFields | _localsetup/tools/validate_output_contract.py:92-94 | the field loop appends exactly the missing-field messages, in field order |
| ValidateOutputContract.ValidateIndex | _localsetup/tools/validate_output_contract.py:69-94 | validating the index appends exactly the index errors to the log, and reports a raise exactly when the document is not a mapping |
| ValidateOutputContract.CheckSkillList | _localsetup/tools/validate_output_contract.py:83-94 | the skills-list step appends exactly the skills-list errors |
| ValidateOutputContract.CheckSkills | _localsetup/tools/validate_output_contract.py:88-94 | the loop over skills, numbered from 1, appends exactly the per-skill errors in order |
| ValidateOutputContract.MarkerCheck | _localsetup/tools/validate_output_contract.py:107-113 | at most one error per file, and none exactly when the file exists and contains its marker |
| ValidateOutputContract.ValidateMarkers | _localsetup/tools/validate_output_contract.py:97-113 | the marker loop appends exactly the marker errors, in table order |
| ValidateOutputContract.MarkerErrorsBound | _localsetup/tools/validate_output_contract.py:97-113 | at most one error per marker entry, and none exactly when every marker file exists and holds its marker |
| ValidateOutputContract.HardeningCheck | _localsetup/tools/validate_output_contract.py:118-126 | a missing tool file yields exactly one error; a present one yields at most one error per token, and none exactly when every required token occurs in it |
| ValidateOutputContract.TokenErrorsCount | _localsetup/tools/validate_output_contract.py:124-126 | the token errors number at most the tokens, and are empty exactly when every token occurs in the text |
| ValidateOutputContract.CheckTokens | _localsetup/tools/validate_output_contract.py:124-126 | the token loop appends exactly the token errors in order |
| ValidateOutputContract.ValidateHardening | _localsetup/tools/validate_output_contract.py:116-126 | the hardening loop appends exactly the hardening errors of every rule in order |
| ValidateOutputContract.ValidatePolicy | _localsetup/tools/validate_output_contract.py:129-137 | the tooling-policy loop appends exactly the policy errors, in table order |
| ValidateOutputContract.Shown | _localsetup/tools/validate_output_contract.py:152 | at most the first 200 errors are listed, and they are a prefix of the error list |
| ValidateOutputContract.Bullets | _localsetup/tools/validate_output_contract.py:153 | each listed error is printed as " - " followed by the error |
| ValidateOutputContract.MoreLine | _localsetup/tools/validate_output_contract.py:154-155 | the "... and N more" line appears exactly when there are more than 200 errors, with N the number not listed |
| ValidateOutputContract.ReportLines | _localsetup/tools/validate_output_contract.py:150-158 | no errors gives the single OK line; otherwise a header, the listed errors and the optional more line, never above 202 lines |
| ValidateOutputContract.FailReport | _localsetup/tools/validate_output_contract.py:150-155 | a failing report opens with the FAIL header, lists each shown error as a bullet in order and ends with the exact count of the errors left unlisted |
| ValidateOutputContract.CollectErrors | _localsetup/tools/validate_output_contract.py:143-148 | a document that is not a mapping stops the validators with no error collected; otherwise the four validators run in order into one shared list whose contents are the concatenation of their errors |
| ValidateOutputContract.Validate | _localsetup/tools/validate_output_contract.py:140-159 | a document that is not a mapping ends with exit code 1 and no report; otherwise exit code 0 exactly when there are no errors, 1 otherwise, with the report lines for those errors |
| ValidateOutputContract.Run | _localsetup/tools/validate_output_contract.py:16-159 | exit code and report of main over the source's own required fields, marker files, hardening rules and tooling-policy markers, with exit 1 and no report for an index document that is not a mapping |
| CreateSandbox.CleanName | _localsetup/skills/localsetup-skill-sandbox-tester/scripts/create_sandbox.py:31 | the cleaned name never holds a NUL character |
| CreateSandbox.SanitizeSkillNameAsWritten | _localsetup/skills/localsetup-skill-sandbox-tester/scripts/create_sandbox.py:30-36 | as written: accepted exactly when the cleaned name has at most 128 characters and matches the name pattern under Python's `re.match`, where `$` also matches before one final line feed; the accepted value is the cleaned name |
| CreateSandbox.AsWrittenKeepsLineFeed | _localsetup/skills/localsetup-skill-sandbox-tester/scripts/create_sandbox.py:31-36 | a valid name followed by a line feed and a NUL is accepted with the line feed kept |
| CreateSandbox.SanitizeSkillName | _localsetup/skills/localsetup-skill-sandbox-tester/scripts/create_sandbox.py:24-36 | corrected: accepted exactly when the cleaned name has at most 128 characters and wholly matches the name pattern; an accepted name is non-empty and holds no dot, slash, space, line feed or NUL |
| CreateSandbox.SanitizeSkillNameAgrees | _localsetup/skills/localsetup-skill-sandbox-tester/scripts/create_sandbox.py:30-36 | the corrected check accepts nothing the as-written one rejects, and the two differ only on a valid name followed by one line feed |
| CreateSandbox.AsWrittenAgreesWithoutNul | _localsetup/skills/localsetup-skill-sandbox-tester/scripts/create_sandbox.py:30-36 | a name without NUL, as every command-line argument is, gets the same result from the written check and the corrected one |
| CreateSandbox.AcceptedNameIsComponent | _localsetup/skills/localsetup-skill-sandbox-tester/scripts/create_sandbox.py:30-36 | a name the written check accepts is a single non-empty path component other than `.` |
| CreateSandbox.CleanPath | _localsetup/skills/localsetup-skill-sandbox-tester/scripts/create_sandbox.py:42 | the cleaned path is no longer than the input and starts and ends with no whitespace |
| CreateSandbox.SanitizePath | _localsetup/skills/localsetup-skill-sandbox-tester/scripts/create_sandbox.py:39-50 | accepted exactly when the raw path is within the length limit and the cleaned path is non-empty, exists and is a directory; the value is the cleaned path |
| CreateSandbox.CwdCandidates | _localsetup/skills/localsetup-skill-sandbox-tester/scripts/create_sandbox.py:58-60 | one candidate per known sub-directory of the current directory, in the source's order |
| CreateSandbox.CandidateRoots | _localsetup/skills/localsetup-skill-sandbox-tester/scripts/create_sandbox.py:55-65 | the roots are the framework directory's skills folder when LOCALSETUP_FRAMEWORK_DIR is set, then the skills root when it is a directory, then the existing current-directory candidates in order |
| CreateSandbox.ExistingDirs | _localsetup/skills/localsetup-skill-sandbox-tester/scripts/create_sandbox.py:59-62 | keeps exactly the candidates that are directories, in order |
| CreateSandbox.FindIn | _localsetup/skills/localsetup-skill-sandbox-tester/scripts/create_sandbox.py:66-70 | the result is the first root whose entry for the name is a directory, and the search fails exactly when no root has one |
| CreateSandbox.BaseName | _localsetup/skills/localsetup-skill-sandbox-tester/scripts/create_sandbox.py:106-108 | the last path component as `Path.name` gives it: no slash and never `.`, with trailing slashes and `.` components passed over |
| CreateSandbox.BaseNameTrailingSlash | _localsetup/skills/localsetup-skill-sandbox-tester/scripts/create_sandbox.py:106-108 | a trailing slash does not change the base name |
| CreateSandbox.BaseNameJoin | _localsetup/skills/localsetup-skill-sandbox-tester/scripts/create_sandbox.py:106-108 | a directory joined with a plain component has that component as its base name |
| CreateSandbox.Execute | _localsetup/skills/localsetup-skill-sandbox-tester/scripts/create_sandbox.py:73-118 | exit code 0, 1 or 2; success prints the created directory followed by the base name of the cleaned skill path, or by the name the written check accepted; a rejected path or name, or a skills root that is not a directory, gives 2; a failed temporary-directory creation never succeeds; failure prints nothing to stdout |
| SkillImporterScan.ExtractFrontmatter | _localsetup/tools/skill_importer_scan.py:17-22 | text without "---" gives the empty block; otherwise the trimmed piece between the first and second "---" |
| SkillImporterScan.FrontmatterRoundTrip | _localsetup/tools/skill_importer_scan.py:17-22 | a block free of "---" and not ending in a dash, written between two "---" lines, is read back as that block trimmed |
| SkillImporterScan.ValueAfterColon | _localsetup/tools/skill_importer_scan.py:28 | the value after the first colon, with quotes and whitespace stripped, starts and ends with no whitespace |
| SkillImporterScan.FirstMatch | _localsetup/tools/skill_importer_scan.py:26-27 | the index of the first line whose trimmed form starts with the key and a colon, no earlier line doing so |
| SkillImporterScan.YamlValue | _localsetup/tools/skill_importer_scan.py:25-29 | no key line gives the empty string; otherwise the value of the first key line |
| SkillImporterScan.GetYaml | _localsetup/tools/skill_importer_scan.py:25-29 | the value comes from the first line of the block whose trimmed form starts with "key:", or is empty when no line does; a value has no edge whitespace |
| SkillImporterScan.LineHitsCount | _localsetup/tools/skill_importer_scan.py:63-65 | a file contributes exactly one hit per flagged line |
| SkillImporterScan.FileHits | _localsetup/tools/skill_importer_scan.py:63-65 | the line loop produces one "path:line" hit per flagged line, lines numbered from 1, in order |
| SkillImporterScan.CollectHits | _localsetup/tools/skill_importer_scan.py:57-67 | the hits of all files in order; an unreadable file contributes none |
| SkillImporterScan.SecurityLines | _localsetup/tools/skill_importer_scan.py:68-73 | no hits gives the all-clear line; otherwise the review header followed by the first five hits, each indented, in order |
| SkillImporterScan.DescriptionOr | _localsetup/tools/skill_importer_scan.py:40 | the description shown is never empty: a missing one is replaced by the placeholder |
| SkillImporterScan.BriefLines | _localsetup/tools/skill_importer_scan.py:41-44 | a brief is the separator, the skill, directory and description lines, the security section and a final blank line |
| SkillImporterScan.SkillBrief | _localsetup/tools/skill_importer_scan.py:32-79 | no brief exactly when SKILL.md is missing or declares no name; otherwise the brief with that name and the description or its placeholder |
| SkillImporterScan.CountSkills | _localsetup/tools/skill_importer_scan.py:102-107 | the count is the number of candidates that are files at most six parts deep declaring a name |
| SkillImporterScan.DeepSkillIgnored | _localsetup/tools/skill_importer_scan.py:104 | a SKILL.md deeper than six path parts never changes the count |
| SkillImporterScan.Scan | _localsetup/tools/skill_importer_scan.py:82-111 | exit 1 when the root is not a directory; the ensure-only exit 2 is passed on and any other failure gives 1; otherwise 0 exactly when at least one skill was counted |
| ArbiterCli.Sanitize | _localsetup/skills/localsetup-arbiter/scripts/arbiter_cli.py:20-28 | accepted exactly when the argument is a string whose whitespace-collapsed form is within the limit and not blank; the value is that collapsed form, non-empty, within the limit, with single spaces between words and no edge whitespace |
| ArbiterCli.SanitizeIdempotent | _localsetup/skills/localsetup-arbiter/scripts/arbiter_cli.py:20-28 | sanitizing an accepted value again gives the same value |
| ArbiterCli.LimitAfterCollapse | _localsetup/skills/localsetup-arbiter/scripts/arbiter_cli.py:23-25 | the length limit applies after collapsing: a tag of at most 128 characters followed by any amount of trailing spaces is accepted as the bare tag |
| ArbiterCli.SpacesAfterWord | _localsetup/skills/localsetup-arbiter/scripts/arbiter_cli.py:23 | collapsing a word followed by spaces gives the word |
| ArbiterCli.Run | _localsetup/skills/localsetup-arbiter/scripts/arbiter_cli.py:38-60 | a subcommand returns 1 exactly when each of its arguments sanitizes and the queue directories can be made; a bad push tag fails with the tag's own error before the title is looked at |
| ArbiterCli.ExitCode | _localsetup/skills/localsetup-arbiter/scripts/arbiter_cli.py:83-91 | main exits 1 exactly when the subcommand returns, and 2 on any exception it raises |
| PatchCli.SanitizeHost | _localsetup/skills/localsetup-linux-patcher/scripts/patch_cli.py:22-30 | accepted exactly when the host is a string of at most 512 characters whose trimmed form is non-empty and holds no NUL and no line feed; the value is the trimmed host |
| PatchCli.SanitizePath | _localsetup/skills/localsetup-linux-patcher/scripts/patch_cli.py:33-39 | accepted exactly when the path is a string of at most 4096 characters whose trimmed form holds no NUL; the value is the trimmed path, possibly empty |
| PatchCli.PathNulAnywhere | _localsetup/skills/localsetup-linux-patcher/scripts/patch_cli.py:36-38 | a NUL anywhere in the path rejects it, since trimming never removes a NUL |
| PatchCli.HostLineFeed | _localsetup/skills/localsetup-linux-patcher/scripts/patch_cli.py:25-29 | line feeds around a host are trimmed away and accepted, while one inside it is rejected |
| PatchCli.AutoArgv | _localsetup/skills/localsetup-linux-patcher/scripts/patch_cli.py:59-63 | the auto command runs patch-auto.sh followed by --skip-docker and --dry-run exactly when their flags are set, in that order, and nothing else |
| PatchCli.Dispatch | _localsetup/skills/localsetup-linux-patcher/scripts/patch_cli.py:57-79 | host-only and host-full run their scripts with the raw arguments exactly when the sanitizers accept them, multiple runs its script with the configuration path as `pathlib` prints it exactly when the config file exists, and every refusal exits 2 |
| PatchCli.PathStrAbsolute | _localsetup/skills/localsetup-linux-patcher/scripts/patch_cli.py:72-76 | the printed configuration path is absolute exactly when the given one is |
| PatchCli.PlainNameKept | _localsetup/skills/localsetup-linux-patcher/scripts/patch_cli.py:72-76 | a plain file name is printed as it is |
| PatchCli.RepeatedSlashDropped | _localsetup/skills/localsetup-linux-patcher/scripts/patch_cli.py:72-76 | a doubled slash between two components is printed as one |
| PatchCli.DotAndTrailingSlashDropped | _localsetup/skills/localsetup-linux-patcher/scripts/patch_cli.py:72-76 | a `.` component and a trailing slash are dropped |
| RunSmoke.SanitizeCommand | _localsetup/skills/localsetup-skill-sandbox-tester/scripts/run_smoke.py:42-52 | accepted exactly when the argument is a string whose trimmed form has at most 2048 characters, no character of the control set and is not empty; the value is the trimmed command |
| RunSmoke.ControlCharRejected | _localsetup/skills/localsetup-skill-sandbox-tester/scripts/run_smoke.py:25 | a control character that trimming cannot remove rejects the command wherever it appears |
| RunSmoke.LineBreaksAccepted | _localsetup/skills/localsetup-skill-sandbox-tester/scripts/run_smoke.py:25 | tab, line feed and carriage return are outside the control set: a command free of control characters is accepted within the limits |
| RunSmoke.NoControlAfterStrip | _localsetup/skills/localsetup-skill-sandbox-tester/scripts/run_smoke.py:45-48 | trimming never introduces a control character |
| RunSmoke.EdgeControlTrimmed | _localsetup/skills/localsetup-skill-sandbox-tester/scripts/run_smoke.py:45-48 | a leading vertical tab is removed by the trim before the control-character test and so never rejects the command |
| RunSmoke.CleanPath | _localsetup/skills/localsetup-skill-sandbox-tester/scripts/run_smoke.py:31 | the cleaned path is no longer than the input and has no edge whitespace |
| RunSmoke.SanitizePath | _localsetup/skills/localsetup-skill-sandbox-tester/scripts/run_smoke.py:28-39 | accepted exactly when the raw path is within the limit and the cleaned path is non-empty, exists and is a directory; the value is the cleaned path |
| RunSmoke.ExitCode | _localsetup/skills/localsetup-skill-sandbox-tester/scripts/run_smoke.py:55-93 | exit 2 when either argument is rejected; otherwise the command's own exit code, 124 on the 300-second timeout and 1 when it cannot be started |

## Notes on the audit's summary counts

- A skill directory without scripts gets no evidence record: run_framework_audit.py:504-523 moves on to the
  next skill. So the `skipped` count is always 0 (`AuditDeep.SkippedEntryNoRuns`, `AuditDeep.SummaryCounts`).
- The classification at run_framework_audit.py:543-549 never yields `unvalidated`: its `else` branch cannot be
  reached (`AuditDeep.Classify`). So the `unvalidated` count is always 0 as well (`AuditDeep.SummaryCounts`).

## Left out

- Process execution and timeouts are not modelled. Each result is a value given to the model: an exit code with
  stdout and stderr, a timeout, or a start failure. This covers all of these:
  - the helper, script and packaging runs of the audit;
  - the smoke command of run_smoke.py;
  - the patch scripts of patch_cli.py;
  - `gh` and the local linter of the pull-request reviewer;
  - `git` calls of the repair planner and the regression scenarios;
  - the content-safety runs of the importer scan.
- The filesystem is not modelled. File contents, directory listings, existence tests and the success of writes
  are values or oracle functions. Left out with it:
  - `rglob` discovery and sorting;
  - `mkdtemp`, `copytree`, `rmtree`;
  - the tar archive itself: only the member names are modelled, by `AuditDeep.ArchiveNames`, with one world
    oracle for opening the archive and one, by position, for adding each trace file;
  - `Path.resolve`, so paths are used as written;
  - symlink checks.
- The clock is a parameter. Durations, the evaluation's accuracy and average floats and the emulation's timing
  values are left out; only the number of recorded durations is modelled.
- Network, SDK and asynchronous code is left out:
  - the Claude and OpenAI clients, `run_agent_loop` of the OpenAI-compatible provider;
  - `fetch_text`/`fetch_json`;
  - the MCP connection.
- `fetch_anthropics_skills` (refresh_public_skill_index.py:153-174) is not modelled. It lists entries over the
  network, so its entries are a parameter of `RefreshPublicSkillIndex.BuildIndex`.
- Regular-expression engines are left out. Only these fixed patterns are modelled by hand:
  - the skill-id and skill-name patterns, with Python's `$` matching before one final line feed;
  - the control-character class;
  - the hunk header;
  - the awesome-list entry and header lines;
  - the frontmatter boundary and version line;
  - the help text's brace groups;
  - the zero-hash worktree line.
- These patterns are predicates passed in: the security and style pattern lists of the pull-request reviewer and the importer
  scan, and the regular expressions of a pattern file (`search` in `SkillValidationScan.RegexHits`).
- YAML, JSON and XML parsing and `urlparse` are left out, except that the URL scheme and authority test is
  modelled. A parsed document is a `Json` value.
- Report assembly is left out. That covers the framework audit's Markdown report outside the sanitized snippet
  and code-block pieces, and the pull-request report text outside the verdict and the state update.
- Printed listings are left out: the importer scan's "Has scripts"/"Code types" lines (skill_importer_scan.py:45-56),
  the repair planner's printing loop over detected symptoms, and the text that `--list` prints.
- Argument parsing by argparse is left out. Each command line is a datatype of its already-parsed arguments.
- `str.lower` is modelled for ASCII letters only. `str.isspace` is modelled by its full set of whitespace code
  points.
- Files without logic of this kind are not part of this model: deploy.py, snapshot_git_state.py,
  path_resolution.py, os_detector.py, verify_rules.py, verify_context.py, automated_test.py and claude.py.
- AuditDeep.SandboxDir: states only that the sandbox directory read from the helper's output has no edge
  whitespace. It does not state which line of that output it comes from.
- CreateSandbox.Execute: does not state the exit code for a name found in no skills root. That case exits 2
  through `CreateSandbox.FindIn`, whose contract states when the search fails.
  Paths are not resolved, so for `--skill-path .` the model prints the sandbox
  directory followed by "/" and an empty name, where the tool prints the
  sandbox directory joined with the name of the current directory.
- AuditDeep.Deep: creating a trace file's directory (run_framework_audit.py:557) sits outside every `try`, so an
  OSError there ends the audit; the model assumes that directory can always be made. `AuditDeep.DeepAnalysis`
  and `AuditDeep.RunOne` make the same assumption.
- PrReview.HunkStart: reads ASCII digits only. Python's `\d` and `int()` also accept the other Unicode decimal
  digits (Arabic-Indic, fullwidth and so on), so a hunk header written with those is not recognised by the
  model; `PrReview.DigitRun` has the same limit.
- GuidedRepairPlan.SearchIgnoreCase: the three case-insensitive searches of guided_repair_plan.py (lines 155, 165 and 169)
  compare after ASCII lower-casing. Python's `re.IGNORECASE` also folds non-ASCII letters, such as the Kelvin sign
  to `k`, so a status text that only matches through such a letter is not detected by the model.
- PrReview.CmdReview: the view is a JSON object or nothing. A `gh` output that parses to a non-empty array or a
  scalar would make `view.get` raise; that case is not modelled.
- RefreshPublicSkillIndex.SanitizeUrl: of the checks by which `urlparse` raises ValueError, only the unbalanced
  `[` or `]` in the authority is modelled. The check of a bracketed host as an IPv6 address and the NFKC check
  of a non-ASCII authority are not.
- RefreshPublicSkillIndex.CleanFields: a URL on which `sanitize_url` would raise is treated as empty there. No
  entry of the model has one: each awesome-list entry's URL was already accepted
  (`RefreshPublicSkillIndex.ClassifyBounds`), and the Anthropic entries are a parameter.

## Findings

Each row below is latent in the shipped tools: the model runs the code as written, and lemmas show that on the
inputs the tools receive, the written and corrected checks agree. The audit passes only directory names that
start with `localsetup-` (run_framework_audit.py:501), which cannot hold a NUL and are at most 255 characters
(`AuditSanitize.AsWrittenAgreesOnDirNames`). A skill name comes from the command line, which cannot carry a NUL
(`CreateSandbox.AsWrittenAgreesWithoutNul`). The defects show once the sanitizers get other callers.

| source | as written | input that shows it | evidently intended | confidence | as-written member | corrected member |
|---|---|---|---|---|---|---|
| _localsetup/skills/localsetup-framework-audit/scripts/run_framework_audit.py:294-299 | a skill id that is blank but not empty passes the `not skill_id` test and is cleaned to the empty string; the trace path then starts with a slash and is absolute, so joining it to a staging directory would leave that directory (`AuditDeep.BlankIdTraceAbsolute`) | a skill id of one space | `unknown` for any id that is empty after cleaning, so the trace path has three non-empty relative components | not executed | AuditSanitize.AsWrittenBlankIdIsEmpty | AuditSanitize.SanitizeSkillId |
| _localsetup/skills/localsetup-framework-audit/scripts/run_framework_audit.py:296-298 | `re.match` with a pattern ending in `$` also accepts an id followed by one line feed; the strip keeps it when a NUL follows, and the NUL removal then exposes it | `localsetup-a` followed by a line feed and a NUL | an accepted id holds only letters, digits, `_` and `-` (a whole-string match) | not executed | AuditSanitize.AsWrittenKeepsLineFeed | AuditSanitize.SanitizeSkillId |
| _localsetup/skills/localsetup-skill-sandbox-tester/scripts/create_sandbox.py:31-36 | the same `$` behaviour lets a skill name with a trailing line feed through | `abc` followed by a line feed and a NUL | only names of letters, digits, `_` and `-`, as the error message says | not executed | CreateSandbox.AsWrittenKeepsLineFeed | CreateSandbox.SanitizeSkillName |
