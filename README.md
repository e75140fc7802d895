# CodeAuditX style-checking engine in Dafny

CodeAuditX is a rule-based code style checker. It walks a project directory and picks a parser for each
file by its extension (Python, C/C++, Java, JavaScript, Go, PHP). Each parser extracts named entities and
checks them against a ruleset (Google, PEP8, Airbnb or Standard) for naming, line length, indentation,
comment coverage and language-specific layout. The findings are normalised, graded high, medium or low,
filtered and counted. A score is computed from the counts. A separate scanner detects open-source licences
and their risk. A small configuration store holds the user's settings under dotted key paths.

The model follows the program file by file; each Dafny module mirrors one source file:

- `rulesets.dfy` (`Rulesets`): the four built-in rulesets as constant maps, each spreading the global layer.
- `rule_manager.dfy` (`Rules`): the rule manager as a class. It covers rule lookup per language, the ordered merging of
  custom rules, saving a custom rule, rule validation and ruleset repair.
- `parser_registry.dfy` (`ParserRegistry`): extension dispatch and the parser class cache.
- `base_parser.dfy` (`BaseParser`): the shared line checks and the post-processing of `scan`.
- `python_parser.dfy`, `c_cpp_parser.dfy`, `java_parser.dfy`, `javascript_parser.dfy`, `go_parser.dfy`,
  `php_parser.dfy`: each `check_rules` pipeline, its extractors' post-filters, its own checks and the
  parsing of its external tool's output. Each parser is a class whose settings are frozen when it is built.
- `scanner.dfy` (`Scanner`): the `CodeScanner` class. It holds the file walk, the loop of `start`, the
  stop, pause and resume flags, the rules fallback chain, normalisation, grading, filtering and the
  histograms.
- `license_scanner.dfy` (`LicenseScanner`): loading the licence table, detection in a preview, risk lookup,
  the text-file test and the directory survey.
- `config_manager.dfy` (`Config`): `get`, `set` and `_merge_configs` over nested dictionaries, and the
  typed getters.
- `score.dfy` (`Score`) and `tiers.dfy` (`TierCounts`): the window's style score, and the pure parts of
  starting a scan (the exclude-directory field, the standard mapping) and of the licence table (high-risk
  marking).
- `text.dfy` (`Text`), `pynumbers.dfy` (`PyNumbers`), `files.dfy` (`Files`): the Python string, number and
  path built-ins the source relies on, such as `strip`, `split`, `find`, `lower`, `int`, `float` and
  `os.path.splitext`.

Where the program works by mutation, the model does too. Loops become methods with invariants, and
mutated objects become classes with `modifies` clauses. Each method is proved against a specification
function, and the lemmas about that function state what the source promises. Regular expressions,
the Python AST and file and process I/O are parameters: Finder, Matcher and Searcher functions, PyAst
values, file contents and tool runs.

Behaviour reproduced as written:

- Parsers resolve their rules before their language is known (src/parsers/base_parser.py:15-18, 32).
  Every built-in ruleset therefore gives them only its global layer. Naming patterns, line length and
  indent are frozen from that layer. Only values re-read at check time see the scanner's later `set_rules`.
- The scan loop handles one file after another. Pause is a flag polled before the next file.
- A violation without its own severity is graded high when a high keyword matches, otherwise low when a
  low keyword matches, and medium otherwise. Naming violations get no grade of their own, and the list of
  medium keywords is never consulted.
- Comment coverage divides by all lines, blank ones included.
- The rules fallback chain replaces empty rules; it is reached only when the lookup gives nothing, which
  for built-in rulesets never happens.
- The Python parser's variables and constants are always empty: an `ast.Name` has no `name`
  (src/parsers/python_parser.py:49).
- Go's const-block flag is cleared only by a line that is exactly `}`, so a block closed by `)` leaves it
  set. `const X = 1` matches both constant patterns and is extracted twice.

## Model

| member | source | states |
|---|---|---|
| Rulesets.GlobalDefaults | src/rules/rulesets.py:7-24 | the global layer fixes 120 columns, a 4-space indent, 10% comment coverage, allow_error_naming true and the four naming patterns, and has no semicolon or indentation rule |
| Rulesets.GlobalKeysAreNotLanguages | src/rules/rulesets.py:7-24 | no global rule is named like one of the six language sections |
| Rulesets.GlobalRulesAreFlat | src/rules/rulesets.py:7-24 | no global rule holds a nested dictionary |
| Rulesets.BuiltinLayering | src/rules/rulesets.py:27-177 | each of the four built-in rulesets (the keys of all_rulesets) holds every global rule with its global value, and its other keys are exactly its language sections, each a dictionary: Google six, PEP8 python only, Airbnb and Standard javascript only |
| Rulesets.SectionsAreLanguages | src/rules/rulesets.py:31-166 | every language section of a built-in ruleset is one of the six language keys |
| Rulesets.JavascriptSections | src/rules/rulesets.py:44-54 | every javascript section uses a 2-space indent; semicolons are required by Google and not by Airbnb or Standard (lines 140-142, 161-163) |
| Rulesets.LanguageSectionFacts | src/rules/rulesets.py:31-166 | every language section sets allow_error_naming true, and the Go section has type_naming and no class_naming (lines 83-92) |
| Rules.LoadBuiltinRules | src/rules/__init__.py:43-62 | the built-in table is taken as it is when it is non-empty, and the fallback rulesets replace it only when it is empty |
| Rules.BuiltinRulesLoaded | src/rules/__init__.py:47-48 | the built-in table is never empty, so the fallback rulesets of lines 64-92 are never loaded |
| Rules.LoadCustomRules | src/rules/__init__.py:94-110 | custom files are looked for under the built-in names (the definition takes them in the order Google, PEP8, Airbnb, Standard): the names read are exactly the built-in names that have a file, each kept as read and none twice, and a failure while reading leaves no custom rules at all |
| Rules.ReadFiles | src/rules/__init__.py:101-105 | for distinct names, the files read are those of exactly the names that have a file, each with its contents, none twice |
| Rules.GlobalPart | src/rules/__init__.py:127-129 | the global layer holds exactly the top-level keys that are not one of the six language names, with their values |
| Rules.GetRulesForLanguage | src/rules/__init__.py:112-138 | an unknown ruleset gives the empty map; otherwise the keys are the global keys plus the language section's keys, and each value comes from the section when the section has it and from the global layer otherwise; a missing or non-dictionary section counts as empty |
| Rules.BuiltinRulesForLanguage | src/rules/__init__.py:122-138 | for a built-in ruleset the rules of a language are the global rules overlaid with that ruleset's section for the language, and only the global rules when it has none (as for "unknown", "c" or "c++") |
| Rules.BuiltinHasLengthAndIndent | src/rules/__init__.py:132-138 | every built-in ruleset answers every language with max_line_length and expected_indent |
| Rules.ValidateRule | src/rules/__init__.py:189-227 | a valid rule that is not a pattern rule has a non-empty value |
| Rules.ValidatePattern | src/rules/__init__.py:201-204 | a rule named `*_naming` is valid exactly when its value compiles as a regular expression |
| Rules.ValidateIntegerDigits | src/rules/__init__.py:207-211 | an integer rule written in decimal digits is valid exactly when its value is above 0 |
| Rules.ValidateIntegerNegative | src/rules/__init__.py:207-211 | a negative integer is never a valid integer rule |
| Rules.ValidateCoverage | src/rules/__init__.py:214-216 | min_comment_coverage is valid exactly when its value parses as a float and lies in [0, 1]; anything that does not parse is invalid (line 226-227) |
| Rules.ValidateCoverageFraction | src/rules/__init__.py:214-216 | a coverage written `0.` followed by digits is always valid |
| Rules.ValidateBoolean | src/rules/__init__.py:219-221 | a boolean rule is valid exactly when its lower-cased value is true, false, yes, no, 1 or 0 |
| Rules.ValidateBooleanIgnoresCase | src/rules/__init__.py:221 | the case of a boolean rule's value does not change its validity |
| Rules.ValidateOrdinary | src/rules/__init__.py:222-225 | a rule that is not a pattern, integer, coverage or boolean rule is valid exactly when its value is not empty |
| Rules.GetRulesForRuleset | src/rules/__init__.py:254-347 | the loop over the six language names produces the repaired ruleset of the specification function `RulesForRuleset` |
| Rules.RepairedShape | src/rules/__init__.py:302-334 | repair keeps the ruleset's keys, its global rules and its usable sections; every language section comes out a dictionary, and python and javascript ones come out non-empty |
| Rules.RepairIdempotent | src/rules/__init__.py:309-332 | repairing an already repaired ruleset changes nothing |
| Rules.RulesForRulesetDefaults | src/rules/__init__.py:265-300 | an unknown name gives exactly python and javascript defaults; an empty ruleset gives a python section only |
| Rules.BuiltinNeedsNoRepair | src/rules/__init__.py:306-334 | a built-in ruleset is returned exactly as stored, since all its sections are non-empty dictionaries |
| Rules.UsableNeedsNoRepair | src/rules/__init__.py:309-334 | a non-empty ruleset whose language sections are all non-empty dictionaries is returned unchanged |
| Rules.SectionsNonEmpty | src/rules/rulesets.py:31-166 | no language section of a built-in ruleset is empty |
| Rules.Overlay | src/rules/__init__.py:241-248 | the assignment loop writing every entry of an override into a map yields the map overlaid with the override |
| Rules.MergeEntry | src/rules/__init__.py:239-248 | one item of a custom set written into its ruleset, as `EntryMerged` defines it: "global" rules go to the top level, a section is created empty when missing and then laid over, and the outcome records whether a write raised (items that are not dictionaries, or a non-empty section over a value that is not a dictionary) |
| Rules.MergeRulesetLoop | src/rules/__init__.py:238-248 | the loop over one custom set's items in file order, left at the first write that raises, produces `MergeEntries` |
| Rules.MergeAllLoop | src/rules/__init__.py:229-252 | the loop over the custom sets in load order, skipping names not in the table and left at the first write that raises, produces `MergeCustoms` |
| Rules.EntriesStop | src/rules/__init__.py:238-252 | once a write has raised, no later item of the set is merged: the result is what the items before it left |
| Rules.CustomsStop | src/rules/__init__.py:235-252 | once a write has raised, no later custom set is merged, and the writes made before it stay |
| Rules.EntriesAppend | src/rules/__init__.py:238-248 | merging the items `a + b` merges `a`, then `b` into what `a` left, and stops after `a` when a write in `a` raised |
| Rules.CustomsAppend | src/rules/__init__.py:235-248 | merging the custom sets `a + b` merges `a`, then `b` into what `a` left, and stops after `a` when a write in `a` raised |
| Rules.MergeKeepsUnnamedRules | src/rules/__init__.py:238-248 | a top-level key that no item writes (neither a section of that name nor a "global" rule of that name) is neither added nor changed, however far the merge gets |
| Rules.MergeWritesGlobal | src/rules/__init__.py:239-242 | when the merge finishes, a custom global rule holds at the top level unless a later item writes the same key: in file order the last write wins |
| Rules.MergeWritesSection | src/rules/__init__.py:243-248 | when the merge finishes and no later item writes the key, a custom section is laid key by key over the section as the earlier items left it (custom rules win, every other rule keeps its value); an existing value that is not a dictionary survives only when the custom section is empty |
| Rules.CustomsKeys | src/rules/__init__.py:229-248 | merging never adds or removes a ruleset name |
| Rules.CustomsKeep | src/rules/__init__.py:236-237 | a ruleset that no custom set names stays as it was |
| Rules.MergeKeepsNames | src/rules/__init__.py:233-248 | merging keeps exactly the table's ruleset names, and a ruleset without a custom set is unchanged |
| Rules.MergedFileResult | src/rules/__init__.py:235-248 | when the merge finishes, the ruleset of a custom set that no later set shares a name with is its items merged into the ruleset as the earlier sets left it |
| Rules.SectionRuleWritten | src/rules/__init__.py:243-248 | when the merge finishes and no later item writes the section, each rule of a custom section is in that section with the custom value |
| Rules.SectionRuleLookup | src/rules/__init__.py:132-138 | a rule stored in a ruleset's language section is what `get_rules_for_language` returns for that rule and language |
| Rules.MergedSectionRuleVisible | src/rules/__init__.py:229-248 | when the merge finishes, with no later custom set of the same name and no later item writing the section, a rule of a custom section is what the lookup for that ruleset and language returns |
| Rules.ScalarSectionStops | src/rules/__init__.py:243-251 | a first item that must be written into a top-level value that is not a dictionary raises at once: nothing is written and no later item is merged |
| Rules.MergeStopsAtScalarRule | src/rules/__init__.py:243-251 | with `{"max_line_length": {"x": 1}, "python": {"y": 2}}` as the Google set over a scalar `max_line_length`, the merge raises, `python` is never merged and the table is unchanged |
| Rules.BuiltinMergeStopsAtScalarRule | src/rules/__init__.py:229-251 | over the built-in rulesets, whose Google `max_line_length` is the integer 120, that custom set merges nothing |
| Rules.LaterGlobalOverwritesSection | src/rules/__init__.py:238-248 | items merge in file order: with `{"javascript": {"x": 2}, "global": {"javascript": {"a": 1}}}` the later global rule replaces the merged section, leaving exactly `{"a": 1}` under "javascript" |
| Rules.FileAt | src/rules/__init__.py:158 | the position of the custom set with a given name, the first one when any exists |
| Rules.EntryAt | src/rules/__init__.py:162 | the position of the item with a given key in a custom set, the first one when any exists |
| Rules.WithCustomRuleFails | src/rules/__init__.py:158-178 | saving fails exactly when the "Google" set already holds the section under that key and it is not a dictionary, where the item assignment raises |
| Rules.WithCustomRuleStores | src/rules/__init__.py:155-166 | after a successful save, the "Google" set's section holds the value under the rule name |
| Rules.WithCustomRuleFrame | src/rules/__init__.py:155-166 | saving adds at most the "Google" set at the end and the section at its end, keeps the order of what was there, and changes no other custom set, item or rule |
| Rules.RuleManager.constructor | src/rules/__init__.py:21-41 | the manager starts with the custom sets that could be read and the built-in table merged with them as far as the merge gets |
| Rules.RuleManager.MergeCustomRules | src/rules/__init__.py:229-252 | the table is rebuilt from the built-in rulesets with the custom sets merged in order up to the first write that raises, keeping the writes before it; the custom sets are unchanged |
| Rules.RuleManager.SaveCustomRule | src/rules/__init__.py:140-178 | the result is true exactly when the save does not raise; then the custom sets hold the value under "Google", the section and the rule, and the table is re-merged; otherwise nothing changes |
| Rules.ManagerNames | src/rules/__init__.py:233-237 | the manager's table always holds exactly the four built-in names |
| ParserRegistry.ParserNameForExtension | src/parsers/__init__.py:28-42 | any parser name it chooses is one of the six default parser names |
| ParserRegistry.DispatchIsTable | src/parsers/__init__.py:28-42 | the extension chain chooses a parser exactly for .py, .c, .cpp, .cc, .h, .hpp, .php, .js, .jsx, .go and .java, and then the one the table lists |
| ParserRegistry.NoTypescriptParser | src/parsers/__init__.py:41-42 | .ts and .tsx files have no parser |
| ParserRegistry.DispatchIgnoresCase | src/parsers/__init__.py:24-25 | the extension after the last dot is lower-cased first, so an upper-case extension dispatches like its lower-case form |
| ParserRegistry.LowerOfUpper | src/parsers/__init__.py:25 | lower-casing forgets an earlier upper-casing (ASCII letters) |
| ParserRegistry.Capitalize | src/parsers/__init__.py:55 | `str.capitalize`: same length, first character upper-cased, every other character lower-cased |
| ParserRegistry.ImportTarget | src/parsers/__init__.py:49-55 | "cpp" imports CCppParser from src.parsers.c_cpp_parser; any other name imports the capitalised name plus "Parser" from src.parsers.<name>_parser |
| ParserRegistry.ParserFor | src/parsers/__init__.py:21-67 | a parser is produced only for a supported extension, and it is of the class imported for that extension's parser name; an unsupported extension gives no parser |
| ParserRegistry.ParserHandle.constructor | src/parsers/__init__.py:66-67 | a new parser instance is built with the class and the ruleset it was asked for |
| ParserRegistry.Registry.constructor | src/parsers/__init__.py:12-19 | the cache starts with the six parser names, in order, all unset |
| ParserRegistry.Registry.Put | src/parsers/__init__.py:59 | a cache write sets that entry only, and a new name is appended at the end of the key order |
| ParserRegistry.Registry.GetParser | src/parsers/__init__.py:44-67 | a cached class is used without importing; otherwise a successful import is cached, an ImportError gives no parser and leaves the cache unchanged, and a module without the class raises; every parser returned is a new instance with the given ruleset |
| ParserRegistry.Registry.GetParserForFile | src/parsers/__init__.py:21-42 | no parser and no cache change for an unsupported extension; a parser returned is new and its class is the cached entry for the extension's parser name |
| ParserRegistry.Registry.RegisterParser | src/parsers/__init__.py:69-71 | the cache entry for the name is overwritten with the class, and a new name is appended to the key order |
| ParserRegistry.Registry.AvailableParsers | src/parsers/__init__.py:73-75 | the list holds exactly the cache keys |
| ParserRegistry.GetParserTwice | src/parsers/__init__.py:46-67 | asking twice for a parser that imports gives two distinct instances of the same cached class |
| BaseParser.AtLine | src/parsers/c_cpp_parser.py:216-222 | each name one pattern captures on a line becomes one entity, in match order, carrying that line's 1-based number |
| BaseParser.AtLineMembers | src/parsers/c_cpp_parser.py:216-222 | an entity is taken from a line exactly when it carries that line's number and its name was captured there |
| BaseParser.Matches | src/parsers/c_cpp_parser.py:217-222 | the loop over one line's matches builds exactly the entities of the captured names at that line |
| BaseParser.MatchesNotUpper | src/parsers/c_cpp_parser.py:196-204 | the match loop that skips all-upper-case captures builds the entities of exactly the other captures |
| BaseParser.NotUpperMembers | src/parsers/c_cpp_parser.py:200 | a name survives the upper-case filter exactly when it was captured and is not all upper-case |
| BaseParser.FromLinesStep | src/parsers/c_cpp_parser.py:166-173 | the line loop appends one more line's entities at the end |
| BaseParser.FromLinesNumbered | src/parsers/c_cpp_parser.py:166-173 | an extraction over the first n lines holds exactly what each of those lines yields, each at its own line number between 1 and n |
| BaseParser.CheckLineLength | src/parsers/base_parser.py:270-289 | `_check_line_length` splits the content on newlines and returns the line-length check of those lines |
| BaseParser.ScanLineLength | src/parsers/base_parser.py:275-287 | the loop over the lines computes the line-length check, failing when the limit is not a number |
| BaseParser.LineLengthExact | src/parsers/base_parser.py:272-289 | with a numeric limit every non-blank, non-comment line longer than the limit is reported once at its 1-based number, nothing else is reported, and the reports are in line order with no cap |
| BaseParser.LongLinesSound | src/parsers/base_parser.py:275-287 | every report is a "代码行过长" violation of a long code line among the lines scanned |
| BaseParser.LongLinesPrefix | src/parsers/base_parser.py:275-287 | scanning further lines only appends reports |
| BaseParser.LongLineReported | src/parsers/base_parser.py:281-287 | a long code line is reported once the loop has passed it |
| BaseParser.LongLinesOrdered | src/parsers/base_parser.py:275-287 | the reports are on strictly increasing line numbers, none past the last line scanned |
| BaseParser.CheckIndentation | src/parsers/base_parser.py:292-353 | `_check_indentation` splits the content and returns the indentation check of those lines |
| BaseParser.ScanIndentation | src/parsers/base_parser.py:301-351 | the loop over the lines computes the indentation check, failing when the unit is zero or not an integer or `strict_check` cannot be read |
| BaseParser.IndentationExact | src/parsers/base_parser.py:298-351 | with a usable unit every non-blank line whose leading spaces are positive and not a multiple of the unit is reported once at its number and nothing else is; only the lenient one-space JavaScript case has a severity, and it is "low"; reports are in line order |
| BaseParser.BadIndentsSound | src/parsers/base_parser.py:301-351 | every report is a "缩进不规范" violation of a badly indented scanned line, with a severity exactly in the lenient one-space case |
| BaseParser.BadIndentsPrefix | src/parsers/base_parser.py:301-351 | scanning further lines only appends reports |
| BaseParser.BadIndentReported | src/parsers/base_parser.py:311-351 | a badly indented line is reported once the loop has passed it |
| BaseParser.BadIndentsOrdered | src/parsers/base_parser.py:301-351 | the reports are on strictly increasing line numbers, none past the last line scanned |
| BaseParser.IndentationSkips | src/parsers/base_parser.py:303-311 | blank lines, unindented lines and lines indented by a multiple of the unit are never reported |
| BaseParser.CloseAt | src/parsers/base_parser.py:221-224 | the lazy `(.*?)` group closes at the first later delimiter, which lies inside the text and, without DOTALL, before any newline |
| BaseParser.RemoveQuoted | src/parsers/base_parser.py:221-224 | removing quoted stretches never lengthens the text |
| BaseParser.RemoveQuotedNoQuote | src/parsers/base_parser.py:221-224 | text without the delimiter comes through the substitution unchanged |
| BaseParser.NonBlank | src/parsers/base_parser.py:233-236 | there are at most as many non-blank lines as lines |
| BaseParser.CommentsAreNonBlank | src/parsers/base_parser.py:233-251 | only non-blank lines are counted as comment lines |
| BaseParser.LineCommentsOnly | src/parsers/base_parser.py:246-251 | without any `/*` the comment lines are exactly the lines starting with `#` or `//`, and the scan ends outside a block comment |
| BaseParser.CheckCommentCoverage | src/parsers/base_parser.py:215-267 | `_check_comment_coverage` returns the coverage check of the content with its string literals removed |
| BaseParser.CountComments | src/parsers/base_parser.py:229-251 | the loop, with its in-block-comment flag, counts the comment lines of the reference scan |
| BaseParser.CoverageMeaning | src/parsers/base_parser.py:253-265 | the comment count never exceeds the line count; with a numeric minimum a violation is returned exactly when the coverage is below it, and a minimum of 0 or less is never violated |
| BaseParser.NotBelowNonPositive | src/parsers/base_parser.py:260 | a coverage is never below a minimum of zero or less |
| BaseParser.OverLimits | src/parsers/base_parser.py:174-180 | the basic check's line reports are all "行长度过长" violations |
| BaseParser.OverLimitsPrefix | src/parsers/base_parser.py:174-180 | looking at further lines only appends reports |
| BaseParser.FirstTen | src/parsers/base_parser.py:181-183 | the loop stops with at most ten reports, a prefix of the uncapped list, and all of them when there are ten or fewer |
| BaseParser.PerformBasicChecks | src/parsers/base_parser.py:165-196 | `_perform_basic_checks` returns the basic checks of the content under the rules, with an uncomparable limit giving nothing |
| BaseParser.ScanOverLimit | src/parsers/base_parser.py:171-183 | the line loop returns the first ten over-long lines |
| BaseParser.BasicChecksBounds | src/parsers/base_parser.py:171-191 | at most eleven violations; with a numeric limit the missing-comment violation appears exactly when the content holds none of `#`, `"""`, `'''`; every violation is a line-length one or the missing-comment one |
| BaseParser.NamingCheck | src/parsers/base_parser.py:203-212 | a result exists exactly when the pattern is a compilable string; a violation with line -1 and the name's message is returned exactly when the pattern does not match the start of the name |
| BaseParser.NamingFailureSticks | src/parsers/c_cpp_parser.py:67-80 | once `re.match` raises for one entity, the whole naming loop fails |
| BaseParser.CheckNames | src/parsers/c_cpp_parser.py:67-80 | the naming loop over the entities computes the reference naming result |
| BaseParser.NamingExact | src/parsers/c_cpp_parser.py:67-80 | when matching succeeds for every checked entity the loop returns exactly the failing entities, one violation each at the entity's line, in entity order |
| BaseParser.Reported | src/parsers/c_cpp_parser.py:76-80 | at most one report per entity, each of the check's kind and without a severity |
| BaseParser.ReportedMembers | src/parsers/c_cpp_parser.py:67-80 | every failing entity is reported at its line with its name in the message, and every report comes from a failing entity |
| BaseParser.ExemptNamesPass | src/parsers/c_cpp_parser.py:67-71 | with `allow_error_naming` on, no name containing "Error" or "ERROR" is checked or reported |
| BaseParser.FirstDescent | src/parsers/c_cpp_parser.py:270-294 | the first adjacent pair, both categorised, whose category falls, as the later position; `None` exactly when there is no such pair |
| BaseParser.FirstDescentIs | src/parsers/c_cpp_parser.py:270-294 | a descent with none before it is the one found |
| BaseParser.FindDescent | src/parsers/c_cpp_parser.py:270-294 | the index loop returns the first descent |
| BaseParser.MatchCount | src/parsers/c_cpp_parser.py:305-316 | at most one hit per pattern |
| BaseParser.HitsCount | src/parsers/c_cpp_parser.py:314-323 | a header line gets one report for every pattern that matches it |
| BaseParser.HitsSame | src/parsers/c_cpp_parser.py:314-323 | all reports for one line are the same violation |
| BaseParser.BracesAtSame | src/parsers/c_cpp_parser.py:314-323 | every report for line i is the brace violation at line i + 2 |
| BaseParser.BracesAtCount | src/parsers/c_cpp_parser.py:314-323 | line i's reports count the patterns it matches when the next line is a lone `{`, and are none otherwise |
| BaseParser.BracesAtOther | src/parsers/c_cpp_parser.py:314-323 | a line never yields another line's violation |
| BaseParser.BracesIsolate | src/parsers/c_cpp_parser.py:304-323 | only line j contributes occurrences of line j's violation |
| BaseParser.BraceMultiplicity | src/parsers/c_cpp_parser.py:298-325 | each header line followed by a lone `{` is reported exactly once per pattern it matches, and no other line's violation occurs |
| BaseParser.BracesShape | src/parsers/c_cpp_parser.py:298-325 | every report is the brace violation of some header line followed by an opening brace |
| BaseParser.FlaggedStep | src/parsers/php_parser.py:259-268 | a per-line loop appends what the next line adds |
| BaseParser.FlaggedExact | src/parsers/php_parser.py:259-268 | a per-line check reporting line i at line i + d holds exactly the lines that have a violation, each once, on strictly increasing lines |
| BaseParser.ChainFirst | src/parsers/c_cpp_parser.py:66-155 | a `check_rules` that did not raise starts with its first check's results |
| BaseParser.ChainLast | src/parsers/c_cpp_parser.py:66-155 | a `check_rules` that did not raise ends with its last check's results, after those of the checks before |
| BaseParser.ChainEnds | src/parsers/c_cpp_parser.py:66-155 | a `check_rules` that did not raise starts with its first check's results and ends with its last two checks' results |
| BaseParser.ChainSplit | src/parsers/c_cpp_parser.py:66-155 | the checks before and after any point both succeeded, and their results follow each other |
| BaseParser.Chain3 | src/parsers/c_cpp_parser.py:118-134 | three checks that succeed contribute their results in order |
| BaseParser.ParseToolOutput | src/parsers/c_cpp_parser.py:380-392 | the loop over the linter's output lines computes the reference list of kept lines |
| BaseParser.ToolLinesExact | src/parsers/c_cpp_parser.py:380-392 | every kept output line gives one violation with its stripped text, every violation comes from a kept line, and there are no more violations than lines |
| BaseParser.ToolMessageNonEmpty | src/parsers/c_cpp_parser.py:386-390 | a non-blank kept line never gives an empty message |
| BaseParser.BaseRulesMeaning | src/parsers/base_parser.py:12-74 | a parser's rules are what `get_rules_for_language(ruleset, "unknown")` returns when that is non-empty, and the defaults otherwise, because the language name is still "Unknown" during loading |
| BaseParser.UnknownNotRepaired | src/parsers/base_parser.py:42-66 | when the first lookup is empty, the whole-ruleset fallback has no "unknown" entry either, so it also yields nothing |
| BaseParser.BuiltinParsersSeeGlobalLayer | src/parsers/base_parser.py:12-40 | every built-in ruleset hands every parser its global layer |
| BaseParser.UnknownIsNoSection | src/parsers/base_parser.py:32-36 | no built-in ruleset has a section named "unknown" |
| BaseParser.NonEmptyRulesKept | src/parsers/base_parser.py:18-23 | non-empty loaded rules are kept |
| BaseParser.UnknownRulesetDefaultsParser | src/parsers/base_parser.py:20-23 | a ruleset name that does not exist leaves the parser with the default rules |
| BaseParser.FinishScan | src/parsers/base_parser.py:133-147 | the post-processing of a `check_rules` result: a failure becomes one scan-error violation, an empty list is replaced by the basic checks, anything else is kept |
| BaseParser.ScanOutcomeCases | src/parsers/base_parser.py:109-163 | blank content yields nothing; an unreadable file or a raising check yields exactly one "扫描错误" violation at line 1; a non-empty check result is returned as it is; an empty one becomes the basic checks |
| BaseParser.Parser.constructor | src/parsers/base_parser.py:12-23 | the parser keeps the ruleset name and the rules loaded for it |
| BaseParser.Parser.SetRules | src/parsers/base_parser.py:366-368 | `set_rules` replaces the rules, and the ruleset name is a constant |
| BaseParser.Parser.Scan | src/parsers/base_parser.py:109-163 | the base parser's scan finds nothing in `check_rules` and so returns the basic checks of non-blank content |
| PythonParser.Names | src/parsers/python_parser.py:63-66 | the names of a list of entities, position by position |
| PythonParser.IndexOfName | src/parsers/python_parser.py:63-66 | the position of a kept entity with the given name, or `None` exactly when no kept entity has it |
| PythonParser.RecordNames | src/parsers/python_parser.py:63-66 | storing an entity under a name already present keeps the name order, and a new name goes to the end |
| PythonParser.DedupMeaning | src/parsers/python_parser.py:63-66 | the dict comprehension keeps each name once, in the order of its first occurrence, holding the entity (and so the line) of its last occurrence |
| PythonParser.RecordKeepsLast | src/parsers/python_parser.py:63-66 | after one more entity every kept entity is still the last one of its name |
| PythonParser.FirstOccurrencesDistinct | src/parsers/python_parser.py:63-66 | the deduplicated names repeat no name |
| PythonParser.FirstOccurrencesMembers | src/parsers/python_parser.py:63-66 | the deduplicated names are exactly the names of the input |
| PythonParser.CheckTabIndentation | src/parsers/python_parser.py:180-194 | `_check_tab_indentation` returns the tab report of the content's lines |
| PythonParser.ScanTabs | src/parsers/python_parser.py:185-192 | the line loop builds the tab report |
| PythonParser.TabsExact | src/parsers/python_parser.py:182-194 | every line starting with a tab is reported once at its 1-based number, nothing else is, and reports are in line order |
| PythonParser.TabsSound | src/parsers/python_parser.py:185-192 | every report is the tab violation of a scanned line starting with a tab |
| PythonParser.TabsPrefix | src/parsers/python_parser.py:185-192 | scanning further lines only appends reports |
| PythonParser.TabsOrdered | src/parsers/python_parser.py:185-192 | reports are on strictly increasing lines, none past the last line scanned |
| PythonParser.AliasEntries | src/parsers/python_parser.py:213-216 | an `import` statement contributes one entry per alias, holding the first dotted component of its name and the statement's line |
| PythonParser.Ranks | src/parsers/python_parser.py:223-224 | a standard-library module ranks 0 and any other ranks 1, so a descent is exactly a standard import after a non-standard one |
| PythonParser.CheckImportOrder | src/parsers/python_parser.py:196-231 | `_check_import_order` returns the import-order verdict of the top-level statements |
| PythonParser.CollectEntries | src/parsers/python_parser.py:210-219 | the loop over the top-level statements collects the import entries in order |
| PythonParser.NodeEntries | src/parsers/python_parser.py:211-219 | one statement's entries: one per alias of an `import`, one for a `from` import, its module's first component or '' when it has none |
| PythonParser.DescentIsStdAfterOther | src/parsers/python_parser.py:223-224 | a rank descent before entry i holds exactly when entry i is a standard module and entry i - 1 is not |
| PythonParser.OrderViolationAt | src/parsers/python_parser.py:223-229 | the first standard import right after a non-standard one is reported, at its line, with its module name |
| PythonParser.OrderViolationNone | src/parsers/python_parser.py:223-231 | without a standard import right after a non-standard one nothing is reported |
| PythonParser.Checks | src/parsers/python_parser.py:103-176 | `check_rules` runs nine checks |
| PythonParser.NamingChecks | src/parsers/python_parser.py:103-145 | the four naming checks |
| PythonParser.LineChecks | src/parsers/python_parser.py:147-176 | the five checks over the content |
| PythonParser.RunNamingChecks | src/parsers/python_parser.py:103-145 | the naming loops produce the naming checks in the order functions, variables, classes, constants, none exempt |
| PythonParser.RunLineChecks | src/parsers/python_parser.py:147-176 | the remaining checks in the order line length, indentation, comment coverage, tabs, import order |
| PythonParser.Parser.constructor | src/parsers/python_parser.py:8-23 | the parser keeps the ruleset, the rules loaded for it and the naming patterns and limits read from those rules with their defaults |
| PythonParser.Parser.SetRules | src/parsers/base_parser.py:366-368 | `set_rules` replaces only the rules; the frozen settings stay |
| PythonParser.Parser.CheckRules | src/parsers/python_parser.py:91-178 | `check_rules`: the parse-error violation alone on a syntax or parse error, else the checks' results chained in their fixed order, failing when one raises |
| PythonParser.Parser.Scan | src/parsers/base_parser.py:109-163 | the inherited scan runs the Python `check_rules` on the parse of the file and applies the shared post-processing |
| PythonParser.SyntaxErrorSingle | src/parsers/python_parser.py:76-101 | a syntax error yields exactly one "代码解析错误" violation carrying the error message, whatever the rules |
| PythonParser.NoVariablesOrConstants | src/parsers/python_parser.py:47-56 | the visitor asks `ast.Name` for a `name` attribute it never has, so no variable or constant is ever extracted |
| PythonParser.ErrorNamesStillChecked | src/parsers/python_parser.py:104-112 | there is no `allow_error_naming` exemption: a failing function name containing "Error" is still reported at its line |
| PythonParser.CheckOrder | src/parsers/python_parser.py:103-178 | when every check answers, the function-naming violations come first and the tab violations and then the import-order violation come last |
| PythonParser.BuiltinSettings | src/parsers/python_parser.py:14-23 | for every built-in ruleset the frozen settings are the global layer's: coverage 0.1, line length 120, indent 4, snake-case function names; the Python section is never read |
| PythonParser.GlobalSettings | src/rules/rulesets.py:7-24 | the settings read from the global layer |
| CCppParser.Extract | src/parsers/c_cpp_parser.py:157-248 | each of the four extractors returns the entities its line loop takes from the content's lines |
| CCppParser.ExtractFromLine | src/parsers/c_cpp_parser.py:166-173 | the body of an extractor's line loop: what one line yields |
| CCppParser.ExtractedExact | src/parsers/c_cpp_parser.py:157-248 | an extractor's result holds exactly what it takes from each line, each at that line's 1-based number |
| CCppParser.FoundAtNumber | src/parsers/c_cpp_parser.py:166-173 | everything taken from line i carries the number i + 1 |
| CCppParser.FoundAtLine | src/parsers/c_cpp_parser.py:166-246 | functions only from lines without `class` or `struct`; variables only from lines that do not hold `(`, `)` and `{` or `;`, never all-upper-case names, from both variable patterns; classes from every line; constants from both the `const` and the `#define` pattern |
| CCppParser.Parse | src/parsers/c_cpp_parser.py:30-52 | `parse` always succeeds and keeps the content |
| CCppParser.ParseContent | src/parsers/c_cpp_parser.py:30-45 | the extractors run in the order functions, variables, classes, constants |
| CCppParser.IncludeCategory | src/parsers/c_cpp_parser.py:270-287 | a category is one of the four and is only given to `#include` lines |
| CCppParser.Categories | src/parsers/c_cpp_parser.py:276-287 | each include's category is that of its text |
| CCppParser.CheckIncludeOrder | src/parsers/c_cpp_parser.py:250-296 | `_check_include_order` returns the include-order verdict of the lines |
| CCppParser.CollectIncludes | src/parsers/c_cpp_parser.py:256-258 | the loop gathers the include lines with their numbers |
| CCppParser.IncludesExact | src/parsers/c_cpp_parser.py:256-258 | the list holds every line that literally starts with `#include`, only those, each with its own number, in increasing order |
| CCppParser.IncludeOrderMeaning | src/parsers/c_cpp_parser.py:270-296 | no violation exactly when no adjacent pair of categorised includes falls; otherwise the violation is at the later include of the first such pair |
| CCppParser.ThirdPartyNeedsNonLetter | src/parsers/c_cpp_parser.py:264-266 | the third-party category only catches `<` followed by a digit or underscore, because header names that start with a letter already match the first two patterns |
| CCppParser.LocalBeforeSystem | src/parsers/c_cpp_parser.py:284-294 | a local include followed by a C library include is reported at the second line |
| CCppParser.CheckBraceStyle | src/parsers/c_cpp_parser.py:298-325 | `_check_brace_style` returns the brace reports of the lines for the three header patterns |
| CCppParser.LineBraces | src/parsers/c_cpp_parser.py:311-323 | the loop over the three patterns for one line |
| CCppParser.BraceRepeats | src/parsers/c_cpp_parser.py:304-323 | a header line followed by a lone `{` is reported at line i + 2 once per matching pattern, so at most three times, and other lines never produce that violation |
| CCppParser.NamespaceMeaning | src/parsers/c_cpp_parser.py:327-337 | one violation without a line exactly when `using namespace std;` occurs anywhere in the raw text |
| CCppParser.Checks | src/parsers/c_cpp_parser.py:66-155 | `check_rules` runs ten checks |
| CCppParser.NamingChecks | src/parsers/c_cpp_parser.py:66-116 | the four naming checks |
| CCppParser.LineChecks | src/parsers/c_cpp_parser.py:118-153 | the six checks over the content |
| CCppParser.RunNamingChecks | src/parsers/c_cpp_parser.py:66-116 | the naming loops in the order functions and variables (exemption applied), classes and constants (never exempt) |
| CCppParser.RunLineChecks | src/parsers/c_cpp_parser.py:118-153 | line length, indentation, comment coverage, include order, brace style, namespace usage, in that order |
| CCppParser.Parser.constructor | src/parsers/c_cpp_parser.py:13-28 | the parser keeps the ruleset, the rules loaded for it and the patterns and limits read from them with the C/C++ defaults |
| CCppParser.Parser.SetRules | src/parsers/base_parser.py:366-368 | `set_rules` replaces only the rules; the frozen settings stay |
| CCppParser.Parser.CheckRules | src/parsers/c_cpp_parser.py:54-155 | `check_rules`: the parse-error violation alone, or the ten checks chained, failing when one raises |
| CCppParser.Parser.Scan | src/parsers/c_cpp_parser.py:339-378 | the base scan of the file followed by cpplint's findings when cpplint ran and printed something |
| CCppParser.ParseErrorSingle | src/parsers/c_cpp_parser.py:59-64 | a parse error yields exactly one "代码解析错误" violation carrying the message |
| CCppParser.CheckOrder | src/parsers/c_cpp_parser.py:66-155 | when every check answers, the function-naming violations come first and the include-order, brace and namespace violations come last, in that order |
| CCppParser.ExemptionScope | src/parsers/c_cpp_parser.py:67-106 | with `allow_error_naming` on, no function whose name holds "Error" or "ERROR" is reported, while such a class name failing its pattern is still reported at its line |
| CCppParser.BuiltinSettings | src/parsers/c_cpp_parser.py:19-28 | every built-in ruleset freezes the global layer (snake-case functions, 120 columns, 10% coverage) and turns the exemption on; the cpp section is never read |
| CCppParser.GlobalSettings | src/rules/rulesets.py:7-24 | the settings read from the global layer |
| CCppParser.CpplintExact | src/parsers/c_cpp_parser.py:380-392 | every non-blank line of cpplint's output becomes one line-less violation with its stripped, non-empty text, and nothing else does |
| JavaParser.KeptMembers | src/parsers/java_parser.py:214 | a captured variable name is kept exactly when the line does not mention `final` or the name is not all upper-case |
| JavaParser.Extract | src/parsers/java_parser.py:170-274 | each of the five extractors returns the entities its line loop takes from the content's lines |
| JavaParser.ExtractFromLine | src/parsers/java_parser.py:178-186 | the body of an extractor's line loop: what one line yields |
| JavaParser.MatchVariables | src/parsers/java_parser.py:208-218 | the loop over one variable pattern's matches keeps the names the `final` filter lets through, at the line's number |
| JavaParser.ExtractedExact | src/parsers/java_parser.py:170-274 | an extractor's result holds exactly what it takes from each line, each at that line's 1-based number |
| JavaParser.FoundAtNumber | src/parsers/java_parser.py:178-186 | everything taken from line i carries the number i + 1 |
| JavaParser.FoundAtLine | src/parsers/java_parser.py:178-272 | variables only from lines that do not hold `(`, `)` and `{` or `;`, from both variable patterns, and never an all-upper-case name on a line mentioning `final`; functions, classes, constants and packages from every line |
| JavaParser.Parse | src/parsers/java_parser.py:31-55 | `parse` always succeeds and keeps the content |
| JavaParser.ParseContent | src/parsers/java_parser.py:33-48 | the extractors run in the order functions, variables, classes, constants, packages |
| JavaParser.CheckBraceStyle | src/parsers/java_parser.py:276-303 | `_check_brace_style` returns the brace reports, the three header patterns being matched at the start of each stripped line |
| JavaParser.LineBraces | src/parsers/java_parser.py:290-301 | the loop over the three patterns for one line |
| JavaParser.BraceRepeats | src/parsers/java_parser.py:282-301 | a header line followed by a line that is `{` once stripped is reported at line i + 2 once per matching pattern, at most three times, and every report comes from such a line |
| JavaParser.Category | src/parsers/java_parser.py:317-342 | a category is only given to import lines, is at most 4, and as written is never 4 |
| JavaParser.NameCategory | src/parsers/java_parser.py:317-324 | the category of the imported name is at most 4, and as written never 4 |
| JavaParser.ImportLine | src/parsers/java_parser.py:317-321 | after `import` and whitespace, only the imported name decides the category |
| JavaParser.ThirdPartyName | src/parsers/java_parser.py:320 | a name starting with a letter other than `j` and `s` is third-party |
| JavaParser.StaticImportName | src/parsers/java_parser.py:320-324 | a static import is caught by the third-party pattern as written, and ranked last once the static pattern is tried first |
| JavaParser.Categories | src/parsers/java_parser.py:326-342 | each import's category is that of its line |
| JavaParser.CheckImportOrder | src/parsers/java_parser.py:305-352 | `_check_import_order` as written: the import-order verdict with the patterns tried in the source's order, so static imports rank as third-party |
| JavaParser.CollectImports | src/parsers/java_parser.py:311-313 | the loop gathers the lines starting with `import`, with their numbers |
| JavaParser.ImportsExact | src/parsers/java_parser.py:311-313 | the list holds every line starting with `import`, only those, each with its own number, in increasing order |
| JavaParser.ImportOrderMeaning | src/parsers/java_parser.py:326-352 | no violation exactly when no adjacent pair of categorised imports falls; otherwise the violation is at the later import of the first such pair |
| JavaParser.RankingsAgree | src/parsers/java_parser.py:317-324 | the written and the corrected rankings differ only on static imports |
| JavaParser.StaticFirstMissed | src/parsers/java_parser.py:320-345 | as written, a static import followed by a third-party import is not reported |
| JavaParser.StaticFirstReported | src/parsers/java_parser.py:315-350 | with static imports ranked last, the same two lines are reported at the second import |
| JavaParser.StaticFirstCategories | src/parsers/java_parser.py:317-342 | the two example lines are both imports; the static one is third-party as written and last when corrected |
| JavaParser.Checks | src/parsers/java_parser.py:69-166 | `check_rules` runs ten checks |
| JavaParser.NamingChecks | src/parsers/java_parser.py:69-135 | the five naming checks |
| JavaParser.LineChecks | src/parsers/java_parser.py:137-166 | the five checks over the content |
| JavaParser.RunNamingChecks | src/parsers/java_parser.py:69-135 | the naming loops in the order functions, variables, classes, constants, packages, all under the exemption |
| JavaParser.RunLineChecks | src/parsers/java_parser.py:137-166 | line length, indentation, comment coverage, brace style, import order, in that order |
| JavaParser.Parser.constructor | src/parsers/java_parser.py:13-29 | the parser keeps the ruleset, the rules loaded for it and the five patterns and limits read from them with the Java defaults |
| JavaParser.Parser.SetRules | src/parsers/base_parser.py:366-368 | `set_rules` replaces only the rules; the frozen settings stay |
| JavaParser.Parser.CheckRules | src/parsers/java_parser.py:57-168 | `check_rules`: the parse-error violation alone, or the ten checks chained, failing when one raises |
| JavaParser.Parser.Scan | src/parsers/java_parser.py:355-380 | the base scan of the file followed by Checkstyle's findings when Java and Checkstyle are installed |
| JavaParser.ParseErrorSingle | src/parsers/java_parser.py:62-67 | a parse error yields exactly one "代码解析错误" violation carrying the message |
| JavaParser.CheckOrder | src/parsers/java_parser.py:69-168 | when every check answers, the function-naming violations come first and the brace and import-order violations come last, in that order |
| JavaParser.ExemptionCoversPackages | src/parsers/java_parser.py:70-135 | with `allow_error_naming` on, even package names holding "Error" or "ERROR" are never reported |
| JavaParser.BuiltinSettings | src/parsers/java_parser.py:19-29 | every built-in ruleset freezes the global layer (snake-case functions and variables, the default package pattern, 120 columns, 10% coverage) and turns the exemption on; the java section is never read |
| JavaParser.GlobalSettings | src/rules/rulesets.py:7-24 | the settings read from the global layer |
| JavaParser.CheckstyleExact | src/parsers/java_parser.py:404-421 | a failing run with output yields one line-less violation per non-blank line mentioning `ERROR`, with its stripped text, and nothing else; a passing run or empty output yields nothing |
| JavascriptParser.Extract | src/parsers/javascript_parser.py:144-226 | each of the four extractors returns the entities its line loop takes from the content's lines |
| JavascriptParser.ExtractFromLine | src/parsers/javascript_parser.py:157-164 | the body of an extractor's line loop: each pattern's matches in turn |
| JavascriptParser.ExtractedExact | src/parsers/javascript_parser.py:144-226 | an extractor's result holds exactly what it takes from each line, each at that line's 1-based number |
| JavascriptParser.FoundAtNumber | src/parsers/javascript_parser.py:157-164 | everything taken from line i carries the number i + 1 |
| JavascriptParser.FoundAtLine | src/parsers/javascript_parser.py:150-224 | functions from declarations and arrow `const`s; variables from `var` and `let` except all-upper-case names; classes; constants from `const` followed by an upper-case identifier |
| JavascriptParser.Parse | src/parsers/javascript_parser.py:32-55 | `parse` always succeeds and keeps the content |
| JavascriptParser.ParseContent | src/parsers/javascript_parser.py:34-46 | the extractors run in the order functions, variables, classes, constants |
| JavascriptParser.CheckSemicolons | src/parsers/javascript_parser.py:228-259 | `_check_semicolon_usage` computes the semicolon report, reading `semicolon_required` (default true) from the current rules |
| JavascriptParser.SemicolonsExact | src/parsers/javascript_parser.py:231-257 | without `semicolon_required` nothing is reported; otherwise every non-blank line that does not start with `//` or `/*`, does not end with `;` and looks like a statement is reported once at its 1-based number, nothing else is, and reports are in line order |
| JavascriptParser.CheckBraceStyle | src/parsers/javascript_parser.py:261-284 | `_check_brace_style` returns the brace reports for the one header pattern matched at the start of each stripped line |
| JavascriptParser.LineBraces | src/parsers/javascript_parser.py:273-282 | the loop over the one pattern for one line |
| JavascriptParser.BraceOnce | src/parsers/javascript_parser.py:267-282 | a header line whose next line starts with `{` once stripped is reported once, at the header's own number i + 1, and every report comes from such a line |
| JavascriptParser.Checks | src/parsers/javascript_parser.py:68-142 | `check_rules` runs nine checks |
| JavascriptParser.NamingChecks | src/parsers/javascript_parser.py:68-110 | the four naming checks |
| JavascriptParser.LineChecks | src/parsers/javascript_parser.py:112-140 | the five checks over the content |
| JavascriptParser.RunNamingChecks | src/parsers/javascript_parser.py:68-110 | the naming loops in the order functions, variables, classes, constants, none exempt |
| JavascriptParser.RunLineChecks | src/parsers/javascript_parser.py:112-140 | line length, indentation with the JavaScript leniency, comment coverage, semicolons, brace style, in that order |
| JavascriptParser.ParseErrorSingle | src/parsers/javascript_parser.py:61-66 | a parse error yields exactly one "代码解析错误" violation carrying the message |
| JavascriptParser.ParseEslint | src/parsers/javascript_parser.py:334-370 | the result loops over ESLint's JSON output compute the ESLint violations |
| JavascriptParser.KeepSerious | src/parsers/javascript_parser.py:354-360 | the loop over one file entry's messages keeps the serious ones |
| JavascriptParser.KeptExact | src/parsers/javascript_parser.py:354-360 | a file entry's violations are exactly those of its messages of severity 2 or more |
| JavascriptParser.ResultsExact | src/parsers/javascript_parser.py:352-360 | a violation comes from the result list exactly when some file entry has a serious message giving it |
| JavascriptParser.FileExact | src/parsers/javascript_parser.py:353-360 | one entry's violations are exactly its serious messages', and an entry without `messages` gives none |
| JavascriptParser.EslintExact | src/parsers/javascript_parser.py:346-367 | JSON output gives exactly the messages of severity 2 or more of any file entry; output that is not JSON gives one line-less violation exactly when the run failed; every violation is an "ESLint检查问题" |
| JavascriptParser.Parser.constructor | src/parsers/javascript_parser.py:15-30 | the parser keeps the ruleset, the rules loaded for it and the patterns and limits read from them with the JavaScript defaults, including a 2-space indent |
| JavascriptParser.Parser.SetRules | src/parsers/base_parser.py:366-368 | `set_rules` replaces only the rules; the frozen settings stay, while the semicolon, exemption and strictness switches are read from the new rules |
| JavascriptParser.Parser.CheckRules | src/parsers/javascript_parser.py:56-142 | `check_rules`: the parse-error violation alone, or the nine checks chained, failing when one raises |
| JavascriptParser.Parser.Scan | src/parsers/javascript_parser.py:287-312 | the base scan of the file followed by ESLint's findings when Node.js and ESLint are installed |
| JavascriptParser.CheckOrder | src/parsers/javascript_parser.py:68-142 | when every check answers, the function-naming violations come first and the semicolon and brace violations come last, in that order |
| JavascriptParser.ErrorNamesStillChecked | src/parsers/javascript_parser.py:68-78 | there is no `allow_error_naming` exemption: a failing function name containing "Error" is still reported at its line |
| JavascriptParser.BuiltinSettings | src/parsers/javascript_parser.py:21-30 | every built-in ruleset freezes the global layer (snake-case names, 4-space indent rather than the sections' 2, 120 columns), and the rules loaded at construction require semicolons |
| JavascriptParser.GlobalSettings | src/rules/rulesets.py:7-24 | the settings read from the global layer |
| JavascriptParser.JavascriptRulesSemicolons | src/parsers/javascript_parser.py:231-235 | after `set_rules` with a built-in ruleset's javascript rules, semicolons are required exactly for Google and PEP8 |
| JavascriptParser.SectionSemicolons | src/rules/rulesets.py:44-166 | a built-in javascript section turns semicolons off exactly in Airbnb and Standard |
| JavascriptParser.LayerSemicolons | src/rules/__init__.py:128-138 | a section overlaid on the global layer requires semicolons unless the section says otherwise |
| GoParser.Extract | src/parsers/go_parser.py:151-209 | the function, variable and type extractors return the entities their line loops take from the content's lines |
| GoParser.ExtractFromLine | src/parsers/go_parser.py:182-189 | the body of an extractor's line loop: each pattern's matches in turn |
| GoParser.ExtractedExact | src/parsers/go_parser.py:151-209 | an extractor's result holds exactly what it takes from each line, each at that line's 1-based number |
| GoParser.FoundAtLine | src/parsers/go_parser.py:157-207 | every name the extractor's patterns find on a line (both variable patterns for variables), at that line's number, with no filter |
| GoParser.KeptMembers | src/parsers/go_parser.py:241 | a captured constant name is kept exactly when the line is outside a const block or the name is upper-case |
| GoParser.ExtractConstants | src/parsers/go_parser.py:211-247 | `_extract_constants`, with its `in_const_block` flag threaded through the line loop, computes the reference constant list |
| GoParser.ConstantsFromLine | src/parsers/go_parser.py:237-245 | the two pattern loops for one line |
| GoParser.KeepConstants | src/parsers/go_parser.py:238-245 | the loop over one pattern's matches keeps those the flag allows, at the line's number |
| GoParser.ConstantsExact | src/parsers/go_parser.py:227-245 | the constants are exactly what each line yields under the flag as updated by that line, at that line's number |
| GoParser.FlagsMeaning | src/parsers/go_parser.py:228-235 | line k's flag is the flag after the first k + 1 lines, and follows from the previous flag and the stripped line |
| GoParser.ConstantsAtNumber | src/parsers/go_parser.py:242-245 | everything taken from line i carries the number i + 1 |
| GoParser.ConstantsAtLine | src/parsers/go_parser.py:237-245 | a line yields every match of either pattern, except that inside a const block only upper-case names are kept |
| GoParser.InBlockMeaning | src/parsers/go_parser.py:225-235 | the flag is set after line n exactly when some line entered a block (stripped, starts with `const`, and has no `=` or has `(`) and no later line was exactly `}`, so a block closed by `)` leaves it set |
| GoParser.Parse | src/parsers/go_parser.py:30-52 | `parse` never takes its error branch, since the extractors over the modelled pattern finder cannot raise, and keeps the content |
| GoParser.ParseContent | src/parsers/go_parser.py:30-45 | the extractors run in the order functions, variables, types, constants |
| GoParser.ImportsCheck | src/parsers/go_parser.py:249-263 | at most one line-less warning, given exactly when the import pattern finds something in the content |
| GoParser.CheckBraceStyle | src/parsers/go_parser.py:265-289 | `_check_brace_style` returns the brace reports for the two header patterns matched at the start of each stripped line |
| GoParser.LineBraces | src/parsers/go_parser.py:278-287 | the loop over the two patterns for one line |
| GoParser.BraceRepeats | src/parsers/go_parser.py:271-287 | a header line whose next line starts with `{` once stripped is reported at line i + 2 once per matching pattern, and every report comes from such a line |
| GoParser.Checks | src/parsers/go_parser.py:66-147 | `check_rules` runs nine checks after the parse-error test |
| GoParser.NamingChecks | src/parsers/go_parser.py:66-117 | there are exactly four naming checks, one per entity kind |
| GoParser.LineChecks | src/parsers/go_parser.py:119-147 | there are exactly five checks over the whole content |
| GoParser.RunNamingChecks | src/parsers/go_parser.py:66-117 | the naming loops in the order functions and variables (exemption applied), types and constants (never exempt) |
| GoParser.RunLineChecks | src/parsers/go_parser.py:119-147 | line length, indentation, comment coverage, imports, brace style, in that order |
| GoParser.ParseErrorSingle | src/parsers/go_parser.py:59-64 | a parse error yields exactly one "代码解析错误" violation carrying the message |
| GoParser.FormatViolations | src/parsers/go_parser.py:331-353 | `go fmt` gives at most one warning, exactly when its stripped output is the file's own path |
| GoParser.VetExact | src/parsers/go_parser.py:355-376 | `go vet` adds nothing unless it failed and wrote errors; then every non-blank error line becomes one violation with its stripped text, and nothing else does |
| GoParser.Parser.constructor | src/parsers/go_parser.py:13-28 | the parser keeps the ruleset, the rules loaded for it and the patterns and limits read from them with the Go defaults |
| GoParser.Parser.SetRules | src/parsers/base_parser.py:366-368 | `set_rules` replaces only the rules; the frozen settings stay |
| GoParser.Parser.CheckRules | src/parsers/go_parser.py:54-149 | `check_rules`: the parse-error violation alone, or the nine checks chained, failing when one raises |
| GoParser.Parser.Scan | src/parsers/go_parser.py:292-321 | the base scan of the file followed by the `go fmt` and then the `go vet` findings when Go is installed |
| GoParser.CheckOrder | src/parsers/go_parser.py:66-149 | when every check answers, the function-naming violations come first and the import and brace violations come last, in that order |
| GoParser.ExemptionCoversFunctionsAndVariables | src/parsers/go_parser.py:66-95 | with `allow_error_naming` on, no function or variable whose name holds "Error" or "ERROR" is reported |
| GoParser.ErrorTypesStillChecked | src/parsers/go_parser.py:97-106 | type names are checked whatever the exemption says: a failing type name containing "Error" is reported at its line |
| GoParser.BuiltinSettings | src/parsers/go_parser.py:19-28 | every built-in ruleset freezes the global layer: snake-case functions and variables, Pascal-case types by default (the global layer has no `type_naming`), 120 columns instead of 100, exemption on |
| GoParser.GlobalSettings | src/rules/rulesets.py:7-24 | the settings read from the global layer |
| PhpParser.DollarsMembers | src/parsers/php_parser.py:179-187 | the variable loop records `$` followed by exactly those identifiers after a `$` that are not all upper-case |
| PhpParser.Extract | src/parsers/php_parser.py:143-234 | the four extractors return the entities their line loops take from the content's lines, the variables without repeats |
| PhpParser.ExtractFromLine | src/parsers/php_parser.py:156-165 | the body of an extractor's line loop: each pattern's matches in turn |
| PhpParser.MatchDollars | src/parsers/php_parser.py:179-187 | the loop over the variable pattern's matches on a line keeps the identifiers that are not all upper-case, prefixed by `$`, at the line's number |
| PhpParser.Deduplicate | src/parsers/php_parser.py:189-190 | the dictionary keyed by (name, line) leaves the first copy of each pair, in first-seen order |
| PhpParser.DistinctExact | src/parsers/php_parser.py:189-190 | removing repeats keeps every entity, adds none, leaves no pair twice and never lengthens the list |
| PhpParser.DistinctKeepsDistinct | src/parsers/php_parser.py:189-190 | a list without repeats is left unchanged |
| PhpParser.DistinctIdempotent | src/parsers/php_parser.py:189-190 | removing repeats twice is removing them once |
| PhpParser.ExtractedExact | src/parsers/php_parser.py:143-234 | an extractor's result holds exactly what it takes from each line, each at that line's 1-based number, and the variables hold no (name, line) pair twice |
| PhpParser.FoundAtNumber | src/parsers/php_parser.py:156-232 | everything taken from line i carries the number i + 1 |
| PhpParser.FoundAtLine | src/parsers/php_parser.py:143-234 | per extractor, exactly the names its patterns find on a line: either function pattern, `$` plus each identifier that is not all upper-case, class names, `define` and `const` names |
| PhpParser.FunctionsRecordedPerPattern | src/parsers/php_parser.py:149-165 | function names are not deduplicated: a name both function patterns find on a line is recorded there twice |
| PhpParser.DollarNames | src/parsers/php_parser.py:182 | every recorded variable name starts with `$` |
| PhpParser.VariablesHaveDollar | src/parsers/php_parser.py:169-192 | every extracted variable name starts with `$` |
| PhpParser.Parse | src/parsers/php_parser.py:30-52 | `parse` never takes its error branch, since the extractors over the modelled pattern finder cannot raise, and keeps the content |
| PhpParser.ParseContent | src/parsers/php_parser.py:30-45 | the extractors run in the order functions, variables, classes, constants |
| PhpParser.OpenTagOnce | src/parsers/php_parser.py:243 | in `<?php` + code + `?>`, the text after the first `<?php` up to the next `<?php` is the code and the closing tag |
| PhpParser.CloseTagAtEnd | src/parsers/php_parser.py:243 | in code + `?>`, the text before the first `?>` is the code |
| PhpParser.ClosingTagOnPhpOnlyFile | src/parsers/php_parser.py:236-249 | a file made of one PHP block with non-blank code is reported |
| PhpParser.ClosingTagRequirements | src/parsers/php_parser.py:236-249 | no report unless the stripped text ends with `?>`, the text holds `<?php` and its first block is not blank; a report carries no line |
| PhpParser.CheckShortTags | src/parsers/php_parser.py:251-267 | `_check_short_tag_usage` returns the reference short-tag reports |
| PhpParser.ShortTagsExact | src/parsers/php_parser.py:251-267 | each line matching `<?` followed by white space whose stripped text does not start with `<?=` is reported once at its own number, nothing else is, and the reports come in line order |
| PhpParser.Checks | src/parsers/php_parser.py:66-139 | `check_rules` runs nine checks after the parse-error test |
| PhpParser.NamingChecks | src/parsers/php_parser.py:66-108 | there are exactly four naming checks, one per entity kind |
| PhpParser.LineChecks | src/parsers/php_parser.py:110-139 | there are exactly five checks over the whole content |
| PhpParser.RunNamingChecks | src/parsers/php_parser.py:66-108 | the naming loops in the order functions, variables, classes, constants, none exempt |
| PhpParser.RunLineChecks | src/parsers/php_parser.py:110-139 | line length, indentation, comment coverage, closing tag, short tags, in that order |
| PhpParser.ParseErrorSingle | src/parsers/php_parser.py:59-64 | a parse error yields exactly one "代码解析错误" violation carrying the message |
| PhpParser.PhpcsExact | src/parsers/php_parser.py:297-340 | PHP_CodeSniffer adds nothing without PHP or unless its run failed with output; then every output line containing ERROR or WARNING becomes one violation with its stripped text, and nothing else does |
| PhpParser.Parser.constructor | src/parsers/php_parser.py:13-28 | the parser keeps the ruleset, the rules loaded for it and the patterns and limits read from them with the PHP defaults |
| PhpParser.Parser.SetRules | src/parsers/base_parser.py:366-368 | `set_rules` replaces only the rules; the frozen settings stay |
| PhpParser.Parser.CheckRules | src/parsers/php_parser.py:54-141 | `check_rules`: the parse-error violation alone, or the nine checks chained, failing when one raises |
| PhpParser.Parser.Scan | src/parsers/php_parser.py:270-295 | the base scan of the file followed by PHP_CodeSniffer's findings when PHP and the sniffer are found |
| PhpParser.CheckOrder | src/parsers/php_parser.py:66-141 | when every check answers, the function-naming violations come first and the closing-tag and short-tag violations come last, in that order |
| PhpParser.ErrorNamesStillChecked | src/parsers/php_parser.py:77-86 | PHP has no `allow_error_naming` exemption: a failing variable name containing "Error" is reported at its line |
| PhpParser.BuiltinSettings | src/parsers/php_parser.py:19-27 | every built-in ruleset freezes the global layer: variables checked against the plain snake-case pattern, which has no `$`, not the parser's `$` default; 4-space indent; 120 columns |
| PhpParser.GlobalSettings | src/rules/rulesets.py:7-24 | the settings read from the global layer, whose variable pattern differs from the PHP default |
| Scanner.Listed | src/core/scanner.py:177-183 | one directory's listing never holds more paths than it has files |
| Scanner.ListedExact | src/core/scanner.py:171-183 | a directory's listed paths are exactly its files other than `.DS_Store`, each joined to the directory's path |
| Scanner.PrunedDirectory | src/core/scanner.py:170-175 | the walk lists the same paths whether or not an ignored directory (`.git`, `__pycache__`, `node_modules`, `venv`, `env`, `.idea`, `.vscode`, `build`, `dist`) is there, whatever it holds |
| Scanner.VisitedDirectory | src/core/scanner.py:173-175 | every path listed inside a directory that is not ignored is listed for its parent, so for the project |
| Scanner.TopFilesListed | src/core/scanner.py:173-183 | every file of the project directory except `.DS_Store` is listed |
| Scanner.ParsersAndLanguages | src/core/scanner.py:48-62 | every file that has a parser has a language in the extension table, and the only languages without a parser are TypeScript's |
| Scanner.FirstRulesExact | src/core/scanner.py:245-250 | the fallback loop picks the rules of the first language in its list that has any, and finds none only when no language in the list has any |
| Scanner.AlwaysSomeRules | src/core/scanner.py:216-280 | apart from C and TypeScript files, every file receives non-empty rules: the made-up defaults close the chain |
| Scanner.BuiltinNeedsNoFallback | src/core/scanner.py:216-221 | under a built-in ruleset the manager always answers, so none of the fallbacks is taken |
| Scanner.CLanguageKeys | src/core/scanner.py:214 | C and C++ files have the language keys "c" and "c++", and neither names a ruleset section |
| Scanner.NoSectionGetsGlobalRules | src/core/scanner.py:214-221 | under a built-in ruleset, a file whose language key names no section gets exactly the global rules; so C++ files never see the "cpp" section |
| Scanner.BuiltinNoSection | src/rules/__init__.py:122-138 | a language key with no section gets the global layer from the manager under a built-in ruleset |
| Scanner.UnknownDefaultsKeys | src/rules/__init__.py:265-285 | the manager's defaults for an unknown ruleset have only the "python" and "javascript" sections, the latter non-empty |
| Scanner.UnknownRulesFor | src/core/scanner.py:216-221 | under a ruleset the manager does not know, both the manager's answer and the scanner's own rules come from the default sections |
| Scanner.UnknownRulesetBorrows | src/core/scanner.py:224-250 | under an unknown ruleset, PHP and TypeScript files get the default JavaScript section, and C files get no rules, so their parser keeps its own settings |
| Scanner.UnknownRulesetDefaultsUsed | src/core/scanner.py:252-280 | under an unknown ruleset, C++, Go and Java files get the made-up defaults: indent and line length by ruleset name |
| Scanner.SeverityLadder | src/core/scanner.py:356-378 | with no given severity: "high" exactly when a high keyword occurs in the lower-cased rule name and description, "low" exactly when no high but some low keyword does, "medium" exactly when neither does |
| Scanner.LowerKeepsContains | src/core/scanner.py:365-369 | lower-casing the text keeps every occurrence, lower-cased, so a keyword found before is found after |
| Scanner.ErrorIsHigh | src/core/scanner.py:331 | a description that contains "Error" is graded high |
| Scanner.FormatAll | src/core/scanner.py:338-387 | the conversion yields one formatted violation per raw one |
| Scanner.FormatAllAt | src/core/scanner.py:338-387 | the k-th formatted violation is the k-th raw one, formatted |
| Scanner.FormatExact | src/core/scanner.py:341-387 | the stored form keeps the given type, message, line and severity; "unknown" for a missing type; "违反了" + rule + "规则" for a missing or empty message; an unknown line for a missing line or -1; a description never empty; a computed severity among high, medium, low |
| Scanner.UnspecialExact | src/core/scanner.py:389-397 | the filter keeps exactly the formatted violations whose lower-cased description and rule name contain neither "done processing" nor "total errors found", never more than it got |
| Scanner.UnspecialUnchanged | src/core/scanner.py:389-397 | with no summary line the filter returns its input, order included |
| Scanner.RuleNames | src/core/scanner.py:400-405 | the rule-name histogram of a list counts each of its violations once |
| Scanner.Severities | src/core/scanner.py:410-415 | the severity histogram of a list counts each of its violations once |
| Scanner.AggregateCoherent | src/core/scanner.py:399-419 | tallying a file grows both histograms by the file's count, records details only for a file with violations, and keeps the histograms equal in size and every detailed file counted |
| Scanner.PauseResume | src/core/scanner.py:149-163 | pausing a running scan and resuming it restores the state; pausing twice is pausing once; neither does anything when no scan runs |
| Scanner.CallsKeep | src/core/scanner.py:145-163 | stop, pause and resume touch only the two flags, and only a stop can end a scan |
| Scanner.ParsedKeeps | src/core/scanner.py:282-419 | running a parser on a file changes only the results, and keeps them coherent |
| Scanner.RecordedKeeps | src/core/scanner.py:421-425 | tallying and saving the scan information leave the counters, flags and progress alone |
| Scanner.ExaminedKeeps | src/core/scanner.py:195-425 | examining a file after the pause leaves the counters, flags and progress alone and keeps the results coherent |
| Scanner.FileScanKeeps | src/core/scanner.py:187-428 | one file leaves the file counters, the progress values and the saved progress alone, keeps the results coherent, and ends the scan only when the user stops it during a pause |
| Scanner.UnsupportedFileIgnored | src/core/scanner.py:199-202 | a file with an unsupported extension leaves no trace |
| Scanner.TypeScriptCountedOnly | src/core/scanner.py:204-284 | a TypeScript file is counted under "TypeScript" and recorded as the current file, and nothing else in the results changes |
| Scanner.TypeScriptHasNoParser | src/parsers/__init__.py:28-42 | a TypeScript file gets no parser |
| Scanner.TypeScriptExtensions | src/parsers/__init__.py:28-42 | the extensions the scanner calls TypeScript choose no parser |
| Scanner.PlainNotSpecial | src/core/scanner.py:391-397 | a violation with no upper-case letter, `d` or `t` in its rule name and description is never filtered |
| Scanner.TestViolationKept | src/core/scanner.py:319-323 | the test violation is not a summary line, so it is never filtered out |
| Scanner.CleanFileGetsTestViolation | src/core/scanner.py:312-323 | a file whose parser reports nothing (or no list) gets the test violation when it is a Python file and no violation is counted yet, or when the files scanned so far are a multiple of ten: its details are that one violation and its count is one |
| Scanner.CleanParse | src/core/scanner.py:307-323 | the same for the parser step on its own |
| Scanner.ParsedNothing | src/core/scanner.py:307-323 | a parser that reports nothing, or not a list, leaves the file's record to the test-violation rule |
| Scanner.AggregateOne | src/core/scanner.py:399-419 | tallying one violation records it as the file's details, counts one for the file and names its rule |
| Scanner.TestViolationRecorded | src/core/scanner.py:319-397 | the test violation passes formatting and filtering unchanged, under the rule "测试验证" |
| Scanner.ReportedViolationsRecorded | src/core/scanner.py:312-419 | when the parser reports violations no test violation is added: the file's count is what survives the summary-line filter, and with no summary line it is all of them, as details |
| Scanner.ProgressBounds | src/core/scanner.py:127 | the progress of file j of n lies in 0..100, never goes down, and the last file gives 100 |
| Scanner.ScanStepKeeps | src/core/scanner.py:187-428 | the file step meets the condition the loop lemmas assume: counters and progress untouched, the scan still running unless stopped during a pause |
| Scanner.LoopStep | src/core/scanner.py:116-135 | one turn of the loop: the user's calls, then the file unless the scan was stopped |
| Scanner.LoopCounts | src/core/scanner.py:116-135 | every file taken up is counted once, as scanned or as skipped; each scanned one sends one progress value; the loop stops short only when the scan was stopped; the results stay coherent |
| Scanner.LoopProgress | src/core/scanner.py:116-135 | the progress values sent from file j on are appended after the earlier ones, lie between file j's value and 100, and never go down |
| Scanner.UninterruptedTakesAll | src/core/scanner.py:116-135 | with no stop and no pause ending in a stop, every remaining file is taken up |
| Scanner.StopDuringPause | src/core/scanner.py:121-128 | a stop during a pause abandons the file, yet `start` counts it as scanned and sends its progress before leaving the loop |
| Scanner.RunExact | src/core/scanner.py:104-143 | `start` records how many files the walk found, counts each file it takes up once, takes up all of them unless the user stops it, sends progress values in order between 0 and 100, and keeps the results coherent |
| Scanner.FindKeyword | src/core/scanner.py:368-371 | a keyword loop finds a keyword exactly when some keyword of the list, lower-cased, occurs in the text |
| Scanner.Classify | src/core/scanner.py:356-378 | the grading computes the specified severity |
| Scanner.FormatViolations | src/core/scanner.py:325-387 | the conversion loop computes the reference formatting of every violation, in order |
| Scanner.FilterSpecial | src/core/scanner.py:389-397 | the filter loop computes the reference filter |
| Scanner.ResolveLanguageRules | src/core/scanner.py:212-280 | the rules lookup with its fallbacks computes the reference lookup |
| Scanner.CountRuleNames | src/core/scanner.py:400-405 | the counting loop adds exactly the list's rule-name histogram |
| Scanner.CountSeverities | src/core/scanner.py:410-415 | the counting loop adds exactly the list's severity histogram |
| Scanner.Prepare | src/core/scanner.py:312-397 | what is recorded of a parser's violations: the test violation added, formatted, filtered |
| Scanner.CodeScanner.constructor | src/core/scanner.py:22-102 | a scanner that is not scanning or paused, with empty results and the rules the manager gives for its ruleset |
| Scanner.CodeScanner.Stop | src/core/scanner.py:145-147 | `stop` clears the scanning flag and nothing else |
| Scanner.CodeScanner.PauseScan | src/core/scanner.py:149-155 | `pause_scan` pauses a running scan and says whether it did |
| Scanner.CodeScanner.ResumeScan | src/core/scanner.py:157-163 | `resume_scan` resumes a paused scan and says whether it did |
| Scanner.CodeScanner.Receive | src/core/scanner.py:145-163 | the window's calls arriving between files take effect in order |
| Scanner.CodeScanner.Tally | src/core/scanner.py:399-419 | the statistics update the results as the tally function says, and nothing else |
| Scanner.CodeScanner.Record | src/core/scanner.py:421-425 | the saved scan information: the current file, the saved progress kept, the scanned count and a copy of the results |
| Scanner.CodeScanner.ScanFile | src/core/scanner.py:187-428 | `_scan_file` takes the scanner to the state the file step specifies, and raises exactly when it does |
| Scanner.CodeScanner.CheckFile | src/core/scanner.py:195-428 | the language, its rules and its parser, as the examination step specifies |
| Scanner.CodeScanner.RunParser | src/core/scanner.py:285-419 | the line count, the parser's check and the statistics, as the parser step specifies |
| Scanner.CodeScanner.Turn | src/core/scanner.py:116-135 | one turn of the loop, so that the rest of the loop from the new state is the rest of the loop from the old |
| Scanner.CodeScanner.Account | src/core/scanner.py:121-135 | after a file, one skipped when it raised, else one scanned with its progress value |
| Scanner.CodeScanner.Start | src/core/scanner.py:104-143 | `start` walks the project and takes the scanner to the state `Run` specifies over the walk's files |
| LicenseScanner.HasNameCons | src/core/license_scanner.py:75 | a licence name is in the table exactly when it is the first entry's or in the rest |
| LicenseScanner.PutNames | src/core/license_scanner.py:75 | a dictionary assignment keeps the names in their places, makes the name present, and appends it only when it is new |
| LicenseScanner.PutLookup | src/core/license_scanner.py:75 | after the assignment the name has the new patterns and every other name keeps its own |
| LicenseScanner.PutDistinct | src/core/license_scanner.py:75 | the assignment never lists a name twice |
| LicenseScanner.BuiltDistinct | src/core/license_scanner.py:72-79 | the table built from the entries lists no name twice |
| LicenseScanner.BuiltNames | src/core/license_scanner.py:72-79 | the table lists a name exactly when some entry has it |
| LicenseScanner.BuiltLookup | src/core/license_scanner.py:72-79 | a name's patterns are those of its last entry |
| LicenseScanner.BuiltTable | src/core/license_scanner.py:72-79 | the three properties above together |
| LicenseScanner.BuiltRisks | src/core/license_scanner.py:76-79 | a name is listed under high, medium or low exactly when one of its entries has that level; other levels list it nowhere |
| LicenseScanner.LoadedDistinct | src/core/license_scanner.py:28-105 | whether the rules file is present, absent or unreadable, the loaded table lists each licence once |
| LicenseScanner.RiskOfEntry | src/core/license_scanner.py:188-200 | the level reported for a licence with one entry is that entry's level when it is high or medium, and low otherwise |
| LicenseScanner.MatchingExact | src/core/license_scanner.py:126-130 | a licence is detected exactly when one of its patterns matches, and, the table listing each name once, none is detected twice |
| LicenseScanner.DetectedExact | src/core/license_scanner.py:116-136 | a licence is found in a readable file exactly when one of its patterns matches the file's first 1000 characters |
| LicenseScanner.NonText | src/core/license_scanner.py:222-223 | the count of non-text bytes never exceeds the chunk's length and is zero exactly when every byte is a text byte |
| LicenseScanner.TextHeads | src/core/license_scanner.py:211-226 | a head with a NUL byte is not text; a non-empty head of text bytes only is text; only the first 2048 bytes count |
| LicenseScanner.IsTextFile | src/core/license_scanner.py:202-226 | `_is_text_file` decides as the reference predicate: no NUL, fewer than 30% non-text bytes, false for an unreadable or empty file |
| LicenseScanner.CompileRules | src/core/license_scanner.py:69-79 | the entry loop reports whether every pattern compiles and, when all do, builds the reference table and levels |
| LicenseScanner.FoundDistinct | src/core/license_scanner.py:126-130 | with a table listing each licence once, no file lists a licence twice |
| LicenseScanner.TalliedCount | src/core/license_scanner.py:173-175 | a licence's summary grows by one for each file that lists it once |
| LicenseScanner.RiskTalliedTotal | src/core/license_scanner.py:178-180 | the three level counts together grow by one per licence found |
| LicenseScanner.SurveyedFiles | src/core/license_scanner.py:156-170 | the files in the survey are exactly the walked files in which some licence was found |
| LicenseScanner.SurveyedHighRisk | src/core/license_scanner.py:182-184 | the high-risk files are exactly the walked files with a high-risk licence, each with its licences |
| LicenseScanner.SurveyedRisk | src/core/license_scanner.py:177-180 | the level counts add up to the number of licence findings |
| LicenseScanner.SurveyedSummary | src/core/license_scanner.py:172-175 | when no file lists a licence twice and no file is walked twice, a licence's summary is the number of files in which it was found |
| LicenseScanner.SummaryStep | src/core/license_scanner.py:172-175 | the summary after a file is the summary before it tallied with that file's licences |
| LicenseScanner.FilesWithStep | src/core/license_scanner.py:172-175 | one more file in which a licence was found adds one to the number of files with it |
| LicenseScanner.ScanSummary | src/core/license_scanner.py:138-186 | whatever the rules file holds, a licence's summary after a directory scan is the number of files in which it was found |
| LicenseScanner.DefaultRules | src/core/license_scanner.py:35-61 | without a rules file the scanner looks for MIT, Apache-2.0 and GPL-3.0, in that order, and only GPL-3.0 is high risk |
| LicenseScanner.LicenseScanner.constructor | src/core/license_scanner.py:18-26 | the scanner loads its rules and starts with empty results |
| LicenseScanner.LicenseScanner.LoadLicenseRules | src/core/license_scanner.py:28-105 | `load_license_rules` replaces the table and levels by the loaded rules, or the hard-coded fallback when the file cannot be read or a pattern does not compile, and leaves the results alone |
| LicenseScanner.LicenseScanner.GetLicenseRisk | src/core/license_scanner.py:188-200 | `_get_license_risk` tries high, medium and low in turn, low by default |
| LicenseScanner.LicenseScanner.ScanFile | src/core/license_scanner.py:107-136 | `scan_file` returns the licences one of whose patterns matches the first 1000 characters, none for an unreadable file |
| LicenseScanner.LicenseScanner.CountRisks | src/core/license_scanner.py:178-180 | the risk loop adds one level count per licence |
| LicenseScanner.LicenseScanner.Note | src/core/license_scanner.py:168-184 | recording a file with licences updates the results as the reference does, and keeps the rules |
| LicenseScanner.LicenseScanner.Examine | src/core/license_scanner.py:157-184 | one walked file: skipped when hidden or not text, noted when licences are found in it |
| LicenseScanner.LicenseScanner.ScanDirectory | src/core/license_scanner.py:138-186 | `scan_directory` resets the results, examines every walked file, and returns the survey it keeps |
| LicenseScanner.CountLicenses | src/core/license_scanner.py:173-175 | the summary loop adds one to the count of each licence |
| Config.AssignedThenLookup | src/core/config_manager.py:138-150 | after a successful assignment along a key path, the path holds the new value |
| Config.SetThenGet | src/core/config_manager.py:108-150 | after a successful `set(key_path, value)`, `get(key_path)` returns the value, whatever the default |
| Config.AssignedKeepsOthers | src/core/config_manager.py:138-150 | an assignment changes no path that parts ways with the assigned one |
| Config.AssignedFails | src/core/config_manager.py:141-153 | `set` fails exactly when a proper prefix of the path leads to a value that is not a dictionary |
| Config.NewSectionSucceeds | src/core/config_manager.py:143-146 | an assignment below a missing section always succeeds, the sections being created empty |
| Config.MergedLeaf | src/core/config_manager.py:168-174 | every value of the user configuration that is not a dictionary ends up at its path after the merge |
| Config.MergedKeeps | src/core/config_manager.py:168-174 | a base value stays where it is when the update has nothing at its path and only dictionaries, if anything, above it |
| Config.MergedSelf | src/core/config_manager.py:161-174 | merging a configuration with itself changes nothing |
| Config.MergeConfigs | src/core/config_manager.py:161-174 | `_merge_configs`, entry by entry and recursively into sections present in both, computes the reference merge |
| Config.DottedKeys | src/core/config_manager.py:118 | a two-part dotted key path without other dots splits into its two keys |
| Config.LookupTwo | src/core/config_manager.py:118-126 | a lookup along two keys succeeds exactly when the first leads to a dictionary holding the second |
| Config.DefaultValues | src/core/config_manager.py:20-49 | the defaults hold a concurrency of 4, a 5242880-byte file-size limit, the Google ruleset and custom rules enabled |
| Config.UserFileKeepsConcurrency | src/core/config_manager.py:67-75 | a user file that does not set the concurrency leaves the default of 4 in place |
| Config.ConfigManager.constructor | src/core/config_manager.py:51-56 | the manager starts from the defaults and loads the configuration file over them |
| Config.ConfigManager.LoadConfig | src/core/config_manager.py:67-94 | `load_config` merges a JSON dictionary in, resets to the defaults when the file is not JSON, and otherwise keeps the configuration |
| Config.ConfigManager.ResetToDefault | src/core/config_manager.py:155-159 | `reset_to_default` restores the default configuration |
| Config.ConfigManager.Get | src/core/config_manager.py:108-126 | `get` returns the value at the dotted path, or the default when a key is missing or a value on the way is not a dictionary |
| Config.ConfigManager.GetAt | src/core/config_manager.py:118-126 | the loop of `get` over the keys computes the reference lookup |
| Config.ConfigManager.Set | src/core/config_manager.py:128-153 | `set` creates missing sections and assigns the value, succeeding exactly when the walk meets only dictionaries; on failure nothing changes |
| Config.ConfigManager.GetExcludedDirs | src/core/config_manager.py:176-178 | `get_excluded_dirs` reads `scanner.exclude_dirs`, an empty list when unset |
| Config.ConfigManager.GetExcludedFiles | src/core/config_manager.py:180-182 | `get_excluded_files` reads `scanner.exclude_files`, an empty list when unset |
| Config.ConfigManager.GetMaxFileSize | src/core/config_manager.py:184-186 | `get_max_file_size` reads `scanner.max_file_size`, 5242880 when unset |
| Config.ConfigManager.GetConcurrency | src/core/config_manager.py:188-190 | `get_concurrency` reads `scanner.concurrency`, 4 when unset |
| Config.ConfigManager.GetDefaultRuleset | src/core/config_manager.py:192-194 | `get_default_ruleset` reads `rules.default_ruleset`, Google when unset |
| Config.ConfigManager.IsCustomRulesEnabled | src/core/config_manager.py:196-198 | `is_custom_rules_enabled` reads `rules.enable_custom_rules`, true when unset |
| Config.WalkFails | src/core/config_manager.py:143-153 | once the walk of `set` meets a value that is not a dictionary before the last key, the assignment fails |
| Score.TierOne | src/ui/main_window.py:927-933 | a violation that is counted goes to exactly one tier |
| Score.FileTiersTotal | src/ui/main_window.py:919-933 | every violation of a file that is not a summary line is counted in exactly one tier |
| Score.FileTiersZero | src/ui/main_window.py:919-933 | a file's recount is zero exactly when each of its violations is a summary line |
| Score.PerFile | src/ui/main_window.py:918-933 | the recount keeps one tier count per file of the details, that file's own |
| Score.DetailTiersZero | src/ui/main_window.py:915-933 | the recount is zero exactly when every violation in the details is a summary line |
| Score.CountFile | src/ui/main_window.py:919-933 | the loop over one file's violations skips summary lines and counts high, medium, and everything else as low |
| Score.Recount | src/ui/main_window.py:916-933 | the loop over every file of the details computes the reference recount |
| Score.CalculateScore | src/ui/main_window.py:893-947 | `_calculate_score` computes the reference score, recounting the details when the severity counts are all zero |
| Score.ScoreBounds | src/ui/main_window.py:893-947 | the score lies between 0 and 100, and is 100 exactly when there are no lines and no scanned files, or no counted violation |
| Score.ScoreFromDetails | src/ui/main_window.py:915-947 | with no severity counts, the score is 100 exactly when every violation in the details is a summary line |
| Score.LinesFallback | src/ui/main_window.py:900-907 | without a line count, a scan scores as if each scanned file had 200 lines |
| Score.ItemsExact | src/ui/main_window.py:306 | an excluded directory is kept exactly when it is the non-empty strip of some part |
| Score.ItemsKeep | src/ui/main_window.py:306 | items already stripped and non-empty survive in order |
| Score.SplitJoin | src/ui/main_window.py:306-322 | joining parts without the separator and splitting again gives the parts |
| Score.ExcludeDirsRoundTrip | src/ui/main_window.py:306-322 | the directories saved comma-joined at line 322 read back, by the split at line 306, as the same list, when each is non-empty and has no comma and no surrounding white space; a cleared list, saved as "", reads back as no directories |
| Score.ExcludeDirsExact | src/ui/main_window.py:306 | every excluded directory is non-empty and is the strip of a comma-separated part of the field |
| Score.StandardFor | src/ui/main_window.py:311-318 | a displayed standard in the list maps to a built-in ruleset; any other name stands for itself |
| Score.BuiltinFixed | src/ui/main_window.py:311-318 | every built-in ruleset name selects itself |
| Score.StandardIdempotent | src/ui/main_window.py:311-318 | mapping twice is mapping once |
| Score.StandardTargets | src/ui/main_window.py:311-318 | the built-in rulesets are exactly the targets of the list |
| Score.HighRiskIgnoresCase | src/ui/main_window.py:700 | the marking upper-cases the licence name first, so case does not matter |
| Score.HighRiskWithin | src/ui/main_window.py:694-700 | a licence name containing a high-risk name is itself marked high risk |
| Score.WithoutG | src/ui/main_window.py:694-700 | every marker holds a G, so a name without one is never marked |
| Score.MarkerIsHighRisk | src/ui/main_window.py:694 | each of GPL-2.0, GPL-3.0, LGPL and AGPL is marked high risk |
| Score.FallbackAgrees | src/core/license_scanner.py:96-105 | the window's marking agrees with the licence scanner's fallback levels |
| Score.DefaultsAgree | src/core/license_scanner.py:35-61 | the window's marking agrees with the levels of the licence scanner's default rules |
| TierCounts.SumOfAny | src/ui/main_window.py:918 | the recount does not depend on the order the files come in: any file may be taken first |
| TierCounts.SumAny | src/ui/main_window.py:918 | the same for all three tiers at once |
| TierCounts.SumNone | src/ui/main_window.py:918-933 | files without counted violations add nothing |
| TierCounts.SumPart | src/ui/main_window.py:918-933 | each file's counts are part of the sum |
| TierCounts.SumZero | src/ui/main_window.py:918-933 | the sum is zero exactly when every file's counts are |
| TierCounts.SourceArithmetic | src/ui/main_window.py:935-945 | the window's percentage arithmetic, clipped at 0, equals the score formula |
| TierCounts.ScaledMonotone | src/ui/main_window.py:942 | more violations in any tier never raise the unclipped score |
| TierCounts.ScaledFacts | src/ui/main_window.py:942 | the unclipped score over the lines lies between 0 and 100, is 100 exactly with no violation, and is 0 exactly when the weighted violations reach ten per line |
| TierCounts.FormulaRange | src/ui/main_window.py:942-945 | the score lies between 0 and 100 |
| TierCounts.FormulaPerfect | src/ui/main_window.py:942-945 | the score is 100 exactly when there is no violation |
| TierCounts.FormulaZero | src/ui/main_window.py:942-945 | the score is 0 exactly when the weighted violations (high ×100, medium ×10, low ×1) reach ten per line |
| TierCounts.FormulaMonotone | src/ui/main_window.py:942-945 | more violations in any tier never raise the score |
| Text.ExtensionShape | src/core/scanner.py:196-197 | the extension `os.path.splitext` gives is empty, or a dot followed by no other dot and no `/`, at the end of the path |
| Text.ExtensionOf | src/parsers/__init__.py:24-25 | a base name `stem.ext` whose stem does not start with a dot has the extension `.ext` |
| PyNumbers.ParseFractionValue | src/rules/__init__.py:214-216 | `float` of two digit runs around one `.` has the value decimal notation gives it |
| Text.StripEmptyIffBlank | src/parsers/base_parser.py:117 | `content.strip()` is empty exactly when every character is white space |

## Left out

- User interface: the PyQt windows, tables, dialogs and signals. Of `src/ui/main_window.py`, only `_calculate_score`, the exclude-directory parsing, the standard mapping and the high-risk test are modelled.
- `src/ui/license_window.py`, `src/ui/rule_editor.py`, `src/core/report_generator.py`, `src/main.py` and `hooks/hook-gi.repository.GObject.py` are not part of this model. They are presentation, serialisation and start-up code.
- File and process I/O: `os.walk`, `open`, JSON loading and saving, and every `subprocess.run`. Directory trees, file contents, byte chunks and tool runs (return code, stdout, stderr) are inputs. Saving the configuration and custom rules is not modelled.
- The regular-expression engine: patterns are named constants, and matching is an abstract Finder, Matcher or Searcher function. Whether a pattern compiles is an abstract `Compiles` predicate.
- The Python AST. `ast.parse` and the node visitor become an abstract `PyAst` value. The pycodestyle and pylint runs in `PythonParser.scan` (src/parsers/python_parser.py:255-376) are not modelled.
- Logging, the `log_updated` messages and `print`.
- Timing and threading: `time.sleep` in the pause wait and the scan time. The pause wait is modelled by how it ends (resumed, or stopped), given per file.
- Scanner.ProgressBounds: progress is the exact floor of (i + 1) × 100 / n. Python computes `int((i + 1) / n * 100)` in floating point, which can be one lower (29 of 100 gives 28).
- Score.CalculateScore: the score is an exact real. Python's floating-point rounding is not modelled, and `max(0, x)` returning the integer 0 is the real 0.0.
- TierCounts.SourceArithmetic: the formula is proved over exact reals, not IEEE doubles.
- LicenseScanner.IsTextFile: the 30% threshold is compared exactly (10 × non-text < 3 × length). Float division is not modelled.
- Rules.ValidateCoverage: `float` is modelled for decimal literals, with `inf` and `nan` spelled in any case. Its result is compared exactly with 0 and 1.
- Shallow-copy aliasing: `all_rulesets.copy()` and `DEFAULT_CONFIG.copy()` let later merges change the built-in nested dictionaries, and `set` on a nested path (src/core/config_manager.py:141-150) writes into `DEFAULT_CONFIG`'s own nested dictionaries, so `reset_to_default` (src/core/config_manager.py:155-159) keeps those values. The model has value semantics: the built-in tables never change, `Config.ConfigManager.Set` touches only the manager's configuration, and `Config.ConfigManager.ResetToDefault` restores the true defaults.
- BaseParser.PercentText: rounds half up over exact reals, while Python's `format(x, '.1%')` (src/parsers/base_parser.py:263) rounds the binary double. The coverage message can therefore differ by one tenth: a 16-line file with one comment line has coverage 1/16, shown as "6.3%" here and "6.2%" by the source; 3/2000 is "0.2%" here and "0.1%" there. Rounding the exact real half to even would not match either, since the double nearest a non-dyadic tie lies on one side of it.
- Dictionary iteration order is modelled as insertion order where the order matters: the custom sets and their items are sequences in load and file order. Histograms that only count are multisets.
- Custom rule files whose top level is not a JSON object, and JSON lists and `null` inside them, are not represented; a custom item's value is a number, boolean, string or dictionary.
- `lower()` and `upper()` change ASCII letters only, and `isupper()` is modelled on ASCII letters. `\w` is ASCII (`CCppParser.WordChar`). `\s`, `isspace()` and `strip()` use Python's full whitespace set (`Text.IsSpace`).
- BaseParser.Show: a float limit in a message is printed as its floor followed by `.0` when it is integral and by `.…` otherwise, where `str(float)` prints its digits: 79.5 shows as "79.…", and -2.5 as "-3.…" where Python prints "-2.5". This affects the limits quoted in the line-length, indentation and coverage messages. Comparisons with a float limit are exact.
- BaseParser.MultipleOf: the indentation test `indent_count % expected_indent != 0` is exact for a float unit, where Python computes the remainder in floating point: with a custom `expected_indent` of 0.1, Python's `1 % 0.1` is 0.09999999999999995, so the source reports a 1-space indent that the model accepts.
- Exceptions inside `check_rules` are modelled as a `None` result, which `scan` turns into its "扫描错误" violation at line 1. Exceptions the modelled code cannot raise are not modelled.
- BaseParser.ScanFailed: the message of the "扫描错误" violation is the fixed prefix alone; the exception text `str(e)` that `scan` appends (src/parsers/base_parser.py:159-161) is not modelled, because exceptions carry no text in the model.

## Findings

| source | as written | input that shows it | evidently intended | confidence | as-written member | corrected member |
|---|---|---|---|---|---|---|
| src/parsers/java_parser.py:320-342 | `import\s+[a-zA-Z]` is tried before `import\s+static`, so a static import is ranked a third-party import and the static category is never assigned | `import static org.junit.Assert.assertTrue;` followed by `import com.google.common.collect.Lists;` is not reported | static imports rank last, as the order list puts them, so a static import before a third-party one is reported at the second line | not executed | JavaParser.StaticFirstMissed | JavaParser.StaticFirstReported |
