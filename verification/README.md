# Tag-based decision API and Herald integration checker, in Dafny

This project models two pieces of the Herald hook system and proves properties about them.

**The tag-based decision API** (`updates/experiments/tag-based-decision-api.py`) decides whether a shell command should be allowed, asked about or denied. It works from three things:

- a policy's `pre_tool_use.rules`;
- a table of built-in semantic tags, such as `package:install` or `system:dangerous`, each backed by a list of regular expressions;
- per-severity thresholds that can escalate a rule's action.

**The integration checker** (`scripts/check_herald_integration.py`) runs four checks, each producing a `CheckResult(passed, missing, detail)`:

- `herald.py` imports the eight hook classes;
- `herald.py` registers the eight events;
- `audio_config.json` maps five hook keys to the expected sound files;
- `settings.json` routes each event to `herald.py --hook <event>`.

The model is split into six modules:

- `Wrappers` holds `Option` and `Result`.
- `Json` covers the Python values both programs handle (policies, rule items, parsed JSON files). It models `dict.get`, truthiness, `for` iteration and `str()`. Exceptions that escape become `Result.Failure(PyError)`.
- `Strings` covers substring search (`in`), Python's string order, `sorted` and list filtering.
- `TagMatching` covers `BUILT_IN_TAG_PATTERNS` and the `TagMatcher` class.
- `DecisionApi` covers `EnhancedRule`, `_compile_rules`, `_resolve_action` and the `EnhancedDecisionAPI` class.
- `HeraldIntegration` covers the four checks and `_extract_commands`. Each file's outcome (absent, read error, parse error or contents) is an input.

The regular-expression engine is abstract. `search(pattern, text)` stands for `re.compile(pattern, re.IGNORECASE).search(text)`, and `compiles(pattern)` says whether `re.compile` accepts the pattern. Every property below holds for every choice of the two.

Three behaviours of the engine as written are easy to miss, and the model keeps them:

- Only rules of type `command` are evaluated. Other rule types are skipped, not treated as path or tag rules (`DecisionApi.NonCommandRulesIgnored`).
- `EnhancedDecisionAPI` builds its `TagMatcher` from the built-in tags alone. The policy cannot add tags.
- An exception while evaluating propagates to the caller. The engine does not turn it into `ask` (`Result.Failure`).

## Model

| member | source | states |
|---|---|---|
| Json.PyGet | updates/experiments/tag-based-decision-api.py:143 | `d.get(key, default)` raises AttributeError exactly when `d` is not a dict; otherwise it gives the key's value, or `default` when the key is absent |
| Json.Lookup | updates/experiments/tag-based-decision-api.py:143 | the definition of a dict's value for a key (none when absent); `Json.PyGet` states what `.get` gives in its terms |
| Json.Truthy | scripts/check_herald_integration.py:112 | the definition of Python truthiness (None, false, 0, and empty strings, lists and dicts are falsy); `DecisionApi.ResolveAction`, `HeraldIntegration.AbsentMappingsMissEverything` and `HeraldIntegration.ScanMissingMeaning` state its effect |
| Json.Iterate | scripts/check_herald_integration.py:160 | `for x in v` succeeds exactly on lists, strings and dicts: a list gives its items, a string its characters as one-character strings, in order, a dict its keys, in order. Anything else raises TypeError |
| Json.PyStr | updates/experiments/tag-based-decision-api.py:163-168 | `str(v)` gives a string unchanged and renders `None` as "None"; every other value gives a non-empty text |
| Strings.Contains | scripts/check_herald_integration.py:74 | the definition of `needle in text` (the needle occurs at some offset); `HeraldIntegration.CheckHeraldImports` and `HeraldIntegration.UnregisteredEvents` state the checks in its terms |
| Strings.Below | scripts/check_herald_integration.py:77 | the definition of Python's `<` on strings, code point by code point with a proper prefix first; `Strings.Sort` and `Strings.IncreasingUnique` state `sorted` in its terms |
| Strings.Sort | scripts/check_herald_integration.py:77 | `sorted` of a list without duplicates is increasing in Python's code-point order and a permutation of its input |
| Strings.IncreasingUnique | scripts/check_herald_integration.py:77 | two increasing lists with the same members are equal, so the sorted list is determined by its members |
| Strings.Filter | scripts/check_herald_integration.py:96 | a list comprehension with a condition keeps exactly the members that satisfy it, in order, and keeps a duplicate-free list duplicate-free |
| TagMatching.BuiltInTagsUnique | updates/experiments/tag-based-decision-api.py:14-80 | the built-in table has eight distinct tags |
| TagMatching.Find | updates/experiments/tag-based-decision-api.py:120-121 | a tag is found exactly when the table has it, and what is found is that tag's entry |
| TagMatching.Put | updates/experiments/tag-based-decision-api.py:109 | the definition of assigning one dict key; `TagMatching.PutTags`, `TagMatching.PutKeeps`, `TagMatching.PutAppends`, `TagMatching.PutFind` and `TagMatching.PutUnique` state its meaning |
| TagMatching.PutTags | updates/experiments/tag-based-decision-api.py:109 | assigning a dict key keeps the key order and appends a new key at the end |
| TagMatching.PutKeeps | updates/experiments/tag-based-decision-api.py:109 | assigning a key leaves every other entry where it was |
| TagMatching.PutAppends | updates/experiments/tag-based-decision-api.py:109 | assigning a key the dict lacks appends its entry at the end |
| TagMatching.PutFind | updates/experiments/tag-based-decision-api.py:109 | after assigning a key, looking it up gives the new patterns; any other key gives what it gave before |
| TagMatching.PutUnique | updates/experiments/tag-based-decision-api.py:109 | assigning a key keeps the tags unique |
| TagMatching.Update | updates/experiments/tag-based-decision-api.py:107-109 | the definition of `copy()` then `update(custom)`, one key at a time; `TagMatching.UpdateTags`, `TagMatching.UpdateHasTag`, `TagMatching.UpdateKeeps` and `TagMatching.UpdateFind` state its meaning |
| TagMatching.UpdateTags | updates/experiments/tag-based-decision-api.py:107-109 | `dict.update` keeps the built-in tags first, in their order, and keeps the tags unique |
| TagMatching.UpdateHasTag | updates/experiments/tag-based-decision-api.py:107-109 | the merged table has a tag exactly when the built-in or the custom table has it |
| TagMatching.UpdateKeeps | updates/experiments/tag-based-decision-api.py:107-109 | a built-in entry that the custom table does not name stays unchanged in its place |
| TagMatching.UpdateFind | updates/experiments/tag-based-decision-api.py:107-109 | a custom tag's patterns replace the built-in ones of the same name; other tags keep theirs |
| TagMatching.TagItemsMatch | updates/experiments/tag-based-decision-api.py:117-124 | with hashable tags, the result is true exactly when some listed known tag has a pattern that searches the text; unknown tags are ignored. The only error is TypeError |
| TagMatching.TagItemsMatchOutcome | updates/experiments/tag-based-decision-api.py:119-124 | the loop raises exactly when a list or dict tag is reached before any matching tag (the `tag in self.compiled_patterns` test at line 120); when it does not raise, it answers whether some listed tag matches |
| TagMatching.TagsMatch | updates/experiments/tag-based-decision-api.py:117-124 | the definition of `matches_any` on the rule's raw `tags` value: iterate it, then test the items; `DecisionApi.MatchesAnyOnNames` and `TagMatching.TagMatcher.MatchesAny` state its meaning |
| TagMatching.MatchingTags | updates/experiments/tag-based-decision-api.py:126-134 | the definition of `get_matching_tags`; `TagMatching.MatchingTagsMembers` and `TagMatching.MatchingTagsOrder` state its meaning |
| TagMatching.MatchingTagsMembers | updates/experiments/tag-based-decision-api.py:126-134 | a tag is listed exactly when one of its patterns searches the text |
| TagMatching.MatchingTagsOrder | updates/experiments/tag-based-decision-api.py:129-133 | the listed tags follow table order, and a table with unique tags lists each tag at most once |
| TagMatching.TagMatcher.constructor | updates/experiments/tag-based-decision-api.py:106-115 | the matcher's table is the built-in table updated with the custom one, and its tags are unique |
| TagMatching.TagMatcher.MatchesAny | updates/experiments/tag-based-decision-api.py:117-124 | the nested loop with early return computes the tag-match specification; an empty tag list gives false |
| TagMatching.TagMatcher.GetMatchingTags | updates/experiments/tag-based-decision-api.py:126-134 | the loop with `break` returns exactly the matching tags, in table order and without duplicates |
| TagMatching.NewTagMatcher | updates/experiments/tag-based-decision-api.py:111-115 | construction raises `re.error` exactly when some pattern of the merged table fails to compile; otherwise it yields a fresh valid matcher over the merged table |
| DecisionApi.FieldStr | updates/experiments/tag-based-decision-api.py:163-168 | `str(item.get(key, default))` gives the default for an absent key and a string field unchanged |
| DecisionApi.CompileRule | updates/experiments/tag-based-decision-api.py:156-173 | an item becomes a rule exactly when it is a dict whose `pattern`, if present, compiles after `str()`; every other item is dropped |
| DecisionApi.CompileRuleFields | updates/experiments/tag-based-decision-api.py:158-169 | a compiled rule carries the defaults `command`, `allow`, "未提供原因", `[]` and `medium` for absent fields. Present `type`, `action`, `reason` and `severity` fields give their `str()`; a present `tags` field is kept as it is, whatever its type |
| DecisionApi.CompiledRules | updates/experiments/tag-based-decision-api.py:150-175 | compiling never yields more rules than there were items |
| DecisionApi.CompiledRulesMembers | updates/experiments/tag-based-decision-api.py:155-173 | a rule is among the compiled rules exactly when some item compiles to it |
| DecisionApi.CompiledRulesAppend | updates/experiments/tag-based-decision-api.py:155-173 | items compile independently: compiling a concatenation concatenates the results, so order is kept |
| DecisionApi.BadRuleDropped | updates/experiments/tag-based-decision-api.py:171-173 | an item that fails is dropped, and the rest compile as if it were absent |
| DecisionApi.GoodRuleKept | updates/experiments/tag-based-decision-api.py:170 | an item that compiles contributes exactly its rule, in its place |
| DecisionApi.RulesConfig | updates/experiments/tag-based-decision-api.py:152 | the definition of `policy.get("pre_tool_use", {}).get("rules", [])` followed by iteration; `DecisionApi.CompileRules` states its error cases |
| DecisionApi.CompileItems | updates/experiments/tag-based-decision-api.py:153-175 | the compile loop yields the compiled-rules specification |
| DecisionApi.CompileRules | updates/experiments/tag-based-decision-api.py:150-175 | fetching `pre_tool_use.rules` may raise (a non-dict policy or section, a non-iterable list); otherwise the result is the compiled items |
| DecisionApi.ResolveAction | updates/experiments/tag-based-decision-api.py:208-219 | deny if the rule or a truthy threshold says deny; otherwise ask if either says ask; otherwise the rule's action. Never less strict than the rule (allow < ask < deny). AttributeError when the thresholds are not a dict |
| DecisionApi.NoThresholdKeepsAction | updates/experiments/tag-based-decision-api.py:211-219 | an absent or falsy threshold leaves the rule's action unchanged |
| DecisionApi.RuleMatches | updates/experiments/tag-based-decision-api.py:94-101 | a rule matches when its pattern searches the command; otherwise the answer is `matches_any` over its tags |
| DecisionApi.BareRuleNeverMatches | updates/experiments/tag-based-decision-api.py:94-101 | a rule with no pattern and no tags never matches |
| DecisionApi.MatchesAnyOnNames | updates/experiments/tag-based-decision-api.py:117-124 | for a list of tag names, `matches_any` is true exactly when some listed tag is known and one of its patterns searches the text |
| DecisionApi.MatchesCommand | updates/experiments/tag-based-decision-api.py:94-101 | the method computes the rule-match specification against the matcher's table |
| DecisionApi.Respond | updates/experiments/tag-based-decision-api.py:182-199 | a matched response reports the rule's reason, action, severity and tags, the tool, and the tags `get_matching_tags` gives for the command; its decision is the resolved final action. It raises exactly when the thresholds are not a dict |
| DecisionApi.Evaluate | updates/experiments/tag-based-decision-api.py:177-206 | the definition of `evaluate_command` over the compiled rules; `DecisionApi.FirstMatchWins`, `DecisionApi.DefaultAllow`, `DecisionApi.UnmatchedMeansNoRuleFired`, `DecisionApi.MatchedMeansFirstFired` and `DecisionApi.NonCommandRulesIgnored` state its meaning |
| DecisionApi.FirstMatchWins | updates/experiments/tag-based-decision-api.py:179-199 | when rule k fires and every earlier rule passes, the response is rule k's, whatever later rules would do |
| DecisionApi.DefaultAllow | updates/experiments/tag-based-decision-api.py:201-206 | when no rule fires, the decision is allow, the reason is "No matching security rules" and there is no matched rule |
| DecisionApi.UnmatchedMeansNoRuleFired | updates/experiments/tag-based-decision-api.py:179-206 | a response without a matched rule means no rule fired, so it is the default response |
| DecisionApi.MatchedMeansFirstFired | updates/experiments/tag-based-decision-api.py:179-199 | a response with a matched rule comes from the first rule that fired |
| DecisionApi.EscalationMonotone | updates/experiments/tag-based-decision-api.py:183 | the decision is never less strict than the matched rule's own action |
| DecisionApi.MatchedTagsUnique | updates/experiments/tag-based-decision-api.py:186-197 | with a table of distinct tags, a matched decision's `matching_tags` lists exactly the tags with a pattern that searches the command, in table order, each once |
| DecisionApi.CommandRules | updates/experiments/tag-based-decision-api.py:181 | the rules the loop considers: a rule is kept exactly when it is one of the rules and has type `command`, and no more rules are kept than given |
| DecisionApi.NonCommandRulesIgnored | updates/experiments/tag-based-decision-api.py:181 | rules of other types never affect the result |
| DecisionApi.SeverityThresholdsOf | updates/experiments/tag-based-decision-api.py:143-148 | the definition of `policy.get("pre_tool_use", {}).get("severity_thresholds", …)` with its default table; `DecisionApi.NewEnhancedDecisionApi` states the outcome |
| DecisionApi.EnhancedDecisionApi.constructor | updates/experiments/tag-based-decision-api.py:139-148 | the engine stores the policy, the matcher, the compiled rules and the thresholds it is given |
| DecisionApi.EnhancedDecisionApi.EvaluateCommand | updates/experiments/tag-based-decision-api.py:177-206 | the loop over the rules computes the first-match evaluation specification |
| DecisionApi.NewEnhancedDecisionApi | updates/experiments/tag-based-decision-api.py:139-148 | a built-in pattern that does not compile raises `re.error`; a malformed rules section raises its error. Otherwise the engine holds the built-in tags, the compiled rules and the configured thresholds (default critical→deny, high→ask, medium→ask, low→allow) |
| HeraldIntegration.AudioKeys | scripts/check_herald_integration.py:104 | `list(AUDIO_MAPPING_KEYS.keys())` lists the five keys in dict order |
| HeraldIntegration.AudioLabels | scripts/check_herald_integration.py:117 | the `key:expected` label of each audio key, in dict order |
| HeraldIntegration.PresentImports | scripts/check_herald_integration.py:77 | `present` is increasing and holds exactly the expected imports that are not missing |
| HeraldIntegration.SortedImports | scripts/check_herald_integration.py:67 | `sorted(EXPECTED_IMPORTS)` is increasing and holds exactly the expected imports |
| HeraldIntegration.CheckHeraldImports | scripts/check_herald_integration.py:63-78 | `passed` iff nothing is missing. An absent or unreadable file gives all imports sorted and the error. Otherwise an import is missing iff the text lacks it, without duplicates, and `present` is the sorted rest; `missing` and `present` split the expected imports |
| HeraldIntegration.RegisteredEvents | scripts/check_herald_integration.py:96 | `registered` is increasing and holds exactly the expected events that are not missing |
| HeraldIntegration.UnregisteredEvents | scripts/check_herald_integration.py:91-94 | the loop keeps the events whose `register_handler("<event>"` needle is absent, in `EXPECTED_EVENTS` order |
| HeraldIntegration.CheckHandlerRegistration | scripts/check_herald_integration.py:81-97 | `passed` iff nothing is missing. An absent or unreadable file gives all events and the error. Otherwise an event is missing iff its needle is absent, in event order, and `registered` is the sorted complement |
| HeraldIntegration.AudioMappings | scripts/check_herald_integration.py:112 | the definition of `(config.get("sound_files") or {}).get("mappings") or {}`; `HeraldIntegration.AbsentMappingsMissEverything` and `HeraldIntegration.CheckAudioConfig` state its outcomes |
| HeraldIntegration.Mismatches | scripts/check_herald_integration.py:114-117 | the definition of the audio loop's `missing` list; `HeraldIntegration.MismatchesMeaning` and `HeraldIntegration.AudioMissingMeaning` state its meaning |
| HeraldIntegration.Configured | scripts/check_herald_integration.py:119 | the definition of `detail["configured"]`: each audio key with its value or null, in key order; `HeraldIntegration.CheckAudioConfig` reports it |
| HeraldIntegration.MismatchesMeaning | scripts/check_herald_integration.py:114-117 | a pair's label is reported exactly for the pairs whose key does not map to the expected file name |
| HeraldIntegration.AudioMissingMeaning | scripts/check_herald_integration.py:114-117 | `key:expected` is missing exactly when `mappings[key]` is not the expected file name (absent and null included) |
| HeraldIntegration.AbsentMappingsMissEverything | scripts/check_herald_integration.py:112 | a null or absent `sound_files` or `mappings` is treated as an empty dict, so every key is reported |
| HeraldIntegration.MismatchedKeys | scripts/check_herald_integration.py:114-117 | the loop raises AttributeError exactly on a non-dict `mappings`; otherwise it yields the mismatch labels in key order |
| HeraldIntegration.CheckAudioConfig | scripts/check_herald_integration.py:100-120 | `passed` iff nothing is missing. An absent, unreadable or unparsable file gives all keys and its error. A non-dict config, `sound_files` or `mappings` raises AttributeError. Otherwise `missing` holds the mismatch labels and `configured` each key's value or null |
| HeraldIntegration.CommandOf | scripts/check_herald_integration.py:161-164 | a hook yields a command exactly when it is a dict with `type == "command"` and a string `command` |
| HeraldIntegration.HookCommands | scripts/check_herald_integration.py:160-164 | the definition of the inner loop of `_extract_commands`; `HeraldIntegration.HookCommandsMeaning` states its meaning |
| HeraldIntegration.EntryCommands | scripts/check_herald_integration.py:157-164 | the definition of one entry's commands (none for a non-dict entry); `HeraldIntegration.EntriesCommandsMeaning` states its meaning |
| HeraldIntegration.EntriesCommands | scripts/check_herald_integration.py:157-164 | the definition of the outer loop of `_extract_commands`; `HeraldIntegration.EntriesCommandsMeaning` states its meaning |
| HeraldIntegration.CommandsOf | scripts/check_herald_integration.py:153-165 | the definition of `_extract_commands`; `HeraldIntegration.ExtractCommandsMeaning` states its meaning and `HeraldIntegration.ExtractCommands` computes it |
| HeraldIntegration.HookCommandsMeaning | scripts/check_herald_integration.py:160-164 | the inner loop collects exactly the commands of the command hooks |
| HeraldIntegration.EntriesCommandsMeaning | scripts/check_herald_integration.py:157-164 | the outer loop succeeds iff every entry does, and then collects exactly the commands of the entries |
| HeraldIntegration.ExtractCommandsMeaning | scripts/check_herald_integration.py:153-165 | `_extract_commands` gives nothing for a non-list. It raises TypeError only when a dict entry's `hooks` is not iterable. Otherwise it yields exactly the commands of command hooks in dict entries |
| HeraldIntegration.ExtractCommands | scripts/check_herald_integration.py:153-165 | the nested loops compute the command-extraction specification |
| HeraldIntegration.HooksOf | scripts/check_herald_integration.py:135-136 | the definition of `settings.get("hooks")` kept only when settings and hooks are dicts; `HeraldIntegration.CheckSettings` states both error cases |
| HeraldIntegration.ScanEvents | scripts/check_herald_integration.py:139-148 | the definition of the settings loop over the events; `HeraldIntegration.ScanFailure`, `HeraldIntegration.ScanDetail` and `HeraldIntegration.ScanMissingMeaning` state its meaning |
| HeraldIntegration.ScanFailure | scripts/check_herald_integration.py:139-148 | the settings loop raises exactly when some event has truthy entries on which `_extract_commands` raises, and the error is TypeError |
| HeraldIntegration.ScanDetail | scripts/check_herald_integration.py:140-148 | `detail` has an entry exactly for the events with truthy entries, holding the commands extracted from them |
| HeraldIntegration.ScanMissingMeaning | scripts/check_herald_integration.py:139-147 | an event is missing exactly when it has no entries or its commands lack `herald.py --hook <event>` |
| HeraldIntegration.ScanHooks | scripts/check_herald_integration.py:139-148 | the settings loop computes the event-scan specification |
| HeraldIntegration.CheckSettings | scripts/check_herald_integration.py:123-150 | `passed` iff nothing is missing. An absent, unreadable or unparsable file, or a non-dict settings or `hooks`, gives all events and its error. Otherwise an event is missing iff it has no entries or lacks the expected command. Only TypeError can escape |

## Left out

- Regular expressions: `re.compile` and `Pattern.search` are parameters (`compiles`, `search`), with `re.IGNORECASE` folded into `search`. The model does not capture the regex engine, and it keeps each tag's pattern sources where the source keeps compiled patterns.
- `demo()` and the warning `_compile_rules` prints for a dropped rule are console output and are not modelled.
- `SEVERITY_LEVELS` is declared but never read by the modelled code.
- File access (`Path.exists`, `read_text`, `json.loads`) is an input: the file is absent, its read raised OSError, its parse raised JSONDecodeError, or it has this content. The model does not include a `UnicodeDecodeError` from `read_text`, which the source does not catch.
- JSON floats are not modelled; numbers are integers.
- A JSON object is a list of key-value pairs. One with a repeated key stands for no Python dict: `Json.Lookup` takes the first entry, while `json.loads` keeps the last value.
- Json.PyStr: renders lists and dicts without Python's quote escaping and renders no floats.
- HeraldIntegration.CheckHeraldImports: the order of `missing` follows Python's set iteration order, which the model leaves unspecified. It states the members and that there are no duplicates.
- `main`, argument parsing, `_emit_summary`, `_print_guidance` and the JSON report printing are command-line I/O and are not modelled.
- The hook dispatcher, middleware chain, handler registry and throttle store are not part of this model.
