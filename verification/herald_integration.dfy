/**
 * The validation logic of the Herald integration checker: given what was
 * read from `herald.py`, `audio_config.json` and `settings.json`, decide
 * for each of the four checks whether it passed, what is missing and the
 * detail to report. Reading and parsing the files are inputs here.
 */
module HeraldIntegration {
  import opened Wrappers
  import opened Json
  import opened Strings

  // ---------------------------------------------------------------- expected tables

  /** The hook classes `herald.py` must import, in the order the set literal lists them. */
  const ExpectedImportList: seq<string> := [
    "from notification import NotificationHook",
    "from stop import StopHook",
    "from subagent_stop import SubagentStopHook",
    "from pre_tool_use import PreToolUseHook",
    "from post_tool_use import PostToolUseHook",
    "from user_prompt_submit import UserPromptSubmitHook",
    "from session_start import SessionStartHook",
    "from session_end import SessionEndHook"
  ]

  /** EXPECTED_IMPORTS, a set. */
  const ExpectedImports: set<string> := set x | x in ExpectedImportList

  const ExpectedEvents: seq<string> := [
    "Notification", "Stop", "SubagentStop", "PreToolUse",
    "PostToolUse", "UserPromptSubmit", "SessionStart", "SessionEnd"
  ]

  /** AUDIO_MAPPING_KEYS: hook key and the sound file it must map to, in dict order. */
  const AudioMappingKeys: seq<(string, string)> := [
    ("pre_tool_use", "security_check.wav"),
    ("post_tool_use", "task_complete.wav"),
    ("user_prompt_submit", "user_prompt.wav"),
    ("session_start", "session_start.wav"),
    ("session_end", "session_complete.wav")
  ]

  lemma ImportListDistinct()
    ensures NoDuplicates(ExpectedImportList)
  {
  }

  lemma EventsDistinct()
    ensures NoDuplicates(ExpectedEvents)
  {
  }

  lemma AudioLabelsDistinct()
    ensures NoDuplicates(AudioLabels())
  {
    var labels := AudioLabels();
    // the labels already differ in their first two characters, or at index 8
    assert labels[0][..2] == "pr" && labels[1][..2] == "po" && labels[2][..2] == "us";
    assert labels[3][..9] == "session_s" && labels[4][..9] == "session_e";
    assert labels[3][..2] == "se" && labels[4][..2] == "se";
    forall i, j | 0 <= i < j < |labels|
      ensures labels[i] != labels[j]
    {
      assert labels[i][..2] != labels[j][..2] || labels[i][..9] != labels[j][..9];
    }
  }

  function AudioKeys(): (r: seq<string>)
    ensures |r| == |AudioMappingKeys|
    ensures forall i :: 0 <= i < |r| ==> r[i] == AudioMappingKeys[i].0
  {
    seq(|AudioMappingKeys|, i requires 0 <= i < |AudioMappingKeys| => AudioMappingKeys[i].0)
  }

  /** The entry `missing` gets for a misconfigured key: `f"{key}:{expected_value}"`. */
  function Label(pair: (string, string)): string
  {
    pair.0 + ":" + pair.1
  }

  function AudioLabels(): (r: seq<string>)
    ensures |r| == |AudioMappingKeys|
    ensures forall i :: 0 <= i < |r| ==> r[i] == Label(AudioMappingKeys[i])
  {
    seq(|AudioMappingKeys|, i requires 0 <= i < |AudioMappingKeys| => Label(AudioMappingKeys[i]))
  }

  // ---------------------------------------------------------------- results and inputs

  /** CheckResult; `detail` is the report's dictionary. */
  datatype CheckResult = CheckResult(passed: bool, missing: seq<string>, detail: Json)

  /** What reading `herald.py` as text gave. */
  datatype TextFile = TextMissing | TextReadError(excName: string) | Text(content: string)

  /** What reading and parsing a JSON file gave. */
  datatype JsonFile =
    | JsonMissing
    | JsonReadError(excName: string)
    | JsonParseError(excName: string)
    | JsonValue(value: Json)

  function StrList(s: seq<string>): Json
  {
    JList(seq(|s|, i requires 0 <= i < |s| => JStr(s[i])))
  }

  function ErrorDetail(message: string): Json
  {
    JObj([("error", JStr(message))])
  }

  // ---------------------------------------------------------------- herald.py imports

  /** `sorted(EXPECTED_IMPORTS - set(missing))`. */
  function PresentImports(missing: seq<string>): (r: seq<string>)
    ensures Increasing(r)
    ensures forall x :: x in r <==> x in ExpectedImports && x !in missing
  {
    ImportListDistinct();
    var present := Filter(ExpectedImportList, x => x !in missing);
    var r := Sort(present);
    assert forall x :: x in r <==> x in multiset(r);
    r
  }

  /** `sorted(EXPECTED_IMPORTS)`. */
  function SortedImports(): (r: seq<string>)
    ensures Increasing(r)
    ensures forall x :: x in r <==> x in ExpectedImports
  {
    ImportListDistinct();
    var r := Sort(ExpectedImportList);
    assert forall x :: x in r <==> x in multiset(r);
    r
  }

  /** `_check_herald_imports`, after reading `herald.py`. */
  method CheckHeraldImports(herald: TextFile) returns (r: CheckResult)
    ensures r.passed <==> r.missing == []
    ensures herald.TextMissing? ==> r == CheckResult(false, SortedImports(), ErrorDetail("herald.py_missing"))
    ensures herald.TextReadError? ==>
      r == CheckResult(false, SortedImports(), ErrorDetail("read_error:" + herald.excName))
    ensures herald.Text? ==> forall x :: x in r.missing <==> x in ExpectedImports && !Contains(herald.content, x)
    ensures herald.Text? ==> NoDuplicates(r.missing)
    ensures herald.Text? ==> forall x :: x in ExpectedImports <==> x in r.missing || x in PresentImports(r.missing)
    ensures herald.Text? ==> r.detail == JObj([("present", StrList(PresentImports(r.missing)))])
  {
    match herald
    case TextMissing =>
      return CheckResult(false, SortedImports(), ErrorDetail("herald.py_missing"));
    case TextReadError(excName) =>
      return CheckResult(false, SortedImports(), ErrorDetail("read_error:" + excName));
    case Text(text) =>
      var missing: seq<string> := [];
      var remaining := ExpectedImports;
      while remaining != {}
        invariant remaining <= ExpectedImports
        invariant forall x :: x in missing <==> x in ExpectedImports - remaining && !Contains(text, x)
        invariant NoDuplicates(missing)
        decreases |remaining|
      {
        // a set is visited in no particular order
        var item :| item in remaining;
        if !Contains(text, item) {
          missing := missing + [item];
        }
        remaining := remaining - {item};
      }
      var detail := JObj([("present", StrList(PresentImports(missing)))]);
      return CheckResult(missing == [], missing, detail);
  }

  // ---------------------------------------------------------------- handler registration

  /** `f'register_handler("{event}"'`. */
  function Needle(event: string): string
  {
    "register_handler(\"" + event + "\""
  }

  /** `sorted([event for event in EXPECTED_EVENTS if event not in missing])`. */
  function RegisteredEvents(missing: seq<string>): (r: seq<string>)
    ensures Increasing(r)
    ensures forall e :: e in r <==> e in ExpectedEvents && e !in missing
  {
    EventsDistinct();
    var registered := Filter(ExpectedEvents, e => e !in missing);
    var r := Sort(registered);
    assert forall x :: x in r <==> x in multiset(r);
    r
  }

  /** The loop of `_check_handler_registration`: the events whose registration call is absent, in order. */
  method UnregisteredEvents(text: string, events: seq<string>) returns (missing: seq<string>)
    ensures missing == Filter(events, e => !Contains(text, Needle(e)))
  {
    var unregistered := (e: string) => !Contains(text, Needle(e));
    missing := [];
    var i := 0;
    assert events[i..] == events;
    while i < |events|
      invariant 0 <= i <= |events|
      invariant missing + Filter(events[i..], unregistered) == Filter(events, unregistered)
    {
      var event := events[i];
      assert events[i..][0] == event && events[i..][1..] == events[i + 1..];
      if !Contains(text, Needle(event)) {
        missing := missing + [event];
      }
      i := i + 1;
    }
    assert events[i..] == [];
  }

  /** `_check_handler_registration`, after reading `herald.py`. */
  method CheckHandlerRegistration(herald: TextFile) returns (r: CheckResult)
    ensures r.passed <==> r.missing == []
    ensures herald.TextMissing? ==> r == CheckResult(false, ExpectedEvents, ErrorDetail("herald.py_missing"))
    ensures herald.TextReadError? ==>
      r == CheckResult(false, ExpectedEvents, ErrorDetail("read_error:" + herald.excName))
    ensures herald.Text? ==> forall e :: e in r.missing <==> e in ExpectedEvents && !Contains(herald.content, Needle(e))
    ensures herald.Text? ==> Subsequence(r.missing, ExpectedEvents) && NoDuplicates(r.missing)
    ensures herald.Text? ==> r.detail == JObj([("registered", StrList(RegisteredEvents(r.missing)))])
  {
    match herald
    case TextMissing =>
      return CheckResult(false, ExpectedEvents, ErrorDetail("herald.py_missing"));
    case TextReadError(excName) =>
      return CheckResult(false, ExpectedEvents, ErrorDetail("read_error:" + excName));
    case Text(text) =>
      EventsDistinct();
      var missing := UnregisteredEvents(text, ExpectedEvents);
      var detail := JObj([("registered", StrList(RegisteredEvents(missing)))]);
      return CheckResult(missing == [], missing, detail);
  }

  // ---------------------------------------------------------------- audio configuration

  /** `(config.get("sound_files") or {}).get("mappings") or {}`, raising AttributeError on a non-dict. */
  function AudioMappings(config: Json): Result<Json, PyError>
  {
    match PyGet(config, "sound_files", JNull)
    case Failure(e) => Failure(e)
    case Success(soundFiles) =>
      match PyGet(if Truthy(soundFiles) then soundFiles else JObj([]), "mappings", JNull)
      case Failure(e) => Failure(e)
      case Success(mappings) => Success(if Truthy(mappings) then mappings else JObj([]))
  }

  /** `mappings.get(key)` on a dict's entries. */
  function ValueOrNull(fields: seq<(string, Json)>, key: string): Json
  {
    match Lookup(fields, key)
    case Some(v) => v
    case None => JNull
  }

  /** The labels of the pairs whose key does not map to the expected file name, in order. */
  function Mismatches(fields: seq<(string, Json)>, pairs: seq<(string, string)>): seq<string>
  {
    if pairs == [] then []
    else (if ValueOrNull(fields, pairs[0].0) != JStr(pairs[0].1) then [Label(pairs[0])] else [])
         + Mismatches(fields, pairs[1..])
  }

  /** A label is reported exactly for the pairs whose key does not map to the expected file name. */
  lemma {:induction false} MismatchesMeaning(fields: seq<(string, Json)>, pairs: seq<(string, string)>)
    ensures forall k :: 0 <= k < |pairs| && ValueOrNull(fields, pairs[k].0) != JStr(pairs[k].1) ==>
      Label(pairs[k]) in Mismatches(fields, pairs)
    ensures forall x :: x in Mismatches(fields, pairs) ==>
      exists k :: 0 <= k < |pairs| && x == Label(pairs[k]) && ValueOrNull(fields, pairs[k].0) != JStr(pairs[k].1)
  {
    if pairs != [] {
      MismatchesMeaning(fields, pairs[1..]);
      assert forall k :: 1 <= k < |pairs| ==> pairs[k] == pairs[1..][k - 1];
      forall x | x in Mismatches(fields, pairs)
        ensures exists k :: 0 <= k < |pairs| && x == Label(pairs[k]) && ValueOrNull(fields, pairs[k].0) != JStr(pairs[k].1)
      {
        if x !in Mismatches(fields, pairs[1..]) {
          assert x == Label(pairs[0]);
        } else {
          var k :| 0 <= k < |pairs[1..]| && x == Label(pairs[1..][k]) && ValueOrNull(fields, pairs[1..][k].0) != JStr(pairs[1..][k].1);
          assert pairs[k + 1] == pairs[1..][k];
        }
      }
    }
  }

  /** `{key: mappings.get(key) for key in AUDIO_MAPPING_KEYS}`. */
  function Configured(fields: seq<(string, Json)>): Json
  {
    JObj(seq(|AudioMappingKeys|, i requires 0 <= i < |AudioMappingKeys| =>
      (AudioMappingKeys[i].0, ValueOrNull(fields, AudioMappingKeys[i].0))))
  }

  /** `key:expected` is missing exactly when the key does not map to the expected file name. */
  lemma AudioMissingMeaning(fields: seq<(string, Json)>, k: nat)
    requires k < |AudioMappingKeys|
    ensures Label(AudioMappingKeys[k]) in Mismatches(fields, AudioMappingKeys)
        <==> ValueOrNull(fields, AudioMappingKeys[k].0) != JStr(AudioMappingKeys[k].1)
  {
    AudioLabelsDistinct();
    MismatchesMeaning(fields, AudioMappingKeys);
    if Label(AudioMappingKeys[k]) in Mismatches(fields, AudioMappingKeys) {
      var j :| 0 <= j < |AudioMappingKeys| && Label(AudioMappingKeys[k]) == Label(AudioMappingKeys[j])
        && ValueOrNull(fields, AudioMappingKeys[j].0) != JStr(AudioMappingKeys[j].1);
      assert AudioLabels()[j] == AudioLabels()[k];
    }
  }

  /** A dict config whose `sound_files` or `mappings` is absent or null counts every key as misconfigured. */
  lemma {:induction false} AbsentMappingsMissEverything(config: seq<(string, Json)>)
    requires !Truthy(ValueOrNull(config, "sound_files"))
          || (ValueOrNull(config, "sound_files").JObj?
              && !Truthy(ValueOrNull(ValueOrNull(config, "sound_files").fields, "mappings")))
    ensures AudioMappings(JObj(config)) == Success(JObj([]))
    ensures Mismatches([], AudioMappingKeys) == AudioLabels()
  {
    MismatchesOfEmpty(AudioMappingKeys);
  }

  lemma {:induction false} MismatchesOfEmpty(pairs: seq<(string, string)>)
    ensures |Mismatches([], pairs)| == |pairs|
    ensures forall k :: 0 <= k < |pairs| ==> Mismatches([], pairs)[k] == Label(pairs[k])
  {
    if pairs != [] {
      MismatchesOfEmpty(pairs[1..]);
    }
  }

  /** The loop of `_check_audio_config`; `mappings.get` raises AttributeError unless `mappings` is a dict. */
  method MismatchedKeys(mappings: Json, pairs: seq<(string, string)>) returns (r: Result<seq<string>, PyError>)
    ensures r.Failure? <==> !mappings.JObj? && pairs != []
    ensures r.Failure? ==> r.error == AttributeError
    ensures mappings.JObj? ==> r == Success(Mismatches(mappings.fields, pairs))
  {
    if pairs == [] {
      return Success([]);
    }
    if !mappings.JObj? {
      return Failure(PyGet(mappings, pairs[0].0, JNull).error);
    }
    var missing: seq<string> := [];
    var i := 0;
    assert pairs[i..] == pairs;
    while i < |pairs|
      invariant 0 <= i <= |pairs|
      invariant missing + Mismatches(mappings.fields, pairs[i..]) == Mismatches(mappings.fields, pairs)
    {
      var (key, expected) := pairs[i];
      var value := PyGet(mappings, key, JNull);
      assert pairs[i..][0] == (key, expected) && pairs[i..][1..] == pairs[i + 1..];
      if value.value != JStr(expected) {
        missing := missing + [key + ":" + expected];
      }
      i := i + 1;
    }
    assert pairs[i..] == [] && missing + [] == missing;
    return Success(missing);
  }

  /** `_check_audio_config`, after reading and parsing `audio_config.json`. */
  method CheckAudioConfig(config: JsonFile) returns (r: Result<CheckResult, PyError>)
    ensures r.Success? ==> (r.value.passed <==> r.value.missing == [])
    ensures config.JsonMissing? ==> r == Success(CheckResult(false, AudioKeys(), ErrorDetail("audio_config_missing")))
    ensures config.JsonReadError? ==>
      r == Success(CheckResult(false, AudioKeys(), ErrorDetail("read_error:" + config.excName)))
    ensures config.JsonParseError? ==>
      r == Success(CheckResult(false, AudioKeys(), ErrorDetail("parse_error:" + config.excName)))
    ensures config.JsonValue? ==>
      (r.Failure? <==> AudioMappings(config.value).Failure? || !AudioMappings(config.value).value.JObj?)
    ensures r.Failure? ==> r.error == AttributeError
    ensures config.JsonValue? && r.Success? ==>
      var fields := AudioMappings(config.value).value.fields;
      r.value.missing == Mismatches(fields, AudioMappingKeys)
      && r.value.detail == JObj([("configured", Configured(fields))])
  {
    match config
    case JsonMissing =>
      return Success(CheckResult(false, AudioKeys(), ErrorDetail("audio_config_missing")));
    case JsonReadError(excName) =>
      return Success(CheckResult(false, AudioKeys(), ErrorDetail("read_error:" + excName)));
    case JsonParseError(excName) =>
      return Success(CheckResult(false, AudioKeys(), ErrorDetail("parse_error:" + excName)));
    case JsonValue(value) =>
      var found := AudioMappings(value);
      if found.Failure? {
        return Failure(found.error);
      }
      var mappings := found.value;
      var mismatches := MismatchedKeys(mappings, AudioMappingKeys);
      if mismatches.Failure? {
        return Failure(mismatches.error);
      }
      var missing := mismatches.value;
      var detail := JObj([("configured", Configured(mappings.fields))]);
      return Success(CheckResult(missing == [], missing, detail));
  }

  // ---------------------------------------------------------------- settings.json

  /** A hook that is a dict with `type == "command"` and a string `command`. */
  predicate IsCommandHook(hook: Json, command: string)
  {
    hook.JObj? && Lookup(hook.fields, "type") == Some(JStr("command"))
    && Lookup(hook.fields, "command") == Some(JStr(command))
  }

  /** The command a hook runs, when it is a command hook with a string command. */
  function CommandOf(hook: Json): (r: Option<string>)
    ensures forall c :: r == Some(c) <==> IsCommandHook(hook, c)
  {
    if hook.JObj? && Lookup(hook.fields, "type") == Some(JStr("command")) then
      match Lookup(hook.fields, "command")
      case Some(JStr(c)) => Some(c)
      case _ => None
    else None
  }

  /** The commands of the command hooks among `hooks`, in order. */
  function HookCommands(hooks: seq<Json>): seq<string>
  {
    if hooks == [] then []
    else
      match CommandOf(hooks[0])
      case Some(c) => [c] + HookCommands(hooks[1..])
      case None => HookCommands(hooks[1..])
  }

  lemma {:induction false} HookCommandsMeaning(hooks: seq<Json>)
    ensures forall c :: c in HookCommands(hooks) <==> exists k :: 0 <= k < |hooks| && IsCommandHook(hooks[k], c)
  {
    if hooks != [] {
      HookCommandsMeaning(hooks[1..]);
      assert forall k :: 1 <= k < |hooks| ==> hooks[k] == hooks[1..][k - 1];
      forall c | exists k :: 0 <= k < |hooks| && IsCommandHook(hooks[k], c)
        ensures c in HookCommands(hooks)
      {
        var k :| 0 <= k < |hooks| && IsCommandHook(hooks[k], c);
        if k > 0 {
          assert IsCommandHook(hooks[1..][k - 1], c);
        }
      }
    }
  }

  /** `entry.get("hooks", [])` on a dict entry. */
  function HooksField(fields: seq<(string, Json)>): Json
  {
    match Lookup(fields, "hooks")
    case Some(h) => h
    case None => JList([])
  }

  /** The commands of one entry: nothing for a non-dict; iterating its `hooks` may raise TypeError. */
  function EntryCommands(entry: Json): Result<seq<string>, PyError>
  {
    if !entry.JObj? then Success([])
    else
      match Iterate(HooksField(entry.fields))
      case Failure(e) => Failure(e)
      case Success(hs) => Success(HookCommands(hs))
  }

  /** Prefixes the commands already collected to the outcome of the rest. */
  function Prepend(commands: seq<string>, rest: Result<seq<string>, PyError>): Result<seq<string>, PyError>
  {
    match rest
    case Failure(e) => Failure(e)
    case Success(cs) => Success(commands + cs)
  }

  /** The commands of all entries, in order; the first error raised escapes. */
  function EntriesCommands(entries: seq<Json>): Result<seq<string>, PyError>
  {
    if entries == [] then Success([])
    else
      match EntryCommands(entries[0])
      case Failure(e) => Failure(e)
      case Success(cs) => Prepend(cs, EntriesCommands(entries[1..]))
  }

  lemma {:induction false} EntriesCommandsMeaning(entries: seq<Json>)
    ensures EntriesCommands(entries).Success? <==> forall i :: 0 <= i < |entries| ==> EntryCommands(entries[i]).Success?
    ensures EntriesCommands(entries).Success? ==> forall c :: c in EntriesCommands(entries).value <==>
      exists i :: 0 <= i < |entries| && EntryCommands(entries[i]).Success? && c in EntryCommands(entries[i]).value
  {
    if entries != [] {
      EntriesCommandsMeaning(entries[1..]);
      assert forall i :: 1 <= i < |entries| ==> entries[i] == entries[1..][i - 1];
      if EntriesCommands(entries).Success? {
        forall c | exists i :: 0 <= i < |entries| && EntryCommands(entries[i]).Success? && c in EntryCommands(entries[i]).value
          ensures c in EntriesCommands(entries).value
        {
          var i :| 0 <= i < |entries| && EntryCommands(entries[i]).Success? && c in EntryCommands(entries[i]).value;
          if i > 0 {
            assert EntryCommands(entries[1..][i - 1]).Success? && c in EntryCommands(entries[1..][i - 1]).value;
          }
        }
      }
    }
  }

  lemma EntriesCommandsStep(items: seq<Json>, i: nat, commands: seq<string>, cs: seq<string>)
    requires i < |items| && EntryCommands(items[i]) == Success(cs)
    ensures Prepend(commands, EntriesCommands(items[i..])) == Prepend(commands + cs, EntriesCommands(items[i + 1..]))
  {
    assert items[i..][0] == items[i] && items[i..][1..] == items[i + 1..];
    match EntriesCommands(items[i + 1..]) {
      case Failure(_) =>
      case Success(rest) => assert commands + (cs + rest) == (commands + cs) + rest;
    }
  }

  /** `_extract_commands(entries)` as a value: nothing unless `entries` is a list. */
  function CommandsOf(entries: Json): Result<seq<string>, PyError>
  {
    if entries.JList? then EntriesCommands(entries.items) else Success([])
  }

  /** The entry is a dict one of whose hooks is a command hook running `command`. */
  predicate EntryHasCommand(entry: Json, command: string)
  {
    entry.JObj? && Iterate(HooksField(entry.fields)).Success?
    && exists k :: 0 <= k < |Iterate(HooksField(entry.fields)).value|
                   && IsCommandHook(Iterate(HooksField(entry.fields)).value[k], command)
  }

  /**
   * `_extract_commands` raises only when a dict entry's `hooks` cannot be iterated; otherwise
   * it yields exactly the commands of the command hooks of the dict entries of a list.
   */
  lemma ExtractCommandsMeaning(entries: Json)
    ensures CommandsOf(entries).Failure? ==> CommandsOf(entries).error == TypeError
    ensures CommandsOf(entries).Success? <==>
      !entries.JList? || forall i :: 0 <= i < |entries.items| ==> EntryCommands(entries.items[i]).Success?
    ensures CommandsOf(entries).Success? ==> forall c :: c in CommandsOf(entries).value <==>
      entries.JList? && exists i :: 0 <= i < |entries.items| && EntryHasCommand(entries.items[i], c)
  {
    if entries.JList? {
      EntriesCommandsMeaning(entries.items);
      forall i | 0 <= i < |entries.items| && entries.items[i].JObj? && Iterate(HooksField(entries.items[i].fields)).Success?
      {
        HookCommandsMeaning(Iterate(HooksField(entries.items[i].fields)).value);
      }
      if CommandsOf(entries).Failure? {
        EntriesCommandsError(entries.items);
      }
    }
  }

  lemma {:induction false} EntriesCommandsError(entries: seq<Json>)
    ensures EntriesCommands(entries).Failure? ==> EntriesCommands(entries).error == TypeError
  {
    if entries != [] {
      EntriesCommandsError(entries[1..]);
    }
  }

  /** `_extract_commands`. */
  method ExtractCommands(entries: Json) returns (r: Result<seq<string>, PyError>)
    ensures r == CommandsOf(entries)
    ensures !entries.JList? ==> r == Success([])
  {
    if !entries.JList? {
      return Success([]);
    }
    var items := entries.items;
    var commands: seq<string> := [];
    var i := 0;
    assert items[i..] == items;
    match EntriesCommands(items) {
      case Failure(_) =>
      case Success(cs) => assert [] + cs == cs;
    }
    while i < |items|
      invariant 0 <= i <= |items|
      invariant Prepend(commands, EntriesCommands(items[i..])) == EntriesCommands(items)
    {
      var entry := items[i];
      assert items[i..][0] == entry && items[i..][1..] == items[i + 1..];
      if entry.JObj? {
        var it := Iterate(HooksField(entry.fields));
        if it.Failure? {
          return Failure(it.error);
        }
        var hooks := it.value;
        ghost var before := commands;
        var j := 0;
        while j < |hooks|
          invariant 0 <= j <= |hooks|
          invariant commands + HookCommands(hooks[j..]) == before + HookCommands(hooks)
        {
          var hook := hooks[j];
          assert hooks[j..][0] == hook && hooks[j..][1..] == hooks[j + 1..];
          if hook.JObj? && Lookup(hook.fields, "type") == Some(JStr("command")) {
            var cmd := Lookup(hook.fields, "command");
            if cmd.Some? && cmd.value.JStr? {
              commands := commands + [cmd.value.s];
            }
          }
          j := j + 1;
        }
        assert hooks[j..] == [] && HookCommands([]) == [];
        assert commands == before + HookCommands(hooks);
        assert EntryCommands(entry) == Success(HookCommands(hooks));
        EntriesCommandsStep(items, i, before, HookCommands(hooks));
      } else {
        EntriesCommandsStep(items, i, commands, []);
        assert commands + [] == commands;
      }
      i := i + 1;
    }
    assert items[i..] == [] && commands + [] == commands;
    return Success(commands);
  }

  /** `f"$CLAUDE_PROJECT_DIR/.claude/hooks/herald.py --hook {event}"`. */
  function ExpectedCommand(event: string): string
  {
    "$CLAUDE_PROJECT_DIR/.claude/hooks/herald.py --hook " + event
  }

  /** `settings.get("hooks")` when both are dicts. */
  function HooksOf(settings: Json): Option<seq<(string, Json)>>
  {
    if settings.JObj? then
      match Lookup(settings.fields, "hooks")
      case Some(JObj(fields)) => Some(fields)
      case _ => None
    else None
  }

  /** The missing events and the detail entries found so far. */
  type Scan = (seq<string>, seq<(string, Json)>)

  function PrependScan(missing: seq<string>, detail: seq<(string, Json)>, rest: Result<Scan, PyError>): Result<Scan, PyError>
  {
    match rest
    case Failure(e) => Failure(e)
    case Success(s) => Success((missing + s.0, detail + s.1))
  }

  /** The loop of `_check_settings` over the events. */
  function ScanEvents(hooks: seq<(string, Json)>, events: seq<string>): Result<Scan, PyError>
  {
    if events == [] then Success(([], []))
    else
      var event := events[0];
      var entries := ValueOrNull(hooks, event);
      if !Truthy(entries) then PrependScan([event], [], ScanEvents(hooks, events[1..]))
      else
        match CommandsOf(entries)
        case Failure(e) => Failure(e)
        case Success(commands) =>
          PrependScan(
            if ExpectedCommand(event) in commands then [] else [event],
            [(event, StrList(commands))],
            ScanEvents(hooks, events[1..]))
  }

  lemma PrependScanAssoc(m: seq<string>, d: seq<(string, Json)>, m1: seq<string>, d1: seq<(string, Json)>, rest: Result<Scan, PyError>)
    ensures PrependScan(m, d, PrependScan(m1, d1, rest)) == PrependScan(m + m1, d + d1, rest)
  {
    match rest {
      case Failure(_) =>
      case Success(s) =>
        assert m + (m1 + s.0) == (m + m1) + s.0;
        assert d + (d1 + s.1) == (d + d1) + s.1;
    }
  }

  /** One step of the loop over the events, for an event without entries. */
  lemma ScanStepAbsent(hooks: seq<(string, Json)>, events: seq<string>, i: nat, missing: seq<string>, detail: seq<(string, Json)>)
    requires i < |events| && !Truthy(ValueOrNull(hooks, events[i]))
    ensures PrependScan(missing, detail, ScanEvents(hooks, events[i..]))
         == PrependScan(missing + [events[i]], detail, ScanEvents(hooks, events[i + 1..]))
  {
    assert events[i..][0] == events[i] && events[i..][1..] == events[i + 1..];
    assert detail + [] == detail;
    PrependScanAssoc(missing, detail, [events[i]], [], ScanEvents(hooks, events[i + 1..]));
  }

  /** One step of the loop over the events, for an event whose entries yield `commands`. */
  lemma ScanStepPresent(hooks: seq<(string, Json)>, events: seq<string>, i: nat, missing: seq<string>,
                        detail: seq<(string, Json)>, commands: seq<string>)
    requires i < |events| && Truthy(ValueOrNull(hooks, events[i]))
    requires CommandsOf(ValueOrNull(hooks, events[i])) == Success(commands)
    ensures PrependScan(missing, detail, ScanEvents(hooks, events[i..]))
         == PrependScan(missing + (if ExpectedCommand(events[i]) in commands then [] else [events[i]]),
                        detail + [(events[i], StrList(commands))], ScanEvents(hooks, events[i + 1..]))
  {
    assert events[i..][0] == events[i] && events[i..][1..] == events[i + 1..];
    PrependScanAssoc(missing, detail, if ExpectedCommand(events[i]) in commands then [] else [events[i]],
                     [(events[i], StrList(commands))], ScanEvents(hooks, events[i + 1..]));
  }

  /** The event has no entries, or none of its commands is the expected one. */
  predicate EventMissing(hooks: seq<(string, Json)>, event: string)
  {
    var entries := ValueOrNull(hooks, event);
    !Truthy(entries) || (CommandsOf(entries).Success? && ExpectedCommand(event) !in CommandsOf(entries).value)
  }

  /** An event is reported missing exactly when it has no entries or lacks the expected command. */
  lemma {:induction false} ScanMissingMeaning(hooks: seq<(string, Json)>, events: seq<string>)
    requires ScanEvents(hooks, events).Success?
    ensures forall e :: e in ScanEvents(hooks, events).value.0 <==> e in events && EventMissing(hooks, e)
  {
    if events != [] {
      ScanMissingMeaning(hooks, events[1..]);
      assert events == [events[0]] + events[1..];
    }
  }

  /** The scan fails exactly when some event's entries are truthy and `_extract_commands` raises on them. */
  lemma {:induction false} ScanFailure(hooks: seq<(string, Json)>, events: seq<string>)
    ensures ScanEvents(hooks, events).Failure? <==>
      exists i :: 0 <= i < |events| && Truthy(ValueOrNull(hooks, events[i])) && CommandsOf(ValueOrNull(hooks, events[i])).Failure?
    ensures ScanEvents(hooks, events).Failure? ==> ScanEvents(hooks, events).error == TypeError
  {
    if events != [] {
      ScanFailure(hooks, events[1..]);
      assert forall i :: 1 <= i < |events| ==> events[i] == events[1..][i - 1];
      ExtractCommandsMeaning(ValueOrNull(hooks, events[0]));
      if ScanEvents(hooks, events[1..]).Failure? {
        var i :| 0 <= i < |events[1..]| && Truthy(ValueOrNull(hooks, events[1..][i]))
          && CommandsOf(ValueOrNull(hooks, events[1..][i])).Failure?;
        assert events[i + 1] == events[1..][i];
      }
    }
  }

  /** `detail` holds, for each event with entries, the commands extracted from them. */
  lemma {:induction false} ScanDetail(hooks: seq<(string, Json)>, events: seq<string>, e: string)
    requires NoDuplicates(events) && ScanEvents(hooks, events).Success?
    ensures e !in events || !Truthy(ValueOrNull(hooks, e)) ==> Lookup(ScanEvents(hooks, events).value.1, e) == None
    ensures e in events && Truthy(ValueOrNull(hooks, e)) ==>
      CommandsOf(ValueOrNull(hooks, e)).Success?
      && Lookup(ScanEvents(hooks, events).value.1, e) == Some(StrList(CommandsOf(ValueOrNull(hooks, e)).value))
  {
    if events != [] {
      assert NoDuplicates(events[1..]) by {
        assert forall i :: 0 <= i < |events[1..]| ==> events[1..][i] == events[i + 1];
      }
      assert forall i :: 0 <= i < |events[1..]| ==> events[1..][i] != events[0];
      ScanDetail(hooks, events[1..], e);
      var detail := ScanEvents(hooks, events).value.1;
      var rest := ScanEvents(hooks, events[1..]).value.1;
      if Truthy(ValueOrNull(hooks, events[0])) {
        assert detail == [(events[0], StrList(CommandsOf(ValueOrNull(hooks, events[0])).value))] + rest;
        assert detail[0] == (events[0], StrList(CommandsOf(ValueOrNull(hooks, events[0])).value)) && detail[1..] == rest;
      } else {
        assert detail == rest;
      }
    }
  }

  /** The loop of `_check_settings` over `events`, stopping at the first error `_extract_commands` raises. */
  method ScanHooks(hooks: seq<(string, Json)>, events: seq<string>) returns (r: Result<Scan, PyError>)
    ensures r == ScanEvents(hooks, events)
  {
    var missing: seq<string> := [];
    var detail: seq<(string, Json)> := [];
    var i := 0;
    assert events[i..] == events;
    match ScanEvents(hooks, events) {
      case Failure(_) =>
      case Success(s) => assert [] + s.0 == s.0 && [] + s.1 == s.1;
    }
    while i < |events|
      invariant 0 <= i <= |events|
      invariant PrependScan(missing, detail, ScanEvents(hooks, events[i..])) == ScanEvents(hooks, events)
    {
      var event := events[i];
      assert events[i..][0] == event && events[i..][1..] == events[i + 1..];
      var entries := ValueOrNull(hooks, event);
      if !Truthy(entries) {
        ScanStepAbsent(hooks, events, i, missing, detail);
        missing := missing + [event];
      } else {
        var commands := ExtractCommands(entries);
        if commands.Failure? {
          return Failure(commands.error);
        }
        ScanStepPresent(hooks, events, i, missing, detail, commands.value);
        if ExpectedCommand(event) !in commands.value {
          missing := missing + [event];
        } else {
          assert missing + [] == missing;
        }
        detail := detail + [(event, StrList(commands.value))];
      }
      i := i + 1;
    }
    assert events[i..] == [] && missing + [] == missing && detail + [] == detail;
    return Success((missing, detail));
  }

  /** `_check_settings`, after reading and parsing `settings.json`. */
  method CheckSettings(settings: JsonFile) returns (r: Result<CheckResult, PyError>)
    ensures r.Success? ==> (r.value.passed <==> r.value.missing == [])
    ensures settings.JsonMissing? ==> r == Success(CheckResult(false, ExpectedEvents, ErrorDetail("settings.json_missing")))
    ensures settings.JsonReadError? ==>
      r == Success(CheckResult(false, ExpectedEvents, ErrorDetail("read_error:" + settings.excName)))
    ensures settings.JsonParseError? ==>
      r == Success(CheckResult(false, ExpectedEvents, ErrorDetail("parse_error:" + settings.excName)))
    ensures settings.JsonValue? && HooksOf(settings.value).None? ==>
      r == Success(CheckResult(false, ExpectedEvents, ErrorDetail("hooks_missing")))
    ensures settings.JsonValue? && HooksOf(settings.value).Some? ==>
      (r.Failure? <==> ScanEvents(HooksOf(settings.value).value, ExpectedEvents).Failure?)
    ensures settings.JsonValue? && HooksOf(settings.value).Some? && r.Success? ==>
      var scan := ScanEvents(HooksOf(settings.value).value, ExpectedEvents).value;
      r.value.missing == scan.0 && r.value.detail == JObj(scan.1)
    ensures settings.JsonValue? && HooksOf(settings.value).Some? && r.Success? ==>
      forall e :: e in r.value.missing <==> e in ExpectedEvents && EventMissing(HooksOf(settings.value).value, e)
    ensures r.Failure? ==> r.error == TypeError
  {
    match settings
    case JsonMissing =>
      return Success(CheckResult(false, ExpectedEvents, ErrorDetail("settings.json_missing")));
    case JsonReadError(excName) =>
      return Success(CheckResult(false, ExpectedEvents, ErrorDetail("read_error:" + excName)));
    case JsonParseError(excName) =>
      return Success(CheckResult(false, ExpectedEvents, ErrorDetail("parse_error:" + excName)));
    case JsonValue(value) =>
      var found := HooksOf(value);
      if found.None? {
        return Success(CheckResult(false, ExpectedEvents, ErrorDetail("hooks_missing")));
      }
      var scan := ScanHooks(found.value, ExpectedEvents);
      ScanFailure(found.value, ExpectedEvents);
      if scan.Failure? {
        return Failure(scan.error);
      }
      var (missing, detail) := scan.value;
      ScanMissingMeaning(found.value, ExpectedEvents);
      return Success(CheckResult(missing == [], missing, JObj(detail)));
  }
}
