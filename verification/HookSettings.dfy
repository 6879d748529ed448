/** Hook settings between the desktop panel and `config.toml` (crates/desktop/src/commands.rs). */
module HookSettings {
  import opened Text

  datatype HookEvent =
    | SessionStart | SessionEnd | MessageSubmit | ToolCallBefore | ToolCallAfter | ModeChange
    | OnError | ShellEnv | PreCompact | PostCompact | SubagentStart | SubagentEnd

  datatype HookCondition =
    | Always
    | ToolName(name: string)
    | ToolNameRegex(pattern: string)
    | ToolCategory(category: string)
    | Mode(mode: string)
    | ExitCode(code: int)
    | All(conditions: seq<HookCondition>)
    | Any(conditions: seq<HookCondition>)

  datatype ConditionSettings = ConditionSettings(
    conditionType: string,
    value: Option<string>,
    conditions: SubConditions)

  /** The optional `conditions` list of a settings node. */
  datatype SubConditions = Missing | Listed(items: seq<ConditionSettings>)

  // ---- Exit codes: `i32::to_string` and `str::parse::<i32>` ----

  const I32_MIN := -0x8000_0000
  const I32_MAX := 0x7FFF_FFFF

  function I32ToString(code: int): string {
    if code < 0 then "-" + Digits(-code) else Digits(code)
  }

  function ParseI32(raw: string): Option<int> {
    var signed := raw != "" && (raw[0] == '-' || raw[0] == '+');
    var digits := if signed then raw[1..] else raw;
    if digits == "" || !AllDigits(digits) then None
    else
      var magnitude: int := DigitsValue(digits);
      var value := if signed && raw[0] == '-' then -magnitude else magnitude;
      if I32_MIN <= value <= I32_MAX then Some(value) else None
  }

  lemma CodeRoundTrip(code: int)
    requires I32_MIN <= code <= I32_MAX
    ensures ParseI32(I32ToString(code)) == Some(code)
    ensures Trimmed(I32ToString(code)) && I32ToString(code) != ""
  {
    hide Digits, DigitsValue;
    var n: nat := if code < 0 then -code else code;
    DigitsRoundTrip(n);
    var digits := Digits(n);
    assert IsDigit(digits[0]) && IsDigit(digits[|digits| - 1]);
    assert I32ToString(code) == if code < 0 then "-" + digits else digits;
    assert ("-" + digits)[1..] == digits;
  }

  /** What is read as an exit code: digits, after a minus or plus sign or none, within 32 bits. */
  lemma CodeReads(digits: string)
    requires digits != "" && AllDigits(digits)
    ensures var n: int := DigitsValue(digits);
            && ParseI32(digits) == (if n <= 0x7FFF_FFFF then Some(n) else None)
            && ParseI32("+" + digits) == ParseI32(digits)
            && ParseI32("-" + digits) == (if n <= 0x8000_0000 then Some(-n) else None)
  {
    hide DigitsValue;
    assert ("+" + digits)[1..] == digits && ("-" + digits)[1..] == digits;
    assert IsDigit(digits[0]);
  }

  /** Nothing else is. */
  lemma OnlyCodesRead(raw: string)
    requires ParseI32(raw).Some?
    ensures raw != ""
    ensures var digits := if raw[0] == '-' || raw[0] == '+' then raw[1..] else raw; digits != "" && AllDigits(digits)
  {
    hide DigitsValue;
  }

  // ---- Conditions ----

  function ConditionToSettings(c: HookCondition): ConditionSettings {
    match c
    case Always => ConditionSettings("always", None, Missing)
    case ToolName(name) => ConditionSettings("tool_name", Some(name), Missing)
    case ToolNameRegex(pattern) => ConditionSettings("tool_name_regex", Some(pattern), Missing)
    case ToolCategory(category) => ConditionSettings("tool_category", Some(category), Missing)
    case Mode(mode) => ConditionSettings("mode", Some(mode), Missing)
    case ExitCode(code) => ConditionSettings("exit_code", Some(I32ToString(code)), Missing)
    case All(conditions) => ConditionSettings("all", None, Listed(ConditionsToSettings(conditions)))
    case Any(conditions) => ConditionSettings("any", None, Listed(ConditionsToSettings(conditions)))
  }

  function ConditionsToSettings(cs: seq<HookCondition>): seq<ConditionSettings> {
    if cs == [] then [] else [ConditionToSettings(cs[0])] + ConditionsToSettings(cs[1..])
  }

  /** The trimmed value, if anything is left of it. */
  function NonBlank(value: Option<string>): Option<string> {
    if value.Some? && Trim(value.value) != "" then Some(Trim(value.value)) else None
  }

  /** `hook_condition_from_settings_inner`. */
  function ConditionFromSettings(s: ConditionSettings): Result<HookCondition>
    decreases s, 1
  {
    var value := NonBlank(s.value);
    if s.conditionType == "always" then Ok(Always)
    else if s.conditionType == "all" then
      if s.conditions.Missing? || s.conditions.items == [] then Err("all condition requires sub-conditions")
      else match ConditionsFromSettings(s.conditions.items)
        case Err(e) => Err(e)
        case Ok(cs) => Ok(All(cs))
    else if s.conditionType == "any" then
      if s.conditions.Missing? || s.conditions.items == [] then Err("any condition requires sub-conditions")
      else match ConditionsFromSettings(s.conditions.items)
        case Err(e) => Err(e)
        case Ok(cs) => Ok(Any(cs))
    else if s.conditionType == "tool_name" then
      if value.None? then Err("tool_name condition requires a value") else Ok(ToolName(value.value))
    else if s.conditionType == "tool_name_regex" then
      if value.None? then Err("tool_name_regex condition requires a pattern") else Ok(ToolNameRegex(value.value))
    else if s.conditionType == "tool_category" then
      if value.None? then Err("tool_category condition requires a value") else Ok(ToolCategory(value.value))
    else if s.conditionType == "mode" then
      if value.None? then Err("mode condition requires a value") else Ok(Mode(value.value))
    else if s.conditionType == "exit_code" then
      if value.None? then Err("exit_code condition requires a value")
      else match ParseI32(value.value)
        case None => Err("invalid exit_code: " + value.value)
        case Some(code) => Ok(ExitCode(code))
    else Err("unknown hook condition type: " + s.conditionType)
  }

  /** Convert in order; the first failure wins. */
  function ConditionsFromSettings(ss: seq<ConditionSettings>): Result<seq<HookCondition>>
    decreases ss, 0
  {
    if ss == [] then Ok([])
    else match ConditionFromSettings(ss[0])
      case Err(e) => Err(e)
      case Ok(c) =>
        match ConditionsFromSettings(ss[1..])
        case Err(e) => Err(e)
        case Ok(cs) => Ok([c] + cs)
  }

  /** `hook_condition_from_settings`: at the top level `always` and the empty type mean no condition. */
  function TopConditionFromSettings(s: ConditionSettings): Result<Option<HookCondition>> {
    if s.conditionType == "always" || s.conditionType == "" then Ok(None)
    else match ConditionFromSettings(s)
      case Err(e) => Err(e)
      case Ok(c) => Ok(Some(c))
  }

  predicate IsNonBlankTrimmed(s: string) {
    s != "" && Trimmed(s)
  }

  /** Conditions the panel can write: trimmed non-blank values, `i32` codes, no empty groups. */
  predicate Storable(c: HookCondition) {
    match c
    case Always => true
    case ToolName(v) => IsNonBlankTrimmed(v)
    case ToolNameRegex(v) => IsNonBlankTrimmed(v)
    case ToolCategory(v) => IsNonBlankTrimmed(v)
    case Mode(v) => IsNonBlankTrimmed(v)
    case ExitCode(code) => I32_MIN <= code <= I32_MAX
    case All(cs) => cs != [] && AllStorable(cs)
    case Any(cs) => cs != [] && AllStorable(cs)
  }

  predicate AllStorable(cs: seq<HookCondition>) {
    cs == [] || (Storable(cs[0]) && AllStorable(cs[1..]))
  }

  lemma NonBlankIsTrimmed(value: Option<string>)
    ensures NonBlank(value).Some? ==> IsNonBlankTrimmed(NonBlank(value).value)
  {
  }

  lemma ParsedIsI32(raw: string)
    ensures ParseI32(raw).Some? ==> I32_MIN <= ParseI32(raw).value <= I32_MAX
  {
  }

  /** Whatever is accepted is storable, ... */
  lemma {:induction false} AcceptedIsStorable(s: ConditionSettings)
    ensures ConditionFromSettings(s).Ok? ==> Storable(ConditionFromSettings(s).value)
    decreases s, 1
  {
    hide NonBlank, IsNonBlankTrimmed, ParseI32, ConditionsFromSettings, AllStorable;
    NonBlankIsTrimmed(s.value);
    if NonBlank(s.value).Some? {
      ParsedIsI32(NonBlank(s.value).value);
    }
    if s.conditions.Listed? {
      AllAcceptedAreStorable(s.conditions.items);
      if s.conditions.items != [] && ConditionsFromSettings(s.conditions.items).Ok? {
        assert ConditionsFromSettings(s.conditions.items).value != [];
      }
    }
  }

  lemma {:induction false} AllAcceptedAreStorable(ss: seq<ConditionSettings>)
    ensures ConditionsFromSettings(ss).Ok? ==>
              AllStorable(ConditionsFromSettings(ss).value) && |ConditionsFromSettings(ss).value| == |ss|
    decreases ss, 0
  {
    hide ConditionFromSettings, Storable;
    if ss != [] {
      AcceptedIsStorable(ss[0]);
      AllAcceptedAreStorable(ss[1..]);
      var r := ConditionsFromSettings(ss);
      if r.Ok? {
        assert r.value[1..] == ConditionsFromSettings(ss[1..]).value;
      }
    }
  }

  /** ... and every storable condition tree, however deep, survives the trip through the panel. */
  lemma {:induction false} StorableSurvives(c: HookCondition)
    requires Storable(c)
    ensures ConditionFromSettings(ConditionToSettings(c)) == Ok(c)
    decreases c, 1
  {
    hide Trim, Trimmed, ParseI32, I32ToString, AllStorable, ConditionsFromSettings, ConditionsToSettings;
    match c {
      case ExitCode(code) =>
        CodeRoundTrip(code);
      case All(cs) =>
        AllStorableSurvive(cs);
        ListedIsNotEmpty(cs);
      case Any(cs) =>
        AllStorableSurvive(cs);
        ListedIsNotEmpty(cs);
      case _ =>
    }
  }

  lemma ListedIsNotEmpty(cs: seq<HookCondition>)
    requires cs != []
    ensures ConditionsToSettings(cs) != []
  {
  }

  lemma {:induction false} AllStorableSurvive(cs: seq<HookCondition>)
    requires AllStorable(cs)
    ensures ConditionsFromSettings(ConditionsToSettings(cs)) == Ok(cs)
    decreases cs, 0
  {
    hide ConditionFromSettings, ConditionToSettings, Storable;
    if cs != [] {
      StorableSurvives(cs[0]);
      AllStorableSurvive(cs[1..]);
      assert ConditionsToSettings(cs)[1..] == ConditionsToSettings(cs[1..]);
      assert cs == [cs[0]] + cs[1..];
    }
  }

  /** At the top of an entry, and only there, no type and `always` mean no condition. */
  lemma TopLevelConditions(s: ConditionSettings)
    ensures s.conditionType in ["", "always"] ==> TopConditionFromSettings(s) == Ok(None)
    ensures s.conditionType !in ["", "always"] && ConditionFromSettings(s).Ok? ==>
              TopConditionFromSettings(s) == Ok(Some(ConditionFromSettings(s).value))
    ensures s.conditionType !in ["", "always"] && ConditionFromSettings(s).Err? ==>
              TopConditionFromSettings(s) == Err(ConditionFromSettings(s).message)
    ensures s.conditionType == "" ==> ConditionFromSettings(s).Err?
  {
    hide NonBlank, ParseI32;
  }

  /** How each condition is written to the panel. */
  lemma ConditionNames(v: string, code: int, cs: seq<HookCondition>)
    ensures ConditionToSettings(Always) == ConditionSettings("always", None, Missing)
    ensures ConditionToSettings(ToolName(v)) == ConditionSettings("tool_name", Some(v), Missing)
    ensures ConditionToSettings(ToolNameRegex(v)) == ConditionSettings("tool_name_regex", Some(v), Missing)
    ensures ConditionToSettings(ToolCategory(v)) == ConditionSettings("tool_category", Some(v), Missing)
    ensures ConditionToSettings(Mode(v)) == ConditionSettings("mode", Some(v), Missing)
    ensures ConditionToSettings(ExitCode(code)).conditionType == "exit_code"
    ensures ConditionToSettings(ExitCode(code)).value
         == Some(if code < 0 then "-" + Digits(-code) else Digits(code))
    ensures ConditionToSettings(All(cs)).conditionType == "all" && ConditionToSettings(Any(cs)).conditionType == "any"
  {
  }

  /** Exact: a stored condition survives display and re-save if and only if the panel can write it. */
  lemma ConditionSurvivesIff(c: HookCondition)
    ensures ConditionFromSettings(ConditionToSettings(c)) == Ok(c) <==> Storable(c)
  {
    hide ConditionFromSettings, ConditionToSettings, Storable;
    AcceptedIsStorable(ConditionToSettings(c));
    if Storable(c) {
      StorableSurvives(c);
    }
  }

  // ---- Events ----

  function EventToStr(event: HookEvent): string {
    match event
    case SessionStart => "session_start"
    case SessionEnd => "session_end"
    case MessageSubmit => "message_submit"
    case ToolCallBefore => "tool_call_before"
    case ToolCallAfter => "tool_call_after"
    case ModeChange => "mode_change"
    case OnError => "on_error"
    case ShellEnv => "shell_env"
    case PreCompact => "pre_compact"
    case PostCompact => "post_compact"
    case SubagentStart => "subagent_start"
    case SubagentEnd => "subagent_end"
  }

  /** The event a normalized key names, with the filter its alias implies. */
  function EventFromKey(key: string): Result<(HookEvent, Option<HookCondition>)> {
    if key == "session_start" then Ok((SessionStart, None))
    else if key == "session_end" || key == "stop" then Ok((SessionEnd, None))
    else if key == "message_submit" then Ok((MessageSubmit, None))
    else if key == "tool_call_before" then Ok((ToolCallBefore, None))
    else if key == "tool_call_after" then Ok((ToolCallAfter, None))
    else if key == "mode_change" then Ok((ModeChange, None))
    else if key == "on_error" then Ok((OnError, None))
    else if key == "shell_env" then Ok((ShellEnv, None))
    else if key == "pre_compact" then Ok((PreCompact, None))
    else if key == "post_compact" then Ok((PostCompact, None))
    else if key == "subagent_start" then Ok((SubagentStart, None))
    else if key == "subagent_end" then Ok((SubagentEnd, None))
    else if key == "before_shell" then Ok((ToolCallBefore, Some(ToolName("exec_shell"))))
    else if key == "after_shell" then Ok((ToolCallAfter, Some(ToolName("exec_shell"))))
    else if key == "before_file_edit" then Ok((ToolCallBefore, Some(ToolCategory("file_write"))))
    else if key == "after_file_edit" then Ok((ToolCallAfter, Some(ToolCategory("file_write"))))
    else Err("unknown hook event: " + key)
  }

  function EventFromStr(raw: string): Result<(HookEvent, Option<HookCondition>)> {
    EventFromKey(Lower(Trim(raw)))
  }

  lemma EventNamesAreKeys(event: HookEvent)
    ensures EventFromKey(EventToStr(event)) == Ok((event, None))
  {
    match event {
      case SessionStart =>
      case SessionEnd =>
      case MessageSubmit =>
      case ToolCallBefore =>
      case ToolCallAfter =>
      case ModeChange =>
      case OnError =>
      case ShellEnv =>
      case PreCompact =>
      case PostCompact =>
      case SubagentStart =>
      case SubagentEnd =>
    }
  }

  predicate IsSnakeCase(s: string) {
    s != "" && forall i :: 0 <= i < |s| ==> 'a' <= s[i] <= 'z' || s[i] == '_'
  }

  lemma SessionNamesAreSnakeCase()
    ensures IsSnakeCase("session_start") && IsSnakeCase("session_end")
    ensures IsSnakeCase("message_submit") && IsSnakeCase("mode_change")
  {
  }

  lemma ToolNamesAreSnakeCase()
    ensures IsSnakeCase("tool_call_before") && IsSnakeCase("tool_call_after")
    ensures IsSnakeCase("on_error") && IsSnakeCase("shell_env")
  {
  }

  lemma AgentNamesAreSnakeCase()
    ensures IsSnakeCase("pre_compact") && IsSnakeCase("post_compact")
    ensures IsSnakeCase("subagent_start") && IsSnakeCase("subagent_end")
  {
  }

  lemma EventNamesAreSnakeCase(event: HookEvent)
    ensures IsSnakeCase(EventToStr(event))
  {
    hide IsSnakeCase;
    SessionNamesAreSnakeCase();
    ToolNamesAreSnakeCase();
    AgentNamesAreSnakeCase();
  }

  lemma SnakeCaseIsNormal(name: string)
    requires IsSnakeCase(name)
    ensures Lower(Trim(name)) == name
  {
    assert Trimmed(name);
    assert Lower(name) == name;
  }

  lemma EventNamesAreNormal(event: HookEvent)
    ensures Lower(Trim(EventToStr(event))) == EventToStr(event)
  {
    hide EventToStr, IsSnakeCase;
    EventNamesAreSnakeCase(event);
    SnakeCaseIsNormal(EventToStr(event));
  }

  /** A canonical event name reads back as itself and implies no filter. */
  lemma EventRoundTrip(event: HookEvent)
    ensures EventFromStr(EventToStr(event)) == Ok((event, None))
  {
    hide EventFromKey, EventToStr;
    EventNamesAreKeys(event);
    EventNamesAreNormal(event);
  }

  /** The names, as they are written to the settings and read back. */
  lemma CanonicalNames()
    ensures EventToStr(SessionStart) == "session_start" && EventToStr(SessionEnd) == "session_end"
    ensures EventToStr(MessageSubmit) == "message_submit" && EventToStr(ModeChange) == "mode_change"
    ensures EventToStr(ToolCallBefore) == "tool_call_before" && EventToStr(ToolCallAfter) == "tool_call_after"
    ensures EventToStr(OnError) == "on_error" && EventToStr(ShellEnv) == "shell_env"
    ensures EventToStr(PreCompact) == "pre_compact" && EventToStr(PostCompact) == "post_compact"
    ensures EventToStr(SubagentStart) == "subagent_start" && EventToStr(SubagentEnd) == "subagent_end"
  {
  }

  lemma AliasesAreSnakeCase()
    ensures IsSnakeCase("stop") && IsSnakeCase("before_shell") && IsSnakeCase("after_shell")
    ensures IsSnakeCase("before_file_edit") && IsSnakeCase("after_file_edit")
  {
  }

  lemma AliasKeys()
    ensures EventFromKey("stop") == Ok((SessionEnd, None))
    ensures EventFromKey("before_shell") == Ok((ToolCallBefore, Some(ToolName("exec_shell"))))
    ensures EventFromKey("after_shell") == Ok((ToolCallAfter, Some(ToolName("exec_shell"))))
    ensures EventFromKey("before_file_edit") == Ok((ToolCallBefore, Some(ToolCategory("file_write"))))
    ensures EventFromKey("after_file_edit") == Ok((ToolCallAfter, Some(ToolCategory("file_write"))))
  {
  }

  /** The event and the filter of each alias. */
  lemma AliasesExpand()
    ensures EventFromStr("stop") == Ok((SessionEnd, None))
    ensures EventFromStr("before_shell") == Ok((ToolCallBefore, Some(ToolName("exec_shell"))))
    ensures EventFromStr("after_shell") == Ok((ToolCallAfter, Some(ToolName("exec_shell"))))
    ensures EventFromStr("before_file_edit") == Ok((ToolCallBefore, Some(ToolCategory("file_write"))))
    ensures EventFromStr("after_file_edit") == Ok((ToolCallAfter, Some(ToolCategory("file_write"))))
  {
    hide EventFromKey, IsSnakeCase, Lower, Trim;
    AliasKeys();
    AliasesAreSnakeCase();
    SnakeCaseIsNormal("stop");
    SnakeCaseIsNormal("before_shell");
    SnakeCaseIsNormal("after_shell");
    SnakeCaseIsNormal("before_file_edit");
    SnakeCaseIsNormal("after_file_edit");
  }

  /** An event name is read without regard to case or padding, and only a canonical name or an alias is read at all. */
  lemma EventReadIff(raw: string, other: string)
    ensures Lower(Trim(raw)) == Lower(Trim(other)) ==> EventFromStr(raw) == EventFromStr(other)
    ensures EventFromStr(raw).Ok? <==>
              || Lower(Trim(raw)) in ["stop", "before_shell", "after_shell", "before_file_edit", "after_file_edit"]
              || exists event :: Lower(Trim(raw)) == EventToStr(event)
  {
    hide Lower, Trim;
    var key := Lower(Trim(raw));
    KeyReadIff(key);
  }

  lemma KeyReadIff(key: string)
    ensures EventFromKey(key).Ok? <==>
              || key in ["stop", "before_shell", "after_shell", "before_file_edit", "after_file_edit"]
              || exists event :: key == EventToStr(event)
  {
    hide EventFromKey, EventToStr;
    forall event | key == EventToStr(event) ensures EventFromKey(key).Ok? {
      EventNamesAreKeys(event);
    }
    AliasKeys();
    if EventFromKey(key).Ok? {
      KeyIsNamed(key);
    }
  }

  lemma KeyIsNamed(key: string)
    requires EventFromKey(key).Ok?
    ensures key in ["stop", "before_shell", "after_shell", "before_file_edit", "after_file_edit"]
            || key == EventToStr(EventFromKey(key).value.0)
  {
  }

  lemma ImpliedFiltersAreStorable(key: string)
    ensures EventFromKey(key).Ok? && EventFromKey(key).value.1.Some? ==>
              Storable(EventFromKey(key).value.1.value) && EventFromKey(key).value.1.value != Always
  {
    hide Trim, Storable;
    ShellFilterIsStorable();
    WriteFilterIsStorable();
  }

  lemma ShellFilterIsStorable()
    ensures Storable(ToolName("exec_shell"))
  {
  }

  lemma WriteFilterIsStorable()
    ensures Storable(ToolCategory("file_write"))
  {
  }

  function MergeImplicit(existing: Option<HookCondition>, implied: Option<HookCondition>): Option<HookCondition> {
    if implied.None? then existing
    else if existing.None? then implied
    else Some(All([implied.value, existing.value]))
  }

  lemma MergeIsStorable(existing: Option<HookCondition>, implied: Option<HookCondition>)
    requires existing.Some? ==> Storable(existing.value) && existing.value != Always
    requires implied.Some? ==> Storable(implied.value) && implied.value != Always
    ensures var m := MergeImplicit(existing, implied);
            m.Some? ==> Storable(m.value) && m.value != Always
  {
    if existing.Some? && implied.Some? {
      var pair := [implied.value, existing.value];
      assert pair[1..] == [existing.value] && [existing.value][1..] == [];
      assert AllStorable([existing.value]);
    }
  }

  // ---- Entries and the whole `[hooks]` table ----

  datatype HookEntrySettings = HookEntrySettings(
    event: string,
    command: string,
    name: Option<string>,
    timeoutSecs: nat,
    background: bool,
    continueOnError: bool,
    condition: Option<ConditionSettings>)

  datatype Hook = Hook(
    event: HookEvent,
    command: string,
    condition: Option<HookCondition>,
    timeoutSecs: Option<nat>,
    background: bool,
    continueOnError: bool,
    name: Option<string>)

  datatype HooksSettings = HooksSettings(
    enabled: bool,
    defaultTimeoutSecs: Option<nat>,
    workingDir: Option<string>,
    hooks: seq<HookEntrySettings>)

  datatype HooksConfig = HooksConfig(
    enabled: bool,
    defaultTimeoutSecs: Option<nat>,
    workingDir: Option<string>,
    auditJsonl: Option<string>,
    hooks: seq<Hook>)

  const DEFAULT_TIMEOUT_SECS: nat := 30

  function UserCondition(e: HookEntrySettings): Result<Option<HookCondition>> {
    if e.condition.None? then Ok(None) else TopConditionFromSettings(e.condition.value)
  }

  /** One entry as it is stored; a blank command stores nothing. */
  function SaveEntry(e: HookEntrySettings): Result<Option<Hook>> {
    if Trim(e.command) == "" then Ok(None)
    else match EventFromStr(e.event)
      case Err(m) => Err(m)
      case Ok((event, implied)) =>
        match UserCondition(e)
        case Err(m) => Err(m)
        case Ok(user) =>
          Ok(Some(Hook(
                    event,
                    Trim(e.command),
                    MergeImplicit(user, implied),
                    if e.timeoutSecs == DEFAULT_TIMEOUT_SECS then None
                    else Some(if e.timeoutSecs == 0 then 1 else e.timeoutSecs),
                    e.background,
                    e.continueOnError,
                    NonBlank(e.name))))
  }

  ghost function SavedHooks(entries: seq<HookEntrySettings>): Result<seq<Hook>> {
    if entries == [] then Ok([])
    else match SavedHooks(entries[..|entries| - 1])
      case Err(m) => Err(m)
      case Ok(hooks) =>
        match SaveEntry(entries[|entries| - 1])
        case Err(m) => Err(m)
        case Ok(None) => Ok(hooks)
        case Ok(Some(h)) => Ok(hooks + [h])
  }

  ghost function Saved(settings: HooksSettings, auditJsonl: Option<string>): Result<HooksConfig> {
    match SavedHooks(settings.hooks)
    case Err(m) => Err(m)
    case Ok(hooks) =>
      Ok(HooksConfig(
           settings.enabled,
           if settings.defaultTimeoutSecs == Some(0) then None else settings.defaultTimeoutSecs,
           NonBlank(settings.workingDir),
           auditJsonl,
           hooks))
  }

  method SaveHooksSettings(settings: HooksSettings, auditJsonl: Option<string>) returns (r: Result<HooksConfig>)
    ensures r == Saved(settings, auditJsonl)
  {
    hide SaveEntry, NonBlank;
    var hooks: seq<Hook> := [];
    for i := 0 to |settings.hooks|
      invariant SavedHooks(settings.hooks[..i]) == Ok(hooks)
    {
      assert settings.hooks[..i + 1][..i] == settings.hooks[..i];
      match SaveEntry(settings.hooks[i]) {
        case Err(m) =>
          FirstErrorWins(settings.hooks, i + 1, m);
          return Err(m);
        case Ok(None) =>
        case Ok(Some(h)) =>
          hooks := hooks + [h];
      }
    }
    assert settings.hooks[..|settings.hooks|] == settings.hooks;
    r := Ok(HooksConfig(
              settings.enabled,
              if settings.defaultTimeoutSecs == Some(0) then None else settings.defaultTimeoutSecs,
              NonBlank(settings.workingDir),
              auditJsonl,
              hooks));
  }

  lemma {:induction false} FirstErrorWins(entries: seq<HookEntrySettings>, n: nat, m: string)
    requires n <= |entries| && SavedHooks(entries[..n]) == Err(m)
    ensures SavedHooks(entries) == Err(m)
    decreases |entries| - n
  {
    hide SaveEntry;
    if n == |entries| {
      assert entries[..n] == entries;
    } else {
      assert entries[..n + 1][..n] == entries[..n];
      FirstErrorWins(entries, n + 1, m);
    }
  }

  function LoadEntry(h: Hook): HookEntrySettings {
    HookEntrySettings(
      EventToStr(h.event),
      h.command,
      h.name,
      if h.timeoutSecs.None? then DEFAULT_TIMEOUT_SECS else h.timeoutSecs.value,
      h.background,
      h.continueOnError,
      if h.condition.None? then None else Some(ConditionToSettings(h.condition.value)))
  }

  function LoadEntries(hooks: seq<Hook>): (r: seq<HookEntrySettings>)
    ensures |r| == |hooks|
    ensures forall i :: 0 <= i < |r| ==> r[i] == LoadEntry(hooks[i])
  {
    seq(|hooks|, i requires 0 <= i < |hooks| => LoadEntry(hooks[i]))
  }

  function LoadSettings(cfg: HooksConfig): HooksSettings {
    HooksSettings(cfg.enabled, cfg.defaultTimeoutSecs, cfg.workingDir, LoadEntries(cfg.hooks))
  }

  predicate CanonicalText(s: Option<string>) {
    s.Some? ==> IsNonBlankTrimmed(s.value)
  }

  predicate CanonicalHook(h: Hook) {
    && IsNonBlankTrimmed(h.command)
    && CanonicalText(h.name)
    && h.timeoutSecs != Some(DEFAULT_TIMEOUT_SECS) && h.timeoutSecs != Some(0)
    && (h.condition.Some? ==> Storable(h.condition.value) && h.condition.value != Always)
  }

  predicate Canonical(cfg: HooksConfig) {
    && cfg.defaultTimeoutSecs != Some(0)
    && CanonicalText(cfg.workingDir)
    && forall i :: 0 <= i < |cfg.hooks| ==> CanonicalHook(cfg.hooks[i])
  }

  lemma TopAcceptedIsStorable(s: ConditionSettings)
    ensures var r := TopConditionFromSettings(s);
            r.Ok? && r.value.Some? ==> Storable(r.value.value) && r.value.value != Always
  {
    hide ConditionFromSettings, Storable;
    AcceptedIsStorable(s);
    if s.conditionType != "always" {
      OnlyAlwaysIsAlways(s);
    }
  }

  lemma SavedEntryIsCanonical(e: HookEntrySettings)
    ensures SaveEntry(e).Ok? && SaveEntry(e).value.Some? ==> CanonicalHook(SaveEntry(e).value.value)
  {
    hide TopConditionFromSettings, EventFromKey, Storable, MergeImplicit, Trim;
    var r := SaveEntry(e);
    if r.Ok? && r.value.Some? {
      ImpliedFiltersAreStorable(Lower(Trim(e.event)));
      if e.condition.Some? {
        TopAcceptedIsStorable(e.condition.value);
      }
      MergeIsStorable(UserCondition(e).value, EventFromStr(e.event).value.1);
    }
  }

  lemma OnlyAlwaysIsAlways(s: ConditionSettings)
    requires s.conditionType != "always"
    ensures ConditionFromSettings(s) != Ok(Always)
  {
  }

  lemma CanonicalConditionSurvives(c: HookCondition)
    requires Storable(c) && c != Always
    ensures TopConditionFromSettings(ConditionToSettings(c)) == Ok(Some(c))
  {
    hide ConditionFromSettings;
    StorableSurvives(c);
    assert ConditionToSettings(c).conditionType !in {"always", ""};
  }

  lemma CanonicalEntrySurvives(h: Hook)
    requires CanonicalHook(h)
    ensures SaveEntry(LoadEntry(h)) == Ok(Some(h))
  {
    hide ConditionFromSettings, ConditionToSettings, TopConditionFromSettings, EventFromKey, EventToStr, EventFromStr,
      Trim, Storable;
    EventRoundTrip(h.event);
    if h.condition.Some? {
      CanonicalConditionSurvives(h.condition.value);
    }
  }

  lemma {:induction false} SavedHooksAreCanonical(entries: seq<HookEntrySettings>)
    ensures SavedHooks(entries).Ok? ==>
              forall i :: 0 <= i < |SavedHooks(entries).value| ==> CanonicalHook(SavedHooks(entries).value[i])
  {
    hide SaveEntry, CanonicalHook;
    if entries != [] {
      SavedHooksAreCanonical(entries[..|entries| - 1]);
      SavedEntryIsCanonical(entries[|entries| - 1]);
    }
  }

  lemma {:induction false} CanonicalHooksSurvive(hooks: seq<Hook>)
    requires forall i :: 0 <= i < |hooks| ==> CanonicalHook(hooks[i])
    ensures SavedHooks(LoadEntries(hooks)) == Ok(hooks)
  {
    hide SaveEntry, CanonicalHook, LoadEntry;
    if hooks != [] {
      var n := |hooks| - 1;
      CanonicalHooksSurvive(hooks[..n]);
      CanonicalEntrySurvives(hooks[n]);
      assert LoadEntries(hooks)[..n] == LoadEntries(hooks[..n]);
      assert hooks == hooks[..n] + [hooks[n]];
    }
  }

  /** Exact: showing a stored table in the panel and saving it back unchanged leaves it as it was if
      and only if it is canonical. */
  lemma ResaveIsIdentityIff(cfg: HooksConfig)
    ensures Saved(LoadSettings(cfg), cfg.auditJsonl) == Ok(cfg) <==> Canonical(cfg)
  {
    hide SavedHooks, CanonicalHook;
    SavedHooksAreCanonical(LoadEntries(cfg.hooks));
    if Canonical(cfg) {
      CanonicalHooksSurvive(cfg.hooks);
    }
  }

  /** Whatever the panel saves is canonical, so saving, loading and saving again changes nothing:
      nested trees survive and event aliases expand once and are never wrapped again. */
  lemma SaveLoadSave(settings: HooksSettings, auditJsonl: Option<string>)
    requires Saved(settings, auditJsonl).Ok?
    ensures var cfg := Saved(settings, auditJsonl).value;
            Canonical(cfg) && Saved(LoadSettings(cfg), auditJsonl) == Ok(cfg)
  {
    hide SavedHooks, CanonicalHook;
    SavedHooksAreCanonical(settings.hooks);
    ResaveIsIdentityIff(Saved(settings, auditJsonl).value);
  }

  // ---- Meaning ----

  /** What is stored of an accepted entry, field by field; a blank command is dropped, bad event or not. */
  lemma SavedEntrySays(e: HookEntrySettings)
    ensures Trim(e.command) == "" ==> SaveEntry(e) == Ok(None)
    ensures SaveEntry(e).Ok? && Trim(e.command) != "" ==>
              && SaveEntry(e).value.Some?
              && var h := SaveEntry(e).value.value;
              && h.command == Trim(e.command)
              && h.background == e.background && h.continueOnError == e.continueOnError
              && (h.timeoutSecs.None? <==> e.timeoutSecs == 30)
              && (h.timeoutSecs.Some? ==> h.timeoutSecs.value >= 1 && h.timeoutSecs.value >= e.timeoutSecs)
              && (h.timeoutSecs.Some? && e.timeoutSecs >= 1 ==> h.timeoutSecs.value == e.timeoutSecs)
              && (h.name.None? <==> e.name.None? || Trim(e.name.value) == "")
              && (h.name.Some? ==> h.name.value == Trim(e.name.value))
    ensures Trim(e.command) != "" && EventFromStr(e.event).Err? ==> SaveEntry(e) == Err(EventFromStr(e.event).message)
  {
    hide Trim, EventFromStr, TopConditionFromSettings, MergeImplicit;
  }

  /** The table around the entries, field by field. */
  lemma SavedTableSays(settings: HooksSettings, auditJsonl: Option<string>)
    ensures Saved(settings, auditJsonl).Ok? <==> SavedHooks(settings.hooks).Ok?
    ensures Saved(settings, auditJsonl).Ok? ==>
              var cfg := Saved(settings, auditJsonl).value;
              && cfg.enabled == settings.enabled && cfg.auditJsonl == auditJsonl
              && cfg.hooks == SavedHooks(settings.hooks).value
              && (cfg.defaultTimeoutSecs.Some? <==>
                  settings.defaultTimeoutSecs.Some? && settings.defaultTimeoutSecs.value > 0)
              && (cfg.defaultTimeoutSecs.Some? ==> cfg.defaultTimeoutSecs == settings.defaultTimeoutSecs)
              && (cfg.workingDir.Some? <==> settings.workingDir.Some? && Trim(settings.workingDir.value) != "")
              && (cfg.workingDir.Some? ==> cfg.workingDir.value == Trim(settings.workingDir.value))
  {
    hide Trim, SaveEntry;
  }

  /** When a condition holds, given when its atoms do. */
  ghost predicate Holds(c: HookCondition, atom: HookCondition -> bool)
    decreases c, 1
  {
    match c
    case Always => true
    case All(cs) => AllHold(cs, atom)
    case Any(cs) => AnyHolds(cs, atom)
    case _ => atom(c)
  }

  ghost predicate AllHold(cs: seq<HookCondition>, atom: HookCondition -> bool)
    decreases cs, 0
  {
    cs == [] || (Holds(cs[0], atom) && AllHold(cs[1..], atom))
  }

  ghost predicate AnyHolds(cs: seq<HookCondition>, atom: HookCondition -> bool)
    decreases cs, 0
  {
    cs != [] && (Holds(cs[0], atom) || AnyHolds(cs[1..], atom))
  }

  ghost predicate Fires(c: Option<HookCondition>, atom: HookCondition -> bool) {
    c.Some? ==> Holds(c.value, atom)
  }

  lemma MergeMeansBoth(existing: Option<HookCondition>, implied: Option<HookCondition>, atom: HookCondition -> bool)
    ensures Fires(MergeImplicit(existing, implied), atom) <==> Fires(implied, atom) && Fires(existing, atom)
  {
    if existing.Some? && implied.Some? {
      var pair := [implied.value, existing.value];
      assert pair[1..] == [existing.value] && [existing.value][1..] == [];
      assert AllHold([existing.value], atom) <==> Holds(existing.value, atom);
      assert AllHold(pair, atom) <==> Holds(implied.value, atom) && AllHold([existing.value], atom);
    }
  }

  /** The stored condition means the alias's filter AND the user's condition, before and after any
      number of round trips through the panel. */
  lemma StoredMeansFilterAndUser(e: HookEntrySettings, atom: HookCondition -> bool)
    requires SaveEntry(e).Ok? && SaveEntry(e).value.Some?
    ensures var h := SaveEntry(e).value.value;
            && (Fires(h.condition, atom) <==>
                Fires(EventFromStr(e.event).value.1, atom) && Fires(UserCondition(e).value, atom))
            && h.event == EventFromStr(e.event).value.0
            && SaveEntry(LoadEntry(h)) == Ok(Some(h))
  {
    hide TopConditionFromSettings, EventFromStr, LoadEntry, Trim, CanonicalHook, Trimmed, MergeImplicit, Fires;
    var h := SaveEntry(e).value.value;
    SavedEntryIsCanonical(e);
    CanonicalEntrySurvives(h);
    MergeMeansBoth(UserCondition(e).value, EventFromStr(e.event).value.1, atom);
  }
}
