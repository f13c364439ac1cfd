/**
 * What an agent may do in a project: the account's policy, narrowed by the file
 * on the machine, which can take away and never give.
 */
module CommandPolicies {
  import opened Common

  datatype ToolName =
    | ReadFile | ListFiles | Grep | EditFile | WriteFile | ApplyPatch | ListGitWorkspaces | CreateWorkspace | AttachWorkspace
    | DetachWorkspace | RemoveWorkspace | RunCommand | StartCommand | GetCommandOutput | SendCommandInput | KillCommand | ListSkills

  predicate ReadOnlyTool(tool: ToolName) {
    tool.ReadFile? || tool.ListFiles? || tool.Grep? || tool.ListGitWorkspaces? || tool.GetCommandOutput? || tool.ListSkills?
  }

  predicate RunsCommand(tool: ToolName) {
    tool.RunCommand? || tool.StartCommand?
  }

  datatype Mode = AllowAll | AllowList | ReadOnly

  datatype Policy = Policy(mode: Mode, allow: seq<string>, deny: seq<string>, shell: bool, approve: bool, tools: Option<seq<ToolName>>)

  const OPEN := Policy(AllowAll, [], [], false, false, None)

  datatype Local = Local(
    mode: Option<Mode>, allow: Option<seq<string>>, deny: Option<seq<string>>,
    shell: Option<bool>, approve: Option<bool>, tools: Option<seq<ToolName>>)

  // ------------------------------------------------------------------- commands

  predicate Space(c: char) {
    || '\U{9}' <= c <= '\U{d}' || c == ' ' || c == '\U{85}' || c == '\U{a0}' || c == '\U{1680}' || '\U{2000}' <= c <= '\U{200a}'
    || c == '\U{2028}' || c == '\U{2029}' || c == '\U{202f}' || c == '\U{205f}' || c == '\U{3000}'
  }

  function Word(text: string): string {
    if text == "" || Space(text[0]) then "" else [text[0]] + Word(text[1..])
  }

  /** `split_whitespace`. */
  function Tokenize(text: string): seq<string>
    decreases |text|
  {
    if text == "" then []
    else if Space(text[0]) then Tokenize(text[1..])
    else
      var rest := AfterWord(text);
      [Word(text)] + Tokenize(rest)
  }

  function AfterWord(text: string): (rest: string)
    ensures |rest| <= |text| && (text != "" && !Space(text[0]) ==> |rest| < |text|)
  {
    if text == "" || Space(text[0]) then text else AfterWord(text[1..])
  }

  predicate ShellSyntax(c: char) {
    c in ";&|<>$`(){}[]!*?~\n\r\\\"'"
  }

  predicate Plain(command: string) {
    forall i :: 0 <= i < |command| ==> !ShellSyntax(command[i])
  }

  /** `matches_rule`: a bare program matches any arguments, a trailing star any more of them, anything else only itself. */
  predicate MatchesRule(rule: string, words: seq<string>) {
    var parts := Tokenize(rule);
    if parts == [] then false
    else
      var wildcard := parts[|parts| - 1] == "*";
      var fixed := if wildcard then parts[..|parts| - 1] else parts;
      if !wildcard && |fixed| == 1 then words != [] && words[0] == fixed[0]
      else if |words| < |fixed| || (!wildcard && |words| != |fixed|) then false
      else words[..|fixed|] == fixed
  }

  predicate MatchesAny(rules: seq<string>, words: seq<string>) {
    exists rule :: rule in rules && MatchesRule(rule, words)
  }

  /** A policy that reads commands, and so only knows what plain ones do. */
  predicate Readable(policy: Policy) {
    policy.mode == AllowList || policy.deny != []
  }

  predicate CommandAllowed(policy: Policy, command: string) {
    var words := Tokenize(command);
    && policy.mode != ReadOnly && words != []
    && !(Readable(policy) && !policy.shell && !Plain(command))
    && !MatchesAny(policy.deny, words)
    && (policy.mode == AllowAll || MatchesAny(policy.allow, words))
  }

  /** `policy_allows`; the command is the call's, when it gives one. */
  predicate Allows(policy: Policy, tool: ToolName, command: Option<string>) {
    && (policy.tools.Some? ==> tool in policy.tools.value)
    && (ReadOnlyTool(tool) || policy.mode != ReadOnly)
    && (RunsCommand(tool) ==> command.Some? && CommandAllowed(policy, command.value))
  }

  /** `mcp_policy_allows`: a hint is a claim, and anything short of it changes things. */
  predicate McpAllows(policy: Policy, readOnlyHint: Option<bool>) {
    readOnlyHint == Some(true) || policy.mode != ReadOnly
  }

  // ------------------------------------------------------------------- narrowing

  function Rank(mode: Mode): nat {
    match mode case AllowAll => 0 case AllowList => 1 case ReadOnly => 2
  }

  function Stricter(a: Mode, b: Mode): Mode {
    if Rank(a) >= Rank(b) then a else b
  }

  function AddRules(deny: seq<string>, rules: seq<string>): seq<string>
    decreases |rules|
  {
    if rules == [] then deny
    else AddRules(if rules[0] in deny then deny else deny + [rules[0]], rules[1..])
  }

  function Shared<T(==)>(items: seq<T>, others: seq<T>): (r: seq<T>)
    ensures forall x :: x in r ==> x in items
    ensures forall x :: x in r ==> x in others
    ensures forall x :: x in items && x in others ==> x in r
  {
    if items == [] then []
    else if items[0] in others then [items[0]] + Shared(items[1..], others)
    else Shared(items[1..], others)
  }

  function NarrowTools(remote: Option<seq<ToolName>>, local: Option<seq<ToolName>>): Option<seq<ToolName>> {
    if local.None? then remote else if remote.None? then local else Some(Shared(remote.value, local.value))
  }

  /** The lists that are in force: the account's when it has a list, the file's when it says so itself. */
  function NarrowAllow(mode: Mode, remote: Policy, local: Local): seq<string> {
    var localList := local.mode == Some(AllowList) && local.allow.Some?;
    if mode != AllowList then []
    else if remote.mode == AllowList then (if localList then Shared(remote.allow, local.allow.value) else remote.allow)
    else if localList then local.allow.value else []
  }

  /** `narrow_policy`. */
  function Narrow(remote: Policy, local: Local): Policy {
    var mode := if local.mode.Some? then Stricter(remote.mode, local.mode.value) else remote.mode;
    Policy(mode,
           NarrowAllow(mode, remote, local),
           AddRules(remote.deny, if local.deny.Some? then local.deny.value else []),
           remote.shell && (local.shell.None? || local.shell.value),
           remote.approve || local.approve == Some(true),
           NarrowTools(remote.tools, local.tools))
  }

  /** `closed_policy`. */
  function Closed(account: Policy): Policy {
    account.(mode := ReadOnly)
  }

  datatype File = Missing | Unreadable | Malformed | Parsed(local: Local)

  /** `effective_policy`. */
  function Effective(remote: Option<Policy>, file: File): Policy {
    var account := if remote.Some? then remote.value else OPEN;
    match file
    case Missing => account
    case Unreadable => Closed(account)
    case Malformed => Closed(account)
    case Parsed(local) => Narrow(account, local)
  }

  // ------------------------------------------------------------------- theorems

  lemma {:induction false} AddRulesHas(deny: seq<string>, rules: seq<string>)
    ensures forall r :: r in AddRules(deny, rules) <==> r in deny || r in rules
    decreases |rules|
  {
    if rules != [] {
      AddRulesHas(if rules[0] in deny then deny else deny + [rules[0]], rules[1..]);
    }
  }

  lemma NarrowDenies(remote: Policy, local: Local)
    ensures forall r :: r in Narrow(remote, local).deny <==> r in remote.deny || (local.deny.Some? && r in local.deny.value)
    ensures remote.deny != [] ==> Narrow(remote, local).deny != []
  {
    AddRulesHas(remote.deny, if local.deny.Some? then local.deny.value else []);
    if remote.deny != [] { assert remote.deny[0] in Narrow(remote, local).deny; }
  }

  lemma CommandsNeverWiden(remote: Policy, local: Local, command: string)
    requires CommandAllowed(Narrow(remote, local), command)
    ensures CommandAllowed(remote, command)
  {
    NarrowDenies(remote, local);
  }

  /** Whatever the narrowed policy allows, the account's allows: tools, commands, and tools of other servers. */
  lemma NarrowingNeverWidens(remote: Policy, local: Local, tool: ToolName, command: Option<string>, hint: Option<bool>)
    ensures Allows(Narrow(remote, local), tool, command) ==> Allows(remote, tool, command)
    ensures McpAllows(Narrow(remote, local), hint) ==> McpAllows(remote, hint)
    ensures remote.approve || local.approve == Some(true) ==> Narrow(remote, local).approve
  {
    if Allows(Narrow(remote, local), tool, command) && RunsCommand(tool) { CommandsNeverWiden(remote, local, command.value); }
  }

  /** What the file on the machine says by itself. */
  ghost predicate Respects(local: Local, tool: ToolName, command: Option<string>) {
    && (local.tools.Some? ==> tool in local.tools.value)
    && (local.mode == Some(ReadOnly) ==> ReadOnlyTool(tool))
    && (RunsCommand(tool) ==>
          && command.Some?
          && (local.deny.Some? ==> !MatchesAny(local.deny.value, Tokenize(command.value)))
          && (local.mode == Some(AllowList) && local.allow.Some? ==> MatchesAny(local.allow.value, Tokenize(command.value))))
  }

  /** The file refuses shell syntax, wherever commands are read. */
  predicate RespectsShell(local: Local, policy: Policy, tool: ToolName, command: Option<string>) {
    local.shell == Some(false) && Readable(policy) && RunsCommand(tool) && command.Some? ==> Plain(command.value)
  }

  /** The file's tool list, deny rules, read-only mode, allow list and shell switch all hold of what the narrowed policy allows. */
  lemma NarrowingRespectsTheFile(remote: Policy, local: Local, tool: ToolName, command: Option<string>)
    requires Allows(Narrow(remote, local), tool, command)
    ensures Respects(local, tool, command) && RespectsShell(local, Narrow(remote, local), tool, command)
  {
    NarrowDenies(remote, local);
  }

  /** An allow list counts exactly when the file also asks for one: otherwise it is as if it were not there. */
  lemma AnAllowListNeedsItsMode(remote: Policy, local: Local)
    requires local.mode != Some(AllowList)
    ensures Narrow(remote, local) == Narrow(remote, local.(allow := None))
  {
  }

  lemma TokenizeSamples()
    ensures Tokenize("rm x") == ["rm", "x"] && Tokenize("git") == ["git"]
  {
    TokenizeWord("git", "");
    TokenizeWord("rm", " x");
    TokenizeWord("x", "");
    assert "git" + "" == "git" && "x" + "" == "x" && "rm" + " x" == "rm x";
    assert " x"[1..] == "x";
  }

  /** A word before a space or the end is the first token. */
  lemma TokenizeWord(word: string, rest: string)
    requires word != "" && (forall i :: 0 <= i < |word| ==> !Space(word[i])) && (rest == "" || Space(rest[0]))
    ensures Tokenize(word + rest) == [word] + Tokenize(rest)
  {
    WordOf(word, rest);
  }

  lemma {:induction false} WordOf(word: string, rest: string)
    requires (forall i :: 0 <= i < |word| ==> !Space(word[i])) && (rest == "" || Space(rest[0]))
    ensures Word(word + rest) == word && AfterWord(word + rest) == rest
  {
    if word == "" {
      assert word + rest == rest;
    } else {
      WordOf(word[1..], rest);
      assert (word + rest)[1..] == word[1..] + rest;
    }
  }

  /** A file that lists what may run and does not say `allow_list` leaves everything the account allows. */
  lemma AnAllowListAloneIsIgnored()
    ensures
      var local := Local(None, Some(["git"]), None, None, None, None);
      CommandAllowed(Narrow(OPEN, local), "rm x") && !MatchesAny(["git"], Tokenize("rm x"))
  {
    TokenizeSamples();
  }

  /** Narrowing by the same file again changes nothing. */
  lemma NarrowingTwiceIsOnce(remote: Policy, local: Local)
    ensures Narrow(Narrow(remote, local), local) == Narrow(remote, local)
  {
    var once := Narrow(remote, local);
    if local.deny.Some? {
      AddRulesHas(remote.deny, local.deny.value);
      AddKnown(once.deny, local.deny.value);
    }
    if local.tools.Some? { CommonOfPart(once.tools.value, local.tools.value); }
    if local.allow.Some? { CommonOfPart(once.allow, local.allow.value); }
  }

  lemma {:induction false} AddKnown(deny: seq<string>, rules: seq<string>)
    requires forall r :: r in rules ==> r in deny
    ensures AddRules(deny, rules) == deny
    decreases |rules|
  {
    if rules != [] { AddKnown(deny, rules[1..]); }
  }

  lemma {:induction false} CommonOfPart<T>(items: seq<T>, others: seq<T>)
    ensures (forall x :: x in items ==> x in others) ==> Shared(items, others) == items
  {
    if items != [] { CommonOfPart(items[1..], others); }
  }

  /** A chain of files, each narrowing what the last one left. */
  function NarrowAll(remote: Policy, locals: seq<Local>): Policy
    decreases |locals|
  {
    if locals == [] then remote else NarrowAll(Narrow(remote, locals[0]), locals[1..])
  }

  /** Along any chain nothing is given back: what is allowed at its end the account allows, and every file of it does. */
  lemma {:induction false} ChainsOnlyNarrow(remote: Policy, locals: seq<Local>, tool: ToolName, command: Option<string>)
    requires Allows(NarrowAll(remote, locals), tool, command)
    ensures Allows(remote, tool, command)
    ensures forall i :: 0 <= i < |locals| ==> Respects(locals[i], tool, command)
    decreases |locals|
  {
    if locals != [] {
      ChainsOnlyNarrow(Narrow(remote, locals[0]), locals[1..], tool, command);
      NarrowingNeverWidens(remote, locals[0], tool, command, None);
      NarrowingRespectsTheFile(remote, locals[0], tool, command);
      forall i | 0 <= i < |locals| ensures Respects(locals[i], tool, command) {
        if i > 0 { assert locals[i] == locals[1..][i - 1]; }
      }
    }
  }

  /**
   * The rest along a chain: a tool of another server may be called exactly when the
   * account and every file let it be, and calls are confirmed exactly when the
   * account or one of the files asks for it.
   */
  lemma {:induction false} ChainsKeepTheRest(remote: Policy, locals: seq<Local>, hint: Option<bool>)
    ensures McpAllows(NarrowAll(remote, locals), hint) <==>
      McpAllows(remote, hint) && forall i :: 0 <= i < |locals| && locals[i].mode == Some(ReadOnly) ==> hint == Some(true)
    ensures NarrowAll(remote, locals).approve <==> remote.approve || exists i :: 0 <= i < |locals| && locals[i].approve == Some(true)
    decreases |locals|
  {
    if locals != [] {
      var first, rest := locals[0], locals[1..];
      ChainsKeepTheRest(Narrow(remote, first), rest, hint);
      assert forall i :: 0 <= i < |rest| ==> rest[i] == locals[i + 1];
      assert McpAllows(Narrow(remote, first), hint) <==> McpAllows(remote, hint) && (first.mode == Some(ReadOnly) ==> hint == Some(true));
      assert (exists i :: 0 <= i < |locals| && locals[i].approve == Some(true))
        <==> first.approve == Some(true) || exists i :: 0 <= i < |rest| && rest[i].approve == Some(true) by {
        forall i | 0 < i < |locals| && locals[i].approve == Some(true) ensures rest[i - 1].approve == Some(true) {
        }
      }
    }
  }

  /** Once commands are read, they are read to the end of a chain that still lets one run. */
  lemma {:induction false} StaysReadable(remote: Policy, locals: seq<Local>)
    requires Readable(remote)
    ensures Readable(NarrowAll(remote, locals)) || NarrowAll(remote, locals).mode == ReadOnly
    decreases |locals|
  {
    if locals != [] {
      NarrowDenies(remote, locals[0]);
      if Readable(Narrow(remote, locals[0])) { StaysReadable(Narrow(remote, locals[0]), locals[1..]); }
      else { StaysReadOnly(Narrow(remote, locals[0]), locals[1..]); }
    }
  }

  lemma {:induction false} StaysReadOnly(remote: Policy, locals: seq<Local>)
    requires remote.mode == ReadOnly
    ensures NarrowAll(remote, locals).mode == ReadOnly
    decreases |locals|
  {
    if locals != [] { StaysReadOnly(Narrow(remote, locals[0]), locals[1..]); }
  }

  lemma {:induction false} ShellAlongChains(remote: Policy, locals: seq<Local>)
    ensures NarrowAll(remote, locals).shell <==> remote.shell && forall i :: 0 <= i < |locals| ==> locals[i].shell != Some(false)
    decreases |locals|
  {
    if locals != [] {
      ShellAlongChains(Narrow(remote, locals[0]), locals[1..]);
      assert forall i :: 0 <= i < |locals[1..]| ==> locals[1..][i] == locals[i + 1];
      assert (forall i :: 0 <= i < |locals| ==> locals[i].shell != Some(false))
        <==> locals[0].shell != Some(false) && forall i :: 0 <= i < |locals[1..]| ==> locals[1..][i].shell != Some(false) by {
        forall i | 0 < i < |locals| ensures locals[i] == locals[1..][i - 1] { }
      }
    }
  }

  /**
   * Along any chain shell syntax stays refused: a command allowed at its end is plain if
   * the account or any file of it refuses shell syntax and the account, or what any part
   * of the chain left, reads commands.
   */
  lemma ChainsKeepTheShell(remote: Policy, locals: seq<Local>, tool: ToolName, command: Option<string>, k: nat)
    requires Allows(NarrowAll(remote, locals), tool, command) && RunsCommand(tool)
    requires k <= |locals| && Readable(NarrowAll(remote, locals[..k]))
    requires !remote.shell || exists i :: 0 <= i < |locals| && locals[i].shell == Some(false)
    ensures Plain(command.value)
  {
    ShellAlongChains(remote, locals);
    ChainsSplit(remote, locals, k);
    StaysReadable(NarrowAll(remote, locals[..k]), locals[k..]);
  }

  lemma {:induction false} ChainsSplit(remote: Policy, locals: seq<Local>, k: nat)
    requires k <= |locals|
    ensures NarrowAll(remote, locals) == NarrowAll(NarrowAll(remote, locals[..k]), locals[k..])
    decreases |locals|
  {
    if k == 0 {
      assert locals[0..] == locals;
    } else {
      ChainsSplit(Narrow(remote, locals[0]), locals[1..], k - 1);
      assert locals[..k][0] == locals[0] && locals[..k][1..] == locals[1..][..k - 1] && locals[k..] == locals[1..][k - 1..];
    }
  }

  /** Whatever became of the file, nothing is allowed that the account does not allow; an unreadable one leaves exactly its reading tools. */
  lemma NoFileWidens(remote: Option<Policy>, file: File, tool: ToolName, command: Option<string>, hint: Option<bool>)
    ensures
      var account := if remote.Some? then remote.value else OPEN;
      && (McpAllows(Effective(remote, file), hint) ==> McpAllows(account, hint))
      && (account.approve ==> Effective(remote, file).approve)
      && (file.Unreadable? || file.Malformed? ==> (McpAllows(Effective(remote, file), hint) <==> hint == Some(true)))
      && (Allows(Effective(remote, file), tool, command) ==> Allows(account, tool, command))
      && (file.Unreadable? || file.Malformed? ==>
            (Allows(Effective(remote, file), tool, command) <==> ReadOnlyTool(tool) && (account.tools.Some? ==> tool in account.tools.value)))
  {
    if file.Parsed? {
      NarrowingNeverWidens(if remote.Some? then remote.value else OPEN, file.local, tool, command, hint);
    }
  }

  // ------------------------------------------------------------------ what is allowed

  predicate Lists(remote: Policy, locals: seq<Local>) {
    remote.mode == AllowList || exists i :: 0 <= i < |locals| && locals[i].mode == Some(AllowList)
  }

  predicate OnlyReads(remote: Policy, locals: seq<Local>) {
    remote.mode == ReadOnly || exists i :: 0 <= i < |locals| && locals[i].mode == Some(ReadOnly)
  }

  predicate Offers(remote: Policy, locals: seq<Local>, tool: ToolName) {
    && (remote.tools.Some? ==> tool in remote.tools.value)
    && forall i :: 0 <= i < |locals| && locals[i].tools.Some? ==> tool in locals[i].tools.value
  }

  predicate HasDenials(remote: Policy, locals: seq<Local>) {
    remote.deny != [] || exists i :: 0 <= i < |locals| && locals[i].deny.Some? && locals[i].deny.value != []
  }

  predicate RefusesShell(remote: Policy, locals: seq<Local>) {
    !remote.shell || exists i :: 0 <= i < |locals| && locals[i].shell == Some(false)
  }

  predicate Denies(remote: Policy, locals: seq<Local>, rule: string) {
    rule in remote.deny || exists i :: 0 <= i < |locals| && locals[i].deny.Some? && rule in locals[i].deny.value
  }

  /** The first to ask for an allow list states one. */
  predicate StatesAList(remote: Policy, locals: seq<Local>) {
    remote.mode == AllowList
    || exists k :: 0 <= k < |locals| && locals[k].mode == Some(AllowList) && locals[k].allow.Some?
                   && forall j :: 0 <= j < k ==> locals[j].mode != Some(AllowList)
  }

  /** A rule that is on every list that is in force. */
  predicate Permits(remote: Policy, locals: seq<Local>, rule: string) {
    && (remote.mode == AllowList ==> rule in remote.allow)
    && (forall i :: 0 <= i < |locals| && locals[i].mode == Some(AllowList) && locals[i].allow.Some? ==> rule in locals[i].allow.value)
  }

  /** What the account and its files let a command do, from their own fields. */
  ghost predicate MayRun(remote: Policy, locals: seq<Local>, command: string) {
    var words := Tokenize(command);
    && words != [] && !OnlyReads(remote, locals)
    && ((Lists(remote, locals) || HasDenials(remote, locals)) && RefusesShell(remote, locals) ==> Plain(command))
    && (forall rule :: Denies(remote, locals, rule) ==> !MatchesRule(rule, words))
    && (Lists(remote, locals) ==>
          StatesAList(remote, locals) && exists rule :: Permits(remote, locals, rule) && MatchesRule(rule, words))
  }

  ghost predicate MayUse(remote: Policy, locals: seq<Local>, tool: ToolName, command: Option<string>) {
    && Offers(remote, locals, tool) && (ReadOnlyTool(tool) || !OnlyReads(remote, locals))
    && (RunsCommand(tool) ==> command.Some? && MayRun(remote, locals, command.value))
  }

  // Each of these conditions, of what the first file left and of the account with that file.

  lemma ModesFold(remote: Policy, locals: seq<Local>)
    requires locals != []
    ensures OnlyReads(Narrow(remote, locals[0]), locals[1..]) <==> OnlyReads(remote, locals)
    ensures !OnlyReads(remote, locals) ==> (Lists(Narrow(remote, locals[0]), locals[1..]) <==> Lists(remote, locals))
  {
    assert forall i :: 0 <= i < |locals[1..]| ==> locals[1..][i] == locals[i + 1];
    assert forall i :: 0 < i < |locals| ==> locals[i] == locals[1..][i - 1];
  }

  lemma ToolsFold(remote: Policy, locals: seq<Local>, tool: ToolName)
    requires locals != []
    ensures Offers(Narrow(remote, locals[0]), locals[1..], tool) <==> Offers(remote, locals, tool)
  {
    assert forall i :: 0 <= i < |locals[1..]| ==> locals[1..][i] == locals[i + 1];
    assert forall i :: 0 < i < |locals| ==> locals[i] == locals[1..][i - 1];
  }

  lemma ShellFolds(remote: Policy, locals: seq<Local>)
    requires locals != []
    ensures RefusesShell(Narrow(remote, locals[0]), locals[1..]) <==> RefusesShell(remote, locals)
  {
    assert forall i :: 0 <= i < |locals[1..]| ==> locals[1..][i] == locals[i + 1];
    assert forall i :: 0 < i < |locals| ==> locals[i] == locals[1..][i - 1];
  }

  lemma DenialsFold(remote: Policy, locals: seq<Local>, rule: string)
    requires locals != []
    ensures Denies(Narrow(remote, locals[0]), locals[1..], rule) <==> Denies(remote, locals, rule)
  {
    NarrowDenies(remote, locals[0]);
    assert forall i :: 0 <= i < |locals[1..]| ==> locals[1..][i] == locals[i + 1];
    assert forall i :: 0 < i < |locals| ==> locals[i] == locals[1..][i - 1];
  }

  lemma HasDenialsFolds(remote: Policy, locals: seq<Local>)
    requires locals != []
    ensures HasDenials(Narrow(remote, locals[0]), locals[1..]) <==> HasDenials(remote, locals)
  {
    var first, left := locals[0], Narrow(remote, locals[0]).deny;
    NarrowDenies(remote, first);
    assert left != [] <==> remote.deny != [] || (first.deny.Some? && first.deny.value != []) by {
      if left != [] { assert left[0] in left; }
      if first.deny.Some? && first.deny.value != [] { assert first.deny.value[0] in left; }
    }
    assert forall i :: 0 <= i < |locals[1..]| ==> locals[1..][i] == locals[i + 1];
    assert forall i :: 0 < i < |locals| ==> locals[i] == locals[1..][i - 1];
  }

  lemma StatedFolds(remote: Policy, locals: seq<Local>, rule: string)
    requires locals != [] && !OnlyReads(remote, locals)
    ensures StatesAList(Narrow(remote, locals[0]), locals[1..]) && Permits(Narrow(remote, locals[0]), locals[1..], rule)
      <==> StatesAList(remote, locals) && Permits(remote, locals, rule)
  {
    var first, rest, left := locals[0], locals[1..], Narrow(remote, locals[0]);
    assert first.mode != Some(ReadOnly) && remote.mode != ReadOnly;
    assert forall i :: 0 <= i < |rest| ==> rest[i] == locals[i + 1];
    assert forall i :: 0 < i < |locals| ==> locals[i] == rest[i - 1];
    if remote.mode != AllowList && first.mode != Some(AllowList) {
      StatedLater(remote, left, locals);
    } else if remote.mode != AllowList && first.allow.None? {
      assert left.allow == [];
      assert !StatesAList(remote, locals) by { assert locals[0].mode == Some(AllowList); }
    }
  }

  lemma StatedLater(remote: Policy, left: Policy, locals: seq<Local>)
    requires locals != [] && remote.mode != AllowList && left.mode != AllowList && locals[0].mode != Some(AllowList)
    ensures StatesAList(left, locals[1..]) <==> StatesAList(remote, locals)
  {
    var rest := locals[1..];
    if StatesAList(left, rest) {
      var k :| 0 <= k < |rest| && rest[k].mode == Some(AllowList) && rest[k].allow.Some? && forall j :: 0 <= j < k ==> rest[j].mode != Some(AllowList);
      forall j | 0 <= j < k + 1 ensures locals[j].mode != Some(AllowList) { if j > 0 { assert rest[j - 1] == locals[j]; } }
      assert locals[k + 1] == rest[k];
    }
    if StatesAList(remote, locals) {
      var k :| 0 <= k < |locals| && locals[k].mode == Some(AllowList) && locals[k].allow.Some? && forall j :: 0 <= j < k ==> locals[j].mode != Some(AllowList);
      assert k > 0 && rest[k - 1] == locals[k];
      forall j | 0 <= j < k - 1 ensures rest[j].mode != Some(AllowList) { assert rest[j] == locals[j + 1]; }
    }
  }

  lemma RunningFolds(remote: Policy, locals: seq<Local>, command: string)
    requires locals != []
    ensures MayRun(Narrow(remote, locals[0]), locals[1..], command) <==> MayRun(remote, locals, command)
  {
    ModesFold(remote, locals);
    if !OnlyReads(remote, locals) {
      ShellFolds(remote, locals);
      HasDenialsFolds(remote, locals);
      forall rule ensures Denies(Narrow(remote, locals[0]), locals[1..], rule) <==> Denies(remote, locals, rule) { DenialsFold(remote, locals, rule); }
      ListsFold(remote, locals, command);
    }
  }

  lemma ListsFold(remote: Policy, locals: seq<Local>, command: string)
    requires locals != [] && !OnlyReads(remote, locals)
    ensures
      var left, rest, words := Narrow(remote, locals[0]), locals[1..], Tokenize(command);
      (StatesAList(left, rest) && exists rule :: Permits(left, rest, rule) && MatchesRule(rule, words))
      <==> (StatesAList(remote, locals) && exists rule :: Permits(remote, locals, rule) && MatchesRule(rule, words))
  {
    var left, rest, words := Narrow(remote, locals[0]), locals[1..], Tokenize(command);
    if StatesAList(left, rest) && exists rule :: Permits(left, rest, rule) && MatchesRule(rule, words) {
      var rule :| Permits(left, rest, rule) && MatchesRule(rule, words);
      StatedFolds(remote, locals, rule);
    }
    if StatesAList(remote, locals) && exists rule :: Permits(remote, locals, rule) && MatchesRule(rule, words) {
      var rule :| Permits(remote, locals, rule) && MatchesRule(rule, words);
      StatedFolds(remote, locals, rule);
    }
  }

  /**
   * What any chain of files leaves is exact: a tool may be used at its end exactly when
   * the account and every file offer it, none keeps it to reading, and a command it runs
   * is on no deny list, on every allow list that is in force, and plain where commands
   * are read and somebody refuses shell syntax.
   */
  lemma {:induction false} ChainsAreExact(remote: Policy, locals: seq<Local>, tool: ToolName, command: Option<string>)
    ensures Allows(NarrowAll(remote, locals), tool, command) <==> MayUse(remote, locals, tool, command)
    decreases |locals|
  {
    if locals == [] {
      AccountIsExact(remote, tool, command);
    } else {
      ChainsAreExact(Narrow(remote, locals[0]), locals[1..], tool, command);
      ToolsFold(remote, locals, tool);
      ModesFold(remote, locals);
      if command.Some? { RunningFolds(remote, locals, command.value); }
    }
  }

  lemma AccountIsExact(remote: Policy, tool: ToolName, command: Option<string>)
    ensures Allows(remote, tool, command) <==> MayUse(remote, [], tool, command)
  {
    if command.Some? {
      assert forall rule :: Denies(remote, [], rule) <==> rule in remote.deny;
      assert remote.mode == AllowList ==> forall rule :: Permits(remote, [], rule) <==> rule in remote.allow;
    }
  }

  /**
   * One file, field by field: what the narrowed policy allows is exactly what the account
   * and the file allow together.
   */
  lemma NarrowingIsExact(remote: Policy, local: Local, tool: ToolName, command: Option<string>)
    ensures
      Allows(Narrow(remote, local), tool, command) <==>
      && (remote.tools.Some? ==> tool in remote.tools.value) && (local.tools.Some? ==> tool in local.tools.value)
      && (ReadOnlyTool(tool) || (remote.mode != ReadOnly && local.mode != Some(ReadOnly)))
      && (RunsCommand(tool) ==> command.Some? && RunsUnder(remote, local, command.value))
  {
    ChainsAreExact(remote, [local], tool, command);
    assert NarrowAll(remote, [local]) == Narrow(remote, local) by {
      assert [local][1..] == [];
      assert NarrowAll(Narrow(remote, local), []) == Narrow(remote, local);
    }
    if command.Some? { OneFileRuns(remote, local, command.value); }
    assert [local][0] == local;
  }

  /** No file at all leaves exactly the account, or everything where the account has no policy. */
  lemma NoFileChangesNothing(remote: Option<Policy>, tool: ToolName, command: Option<string>, hint: Option<bool>)
    ensures
      var account := if remote.Some? then remote.value else Policy(AllowAll, [], [], false, false, None);
      && (Allows(Effective(remote, Missing), tool, command) <==> MayUse(account, [], tool, command))
      && (McpAllows(Effective(remote, Missing), hint) <==> account.mode != ReadOnly || hint == Some(true))
      && (Effective(remote, Missing).approve <==> account.approve)
  {
    AccountIsExact(if remote.Some? then remote.value else OPEN, tool, command);
  }

  /** Whether a command runs under an account and a file. */
  ghost predicate RunsUnder(remote: Policy, local: Local, command: string) {
    var words := Tokenize(command);
    var listed := remote.mode == AllowList || local.mode == Some(AllowList);
    var denials := remote.deny != [] || (local.deny.Some? && local.deny.value != []);
    && words != [] && remote.mode != ReadOnly && local.mode != Some(ReadOnly)
    && ((listed || denials) && (!remote.shell || local.shell == Some(false)) ==> Plain(command))
    && (forall rule :: rule in remote.deny ==> !MatchesRule(rule, words))
    && (local.deny.Some? ==> forall rule :: rule in local.deny.value ==> !MatchesRule(rule, words))
    && (listed ==>
          && (remote.mode == AllowList || local.allow.Some?)
          && exists rule :: MatchesRule(rule, words) && (remote.mode == AllowList ==> rule in remote.allow)
                            && (local.mode == Some(AllowList) && local.allow.Some? ==> rule in local.allow.value))
  }

  lemma OneFileRuns(remote: Policy, local: Local, command: string)
    ensures MayRun(remote, [local], command) <==> RunsUnder(remote, local, command)
  {
    var one := [local];
    assert one[0] == local;
    assert forall rule :: Denies(remote, one, rule) <==> rule in remote.deny || (local.deny.Some? && rule in local.deny.value);
    assert forall rule :: Permits(remote, one, rule) <==>
      (remote.mode == AllowList ==> rule in remote.allow) && (local.mode == Some(AllowList) && local.allow.Some? ==> rule in local.allow.value);
  }

  // ------------------------------------------------------------------------- rules

  /**
   * What a rule matches, by its words: nothing if it has none; any call of a program it
   * names alone; any command that begins with what stands before a trailing star; and
   * else only the command that is the same word for word.
   */
  lemma RulesMean(rule: string, words: seq<string>)
    ensures
      var parts := Tokenize(rule);
      MatchesRule(rule, words) <==>
      if parts == [] then false
      else if parts[|parts| - 1] == "*" then parts[..|parts| - 1] <= words
      else if |parts| == 1 then words != [] && words[0] == parts[0]
      else words == parts
  {
    var parts := Tokenize(rule);
    if parts != [] && parts[|parts| - 1] != "*" && |words| == |parts| { assert words[..|parts|] == words; }
  }

  predicate Proper(word: string) {
    word != "" && forall i :: 0 <= i < |word| ==> !Space(word[i])
  }

  function Joined(words: seq<string>): string {
    if words == [] then "" else if |words| == 1 then words[0] else words[0] + " " + Joined(words[1..])
  }

  /** Words joined by spaces are those words again. */
  lemma {:induction false} WordsComeBack(words: seq<string>)
    requires forall w :: w in words ==> Proper(w)
    ensures Tokenize(Joined(words)) == words
  {
    if |words| == 1 {
      assert words[0] in words;
      TokenizeWord(words[0], "");
      assert words[0] + "" == words[0] && [words[0]] + [] == words;
    } else if words != [] {
      assert words[0] in words;
      var rest := " " + Joined(words[1..]);
      assert words[0] + rest == Joined(words);
      assert rest[1..] == Joined(words[1..]);
      TokenizeWord(words[0], rest);
      WordsComeBack(words[1..]);
    }
  }

  lemma {:induction false} WordIsProper(text: string)
    requires text != "" && !Space(text[0])
    ensures Proper(Word(text))
  {
    if |text| > 1 && !Space(text[1]) {
      WordIsProper(text[1..]);
      assert forall i :: 0 < i < |Word(text)| ==> Word(text)[i] == Word(text[1..])[i - 1];
    }
  }

  /** And whatever a text says, its words are proper. */
  lemma {:induction false} WordsAreProper(text: string)
    ensures forall w :: w in Tokenize(text) ==> Proper(w)
    decreases |text|
  {
    if text != "" {
      if Space(text[0]) {
        WordsAreProper(text[1..]);
      } else {
        WordIsProper(text);
        WordsAreProper(AfterWord(text));
      }
    }
  }

  // --------------------------------------------------------------------- the code

  /** `narrow_policy`, with its loop over the file's deny rules and its filters. */
  method NarrowPolicy(remote: Policy, local: Local) returns (policy: Policy)
    ensures policy == Narrow(remote, local)
  {
    var mode := if local.mode.Some? then Stricter(remote.mode, local.mode.value) else remote.mode;
    var deny := remote.deny;
    var rules := if local.deny.Some? then local.deny.value else [];
    assert rules[0..] == rules;
    for i := 0 to |rules|
      invariant AddRules(deny, rules[i..]) == AddRules(remote.deny, rules)
    {
      assert rules[i..][1..] == rules[i + 1..];
      if rules[i] !in deny { deny := deny + [rules[i]]; }
    }
    var tools := remote.tools;
    if local.tools.Some? {
      if remote.tools.None? {
        tools := local.tools;
      } else {
        var kept := Intersect(remote.tools.value, local.tools.value);
        tools := Some(kept);
      }
    }
    var allow := [];
    if mode == AllowList {
      var lists: seq<seq<string>> := [];
      if remote.mode == AllowList { lists := lists + [remote.allow]; }
      if local.mode == Some(AllowList) && local.allow.Some? { lists := lists + [local.allow.value]; }
      if |lists| == 1 { allow := lists[0]; }
      if |lists| == 2 { allow := Intersect(lists[0], lists[1]); }
    }
    policy := Policy(mode, allow, deny, remote.shell && (local.shell.None? || local.shell.value),
                     remote.approve || local.approve == Some(true), tools);
  }

  method Intersect<T(==)>(items: seq<T>, others: seq<T>) returns (kept: seq<T>)
    ensures kept == Shared(items, others)
  {
    kept := [];
    assert items[0..] == items;
    for i := 0 to |items|
      invariant kept + Shared(items[i..], others) == Shared(items, others)
    {
      assert items[i..][1..] == items[i + 1..];
      if items[i] in others { kept := kept + [items[i]]; }
    }
  }
}
