/** The terminal command agent: a safety validator for shell command lines,
    a planner that turns a request and its execution context into a command,
    and the agent that combines them into one structured reply. */
module Terminal {
  import opened Base
  import opened Text

  /* ---------------- context ---------------- */

  /** The context properties the planner reads, defaults applied. */
  datatype Context = Context(
    osKind: string,
    execution: string,
    host: Option<string>,
    user: Option<string>,
    container: Option<string>,
    port: int,
    venv: Option<string>,
    language: Option<string>,
    framework: Option<string>,
    securityPolicy: string,
    cloudProvider: Option<string>,
    cloudProfile: Option<string>,
    cloudRegion: Option<string>,
    database: Option<string>,
    dbUser: Option<string>,
    dbType: Option<string>,
    dbHost: Option<string>)

  /** `d.get(k, default)` */
  function GetOr(d: Dict<string>, k: string, default: string): (r: string)
    ensures HasKey(d, k) ==> Get(d, k) == Some(r)
    ensures !HasKey(d, k) ==> r == default
  {
    match Get(d, k)
    case Some(v) => v
    case None => default
  }

  /** `o or default` for an optional string. */
  function OrElse(o: Option<string>, default: string): (r: string)
    ensures r == default || Some(r) == o
  {
    if Filled(o) then o.value else default
  }

  /** The properties of a context built from its settings `data`; `port` is
      the port setting when there is one and `system` the name of the
      operating system the agent runs on. */
  function ContextOf(data: Dict<string>, port: Option<int>, system: string): (c: Context)
    ensures Filled(Get(data, "os")) ==> Get(data, "os") == Some(c.osKind)
    ensures !Filled(Get(data, "os")) && !Filled(Get(data, "os_kind")) ==> c.osKind == system
    ensures !HasKey(data, "execution") ==> c.execution == "local"
    ensures port.None? ==> c.port == 22
    ensures !HasKey(data, "security_policy") ==> c.securityPolicy == "standard"
    ensures !HasKey(data, "db_host") ==> c.dbHost == Some("localhost")
  {
    Context(
      osKind := OrElse(Get(data, "os"), OrElse(Get(data, "os_kind"), system)),
      execution := GetOr(data, "execution", "local"),
      host := Get(data, "host"),
      user := Get(data, "user"),
      container := Get(data, "container"),
      port := match port case Some(p) => p case None => 22,
      venv := Get(data, "venv"),
      language := Get(data, "language"),
      framework := Get(data, "framework"),
      securityPolicy := GetOr(data, "security_policy", "standard"),
      cloudProvider := Get(data, "cloud_provider"),
      cloudProfile := Get(data, "cloud_profile"),
      cloudRegion := Get(data, "cloud_region"),
      database := Get(data, "database"),
      dbUser := Get(data, "db_user"),
      dbType := Get(data, "db_type"),
      dbHost := Some(GetOr(data, "db_host", "localhost")))
  }

  /* ---------------- the safety validator ---------------- */

  const Allowlist: seq<string> :=
    ["ls", "pwd", "echo", "cat", "grep", "find", "head", "tail", "wc", "mkdir",
     "touch", "cp", "mv", "dir", "cd", "type", "findstr"]

  /** The blocked meta characters: chaining, redirection, expansion and
      globbing. */
  predicate IsMeta(c: char) {
    c == ';' || c == '&' || c == '|' || c == '`' || c == '$' || c == '(' || c == ')' || c == '>'
    || c == '<' || c == '*' || c == '?' || c == '[' || c == ']' || c == '{' || c == '}'
  }

  const RestrictedPaths: seq<string> :=
    ["/etc", "/bin", "/usr", "/root", "/boot", "/proc", "/sys", "/dev"]

  predicate HasMeta(s: string) {
    exists i | 0 <= i < |s| :: IsMeta(s[i])
  }

  /** Scans for a meta character from `i` on. */
  function MetaFrom(s: string, i: nat): bool
    requires i <= |s|
    decreases |s| - i
  {
    i < |s| && (IsMeta(s[i]) || MetaFrom(s, i + 1))
  }

  lemma {:induction false} MetaFromIff(s: string, i: nat)
    requires i <= |s|
    ensures MetaFrom(s, i) <==> exists j | i <= j < |s| :: IsMeta(s[j])
    decreases |s| - i
  {
    if i < |s| {
      MetaFromIff(s, i + 1);
    }
  }

  /** `a\s+b` matches at `i`. Since `b` starts with a character that is not
      whitespace, the whole run of whitespace after `a` is the only one the
      match can use. */
  predicate GapAt(s: string, i: nat, a: string, b: string) {
    StartsAt(s, i, a)
    && var j := i + |a|;
       RunLen(s, j, IsSpace) > 0 && StartsAt(s, j + RunLen(s, j, IsSpace), b)
  }

  /** The fork bomb pattern `:\(\)\{\s+:\|:&\s+\};:` matches at `i`. */
  predicate ForkBombAt(s: string, i: nat) {
    StartsAt(s, i, ":(){")
    && var j := i + 4;
       RunLen(s, j, IsSpace) > 0
       && var k := j + RunLen(s, j, IsSpace);
          StartsAt(s, k, ":|:&")
          && var m := k + 4;
             RunLen(s, m, IsSpace) > 0 && StartsAt(s, m + RunLen(s, m, IsSpace), "};:")
  }

  /** One of the blacklist patterns matches at `i`. */
  predicate BlacklistAt(s: string, i: nat) {
    GapAt(s, i, "rm", "-rf") || StartsAt(s, i, "shutdown") || StartsAt(s, i, "reboot")
    || StartsAt(s, i, "mkfs") || StartsAt(s, i, "dd") || ForkBombAt(s, i)
    || StartsAt(s, i, "sudo") || GapAt(s, i, "chmod", "777") || StartsAt(s, i, "chown")
    || StartsAt(s, i, "systemctl") || StartsAt(s, i, "service") || GapAt(s, i, "history", "-c")
  }

  /** Scans for a blacklist match from `i` on. */
  function BlacklistFrom(s: string, i: nat): bool
    requires i <= |s|
    decreases |s| - i
  {
    BlacklistAt(s, i) || (i < |s| && BlacklistFrom(s, i + 1))
  }

  lemma {:induction false} BlacklistFromIff(s: string, i: nat)
    requires i <= |s|
    ensures BlacklistFrom(s, i) <==> exists j | i <= j <= |s| :: BlacklistAt(s, j)
    decreases |s| - i
  {
    if i < |s| {
      BlacklistFromIff(s, i + 1);
    }
  }

  /** Some blacklist pattern matches somewhere, ignoring case. */
  predicate Blacklisted(cmd: string) {
    exists j | 0 <= j <= |cmd| :: BlacklistAt(Lower(cmd), j)
  }

  /** `^[a-zA-Z]:` */
  predicate DriveLetter(t: string) {
    |t| >= 2 && IsAlpha(t[0]) && t[1] == ':'
  }

  predicate Absolute(t: string) {
    (|t| > 0 && t[0] == '/') || DriveLetter(t)
  }

  /** The path is one of the restricted system paths or lies under one. */
  predicate UnderRestricted(t: string) {
    exists k | 0 <= k < |RestrictedPaths| ::
      t == RestrictedPaths[k] || StartsWith(t, RestrictedPaths[k] + "/")
  }

  /** A token climbs no directory and, with backslashes read as slashes,
      names no restricted system path. */
  predicate TokenAllowed(token: string) {
    !Contains(token, "..")
    && var norm := ReplaceChar(token, '\\', '/');
       !(Absolute(norm) && UnderRestricted(norm))
  }

  predicate TokensAllowed(tokens: seq<string>) {
    forall k | 0 <= k < |tokens| :: TokenAllowed(tokens[k])
  }

  /** Checks the tokens one by one. */
  function AllAllowed(tokens: seq<string>): bool {
    tokens == [] || (TokenAllowed(tokens[0]) && AllAllowed(tokens[1..]))
  }

  lemma {:induction false} AllAllowedIff(tokens: seq<string>)
    ensures AllAllowed(tokens) <==> TokensAllowed(tokens)
  {
    if tokens != [] {
      AllAllowedIff(tokens[1..]);
      assert forall k | 1 <= k < |tokens| :: tokens[1..][k - 1] == tokens[k];
    }
  }

  /** `SafetyValidator.is_safe`: the checks in their order, each able to
      reject. */
  function IsSafe(command: string): bool {
    if command == "" then false
    else
      var cmd := Strip(command);
      if MetaFrom(cmd, 0) then false
      else if BlacklistFrom(Lower(cmd), 0) then false
      else
        var tokens := Split(cmd);
        if tokens == [] then false
        else if !AllAllowed(tokens) then false
        else if tokens[0] !in Allowlist then false
        else if tokens[0] == "cp" && ("-r" in tokens || "-R" in tokens) then false
        else true
  }

  /** What a safe command is, stated on the command as given: it has a word,
      no meta character anywhere, no blacklisted pattern, only allowed
      tokens, an allowlisted program and no recursive copy. */
  predicate Acceptable(command: string) {
    var tokens := Split(Strip(command));
    !NoWord(command)
    && !HasMeta(command)
    && !Blacklisted(Strip(command))
    && TokensAllowed(tokens)
    && tokens != [] && tokens[0] in Allowlist
    && !(tokens[0] == "cp" && ("-r" in tokens || "-R" in tokens))
  }

  /** Stripping neither removes nor adds a meta character. */
  lemma StripHasMeta(s: string)
    ensures HasMeta(Strip(s)) <==> HasMeta(s)
  {
    StripSlice(s);
    var d := |s| - |LStrip(s, IsSpace)|;
    forall j | 0 <= j < |Strip(s)| ensures Strip(s)[j] == s[d + j] {}
    forall i | 0 <= i < |s| && IsMeta(s[i]) ensures HasMeta(Strip(s)) {
      StripKeeps(s, i);
    }
  }

  /** Stripping leaves a word when and only when there is one. */
  lemma StripNoWord(s: string)
    ensures NoWord(Strip(s)) <==> NoWord(s)
  {
    forall i | 0 <= i < |s| && !IsSpace(s[i]) ensures !NoWord(Strip(s)) {
      StripKeeps(s, i);
    }
    if NoWord(s) {
      StripBlank(s);
    }
  }

  lemma IsSafeIff(command: string)
    ensures IsSafe(command) <==> Acceptable(command)
  {
    MetaFromIff(Strip(command), 0);
    BlacklistFromIff(Lower(Strip(command)), 0);
    AllAllowedIff(Split(Strip(command)));
    StripHasMeta(command);
    StripNoWord(command);
    SplitEmpty(Strip(command));
  }

  /** An empty or whitespace-only command is never safe. */
  lemma BlankUnsafe(command: string)
    requires NoWord(command)
    ensures !IsSafe(command)
  {
    IsSafeIff(command);
  }

  /** A meta character anywhere in the command makes it unsafe. */
  lemma MetaUnsafe(command: string, i: nat)
    requires i < |command| && IsMeta(command[i])
    ensures !IsSafe(command)
  {
    IsSafeIff(command);
  }

  /** A token that climbs a directory or names a restricted path makes the
      command unsafe. */
  lemma TokenUnsafe(command: string, k: nat)
    requires k < |Split(Strip(command))|
    requires !TokenAllowed(Split(Strip(command))[k])
    ensures !IsSafe(command)
  {
    AllAllowedIff(Split(Strip(command)));
  }

  /** A safe command runs an allowlisted program and copies nothing
      recursively. */
  lemma SafeAllowlisted(command: string)
    requires IsSafe(command)
    ensures var tokens := Split(Strip(command));
            tokens != [] && tokens[0] in Allowlist
            && (tokens[0] == "cp" ==> "-r" !in tokens && "-R" !in tokens)
  {}

  /** A command whose first word is not allowlisted is unsafe. */
  lemma NotAllowlistedUnsafe(command: string, w: string)
    requires w != [] && NoSpace(w) && w !in Allowlist && StartsWith(command, w)
    requires |command| == |w| || IsSpace(command[|w|])
    ensures !IsSafe(command)
  {
    StripStartsWith(command, w);
    SplitFirst(Strip(command), w);
  }

  /** The fork bomb pattern never decides: it contains `(`, which the meta
      character check rejects first. */
  lemma ForkBombHasMeta(cmd: string, i: nat)
    requires ForkBombAt(Lower(cmd), i)
    ensures HasMeta(cmd)
  {
    var l := Lower(cmd);
    assert l[i..i + 4] == ":(){";
    assert l[i + 1] == '(';
    assert LowerChar(cmd[i + 1]) == '(';
    assert IsMeta(cmd[i + 1]);
  }

  /* ---------------- extracting names ---------------- */

  predicate NameRun(t: string, span: (nat, nat)) {
    span.0 < span.1 <= |t| && forall j | span.0 <= j < span.1 :: IsNameChar(t[j])
  }

  const Fillers: seq<string> := ["named", "called", "labeled"]

  /** The group of `(?:named|called|labeled)?\s*([\w\.\-]+)` matched at `p`,
      trying the filler words from the `k`-th on before doing without. */
  function FilledRun(t: string, p: nat, k: nat): (r: Option<(nat, nat)>)
    requires p <= |t|
    ensures r.Some? ==> p <= r.value.0 && NameRun(t, r.value)
    decreases |Fillers| - k
  {
    if k >= |Fillers| then
      var n := RunLen(t, p, IsNameChar);
      RunLenFacts(t, p, IsNameChar);
      if n > 0 then Some((p, p + n)) else None
    else if StartsAt(t, p, Fillers[k]) then
      var q := p + |Fillers[k]|;
      var q2 := q + RunLen(t, q, IsSpace);
      var n := RunLen(t, q2, IsNameChar);
      RunLenFacts(t, q2, IsNameChar);
      if n > 0 then Some((q2, q2 + n)) else FilledRun(t, p, k + 1)
    else FilledRun(t, p, k + 1)
  }

  /** The group of `kw\s+(?:named|called|labeled)?\s*([\w\.\-]+)` for a
      match starting at `i`. Backing off the greedy `\s+` gives nothing
      new: a shorter run leaves whitespace where the filler or the name
      must start. */
  function SubjectAt(t: string, i: nat, kw: string): (r: Option<(nat, nat)>)
    requires i <= |t|
    ensures r.Some? ==> NameRun(t, r.value)
  {
    if StartsAt(t, i, kw) && RunLen(t, i + |kw|, IsSpace) > 0 then
      FilledRun(t, i + |kw| + RunLen(t, i + |kw|, IsSpace), 0)
    else None
  }

  /** The leftmost match starting at `i` or later. */
  function SubjectFrom(t: string, kw: string, i: nat): (r: Option<(nat, nat)>)
    requires i <= |t|
    ensures r.Some? ==> NameRun(t, r.value)
    decreases |t| - i
  {
    if SubjectAt(t, i, kw).Some? then SubjectAt(t, i, kw)
    else if i < |t| then SubjectFrom(t, kw, i + 1)
    else None
  }

  /** `ExecutionPlanner._extract_subject`: the name after a keyword. */
  function ExtractSubject(q: string, kw: string): (r: Option<string>)
    ensures r.Some? ==> r.value != [] && NameChars(r.value)
  {
    match SubjectFrom(q, kw, 0)
    case Some(span) => Some(q[span.0..span.1])
    case None => None
  }

  predicate IsTrailing(c: char) {
    c == '?' || c == '!' || c == '.' || c == ','
  }

  /** `re.sub(r"[?!.,]$", "", s)`: `$` matches at the end and just before a
      final line break, and both matches cannot occur together. */
  function DropTrailing(s: string): (r: string)
    ensures |r| <= |s|
  {
    if |s| >= 1 && IsTrailing(s[|s| - 1]) then s[..|s| - 1]
    else if |s| >= 2 && s[|s| - 1] == '\n' && IsTrailing(s[|s| - 2]) then s[..|s| - 2] + "\n"
    else s
  }

  /** `ExecutionPlanner._extract_raw_path`: the last word once one trailing
      punctuation mark is gone. */
  function ExtractRawPath(q: string): (r: Option<string>)
    ensures r.Some? ==> r.value != [] && NoSpace(r.value)
    ensures r.None? <==> NoWord(DropTrailing(q))
  {
    var words := Split(DropTrailing(q));
    SplitEmpty(DropTrailing(q));
    if words == [] then None else Some(words[|words| - 1])
  }

  /** The closing quote `c` for a lazy `.*?` starting at `i`: the first `c`,
      provided no line break comes before it. */
  function CloseFrom(s: string, i: nat, c: char): (r: Option<nat>)
    requires i <= |s|
    ensures r.Some? ==> i <= r.value < |s| && s[r.value] == c
    ensures r.Some? ==> c !in s[i..r.value] && '\n' !in s[i..r.value]
    decreases |s| - i
  {
    if i == |s| then None
    else if s[i] == c then Some(i)
    else if s[i] == '\n' then None
    else CloseFrom(s, i + 1, c)
  }

  datatype Quoted = SingleQuoted(group: string) | DoubleQuoted(group: string)

  /** `'(.*?)'|"(.*?)"` matched at `i`: the first alternative first. */
  function QuoteAt(s: string, i: nat): (r: Option<Quoted>)
    requires i <= |s|
    ensures r.Some? ==> '\n' !in r.value.group
  {
    if i < |s| && s[i] == '\'' && CloseFrom(s, i + 1, '\'').Some? then
      var e := CloseFrom(s, i + 1, '\'').value;
      Some(SingleQuoted(s[i + 1..e]))
    else if i < |s| && s[i] == '"' && CloseFrom(s, i + 1, '"').Some? then
      var e := CloseFrom(s, i + 1, '"').value;
      Some(DoubleQuoted(s[i + 1..e]))
    else None
  }

  /** The leftmost match starting at `i` or later. */
  function QuoteFrom(s: string, i: nat): (r: Option<Quoted>)
    requires i <= |s|
    ensures r.Some? ==> '\n' !in r.value.group
    decreases |s| - i
  {
    if QuoteAt(s, i).Some? then QuoteAt(s, i)
    else if i < |s| then QuoteFrom(s, i + 1)
    else None
  }

  /** The search term: `group(1) or group(2)` of the first quoted text, so an
      empty single-quoted group prints as "None"; "pattern" without one. */
  function SearchTerm(q: string): (r: string)
    ensures '\n' !in r
  {
    match QuoteFrom(q, 0)
    case None => "pattern"
    case Some(SingleQuoted(g)) => if g != "" then g else "None"
    case Some(DoubleQuoted(g)) => g
  }

  /* ---------------- the base command ---------------- */

  /** The first character of a command the planner recognised. */
  predicate Recognisable(s: string) {
    s != [] && IsLower(s[0])
  }

  predicate DjangoRequest(ctx: Context, q: string) {
    ctx.framework == Some("django")
    && (Contains(q, "migrate") || Contains(q, "migration") || Contains(q, "run server")
        || Contains(q, "start server") || Contains(q, "create app"))
  }

  function DjangoCommand(ctx: Context, q: string): (r: string)
    requires DjangoRequest(ctx, q)
    ensures Recognisable(r)
  {
    if Contains(q, "migrate") || Contains(q, "migration") then "python manage.py migrate"
    else if Contains(q, "run server") || Contains(q, "start server") then "python manage.py runserver"
    else
      match ExtractSubject(q, "app")
      case Some(name) => "python manage.py startapp " + name
      case None => "python manage.py startapp myapp"
  }

  predicate DatabaseRequest(ctx: Context, q: string) {
    ctx.dbType == Some("postgres") && (Contains(q, "query") || Contains(q, "select"))
  }

  predicate FileRequest(q: string) {
    (Contains(q, "list") && (Contains(q, "file") || Contains(q, "content")))
    || ContainsAny(q, ["where am i", "current directory", "working directory"])
    || (Contains(q, "create") && (Contains(q, "directory") || Contains(q, "file")))
    || ContainsAny(q, ["read", "show", "view"])
    || Contains(q, "count lines")
    || Contains(q, "search") || Contains(q, "find text")
  }

  function FileCommand(q: string, isWindows: bool): (r: string)
    requires FileRequest(q)
    ensures Recognisable(r)
  {
    if Contains(q, "list") && (Contains(q, "file") || Contains(q, "content")) then
      if isWindows then "dir" else "ls -la"
    else if ContainsAny(q, ["where am i", "current directory", "working directory"]) then
      if isWindows then "cd" else "pwd"
    else if Contains(q, "create") && Contains(q, "directory") then
      match ExtractSubject(q, "directory")
      case Some(name) => "mkdir " + name
      case None => "mkdir new_folder"
    else if Contains(q, "create") && Contains(q, "file") then
      match ExtractSubject(q, "file")
      case Some(name) => (if isWindows then "type nul > " else "touch ") + name
      case None => if isWindows then "type nul > new_file.txt" else "touch new_file.txt"
    else if ContainsAny(q, ["read", "show", "view"]) then
      var cmd := if isWindows then "type" else "cat";
      match ExtractRawPath(q)
      case Some(name) => cmd + " " + name
      case None => cmd + " document.txt"
    else if Contains(q, "count lines") then
      match ExtractRawPath(q)
      case Some(name) => (if isWindows then "find /c /v \"\" " else "wc -l ") + name
      case None => if isWindows then "find /c /v \"\" data.log" else "wc -l data.log"
    else
      var path := match ExtractRawPath(q) case Some(p) => p case None => ".";
      if isWindows then "findstr /s /i " + SearchTerm(q) + " " + path
      else "grep -r " + SearchTerm(q) + " " + path
  }

  predicate PythonRequest(ctx: Context, q: string) {
    ctx.language == Some("python")
    && ((Contains(q, "install") && Contains(q, "package")) || (Contains(q, "run") && Contains(q, "test")))
  }

  function PythonCommand(ctx: Context, q: string): (r: string)
    requires PythonRequest(ctx, q)
    ensures Recognisable(r)
  {
    if Contains(q, "install") && Contains(q, "package") then
      match ExtractSubject(q, "package")
      case Some(pkg) => "pip install " + pkg
      case None => "pip install <package>"
    else "pytest"
  }

  const Clarify := "NEEDS_CLARIFICATION"

  /** The requests the planner has a rule for, in no particular order. */
  predicate Recognised(ctx: Context, q: string) {
    DjangoRequest(ctx, q) || DatabaseRequest(ctx, q) || FileRequest(q)
    || PythonRequest(ctx, q) || StartsWith(q, "run:")
  }

  /** `ExecutionPlanner._generate_base_command` on the lower-cased,
      stripped request: the first rule that applies. */
  function BaseCommand(ctx: Context, q: string, isWindows: bool): string {
    if DjangoRequest(ctx, q) then DjangoCommand(ctx, q)
    else if DatabaseRequest(ctx, q) then "SELECT_QUERY"
    else if FileRequest(q) then FileCommand(q, isWindows)
    else if PythonRequest(ctx, q) then PythonCommand(ctx, q)
    else if StartsWith(q, "run:") then Strip(q[4..])
    else Clarify
  }

  predicate NoUpper(s: string) {
    forall j | 0 <= j < |s| :: !IsUpper(s[j])
  }

  /** The text after "run:" in a lower-case request cannot spell the
      upper-case marker. */
  lemma RunIsNotClarify(q: string)
    requires NoUpper(q) && StartsWith(q, "run:")
    ensures Strip(q[4..]) != Clarify
  {
    var x := q[4..];
    StripSlice(x);
    var d := |x| - |LStrip(x, IsSpace)|;
    assert Clarify[0] == 'N';
    if Strip(x) != [] {
      assert Strip(x)[0] == q[4 + d];
    }
  }

  /** A lower-case request needs clarification exactly when no rule
      recognises it. */
  lemma ClarifyIff(ctx: Context, q: string, isWindows: bool)
    requires NoUpper(q)
    ensures BaseCommand(ctx, q, isWindows) == Clarify <==> !Recognised(ctx, q)
  {
    assert Clarify[0] == 'N';
    if StartsWith(q, "run:") {
      RunIsNotClarify(q);
    }
  }

  /* ---------------- confidence ---------------- */

  const GenericCommands: seq<string> := ["ls -la", "dir", "pwd", "cd"]

  /** The confidence a plan gets: 0.7, raised for a fully described
      execution environment and for a known framework, lowered for a
      generic command. */
  function ConfidenceOf(ctx: Context, base: string): (c: real) {
    var environment :=
      if ctx.execution == "remote" && Filled(ctx.host) && Filled(ctx.user) then 0.15
      else if ctx.execution == "docker" && Filled(ctx.container) then 0.15
      else if ctx.execution == "cloud" && Filled(ctx.cloudProvider) then 0.10
      else 0.0;
    var framework := if Filled(ctx.framework) then 0.10 else 0.0;
    var generic := if base in GenericCommands then 0.05 else 0.0;
    0.7 + environment + framework - generic
  }

  lemma ConfidenceRange(ctx: Context, base: string)
    ensures 0.65 <= ConfidenceOf(ctx, base) <= 0.95
  {}

  /** `ExecutionPlanner._calculate_confidence`; the final clamp to [0, 1]
      never changes the value. */
  method CalculateConfidence(ctx: Context, base: string) returns (c: real)
    ensures c == ConfidenceOf(ctx, base)
    ensures 0.0 <= c <= 1.0
  {
    var confidence := 0.7;
    if ctx.execution != "local" {
      if ctx.execution == "remote" && Filled(ctx.host) && Filled(ctx.user) {
        confidence := confidence + 0.15;
      } else if ctx.execution == "docker" && Filled(ctx.container) {
        confidence := confidence + 0.15;
      } else if ctx.execution == "cloud" && Filled(ctx.cloudProvider) {
        confidence := confidence + 0.10;
      }
    }
    if Filled(ctx.framework) {
      confidence := confidence + 0.10;
    }
    if base in GenericCommands {
      confidence := confidence - 0.05;
    }
    ConfidenceRange(ctx, base);
    c := if confidence > 1.0 then 1.0 else confidence;
    c := if c < 0.0 then 0.0 else c;
  }

  /* ---------------- planning ---------------- */

  const CodeKeywords: seq<string> :=
    ["write code", "create script", "generate function", "write a program",
     "code for", "script for", "function to", "program that"]

  datatype Intent = CodeRequest | NeedsClarification | Execute

  datatype PlanResult = PlanResult(baseCommand: string, intent: Intent, confidence: real)

  /** What `ExecutionPlanner.plan` returns for a request. */
  function PlanOf(ctx: Context, query: string): PlanResult {
    var q := Strip(Lower(query));
    if ContainsAny(q, CodeKeywords) then PlanResult("", CodeRequest, 1.0)
    else
      var base := BaseCommand(ctx, q, Lower(ctx.osKind) == "windows");
      if base == Clarify then PlanResult("", NeedsClarification, 0.0)
      else PlanResult(base, Execute, ConfidenceOf(ctx, base))
  }

  /** `ExecutionPlanner.plan` */
  method Plan(ctx: Context, query: string) returns (p: PlanResult)
    ensures p == PlanOf(ctx, query)
  {
    var q := Strip(Lower(query));
    var isWindows := Lower(ctx.osKind) == "windows";
    if ContainsAny(q, CodeKeywords) {
      return PlanResult("", CodeRequest, 1.0);
    }
    var base := BaseCommand(ctx, q, isWindows);
    if base == Clarify {
      return PlanResult("", NeedsClarification, 0.0);
    }
    var confidence := CalculateConfidence(ctx, base);
    p := PlanResult(base, Execute, confidence);
  }

  /** The request the planner matches against has no upper-case letter. */
  lemma RequestNoUpper(query: string)
    ensures NoUpper(Strip(Lower(query)))
  {
    var l := Lower(query);
    StripSlice(l);
    var d := |l| - |LStrip(l, IsSpace)|;
    forall j | 0 <= j < |Strip(l)| ensures !IsUpper(Strip(l)[j]) {
      assert Strip(l)[j] == l[d + j];
    }
  }

  /** A code keyword anywhere in the request wins over every rule. */
  lemma CodeKeywordWins(ctx: Context, query: string)
    requires ContainsAny(Strip(Lower(query)), CodeKeywords)
    ensures PlanOf(ctx, query) == PlanResult("", CodeRequest, 1.0)
  {}

  /** A request no rule recognises asks for clarification with confidence
      0.0, and only such a request does. */
  lemma UnrecognisedClarifies(ctx: Context, query: string)
    requires !ContainsAny(Strip(Lower(query)), CodeKeywords)
    ensures !Recognised(ctx, Strip(Lower(query)))
            <==> PlanOf(ctx, query) == PlanResult("", NeedsClarification, 0.0)
  {
    RequestNoUpper(query);
    ClarifyIff(ctx, Strip(Lower(query)), Lower(ctx.osKind) == "windows");
  }

  /** A plan to execute carries a confidence between 0.65 and 0.95. */
  lemma ExecuteConfidence(ctx: Context, query: string)
    requires PlanOf(ctx, query).intent == Execute
    ensures 0.65 <= PlanOf(ctx, query).confidence <= 0.95
    ensures PlanOf(ctx, query).baseCommand != Clarify
  {
    var q := Strip(Lower(query));
    ConfidenceRange(ctx, BaseCommand(ctx, q, Lower(ctx.osKind) == "windows"));
  }

  /* ---------------- wrapping for the environment ---------------- */

  const RestrictedWords: seq<string> := ["install", "apt", "yum", "dnf", "sudo", "chmod", "chown"]

  predicate Refused(ctx: Context, base: string) {
    ctx.securityPolicy == "restricted" && ContainsAny(Lower(base), RestrictedWords)
  }

  predicate Remote(ctx: Context) { ctx.execution == "remote" && Filled(ctx.host) }

  predicate InDocker(ctx: Context) { ctx.execution == "docker" && Filled(ctx.container) }

  predicate OnAws(ctx: Context) { ctx.execution == "cloud" && ctx.cloudProvider == Some("aws") }

  function Ssh(ctx: Context, base: string): string
    requires Remote(ctx)
  {
    var user := OrElse(ctx.user, "root");
    if ctx.port != 22 then
      "ssh -p " + IntToString(ctx.port) + " " + user + "@" + ctx.host.value + " '" + base + "'"
    else "ssh " + user + "@" + ctx.host.value + " '" + base + "'"
  }

  function Aws(ctx: Context, base: string): string {
    var profile := if Filled(ctx.cloudProfile) then "--profile " + ctx.cloudProfile.value else "";
    var region := if Filled(ctx.cloudRegion) then "--region " + ctx.cloudRegion.value else "";
    Strip("aws " + base + " " + profile + " " + region)
  }

  function Activated(ctx: Context, base: string): string
    requires Filled(ctx.venv)
  {
    if ctx.osKind == "Windows" then ctx.venv.value + "\\Scripts\\activate && " + base
    else "source " + ctx.venv.value + "/bin/activate && " + base
  }

  function Psql(ctx: Context): string {
    "psql -U " + OrElse(ctx.dbUser, "postgres") + " -d " + OrElse(ctx.database, "postgres")
    + " -h " + OrElse(ctx.dbHost, "localhost") + " -c '<query>'"
  }

  /** What `ExecutionPlanner.wrap_for_environment` makes of a base command:
      security first, then the execution environment, then the virtual
      environment, then the database. */
  function Wrapped(ctx: Context, base: string): string {
    if Refused(ctx, base) then "SECURITY_REFUSED"
    else if Remote(ctx) then Ssh(ctx, base)
    else if InDocker(ctx) then "docker exec " + ctx.container.value + " " + base
    else if OnAws(ctx) then Aws(ctx, base)
    else
      var cmd := if Filled(ctx.venv) then Activated(ctx, base) else base;
      if cmd == "SELECT_QUERY" && ctx.dbType == Some("postgres") then Psql(ctx) else cmd
  }

  /** `ExecutionPlanner.wrap_for_environment` */
  method WrapForEnvironment(ctx: Context, base: string) returns (cmd: string)
    ensures cmd == Wrapped(ctx, base)
  {
    cmd := base;
    if ctx.securityPolicy == "restricted" && ContainsAny(Lower(cmd), RestrictedWords) {
      return "SECURITY_REFUSED";
    }
    if ctx.execution == "remote" && Filled(ctx.host) {
      var user := OrElse(ctx.user, "root");
      if ctx.port != 22 {
        cmd := "ssh -p " + IntToString(ctx.port) + " " + user + "@" + ctx.host.value + " '" + cmd + "'";
      } else {
        cmd := "ssh " + user + "@" + ctx.host.value + " '" + cmd + "'";
      }
      return cmd;
    } else if ctx.execution == "docker" && Filled(ctx.container) {
      cmd := "docker exec " + ctx.container.value + " " + cmd;
      return cmd;
    } else if ctx.execution == "cloud" {
      if ctx.cloudProvider == Some("aws") {
        var profile := if Filled(ctx.cloudProfile) then "--profile " + ctx.cloudProfile.value else "";
        var region := if Filled(ctx.cloudRegion) then "--region " + ctx.cloudRegion.value else "";
        cmd := Strip("aws " + cmd + " " + profile + " " + region);
        return cmd;
      }
    }
    if Filled(ctx.venv) {
      if ctx.osKind == "Windows" {
        cmd := ctx.venv.value + "\\Scripts\\activate && " + cmd;
      } else {
        cmd := "source " + ctx.venv.value + "/bin/activate && " + cmd;
      }
    }
    if cmd == "SELECT_QUERY" && Filled(ctx.dbType) {
      if ctx.dbType == Some("postgres") {
        cmd := Psql(ctx);
      }
    }
  }

  /** Under the restricted policy a privileged word refuses the command. */
  lemma RestrictedRefuses(ctx: Context, base: string)
    requires ctx.securityPolicy == "restricted" && ContainsAny(Lower(base), RestrictedWords)
    ensures Wrapped(ctx, base) == "SECURITY_REFUSED"
  {}

  /** Remote execution quotes the command after `ssh`, with a `-p` option
      exactly for a port other than 22. */
  lemma RemoteForm(ctx: Context, base: string)
    requires !Refused(ctx, base) && Remote(ctx)
    ensures var option := if ctx.port != 22 then "-p " + IntToString(ctx.port) + " " else "";
            Wrapped(ctx, base)
            == "ssh " + option + OrElse(ctx.user, "root") + "@" + ctx.host.value + " '" + base + "'"
  {}

  lemma SshUnsafe(ctx: Context, base: string)
    requires Remote(ctx)
    ensures !IsSafe(Ssh(ctx, base))
  {
    var c := Ssh(ctx, base);
    assert c[0] == 's' && c[1] == 's' && c[2] == 'h' && c[3] == ' ';
    assert c[..3] == "ssh";
    NotAllowlistedUnsafe(c, "ssh");
  }

  lemma AwsUnsafe(ctx: Context, base: string)
    ensures !IsSafe(Aws(ctx, base))
  {
    var profile := if Filled(ctx.cloudProfile) then "--profile " + ctx.cloudProfile.value else "";
    var region := if Filled(ctx.cloudRegion) then "--region " + ctx.cloudRegion.value else "";
    var raw := "aws " + base + " " + profile + " " + region;
    assert raw[0] == 'a' && raw[1] == 'w' && raw[2] == 's' && raw[3] == ' ';
    assert raw[..3] == "aws";
    StripStartsWith(raw, "aws");
    NotAllowlistedUnsafe(Strip(raw), "aws");
  }

  lemma ActivatedUnsafe(ctx: Context, base: string)
    requires Filled(ctx.venv)
    ensures !IsSafe(Activated(ctx, base))
  {
    var v := ctx.venv.value;
    if ctx.osKind == "Windows" {
      var w := v + "\\Scripts\\activate && " + base;
      assert w[|v| + 18] == '&';
      MetaUnsafe(w, |v| + 18);
    } else {
      var w := "source " + v + "/bin/activate && " + base;
      assert w[7 + |v| + 14] == '&';
      MetaUnsafe(w, 7 + |v| + 14);
    }
  }

  lemma DockerUnsafe(ctx: Context, base: string)
    requires InDocker(ctx)
    ensures !IsSafe("docker exec " + ctx.container.value + " " + base)
  {
    var c := "docker exec " + ctx.container.value + " " + base;
    assert c[..6] == "docker" && c[6] == ' ';
    NotAllowlistedUnsafe(c, "docker");
  }

  /** Every wrapping for a remote host, a container, AWS or a virtual
      environment that the policy does not refuse yields a command the
      validator rejects: `ssh`, `docker` and `aws` are not allowlisted, and
      activation chains with `&&`. */
  lemma WrappingUnsafe(ctx: Context, base: string)
    requires Remote(ctx) || InDocker(ctx) || OnAws(ctx) || Filled(ctx.venv)
    requires !Refused(ctx, base)
    ensures !IsSafe(Wrapped(ctx, base))
  {
    if Remote(ctx) {
      SshUnsafe(ctx, base);
    } else if InDocker(ctx) {
      DockerUnsafe(ctx, base);
    } else if OnAws(ctx) {
      AwsUnsafe(ctx, base);
    } else {
      ActivatedUnsafe(ctx, base);
      assert |Activated(ctx, base)| > |"SELECT_QUERY"|;
    }
  }

  /* ---------------- the agent ---------------- */

  /** The marks that chain commands. */
  const ChainMarks: seq<string> := [";", "&&", "||", "|", "`", "$"]

  datatype Status = Safe | Unsafe | Unknown

  /** The explanations a reply can carry; `MessageText` spells them out. */
  datatype Message =
    | ChainingForbidden
    | CodeRequestHelp
    | ClarifyHelp
    | BlockedByPolicy
    | FailedValidation(command: string)
    | Explains(program: string)
    | UnexpectedError

  /** The agent's reply; `confidence` is absent only from the error reply and
      `clarification` stands for the `requires_clarification` flag. */
  datatype Reply = Reply(
    command: string, explanation: Message, status: Status,
    confidence: Option<real>, clarification: bool)

  const Explanations: Dict<string> := [
    ("ls", "Lists files and directories in the current path."),
    ("dir", "Lists files and directories in the current path (Windows)."),
    ("pwd", "Shows the current working directory path."),
    ("cd", "Changes or shows the current directory."),
    ("mkdir", "Creates a new directory."),
    ("touch", "Creates a new empty file."),
    ("type", "Displays the contents of a file (Windows)."),
    ("cat", "Concatenates and displays file contents."),
    ("grep", "Searches for patterns within files."),
    ("findstr", "Searches for patterns within files (Windows)."),
    ("wc", "Counts lines, words, or characters in a file.")]

  /** The text of an explanation; a program without an entry of its own is
      described generically. */
  function MessageText(m: Message): string {
    match m
    case ChainingForbidden => "Query contains forbidden chaining characters."
    case CodeRequestHelp =>
      "This appears to be a code generation request, not a shell command. Please clarify if you want me to: (1) generate code, or (2) execute a specific shell command."
    case ClarifyHelp =>
      "I couldn't determine what command you want to run. Could you please clarify? For example: 'list files', 'create directory named test', 'read file.txt', or 'search for pattern in files'."
    case BlockedByPolicy => "Command blocked by security policy."
    case FailedValidation(c) => "The generated command '" + c + "' failed security validation."
    case Explains(p) =>
      (match Get(Explanations, p)
       case Some(e) => e
       case None => "Executes the " + p + " command.")
    case UnexpectedError => "An unexpected error occurred within the Terminal Agent."
  }

  /** The program `TerminalCommandAgent._generate_explanation` explains: the
      first word of the lower-cased command, or `IndexError` without one. */
  function ExplainedProgram(command: string): (r: Outcome<string>)
    ensures r.Raises? <==> NoWord(Lower(command))
    ensures r.Returns? ==> r.value != [] && NoSpace(r.value)
  {
    var words := Split(Lower(command));
    SplitEmpty(Lower(command));
    if words == [] then Raises("IndexError") else Returns(words[0])
  }

  const InternalError := Reply("echo \"Internal error\"", UnexpectedError, Unknown, None, false)

  /** The reply to a plan, once the request passed the chaining check. */
  function Respond(ctx: Context, plan: PlanResult): Reply {
    if plan.intent == CodeRequest then Reply("", CodeRequestHelp, Unknown, Some(plan.confidence), true)
    else if plan.intent == NeedsClarification then Reply("", ClarifyHelp, Unknown, Some(plan.confidence), true)
    else
      var final := Wrapped(ctx, plan.baseCommand);
      if final == "SECURITY_REFUSED" then
        Reply("echo \"Security refused\"", BlockedByPolicy, Unsafe, Some(1.0), false)
      else if !IsSafe(final) then
        Reply("echo \"Unsafe command\"", FailedValidation(final),
              Unsafe, Some(plan.confidence), false)
      else
        match ExplainedProgram(final)
        case Raises(_) => InternalError
        case Returns(p) => Reply(Strip(final), Explains(p), Safe, Some(plan.confidence), false)
  }

  /** What `TerminalCommandAgent.query` replies to a request. */
  function QueryOf(ctx: Context, userQuery: string): Reply {
    if ContainsAny(userQuery, ChainMarks) then
      Reply("echo \"Invalid request\"", ChainingForbidden, Unsafe, Some(1.0), false)
    else Respond(ctx, PlanOf(ctx, userQuery))
  }

  /** `TerminalCommandAgent.query` */
  method Query(ctx: Context, userQuery: string) returns (r: Reply)
    ensures r == QueryOf(ctx, userQuery)
  {
    if ContainsAny(userQuery, ChainMarks) {
      return Reply("echo \"Invalid request\"", ChainingForbidden, Unsafe, Some(1.0), false);
    }
    var plan := Plan(ctx, userQuery);
    if plan.intent == CodeRequest {
      return Reply("", CodeRequestHelp, Unknown, Some(plan.confidence), true);
    }
    if plan.intent == NeedsClarification {
      return Reply("", ClarifyHelp, Unknown, Some(plan.confidence), true);
    }
    var final := WrapForEnvironment(ctx, plan.baseCommand);
    if final == "SECURITY_REFUSED" {
      return Reply("echo \"Security refused\"", BlockedByPolicy, Unsafe, Some(1.0), false);
    }
    if !IsSafe(final) {
      return Reply("echo \"Unsafe command\"", FailedValidation(final),
                   Unsafe, Some(plan.confidence), false);
    }
    match ExplainedProgram(final)
    case Raises(_) => r := InternalError;
    case Returns(p) => r := Reply(Strip(final), Explains(p), Safe, Some(plan.confidence), false);
  }

  /** A request with a chaining mark is refused before any planning. */
  lemma ChainingRejected(ctx: Context, userQuery: string)
    requires ContainsAny(userQuery, ChainMarks)
    ensures QueryOf(ctx, userQuery).status == Unsafe
    ensures QueryOf(ctx, userQuery).command == "echo \"Invalid request\""
  {}

  /** A "safe" reply to a plan carries the stripped wrapped command of a
      plan to execute, and that command passes the validator. */
  lemma RespondSafe(ctx: Context, plan: PlanResult)
    requires Respond(ctx, plan).status == Safe
    ensures plan.intent == Execute && IsSafe(Wrapped(ctx, plan.baseCommand))
    ensures Respond(ctx, plan).command == Strip(Wrapped(ctx, plan.baseCommand))
  {}

  /** A "safe" reply carries the stripped wrapped command of an executable
      plan, and that command passes the validator. */
  lemma SafeOnlyIfValid(ctx: Context, userQuery: string)
    requires QueryOf(ctx, userQuery).status == Safe
    ensures var plan := PlanOf(ctx, userQuery);
            var final := Wrapped(ctx, plan.baseCommand);
            plan.intent == Execute && IsSafe(final)
            && QueryOf(ctx, userQuery).command == Strip(final)
  {
    RespondSafe(ctx, PlanOf(ctx, userQuery));
  }

  /** A command that passes the validator has a word, so explaining it never
      raises. */
  lemma SafeExplained(command: string)
    requires IsSafe(command)
    ensures ExplainedProgram(command).Returns?
  {
    IsSafeIff(command);
    var i :| 0 <= i < |command| && !IsSpace(command[i]);
    assert !IsSpace(Lower(command)[i]);
  }

  /** No plan leads to the error reply. */
  lemma RespondNoInternalError(ctx: Context, plan: PlanResult)
    ensures Respond(ctx, plan) != InternalError
  {
    var r := Respond(ctx, plan);
    if plan.intent == CodeRequest || plan.intent == NeedsClarification {
      assert r.clarification;
    } else {
      var final := Wrapped(ctx, plan.baseCommand);
      if final == "SECURITY_REFUSED" || !IsSafe(final) {
        assert r.status == Unsafe;
      } else {
        SafeExplained(final);
        assert r.status == Safe;
      }
    }
  }

  /** The agent never reaches its error reply. */
  lemma NoInternalError(ctx: Context, userQuery: string)
    ensures QueryOf(ctx, userQuery) != InternalError
  {
    if !ContainsAny(userQuery, ChainMarks) {
      RespondNoInternalError(ctx, PlanOf(ctx, userQuery));
    }
  }

  /** In a remote host, a container, AWS or a virtual environment no reply
      is ever "safe". */
  lemma WrappedNeverSafe(ctx: Context, userQuery: string)
    requires Remote(ctx) || InDocker(ctx) || OnAws(ctx) || Filled(ctx.venv)
    ensures QueryOf(ctx, userQuery).status != Safe
  {
    var plan := PlanOf(ctx, userQuery);
    if !Refused(ctx, plan.baseCommand) {
      WrappingUnsafe(ctx, plan.baseCommand);
    }
  }
}
