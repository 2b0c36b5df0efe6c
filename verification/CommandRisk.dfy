/** The argv risk classifier (security/risk.py). `lower` stands for the host's
    Unicode lower-casing; nothing is assumed of it except, where a lemma says so,
    that it neither adds nor removes a leading dash. */
module CommandRisk {
  import opened Common
  import opened Risk
  import Text

  const PRIVILEGED_EXECUTABLES: set<string> := {
    "apt", "apt-get", "chcon", "crontab", "dnf", "dpkg", "groupadd", "insmod", "ip", "iptables",
    "journalctl", "kill", "killall", "mount", "nft", "nmcli", "pip", "pkill", "rmmod", "service",
    "setenforce", "snap", "sysctl", "systemctl", "ufw", "umount", "update-alternatives", "yum"}

  const DESTRUCTIVE_EXECUTABLES: set<string> := {
    "dd", "fdisk", "halt", "init", "mkfs", "parted", "poweroff", "reboot", "rm", "shred", "shutdown",
    "userdel", "wipefs"}

  const MUTATING_VERBS: set<string> := {
    "set", "add", "del", "delete", "flush", "change", "replace", "up", "down"}

  const DESTRUCTIVE_EXECUTABLE_PREFIXES: seq<string> := ["mkfs", "fsck", "sfdisk", "cfdisk"]

  const SHELL_METACHARACTERS: seq<string> := [";", "&&", "||", "|", "`", "$(", ">", "<", "\n"]

  const PRIVILEGED_SUBCOMMANDS: map<string, set<string>> := map[
    "systemctl" := {"start", "stop", "restart", "reload", "enable", "disable", "mask", "unmask", "kill"},
    "service" := {"start", "stop", "restart", "reload"},
    "apt" := {"install", "remove", "purge", "upgrade", "dist-upgrade", "autoremove"},
    "apt-get" := {"install", "remove", "purge", "upgrade", "dist-upgrade", "autoremove"},
    "pip" := {"install", "uninstall"}]

  const READ_ONLY_SUBCOMMANDS: map<string, set<string>> := map[
    "systemctl" := {"status", "show", "list-units", "list-unit-files", "is-active", "is-enabled",
                    "is-failed", "cat", "get-default"},
    "service" := {"status"},
    "ip" := {"addr", "a", "link", "route", "neigh"},
    "pip" := {"list", "show", "freeze"},
    "apt" := {"list", "show", "policy"}]

  function Lookup(table: map<string, set<string>>, key: string): set<string> {
    if key in table then table[key] else {}
  }

  /** `Path(text).name`: the last component that is neither empty nor a dot. */
  function PathName(text: string): string {
    NameIn(text, |text|, |text|)
  }

  /** The name in `text[..end]`, with no slash in `text[from..end]`. */
  function NameIn(text: string, from: nat, end: nat): string
    requires from <= end <= |text|
    decreases from
  {
    if from > 0 && text[from - 1] != '/' then NameIn(text, from - 1, end)
    else if text[from..end] != "" && text[from..end] != "." then text[from..end]
    else if from == 0 then ""
    else NameIn(text, from - 1, from - 1)
  }

  predicate Dashed(arg: string) {
    Text.StartsWith(arg, "-")
  }

  lemma DashedIsFirst(arg: string)
    ensures Dashed(arg) <==> arg != "" && arg[0] == '-'
  {
  }

  predicate AllLowerLetters(w: string) {
    forall i :: 0 <= i < |w| ==> 'a' <= w[i] <= 'z'
  }

  /** `^-[a-z]*x[a-z]*y[a-z]*$` */
  predicate FlagsInOrder(arg: string, x: char, y: char) {
    && Dashed(arg)
    && AllLowerLetters(arg[1..])
    && exists i, j :: 1 <= i < j < |arg| && arg[i] == x && arg[j] == y
  }

  /** The four argument patterns, on arguments without a newline. */
  predicate MatchesPattern(k: nat, arg: string) {
    match k
    case 0 => arg in {"-f", "--f", "-force", "--force"}
    case 1 => FlagsInOrder(arg, 'r', 'f')
    case 2 => FlagsInOrder(arg, 'f', 'r')
    case 3 => arg == "--no-preserve-root"
    case _ => false
  }

  const PATTERNS := 4

  predicate Forcing(arg: string) {
    exists k: nat | k < PATTERNS :: MatchesPattern(k, arg)
  }

  predicate AnyForcing(args: seq<string>) {
    exists i :: 0 <= i < |args| && Forcing(args[i])
  }

  predicate HasMeta(token: string) {
    exists k :: 0 <= k < |SHELL_METACHARACTERS| && Text.Contains(token, SHELL_METACHARACTERS[k])
  }

  predicate AnyMeta(argv: seq<string>) {
    exists i :: 0 <= i < |argv| && HasMeta(argv[i])
  }

  predicate WritesFilesystems(exe: string) {
    exists k :: 0 <= k < |DESTRUCTIVE_EXECUTABLE_PREFIXES| && PrefixHit(exe, DESTRUCTIVE_EXECUTABLE_PREFIXES[k])
  }

  predicate PrefixHit(exe: string, prefix: string) {
    exe == prefix || Text.StartsWith(exe, prefix + ".")
  }

  predicate DestructiveExecutable(exe: string) {
    exe in DESTRUCTIVE_EXECUTABLES || WritesFilesystems(exe)
  }

  /** `k` is the first argument that does not start with a dash. */
  predicate FirstPlain(args: seq<string>, k: int) {
    0 <= k < |args| && !Dashed(args[k]) && forall i :: 0 <= i < k ==> Dashed(args[i])
  }

  predicate VerbAfter(lower: string -> string, args: seq<string>, k: int) {
    exists j :: k < j < |args| && 0 <= j && lower(args[j]) in MUTATING_VERBS
  }

  /** `sub` first occurs, lower-cased, at `k`. */
  predicate FirstNamed(lower: string -> string, args: seq<string>, sub: string, k: int) {
    0 <= k < |args| && lower(args[k]) == sub && forall i :: 0 <= i < k ==> lower(args[i]) != sub
  }

  /** Lower-casing keeps dashed words dashed and the others not. */
  ghost predicate KeepsDashes(lower: string -> string) {
    forall s :: Dashed(lower(s)) <==> Dashed(s)
  }

  function Executable(lower: string -> string, argv: seq<string>): string
    requires argv != []
  {
    lower(PathName(argv[0]))
  }

  /** What it takes to be harmless, said without the order of the checks. */
  ghost predicate ReadOnlyCommand(lower: string -> string, argv: seq<string>) {
    && argv != []
    && !AnyMeta(argv)
    && var exe, args := Executable(lower, argv), argv[1..];
       && !DestructiveExecutable(exe)
       && if exe in PRIVILEGED_EXECUTABLES then
            exists k :: FirstPlain(args, k)
              && exe in READ_ONLY_SUBCOMMANDS && lower(args[k]) in READ_ONLY_SUBCOMMANDS[exe]
              && !VerbAfter(lower, args, k)
          else !AnyForcing(args)
  }

  ghost predicate DestructiveCommand(lower: string -> string, argv: seq<string>) {
    || argv == []
    || AnyMeta(argv)
    || var exe, args := Executable(lower, argv), argv[1..];
       DestructiveExecutable(exe) || (exe !in PRIVILEGED_EXECUTABLES && AnyForcing(args))
  }

  /** `_has_mutating_verb`. */
  method HasMutatingVerb(lower: string -> string, arguments: seq<string>, subcommand: Option<string>)
    returns (found: bool)
    ensures subcommand.None? ==> (found <==> VerbAfter(lower, arguments, -1))
    ensures subcommand.Some? ==>
              (found <==> exists k :: FirstNamed(lower, arguments, subcommand.value, k) && VerbAfter(lower, arguments, k))
  {
    var seen := subcommand.None?;
    ghost var at := -1;
    for i := 0 to |arguments|
      invariant !seen ==> subcommand.Some? && forall j :: 0 <= j < i ==> lower(arguments[j]) != subcommand.value
      invariant seen && subcommand.Some? ==> 0 <= at < i && FirstNamed(lower, arguments, subcommand.value, at)
      invariant subcommand.None? ==> seen && at == -1
      invariant seen ==> forall j :: at < j < i && 0 <= j ==> lower(arguments[j]) !in MUTATING_VERBS
    {
      var lowered := lower(arguments[i]);
      if !seen {
        seen := lowered == subcommand.value;
        if seen { at := i; }
      } else if lowered in MUTATING_VERBS {
        assert VerbAfter(lower, arguments, at);
        return true;
      }
    }
    if seen && subcommand.Some? {
      forall k | FirstNamed(lower, arguments, subcommand.value, k) ensures k == at {}
    }
    return false;
  }

  /** `next((arg.lower() for arg in arguments if not arg.startswith("-")), None)` */
  method Subcommand(lower: string -> string, arguments: seq<string>) returns (sub: Option<string>)
    ensures sub.None? ==> forall i :: 0 <= i < |arguments| ==> Dashed(arguments[i])
    ensures sub.Some? ==> exists k :: FirstPlain(arguments, k) && sub.value == lower(arguments[k])
  {
    for i := 0 to |arguments|
      invariant forall j :: 0 <= j < i ==> Dashed(arguments[j])
    {
      if !Dashed(arguments[i]) {
        assert FirstPlain(arguments, i);
        return Some(lower(arguments[i]));
      }
    }
    return None;
  }

  /** The subcommand's first occurrence is the first undashed argument, so the
      verb scan covers precisely what follows it. */
  lemma ScanStartsAtSubcommand(lower: string -> string, args: seq<string>, k: int)
    requires KeepsDashes(lower) && FirstPlain(args, k)
    ensures forall n :: FirstNamed(lower, args, lower(args[k]), n) <==> n == k
  {
    forall i | 0 <= i < k ensures lower(args[i]) != lower(args[k]) {
      assert Dashed(lower(args[i])) && !Dashed(lower(args[k]));
    }
  }

  /** The table of mutating subcommands never overlaps the read-only one, and its
      keys are all listed binaries: it cannot change which commands are READ. */
  lemma SubcommandTablesDisjoint(exe: string)
    ensures Lookup(PRIVILEGED_SUBCOMMANDS, exe) !! Lookup(READ_ONLY_SUBCOMMANDS, exe)
    ensures exe in PRIVILEGED_SUBCOMMANDS ==> exe in PRIVILEGED_EXECUTABLES
  {
  }

  method ContainsMeta(argv: seq<string>) returns (found: bool)
    ensures found <==> AnyMeta(argv)
  {
    for i := 0 to |argv|
      invariant forall j :: 0 <= j < i ==> !HasMeta(argv[j])
    {
      for k := 0 to |SHELL_METACHARACTERS|
        invariant forall m :: 0 <= m < k ==> !Text.Contains(argv[i], SHELL_METACHARACTERS[m])
      {
        if Text.Contains(argv[i], SHELL_METACHARACTERS[k]) {
          return true;
        }
      }
    }
    return false;
  }

  method ContainsForcing(args: seq<string>) returns (found: bool)
    ensures found <==> AnyForcing(args)
  {
    for i := 0 to |args|
      invariant forall j :: 0 <= j < i ==> !Forcing(args[j])
    {
      for k := 0 to PATTERNS
        invariant forall m: nat :: m < k ==> !MatchesPattern(m, args[i])
      {
        if MatchesPattern(k, args[i]) {
          return true;
        }
      }
    }
    return false;
  }

  /** `classify_command`. The docstring promises at least PRIVILEGED for anything
      unrecognised; the last line of the code answers READ. */
  method ClassifyCommand(lower: string -> string, argv: seq<string>) returns (risk: RiskLevel)
    requires KeepsDashes(lower)
    ensures risk == Read <==> ReadOnlyCommand(lower, argv)
    ensures risk == Destructive <==> DestructiveCommand(lower, argv)
    ensures risk != Write
  {
    if argv == [] {
      return Destructive;
    }
    var executable := Executable(lower, argv);
    var arguments := argv[1..];

    var meta := ContainsMeta(argv);
    if meta {
      return Destructive;
    }
    if executable in DESTRUCTIVE_EXECUTABLES {
      return Destructive;
    }
    for k := 0 to |DESTRUCTIVE_EXECUTABLE_PREFIXES|
      invariant forall m :: 0 <= m < k ==> !PrefixHit(executable, DESTRUCTIVE_EXECUTABLE_PREFIXES[m])
    {
      if PrefixHit(executable, DESTRUCTIVE_EXECUTABLE_PREFIXES[k]) {
        return Destructive;
      }
    }

    var subcommand := Subcommand(lower, arguments);
    SubcommandTablesDisjoint(executable);

    if executable in PRIVILEGED_EXECUTABLES {
      risk := ClassifyListed(lower, executable, arguments, subcommand);
      return;
    }

    var forcing := ContainsForcing(arguments);
    if forcing {
      return Destructive;
    }
    return Read;
  }

  /** The two branches for listed binaries: those with a subcommand table of
      their own, and the rest. */
  method ClassifyListed(lower: string -> string, executable: string, arguments: seq<string>, subcommand: Option<string>)
    returns (risk: RiskLevel)
    requires KeepsDashes(lower)
    requires subcommand.None? ==> forall i :: 0 <= i < |arguments| ==> Dashed(arguments[i])
    requires subcommand.Some? ==> exists k :: FirstPlain(arguments, k) && subcommand.value == lower(arguments[k])
    ensures risk == Read <==>
              exists k :: FirstPlain(arguments, k)
                && executable in READ_ONLY_SUBCOMMANDS && lower(arguments[k]) in READ_ONLY_SUBCOMMANDS[executable]
                && !VerbAfter(lower, arguments, k)
    ensures risk == Read || risk == Privileged
  {
    var readOnly := Lookup(READ_ONLY_SUBCOMMANDS, executable);
    SubcommandTablesDisjoint(executable);
    if subcommand.Some? {
      ghost var k :| FirstPlain(arguments, k) && subcommand.value == lower(arguments[k]);
      ScanStartsAtSubcommand(lower, arguments, k);
      forall n | FirstPlain(arguments, n) ensures n == k {}
      assert FirstNamed(lower, arguments, subcommand.value, k);
    }
    if executable in PRIVILEGED_SUBCOMMANDS {
      if subcommand.Some? && subcommand.value in PRIVILEGED_SUBCOMMANDS[executable] {
        return Privileged;
      }
      if subcommand.Some? && subcommand.value in readOnly {
        var mutates := HasMutatingVerb(lower, arguments, subcommand);
        if !mutates {
          return Read;
        }
      }
      return Privileged;
    }
    if subcommand.Some? && subcommand.value in readOnly {
      var mutates := HasMutatingVerb(lower, arguments, subcommand);
      return if mutates then Privileged else Read;
    }
    return Privileged;
  }

  // ---- what the tests on single words come to

  predicate Slashless(name: string) {
    name != "" && name != "." && '/' !in name
  }

  lemma {:induction false} NameStops(text: string, name: string, from: nat)
    requires |text| - |name| <= from <= |text| && |name| < |text| && text[|text| - |name|..] == name
    requires Slashless(name) && text[|text| - |name| - 1] == '/'
    ensures NameIn(text, from, |text|) == name
    decreases from
  {
    if from > |text| - |name| {
      assert text[from - 1] == name[from - 1 - (|text| - |name|)];
      NameStops(text, name, from - 1);
    }
  }

  /** The directory a binary is named in does not matter. */
  lemma PathNameIsLast(dir: string, name: string)
    requires Slashless(name)
    ensures PathName(dir + "/" + name) == name
  {
    NameStops(dir + "/" + name, name, |dir + "/" + name|);
  }

  lemma {:induction false} NameIsWhole(name: string, from: nat)
    requires from <= |name| && Slashless(name)
    ensures NameIn(name, from, |name|) == name
  {
    if from > 0 {
      NameIsWhole(name, from - 1);
    } else {
      assert name[0..|name|] == name;
    }
  }

  lemma PlainNameIsItself(name: string)
    requires Slashless(name)
    ensures PathName(name) == name
  {
    NameIsWhole(name, |name|);
  }

  /** So a command is classified by the name of its binary, wherever that lies, so
      long as the directory is spelled without metacharacters. */
  lemma DirectoryDoesNotMatter(lower: string -> string, dir: string, name: string, args: seq<string>)
    requires Slashless(name) && !HasMeta(dir + "/" + name) && !HasMeta(name)
    ensures ReadOnlyCommand(lower, [dir + "/" + name] + args) <==> ReadOnlyCommand(lower, [name] + args)
    ensures DestructiveCommand(lower, [dir + "/" + name] + args) <==> DestructiveCommand(lower, [name] + args)
  {
    PathNameIsLast(dir, name);
    PlainNameIsItself(name);
    var there, here := [dir + "/" + name] + args, [name] + args;
    assert there[1..] == args == here[1..];
    forall i | 0 < i < |there| ensures there[i] == here[i] == args[i - 1] {
    }
    hide HasMeta, PathName;
    SameMeta(there, here);
  }

  lemma SameMeta(a: seq<string>, b: seq<string>)
    requires |a| == |b| && a != [] && !HasMeta(a[0]) && !HasMeta(b[0]) && a[1..] == b[1..]
    ensures AnyMeta(a) <==> AnyMeta(b)
  {
    hide HasMeta;
    forall i | 0 < i < |a| ensures a[i] == b[i] {
      assert a[i] == a[1..][i - 1] == b[1..][i - 1];
    }
  }

  /** A metacharacter is found wherever it stands. */
  lemma MetaIsInfix(token: string)
    ensures HasMeta(token) <==>
              exists k, a, b :: 0 <= k < |SHELL_METACHARACTERS| && Text.Around(token, a, SHELL_METACHARACTERS[k], b)
  {
    forall k | 0 <= k < |SHELL_METACHARACTERS|
      ensures Text.Contains(token, SHELL_METACHARACTERS[k]) <==>
                exists a, b :: Text.Around(token, a, SHELL_METACHARACTERS[k], b)
    {
      Text.ContainsIsInfix(token, SHELL_METACHARACTERS[k]);
    }
    hide Text.Contains, Text.Around;
  }

  /** The prefix table catches a name and its dotted variants. */
  lemma PrefixHitIsDotted(exe: string, prefix: string)
    ensures PrefixHit(exe, prefix) <==> exe == prefix || exists rest: string :: exe == prefix + "." + rest
  {
    if Text.StartsWith(exe, prefix + ".") {
      assert exe == prefix + "." + exe[|prefix| + 1..];
    }
  }

  /** The forcing arguments, all of them. */
  lemma ForcingIsExactly(arg: string)
    ensures Forcing(arg) <==>
              || arg in {"-f", "--f", "-force", "--force", "--no-preserve-root"}
              || (exists w: string :: arg == "-" + w && AllLowerLetters(w) && 'r' in w && 'f' in w)
  {
    if exists w: string :: arg == "-" + w && AllLowerLetters(w) && 'r' in w && 'f' in w {
      var w: string :| arg == "-" + w && AllLowerLetters(w) && 'r' in w && 'f' in w;
      ShortFlagBundle(w);
      assert MatchesPattern(1, arg) || MatchesPattern(2, arg);
    }
    if FlagsInOrder(arg, 'r', 'f') || FlagsInOrder(arg, 'f', 'r') {
      assert arg == "-" + arg[1..];
      ShortFlagBundle(arg[1..]);
    }
    assert MatchesPattern(0, arg) <==> arg in {"-f", "--f", "-force", "--force"};
    assert MatchesPattern(3, arg) <==> arg == "--no-preserve-root";
  }

  /** A bundle of lower-case short flags is forcing exactly when it holds both an
      `r` and an `f`, in either order. */
  lemma ShortFlagBundle(w: string)
    requires AllLowerLetters(w)
    ensures FlagsInOrder("-" + w, 'r', 'f') || FlagsInOrder("-" + w, 'f', 'r') <==> 'r' in w && 'f' in w
  {
  }

  /** The comment beside the patterns lists `-Rf` among the forcing flags; a
      capital letter escapes every pattern. */
  lemma CapitalFlagEscapes(arg: string, i: nat)
    requires i < |arg| && 'A' <= arg[i] <= 'Z'
    ensures !Forcing(arg)
  {
  }

  predicate AllLetters(w: string) {
    forall i :: 0 <= i < |w| ==> 'a' <= w[i] <= 'z' || 'A' <= w[i] <= 'Z'
  }

  /** So a bundle of short flags that holds both letters, in either case, is forcing
      exactly when it has no capital at all. */
  lemma BundleIsForcingWithoutCapitals(w: string)
    requires AllLetters(w) && ('r' in w || 'R' in w) && ('f' in w || 'F' in w)
    ensures Forcing("-" + w) <==> AllLowerLetters(w)
  {
    if AllLowerLetters(w) {
      ShortFlagBundle(w);
      assert MatchesPattern(1, "-" + w) || MatchesPattern(2, "-" + w);
    } else {
      var i :| 0 <= i < |w| && 'A' <= w[i] <= 'Z';
      CapitalFlagEscapes("-" + w, i + 1);
    }
  }

  /** The very flag the comment lists. */
  lemma CommentedFlagEscapes()
    ensures !Forcing("-Rf") && Forcing("-rf")
  {
    CapitalFlagEscapes("-Rf", 1);
    var flag := "-rf";
    assert flag[1] == 'r' && flag[2] == 'f';
    assert MatchesPattern(1, flag);
  }

  lemma NoMetaIn(token: string)
    requires forall i :: 0 <= i < |token| ==> 'a' <= token[i] <= 'z'
    ensures !HasMeta(token)
  {
    forall k | 0 <= k < |SHELL_METACHARACTERS| ensures !Text.Contains(token, SHELL_METACHARACTERS[k]) {
      var meta := SHELL_METACHARACTERS[k];
      assert meta != "" && !('a' <= meta[0] <= 'z');
      forall i: nat | i <= |token| ensures !Text.OccursAt(token, meta, i) {
        if i < |token| {
          assert token[i..][0] == token[i] != meta[0];
        }
      }
    }
  }

  /** A binary nobody listed, on its own, is READ: the promise that unknown means
      at least PRIVILEGED is not kept. Among binaries that are neither listed nor
      destructive, and commands without metacharacters, it is kept exactly when
      some argument is forcing. */
  lemma UnlistedIsReadUnlessForced(lower: string -> string, argv: seq<string>)
    requires argv != [] && !AnyMeta(argv)
    requires var exe := Executable(lower, argv); exe !in PRIVILEGED_EXECUTABLES && !DestructiveExecutable(exe)
    requires lower("nc") == "nc"
    ensures ReadOnlyCommand(lower, argv) <==> !AnyForcing(argv[1..])
    ensures ReadOnlyCommand(lower, ["nc"])
  {
    NoMetaIn("nc");
    assert NameIn("nc", 0, 2) == "nc"[0..2] == "nc";
    assert NameIn("nc", 1, 2) == NameIn("nc", 0, 2);
  }
}
