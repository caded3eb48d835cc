/** Command classification: the safety verdict of one argv, the stored rules that overrule an unknown one,
    and the fold over the commands of a composite. */
module Permissions {
  import opened Wrappers

  type Argv = seq<string>

  datatype ArgvDecision = Allow | Unknown | AskNoPersist | NotExecutable {
    /** Aggregation key: higher is stricter. */
    function Severity(): nat {
      match this
      case Allow => 0
      case Unknown => 1
      case AskNoPersist => 2
      case NotExecutable => 3
    }
  }

  datatype CommandType = Simple | Composite
  datatype PermissionDecision = PermissionDecision(kind: CommandType, parsed: seq<Argv>, verdict: ArgvDecision)
  datatype PermissionError = EmptyCommand | InvalidCommand | StorageFailed

  /** What stripping transparent wrappers off one command gives: the command inside, a refusal by the
      wrapper itself, or doubt. */
  datatype Stripped = Inner(argv: Argv) | Malformed | Unsure

  /** The platform's parser, verdict table and wrapper stripping, as functions of the command alone. */
  datatype Host = Host(
    parse: Argv -> Result<Option<seq<Argv>>, PermissionError>,
    verdict: Argv -> ArgvDecision,
    strip: Argv -> Stripped)

  /** An argv without a program name has no verdict. */
  function SafetyCheck(host: Host, argv: Argv): Result<ArgvDecision, PermissionError> {
    if argv == [] || argv[0] == "" then Err(EmptyCommand) else Ok(host.verdict(argv))
  }

  function Join(argv: Argv): string {
    if argv == [] then "" else if |argv| == 1 then argv[0] else argv[0] + " " + Join(argv[1..])
  }

  // ---------------------------------------------------------------- stored rules

  /** Allowed prefixes; the flag says whether a continuation after a space is allowed too. */
  type Rules = map<string, bool>

  predicate Covers(prefix: string, glob: bool, command: string) {
    prefix == command || (glob && prefix + " " <= command)
  }

  predicate Allowed(rules: Rules, command: string) {
    exists prefix | prefix in rules :: Covers(prefix, rules[prefix], command)
  }

  /** The table refuses an empty prefix and keeps one row per prefix, the last written. */
  function Added(rules: Rules, prefix: string, glob: bool, up: bool): Result<Rules, PermissionError> {
    if up && prefix != "" then Ok(rules[prefix := glob]) else Err(StorageFailed)
  }

  ghost predicate Wider(wide: Rules, narrow: Rules) {
    forall command :: Allowed(narrow, command) ==> Allowed(wide, command)
  }

  /** What saving a rule does to the allowed commands: its own are added, and those only the row it
      replaces allowed are lost. */
  lemma AllowedAfterAdd(rules: Rules, prefix: string, glob: bool, command: string)
    ensures Allowed(rules[prefix := glob], command) <==> Allowed(rules - {prefix}, command) || Covers(prefix, glob, command)
  {
    var after := rules[prefix := glob];
    if Allowed(after, command) {
      var p :| p in after && Covers(p, after[p], command);
      assert p != prefix ==> p in rules - {prefix};
    }
    if Allowed(rules - {prefix}, command) {
      var p :| p in rules - {prefix} && Covers(p, rules[p], command);
      assert p in after;
    }
    if Covers(prefix, glob, command) {
      assert prefix in after;
    }
  }

  /** Saving a glob rule never takes a command away. */
  lemma GlobOnlyWidens(rules: Rules, prefix: string)
    ensures Wider(rules[prefix := true], rules) && Covers(prefix, true, prefix)
  {
    forall command | Allowed(rules, command) ensures Allowed(rules[prefix := true], command) {
      var p :| p in rules && Covers(p, rules[p], command);
      assert p in rules[prefix := true];
    }
  }

  /** Some other glob rule covers all that a glob rule on the prefix covers, the prefix itself aside. */
  predicate Backed(rules: Rules, prefix: string) {
    exists p | p in rules :: p != prefix && rules[p] && p + " " <= prefix + " "
  }

  /** Saving an exact rule takes commands away just when it replaces a glob rule that no other backs. */
  lemma ExactNarrowsIff(rules: Rules, prefix: string)
    ensures Wider(rules[prefix := false], rules) <==> (prefix in rules && rules[prefix] ==> Backed(rules, prefix))
  {
    var after := rules[prefix := false];
    if prefix in rules && rules[prefix] && !Backed(rules, prefix) {
      var command := Uncovered(rules, prefix);
      assert !Wider(after, rules);
    } else {
      forall command | Allowed(rules, command) ensures Allowed(after, command) {
        var p :| p in rules && Covers(p, rules[p], command);
        AllowedAfterAdd(rules, prefix, false, command);
        if p != prefix {
          assert p in rules - {prefix};
        } else if command != prefix {
          var q :| q in rules && q != prefix && rules[q] && q + " " <= prefix + " ";
          assert q in rules - {prefix} && Covers(q, true, command);
        }
      }
    }
  }

  /** A continuation longer than every stored prefix and free of spaces tells the two tables apart. */
  lemma Uncovered(rules: Rules, prefix: string) returns (command: string)
    requires prefix in rules && rules[prefix] && !Backed(rules, prefix)
    ensures Allowed(rules, command) && !Allowed(rules[prefix := false], command)
  {
    var n := Longer(rules.Keys);
    var rest := seq(n, _ => 'x');
    command := prefix + " " + rest;
    assert Covers(prefix, true, command);
    forall p | p in rules && p != prefix ensures !Covers(p, rules[p], command) {
      assert p in rules.Keys;
      SpaceWithin(p, prefix, rest);
    }
    assert Allowed(rules, command) by { assert Covers(prefix, rules[prefix], command); }
    AllowedAfterAdd(rules, prefix, false, command);
  }

  /** A glob rule that covers a continuation without spaces already covers its front. */
  lemma SpaceWithin(p: string, prefix: string, rest: string)
    requires ' ' !in rest
    ensures p + " " <= prefix + " " + rest ==> p + " " <= prefix + " "
  {
    var command := prefix + " " + rest;
    forall i | |prefix| < i < |command| ensures command[i] != ' ' {
      assert command[i] == rest[i - |prefix| - 1];
    }
    if p + " " <= command {
      assert (p + " ")[|p|] == ' ' && command[|p|] == ' ';
    }
  }

  lemma {:induction false} Longer(keys: set<string>) returns (n: nat)
    ensures forall k | k in keys :: |k| < n
  {
    n := 0;
    if keys != {} {
      var k :| k in keys;
      var m := Longer(keys - {k});
      n := if m > |k| then m else |k| + 1;
    }
  }

  // ---------------------------------------------------------------- one argv

  /** A stored rule turns an unknown verdict into `Allow` and touches no other. */
  function Decided(host: Host, rules: Rules, up: bool, argv: Argv): Result<ArgvDecision, PermissionError> {
    match SafetyCheck(host, argv)
    case Err(error) => Err(error)
    case Ok(Unknown) => if !up then Err(StorageFailed) else if Allowed(rules, Join(argv)) then Ok(Allow) else Ok(Unknown)
    case Ok(decision) => Ok(decision)
  }

  // ---------------------------------------------------------------- composites

  /** The verdict of several commands run together, by what is among their verdicts. */
  function Verdict(decisions: seq<ArgvDecision>): ArgvDecision {
    if NotExecutable in decisions then NotExecutable
    else if forall i | 0 <= i < |decisions| :: decisions[i] == Allow then Allow
    else AskNoPersist
  }

  function DecideAll(host: Host, rules: Rules, up: bool, commands: seq<Argv>): Result<seq<ArgvDecision>, PermissionError> {
    if commands == [] then Ok([])
    else
      match DecideAll(host, rules, up, commands[..|commands| - 1])
      case Err(error) => Err(error)
      case Ok(front) =>
        match Decided(host, rules, up, commands[|commands| - 1])
        case Err(error) => Err(error)
        case Ok(decision) => Ok(front + [decision])
  }

  function Classified(host: Host, rules: Rules, up: bool, command: Argv): Result<PermissionDecision, PermissionError> {
    match host.parse(command)
    case Err(error) => Err(error)
    case Ok(None) =>
      var refused := SafetyCheck(host, command) == Ok(NotExecutable);
      Ok(PermissionDecision(Composite, [command], if refused then NotExecutable else AskNoPersist))
    case Ok(Some(commands)) =>
      if |commands| == 1 then ClassifiedSingle(host, rules, up, commands[0])
      else ClassifiedComposite(host, rules, up, commands)
  }

  function ClassifiedComposite(host: Host, rules: Rules, up: bool, commands: seq<Argv>): Result<PermissionDecision, PermissionError> {
    if commands == [] then Err(EmptyCommand)
    else
      match DecideAll(host, rules, up, commands)
      case Err(error) => Err(error)
      case Ok(decisions) => Ok(PermissionDecision(Composite, commands, Verdict(decisions)))
  }

  function ClassifiedSingle(host: Host, rules: Rules, up: bool, argv: Argv): Result<PermissionDecision, PermissionError> {
    match host.strip(argv)
    case Malformed => Err(InvalidCommand)
    case Unsure => Ok(PermissionDecision(Composite, [argv], AskNoPersist))
    case Inner(inner) =>
      match Decided(host, rules, up, inner)
      case Err(error) => Err(error)
      case Ok(decision) => Ok(PermissionDecision(Simple, [inner], decision))
  }

  class PermissionController {
    const host: Host
    var rules: Rules

    constructor (host: Host)
      ensures this.host == host && rules == map[]
    {
      this.host := host;
      rules := map[];
    }

    method Decide(argv: Argv, up: bool) returns (r: Result<ArgvDecision, PermissionError>)
      ensures r == Decided(host, rules, up, argv)
    {
      var checked := SafetyCheck(host, argv);
      if checked.Err? { return checked; }
      if checked.value == Unknown {
        if !up { return Err(StorageFailed); }
        if Allowed(rules, Join(argv)) { return Ok(Allow); }
      }
      r := checked;
    }

    /** The classification; `up` says whether the database answers. */
    method Classify(command: Argv, up: bool) returns (r: Result<PermissionDecision, PermissionError>)
      ensures r == Classified(host, rules, up, command)
    {
      var parsed := host.parse(command);
      if parsed.Err? { return Err(parsed.error); }
      if parsed.value.None? {
        var checked := SafetyCheck(host, command);
        var verdict := if checked == Ok(NotExecutable) then NotExecutable else AskNoPersist;
        return Ok(PermissionDecision(Composite, [command], verdict));
      }
      var commands := parsed.value.value;
      if |commands| == 1 {
        r := ClassifySingle(commands[0], up);
        return;
      }
      r := ClassifyComposite(commands, up);
    }

    /** Keeps the strictest verdict seen; an unknown one may not be asked about as if it were simple. */
    method ClassifyComposite(commands: seq<Argv>, up: bool) returns (r: Result<PermissionDecision, PermissionError>)
      ensures r == ClassifiedComposite(host, rules, up, commands)
    {
      var strictest: Option<ArgvDecision> := None;
      ghost var decisions: seq<ArgvDecision> := [];
      for i := 0 to |commands|
        invariant DecideAll(host, rules, up, commands[..i]) == Ok(decisions) && |decisions| == i
        invariant IsStrictest(strictest, decisions)
      {
        assert commands[..i + 1][..i] == commands[..i];
        var decision := Decide(commands[i], up);
        if decision.Err? {
          StopsAtFirst(host, rules, up, commands, i + 1);
          return Err(decision.error);
        }
        if strictest.None? || decision.value.Severity() > strictest.value.Severity() {
          strictest := Some(decision.value);
        }
        decisions := decisions + [decision.value];
      }
      assert commands[..|commands|] == commands;
      if strictest.None? { return Err(EmptyCommand); }
      var verdict := if strictest.value == Unknown then AskNoPersist else strictest.value;
      StrictestVerdict(strictest.value, decisions);
      r := Ok(PermissionDecision(Composite, commands, verdict));
    }

    method ClassifySingle(argv: Argv, up: bool) returns (r: Result<PermissionDecision, PermissionError>)
      ensures r == ClassifiedSingle(host, rules, up, argv)
    {
      match host.strip(argv) {
        case Malformed => r := Err(InvalidCommand);
        case Unsure => r := Ok(PermissionDecision(Composite, [argv], AskNoPersist));
        case Inner(inner) =>
          var decision := Decide(inner, up);
          r := if decision.Err? then Err(decision.error) else Ok(PermissionDecision(Simple, [inner], decision.value));
      }
    }

    method AddPermission(prefix: string, glob: bool, up: bool) returns (r: Result<(), PermissionError>)
      modifies this
      ensures r.Ok? <==> up && prefix != ""
      ensures rules == if r.Ok? then old(rules)[prefix := glob] else old(rules)
    {
      var after := Added(rules, prefix, glob, up);
      if after.Err? { return Err(after.error); }
      rules := after.value;
      r := Ok(());
    }
  }

  /** The loop's accumulator: one of the verdicts seen, and none seen is stricter. */
  predicate IsStrictest(strictest: Option<ArgvDecision>, decisions: seq<ArgvDecision>) {
    match strictest
    case None => decisions == []
    case Some(top) => top in decisions && forall i | 0 <= i < |decisions| :: decisions[i].Severity() <= top.Severity()
  }

  /** The strictest verdict, an unknown one made a question, is the verdict of the whole. */
  lemma StrictestVerdict(top: ArgvDecision, decisions: seq<ArgvDecision>)
    requires IsStrictest(Some(top), decisions)
    ensures Verdict(decisions) == if top == Unknown then AskNoPersist else top
  {
    if NotExecutable in decisions {
      var i :| 0 <= i < |decisions| && decisions[i] == NotExecutable;
      assert decisions[i].Severity() <= top.Severity();
    }
  }

  lemma {:induction false} StopsAtFirst(host: Host, rules: Rules, up: bool, commands: seq<Argv>, n: nat)
    requires n <= |commands| && DecideAll(host, rules, up, commands[..n]).Err?
    ensures DecideAll(host, rules, up, commands) == DecideAll(host, rules, up, commands[..n])
    decreases |commands| - n
  {
    if n == |commands| {
      assert commands[..n] == commands;
    } else {
      assert commands[..n + 1][..n] == commands[..n];
      StopsAtFirst(host, rules, up, commands, n + 1);
    }
  }

  // ---------------------------------------------------------------- what a classification means

  /** A composite never comes out unknown, so nothing about it can be made a lasting rule; an unknown
      verdict always concerns one command that names its program. */
  lemma UnknownIsOneProgram(host: Host, rules: Rules, up: bool, command: Argv)
    requires Classified(host, rules, up, command).Ok?
    ensures var d := Classified(host, rules, up, command).value;
            && (d.kind == Composite ==> d.verdict != Unknown)
            && (d.kind == Simple ==> |d.parsed| == 1)
            && (d.verdict == Unknown ==> d.kind == Simple && d.parsed[0] != [] && d.parsed[0][0] != "")
  {
  }

  lemma {:induction false} DecideAllAt(host: Host, rules: Rules, up: bool, commands: seq<Argv>, i: nat)
    requires DecideAll(host, rules, up, commands).Ok? && i < |commands|
    ensures |DecideAll(host, rules, up, commands).value| == |commands|
    ensures Decided(host, rules, up, commands[i]) == Ok(DecideAll(host, rules, up, commands).value[i])
  {
    if |commands| > 1 {
      DecideAllAt(host, rules, up, commands[..|commands| - 1], if i < |commands| - 1 then i else 0);
    }
  }

  /** A composite that can be classified is allowed just when every one of its commands is, and refused
      just when one of them is. */
  lemma CompositeVerdict(host: Host, rules: Rules, up: bool, command: Argv, commands: seq<Argv>)
    requires host.parse(command) == Ok(Some(commands)) && |commands| > 1
    requires Classified(host, rules, up, command).Ok?
    ensures var v := Classified(host, rules, up, command).value.verdict;
            && (v == Allow <==> forall i | 0 <= i < |commands| :: Decided(host, rules, up, commands[i]) == Ok(Allow))
            && (v == NotExecutable <==> exists i | 0 <= i < |commands| :: Decided(host, rules, up, commands[i]) == Ok(NotExecutable))
            && v != Unknown
  {
    var decisions := DecideAll(host, rules, up, commands).value;
    forall i | 0 <= i < |commands|
      ensures |decisions| == |commands| && Decided(host, rules, up, commands[i]) == Ok(decisions[i])
    {
      DecideAllAt(host, rules, up, commands, i);
    }
    assert |decisions| == |commands| by { DecideAllAt(host, rules, up, commands, 0); }
  }

  lemma {:induction false} DecideAllIff(host: Host, rules: Rules, up: bool, commands: seq<Argv>)
    ensures DecideAll(host, rules, up, commands).Ok? <==> forall c | c in commands :: Decided(host, rules, up, c).Ok?
  {
    if commands != [] {
      var front, last := commands[..|commands| - 1], commands[|commands| - 1];
      assert commands == front + [last];
      DecideAllIff(host, rules, up, front);
    }
  }

  /** The verdict of commands that can all be decided, by which decisions there are among them. */
  lemma {:induction false} VerdictByMembers(host: Host, rules: Rules, up: bool, commands: seq<Argv>)
    requires DecideAll(host, rules, up, commands).Ok?
    ensures var v := Verdict(DecideAll(host, rules, up, commands).value);
            && (v == NotExecutable <==> exists c | c in commands :: Decided(host, rules, up, c) == Ok(NotExecutable))
            && (v == Allow <==> forall c | c in commands :: Decided(host, rules, up, c) == Ok(Allow))
            && v != Unknown
  {
    var decisions := DecideAll(host, rules, up, commands).value;
    forall i | 0 <= i < |commands|
      ensures |decisions| == |commands| && Decided(host, rules, up, commands[i]) == Ok(decisions[i])
    {
      DecideAllAt(host, rules, up, commands, i);
    }
    assert |decisions| == |commands| by { if commands != [] { DecideAllAt(host, rules, up, commands, 0); } }
    if NotExecutable in decisions {
      var i :| 0 <= i < |decisions| && decisions[i] == NotExecutable;
      assert commands[i] in commands;
    }
  }

  /** Whether a composite can be classified, and as what, does not depend on the order of its commands. */
  lemma VerdictOrderFree(host: Host, rules: Rules, up: bool, a: seq<Argv>, b: seq<Argv>)
    requires multiset(a) == multiset(b)
    ensures var x, y := ClassifiedComposite(host, rules, up, a), ClassifiedComposite(host, rules, up, b);
            && (x.Ok? <==> y.Ok?)
            && (x.Ok? ==> x.value.verdict == y.value.verdict)
  {
    assert |a| == |multiset(a)| && |b| == |multiset(b)|;
    forall c: Argv ensures c in a <==> c in b {
      assert c in a <==> c in multiset(a);
      assert c in b <==> c in multiset(b);
    }
    DecideAllIff(host, rules, up, a);
    DecideAllIff(host, rules, up, b);
    if DecideAll(host, rules, up, a).Ok? {
      VerdictByMembers(host, rules, up, a);
      VerdictByMembers(host, rules, up, b);
    }
  }

  // ---------------------------------------------------------------- when nobody is asked

  // The host's verdicts and the stored rules decide; what follows says how, for every command at once.

  predicate Named(argv: Argv) {
    argv != [] && argv[0] != ""
  }

  /** Nobody need be asked about this argv. */
  predicate Harmless(host: Host, rules: Rules, up: bool, argv: Argv) {
    Named(argv) && (host.verdict(argv) == Allow || (host.verdict(argv) == Unknown && up && Allowed(rules, Join(argv))))
  }

  /** No verdict can be had: no program, or a rule would be needed and the database does not answer. */
  predicate Undecidable(host: Host, up: bool, argv: Argv) {
    !Named(argv) || (host.verdict(argv) == Unknown && !up)
  }

  /** The argvs that are judged: those the parser found, or what is left of a single one once stripped;
      nothing if the command cannot be taken apart or safely stripped. */
  function Judged(host: Host, command: Argv): Option<seq<Argv>> {
    match host.parse(command)
    case Ok(Some(commands)) =>
      if |commands| == 1 then
        if host.strip(commands[0]).Inner? then Some([host.strip(commands[0]).argv]) else None
      else Some(commands)
    case _ => None
  }

  lemma {:induction false} JudgedOne(host: Host, rules: Rules, up: bool, argv: Argv)
    ensures Decided(host, rules, up, argv) == Ok(Allow) <==> Harmless(host, rules, up, argv)
    ensures Decided(host, rules, up, argv) == Ok(NotExecutable) <==> Named(argv) && host.verdict(argv) == NotExecutable
    ensures Decided(host, rules, up, argv).Err? <==> Undecidable(host, up, argv)
    ensures Decided(host, rules, up, argv) == Ok(Unknown)
       <==> Named(argv) && host.verdict(argv) == Unknown && up && !Allowed(rules, Join(argv))
  {
  }

  lemma {:induction false} JudgedAll(host: Host, rules: Rules, up: bool, commands: seq<Argv>)
    requires commands != []
    ensures var c := ClassifiedComposite(host, rules, up, commands);
            && (c.Err? <==> exists a | a in commands :: Undecidable(host, up, a))
            && (c.Ok? ==> c.value.kind == Composite && c.value.parsed == commands && c.value.verdict != Unknown)
            && (c.Ok? ==> (c.value.verdict == Allow <==> forall a | a in commands :: Harmless(host, rules, up, a)))
            && (c.Ok? ==> (c.value.verdict == NotExecutable <==>
                             exists a | a in commands :: Named(a) && host.verdict(a) == NotExecutable))
  {
    DecideAllIff(host, rules, up, commands);
    forall a | a in commands
      ensures Decided(host, rules, up, a) == Ok(Allow) <==> Harmless(host, rules, up, a)
      ensures Decided(host, rules, up, a) == Ok(NotExecutable) <==> Named(a) && host.verdict(a) == NotExecutable
      ensures Decided(host, rules, up, a).Err? <==> Undecidable(host, up, a)
    {
      JudgedOne(host, rules, up, a);
    }
    if DecideAll(host, rules, up, commands).Ok? {
      VerdictByMembers(host, rules, up, commands);
    }
  }

  /** A command runs unasked just when it was taken apart into at least one argv and every one of them is
      harmless: on the safe list, or unknown and covered by a stored rule. */
  lemma {:induction false} AllowedIff(host: Host, rules: Rules, up: bool, command: Argv)
    ensures var c := Classified(host, rules, up, command);
            (c.Ok? && c.value.verdict == Allow) <==> Unasked(host, rules, up, command)
  {
    var judged := Judged(host, command);
    if judged.Some? && judged.value != [] {
      if |judged.value| == 1 {
        JudgedOne(host, rules, up, judged.value[0]);
      } else {
        JudgedAll(host, rules, up, judged.value);
        assert judged.value[0] in judged.value;
        AllHarmless(host, rules, up, judged.value);
      }
    }
  }

  predicate Unasked(host: Host, rules: Rules, up: bool, command: Argv) {
    var judged := Judged(host, command);
    && judged.Some? && judged.value != []
    && forall a | a in judged.value :: Harmless(host, rules, up, a)
  }

  lemma AllHarmless(host: Host, rules: Rules, up: bool, commands: seq<Argv>)
    ensures (forall a | a in commands :: Harmless(host, rules, up, a)) ==>
              !exists a | a in commands :: Undecidable(host, up, a)
  {
    forall a | a in commands && Harmless(host, rules, up, a) ensures !Undecidable(host, up, a) {
    }
  }

  /** A command is refused outright just when all its argvs can be judged and one of them cannot be
      executed, or when it cannot be taken apart and cannot be executed as it stands. */
  lemma {:induction false} RefusedIff(host: Host, rules: Rules, up: bool, command: Argv)
    ensures var c := Classified(host, rules, up, command);
            (c.Ok? && c.value.verdict == NotExecutable) <==> Refused(host, up, command)
  {
    var judged := Judged(host, command);
    if judged.Some? && judged.value != [] {
      if |judged.value| == 1 {
        JudgedOne(host, rules, up, judged.value[0]);
      } else {
        JudgedAll(host, rules, up, judged.value);
      }
    }
  }

  predicate Refused(host: Host, up: bool, command: Argv) {
    var judged := Judged(host, command);
    if host.parse(command) == Ok(None) then Named(command) && host.verdict(command) == NotExecutable
    else
      && judged.Some?
      && (exists a | a in judged.value :: Named(a) && host.verdict(a) == NotExecutable)
      && (forall a | a in judged.value :: !Undecidable(host, up, a))
  }

  /** What the user would be shown about a command that is neither allowed nor refused: an unknown single
      program may become a rule; everything else, above all what could not be taken apart or safely
      stripped, is asked about each time. */
  lemma {:induction false} AskedAbout(host: Host, rules: Rules, up: bool, command: Argv)
    ensures var c := Classified(host, rules, up, command);
            && (host.parse(command) == Ok(None) ==>
                  c == Ok(PermissionDecision(Composite, [command], if Refused(host, up, command) then NotExecutable else AskNoPersist)))
            && (forall argv :: host.parse(command) == Ok(Some([argv])) && host.strip(argv) == Unsure ==>
                  c == Ok(PermissionDecision(Composite, [argv], AskNoPersist)))
            && (c.Ok? && Judged(host, command).Some? ==> c.value.parsed == Judged(host, command).value)
            && (c.Ok? ==> (c.value.kind == Simple <==> Judged(host, command).Some? && |Judged(host, command).value| == 1))
            && (c.Ok? ==> (c.value.verdict == Unknown <==>
                  && c.value.kind == Simple && host.verdict(c.value.parsed[0]) == Unknown
                  && !Allowed(rules, Join(c.value.parsed[0]))))
  {
    var judged := Judged(host, command);
    if judged.Some? && judged.value != [] {
      if |judged.value| == 1 {
        JudgedOne(host, rules, up, judged.value[0]);
      } else {
        JudgedAll(host, rules, up, judged.value);
      }
    }
  }

  /** A command has no classification just when the parser fails or finds nothing, its wrapper is malformed,
      or one of its argvs cannot be judged. */
  lemma {:induction false} FailsIff(host: Host, rules: Rules, up: bool, command: Argv)
    ensures Classified(host, rules, up, command).Err? <==> Unjudged(host, up, command)
  {
    var judged := Judged(host, command);
    if judged.Some? && judged.value != [] {
      if |judged.value| == 1 {
        JudgedOne(host, rules, up, judged.value[0]);
      } else {
        JudgedAll(host, rules, up, judged.value);
      }
    }
  }

  predicate Unjudged(host: Host, up: bool, command: Argv) {
    match host.parse(command)
    case Err(_) => true
    case Ok(None) => false
    case Ok(Some(commands)) =>
      || commands == []
      || (|commands| == 1 && host.strip(commands[0]).Malformed?)
      || (Judged(host, command).Some? && exists a | a in Judged(host, command).value :: Undecidable(host, up, a))
  }

  /** One argv is all there is to judge. */
  predicate Single(host: Host, command: Argv) {
    Judged(host, command).Some? && |Judged(host, command).value| == 1
  }

  /** The four outcomes of a classification, in terms of what is judged. */
  lemma {:induction false} OutcomeIff(host: Host, rules: Rules, up: bool, command: Argv)
    ensures var c := Classified(host, rules, up, command);
            && (c.Err? <==> Unjudged(host, up, command))
            && (c.Ok? && c.value.verdict == Allow <==> Unasked(host, rules, up, command))
            && (c.Ok? && c.value.verdict == NotExecutable <==> Refused(host, up, command))
            && (c.Ok? ==> (c.value.kind == Simple <==> Single(host, command)))
  {
    FailsIff(host, rules, up, command);
    AllowedIff(host, rules, up, command);
    RefusedIff(host, rules, up, command);
    AskedAbout(host, rules, up, command);
  }

  /** One verdict is a loosening of another: equal, or a question answered by a rule. */
  predicate Loosened(before: ArgvDecision, after: ArgvDecision) {
    after == before || (after == Allow && before in {Unknown, AskNoPersist})
  }

  lemma {:induction false} MoreRulesDecideAll(host: Host, narrow: Rules, wide: Rules, commands: seq<Argv>)
    requires Wider(wide, narrow)
    ensures var before, after := DecideAll(host, narrow, true, commands), DecideAll(host, wide, true, commands);
            if before.Err? then after == before
            else after.Ok? && |after.value| == |before.value|
                 && forall i | 0 <= i < |after.value| ::
                      after.value[i] == before.value[i] || (before.value[i] == Unknown && after.value[i] == Allow)
  {
    if commands != [] {
      MoreRulesDecideAll(host, narrow, wide, commands[..|commands| - 1]);
    }
  }

  /** More rules change a classification only from a question to `Allow`: never what was refused, never
      what was allowed, and never which commands it is about. */
  lemma MoreRulesLoosen(host: Host, narrow: Rules, wide: Rules, command: Argv)
    requires Wider(wide, narrow)
    ensures var before, after := Classified(host, narrow, true, command), Classified(host, wide, true, command);
            if before.Err? then after == before
            else after.Ok? && after.value.kind == before.value.kind && after.value.parsed == before.value.parsed
                 && Loosened(before.value.verdict, after.value.verdict)
  {
    var parsed := host.parse(command);
    if parsed.Ok? && parsed.value.Some? && |parsed.value.value| > 1 {
      var commands := parsed.value.value;
      MoreRulesDecideAll(host, narrow, wide, commands);
      if DecideAll(host, narrow, true, commands).Ok? {
        LoosenedVerdict(DecideAll(host, narrow, true, commands).value, DecideAll(host, wide, true, commands).value);
      }
    }
  }

  lemma LoosenedVerdict(before: seq<ArgvDecision>, after: seq<ArgvDecision>)
    requires |before| == |after|
    requires forall i | 0 <= i < |after| :: after[i] == before[i] || (before[i] == Unknown && after[i] == Allow)
    ensures Loosened(Verdict(before), Verdict(after))
  {
    if NotExecutable in before {
      var i :| 0 <= i < |before| && before[i] == NotExecutable;
      assert after[i] == NotExecutable;
    }
    if NotExecutable in after {
      var i :| 0 <= i < |after| && after[i] == NotExecutable;
      assert before[i] == NotExecutable;
    }
  }

  // ---------------------------------------------------------------- the rules a user is offered

  /** The rules offered for an unknown command, broadest first: its program, and its program with a
      subcommand. Each covers continuations. */
  function OfferedPrefixes(argv: Argv): seq<string> {
    if argv == [] then []
    else if |argv| > 1 && !("-" <= argv[1]) then [argv[0], Join(argv[..2])]
    else [argv[0]]
  }

  lemma StringAssoc(a: string, b: string, c: string)
    ensures a + b + c == a + (b + c)
  {
  }

  lemma PrefixCovers(prefix: string, rest: string)
    ensures Covers(prefix, true, prefix) && Covers(prefix, true, prefix + " " + rest)
  {
  }

  /** A rule with continuations covers its prefix and whatever follows it after a space. */
  lemma CoversIff(prefix: string, command: string)
    ensures Covers(prefix, false, command) <==> command == prefix
    ensures Covers(prefix, true, command) <==> command == prefix || exists rest: string :: command == prefix + " " + rest
  {
    if prefix + " " <= command {
      assert command == prefix + " " + command[|prefix| + 1..];
    }
  }

  /** The words in order, one space between them, wherever the list is cut. */
  lemma {:induction false} JoinCut(a: Argv, b: Argv)
    requires a != [] && b != []
    ensures Join(a + b) == Join(a) + " " + Join(b)
    ensures |a| == 1 ==> Join(a) == a[0]
  {
    if |a| == 1 {
      assert (a + b)[1..] == b;
    } else {
      JoinCut(a[1..], b);
      assert (a + b)[1..] == a[1..] + b;
      StringAssoc(a[0] + " ", Join(a[1..]), " " + Join(b));
      StringAssoc(Join(a[1..]), " ", Join(b));
      StringAssoc(Join(a), " ", Join(b));
    }
  }

  /** The rules offered: the program, and the program with its second word unless that is an option. */
  lemma OfferedIff(argv: Argv, prefix: string)
    ensures prefix in OfferedPrefixes(argv)
       <==> argv != [] && (prefix == argv[0]
                           || (|argv| > 1 && (argv[1] == "" || argv[1][0] != '-') && prefix == argv[0] + " " + argv[1]))
  {
    if |argv| > 1 {
      JoinTwo(argv);
      assert "-" <= argv[1] <==> argv[1] != "" && argv[1][0] == '-';
    }
  }

  lemma {:induction false} JoinSplit(argv: Argv)
    requires |argv| > 2
    ensures Join(argv) == Join(argv[..2]) + " " + Join(argv[2..])
  {
    assert argv[..2] + argv[2..] == argv;
    JoinCut(argv[..2], argv[2..]);
  }

  lemma JoinTwo(argv: Argv)
    requires |argv| > 1
    ensures Join(argv[..2]) == argv[0] + " " + argv[1]
  {
    assert argv[..2][1..] == [argv[1]];
  }

  lemma {:induction false} JoinCons(argv: Argv)
    requires argv != []
    ensures Covers(argv[0], true, Join(argv))
    ensures |argv| > 1 ==> Covers(Join(argv[..2]), true, Join(argv)) && |Join(argv[..2])| > |argv[0]|
  {
    if |argv| > 1 {
      PrefixCovers(argv[0], Join(argv[1..]));
      JoinTwo(argv);
      if |argv| > 2 {
        JoinSplit(argv);
        PrefixCovers(Join(argv[..2]), Join(argv[2..]));
      } else {
        assert argv[..2] == argv;
      }
    }
  }

  /** Whichever offered rule is saved covers the command it was offered for, and can be saved. */
  lemma {:induction false} OfferCovers(argv: Argv, prefix: string)
    requires argv != [] && argv[0] != "" && prefix in OfferedPrefixes(argv)
    ensures prefix != "" && Covers(prefix, true, Join(argv))
  {
    JoinCons(argv);
  }

  /** A command that was unknown once is allowed later just when a rule then covers it, and is asked about
      otherwise, whichever rules there were at first. */
  lemma AllowedIffCovered(host: Host, asked: Rules, up: bool, command: Argv, later: Rules)
    requires var d := Classified(host, asked, up, command); d.Ok? && d.value.verdict == Unknown
    ensures var d := Classified(host, asked, up, command).value;
            Classified(host, later, true, command)
              == Ok(d.(verdict := if Allowed(later, Join(d.parsed[0])) then Allow else Unknown))
  {
    UnknownIsOneProgram(host, asked, up, command);
  }

  /** Once a rule offered for a command is saved, the command is allowed as long as the rule is there,
      whichever rules were there when it was asked about or saved, and whatever happens to the others. */
  lemma ApprovalCloses(host: Host, asked: Rules, up: bool, command: Argv, prefix: string, saved: Rules, later: Rules)
    requires var d := Classified(host, asked, up, command);
             d.Ok? && d.value.verdict == Unknown && prefix in OfferedPrefixes(d.value.parsed[0])
    requires prefix in later && later[prefix]
    ensures Added(saved, prefix, true, true) == Ok(saved[prefix := true])
    ensures Classified(host, later, true, command)
         == Ok(Classified(host, asked, up, command).value.(verdict := Allow))
  {
    UnknownIsOneProgram(host, asked, up, command);
    OfferCovers(Classified(host, asked, up, command).value.parsed[0], prefix);
    AllowedIffCovered(host, asked, up, command, later);
  }
}
