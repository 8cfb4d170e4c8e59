/** The interactive loop: the project type, the five field prompts with their
    "ask or skip" decisions, the later-wins merge into the project intent, the
    dispatch to one generator, and the reset of the command record after the
    first iteration. */
module Orchestrator {
  import opened Js
  import opened Options
  import opened Manifests
  import opened Prompts

  /** What the loop reads from its surroundings: the working directory, whether `git` is
      installed, the author git reported (empty when it failed), the paths that exist, and
      the year and tool version stamped on every intent. */
  datatype Env = Env(cwd: string, sysGit: bool, author: string, existing: set<string>, year: int, version: string)

  /** A hand-off to one of the external generators, with exactly what it receives. */
  datatype Dispatch =
    | SiteDetected(run: CommandRun)
    | ComponentDetected(run: CommandRun, packageData: Manifest)
    | SiteBuild(run: CommandRun, intent: Bag)
    | ComponentBuild(run: CommandRun, intent: Bag)

  /** The fields of the second prompt group, in the order they are resolved. */
  datatype Field = PathField | NameField | OrgField | AuthorField | ExtrasField

  function FieldKey(f: Field): string {
    match f
    case PathField => "path"
    case NameField => "name"
    case OrgField => "org"
    case AuthorField => "author"
    case ExtrasField => "extras"
  }

  /** Whether a field's resolver shows its prompt, given the command record's options and
      the chosen project type; a field that is not asked resolves to `undefined`. */
  predicate Asks(f: Field, opts: Bag, kind: Kind) {
    match f
    case PathField => !Truthy(opts, "path") && !Truthy(opts, "auto")
    case NameField => !Truthy(opts, "name")
    case OrgField => kind == Webcomponent && !Truthy(opts, "org") && !Truthy(opts, "auto")
    case AuthorField => !Truthy(opts, "author") && !Truthy(opts, "auto")
    case ExtrasField => !Truthy(opts, "auto")
  }

  /** The text an option holds; a value of another type reads as empty. */
  function TextOf(v: Value): string {
    if v.Str? then v.s else ""
  }

  /** The folder a new project's name is checked against: `options.path`, else the path
      answered earlier in the group, else the working directory. */
  function NameBase(opts: Bag, results: Bag, cwd: string): string {
    if Truthy(opts, "path") then TextOf(opts["path"])
    else if Truthy(results, "path") then TextOf(results["path"])
    else cwd
  }

  /** The extras offered, which are also the initial selection. */
  function ExtrasOffer(run: CommandRun, kind: Kind, sysGit: bool): seq<string> {
    if run.command == Some(WebcomponentCommand) || kind == Webcomponent then
      if !sysGit || Truthy(run.options, "isMonorepo") then ["launch", "install"]
      else ["launch", "install", "git"]
    else ["launch"]
  }

  /** `launch` is always offered first; `install` only for a component, and second; `git`
      only for a component outside a monorepo on a machine with git, and nothing else. */
  lemma ExtrasOfferContents(run: CommandRun, kind: Kind, sysGit: bool)
    ensures var offer := ExtrasOffer(run, kind, sysGit);
      var component := run.command == Some(WebcomponentCommand) || kind == Webcomponent;
      && |offer| > 0 && offer[0] == "launch"
      && ("install" in offer <==> component)
      && ("git" in offer <==> component && sysGit && !Truthy(run.options, "isMonorepo"))
      && |offer| == (if component then 2 else 1) + (if component && sysGit && !Truthy(run.options, "isMonorepo") then 1 else 0)
      && (component ==> offer[1] == "install")
  {
    // String literals differ for the verifier only once a differing character is named.
    assert "launch" != "install" && "launch" != "git" by { assert "launch"[0] == 'l'; }
    assert "install" != "git" by { assert "install"[0] == 'i'; }
  }

  /** A value the field's prompt can return: it passed the field's validator. */
  predicate Accepted(f: Field, v: Value, run: CommandRun, kind: Kind, env: Env, earlier: Bag) {
    match f
    case PathField => v.Str? && v.s != "" && v.s in env.existing
    case NameField => v.Str? && WellShapedName(kind, v.s) && Join(NameBase(run.options, earlier, env.cwd), v.s) !in env.existing
    case OrgField => v.Str? && (v.s == "" || v.s[0] == '@')
    case AuthorField => v.Str?
    case ExtrasField => v.List? && forall i :: 0 <= i < |v.items| ==> v.items[i] in ExtrasOffer(run, kind, env.sysGit)
  }

  function AsValue(r: Reply<string>): Reply<Value>
  {
    match r
    case Answered(v, rest, rejected) => Answered(Str(v), rest, rejected)
    case Cancelled => Cancelled
    case Stalled => Stalled
  }

  /** Show one field's prompt. */
  function Ask(f: Field, run: CommandRun, kind: Kind, env: Env, earlier: Bag, script: seq<Answer>): (r: Reply<Value>)
    ensures r.Answered? ==>
      && Accepted(f, r.value, run, kind, env, earlier)
      && |r.rest| < |script|
      && r.rest == script[|script| - |r.rest|..]
  {
    match f
    case PathField => AsValue(AskText(script, "", PathCheck, env.existing))
    case NameField =>
      AsValue(AskText(script, "", NameCheck(kind, NameBase(run.options, earlier, env.cwd)), env.existing))
    case OrgField => AsValue(AskText(script, "", OrgCheck, env.existing))
    case AuthorField => AsValue(AskText(script, env.author, NoCheck, env.existing))
    case ExtrasField =>
      match AskExtras(script, ExtrasOffer(run, kind, env.sysGit))
      case Answered(values, rest, rejected) => Answered(List(values), rest, rejected)
      case Cancelled => Cancelled
      case Stalled => Stalled
  }

  /** The prompt group so far: the results collected, the fields that were asked, the
      answers left, and the validation problems shown. */
  datatype Group = Collected(answers: Bag, asked: seq<Field>, rest: seq<Answer>, rejected: seq<Problem>) | GroupCancelled | GroupStalled

  /** Resolve one more field of the group: skip it (it reads `undefined`) or ask it. */
  function Fill(g: Group, f: Field, run: CommandRun, kind: Kind, env: Env): (h: Group)
    ensures h.Collected? ==>
      && g.Collected?
      && h.answers.Keys == g.answers.Keys + {FieldKey(f)}
      && (forall k :: k in g.answers && k != FieldKey(f) ==> h.answers[k] == g.answers[k])
      && |h.rest| <= |g.rest|
    ensures h.Collected? && Asks(f, run.options, kind) ==>
      && h.asked == g.asked + [f]
      && Accepted(f, h.answers[FieldKey(f)], run, kind, env, g.answers)
      && |h.rest| < |g.rest|
    ensures h.Collected? && !Asks(f, run.options, kind) ==>
      h.asked == g.asked && h.answers[FieldKey(f)] == Undef && h.rest == g.rest
    ensures g.Collected? && !Asks(f, run.options, kind) ==> h.Collected?
  {
    match g
    case Collected(answers, asked, rest, rejected) =>
      if !Asks(f, run.options, kind) then
        Collected(answers[FieldKey(f) := Undef], asked, rest, rejected)
      else
        (match Ask(f, run, kind, env, answers, rest)
         case Answered(v, rest', shown) => Collected(answers[FieldKey(f) := v], asked + [f], rest', rejected + shown)
         case Cancelled => GroupCancelled
         case Stalled => GroupStalled)
    case _ => g
  }

  /** The first results of the second group: `type` holds the chosen kind. */
  function Opening(kind: Kind, script: seq<Answer>): Group {
    Collected(map["type" := Str(KindName(kind))], [], script, [])
  }

  /** The group while it is being resolved: the first `n` fields, in the order path, name,
      org, author, extras, have been resolved. */
  function Stage(n: nat, run: CommandRun, kind: Kind, env: Env, script: seq<Answer>): (g: Group)
    requires n <= 5
    ensures g.Collected? ==> Holds(g.answers, "type", Str(KindName(kind))) && |g.rest| <= |script|
    decreases n
  {
    if n == 0 then Opening(kind, script)
    else Fill(Stage(n - 1, run, kind, env, script), GroupFields[n - 1], run, kind, env)
  }

  const GroupFields := [PathField, NameField, OrgField, AuthorField, ExtrasField]

  /** The second prompt group: `type` is the chosen kind, then path, name, org, author and
      extras are resolved in that order. */
  function CollectGroup(run: CommandRun, kind: Kind, env: Env, script: seq<Answer>): (g: Group)
    ensures g.Collected? ==> Holds(g.answers, "type", Str(KindName(kind))) && |g.rest| <= |script|
  {
    Stage(5, run, kind, env, script)
  }

  /** The keys stamped on the intent after the merge. */
  predicate Stamped(k: string) {
    k == "year" || k == "version"
  }

  /** The value the intent should carry under `k`, by precedence: command-line options, then
      positional arguments, then answers, then the `isMonorepo: false` default. */
  function Winner(answers: Bag, run: CommandRun, k: string): Option<Value> {
    if k in run.options then Some(run.options[k])
    else if k in run.arguments then Some(run.arguments[k])
    else if k in answers then Some(answers[k])
    else if k == "isMonorepo" then Some(Bool(false))
    else None
  }

  /** The project intent: `{isMonorepo: false, ...answers, ...arguments, ...options}`, then
      stamped with the year and the tool version. */
  function Intent(answers: Bag, run: CommandRun, env: Env): (intent: Bag)
    ensures forall k :: !Stamped(k) ==> (k in intent <==> Winner(answers, run, k).Some?)
    ensures forall k :: !Stamped(k) && k in intent ==> intent[k] == Winner(answers, run, k).value
    ensures Holds(intent, "year", Num(env.year)) && Holds(intent, "version", Str(env.version))
  {
    var defaults := map["isMonorepo" := Bool(false)];
    var merged := Spread(Spread(Spread(defaults, answers), run.arguments), run.options);
    merged["year" := Num(env.year)]["version" := Str(env.version)]
  }

  /** The merge never replaces the project type: `type` is neither an option nor an argument. */
  lemma IntentKeepsType(answers: Bag, run: CommandRun, env: Env, t: Value)
    requires WellFormed(run) && Holds(answers, "type", t)
    ensures Holds(Intent(answers, run, env), "type", t)
  {
    TypeIsNoOption();
    assert !Stamped("type");
    assert Winner(answers, run, "type") == Some(t);
  }

  /** The intent carries every option of the record, and every positional argument that no
      option shadows, whatever the prompts answered. */
  predicate CommandLineWins(run: CommandRun, intent: Bag) {
    && (forall k :: k in run.options && !Stamped(k) ==> Holds(intent, k, run.options[k]))
    && (forall k :: k in run.arguments && k !in run.options && !Stamped(k) ==> Holds(intent, k, run.arguments[k]))
  }

  /** A key that no option, argument or stamp sets takes the answered value. */
  lemma IntentTakesAnswer(answers: Bag, run: CommandRun, env: Env, k: string)
    requires !Stamped(k) && k !in run.options && k !in run.arguments && k in answers
    ensures Holds(Intent(answers, run, env), k, answers[k])
  {
    assert Winner(answers, run, k) == Some(answers[k]);
  }

  /** Unless something sets it, a project is not a monorepo. */
  lemma IntentDefaultsMonorepo(answers: Bag, run: CommandRun, env: Env)
    requires "isMonorepo" !in run.options && "isMonorepo" !in run.arguments && "isMonorepo" !in answers
    ensures Holds(Intent(answers, run, env), "isMonorepo", Bool(false))
  {
    assert !Stamped("isMonorepo") by { assert "isMonorepo"[0] == 'i'; }
    assert Winner(answers, run, "isMonorepo") == Some(Bool(false));
  }

  /** The sub-command pins the project type and the type prompt is skipped. */
  predicate Pinned(run: CommandRun) {
    run.command == Some(SiteCommand) || run.command == Some(WebcomponentCommand)
  }

  /** The type of the iteration: the pinned sub-command, or the answer to the type prompt. */
  function ChooseKind(run: CommandRun, script: seq<Answer>): (r: Reply<Kind>)
    ensures Pinned(run) <==> r.Answered? && r.rest == script
    ensures Pinned(run) ==> r.value != Quit && (r.value == Site <==> run.command == Some(SiteCommand))
  {
    if run.command == Some(SiteCommand) then Answered(Site, script, [])
    else if run.command == Some(WebcomponentCommand) then Answered(Webcomponent, script, [])
    else AskKind(script)
  }

  /** How one iteration of the loop ends. */
  datatype Step = Built(dispatch: Dispatch, rest: seq<Answer>) | Quitting(rest: seq<Answer>) | StepCancelled | StepStalled

  /** The dispatch goes to the generator of its intent's `type`. */
  predicate RoutedByType(d: Dispatch) {
    || (d.SiteBuild? && Holds(d.intent, "type", Str("site")))
    || (d.ComponentBuild? && Holds(d.intent, "type", Str("webcomponent")))
  }

  /** The rest of an iteration once a buildable type is known: the prompt group, the merge,
      and the dispatch by type. */
  function Build(run: CommandRun, kind: Kind, env: Env, script: seq<Answer>): (s: Step)
    requires WellFormed(run) && kind != Quit
    ensures s.Built? ==> |s.rest| <= |script| && s.dispatch.run == run && RoutedByType(s.dispatch)
    ensures s.Built? ==> CommandLineWins(run, s.dispatch.intent)
    ensures s.Built? ==> (s.dispatch.SiteBuild? <==> kind == Site)
    ensures !s.Quitting?
  {
    match CollectGroup(run, kind, env, script)
    case GroupCancelled => StepCancelled
    case GroupStalled => StepStalled
    case Collected(answers, _, rest, _) =>
      var intent := Intent(answers, run, env);
      IntentKeepsType(answers, run, env, Str(KindName(kind)));
      if kind == Site then Built(SiteBuild(run, intent), rest)
      else Built(ComponentBuild(run, intent), rest)
  }

  /** One iteration of the loop over a command record. */
  function Iterate(run: CommandRun, env: Env, script: seq<Answer>): (s: Step)
    requires WellFormed(run)
    ensures (s.Built? || s.Quitting?) ==> |s.rest| <= |script|
    ensures (s.Built? || s.Quitting?) && !Pinned(run) ==> |s.rest| < |script|
    ensures s.Quitting? ==> !Pinned(run) && script[0] == Choose(Quit)
    ensures !Pinned(run) && |script| > 0 && script[0] == Choose(Quit) ==> s == Quitting(script[1..])
    ensures !Pinned(run) && |script| > 0 && script[0] == Submit && s.Built? ==> s.dispatch.ComponentBuild?
    ensures s.Built? ==> s.dispatch.run == run && RoutedByType(s.dispatch) && CommandLineWins(run, s.dispatch.intent)
    ensures s.Built? && Pinned(run) ==> (s.dispatch.SiteBuild? <==> run.command == Some(SiteCommand))
  {
    match ChooseKind(run, script)
    case Cancelled => StepCancelled
    case Stalled => StepStalled
    case Answered(kind, rest, _) =>
      if kind == Quit then Quitting(rest) else Build(run, kind, env, rest)
  }

  /** How the loop ends: the user chose quit, cancelled a prompt, or the answers ran out
      while a prompt still waits. */
  datatype End = QuitChosen | CancelledByUser | OutOfAnswers

  datatype Trace = Trace(dispatches: seq<Dispatch>, end: End)

  /** The interactive loop. Every iteration after the first starts from `EmptyRun`. */
  function Loop(run: CommandRun, env: Env, script: seq<Answer>, first: bool): (t: Trace)
    requires WellFormed(run)
    decreases |script|, if first then 1 else 0
  {
    var current := if first then run else EmptyRun;
    match Iterate(current, env, script)
    case Quitting(_) => Trace([], QuitChosen)
    case StepCancelled => Trace([], CancelledByUser)
    case StepStalled => Trace([], OutOfAnswers)
    case Built(d, rest) =>
      var t := Loop(current, env, rest, false);
      Trace([d] + t.dispatches, t.end)
  }

  /** Every dispatch of the loop goes to the generator of its intent's `type`: the site
      generator for `site`, the component generator for `webcomponent`. */
  lemma {:induction false} LoopDispatchesByType(run: CommandRun, env: Env, script: seq<Answer>, first: bool)
    requires WellFormed(run)
    ensures forall d :: d in Loop(run, env, script, first).dispatches ==> RoutedByType(d)
    decreases |script|, if first then 1 else 0
  {
    var current := if first then run else EmptyRun;
    var s := Iterate(current, env, script);
    var t := Loop(run, env, script, first);
    if s.Built? {
      var later := Loop(current, env, s.rest, false);
      LoopDispatchesByType(current, env, s.rest, false);
      assert t.dispatches == [s.dispatch] + later.dispatches;
    } else {
      assert t.dispatches == [];
    }
  }

  /** The first dispatch receives the command record the loop started with; every later one
      receives the reset record `{command: null, arguments: {}, options: {}}`. */
  lemma {:induction false} LoopResetsAfterFirst(run: CommandRun, env: Env, script: seq<Answer>, first: bool)
    requires WellFormed(run)
    ensures var t := Loop(run, env, script, first);
      && (!first ==> forall d :: d in t.dispatches ==> d.run == EmptyRun)
      && (first && |t.dispatches| > 0 ==>
            t.dispatches[0].run == run && forall d :: d in t.dispatches[1..] ==> d.run == EmptyRun)
    decreases |script|, if first then 1 else 0
  {
    var current := if first then run else EmptyRun;
    var s := Iterate(current, env, script);
    var t := Loop(run, env, script, first);
    if s.Built? {
      var later := Loop(current, env, s.rest, false);
      LoopResetsAfterFirst(current, env, s.rest, false);
      assert t.dispatches == [s.dispatch] + later.dispatches;
      assert t.dispatches[1..] == later.dispatches;
    } else {
      assert t.dispatches == [];
    }
  }
}
