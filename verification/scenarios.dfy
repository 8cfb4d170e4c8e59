/** Worked runs of the wizard on concrete answers: a site created interactively, a
    managed component handed to its fast path, an organisation re-prompt, and auto
    mode stopping at the name prompt. */
module Scenarios {
  import opened Js
  import opened Options
  import opened Manifests
  import opened Routing
  import opened Prompts
  import opened Orchestrator
  import opened Session

  /** The folder prompt takes an existing folder at the first try. */
  lemma PathAnswered(answers: Bag, asked: seq<Field>, dir: string, rest: seq<Answer>, run: CommandRun, kind: Kind, env: Env)
    requires dir != "" && dir in env.existing && Asks(PathField, run.options, kind)
    ensures Fill(Collected(answers, asked, [Text(dir)] + rest, []), PathField, run, kind, env)
      == Collected(answers["path" := Str(dir)], asked + [PathField], rest, [])
  {
    assert ([Text(dir)] + rest)[1..] == rest;
  }

  /** The name prompt takes a well-shaped, unused name at the first try. */
  lemma NameAnswered(answers: Bag, asked: seq<Field>, name: string, rest: seq<Answer>, run: CommandRun, kind: Kind, env: Env)
    requires NameProblem(name, kind, NameBase(run.options, answers, env.cwd), env.existing) == None
    requires Asks(NameField, run.options, kind)
    ensures Fill(Collected(answers, asked, [Text(name)] + rest, []), NameField, run, kind, env)
      == Collected(answers["name" := Str(name)], asked + [NameField], rest, [])
  {
    assert ([Text(name)] + rest)[1..] == rest;
  }

  /** The organisation prompt rejects `notanorg` and then takes `@org`. */
  lemma OrgAnsweredSecondTime(answers: Bag, asked: seq<Field>, rest: seq<Answer>, run: CommandRun, env: Env)
    requires Asks(OrgField, run.options, Webcomponent)
    ensures Fill(Collected(answers, asked, [Text("notanorg"), Text("@org")] + rest, []), OrgField, run, Webcomponent, env)
      == Collected(answers["org" := Str("@org")], asked + [OrgField], rest, [OrgNeedsAt])
  {
    OrgTextReprompt(rest, env.existing);
  }

  /** The organisation text prompt shows the `@` problem for `notanorg` and takes `@org`. */
  lemma OrgTextReprompt(rest: seq<Answer>, existing: set<string>)
    ensures AskText([Text("notanorg"), Text("@org")] + rest, "", OrgCheck, existing) == Answered("@org", rest, [OrgNeedsAt])
  {
    var script := [Text("notanorg"), Text("@org")] + rest;
    assert OrgProblem("notanorg") == Some(OrgNeedsAt) by { assert "notanorg"[..1] == "n"; }
    assert OrgProblem("@org") == None;
    assert script[1..] == [Text("@org")] + rest;
    assert script[1..][1..] == rest;
    assert AskText(script[1..], "", OrgCheck, existing) == Answered("@org", rest, []);
  }

  /** A field the record does not ask reads `undefined` and takes no answer. */
  lemma FieldSkipped(answers: Bag, asked: seq<Field>, rest: seq<Answer>, rejected: seq<Problem>, f: Field, run: CommandRun, kind: Kind, env: Env)
    requires !Asks(f, run.options, kind)
    ensures Fill(Collected(answers, asked, rest, rejected), f, run, kind, env)
      == Collected(answers[FieldKey(f) := Undef], asked, rest, rejected)
  {
  }

  /** The author prompt keeps its initial value, the author git reported. */
  lemma AuthorSubmitted(answers: Bag, asked: seq<Field>, rest: seq<Answer>, rejected: seq<Problem>, run: CommandRun, kind: Kind, env: Env)
    requires Asks(AuthorField, run.options, kind)
    ensures Fill(Collected(answers, asked, [Submit] + rest, rejected), AuthorField, run, kind, env)
      == Collected(answers["author" := Str(env.author)], asked + [AuthorField], rest, rejected)
  {
    assert ([Submit] + rest)[1..] == rest;
  }

  /** The extras prompt keeps its initial selection, every offered extra. */
  lemma ExtrasSubmitted(answers: Bag, asked: seq<Field>, rest: seq<Answer>, rejected: seq<Problem>, run: CommandRun, kind: Kind, env: Env)
    requires Asks(ExtrasField, run.options, kind)
    ensures Fill(Collected(answers, asked, [Submit] + rest, rejected), ExtrasField, run, kind, env)
      == Collected(answers["extras" := List(ExtrasOffer(run, kind, env.sysGit))], asked + [ExtrasField], rest, rejected)
  {
    assert ([Submit] + rest)[1..] == rest;
  }

  /** `my-el` passes the component name validator when its folder is free. */
  lemma MyElAccepted(base: string, existing: set<string>)
    requires Join(base, "my-el") !in existing
    ensures NameProblem("my-el", Webcomponent, base, existing) == None
  {
    assert "my-el"[2] == '-';
    assert ' ' !in "my-el" by { assert "my-el" == ['m', 'y', '-', 'e', 'l']; }
  }

  /** The result keys of the prompt group are pairwise different, and differ from the
      option, default and stamped keys the worked runs meet. The verifier does not decide that two string literals differ
      unless it is shown a character where they differ, so the body names one. */
  lemma ResultKeysDiffer()
    ensures "type" != "path" && "type" != "name" && "type" != "org" && "type" != "author" && "type" != "extras"
    ensures "path" != "name" && "path" != "org" && "path" != "author" && "path" != "extras"
    ensures "name" != "org" && "name" != "author" && "name" != "extras"
    ensures "org" != "author" && "org" != "extras" && "author" != "extras"
    ensures forall k :: k in {"type", "path", "name", "org", "author", "extras"} ==>
      k != "npmClient" && k != "isMonorepo" && !Stamped(k)
  {
    assert "type"[0] == 't' && "path"[0] == 'p' && "name"[0] == 'n' && "org"[0] == 'o' && "author"[0] == 'a' && "extras"[0] == 'e';
    assert "npmClient"[0] == 'n' && "npmClient"[1] == 'p' && "name"[1] == 'a';
    assert "isMonorepo"[0] == 'i' && "year"[0] == 'y' && "version"[0] == 'v';
  }

  /** A record that asks every field the type allows: no option answers a field and auto
      mode is off. */
  predicate AsksAll(run: CommandRun) {
    !Truthy(run.options, "path") && !Truthy(run.options, "name") && !Truthy(run.options, "org")
    && !Truthy(run.options, "author") && !Truthy(run.options, "auto")
  }

  /** The environment the worked runs use: an existing, non-empty working directory. */
  predicate WorkingDir(env: Env) {
    env.cwd != "" && env.cwd in env.existing
  }

  // The asked fields below are written `[] + [PathField] + [NameField]` rather than
  // `[PathField, NameField]`: that is the exact term the per-field lemmas produce from
  // `asked + [f]`, so the solver matches the stages without proving sequence equalities.

  /** Stage one: the folder prompt takes the working directory. */
  lemma FolderStage(run: CommandRun, kind: Kind, env: Env, r: seq<Answer>)
    requires AsksAll(run) && WorkingDir(env)
    ensures Stage(1, run, kind, env, [Text(env.cwd)] + r)
      == Collected(map["type" := Str(KindName(kind))]["path" := Str(env.cwd)], [] + [PathField], r, [])
  {
    PathAnswered(map["type" := Str(KindName(kind))], [], env.cwd, r, run, kind, env);
  }

  /** Stage two: the name prompt takes a name the validator accepts in the working directory. */
  lemma NameStage(run: CommandRun, kind: Kind, env: Env, name: string, r: seq<Answer>)
    requires AsksAll(run) && WorkingDir(env) && NameProblem(name, kind, env.cwd, env.existing) == None
    ensures Stage(2, run, kind, env, [Text(env.cwd)] + ([Text(name)] + r))
      == Collected(map["type" := Str(KindName(kind))]["path" := Str(env.cwd)]["name" := Str(name)],
                   [] + [PathField] + [NameField], r, [])
  {
    var a1 := map["type" := Str(KindName(kind))]["path" := Str(env.cwd)];
    FolderStage(run, kind, env, [Text(name)] + r);
    ResultKeysDiffer();
    assert NameBase(run.options, a1, env.cwd) == env.cwd;
    NameAnswered(a1, [] + [PathField], name, r, run, kind, env);
  }

  /** The answers of the worked site run after the type prompt: the working directory,
      `mysite`, then the author and extras defaults. */
  function SiteAnswers(cwd: string, r: seq<Answer>): seq<Answer> {
    [Text(cwd)] + ([Text("mysite")] + ([Submit] + ([Submit] + r)))
  }

  /** Stage three of the site run: the organisation is skipped and reads `undefined`. */
  lemma SiteOrgStage(run: CommandRun, env: Env, r: seq<Answer>)
    requires AsksAll(run) && WorkingDir(env) && NameProblem("mysite", Site, env.cwd, env.existing) == None
    ensures Stage(3, run, Site, env, [Text(env.cwd)] + ([Text("mysite")] + r))
      == Collected(map["type" := Str("site")]["path" := Str(env.cwd)]["name" := Str("mysite")]["org" := Undef],
                   [] + [PathField] + [NameField], r, [])
  {
    NameStage(run, Site, env, "mysite", r);
    OrgSkippedStage(run, env, [Text(env.cwd)] + ([Text("mysite")] + r),
      map["type" := Str("site")]["path" := Str(env.cwd)]["name" := Str("mysite")], [] + [PathField] + [NameField], r);
  }

  /** For a site the third stage only sets the organisation to `undefined`. */
  lemma OrgSkippedStage(run: CommandRun, env: Env, script: seq<Answer>, answers: Bag, asked: seq<Field>, r: seq<Answer>)
    requires Stage(2, run, Site, env, script) == Collected(answers, asked, r, [])
    ensures Stage(3, run, Site, env, script) == Collected(answers["org" := Undef], asked, r, [])
  {
    assert GroupFields[2] == OrgField;
    FieldSkipped(answers, asked, r, [], OrgField, run, Site, env);
  }

  /** The site group skips the organisation and keeps both defaults. */
  lemma SiteGroup(run: CommandRun, env: Env, r: seq<Answer>)
    requires AsksAll(run) && WorkingDir(env) && Join(env.cwd, "mysite") !in env.existing
    ensures CollectGroup(run, Site, env, SiteAnswers(env.cwd, r))
      == Collected(map["type" := Str("site")]["path" := Str(env.cwd)]["name" := Str("mysite")]["org" := Undef]
                     ["author" := Str(env.author)]["extras" := List(ExtrasOffer(run, Site, env.sysGit))],
                   [] + [PathField] + [NameField] + [AuthorField] + [ExtrasField], r, [])
  {
    var a2 := map["type" := Str("site")]["path" := Str(env.cwd)]["name" := Str("mysite")];
    var f2 := [] + [PathField] + [NameField];
    MySiteAccepted(env.cwd, env.existing);
    SiteOrgStage(run, env, [Submit] + ([Submit] + r));
    AuthorSubmitted(a2["org" := Undef], f2, [Submit] + r, [], run, Site, env);
    assert Stage(4, run, Site, env, SiteAnswers(env.cwd, r))
      == Collected(a2["org" := Undef]["author" := Str(env.author)], f2 + [AuthorField], [Submit] + r, []);
    ExtrasSubmitted(a2["org" := Undef]["author" := Str(env.author)], f2 + [AuthorField], r, [], run, Site, env);
  }

  /** The answers of the organisation re-prompt run after the type prompt: the working
      directory, `my-el`, `notanorg`, `@org`, then the author and extras defaults. */
  function OrgAnswers(cwd: string, r: seq<Answer>): seq<Answer> {
    [Text(cwd)] + ([Text("my-el")] + ([Text("notanorg"), Text("@org")] + ([Submit] + ([Submit] + r))))
  }

  /** Stage three of the component run: `notanorg` is rejected and `@org` accepted. */
  lemma OrgStage(run: CommandRun, env: Env, r: seq<Answer>)
    requires AsksAll(run) && WorkingDir(env) && Join(env.cwd, "my-el") !in env.existing
    ensures Stage(3, run, Webcomponent, env, [Text(env.cwd)] + ([Text("my-el")] + ([Text("notanorg"), Text("@org")] + r)))
      == Collected(map["type" := Str("webcomponent")]["path" := Str(env.cwd)]["name" := Str("my-el")]["org" := Str("@org")],
                   [] + [PathField] + [NameField] + [OrgField], r, [OrgNeedsAt])
  {
    MyElAccepted(env.cwd, env.existing);
    NameStage(run, Webcomponent, env, "my-el", [Text("notanorg"), Text("@org")] + r);
    OrgAnsweredSecondTime(map["type" := Str("webcomponent")]["path" := Str(env.cwd)]["name" := Str("my-el")],
      [] + [PathField] + [NameField], r, run, env);
  }

  /** `mysite` passes the site name validator when its folder is free. */
  lemma MySiteAccepted(base: string, existing: set<string>)
    requires Join(base, "mysite") !in existing
    ensures NameProblem("mysite", Site, base, existing) == None
  {
    assert ' ' !in "mysite" by { assert "mysite" == ['m', 'y', 's', 'i', 't', 'e']; }
    assert "mysite"[0] == 'm';
  }

  /** A component whose organisation is first answered without `@`: the answer is
      rejected, the prompt is shown again, and `@org` is accepted. */
  lemma OrgRepromptGroup(run: CommandRun, env: Env, r: seq<Answer>)
    requires AsksAll(run) && WorkingDir(env) && Join(env.cwd, "my-el") !in env.existing
    ensures CollectGroup(run, Webcomponent, env, OrgAnswers(env.cwd, r))
      == Collected(map["type" := Str("webcomponent")]["path" := Str(env.cwd)]["name" := Str("my-el")]["org" := Str("@org")]
                     ["author" := Str(env.author)]["extras" := List(ExtrasOffer(run, Webcomponent, env.sysGit))],
                   [] + [PathField] + [NameField] + [OrgField] + [AuthorField] + [ExtrasField], r, [OrgNeedsAt])
  {
    var a3 := map["type" := Str("webcomponent")]["path" := Str(env.cwd)]["name" := Str("my-el")]["org" := Str("@org")];
    var f3 := [] + [PathField] + [NameField] + [OrgField];
    OrgStage(run, env, [Submit] + ([Submit] + r));
    AuthorSubmitted(a3, f3, [Submit] + r, [OrgNeedsAt], run, Webcomponent, env);
    assert Stage(4, run, Webcomponent, env, OrgAnswers(env.cwd, r))
      == Collected(a3["author" := Str(env.author)], f3 + [AuthorField], [Submit] + r, [OrgNeedsAt]);
    ExtrasSubmitted(a3["author" := Str(env.author)], f3 + [AuthorField], r, [OrgNeedsAt], run, Webcomponent, env);
  }

  /** The record of the worked interactive runs: the `start` sub-command with only the
      default `npmClient` flag. */
  const StartRun := CommandRun(Some(Start), map[], map["npmClient" := Str("npm")], None)

  /** The results of the worked site run. */
  function SiteResults(env: Env): Bag {
    map["type" := Str("site")]["path" := Str(env.cwd)]["name" := Str("mysite")]["org" := Undef]
      ["author" := Str(env.author)]["extras" := List(["launch"])]
  }

  /** Picking `site` and answering the site group dispatches the site generator with the
      group's results merged under the record. */
  lemma SiteIteration(env: Env, r: seq<Answer>)
    requires WorkingDir(env) && Join(env.cwd, "mysite") !in env.existing
    ensures Iterate(StartRun, env, [Choose(Site)] + SiteAnswers(env.cwd, r))
      == Built(SiteBuild(StartRun, Intent(SiteResults(env), StartRun, env)), r)
  {
    var script := [Choose(Site)] + SiteAnswers(env.cwd, r);
    assert script[1..] == SiteAnswers(env.cwd, r);
    assert AskKind(script) == Answered(Site, SiteAnswers(env.cwd, r), []);
    assert ExtrasOffer(StartRun, Site, env.sysGit) == ["launch"];
    SiteGroup(StartRun, env, r);
  }

  /** The intent of the worked site run: the chosen type, name and folder, the single
      `launch` extra, and the `isMonorepo: false` default. */
  lemma SiteIntent(env: Env)
    ensures var intent := Intent(SiteResults(env), StartRun, env);
      && Holds(intent, "type", Str("site"))
      && Holds(intent, "name", Str("mysite"))
      && Holds(intent, "path", Str(env.cwd))
      && Holds(intent, "extras", List(["launch"]))
      && Holds(intent, "isMonorepo", Bool(false))
  {
    var answers := SiteResults(env);
    ResultKeysDiffer();
    assert answers["type"] == Str("site") && answers["name"] == Str("mysite") && answers["path"] == Str(env.cwd);
    IntentTakesAnswer(answers, StartRun, env, "type");
    IntentTakesAnswer(answers, StartRun, env, "name");
    IntentTakesAnswer(answers, StartRun, env, "path");
    IntentTakesAnswer(answers, StartRun, env, "extras");
    IntentDefaultsMonorepo(answers, StartRun, env);
  }

  /** A joined path is longer than the folder it starts from, so it is never that folder. */
  lemma JoinLonger(base: string, part: string)
    ensures |Join(base, part)| > |base| && Join(base, part) != base
  {
  }

  /** The inputs of the worked site run: `start` with no flags but the default client, a
      working directory without any `package.json` around it, no site structure; the user
      picks `site`, answers the site group, then quits. */
  function SiteRunInputs(cwd: string, sysGit: bool, gitAuthor: Option<string>, year: int, version: string): Inputs {
    Inputs(CommandRun(Some(Start), map[], map[], None), map["npmClient" := Str("npm")], cwd, sysGit, gitAuthor,
           FileSystem({cwd}, map[]), false, year, version, [Choose(Site)] + SiteAnswers(cwd, [Choose(Quit)]))
  }

  /** Without flags and manifests, the record reaches the loop as `start` with the default client. */
  lemma SitePrepared(cwd: string, sysGit: bool, gitAuthor: Option<string>, year: int, version: string)
    ensures var i := SiteRunInputs(cwd, sysGit, gitAuthor, year, version);
      ValidInputs(i) && Prepared(i) == Probed(StartRun, None)
      && Normalise(i.run, i.flags, i.cwd, i.gitAuthor).intro
  {
    var i := SiteRunInputs(cwd, sysGit, gitAuthor, year, version);
    assert "npmClient"[0] == 'n';
    var n := Normalise(i.run, i.flags, i.cwd, i.gitAuthor);
    assert Spread(i.run.options, i.flags) == i.flags;
    assert n.run == StartRun;
    var candidates := Candidates(cwd);
    JoinLonger(cwd, "package.json");
    JoinLonger(Join(cwd, ".."), "package.json");
    JoinLonger(cwd, "..");
    JoinLonger(Join(Join(cwd, ".."), ".."), "package.json");
    JoinLonger(Join(cwd, ".."), "..");
    assert !AnyCandidateExists(i.fs, cwd);
  }

  /** A later iteration whose first answer is `quit` ends the loop with nothing dispatched,
      whatever answers follow. */
  lemma QuitAtOnce(run: CommandRun, env: Env, r: seq<Answer>)
    requires WellFormed(run)
    ensures Loop(run, env, [Choose(Quit)] + r, false) == Trace([], QuitChosen)
  {
    assert ([Choose(Quit)] + r)[0] == Choose(Quit);
  }

  /** The loop of the worked site run: one site dispatch, then `quit`. */
  lemma SiteLoop(env: Env)
    requires WorkingDir(env) && Join(env.cwd, "mysite") !in env.existing
    ensures Loop(StartRun, env, [Choose(Site)] + SiteAnswers(env.cwd, [Choose(Quit)]), true)
      == Trace([SiteBuild(StartRun, Intent(SiteResults(env), StartRun, env))], QuitChosen)
  {
    SiteIteration(env, [Choose(Quit)]);
    QuitAtOnce(StartRun, env, []);
    assert [Choose(Quit)] + [] == [Choose(Quit)];
  }

  /** A site created interactively from scratch: the intro plays, the loop runs, the site
      generator is invoked once with type `site`, name `mysite` and the `launch` extra,
      and the run ends when the user quits. */
  lemma SiteScenario(cwd: string, sysGit: bool, gitAuthor: Option<string>, year: int, version: string)
    requires cwd != ""
    ensures var i := SiteRunInputs(cwd, sysGit, gitAuthor, year, version);
      ValidInputs(i) &&
      var o := Run(i);
      && o.intro
      && o.route == Interactive
      && o.finish == LoopEnded(QuitChosen)
      && |o.dispatches| == 1
      && o.dispatches[0].SiteBuild?
      && Holds(o.dispatches[0].intent, "type", Str("site"))
      && Holds(o.dispatches[0].intent, "name", Str("mysite"))
      && Holds(o.dispatches[0].intent, "extras", List(["launch"]))
  {
    var i := SiteRunInputs(cwd, sysGit, gitAuthor, year, version);
    SitePrepared(cwd, sysGit, gitAuthor, year, version);
    var env := LoopEnv(i);
    JoinLonger(cwd, "mysite");
    SiteLoop(env);
    SiteIntent(env);
  }

  /** The results of the worked component run. */
  function OrgResults(env: Env): Bag {
    map["type" := Str("webcomponent")]["path" := Str(env.cwd)]["name" := Str("my-el")]["org" := Str("@org")]
      ["author" := Str(env.author)]["extras" := List(ExtrasOffer(StartRun, Webcomponent, env.sysGit))]
  }

  /** Picking `webcomponent` and answering the group, with the organisation re-prompted,
      dispatches the component generator with the group's results merged under the record. */
  lemma OrgRepromptIteration(env: Env, r: seq<Answer>)
    requires WorkingDir(env) && Join(env.cwd, "my-el") !in env.existing
    ensures Iterate(StartRun, env, [Choose(Webcomponent)] + OrgAnswers(env.cwd, r))
      == Built(ComponentBuild(StartRun, Intent(OrgResults(env), StartRun, env)), r)
  {
    var script := [Choose(Webcomponent)] + OrgAnswers(env.cwd, r);
    assert script[1..] == OrgAnswers(env.cwd, r);
    assert AskKind(script) == Answered(Webcomponent, OrgAnswers(env.cwd, r), []);
    OrgRepromptGroup(StartRun, env, r);
  }

  /** The intent of the worked component run carries `@org` and `my-el`. */
  lemma OrgIntent(env: Env)
    ensures var intent := Intent(OrgResults(env), StartRun, env);
      && Holds(intent, "type", Str("webcomponent"))
      && Holds(intent, "org", Str("@org"))
      && Holds(intent, "name", Str("my-el"))
  {
    var answers := OrgResults(env);
    ResultKeysDiffer();
    assert answers["type"] == Str("webcomponent") && answers["name"] == Str("my-el") && answers["org"] == Str("@org");
    IntentTakesAnswer(answers, StartRun, env, "type");
    IntentTakesAnswer(answers, StartRun, env, "name");
    IntentTakesAnswer(answers, StartRun, env, "org");
  }

  /** A `hax.cli` manifest with a start script in the working directory, and no site
      structure: the component fast path receives the manifest, and no prompt is shown,
      whatever the flags. */
  lemma ManagedComponentScenario(i: Inputs, m: Manifest, start: string)
    requires ValidInputs(i) && !i.siteDetected
    requires m.haxCli && m.scripts == Some(Scripts(Some(start))) && start != ""
    requires i.fs == FileSystem({Join(i.cwd, "package.json")}, map[Join(i.cwd, "package.json") := m])
    ensures var o := Run(i);
      && o.route == ComponentFastPath
      && o.dispatches == [ComponentDetected(o.probed.run, m)]
      && o.finish == Delegated
      && o.probed.run.program == Some(WebcomponentCommand)
  {
    var n := Normalise(i.run, i.flags, i.cwd, i.gitAuthor);
    assert Candidates(i.cwd)[0] in i.fs.existing;
    assert AnyCandidateExists(i.fs, i.cwd);
    assert Prepared(i) == Probed(Apply(n.run, m, i.cwd, DetectedAuthor(i.gitAuthor)).run, Some(m));
  }

  /** In auto mode without `--name`, the prompt group cannot finish without an answer: the
      folder is skipped and the name prompt waits. */
  lemma AutoGroupWaitsForName(run: CommandRun, kind: Kind, env: Env)
    requires Truthy(run.options, "auto") && !Truthy(run.options, "name")
    ensures CollectGroup(run, kind, env, []) == GroupStalled
  {
    var a0 := map["type" := Str(KindName(kind))];
    FieldSkipped(a0, [], [], [], PathField, run, kind, env);
    assert Stage(1, run, kind, env, []) == Collected(a0["path" := Undef], [], [], []);
    assert Stage(2, run, kind, env, []) == GroupStalled;
    assert Stage(3, run, kind, env, []) == GroupStalled;
    assert Stage(4, run, kind, env, []) == GroupStalled;
  }

  /** Auto mode is not fully unattended: when the sub-command pins the type and `--name`
      was not given, a run without answers dispatches nothing and ends waiting at the
      name prompt. */
  lemma AutoModeWaitsForName(i: Inputs)
    requires ValidInputs(i) && Run(i).route == Interactive && i.script == []
    requires AutoMode(i) && !Truthy(Spread(i.run.options, i.flags), "name")
    requires Pinned(Prepared(i).run)
    ensures Run(i).dispatches == [] && Run(i).finish == LoopEnded(OutOfAnswers)
  {
    var run := Prepared(i).run;
    PreparedKeepsOption(i, "name");
    AutoSurvivesProbe(i);
    var kind := if run.command == Some(SiteCommand) then Site else Webcomponent;
    AutoGroupWaitsForName(run, kind, LoopEnv(i));
    assert Iterate(run, LoopEnv(i), []) == StepStalled;
  }
}
