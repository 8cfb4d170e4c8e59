/** One run of the wizard from parsed arguments to the generators it hands off to:
    option normalisation, manifest probing, the choice of fast path, and the
    interactive loop when neither fast path applies. */
module Session {
  import opened Js
  import opened Options
  import opened Manifests
  import opened Routing
  import opened Prompts
  import opened Orchestrator
  import opened GroupFacts

  /** Everything the run reads from outside: the parsed command record and global flags,
      the working directory, whether `git` is installed, what `git config user.name`
      reported (`None` when it failed), the file system, whether an ambient site structure
      was detected, the year, the tool version, and the user's answers in order. */
  datatype Inputs = Inputs(
    run: CommandRun,
    flags: Bag,
    cwd: string,
    sysGit: bool,
    gitAuthor: Option<string>,
    fs: FileSystem,
    siteDetected: bool,
    year: int,
    version: string,
    script: seq<Answer>)

  /** How the run ends: handed to a fast-path generator, stopped by the exception that a
      `hax.cli` manifest without `scripts` raises, or the interactive loop's own end. */
  datatype Finish = Delegated | Crashed | LoopEnded(end: End)

  /** What one run does: whether the intro plays, the record and `packageData` after
      probing, the route taken, the generator hand-offs in order, and how it ends. */
  datatype Outcome = Outcome(intro: bool, probed: Probed, route: Route, dispatches: seq<Dispatch>, finish: Finish)

  predicate ValidInputs(i: Inputs) {
    WellFormed(i.run) && i.flags.Keys <= OptionKeys
  }

  /** Auto mode was requested: by `--y` or `--auto`, or by the `y` a sub-command sets when
      given its positional argument. Normalisation turns either into both. */
  predicate AutoMode(i: Inputs) {
    var merged := Spread(i.run.options, i.flags);
    Truthy(merged, "y") || Truthy(merged, "auto")
  }

  /** The surroundings the interactive loop sees. */
  function LoopEnv(i: Inputs): Env {
    Env(i.cwd, i.sysGit, DetectedAuthor(i.gitAuthor), i.fs.existing, i.year, i.version)
  }

  /** The manifest that probing applied carries the monorepo marker. */
  predicate MonorepoApplied(p: Probed) {
    p.packageData.Some? && MonorepoMarked(p.packageData.value)
  }

  /** The record after normalisation and probing: the arguments are the parsed ones, and
      the command is the parsed one unless the monorepo override replaced it. */
  function Prepared(i: Inputs): (p: Probed)
    requires ValidInputs(i)
    ensures WellFormed(p.run)
    ensures p.run.arguments == i.run.arguments
    ensures !MonorepoApplied(p) ==> p.run.command == i.run.command
    ensures MonorepoApplied(p) ==>
      && p.run.command == Some(WebcomponentCommand)
      && Holds(p.run.options, "isMonorepo", Bool(true))
      && Holds(p.run.options, "auto", Bool(true))
  {
    var n := Normalise(i.run, i.flags, i.cwd, i.gitAuthor);
    ProbeResult(n.run, i.fs, i.cwd, DetectedAuthor(i.gitAuthor))
  }

  /** The whole run. */
  function Run(i: Inputs): (o: Outcome)
    requires ValidInputs(i)
    ensures o.probed == Prepared(i)
    ensures o.route == Resolve(i.siteDetected, o.probed.packageData)
    ensures o.intro == Normalise(i.run, i.flags, i.cwd, i.gitAuthor).intro
    ensures o.route == SiteFastPath ==> o.dispatches == [SiteDetected(o.probed.run)] && o.finish == Delegated
    ensures o.route == ComponentFastPath ==>
      o.dispatches == [ComponentDetected(o.probed.run, o.probed.packageData.value)] && o.finish == Delegated
    ensures o.route == ScriptsMissing ==> o.dispatches == [] && o.finish == Crashed
    ensures o.route == Interactive ==> o.finish.LoopEnded?
  {
    var n := Normalise(i.run, i.flags, i.cwd, i.gitAuthor);
    var p := Prepared(i);
    var route := Resolve(i.siteDetected, p.packageData);
    match route
    case SiteFastPath => Outcome(n.intro, p, route, [SiteDetected(p.run)], Delegated)
    case ComponentFastPath => Outcome(n.intro, p, route, [ComponentDetected(p.run, p.packageData.value)], Delegated)
    case ScriptsMissing => Outcome(n.intro, p, route, [], Crashed)
    case Interactive =>
      var t := Loop(p.run, LoopEnv(i), i.script, true);
      Outcome(n.intro, p, route, t.dispatches, LoopEnded(t.end))
  }

  /** An option neither normalisation nor a manifest writes reaches the loop as parsed. */
  lemma PreparedKeepsOption(i: Inputs, k: string)
    requires ValidInputs(i) && !NormalisedKey(k) && !ManifestKey(k)
    ensures SameKey(Prepared(i).run.options, Spread(i.run.options, i.flags), k)
  {
    var n := Normalise(i.run, i.flags, i.cwd, i.gitAuthor);
    var own := ReadManifest(i.fs, Join(i.cwd, "package.json"));
    if AnyCandidateExists(i.fs, i.cwd) && own.Some? {
      ApplyKeepsOtherOptions(n.run, own.value, i.cwd, DetectedAuthor(i.gitAuthor), k);
    }
  }

  /** The loop's first dispatch is the first iteration's, over the record the loop started
      with; quitting in the first iteration dispatches nothing. */
  lemma FirstIteration(run: CommandRun, env: Env, script: seq<Answer>)
    requires WellFormed(run)
    ensures var t := Loop(run, env, script, true);
      var s := Iterate(run, env, script);
      && (|t.dispatches| > 0 <==> s.Built?)
      && (s.Built? ==> t.dispatches[0] == s.dispatch)
      && (s.Quitting? ==> t == Trace([], QuitChosen))
  {
  }

  /** When a site structure is detected the site fast path runs, whatever the manifest says,
      and nothing else is dispatched. */
  lemma SiteAlwaysWins(i: Inputs, fs: FileSystem)
    requires ValidInputs(i) && i.siteDetected
    ensures Run(i).route == SiteFastPath && Run(i.(fs := fs)).route == SiteFastPath
    ensures Run(i).dispatches == [SiteDetected(Prepared(i).run)] && Run(i).finish == Delegated
  {
  }

  /** In the interactive loop every dispatch goes to the generator of its intent's type;
      the first receives the prepared record and every later one the reset record. */
  lemma InteractiveDispatches(i: Inputs)
    requires ValidInputs(i) && Run(i).route == Interactive
    ensures forall d :: d in Run(i).dispatches ==> RoutedByType(d) && (d.SiteBuild? || d.ComponentBuild?)
    ensures |Run(i).dispatches| > 0 ==> Run(i).dispatches[0].run == Prepared(i).run
    ensures |Run(i).dispatches| > 0 ==> forall d :: d in Run(i).dispatches[1..] ==> d.run == EmptyRun
  {
    var p := Prepared(i);
    LoopDispatchesByType(p.run, LoopEnv(i), i.script, true);
    LoopResetsAfterFirst(p.run, LoopEnv(i), i.script, true);
  }

  /** Choosing `quit` at the first type prompt ends the run with nothing dispatched. */
  lemma QuitDispatchesNothing(i: Inputs)
    requires ValidInputs(i) && Run(i).route == Interactive
    requires !Pinned(Prepared(i).run) && |i.script| > 0 && i.script[0] == Choose(Quit)
    ensures Run(i).dispatches == [] && Run(i).finish == LoopEnded(QuitChosen)
  {
    FirstIteration(Prepared(i).run, LoopEnv(i), i.script);
  }

  /** The first project's intent carries every option of the record the loop started with. */
  lemma FirstIntentKeepsOption(run: CommandRun, env: Env, script: seq<Answer>, k: string)
    requires WellFormed(run) && k in run.options && !Stamped(k)
    ensures var t := Loop(run, env, script, true);
      |t.dispatches| > 0 ==> Holds(t.dispatches[0].intent, k, run.options[k])
  {
    FirstIteration(run, env, script);
  }

  /** The first project's intent carries every positional argument no option shadows. */
  lemma FirstIntentKeepsArgument(run: CommandRun, env: Env, script: seq<Answer>, k: string)
    requires WellFormed(run) && k in run.arguments && k !in run.options && !Stamped(k)
    ensures var t := Loop(run, env, script, true);
      |t.dispatches| > 0 ==> Holds(t.dispatches[0].intent, k, run.arguments[k])
  {
    FirstIteration(run, env, script);
  }

  /** Without a monorepo manifest, auto mode reaches the loop with the folder, organisation
      and author it forced. */
  lemma AutoPrepared(i: Inputs)
    requires ValidInputs(i) && AutoMode(i) && !MonorepoApplied(Prepared(i))
    ensures var opts := Prepared(i).run.options;
      && Holds(opts, "path", Str(i.cwd))
      && Holds(opts, "org", Str(""))
      && Holds(opts, "author", Str(DetectedAuthor(i.gitAuthor)))
      && Holds(opts, "auto", Bool(true))
  {
    var own := ReadManifest(i.fs, Join(i.cwd, "package.json"));
    if AnyCandidateExists(i.fs, i.cwd) && own.Some? {
      assert !MonorepoMarked(own.value);
    }
  }

  /** Auto mode survives probing: a manifest either leaves `auto` alone or sets it. */
  lemma AutoSurvivesProbe(i: Inputs)
    requires ValidInputs(i) && AutoMode(i)
    ensures Truthy(Prepared(i).run.options, "auto")
  {
    var n := Normalise(i.run, i.flags, i.cwd, i.gitAuthor);
    var own := ReadManifest(i.fs, Join(i.cwd, "package.json"));
    if AnyCandidateExists(i.fs, i.cwd) && own.Some? && !MonorepoMarked(own.value) {
      assert SameKey(Prepared(i).run.options, n.run.options, "auto");
    }
  }

  /** Auto mode fixes the first project's folder to the working directory, its organisation
      to empty and its author to the one git reported, unless a monorepo manifest
      overrides them. */
  lemma AutoFixesFirstIntent(i: Inputs)
    requires ValidInputs(i) && Run(i).route == Interactive
    requires AutoMode(i) && !MonorepoApplied(Prepared(i))
    ensures |Run(i).dispatches| > 0 ==>
      var intent := Run(i).dispatches[0].intent;
      && Holds(intent, "path", Str(i.cwd))
      && Holds(intent, "org", Str(""))
      && Holds(intent, "author", Str(DetectedAuthor(i.gitAuthor)))
      && Holds(intent, "auto", Bool(true))
  {
    var run := Prepared(i).run;
    AutoPrepared(i);
    FirstIntentKeepsOption(run, LoopEnv(i), i.script, "path");
    FirstIntentKeepsOption(run, LoopEnv(i), i.script, "org");
    FirstIntentKeepsOption(run, LoopEnv(i), i.script, "author");
    FirstIntentKeepsOption(run, LoopEnv(i), i.script, "auto");
  }

  /** A monorepo manifest makes the first project a component even when the `site`
      sub-command was run: nothing reaches the site generator first. */
  lemma MonorepoForcesComponent(i: Inputs)
    requires ValidInputs(i) && !i.siteDetected && MonorepoApplied(Prepared(i))
    ensures |Run(i).dispatches| > 0 ==> Run(i).dispatches[0].ComponentDetected? || Run(i).dispatches[0].ComponentBuild?
  {
    var p := Prepared(i);
    if Run(i).route == Interactive {
      FirstIteration(p.run, LoopEnv(i), i.script);
    }
  }

  /** The `webcomponent` sub-command run without a positional name records `name:
      undefined` among the arguments; unless `--name` was given, that entry wins the merge
      over the name the user typed, so the first project's intent has no usable name. */
  lemma MissingPositionalNameClobbers(i: Inputs)
    requires ValidInputs(i) && Run(i).route == Interactive
    requires i.run.arguments == map["name" := Undef] && "name" !in Spread(i.run.options, i.flags)
    ensures |Run(i).dispatches| > 0 ==> Holds(Run(i).dispatches[0].intent, "name", Undef)
  {
    PreparedKeepsOption(i, "name");
    FirstIntentKeepsArgument(Prepared(i).run, LoopEnv(i), i.script, "name");
  }

  /** After the reset every field is asked again; the organisation only for a component. */
  lemma ResetRecordAsksEveryField(kind: Kind, env: Env, script: seq<Answer>, f: Field)
    ensures var g := CollectGroup(EmptyRun, kind, env, script);
      g.Collected? ==> (f in g.asked <==> f != OrgField || kind == Webcomponent)
  {
    GroupResolvesEveryField(EmptyRun, kind, env, script, f);
  }

  /** In auto mode the only field that can still be asked is the name. */
  lemma AutoAsksOnlyName(run: CommandRun, kind: Kind, env: Env, script: seq<Answer>, f: Field)
    requires Truthy(run.options, "auto")
    ensures var g := CollectGroup(run, kind, env, script);
      g.Collected? ==> (f in g.asked <==> f == NameField && !Truthy(run.options, "name"))
  {
    GroupResolvesEveryField(run, kind, env, script, f);
  }
}
