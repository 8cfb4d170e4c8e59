/** The command record every later step reads and enriches, and the option
    normalisation that runs right after argument parsing: sub-command defaults
    merged with the global flags, `y`/`auto` unified, the intro decision, and
    the values auto mode forces. */
module Options {
  import opened Js

  /** The sub-command that was run. */
  datatype Command = Start | SiteCommand | WebcomponentCommand

  /** `commandRun`: the sub-command, its positional arguments, its options, and the
      `program` field that a manifest marked `hax.cli` writes. A `None` command or
      program stands for JavaScript's `null`/`undefined`. */
  datatype CommandRun = CommandRun(command: Option<Command>, arguments: Bag, options: Bag, program: Option<Command>)

  /** The record the interactive loop resets `commandRun` to after its first iteration. */
  const EmptyRun := CommandRun(None, map[], map[], None)

  /** Every option key the flag parser or a later step can write. */
  const OptionKeys: set<string> := {
    "v", "path", "npmClient", "y", "skip", "auto", "org", "author",
    "itemId", "name", "title", "domain", "isMonorepo", "gitRepo"
  }

  /** The positional arguments of the `site` and `webcomponent` sub-commands. */
  const ArgumentKeys: set<string> := {"action", "name"}

  /** `type` is neither an option nor an argument, so merging them never replaces a project type. */
  lemma TypeIsNoOption()
    ensures "type" !in OptionKeys && "type" !in ArgumentKeys
  {
  }

  /** A record the flag parser can produce: options and arguments use only the declared keys. */
  predicate WellFormed(run: CommandRun) {
    run.options.Keys <= OptionKeys && run.arguments.Keys <= ArgumentKeys
  }

  /** The author auto mode uses: the trimmed `git config user.name`, or empty when git failed. */
  function DetectedAuthor(gitAuthor: Option<string>): string
  {
    match gitAuthor
    case Some(name) => name
    case None => ""
  }

  /** The keys normalisation may rewrite. */
  predicate NormalisedKey(k: string) {
    k == "y" || k == "auto" || k == "path" || k == "org" || k == "author"
  }

  datatype Normalised = Normalised(run: CommandRun, intro: bool)

  /** The steps between parsing and manifest probing: the global flags win over the
      sub-command's defaults, `y` and `auto` become one switch, the intro plays only
      when no switch skips it, and auto mode pins path, organisation and author. */
  function Normalise(run: CommandRun, flags: Bag, cwd: string, gitAuthor: Option<string>): (n: Normalised)
    ensures var merged := Spread(run.options, flags);
      && (Truthy(n.run.options, "y") <==> Truthy(merged, "y") || Truthy(merged, "auto"))
      && (Truthy(n.run.options, "auto") <==> Truthy(merged, "y") || Truthy(merged, "auto"))
      && (n.intro <==> !Truthy(merged, "y") && !Truthy(merged, "auto") && !Truthy(merged, "skip"))
      && (forall k :: !NormalisedKey(k) ==> SameKey(n.run.options, merged, k))
      && (!Truthy(n.run.options, "auto") ==> n.run.options == merged)
    ensures Truthy(n.run.options, "auto") ==>
      && Holds(n.run.options, "path", Str(cwd))
      && Holds(n.run.options, "org", Str(""))
      && Holds(n.run.options, "author", Str(DetectedAuthor(gitAuthor)))
    ensures n.run.command == run.command && n.run.arguments == run.arguments && n.run.program == run.program
    ensures run.options.Keys <= OptionKeys && flags.Keys <= OptionKeys ==> n.run.options.Keys <= OptionKeys
  {
    var merged := Spread(run.options, flags);
    var unified :=
      if Truthy(merged, "y") || Truthy(merged, "auto") then merged["y" := Bool(true)]["auto" := Bool(true)]
      else merged;
    var intro := !Truthy(unified, "y") && !Truthy(unified, "auto") && !Truthy(unified, "skip");
    var forced :=
      if Truthy(unified, "auto") then
        unified["path" := Str(cwd)]["org" := Str("")]["author" := Str(DetectedAuthor(gitAuthor))]
      else unified;
    Normalised(run.(options := forced), intro)
  }
}
