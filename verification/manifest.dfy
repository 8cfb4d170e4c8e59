/** Manifest probing: the working directory and two parents are searched for a
    `package.json`, and every hit applies the signals of the working
    directory's own manifest to the command record, the monorepo override
    among them. */
module Manifests {
  import opened Js
  import opened Options

  /** The `repository` field: a bare string, or an object whose `url` may be missing. */
  datatype Repository = RepositoryText(text: string) | RepositoryRecord(url: Option<string>)

  /** The `author` field: a bare string, or an object whose `name` may be missing. */
  datatype Person = PersonText(text: string) | PersonRecord(name: Option<string>)

  /** The `scripts` object, reduced to its `start` entry. */
  datatype Scripts = Scripts(start: Option<string>)

  /** The fields of a parsed `package.json` the wizard reads. A `None` field is absent.
      `haxCli` is the truthiness of `hax && hax.cli`; `workspacePackages` is
      `workspaces.packages`, `None` when either level is missing. */
  datatype Manifest = Manifest(
    haxCli: bool,
    npmClient: Option<string>,
    useWorkspaces: bool,
    workspacePackages: Option<seq<string>>,
    orgNpm: Option<string>,
    repository: Option<Repository>,
    author: Option<Person>,
    scripts: Option<Scripts>)

  /** The file system as the prober sees it: the paths that exist, and the files among
      them whose content parses as a JSON object (any other file fails to read or parse). */
  datatype FileSystem = FileSystem(existing: set<string>, json: map<string, Manifest>)

  predicate TruthyText(o: Option<string>) {
    o.Some? && o.value != ""
  }

  /** `useWorkspaces && workspaces && workspaces.packages && workspaces.packages[0]`. */
  predicate MonorepoMarked(m: Manifest) {
    && m.useWorkspaces
    && m.workspacePackages.Some?
    && |m.workspacePackages.value| > 0
    && m.workspacePackages.value[0] != ""
  }

  /** The monorepo's component folder: the first workspace entry with the first "/" "*" pair removed,
      joined to the working directory. */
  function WorkspacePath(m: Manifest, cwd: string): string
    requires MonorepoMarked(m)
  {
    Join(cwd, ReplaceFirst(m.workspacePackages.value[0], "/*", ""))
  }

  /** `repository.url`, which reads as `undefined` on a bare string or a record without a url. */
  function RepositoryUrl(r: Repository): (v: Value)
    ensures v == Undef || (v.Str? && r == RepositoryRecord(Some(v.s)))
    ensures r.RepositoryRecord? && r.url.Some? ==> v.Str?
  {
    match r
    case RepositoryRecord(Some(url)) => Str(url)
    case _ => Undef
  }

  /** `author.name` when it is truthy, otherwise the author git reported. */
  function ManifestAuthor(p: Person, detected: string): string
  {
    match p
    case PersonRecord(Some(name)) => if name != "" then name else detected
    case _ => detected
  }

  /** The command record after one application of a manifest, and whether the application
      stopped on an exception (a missing `repository` or `author` under the monorepo
      override), which the prober catches and logs. */
  datatype Applied = Applied(run: CommandRun, threw: bool)

  /** The option keys a manifest can write. */
  predicate ManifestKey(k: string) {
    k == "npmClient" || k == "isMonorepo" || k == "auto" || k == "path" || k == "org" || k == "gitRepo" || k == "author"
  }

  /** The keys the override writes differ from each other and from `y` and `npmClient`.
      The verifier does not decide that two string literals differ
      unless it is shown a character where they differ, so the body names one. */
  lemma PatchKeysDiffer()
    ensures forall k :: k in ["isMonorepo", "auto", "path", "org", "gitRepo", "author"] ==> k != "y" && k != "npmClient"
    ensures "isMonorepo" != "auto" && "isMonorepo" != "path" && "isMonorepo" != "org" && "isMonorepo" != "gitRepo" && "isMonorepo" != "author"
    ensures "auto" != "path" && "auto" != "org" && "auto" != "gitRepo" && "auto" != "author"
    ensures "path" != "org" && "path" != "gitRepo" && "path" != "author"
    ensures "org" != "gitRepo" && "org" != "author" && "gitRepo" != "author"
  {
    assert "isMonorepo"[0] == 'i' && "auto"[0] == 'a' && "path"[0] == 'p' && "org"[0] == 'o' && "gitRepo"[0] == 'g';
    assert "author"[0] == 'a' && "auto"[1] == 'u' && "author"[1] == 'u' && "auto"[2] == 't' && "author"[2] == 't';
    assert "auto"[3] == 'o' && "author"[3] == 'h';
    assert "y"[0] == 'y' && "npmClient"[0] == 'n';
  }

  /** The options the monorepo override writes, in the program's order: `isMonorepo`,
      `auto`, the path, the organisation when the manifest names one, then
      `repository.url` and the author. Reading `url` of a missing `repository`, or `name`
      of a missing `author`, throws, and the writes from that point on never happen. */
  function OverridePatch(m: Manifest, cwd: string, detected: string): (patch: Bag)
    requires MonorepoMarked(m)
    ensures forall k :: k in patch ==> ManifestKey(k)
  {
    var forced := map["isMonorepo" := Bool(true), "auto" := Bool(true), "path" := Str(WorkspacePath(m, cwd))];
    var withOrg := if TruthyText(m.orgNpm) then forced["org" := Str(m.orgNpm.value)] else forced;
    if m.repository.None? then withOrg
    else
      var withRepo := withOrg["gitRepo" := RepositoryUrl(m.repository.value)];
      if m.author.None? then withRepo
      else withRepo["author" := Str(ManifestAuthor(m.author.value, detected))]
  }

  /** The override always turns on `isMonorepo` and `auto` and sets the workspace path, and
      never writes `y` or `npmClient`. */
  lemma PatchForced(m: Manifest, cwd: string, detected: string)
    requires MonorepoMarked(m)
    ensures var patch := OverridePatch(m, cwd, detected);
      && Holds(patch, "isMonorepo", Bool(true)) && Holds(patch, "auto", Bool(true))
      && Holds(patch, "path", Str(WorkspacePath(m, cwd)))
      && "y" !in patch && "npmClient" !in patch
  {
    PatchKeysDiffer();
  }

  /** The organisation is written exactly for a truthy `orgNpm`. */
  lemma PatchOrg(m: Manifest, cwd: string, detected: string)
    requires MonorepoMarked(m)
    ensures var patch := OverridePatch(m, cwd, detected);
      && ("org" in patch <==> TruthyText(m.orgNpm))
      && (TruthyText(m.orgNpm) ==> patch["org"] == Str(m.orgNpm.value))
  {
    PatchKeysDiffer();
  }

  /** `gitRepo` is written exactly when `repository` exists, whatever `author` holds. */
  lemma PatchRepo(m: Manifest, cwd: string, detected: string)
    requires MonorepoMarked(m)
    ensures var patch := OverridePatch(m, cwd, detected);
      && ("gitRepo" in patch <==> m.repository.Some?)
      && (m.repository.Some? ==> patch["gitRepo"] == RepositoryUrl(m.repository.value))
  {
    PatchKeysDiffer();
  }

  /** The author is written exactly when both `repository` and `author` exist. */
  lemma PatchAuthor(m: Manifest, cwd: string, detected: string)
    requires MonorepoMarked(m)
    ensures var patch := OverridePatch(m, cwd, detected);
      && ("author" in patch <==> m.repository.Some? && m.author.Some?)
      && ("author" in patch ==> patch["author"] == Str(ManifestAuthor(m.author.value, detected)))
  {
    PatchKeysDiffer();
  }

  /** What the override writes, key by key, up to the point where a missing `repository`
      or `author` throws. */
  lemma OverridePatchWrites(m: Manifest, cwd: string, detected: string)
    requires MonorepoMarked(m)
    ensures var patch := OverridePatch(m, cwd, detected);
      && Holds(patch, "isMonorepo", Bool(true)) && Holds(patch, "auto", Bool(true))
      && Holds(patch, "path", Str(WorkspacePath(m, cwd)))
      && "y" !in patch && "npmClient" !in patch
      && ("org" in patch <==> TruthyText(m.orgNpm))
      && (TruthyText(m.orgNpm) ==> patch["org"] == Str(m.orgNpm.value))
      && ("gitRepo" in patch <==> m.repository.Some?)
      && (m.repository.Some? ==> patch["gitRepo"] == RepositoryUrl(m.repository.value))
      && ("author" in patch <==> m.repository.Some? && m.author.Some?)
      && ("author" in patch ==> patch["author"] == Str(ManifestAuthor(m.author.value, detected)))
  {
    PatchForced(m, cwd, detected);
    PatchOrg(m, cwd, detected);
    PatchRepo(m, cwd, detected);
    PatchAuthor(m, cwd, detected);
  }

  /** The monorepo override applied to a record: the command becomes `webcomponent`, the
      patch is written over the options, and the application throws when `repository` or
      `author` is missing. */
  function Override(run: CommandRun, m: Manifest, cwd: string, detected: string): (e: Applied)
    requires MonorepoMarked(m)
    ensures e.run.arguments == run.arguments && e.run.program == run.program
    ensures e.run.command == Some(WebcomponentCommand)
    ensures Holds(e.run.options, "isMonorepo", Bool(true))
    ensures Holds(e.run.options, "auto", Bool(true))
    ensures Holds(e.run.options, "path", Str(WorkspacePath(m, cwd)))
    ensures SameKey(e.run.options, run.options, "y") && SameKey(e.run.options, run.options, "npmClient")
    ensures TruthyText(m.orgNpm) ==> Holds(e.run.options, "org", Str(m.orgNpm.value))
    ensures !TruthyText(m.orgNpm) ==> SameKey(e.run.options, run.options, "org")
    ensures e.threw <==> m.repository.None? || m.author.None?
    ensures m.repository.Some? ==> Holds(e.run.options, "gitRepo", RepositoryUrl(m.repository.value))
    ensures m.repository.None? ==> SameKey(e.run.options, run.options, "gitRepo")
    ensures !e.threw ==> Holds(e.run.options, "author", Str(ManifestAuthor(m.author.value, detected)))
    ensures e.threw ==> SameKey(e.run.options, run.options, "author")
    ensures run.options.Keys <= OptionKeys ==> e.run.options.Keys <= OptionKeys
  {
    OverridePatchWrites(m, cwd, detected);
    var threw := m.repository.None? || m.author.None?;
    Applied(run.(command := Some(WebcomponentCommand), options := Spread(run.options, OverridePatch(m, cwd, detected))), threw)
  }

  /** The author the override writes is the manifest's `author.name` when that is truthy,
      and otherwise the author git reported. */
  lemma OverrideAuthor(run: CommandRun, m: Manifest, cwd: string, detected: string)
    requires MonorepoMarked(m) && m.repository.Some? && m.author.Some?
    ensures var opts := Override(run, m, cwd, detected).run.options;
      && (m.author.value.PersonRecord? && TruthyText(m.author.value.name) ==>
            Holds(opts, "author", Str(m.author.value.name.value)))
      && (!(m.author.value.PersonRecord? && TruthyText(m.author.value.name)) ==>
            Holds(opts, "author", Str(detected)))
  {
  }

  /** One pass of the probing loop's body over a parsed manifest: `hax.cli` marks the
      record's `program` (never its `command`), a truthy `npmClient` is copied, and a
      workspace marker applies the monorepo override. An exception leaves the earlier
      assignments in place. */
  function Apply(run: CommandRun, m: Manifest, cwd: string, detected: string): (e: Applied)
    ensures e.run.arguments == run.arguments
    ensures e.run.program == (if m.haxCli then Some(WebcomponentCommand) else run.program)
    ensures TruthyText(m.npmClient) ==> Holds(e.run.options, "npmClient", Str(m.npmClient.value))
    ensures !TruthyText(m.npmClient) ==> SameKey(e.run.options, run.options, "npmClient")
    ensures !MonorepoMarked(m) ==>
      && !e.threw
      && e.run.command == run.command
      && forall k :: k != "npmClient" ==> SameKey(e.run.options, run.options, k)
    ensures MonorepoMarked(m) ==>
      && e.run.command == Some(WebcomponentCommand)
      && Holds(e.run.options, "isMonorepo", Bool(true))
      && Holds(e.run.options, "auto", Bool(true))
      && Holds(e.run.options, "path", Str(WorkspacePath(m, cwd)))
      && SameKey(e.run.options, run.options, "y")
      && (TruthyText(m.orgNpm) ==> Holds(e.run.options, "org", Str(m.orgNpm.value)))
      && (!TruthyText(m.orgNpm) ==> SameKey(e.run.options, run.options, "org"))
      && (e.threw <==> m.repository.None? || m.author.None?)
      && (m.repository.Some? ==> Holds(e.run.options, "gitRepo", RepositoryUrl(m.repository.value)))
      && (m.repository.None? ==> SameKey(e.run.options, run.options, "gitRepo"))
      && (!e.threw ==> Holds(e.run.options, "author", Str(ManifestAuthor(m.author.value, detected))))
      && (e.threw ==> SameKey(e.run.options, run.options, "author"))
    ensures run.options.Keys <= OptionKeys ==> e.run.options.Keys <= OptionKeys
  {
    var marked := if m.haxCli then run.(program := Some(WebcomponentCommand)) else run;
    var client := ClientSet(marked, m);
    if !MonorepoMarked(m) then Applied(client, false) else Override(client, m, cwd, detected)
  }

  /** A manifest writes only its own keys: every other option is left as it was. */
  lemma ApplyKeepsOtherOptions(run: CommandRun, m: Manifest, cwd: string, detected: string, k: string)
    requires !ManifestKey(k)
    ensures SameKey(Apply(run, m, cwd, detected).run.options, run.options, k)
  {
    var marked := if m.haxCli then run.(program := Some(WebcomponentCommand)) else run;
    var client := ClientSet(marked, m);
    assert SameKey(client.options, run.options, k);
    if MonorepoMarked(m) {
      var e := Override(client, m, cwd, detected);
      assert e.run.options.Keys <= client.options.Keys + {"isMonorepo", "auto", "path", "org", "gitRepo", "author"};
    }
  }

  /** The record with the manifest's `npmClient` copied into its options when it is truthy. */
  function ClientSet(run: CommandRun, m: Manifest): CommandRun {
    if TruthyText(m.npmClient) then run.(options := run.options["npmClient" := Str(m.npmClient.value)]) else run
  }

  lemma OverrideAgain(run: CommandRun, m: Manifest, cwd: string, detected: string)
    requires MonorepoMarked(m)
    ensures Override(Override(run, m, cwd, detected).run, m, cwd, detected) == Override(run, m, cwd, detected)
  {
    var patch := OverridePatch(m, cwd, detected);
    assert Spread(Spread(run.options, patch), patch) == Spread(run.options, patch);
  }

  lemma ClientSetKept(run: CommandRun, m: Manifest)
    requires TruthyText(m.npmClient) ==> Holds(run.options, "npmClient", Str(m.npmClient.value))
    ensures ClientSet(run, m) == run
  {
    if TruthyText(m.npmClient) {
      assert ClientSet(run, m).options == run.options;
    }
  }

  /** Applying a manifest a second time changes nothing: every assignment writes a value
      taken from the manifest, the working directory or git, never from the record. */
  lemma ApplyIdempotent(run: CommandRun, m: Manifest, cwd: string, detected: string)
    ensures Apply(Apply(run, m, cwd, detected).run, m, cwd, detected) == Apply(run, m, cwd, detected)
  {
    var marked := if m.haxCli then run.(program := Some(WebcomponentCommand)) else run;
    var client := ClientSet(marked, m);
    var once := Apply(run, m, cwd, detected);
    var marked' := if m.haxCli then once.run.(program := Some(WebcomponentCommand)) else once.run;
    assert marked' == once.run;
    if MonorepoMarked(m) {
      assert once == Override(client, m, cwd, detected);
      ClientSetKept(once.run, m);
      OverrideAgain(client, m, cwd, detected);
    } else {
      assert once.run == client;
      ClientSetKept(once.run, m);
    }
  }

  /** The three locations the prober looks at, in order. */
  function Candidates(cwd: string): seq<string> {
    [Join(cwd, "package.json"), Join(Join(cwd, ".."), "package.json"), Join(Join(Join(cwd, ".."), ".."), "package.json")]
  }

  /** Reading and parsing a file: `None` when it is missing or does not parse. */
  function ReadManifest(fs: FileSystem, path: string): Option<Manifest>
  {
    if path in fs.existing && path in fs.json then Some(fs.json[path]) else None
  }

  /** The command record after probing, and `packageData` (`None` stands for the initial `{}`). */
  datatype Probed = Probed(run: CommandRun, packageData: Option<Manifest>)

  /** One of the first `n` locations exists. */
  predicate ExistsAmong(locations: seq<string>, existing: set<string>, n: nat)
    requires n <= |locations|
  {
    exists i :: 0 <= i < n && locations[i] in existing
  }

  predicate AnyCandidateExists(fs: FileSystem, cwd: string) {
    ExistsAmong(Candidates(cwd), fs.existing, 3)
  }

  /** What probing amounts to: when any candidate exists and the working directory's own
      manifest parses, that manifest is applied once; otherwise nothing changes. */
  function ProbeResult(run: CommandRun, fs: FileSystem, cwd: string, detected: string): Probed {
    var own := ReadManifest(fs, Join(cwd, "package.json"));
    if AnyCandidateExists(fs, cwd) && own.Some? then
      Probed(Apply(run, own.value, cwd, detected).run, own)
    else
      Probed(run, None)
  }

  /** Probing an unchanged directory a second time changes nothing more: the record and
      `packageData` come out as they did after the first probe. */
  lemma ProbeIdempotent(run: CommandRun, fs: FileSystem, cwd: string, detected: string)
    ensures var once := ProbeResult(run, fs, cwd, detected);
      ProbeResult(once.run, fs, cwd, detected) == once
  {
    var own := ReadManifest(fs, Join(cwd, "package.json"));
    if AnyCandidateExists(fs, cwd) && own.Some? {
      ApplyIdempotent(run, own.value, cwd, detected);
    }
  }

  /** Applying the manifest to the record as it stands gives what one application to the
      original record gives, whether or not it was applied before. */
  lemma ReapplyAgrees(run: CommandRun, out: CommandRun, m: Manifest, cwd: string, detected: string)
    requires out == run || out == Apply(run, m, cwd, detected).run
    ensures Apply(out, m, cwd, detected) == Apply(run, m, cwd, detected)
  {
    if out != run {
      ApplyIdempotent(run, m, cwd, detected);
    }
  }

  /** The probing loop as written: each existing candidate triggers a fresh read of the
      working directory's `package.json` (never of the candidate itself) and one
      application of it; a read, parse or field-access error is caught and logged. */
  method Probe(run: CommandRun, fs: FileSystem, cwd: string, detected: string) returns (out: CommandRun, packageData: Option<Manifest>, logged: nat)
    ensures Probed(out, packageData) == ProbeResult(run, fs, cwd, detected)
    ensures logged <= 3
    ensures logged == 0 <== !AnyCandidateExists(fs, cwd)
  {
    var own := ReadManifest(fs, Join(cwd, "package.json"));
    var all := Candidates(cwd);
    var pending := all;
    var seen := false;
    var tried := 0;
    out, packageData, logged := run, None, 0;
    while |pending| > 0
      invariant tried + |pending| == 3
      invariant pending == all[tried..]
      invariant seen <==> ExistsAmong(all, fs.existing, tried)
      invariant seen && own.Some? ==> out == Apply(run, own.value, cwd, detected).run && packageData == own
      invariant !(seen && own.Some?) ==> out == run && packageData == None
      invariant logged <= tried
      invariant !seen ==> logged == 0
    {
      var location := pending[0];
      assert location == all[tried];
      pending := pending[1..];
      if location in fs.existing {
        match own {
          case None =>
            logged := logged + 1;
          case Some(data) =>
            ReapplyAgrees(run, out, data, cwd, detected);
            var e := Apply(out, data, cwd, detected);
            packageData := own;
            out := e.run;
            if e.threw {
              logged := logged + 1;
            }
        }
        seen := true;
      }
      tried := tried + 1;
    }
  }
}
