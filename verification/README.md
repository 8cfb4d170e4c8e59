# create-wizard model

A Dafny model of the decision logic of the HAX command-line wizard `src/create.js`.
The wizard runs in five steps:

1. It normalises the parsed command record: sub-command defaults merged with global flags, `y`/`auto` unified, the intro decision, and the values auto mode forces.
2. It probes up to three `package.json` locations for signals: the `npmClient` override, the `hax.cli` marker, and the one-way monorepo override.
3. It picks a route: the site fast path, the managed-component fast path, or the interactive loop.
4. The interactive loop asks for the project type, resolves the five fields (path, name, organisation, author, extras) by "ask or skip" decisions and validators, and merges the answers under the command line into a project intent.
5. It hands each intent to exactly one generator, resetting the command record after the first project.

Every input from outside becomes a parameter: the parsed record and flags, the working directory, whether git is installed, the author git reported, the existing paths and parsed manifests, whether a site structure was detected, the year, the tool version, and the user's answers as a scripted sequence.

Modules:

- `Js` (`js.dfy`): JavaScript values and truthiness, objects as maps, spread as later-wins union, `path.join`, `indexOf`, and `replace` with a string pattern.
- `Options` (`options.dfy`): the command record and option normalisation.
- `Manifests` (`manifest.dfy`): manifest signals, the monorepo override, and the probing loop.
- `Routing` (`route.dfy`): the fast-path precedence.
- `Prompts` (`prompts.dfy`): validators, and text, select and multi-select prompts driven by a scripted answer sequence.
- `Orchestrator` (`orchestrator.dfy`): field decisions, the prompt group, the merge into the intent, one iteration, and the loop.
- `GroupFacts` (`group_facts.dfy`): what a completed prompt group guarantees for every field.
- `Session` (`session.dfy`): one whole run and its cross-step properties.
- `Scenarios` (`scenarios.dfy`): worked runs on concrete answers.

### Behaviour of the program worth knowing

- **Hyphen check.** The validator's message (`create.js:276`) says a component name must include a `-` and must not start or end with one. The check itself (`create.js:275`) joins `indexOf('-') === -1` with two comparisons that `-1` always passes, so it fires only when the name has no `-` at all. `-`, `-my-el` and `my-el-` are all accepted (`Prompts.EdgeHyphensAccepted`).
- **Auto mode.** `--y` and `--auto` are described as "yes to all questions" (`create.js:36`, `create.js:38`). The name prompt still appears unless `--name` was given (`create.js:254`). `Scenarios.AutoModeWaitsForName` shows that a run without answers stops at that prompt.
- **Probing.** The candidate list holds `package.json` in the working directory and in its two parents (`create.js:137-141`). Each existing candidate reads the working directory's own `package.json` (`create.js:148`), never the candidate it found, and applies it again. `Manifests.Probe` shows that the repeated application equals a single one.
- **Missing name argument.** Running `webcomponent` without a positional name records `arguments.name = undefined` (`create.js:94`). The merge at `create.js:358-363` spreads the arguments after the answers, so that `undefined` replaces the typed name (`Session.MissingPositionalNameClobbers`).
- **Default path.** The folder prompt has a placeholder but no initial value, so submitting it empty fails validation. The worked runs type the working directory.

## Model

| member | source | states |
|---|---|---|
| Js.Spread | src/create.js:358-363 | Object spread: the result has the keys of both objects; a key of the later object wins even when it holds `undefined`; other keys keep the earlier value |
| Js.IndexOf | src/create.js:272 | `indexOf` gives -1 exactly when the pattern occurs nowhere, and otherwise the first index where it occurs |
| Js.IndexOfCharMissing | src/create.js:272-273 | `indexOf` of a single character is -1 exactly when the character is not in the string |
| Js.ReplaceFirst | src/create.js:164 | `replace` with a string pattern changes only the first occurrence, and changes nothing when the pattern is absent |
| Options.Normalise | src/create.js:108-135 | Flags win over sub-command defaults. Afterwards `y` and `auto` are each truthy exactly when either was. The intro plays exactly when none of `y`, `auto` or `skip` holds. Auto mode pins path to cwd, org to empty and author to git's author (empty when git failed). No other key changes. |
| Manifests.RepositoryUrl | src/create.js:168 | `repository.url` is either `undefined` or the url carried by a repository object; an object with a url always gives that url as a string |
| Manifests.OverridePatch | src/create.js:158-170 | The override writes only keys a manifest owns: `isMonorepo`, `auto`, `path`, `org`, `gitRepo` and `author`. |
| Manifests.PatchForced | src/create.js:158-164 | The override always writes `isMonorepo` and `auto` as true and the workspace path, and it never writes `y` or `npmClient`. |
| Manifests.PatchOrg | src/create.js:165-167 | `org` is written exactly when `orgNpm` is truthy, and it takes that value. |
| Manifests.PatchRepo | src/create.js:168 | `gitRepo` is written exactly when `repository` exists, even if the later author read throws. |
| Manifests.PatchAuthor | src/create.js:169 | `author` is written exactly when both `repository` and `author` exist. |
| Manifests.OverridePatchWrites | src/create.js:158-170 | Key by key, the override writes `isMonorepo`, `auto` and `path` always; `org` only for a truthy `orgNpm`; `gitRepo` whenever `repository` exists; `author` only when `author` exists too; and never `y` or `npmClient`. |
| Manifests.Override | src/create.js:158-170 | The command becomes `webcomponent` and `isMonorepo` and `auto` become true. The path is cwd joined with the first workspace entry minus its first `/*`. `org` is set only for a truthy `orgNpm`. `gitRepo` becomes `repository.url` whenever `repository` exists. `y` and `npmClient` are untouched. The override throws exactly when `repository` or `author` is missing; then the author is left as it was, and without `repository` so is `gitRepo`. |
| Manifests.OverrideAuthor | src/create.js:169 | The author written is the manifest's `author.name` when that is truthy, otherwise the author git reported |
| Manifests.Apply | src/create.js:150-170 | `hax.cli` sets `program`, never `command`. A truthy `npmClient` is copied. Without the workspace marker nothing else changes and nothing throws. With it, the override's effects hold, `gitRepo := repository.url` included. |
| Manifests.ApplyKeepsOtherOptions | src/create.js:150-170 | A manifest never changes an option outside the keys it owns |
| Manifests.OverrideAgain | src/create.js:158-170 | Applying the monorepo override twice gives the same result as applying it once |
| Manifests.ApplyIdempotent | src/create.js:144-175 | Applying the same manifest again, as each further existing candidate does, changes nothing |
| Manifests.ReapplyAgrees | src/create.js:144-170 | Applying the manifest to an already-updated record gives the same result as one application to the original |
| Manifests.ProbeIdempotent | src/create.js:136-175 | Probing an unchanged directory again leaves the record and `packageData` as the first probe left them |
| Manifests.Probe | src/create.js:136-175 | The literal three-candidate loop equals a single application of cwd's own manifest when any candidate exists. Otherwise nothing changes. At most three errors are logged, and none when no candidate exists. |
| Routing.Resolve | src/create.js:176-183 | A detected site always takes the site fast path. Otherwise the component fast path is taken exactly for a `hax.cli` manifest with a truthy start script. A `hax.cli` manifest without `scripts` crashes. Everything else is interactive. |
| Prompts.KindName | src/create.js:207-212 | The three project types map one-to-one onto the strings `site`, `webcomponent` and `quit` |
| Prompts.PathProblem | src/create.js:242-249 | A path is accepted exactly when it is non-empty and exists; the empty path gives the "required" message |
| Prompts.NameProblem | src/create.js:265-288 | A name is accepted exactly when it is non-empty, does not start with a digit, has no space, has a `-` if it is a component, and `join(base, name)` does not exist. Each failure names its message, checked in the program's order. |
| Prompts.HyphenGuardAsWritten | src/create.js:275 | On a non-empty name the hyphen condition as written holds exactly for a component name containing no `-` |
| Prompts.EdgeHyphensAccepted | src/create.js:275-277 | `-`, `-my-el` and `my-el-` pass the component name validator when the folder is free |
| Prompts.OrgProblem | src/create.js:300-304 | An organisation is accepted exactly when it is empty or starts with `@`; every other value gets the `@` message |
| Prompts.AskText | src/create.js:238-250 | A text prompt returns a value its validator accepts. Every earlier submission was rejected with the recorded message. The prompt consumes exactly the answers up to the accepted one. |
| Prompts.AskExtras | src/create.js:339-344 | The multi-select returns only offered values; a submit keeps the initial selection, which is the whole offer |
| Orchestrator.ExtrasOfferContents | src/create.js:317-338 | The offer, which is also the initial selection, is exactly `[launch]` for a site, `[launch, install, git]` for a component on a machine with git that is not a monorepo, and `[launch, install]` for any other component: `launch` first, `install` second exactly for a component, `git` exactly in the third case, and nothing else. |
| Orchestrator.Ask | src/create.js:235-345 | A field's prompt returns a value its validator accepts; the name is checked against the folder from `options.path`, else the answered path, else cwd |
| Orchestrator.Fill | src/create.js:228-355 | Resolving a field adds only that field's key. A skipped field reads `undefined` and consumes nothing. An asked field consumes at least one answer and holds an accepted value. |
| Orchestrator.Stage | src/create.js:228-355 | A group still being collected keeps the chosen `type` and has consumed no more answers than it was given |
| Orchestrator.CollectGroup | src/create.js:228-355 | A completed group keeps the chosen `type` and consumes no more answers than it was given |
| Orchestrator.Intent | src/create.js:356-365 | The intent is the options, else the arguments, else the answers, else `isMonorepo: false`, stamped with year and version |
| Orchestrator.IntentKeepsType | src/create.js:358-363 | The merge never replaces the answered project type, because `type` is neither an option nor an argument |
| Orchestrator.IntentTakesAnswer | src/create.js:358-363 | A key no option or argument sets carries the answered value |
| Orchestrator.IntentDefaultsMonorepo | src/create.js:358-363 | With nothing setting it, `isMonorepo` is false |
| Orchestrator.ChooseKind | src/create.js:196-200 | The type is fixed without consuming an answer exactly when the command is `site` or `webcomponent`. The fixed type is never `quit`, and it is `site` exactly for the `site` command. |
| Orchestrator.Build | src/create.js:228-374 | A completed group dispatches to the site generator exactly for a site and to the component generator otherwise. The dispatch carries the record, and the intent carries every option and every argument no option shadows. |
| Orchestrator.Iterate | src/create.js:196-374 | One iteration quits exactly on a chosen `quit` at an unpinned type prompt, consuming that answer. Submitting the prompt unchanged takes its initial `webcomponent` and can only build a component. A build dispatches by type, and a pinned `site` command always reaches the site generator. |
| Orchestrator.LoopDispatchesByType | src/create.js:367-374 | Every dispatch of the loop goes to the generator named by its intent's type |
| Orchestrator.LoopResetsAfterFirst | src/create.js:186-195 | The first dispatch receives the starting record; every later one receives `{command: null, arguments: {}, options: {}}` |
| GroupFacts.FillKeeps | src/create.js:228-355 | Resolving a later field keeps every earlier field resolved |
| GroupFacts.FillSettles | src/create.js:228-355 | A field just resolved is asked exactly when its decision says so, and holds `undefined` or an accepted value |
| GroupFacts.StageStep | src/create.js:228-355 | Each stage of the group keeps the type, resolves one more field, and leaves later fields unasked |
| GroupFacts.StageFacts | src/create.js:228-355 | After n stages the first n fields are resolved and no later one was asked |
| GroupFacts.GroupResolvesEveryField | src/create.js:235-346 | In a completed group every field is asked exactly when its decision says so; a skipped field is `undefined`; an asked field passed its validator |
| Session.Prepared | src/create.js:108-175 | After normalisation and probing the arguments are unchanged. The command changes only under the monorepo override, which also turns `isMonorepo` and `auto` on. |
| Session.Run | src/create.js:176-183 | A run takes the resolved route: one hand-off for each fast path, a crash for a `hax.cli` manifest without scripts, otherwise the loop |
| Session.PreparedKeepsOption | src/create.js:108-175 | An option that neither normalisation nor a manifest writes reaches the loop as parsed |
| Session.SiteAlwaysWins | src/create.js:177-178 | A detected site structure takes the site fast path whatever the file system holds |
| Session.InteractiveDispatches | src/create.js:184-374 | In the loop every dispatch follows its intent's type. The first receives the prepared record and later ones the reset record. |
| Session.QuitDispatchesNothing | src/create.js:225-227 | Choosing `quit` at the first type prompt dispatches nothing and ends the loop |
| Session.FirstIntentKeepsOption | src/create.js:358-363 | The first project's intent carries every option of the starting record |
| Session.FirstIntentKeepsArgument | src/create.js:358-363 | The first project's intent carries every argument no option shadows |
| Session.AutoPrepared | src/create.js:131-135 | Without a monorepo manifest, auto mode reaches the loop with cwd, empty org and git's author. This holds whether auto mode came from `--auto`, from `--y`, or from the `y` that `site <action>` and `webcomponent <name>` set. |
| Session.AutoSurvivesProbe | src/create.js:113-116 | Auto mode requested by `--auto`, `--y` or a sub-command's `y` is still on after probing |
| Session.AutoFixesFirstIntent | src/create.js:131-135 | Without a monorepo manifest, the first project's intent in auto mode has folder cwd, empty org and git's author. Auto mode may come from `auto` or from `y`. |
| Session.MonorepoForcesComponent | src/create.js:158-183 | When no site structure is detected, under the monorepo override the first hand-off is a component, even after the `site` sub-command (a detected site takes the site fast path first, see `Session.SiteAlwaysWins`) |
| Session.MissingPositionalNameClobbers | src/create.js:358-363 | Without `--name` and a positional name, the first component intent's name is `undefined`, whatever was typed |
| Session.ResetRecordAsksEveryField | src/create.js:187-194 | After the reset every field is asked, the organisation only for a component |
| Session.AutoAsksOnlyName | src/create.js:235-346 | In auto mode only the name can be asked, and only without `--name` |
| Scenarios.PathAnswered | src/create.js:235-251 | The folder prompt takes an existing folder at the first try |
| Scenarios.NameAnswered | src/create.js:253-292 | The name prompt takes a valid, unused name at the first try |
| Scenarios.OrgTextReprompt | src/create.js:300-304 | `notanorg` is rejected with the `@` message, then `@org` is accepted |
| Scenarios.OrgAnsweredSecondTime | src/create.js:293-307 | The organisation field records `@org` after one rejection |
| Scenarios.AuthorSubmitted | src/create.js:308-316 | Submitting the author prompt keeps git's author |
| Scenarios.ExtrasSubmitted | src/create.js:317-345 | Submitting the extras prompt keeps every offered extra |
| Scenarios.MyElAccepted | src/create.js:265-288 | `my-el` is a valid component name when its folder is free |
| Scenarios.MySiteAccepted | src/create.js:265-288 | `mysite` is a valid site name when its folder is free |
| Scenarios.OrgRepromptGroup | src/create.js:228-355 | A component group with `notanorg` then `@org` completes with `@org` and one recorded rejection |
| Scenarios.OrgRepromptIteration | src/create.js:196-374 | Choosing `webcomponent` and answering that group dispatches the component generator |
| Scenarios.OrgIntent | src/create.js:356-363 | That component's intent carries type `webcomponent`, name `my-el` and org `@org` |
| Scenarios.SiteGroup | src/create.js:228-355 | A site group skips the organisation and keeps the author and extras defaults |
| Scenarios.SiteIteration | src/create.js:196-374 | Choosing `site` and answering the group dispatches the site generator |
| Scenarios.SiteIntent | src/create.js:356-363 | The site intent carries type `site`, name `mysite`, folder cwd, extras `[launch]` and `isMonorepo: false` |
| Scenarios.SitePrepared | src/create.js:108-175 | With only the default client flag and no manifest nearby, the intro plays and the record reaches the loop as `start` with that client and nothing else |
| Scenarios.QuitAtOnce | src/create.js:225-227 | In a later iteration, choosing `quit` ends the loop with nothing dispatched, whatever answers follow |
| Scenarios.SiteLoop | src/create.js:184-376 | The site answers followed by `quit` give one site dispatch, then the loop ends |
| Scenarios.SiteScenario | src/create.js:108-376 | A whole interactive site run plays the intro, creates one site named `mysite` and ends on `quit` |
| Scenarios.ManagedComponentScenario | src/create.js:144-182 | When no site structure is detected, a `hax.cli` manifest with a start script in cwd takes the component fast path with that manifest, whatever the flags |
| Scenarios.AutoGroupWaitsForName | src/create.js:237-291 | In auto mode without `--name` the group skips the folder and waits at the name prompt |
| Scenarios.AutoModeWaitsForName | src/create.js:253-291 | A pinned auto-mode run without `--name` and without answers dispatches nothing and ends waiting. Auto mode may come from `auto` or from `y`. This includes `webcomponent my-el`: its positional name sets `y` but does not skip the name prompt, which reads only `options.name`. |

## Left out

- Commander parsing, the sub-command definitions and the version lookup (`create.js:31-107`): the parsed record and global flags are inputs. `WellFormed` states the key sets the parser can produce.
- The `sysGit` race and `git config user.name` (`create.js:22-27`, `122-130`): whether git is installed and the author it reports are inputs. The author is taken as already trimmed.
- `fs.existsSync`, `readFileSync` and `JSON.parse`: a set of existing paths plus the parsed manifests. A file that is not a JSON object counts as failing to parse.
- `path.join` normalisation: a join is `base + "/" + part`, with no `..` resolution.
- `HAXCMS.getHAXCMSVersion`, `hax.systemStructureContext` and the current year: inputs.
- The bodies of the four generators: a dispatch is a record of what the generator receives.
- The prompt rendering, colours, `haxIntro`, `communityStatement`, `p.note`/`p.intro` banners and the verbose `console.log` of `-v`: UI only. Whether the intro plays is still modelled.
- `process.exit` on cancel: cancel is a terminal state of the loop.
- The file system during the loop: the set of existing paths is fixed for the run, so folders the generators create are not seen by later validators. The program calls `fs.existsSync` live (`create.js:246`, `create.js:286`), so reusing a name in the same folder in a later iteration is rejected by the program and accepted by the model.
- Prompts that wait forever: a run whose scripted answers run out, or whose next answer the prompt cannot take, ends as `OutOfAnswers`.
- Manifest field types: a manifest's fields have the types the wizard expects. A truthy `workspaces.packages[0]` that is not a string makes `.replace` throw at `create.js:164`, after `isMonorepo`, `auto` and `command` have been written (`create.js:160-163`) and before `path`, `org`, `gitRepo` and `author`; that partial state is not represented.
- Manifests.Probe: the log counter bounds the logged errors but does not give their exact number.
