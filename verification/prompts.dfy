/** The prompts of the interactive loop and their validators. A prompt takes its
    answers, in order, from a scripted sequence: a text prompt whose validator
    rejects an answer shows the problem and takes the next answer, as the real
    prompt keeps the user on the field until it validates. */
module Prompts {
  import opened Js

  /** The project type the first prompt chooses. */
  datatype Kind = Site | Webcomponent | Quit

  /** The string the program stores for a project type. */
  function KindName(k: Kind): (s: string)
    ensures k == Site <==> s == "site"
    ensures k == Webcomponent <==> s == "webcomponent"
    ensures k == Quit <==> s == "quit"
  {
    match k
    case Site => "site"
    case Webcomponent => "webcomponent"
    case Quit => "quit"
  }

  /** One user action: pick a project type, submit typed text, submit a multi-selection,
      submit the field's initial value unchanged, or cancel the prompt group. */
  datatype Answer = Choose(kind: Kind) | Text(text: string) | Pick(values: seq<string>) | Submit | Cancel

  /** What a validator can report, one case per message the program shows. */
  datatype Problem =
    | PathRequired
    | PathMissing(path: string)
    | NameRequired
    | NameStartsWithDigit
    | NameHasSpace
    | NameNeedsHyphen
    | NameTaken(path: string)
    | OrgNeedsAt

  /** `/^\d/`: without the `u` flag `\d` is an ASCII digit. */
  predicate StartsWithDigit(v: string) {
    |v| > 0 && '0' <= v[0] <= '9'
  }

  /** The folder validator: a path is required and must exist. */
  function PathProblem(v: string, existing: set<string>): (r: Option<Problem>)
    ensures r == None <==> v != "" && v in existing
    ensures r == Some(PathRequired) <==> v == ""
  {
    if v == "" then Some(PathRequired)
    else if v !in existing then Some(PathMissing(v))
    else None
  }

  /** The hyphen guard exactly as the program writes it: `indexOf('-') === -1` joined by
      `&&` to two comparisons that `-1` always passes on a non-empty name, so it fires only
      for a component name without any `-`. */
  predicate HyphenGuard(kind: Kind, v: string) {
    var i := IndexOf(v, "-");
    kind == Webcomponent && i == -1 && i != 0 && i != |v| - 1
  }

  /** A name the shape checks accept, stated without `indexOf`. */
  predicate WellShapedName(kind: Kind, v: string) {
    && v != ""
    && !StartsWithDigit(v)
    && ' ' !in v
    && (kind == Webcomponent ==> '-' in v)
  }

  /** The name validator: the first failing check, in the program's order, names the problem;
      a name that passes every shape check is still rejected when `join(base, name)` exists. */
  function NameProblem(v: string, kind: Kind, base: string, existing: set<string>): (r: Option<Problem>)
    ensures r == None <==> WellShapedName(kind, v) && Join(base, v) !in existing
    ensures r == Some(NameRequired) <==> v == ""
    ensures r == Some(NameStartsWithDigit) <==> v != "" && StartsWithDigit(v)
    ensures r == Some(NameHasSpace) <==> v != "" && !StartsWithDigit(v) && ' ' in v
    ensures r == Some(NameNeedsHyphen) <==>
      v != "" && !StartsWithDigit(v) && ' ' !in v && kind == Webcomponent && '-' !in v
    ensures r == Some(NameTaken(Join(base, v))) <==> WellShapedName(kind, v) && Join(base, v) in existing
  {
    IndexOfCharMissing(v, ' ');
    IndexOfCharMissing(v, '-');
    if v == "" then Some(NameRequired)
    else if StartsWithDigit(v) then Some(NameStartsWithDigit)
    else if IndexOf(v, " ") != -1 then Some(NameHasSpace)
    else if HyphenGuard(kind, v) then Some(NameNeedsHyphen)
    else if Join(base, v) in existing then Some(NameTaken(Join(base, v)))
    else None
  }

  /** On a non-empty name the hyphen guard as written means "a component name with no `-`":
      where the `-` sits is never looked at. */
  lemma {:induction false} HyphenGuardAsWritten(kind: Kind, v: string)
    requires v != ""
    ensures HyphenGuard(kind, v) <==> kind == Webcomponent && '-' !in v
  {
    IndexOfCharMissing(v, '-');
  }

  /** A lone hyphen, a leading hyphen and a trailing hyphen all pass the component name
      validator when the target folder is free. */
  lemma EdgeHyphensAccepted(base: string, existing: set<string>)
    requires Join(base, "-") !in existing && Join(base, "-my-el") !in existing && Join(base, "my-el-") !in existing
    ensures NameProblem("-", Webcomponent, base, existing) == None
    ensures NameProblem("-my-el", Webcomponent, base, existing) == None
    ensures NameProblem("my-el-", Webcomponent, base, existing) == None
  {
    assert "-"[0] == '-';
    assert "-my-el"[0] == '-';
    assert "my-el-"[2] == '-';
    assert ' ' !in "-my-el" by { assert "-my-el" == ['-', 'm', 'y', '-', 'e', 'l']; }
    assert ' ' !in "my-el-" by { assert "my-el-" == ['m', 'y', '-', 'e', 'l', '-']; }
  }

  /** The organisation validator: an empty answer is fine, anything else must start with `@`. */
  function OrgProblem(v: string): (r: Option<Problem>)
    ensures r == None <==> v == "" || v[0] == '@'
    ensures r.Some? ==> r.value == OrgNeedsAt
  {
    if v != "" && !(v[..1] == "@") then Some(OrgNeedsAt) else None
  }

  /** Which validator a text prompt runs. `NameCheck` carries the folder a new project
      would be created in. */
  datatype Check = NoCheck | PathCheck | NameCheck(kind: Kind, base: string) | OrgCheck

  function Validate(c: Check, v: string, existing: set<string>): Option<Problem> {
    match c
    case NoCheck => None
    case PathCheck => PathProblem(v, existing)
    case NameCheck(kind, base) => NameProblem(v, kind, base, existing)
    case OrgCheck => OrgProblem(v)
  }

  /** The outcome of one prompt: the accepted value with the answers left over and the
      problems shown on the way, or a cancellation, or a script that ran out (or gave an
      answer this prompt cannot take) while the prompt still waits. */
  datatype Reply<T> = Answered(value: T, rest: seq<Answer>, rejected: seq<Problem>) | Cancelled | Stalled

  /** An answer a text prompt submits. */
  predicate IsSubmission(a: Answer) {
    a.Text? || a.Submit?
  }

  /** The text a submission hands to the validator: typed text, or the initial value. */
  function Submitted(a: Answer, initial: string): string
    requires IsSubmission(a)
  {
    if a.Text? then a.text else initial
  }

  /** A text prompt. Every submission before the accepted one was rejected with the problem
      recorded for it, and the accepted value passes the validator. */
  function AskText(script: seq<Answer>, initial: string, check: Check, existing: set<string>): (r: Reply<string>)
    ensures r.Answered? ==>
      && Validate(check, r.value, existing) == None
      && |r.rejected| < |script|
      && r.rest == script[|r.rejected| + 1..]
      && IsSubmission(script[|r.rejected|])
      && r.value == Submitted(script[|r.rejected|], initial)
      && forall i :: 0 <= i < |r.rejected| ==>
           IsSubmission(script[i]) && Validate(check, Submitted(script[i], initial), existing) == Some(r.rejected[i])
    ensures r.Cancelled? ==> exists i :: 0 <= i < |script| && script[i] == Cancel
    decreases |script|
  {
    if |script| == 0 then Stalled
    else if script[0] == Cancel then Cancelled
    else if !IsSubmission(script[0]) then Stalled
    else
      var v := Submitted(script[0], initial);
      match Validate(check, v, existing)
      case None => Answered(v, script[1..], [])
      case Some(problem) =>
        var r := AskText(script[1..], initial, check, existing);
        if r.Answered? then Answered(r.value, r.rest, [problem] + r.rejected)
        else r
  }

  /** The project type prompt; its initial value is `webcomponent`. */
  function AskKind(script: seq<Answer>): Reply<Kind>
  {
    if |script| == 0 then Stalled
    else match script[0]
      case Choose(k) => Answered(k, script[1..], [])
      case Submit => Answered(Webcomponent, script[1..], [])
      case Cancel => Cancelled
      case _ => Stalled
  }

  /** The extras multi-select, whose initial selection is every offered value. Nothing is
      required, so an empty selection is accepted. */
  function AskExtras(script: seq<Answer>, offered: seq<string>): (r: Reply<seq<string>>)
    ensures r.Answered? ==>
      && |script| > 0
      && r.rest == script[1..]
      && r.rejected == []
      && (forall i :: 0 <= i < |r.value| ==> r.value[i] in offered)
      && (script[0].Submit? ==> r.value == offered)
    ensures r.Cancelled? <==> |script| > 0 && script[0] == Cancel
  {
    if |script| == 0 then Stalled
    else match script[0]
      case Pick(values) =>
        if forall i :: 0 <= i < |values| ==> values[i] in offered then Answered(values, script[1..], [])
        else Stalled
      case Submit => Answered(offered, script[1..], [])
      case Cancel => Cancelled
      case _ => Stalled
  }
}
