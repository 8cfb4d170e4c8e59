/** What one pass of the field prompts guarantees: which fields were asked, what
    a skipped field holds, and that every answered field passed its validator. */
module GroupFacts {
  import opened Js
  import opened Options
  import opened Prompts
  import opened Orchestrator

  /** The position of a field in the group. */
  function Order(f: Field): (i: nat)
    ensures i < |GroupFields| && GroupFields[i] == f
  {
    match f
    case PathField => 0
    case NameField => 1
    case OrgField => 2
    case AuthorField => 3
    case ExtrasField => 4
  }

  lemma FieldKeysDistinct(f: Field, f': Field)
    ensures f != f' ==> FieldKey(f) != FieldKey(f')
    ensures FieldKey(f) != "type"
  {
  }

  /** The field sits in the collected results with the value its resolver produced: `undefined`
      when skipped, an accepted answer when asked. */
  predicate Resolved(f: Field, g: Group, run: CommandRun, kind: Kind, env: Env)
    requires g.Collected?
  {
    && FieldKey(f) in g.answers
    && (f in g.asked <==> Asks(f, run.options, kind))
    && (!Asks(f, run.options, kind) ==> g.answers[FieldKey(f)] == Undef)
    && (Asks(f, run.options, kind) ==> Accepted(f, g.answers[FieldKey(f)], run, kind, env, g.answers))
  }

  /** After `n` stages: the type is kept, the first `n` fields are resolved, and no later field
      has been asked. */
  predicate StageInvariant(n: nat, g: Group, run: CommandRun, kind: Kind, env: Env) {
    g.Collected? ==>
      && Holds(g.answers, "type", Str(KindName(kind)))
      && (forall f :: Order(f) < n ==> Resolved(f, g, run, kind, env))
      && (forall f :: Order(f) >= n ==> f !in g.asked)
  }

  /** The folder a name is checked against depends on the results only through `path`. */
  lemma NameBaseByPath(opts: Bag, a: Bag, b: Bag, cwd: string)
    requires SameKey(a, b, "path")
    ensures NameBase(opts, a, cwd) == NameBase(opts, b, cwd)
  {
  }

  /** Resolving a later field keeps an earlier field resolved. */
  lemma FillKeeps(g: Group, f: Field, f': Field, run: CommandRun, kind: Kind, env: Env)
    requires g.Collected? && Order(f') < Order(f) && Resolved(f', g, run, kind, env)
    requires f !in g.asked
    ensures var h := Fill(g, f, run, kind, env);
      h.Collected? ==> Resolved(f', h, run, kind, env)
  {
    var h := Fill(g, f, run, kind, env);
    if h.Collected? {
      FieldKeysDistinct(f, f');
      FieldKeysDistinct(f, PathField);
      if f' == NameField {
        assert f != PathField;
        NameBaseByPath(run.options, g.answers, h.answers, env.cwd);
      }
      assert h.answers[FieldKey(f')] == g.answers[FieldKey(f')];
    }
  }

  /** Resolving a field leaves it resolved. */
  lemma FillSettles(g: Group, f: Field, run: CommandRun, kind: Kind, env: Env)
    requires g.Collected? && f !in g.asked
    ensures var h := Fill(g, f, run, kind, env);
      h.Collected? ==> Resolved(f, h, run, kind, env)
  {
    var h := Fill(g, f, run, kind, env);
    if h.Collected? && Asks(f, run.options, kind) {
      FieldKeysDistinct(f, PathField);
      if f == NameField {
        NameBaseByPath(run.options, g.answers, h.answers, env.cwd);
      }
    }
  }

  /** One stage keeps the invariant. */
  lemma StageStep(n: nat, g: Group, run: CommandRun, kind: Kind, env: Env)
    requires 0 < n <= 5 && StageInvariant(n - 1, g, run, kind, env)
    ensures StageInvariant(n, Fill(g, GroupFields[n - 1], run, kind, env), run, kind, env)
  {
    var f := GroupFields[n - 1];
    var h := Fill(g, f, run, kind, env);
    if h.Collected? {
      assert Order(f) == n - 1;
      FieldKeysDistinct(f, f);
      forall f' | Order(f') < n
        ensures Resolved(f', h, run, kind, env)
      {
        if f' == f {
          FillSettles(g, f, run, kind, env);
        } else {
          FillKeeps(g, f, f', run, kind, env);
        }
      }
      forall f' | Order(f') >= n
        ensures f' !in h.asked
      {
        assert f' != f && f' !in g.asked;
      }
    }
  }

  lemma {:induction false} StageFacts(n: nat, run: CommandRun, kind: Kind, env: Env, script: seq<Answer>)
    requires n <= 5
    ensures StageInvariant(n, Stage(n, run, kind, env, script), run, kind, env)
  {
    if n > 0 {
      StageFacts(n - 1, run, kind, env, script);
      StageStep(n, Stage(n - 1, run, kind, env, script), run, kind, env);
    }
  }

  /** A completed prompt group asks exactly the fields whose decision says so; a skipped field
      holds `undefined`; an asked field holds an answer its validator accepted. */
  lemma {:induction false} GroupResolvesEveryField(run: CommandRun, kind: Kind, env: Env, script: seq<Answer>, f: Field)
    ensures var g := CollectGroup(run, kind, env, script);
      g.Collected? ==> Resolved(f, g, run, kind, env)
  {
    StageFacts(5, run, kind, env, script);
  }
}
