/** Composition of the status text in `getWeiboStatusContent`: classify the
    build, pick that outcome's template, resolve the authors, and format the
    template with (authors, time, short URL). The build time and the short
    URL arrive as already-rendered text: the clock, the `Date` rendering and
    the URL-shortening call are outside this model. */
module StatusContent {
  import opened Wrappers
  import opened Verdicts
  import BR = BuildResults
  import opened Classifier
  import opened Templates
  import opened Authors
  import opened Format

  /** The text to post, or the formatter's error. The status is composed
      exactly when the outcome's template has at most three `%s`
      conversions, and a template without any is posted as is, whoever the
      authors are. */
  function WeiboStatusContent(
    templates: TemplateSet, current: Verdict, previous: Option<Verdict>,
    changes: seq<ChangeEntry>, userMap: map<string, string>,
    time: string, url: string): (r: Result<string, FormatError>)
    ensures var template := SelectTemplate(templates, DetermineBuildResult(current, previous));
      && (r.Ok? <==> Placeholders(template) <= 3)
      && (Placeholders(template) == 0 ==> r == Ok(template))
  {
    var template := SelectTemplate(templates, DetermineBuildResult(current, previous));
    FormatS(template, [AuthorsText(changes, userMap), time, url])
  }

  /** The composed text depends on the change set and the user map only
      through the rendered author block. */
  lemma ContentDependsOnAuthorsText(
    templates: TemplateSet, current: Verdict, previous: Option<Verdict>,
    c1: seq<ChangeEntry>, m1: map<string, string>,
    c2: seq<ChangeEntry>, m2: map<string, string>, time: string, url: string)
    requires AuthorsText(c1, m1) == AuthorsText(c2, m2)
    ensures WeiboStatusContent(templates, current, previous, c1, m1, time, url)
         == WeiboStatusContent(templates, current, previous, c2, m2, time, url)
  {
  }

  /** One conversion followed by a literal piece without `%`: the argument
      comes first, then the piece, then whatever the rest renders to. */
  lemma FormatOneSlot(lit: string, rest: string, arg: string, args: seq<string>, out: string)
    requires forall i :: 0 <= i < |lit| ==> lit[i] != '%'
    requires FormatS(rest, args) == Ok(out)
    ensures FormatS("%s" + (lit + rest), [arg] + args) == Ok(arg + (lit + out))
  {
    FormatLiteralPrefix(lit, rest, args);
    FormatPlaceholderPrefix(lit + rest, arg, args);
  }

  /** A template of the form `"%s" + a + "%s" + b + "%s" + c`, with no `%`
      in the literal pieces, renders the three arguments in order. */
  lemma FormatThreeSlots(a: string, b: string, c: string, x: string, y: string, z: string)
    requires forall i :: 0 <= i < |a| ==> a[i] != '%'
    requires forall i :: 0 <= i < |b| ==> b[i] != '%'
    requires forall i :: 0 <= i < |c| ==> c[i] != '%'
    ensures FormatS("%s" + (a + ("%s" + (b + ("%s" + c)))), [x, y, z]) == Ok(x + (a + (y + (b + (z + c)))))
  {
    var t3, t2 := "%s" + c, "%s" + (b + ("%s" + c));
    NoPercentNoPlaceholders(c);
    FormatPlaceholderPrefix(c, z, []);
    assert [z] + [] == [z];
    assert FormatS(t3, [z]) == Ok(z + c);
    FormatOneSlot(b, t3, y, [z], z + c);
    assert [y] + [z] == [y, z];
    assert FormatS(t2, [y, z]) == Ok(y + (b + (z + c)));
    FormatOneSlot(a, t2, x, [y, z], y + (b + (z + c)));
    assert [x] + [y, z] == [x, y, z];
  }

  /** A text without `%` has no conversion in it. */
  lemma {:induction false} NoPercentNoPlaceholders(s: string)
    requires forall i :: 0 <= i < |s| ==> s[i] != '%'
    ensures Placeholders(s) == 0
    decreases |s|
  {
    if |s| > 0 {
      NoPercentNoPlaceholders(s[1..]);
    }
  }

  /** A sample success template, cut at its conversions. */
  lemma SuccessTemplateShape()
    ensures "%s built OK at %s (%s)" == "%s" + (" built OK at " + ("%s" + (" (" + ("%s" + ")"))))
  {
    var t := "%s" + (" built OK at " + ("%s" + (" (" + ("%s" + ")"))));
    assert |t| == |"%s built OK at %s (%s)"|;
    assert forall i :: 0 <= i < |t| ==> t[i] == "%s built OK at %s (%s)"[i];
  }

  /** A sample success template filled with the placeholder, a time and
      a link. */
  lemma RenderSuccessExample(time: string, url: string)
    ensures FormatS("%s built OK at %s (%s)", [NoAuthor, time, url])
         == Ok(NoAuthor + " built OK at " + time + " (" + url + ")")
  {
    SuccessTemplateShape();
    FormatThreeSlots(" built OK at ", " (", ")", NoAuthor, time, url);
    RegroupSix(NoAuthor, " built OK at ", time, " (", url, ")");
  }

  /** Regrouping a six-piece concatenation to the right. */
  lemma RegroupSix(p: string, a: string, q: string, b: string, r: string, c: string)
    ensures p + a + q + b + r + c == p + (a + (q + (b + (r + c))))
  {
  }

  /** The first build of a job passes; its only author is not in the user
      map, so the success template is filled with the bare placeholder. */
  lemma FirstGreenBuildScenario(templates: TemplateSet, userMap: map<string, string>, time: string, url: string)
    requires templates.successTemplate == "%s built OK at %s (%s)"
    requires "Alice" !in userMap
    ensures WeiboStatusContent(templates, Verdicts.Success, None, [ChangeEntry("Alice")], userMap, time, url)
         == Ok(NoAuthor + " built OK at " + time + " (" + url + ")")
  {
    NothingMatchedExamples(userMap);
    assert DetermineBuildResult(Verdicts.Success, None) == BR.Success;
    RenderSuccessExample(time, url);
  }

  /** Two failing builds in a row use the continuous-fail template, and a
      passing build after a failing one uses the recover template, whoever
      the authors are. */
  lemma FailureStreakScenarios(
    templates: TemplateSet, changes: seq<ChangeEntry>, userMap: map<string, string>, time: string, url: string)
    ensures WeiboStatusContent(templates, Unstable, Some(Failure), changes, userMap, time, url)
         == FormatS(templates.continuousFailTemplate, [AuthorsText(changes, userMap), time, url])
    ensures WeiboStatusContent(templates, Verdicts.Success, Some(Aborted), changes, userMap, time, url)
         == FormatS(templates.recoverTemplate, [AuthorsText(changes, userMap), time, url])
  {
  }
}
