/** Template selection in `getWeiboStatusContent`: the notifier's four
    configured message templates, one per outcome. */
module Templates {
  import opened BuildResults

  /** The job's template configuration. */
  datatype TemplateSet = TemplateSet(
    successTemplate: string,
    failTemplate: string,
    continuousFailTemplate: string,
    recoverTemplate: string)

  /** The four templates listed in the enum's declaration order. */
  function InDeclarationOrder(t: TemplateSet): seq<string>
  {
    [t.successTemplate, t.failTemplate, t.continuousFailTemplate, t.recoverTemplate]
  }

  /** The template the switch picks for an outcome: the configured template
      at the outcome's ordinal. The switch has a case for every constant,
      so the initial `""` is never what comes out. */
  function SelectTemplate(t: TemplateSet, r: BuildResult): (s: string)
    ensures s == InDeclarationOrder(t)[Ordinal(r)]
  {
    match r
    case Success => t.successTemplate
    case Fail => t.failTemplate
    case ContinuousFail => t.continuousFailTemplate
    case Recover => t.recoverTemplate
  }

  /** The same configuration with the template for `r` replaced by `s`. */
  function WithTemplate(t: TemplateSet, r: BuildResult, s: string): TemplateSet
  {
    match r
    case Success => t.(successTemplate := s)
    case Fail => t.(failTemplate := s)
    case ContinuousFail => t.(continuousFailTemplate := s)
    case Recover => t.(recoverTemplate := s)
  }

  /** Each outcome reads exactly its own template: what is configured for
      `r` is what `r` selects, and configuring `r` leaves every other
      outcome's selection alone. */
  lemma SelectReadsOwnField(t: TemplateSet, r: BuildResult, s: string, other: BuildResult)
    ensures SelectTemplate(WithTemplate(t, r, s), r) == s
    ensures other != r ==> SelectTemplate(WithTemplate(t, r, s), other) == SelectTemplate(t, other)
  {
  }

  /** Every configuration is determined by what it selects, outcome by
      outcome: no template field is unreachable through the switch. */
  lemma SelectionDeterminesTemplates(t: TemplateSet, u: TemplateSet)
    requires forall r: BuildResult :: SelectTemplate(t, r) == SelectTemplate(u, r)
    ensures t == u
  {
    assert SelectTemplate(t, Success) == SelectTemplate(u, Success);
    assert SelectTemplate(t, Fail) == SelectTemplate(u, Fail);
    assert SelectTemplate(t, ContinuousFail) == SelectTemplate(u, ContinuousFail);
    assert SelectTemplate(t, Recover) == SelectTemplate(u, Recover);
  }

  /** No two outcomes share a template text. */
  predicate DistinctTemplates(t: TemplateSet)
  {
    && t.successTemplate != t.failTemplate
    && t.successTemplate != t.continuousFailTemplate
    && t.successTemplate != t.recoverTemplate
    && t.failTemplate != t.continuousFailTemplate
    && t.failTemplate != t.recoverTemplate
    && t.continuousFailTemplate != t.recoverTemplate
  }

  /** With four distinct templates, distinct outcomes select distinct
      templates: the selection is one-to-one. */
  lemma SelectionIsInjective(t: TemplateSet, a: BuildResult, b: BuildResult)
    requires DistinctTemplates(t)
    ensures a != b ==> SelectTemplate(t, a) != SelectTemplate(t, b)
  {
  }
}
