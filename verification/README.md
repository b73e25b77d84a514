# Weibo notifier for Jenkins — verified model of the decision core

This project models, in Dafny, the part of the Jenkins "Sina Weibo Notifier"
plugin that makes decisions. When a build finishes, the plugin does four things:

- It classifies the build as SUCCESS, FAIL, CONTINUOUS_FAIL or RECOVER.
  The input is the current verdict and, when there is one, the previous build's verdict.
- It picks the job's message template for that outcome.
- It turns the change set's authors into `@handle ` mentions. It uses the
  name-to-handle map configured on the plugin's descriptor.
- It formats the template with (authors, build time, short build URL).

The project also models how the descriptor's `configure` builds the user map,
the access-token form check and the `toBoolean` helper.

Modules, one per concern:

- `Verdicts` (verdicts.dfy): the host's ordered verdict scale, `isBetterOrEqualTo`, and the
  "passing" test the classifier uses.
- `BuildResults` (build_result.dfy): the `BuildResult` enum with its ordinals.
- `Classifier` (classifier.dfy): `determineBuildResult`.
- `Templates` (templates.dfy): the template switch of `getWeiboStatusContent`.
- `Authors` (authors.dfy): `getAuthorsFromBuild`, both as a function and as the entry-by-entry loop.
- `UserMap` (user_map.dfy): the map built by `DescriptorImpl.configure`, as a function and as the row-by-row loop.
- `Descriptor` (descriptor.dfy): `doCheckAccessToken` and `toBoolean`.
- `Format` (format.dfy): a simplified `%s`-only formatter, standing in for `String.format`.
- `StatusContent` (status_content.dfy): the composition of the above.
- `Wrappers` (wrappers.dfy): `Option` (for Java `null`) and `Result`.

The verdict is modelled on Jenkins' `hudson.model.Result` scale: SUCCESS, UNSTABLE, FAILURE,
NOT_BUILT, ABORTED, ordered by ordinal. `isBetterOrEqualTo` compares ordinals. That class
is not part of this model. The notifier only ever asks "is this at least SUCCESS?", so only
SUCCESS passes.

Behaviour of the code worth noting:

- The placeholder `NO_AUTHOR` is returned bare, with no trailing space.
  Only a block of real mentions ends with the separator.
- A missing template has no dedicated error path. The code passes it straight to `String.format`.
- The per-outcome "notify on" flags are returned by their getters (WeiboNotifier.java:70-96) for the configuration form, but neither `perform` nor `getWeiboStatusContent` consults them, so every outcome is posted.

## Model

| member | source | states |
|---|---|---|
| Verdicts.PassingIsExactlySuccess | src/main/java/org/neta/weibo/WeiboNotifier.java:135 | The test `isBetterOrEqualTo(Result.SUCCESS)` holds for SUCCESS only. UNSTABLE and every worse grade count as failing. |
| BuildResults.Values | src/main/java/org/neta/weibo/BuildResult.java:9-17 | The enum has exactly four pairwise distinct constants, in declaration order. Every constant sits at its ordinal. |
| BuildResults.OrdinalIsBijection | src/main/java/org/neta/weibo/BuildResult.java:10-16 | Ordinals and constants correspond one-to-one with 0..3. |
| Classifier.DetermineBuildResult | src/main/java/org/neta/weibo/WeiboNotifier.java:131-149 | The outcome is green (SUCCESS/RECOVER) iff the current verdict passes. It follows a failure (RECOVER/CONTINUOUS_FAIL) iff a previous build exists and failed. Every call returns one of the four constants. |
| Classifier.FirstBuild | src/main/java/org/neta/weibo/WeiboNotifier.java:134-135 | With no previous build the result is SUCCESS iff the verdict passes, and FAIL otherwise. |
| Classifier.AfterPassingBuild | src/main/java/org/neta/weibo/WeiboNotifier.java:139-142 | After a passing build the result equals the no-previous-build result. It is never RECOVER or CONTINUOUS_FAIL. |
| Classifier.AfterFailingBuild | src/main/java/org/neta/weibo/WeiboNotifier.java:144-147 | After a failing build the result is RECOVER iff the verdict passes, and CONTINUOUS_FAIL iff it fails. |
| Classifier.OnlyPassingMatters | src/main/java/org/neta/weibo/WeiboNotifier.java:131-149 | Inputs that agree on "previous exists", "previous passes" and "current passes" classify alike. For example, UNSTABLE and FAILURE are interchangeable. |
| Classifier.EveryResultReachable | src/main/java/org/neta/weibo/WeiboNotifier.java:135-147 | Each of the four outcomes is produced by some verdict pair. |
| Templates.SelectReadsOwnField | src/main/java/org/neta/weibo/WeiboNotifier.java:153-167 | Each outcome selects exactly its own template field. Changing one outcome's template changes no other outcome's selection. |
| Templates.SelectTemplate | src/main/java/org/neta/weibo/WeiboNotifier.java:153-167 | The switch returns the configured template at the outcome's ordinal, with the templates listed in enum declaration order. Every outcome has a case, so the initial `""` is never the result. |
| Templates.SelectionDeterminesTemplates | src/main/java/org/neta/weibo/WeiboNotifier.java:154-167 | The switch is exhaustive: two configurations that select alike for every outcome are equal, so no field is unreachable and the initial `""` is never used. |
| Templates.SelectionIsInjective | src/main/java/org/neta/weibo/WeiboNotifier.java:153-167 | When the four templates are distinct, distinct outcomes select distinct templates. |
| Authors.AuthorsText | src/main/java/org/neta/weibo/WeiboNotifier.java:199-212 | The author text is exactly `NO_AUTHOR` iff no change-set author is a key of the user map. Otherwise it is the in-order concatenation of `"@" + handle + " "` over mapped entries, and it ends with a space. |
| Authors.GetAuthorsFromBuild | src/main/java/org/neta/weibo/WeiboNotifier.java:203-211 | The entry-by-entry loop followed by join-plus-separator yields the author text above. It is `NO_AUTHOR` iff nothing matched. |
| Authors.MentionsEmptyIffNoneMapped | src/main/java/org/neta/weibo/WeiboNotifier.java:203-210 | The collected `authors` list is empty iff no change-set author is in the map. |
| Authors.Mentions | src/main/java/org/neta/weibo/WeiboNotifier.java:202-208 | The collected `authors` list has at most one element per change-set entry. Every element is `"@" + handle` for some mapped change-set author. |
| Authors.MentionTextIsConcatEach | src/main/java/org/neta/weibo/WeiboNotifier.java:203-211 | The reference text (mapped entries rendered as `@handle `, in order) is the collected mention list with a space after each element. |
| Authors.Join | src/main/java/org/neta/weibo/WeiboNotifier.java:211 | `StringUtils.join(parts, ' ')` is empty for no parts. For a non-empty list, one more separator at the end gives every part followed by the separator. |
| Authors.NothingMatchedExamples | src/main/java/org/neta/weibo/WeiboNotifier.java:210-211 | An empty change set, an empty map, or a single unmapped author each give the bare placeholder. |
| Authors.MappedAuthorsExamples | src/main/java/org/neta/weibo/WeiboNotifier.java:203-211 | Two mapped authors give `"@B @A "` in change-set order and an unmapped author is skipped. A repeated author is mentioned twice. |
| UserMap.LastRowFor | src/main/java/org/neta/weibo/WeiboNotifier.java:275-281 | For a member name this gives the last row with both sides non-empty that names it, or -1 when there is none. No later row qualifies for that name. |
| UserMap.BuildUserMap | src/main/java/org/neta/weibo/WeiboNotifier.java:271-281 | The map rebuilt from the rows has a key exactly for each member with a qualifying row, and it holds that member's last handle. Nothing survives from an earlier map, and no key or value is empty. |
| UserMap.Configure | src/main/java/org/neta/weibo/WeiboNotifier.java:271-281 | The row-by-row loop starts from an empty map. It yields exactly the map that `BuildUserMap` characterises, and no key or value is empty. |
| UserMap.BuildUserMapStep | src/main/java/org/neta/weibo/WeiboNotifier.java:275-281 | Adding one more form row changes the rebuilt map only when that row qualifies, and then by putting that row's handle under its member name. |
| UserMap.ConfigureExamples | src/main/java/org/neta/weibo/WeiboNotifier.java:275-290 | A later row overwrites an earlier one for the same member, but a later row with an empty handle does not. A row with an empty name is dropped, and an empty form gives an empty map. |
| Descriptor.CheckAccessToken | src/main/java/org/neta/weibo/WeiboNotifier.java:249-255 | The token is rejected iff it is empty, with the fixed message "Please set your weibo access token". Any other token is accepted. |
| Descriptor.ToBooleanRoundTrip | src/main/java/org/neta/weibo/WeiboNotifier.java:323-328 | `toBoolean(Boolean.toString(b))` gives `b`. "TRUE", "True", " true" and null all give false. |
| Descriptor.ToBoolean | src/main/java/org/neta/weibo/WeiboNotifier.java:323-328 | `toBoolean`, with null modelled as `None`. What it computes is stated by `ToBooleanRoundTrip` and `ToBooleanIffTrueText`. |
| Descriptor.ToBooleanIffTrueText | src/main/java/org/neta/weibo/WeiboNotifier.java:323-328 | A value reads as true iff it is exactly the text "true". Null and every other text read as false. |
| Format.FormatS | src/main/java/org/neta/weibo/WeiboNotifier.java:175 | In the `%s`-only reading of the formatter, formatting fails iff the template has more `%s` conversions than there are arguments. A template without `%s` formats to itself, whatever the arguments. |
| StatusContent.WeiboStatusContent | src/main/java/org/neta/weibo/WeiboNotifier.java:151-176 | The status is composed iff the outcome's template has at most three `%s`. A template without `%s` is posted unchanged, whoever the authors are. |
| StatusContent.ContentDependsOnAuthorsText | src/main/java/org/neta/weibo/WeiboNotifier.java:169-175 | The status text depends on the change set and the user map only through the rendered author text. |
| StatusContent.FormatThreeSlots | src/main/java/org/neta/weibo/WeiboNotifier.java:175 | A template `%s a %s b %s c` renders authors, time and URL in order, between its literal pieces. |
| StatusContent.FormatOneSlot | src/main/java/org/neta/weibo/WeiboNotifier.java:175 | A `%s` followed by a literal piece without `%` consumes one argument and renders it before the piece and the rest of the template. |
| StatusContent.RenderSuccessExample | src/main/java/org/neta/weibo/WeiboNotifier.java:175 | Formatting a sample success template `"%s built OK at %s (%s)"` with the placeholder, a time and a link puts each in its slot, in that order. |
| StatusContent.FirstGreenBuildScenario | src/main/java/org/neta/weibo/WeiboNotifier.java:131-175 | The first build of a job passes and its only author is missing from the user map (any map without that name). The success template `"%s built OK at %s (%s)"` renders as `NO_AUTHOR + " built OK at " + time + " (" + url + ")"`. |
| StatusContent.FailureStreakScenarios | src/main/java/org/neta/weibo/WeiboNotifier.java:144-175 | Failing after failing uses the continuous-fail template, and passing after failing uses the recover template, whatever the authors. |

## Left out

- Short URL (`getBuildUrl`, WeiboNotifier.java:178-197): this is an HTTP call with JSON parsing. The model takes the short URL as an input string.
- Posting (`publishWeiboStatus`, WeiboNotifier.java:214-229): this is an HTTP call and is not modelled.
- Java `Formatter` semantics: only `%s` is read as a conversion, and every other character is copied.
  Other directives (`%%`, `%n`, date conversions on the `Date` argument) are not modelled.
- Build time: rendering the `Date` is locale- and time-zone dependent. The model takes the time as already-rendered text.
- `perform` (WeiboNotifier.java:107-121): it only logs and catches the transport's `IOException`. Not modelled.
- Jenkins lifecycle is not modelled: `getDescriptor`, `load()`/`save()`, `newInstance` form binding, `isApplicable`, `getDisplayName` and the getters.
- `toBoolean` (WeiboNotifier.java:323-328) is a private helper that nothing in the source calls; `newInstance` reads the flags with `formData.getBoolean` (:301-307). It is modelled on its own.
- The `notifyOn*` flags: their getters (WeiboNotifier.java:70-96) only serve the configuration form; `perform` and `getWeiboStatusContent` never consult them, so the model has no gating step.
- Null inputs are not modelled. A null template, a null token in `doCheckAccessToken`, a null result of a still-running build, and a null `userMap` before the first `configure` when the change set is non-empty all end in a Java `NullPointerException`. With an empty change set, a null `userMap` is never consulted and `NO_AUTHOR` is returned.
- When `user` is a single object rather than an array, the `JSONException` fallback in `configure` reads that one row. The model treats this as the one-element row sequence. A missing `user` key is the empty sequence.
- UserMap.Configure: returns a fresh map, while `configure` (WeiboNotifier.java:271-281) assigns the new `HashMap` to the live descriptor field before putting any row. Two consequences are not modelled:
  - A build running `getAuthorsFromBuild` at the same time can read a partly filled map.
  - A malformed row in an array makes `getString` throw `JSONException` after the earlier rows were put. A malformed row is one that is not an object or lacks `memberName` or `weiboName`. The fallback's `getJSONObject("user")` then throws again on the array. The field is left partly filled and `save()` is skipped.
- `hudson.model.Result` is not part of this model. The five-grade scale is assumed, and only the fact that SUCCESS is the best grade is used.
