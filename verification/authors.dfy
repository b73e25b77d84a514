/** Author resolution (`getAuthorsFromBuild`): the change set's authors,
    looked up in the name-to-handle map, rendered as `@handle ` mentions. */
module Authors {

  /** One entry of a build's change set; only its author's display name
      matters here. */
  datatype ChangeEntry = ChangeEntry(authorDisplayName: string)

  /** `AUTHOR_SEPARATOR`. */
  const Separator: char := ' '

  /** `NO_AUTHOR`, the Chinese for "no idea who it was". */
  const NoAuthor: string := "\U{4E0D}\U{77E5}\U{9053}\U{662F}\U{8C01}"

  /** Whether no entry's author is a key of the map. */
  predicate NoneMapped(changes: seq<ChangeEntry>, userMap: map<string, string>)
  {
    forall i :: 0 <= i < |changes| ==> changes[i].authorDisplayName !in userMap
  }

  /** `x` is the mention `"@" + handle` of some mapped change-set author. */
  predicate IsMentionOf(changes: seq<ChangeEntry>, userMap: map<string, string>, x: string)
  {
    exists j :: 0 <= j < |changes| && changes[j].authorDisplayName in userMap
      && x == "@" + userMap[changes[j].authorDisplayName]
  }

  /** The list `authors` the loop builds: `"@" + handle` for every entry
      whose author is mapped, in change-set order. Every element is the
      mention of some mapped change-set author, and there is at most one per
      entry. */
  function Mentions(changes: seq<ChangeEntry>, userMap: map<string, string>): (r: seq<string>)
    ensures |r| <= |changes|
    ensures forall i :: 0 <= i < |r| ==> IsMentionOf(changes, userMap, r[i])
  {
    if |changes| == 0 then []
    else
      var init := changes[..|changes| - 1];
      var last := changes[|changes| - 1].authorDisplayName;
      var rest := Mentions(init, userMap);
      assert forall x :: IsMentionOf(init, userMap, x) ==> IsMentionOf(changes, userMap, x) by {
        forall x | IsMentionOf(init, userMap, x)
          ensures IsMentionOf(changes, userMap, x)
        {
          var j :| 0 <= j < |init| && init[j].authorDisplayName in userMap
            && x == "@" + userMap[init[j].authorDisplayName];
          assert changes[j] == init[j];
        }
      }
      var r := rest + (if last in userMap then ["@" + userMap[last]] else []);
      assert forall i :: 0 <= i < |rest| ==> r[i] == rest[i];
      assert last in userMap ==> IsMentionOf(changes, userMap, r[|rest|]) by {
        if last in userMap {
          assert changes[|changes| - 1].authorDisplayName == last;
        }
      }
      r
  }

  /** `StringUtils.join(parts, sep)`: the parts with `sep` between
      consecutive ones. Empty for no parts; otherwise one more `sep` at the
      end gives every part followed by `sep`. */
  function Join(parts: seq<string>, sep: char): (r: string)
    ensures |parts| == 0 ==> r == ""
    ensures |parts| > 0 ==> r + [sep] == ConcatEach(parts, sep)
  {
    if |parts| == 0 then ""
    else if |parts| == 1 then parts[0]
    else Join(parts[..|parts| - 1], sep) + [sep] + parts[|parts| - 1]
  }

  /** Every part followed by `sep`. */
  function ConcatEach(parts: seq<string>, sep: char): string
  {
    if |parts| == 0 then ""
    else ConcatEach(parts[..|parts| - 1], sep) + parts[|parts| - 1] + [sep]
  }

  /** Reference reading of the rendered author block: the concatenation,
      over mapped entries in order, of `"@" + handle + " "`. */
  function MentionText(changes: seq<ChangeEntry>, userMap: map<string, string>): string
  {
    if |changes| == 0 then ""
    else
      var last := changes[|changes| - 1].authorDisplayName;
      MentionText(changes[..|changes| - 1], userMap) + (if last in userMap then "@" + userMap[last] + [Separator] else "")
  }

  /** The mention list is empty exactly when no author is mapped. */
  lemma {:induction false} MentionsEmptyIffNoneMapped(changes: seq<ChangeEntry>, userMap: map<string, string>)
    ensures |Mentions(changes, userMap)| == 0 <==> NoneMapped(changes, userMap)
  {
    if |changes| > 0 {
      var init := changes[..|changes| - 1];
      MentionsEmptyIffNoneMapped(init, userMap);
      assert forall i :: 0 <= i < |init| ==> init[i] == changes[i];
    }
  }

  /** The reference text is the mention list, each followed by a separator. */
  lemma {:induction false} MentionTextIsConcatEach(changes: seq<ChangeEntry>, userMap: map<string, string>)
    ensures MentionText(changes, userMap) == ConcatEach(Mentions(changes, userMap), Separator)
  {
    if |changes| > 0 {
      var init := changes[..|changes| - 1];
      var last := changes[|changes| - 1].authorDisplayName;
      MentionTextIsConcatEach(init, userMap);
      var ms := Mentions(init, userMap);
      if last in userMap {
        var m := "@" + userMap[last];
        assert (ms + [m])[..|ms|] == ms;
        assert ConcatEach(ms + [m], Separator) == ConcatEach(ms, Separator) + m + [Separator];
        assert MentionText(changes, userMap) == MentionText(init, userMap) + (m + [Separator]);
      } else {
        assert Mentions(changes, userMap) == ms;
      }
    }
  }

  /** The text `getAuthorsFromBuild` returns. When nothing matched it is
      exactly `NoAuthor`, with no separator after it; otherwise it is every
      mapped author's `@handle ` in change-set order (unmapped authors
      skipped, duplicates kept, nothing sorted) and it ends with the
      separator. */
  function AuthorsText(changes: seq<ChangeEntry>, userMap: map<string, string>): (r: string)
    ensures r == NoAuthor <==> NoneMapped(changes, userMap)
    ensures !NoneMapped(changes, userMap) ==> r == MentionText(changes, userMap)
    ensures !NoneMapped(changes, userMap) ==> |r| > 0 && r[|r| - 1] == Separator
  {
    MentionsEmptyIffNoneMapped(changes, userMap);
    MentionTextIsConcatEach(changes, userMap);
    var authors := Mentions(changes, userMap);
    if |authors| == 0 then NoAuthor
    else
      var r := Join(authors, Separator) + [Separator];
      assert r != NoAuthor by { assert r[|r| - 1] != NoAuthor[|NoAuthor| - 1]; }
      r
  }

  /** The loop of `getAuthorsFromBuild`, entry by entry. */
  method GetAuthorsFromBuild(changes: seq<ChangeEntry>, userMap: map<string, string>) returns (r: string)
    ensures r == AuthorsText(changes, userMap)
    ensures r == NoAuthor <==> NoneMapped(changes, userMap)
  {
    var authors: seq<string> := [];
    var i := 0;
    while i < |changes|
      invariant 0 <= i <= |changes|
      invariant authors == Mentions(changes[..i], userMap)
    {
      var memberName := changes[i].authorDisplayName;
      if memberName in userMap {
        authors := authors + ["@" + userMap[memberName]];
      }
      assert changes[..i + 1][..i] == changes[..i];
      i := i + 1;
    }
    assert changes[..i] == changes;
    r := if |authors| == 0 then NoAuthor else Join(authors, Separator) + [Separator];
  }

  /** An empty change set, or one whose only author is unknown, renders as
      the bare placeholder. */
  lemma NothingMatchedExamples(userMap: map<string, string>)
    requires "Alice" !in userMap
    ensures AuthorsText([], userMap) == NoAuthor
    ensures AuthorsText([ChangeEntry("Alice")], map[]) == NoAuthor
    ensures AuthorsText([ChangeEntry("Alice")], userMap) == NoAuthor
  {
    assert NoneMapped([ChangeEntry("Alice")], userMap);
  }

  /** Two mapped authors render in change-set order with a trailing space,
      an unmapped author in between is skipped, and a repeated author is
      mentioned twice. */
  lemma MappedAuthorsExamples()
    ensures AuthorsText([ChangeEntry("bob"), ChangeEntry("eve"), ChangeEntry("al")],
                        map["al" := "A", "bob" := "B"]) == "@B @A "
    ensures AuthorsText([ChangeEntry("al"), ChangeEntry("al")], map["al" := "A"]) == "@A @A "
  {
    var m := map["al" := "A", "bob" := "B"];
    var cs := [ChangeEntry("bob"), ChangeEntry("eve"), ChangeEntry("al")];
    assert cs[..2] == [ChangeEntry("bob"), ChangeEntry("eve")];
    assert cs[..2][..1] == [ChangeEntry("bob")];
    assert [ChangeEntry("bob")][..0] == [];
    assert MentionText([ChangeEntry("bob")], m) == "@B ";
    assert MentionText(cs[..2], m) == "@B ";
    assert MentionText(cs, m) == "@B @A ";
    assert !NoneMapped(cs, m) by { assert cs[0].authorDisplayName in m; }
    var n := map["al" := "A"];
    var ds := [ChangeEntry("al"), ChangeEntry("al")];
    assert ds[..1] == [ChangeEntry("al")];
    assert [ChangeEntry("al")][..0] == [];
    assert MentionText(ds[..1], n) == "@A ";
    assert MentionText(ds, n) == "@A @A ";
    assert !NoneMapped(ds, n) by { assert ds[0].authorDisplayName in n; }
  }
}
