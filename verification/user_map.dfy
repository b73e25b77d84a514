/** Construction of the name-to-handle map in `DescriptorImpl.configure`.
    The form's `user` entries arrive as a sequence of rows: a missing
    `user` key is the empty sequence, and a single object (the
    `JSONException` fallback) is a one-element sequence. */
module UserMap {

  /** One `user` row of the form: a Jenkins display name and its Weibo handle. */
  datatype UserMapping = UserMapping(memberName: string, weiboName: string)

  /** Rows with an empty side are ignored. */
  predicate Qualifies(u: UserMapping)
  {
    |u.memberName| > 0 && |u.weiboName| > 0
  }

  /** Whether row `i` is a qualifying row for member `k`. */
  predicate RowFor(users: seq<UserMapping>, i: int, k: string)
    requires 0 <= i < |users|
  {
    Qualifies(users[i]) && users[i].memberName == k
  }

  /** The index of the last qualifying row for member `k`, or -1 when
      there is none: the row whose handle a repeated member ends up with. */
  function LastRowFor(users: seq<UserMapping>, k: string): (i: int)
    ensures -1 <= i < |users|
    ensures i >= 0 ==> RowFor(users, i, k)
    ensures forall j :: i < j < |users| ==> !RowFor(users, j, k)
  {
    if |users| == 0 then -1
    else if RowFor(users, |users| - 1, k) then |users| - 1
    else
      var init := users[..|users| - 1];
      assert forall j :: 0 <= j < |init| ==> RowFor(init, j, k) == RowFor(users, j, k);
      LastRowFor(init, k)
  }

  /** What a map rebuilt from `users` holds: a key exactly for each member
      with a qualifying row, and for it the handle of its last such row.
      Nothing else, so no entry of an earlier map survives. */
  ghost predicate ConfiguredFrom(users: seq<UserMapping>, m: map<string, string>)
  {
    && (forall k :: k in m <==> LastRowFor(users, k) >= 0)
    && (forall k :: k in m ==> m[k] == users[LastRowFor(users, k)].weiboName)
  }

  /** The map built from scratch by `put`-ting every qualifying row in
      order: exactly the map `configure` promises, with no empty key or
      value. */
  function BuildUserMap(users: seq<UserMapping>): (m: map<string, string>)
    ensures ConfiguredFrom(users, m)
    ensures forall k :: k in m ==> |k| > 0 && |m[k]| > 0
  {
    if |users| == 0 then map[]
    else
      var init := users[..|users| - 1];
      var prev := BuildUserMap(init);
      var u := users[|users| - 1];
      assert forall j :: 0 <= j < |init| ==> init[j] == users[j];
      if Qualifies(u) then prev[u.memberName := u.weiboName] else prev
  }

  /** `configure`'s map building, row by row, from an empty map. */
  method Configure(users: seq<UserMapping>) returns (userMap: map<string, string>)
    ensures ConfiguredFrom(users, userMap)
    ensures forall k :: k in userMap ==> |k| > 0 && |userMap[k]| > 0
  {
    userMap := map[];
    var i := 0;
    while i < |users|
      invariant 0 <= i <= |users|
      invariant userMap == BuildUserMap(users[..i])
    {
      var memberName := users[i].memberName;
      var weiboName := users[i].weiboName;
      BuildUserMapStep(users, i);
      if |memberName| > 0 && |weiboName| > 0 {
        userMap := userMap[memberName := weiboName];
      }
      i := i + 1;
    }
    assert users[..i] == users;
  }

  /** One more row `put`s its pair into the map built so far, when it
      qualifies, and changes nothing otherwise. */
  lemma BuildUserMapStep(users: seq<UserMapping>, i: int)
    requires 0 <= i < |users|
    ensures BuildUserMap(users[..i + 1]) ==
      if Qualifies(users[i]) then BuildUserMap(users[..i])[users[i].memberName := users[i].weiboName]
      else BuildUserMap(users[..i])
  {
    assert users[..i + 1][..i] == users[..i];
  }

  /** Repeating a member name: the later qualifying row wins, an empty
      later row does not, a row with an empty name is dropped, and an empty
      form gives an empty map. */
  lemma ConfigureExamples()
    ensures BuildUserMap([UserMapping("al", "A1"), UserMapping("al", "A2")]) == map["al" := "A2"]
    ensures BuildUserMap([UserMapping("al", "A1"), UserMapping("al", "")]) == map["al" := "A1"]
    ensures BuildUserMap([UserMapping("", "X"), UserMapping("bo", "B")]) == map["bo" := "B"]
    ensures BuildUserMap([]) == map[]
  {
    assert [UserMapping("al", "A1"), UserMapping("al", "A2")][..1] == [UserMapping("al", "A1")];
    assert [UserMapping("al", "A1"), UserMapping("al", "")][..1] == [UserMapping("al", "A1")];
    assert [UserMapping("", "X"), UserMapping("bo", "B")][..1] == [UserMapping("", "X")];
  }
}
