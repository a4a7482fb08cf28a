/**
 * The `twitch_token` setting as `api/src/twitch-token-source.ts` reads it: a
 * JSON object whose fields may be missing or of the wrong type (`None` here),
 * and the two typed views the token source takes of it.
 */
module TwitchLink {
  import opened Options

  datatype Stored = Stored(
    userId: Option<string>,
    accessToken: Option<string>,
    refreshToken: Option<string>,
    scope: Option<seq<string>>,
    expiresIn: Option<int>,
    obtainedAt: Option<int>,
    clientId: Option<string>,
    dashboardClientId: Option<string>,
    publicClientId: Option<string>)

  /** A token from the engine's public app, its single-use refresh token included. */
  datatype PublicToken = PublicToken(
    userId: string,
    accessToken: string,
    refreshToken: string,
    scope: seq<string>,
    expiresIn: int,
    obtainedAt: int,
    publicClientId: string)

  /** A dashboard's grant and the engine client id of the dashboard that sent it. */
  datatype DashboardToken = DashboardToken(
    userId: string,
    accessToken: string,
    scope: seq<string>,
    expiresIn: int,
    obtainedAt: int,
    clientId: string,
    dashboardClientId: string)

  datatype Reading<T> = NotThatKind | Incomplete | Usable(token: T)

  predicate Named(field: Option<string>) {
    field.Some? && field.value != ""
  }

  /** Only a dashboard's token carries its issuing app's client id. */
  predicate IsDashboards(stored: Stored) {
    Named(stored.clientId)
  }

  predicate IsPublicApps(stored: Stored) {
    !IsDashboards(stored) && Named(stored.publicClientId)
  }

  function AsPublicToken(stored: Stored): Reading<PublicToken> {
    if !IsPublicApps(stored) then NotThatKind
    else if Named(stored.userId) && Named(stored.accessToken) && Named(stored.refreshToken)
            && stored.scope.Some? && stored.expiresIn.Some? && stored.obtainedAt.Some? then
      Usable(PublicToken(stored.userId.value, stored.accessToken.value, stored.refreshToken.value, stored.scope.value,
                         stored.expiresIn.value, stored.obtainedAt.value, stored.publicClientId.value))
    else Incomplete
  }

  function AsDashboardToken(stored: Stored): Reading<DashboardToken> {
    if !IsDashboards(stored) then NotThatKind
    else if Named(stored.dashboardClientId) && Named(stored.userId) && Named(stored.accessToken)
            && stored.scope.Some? && stored.expiresIn.Some? && stored.obtainedAt.Some? then
      Usable(DashboardToken(stored.userId.value, stored.accessToken.value, stored.scope.value, stored.expiresIn.value,
                            stored.obtainedAt.value, stored.clientId.value, stored.dashboardClientId.value))
    else Incomplete
  }

  /** The row a public token is written as. */
  function PublicRow(token: PublicToken): Stored {
    Stored(Some(token.userId), Some(token.accessToken), Some(token.refreshToken), Some(token.scope),
           Some(token.expiresIn), Some(token.obtainedAt), None, None, Some(token.publicClientId))
  }

  /** The row a dashboard's token is written as: never with a refresh token. */
  function DashboardRow(token: DashboardToken): Stored {
    Stored(Some(token.userId), Some(token.accessToken), None, Some(token.scope),
           Some(token.expiresIn), Some(token.obtainedAt), Some(token.clientId), Some(token.dashboardClientId), None)
  }

  /** A written public token reads back as itself exactly when none of its names is empty. */
  lemma PublicRowReadsBack(token: PublicToken)
    ensures AsPublicToken(PublicRow(token)) == Usable(token)
       <==> token.userId != "" && token.accessToken != "" && token.refreshToken != "" && token.publicClientId != ""
    ensures AsDashboardToken(PublicRow(token)).NotThatKind?
  {
  }

  /** A written dashboard token reads back as itself exactly when none of its names is empty. */
  lemma DashboardRowReadsBack(token: DashboardToken)
    ensures AsDashboardToken(DashboardRow(token)) == Usable(token)
       <==> token.userId != "" && token.accessToken != "" && token.clientId != "" && token.dashboardClientId != ""
    ensures AsPublicToken(DashboardRow(token)).NotThatKind?
  {
  }

  /** Whether two stored scope lists grant the same scopes, as the source compares them. */
  predicate SameScopes(before: Option<seq<string>>, after: seq<string>) {
    before.Some? && |before.value| == |after| && forall s :: s in after ==> s in before.value
  }

  ghost predicate Distinct<T>(xs: seq<T>) {
    forall i, j :: 0 <= i < j < |xs| ==> xs[i] != xs[j]
  }

  function Elements<T>(xs: seq<T>): set<T> {
    set x | x in xs
  }

  lemma {:induction false} ElementCount<T>(xs: seq<T>)
    ensures |Elements(xs)| <= |xs|
    ensures Distinct(xs) ==> |Elements(xs)| == |xs|
  {
    if xs == [] {
    } else {
      var init := xs[..|xs| - 1];
      var last := xs[|xs| - 1];
      ElementCount(init);
      assert xs == init + [last];
      assert Elements(xs) == Elements(init) + {last};
      if Distinct(xs) {
        assert last !in Elements(init);
      }
    }
  }

  /**
   * Comparing length and membership is comparing the sets granted once the
   * later list repeats no scope; repeats in the earlier one only add refusals.
   */
  lemma SameScopesIsSetEquality(before: seq<string>, after: seq<string>)
    requires Distinct(after)
    ensures SameScopes(Some(before), after) ==> Elements(before) == Elements(after)
    ensures Distinct(before) ==> (SameScopes(Some(before), after) <==> Elements(before) == Elements(after))
  {
    ElementCount(before);
    ElementCount(after);
    if SameScopes(Some(before), after) {
      assert Elements(after) <= Elements(before);
      SubsetOfEqualSize(Elements(after), Elements(before));
    } else if Distinct(before) && Elements(before) == Elements(after) {
      assert forall s :: s in after ==> s in Elements(before);
      assert false;
    }
  }

  lemma SubsetOfEqualSize<T>(small: set<T>, large: set<T>)
    requires small <= large && |large| <= |small|
    ensures small == large
  {
    assert |large - small| == |large| - |small|;
  }
}
