/**
 * The manifest schema of a plugin (the parsed plugin.json) and its helpers:
 * the kind enumeration with its validity check, and the dashboard filter over
 * the included content.
 */
module Schema {

  /** A plugin kind. Any string can be read from a manifest; IsValid tells the known ones. */
  type PluginType = string

  const DataSource: PluginType := "datasource"
  const Panel: PluginType := "panel"
  const App: PluginType := "app"
  const Renderer: PluginType := "renderer"
  const SecretsManager: PluginType := "secretsmanager"

  /** The known kinds, in the order the source lists them. */
  const PluginTypes: seq<PluginType> := [DataSource, Panel, App, Renderer, SecretsManager]

  /** Type.IsValid: the kind is one of the five known ones. */
  function IsValid(t: PluginType): (valid: bool)
    ensures valid <==> t in PluginTypes
  {
    t == DataSource || t == Panel || t == App || t == Renderer || t == SecretsManager
  }

  /** The five known kinds are distinct, so the enumeration has exactly five members. */
  lemma PluginTypesAreDistinct()
    ensures |set t | t in PluginTypes| == 5
  {
    var kinds := set t | t in PluginTypes;
    assert kinds == {DataSource, Panel, App, Renderer, SecretsManager};
    assert DataSource != Panel && DataSource != App && DataSource != Renderer && DataSource != SecretsManager;
    assert Panel != App && Panel != Renderer && Panel != SecretsManager;
    assert App != Renderer && App != SecretsManager && Renderer != SecretsManager;
  }

  lemma IsValidExamples()
    ensures IsValid("datasource") && IsValid("secretsmanager")
    ensures !IsValid("bogus") && !IsValid("") && !IsValid("DataSource")
  {
  }

  /** The content kind of an included dashboard. */
  const TypeDashboard: string := "dashboard"

  /** One entry of the manifest's included content. */
  datatype Includes = Includes(
    name: string,
    path: string,
    includeType: string,
    role: string,
    addToNav: bool,
    defaultNav: bool)

  predicate IsDashboard(inc: Includes)
  {
    inc.includeType == TypeDashboard
  }

  type ReleaseState = string

  /** JSONData: the manifest fields this model keeps. */
  datatype JSONData = JSONData(
    id: string,
    pluginType: PluginType,
    name: string,
    includes: seq<Includes>,
    state: ReleaseState,
    category: string,
    hideFromList: bool,
    preload: bool,
    backend: bool,
    skipDataQuery: bool,
    autoEnabled: bool,
    annotations: bool,
    metrics: bool,
    alerting: bool,
    explore: bool,
    table: bool,
    logs: bool,
    tracing: bool,
    queryOptions: map<string, bool>,
    builtIn: bool,
    mixed: bool,
    streaming: bool,
    sdk: bool,
    executable: string)

  /** Reference definition of the dashboard filter: the dashboard entries of s, in order. */
  function DashboardsOf(s: seq<Includes>): (r: seq<Includes>)
    ensures |r| <= |s|
    ensures forall i :: 0 <= i < |r| ==> IsDashboard(r[i])
  {
    if s == [] then []
    else DashboardsOf(s[..|s| - 1]) + (if IsDashboard(s[|s| - 1]) then [s[|s| - 1]] else [])
  }

  /** JSONData.DashboardIncludes: a new list of the dashboard entries, in their original order. */
  method DashboardIncludes(d: JSONData) returns (result: seq<Includes>)
    ensures result == DashboardsOf(d.includes)
  {
    result := [];
    for i := 0 to |d.includes|
      invariant result == DashboardsOf(d.includes[..i])
    {
      assert d.includes[..i + 1][..i] == d.includes[..i];
      if IsDashboard(d.includes[i]) {
        result := result + [d.includes[i]];
      }
    }
    assert d.includes[..|d.includes|] == d.includes;
  }

  /** idx places each element of a at a strictly later position of b. */
  ghost predicate Embeds(idx: seq<nat>, a: seq<Includes>, b: seq<Includes>)
  {
    && |idx| == |a|
    && (forall i :: 0 <= i < |idx| ==> idx[i] < |b| && a[i] == b[idx[i]])
    && (forall i, j :: 0 <= i < j < |idx| ==> idx[i] < idx[j])
  }

  ghost predicate IsSubsequence(a: seq<Includes>, b: seq<Includes>)
  {
    exists idx :: Embeds(idx, a, b)
  }

  /** The positions in s of the entries the filter keeps. */
  lemma {:induction false} DashboardPositions(s: seq<Includes>) returns (idx: seq<nat>)
    ensures Embeds(idx, DashboardsOf(s), s)
  {
    if s == [] {
      idx := [];
    } else {
      var init := s[..|s| - 1];
      var prev := DashboardPositions(init);
      if IsDashboard(s[|s| - 1]) {
        idx := prev + [|s| - 1];
      } else {
        idx := prev;
      }
    }
  }

  /** The filter keeps the original order: its result is a subsequence of its input. */
  lemma DashboardsOfIsSubsequence(s: seq<Includes>)
    ensures IsSubsequence(DashboardsOf(s), s)
  {
    var idx := DashboardPositions(s);
  }

  /** The filter keeps every dashboard entry as often as it occurs, and nothing else. */
  lemma {:induction false} DashboardsOfCounts(s: seq<Includes>)
    ensures forall x :: multiset(DashboardsOf(s))[x] == if IsDashboard(x) then multiset(s)[x] else 0
  {
    if s != [] {
      var init, last := s[..|s| - 1], s[|s| - 1];
      DashboardsOfCounts(init);
      assert s == init + [last];
      assert multiset(s) == multiset(init) + multiset{last};
    }
  }

  /** Without dashboard entries the result is empty. */
  lemma {:induction false} DashboardsOfNone(s: seq<Includes>)
    requires forall i :: 0 <= i < |s| ==> !IsDashboard(s[i])
    ensures DashboardsOf(s) == []
  {
    if s != [] {
      DashboardsOfNone(s[..|s| - 1]);
    }
  }

  lemma DashboardsOfExample(a: Includes, b: Includes, c: Includes)
    requires a.includeType == "dashboard" && b.includeType == "page" && c.includeType == "dashboard"
    ensures DashboardsOf([a, b, c]) == [a, c]
  {
    assert [a][..0] == [];
    assert DashboardsOf([a]) == [a];
    assert [a, b][..1] == [a];
    assert DashboardsOf([a, b]) == [a];
    assert [a, b, c][..2] == [a, b];
  }
}
