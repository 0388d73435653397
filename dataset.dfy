/**
 * The dataset client of the Power BI SDK (class `Dataset`): which HTTP
 * request each operation sends, and how the decoded `value` list of the
 * response is reshaped into the operation's result.
 *
 * The HTTP transport and the JSON decoder are not modelled: a request is a
 * value, and the decoded `value` list of the response is an input.
 */
module Dataset {
  import opened Wrappers
  import opened Php
  import opened Sprintf

  // ---------------------------------------------------------------------
  // URL templates
  // ---------------------------------------------------------------------

  const ROOT := "https://api.powerbi.com/v1.0/myorg"

  const DATASET_URL := "https://api.powerbi.com/v1.0/myorg/datasets"
  const GROUP_DATASET_URL := "https://api.powerbi.com/v1.0/myorg/groups/%s/datasets"
  const REFRESH_DATASET_URL := "https://api.powerbi.com/v1.0/myorg/datasets/%s/refreshes"
  const GROUP_REFRESH_DATASET_URL := "https://api.powerbi.com/v1.0/myorg/groups/%s/datasets/%s/refreshes"

  /** Each template is the API root, plain text, and one `%s` per identifier. */
  lemma TemplateShapes()
    ensures Plain(ROOT + "/groups/") && Plain(ROOT + "/datasets/")
    ensures Plain("/datasets") && Plain("/datasets/") && Plain("/refreshes")
    ensures DATASET_URL == ROOT + "/datasets"
    ensures GROUP_DATASET_URL == ROOT + "/groups/" + "%s" + "/datasets"
    ensures REFRESH_DATASET_URL == ROOT + "/datasets/" + "%s" + "/refreshes"
    ensures GROUP_REFRESH_DATASET_URL == ROOT + "/groups/" + "%s" + "/datasets/" + "%s" + "/refreshes"
  {
  }

  // ---------------------------------------------------------------------
  // Requests
  // ---------------------------------------------------------------------

  datatype HttpMethod = GET | POST | DELETE

  /** What the client hands to the transport: a method, a URL and an optional JSON body. */
  datatype Request = Request(verb: HttpMethod, url: string, body: Option<Record>)

  /** The body `refresh` sends when asked to notify. */
  const NOTIFY_BODY: Record := map["notifyOption" := VStr("MailOnFailure")]

  /**
   * `getUrl`: the group-scoped collection URL, with the group spliced in
   * once, when the group is truthy; otherwise the global one.
   */
  function GetUrl(groupId: Id): (url: string)
    ensures Truthy(groupId) ==> url == ROOT + "/groups/" + groupId.value + "/datasets"
    ensures !Truthy(groupId) ==> url == ROOT + "/datasets"
  {
    TemplateShapes();
    if Truthy(groupId) then
      FormatOne(ROOT + "/groups/", "/datasets", Text(groupId));
      Format(GROUP_DATASET_URL, [Text(groupId)]).value
    else
      DATASET_URL
  }

  /** `sprintf(GROUP_REFRESH_DATASET_URL, g, d)`: group then dataset, in that order. */
  function GroupRefreshUrl(g: string, d: string): (url: string)
    ensures url == ROOT + "/groups/" + g + "/datasets/" + d + "/refreshes"
  {
    TemplateShapes();
    FormatTwo(ROOT + "/groups/", "/datasets/", "/refreshes", g, d);
    Format(GROUP_REFRESH_DATASET_URL, [g, d]).value
  }

  /**
   * `getRefreshUrl`: group then dataset spliced into the group-scoped
   * refreshes URL when the group is truthy; otherwise only the dataset,
   * into the global one. A `null` dataset reads as the empty string.
   */
  function GetRefreshUrl(groupId: Id, datasetId: Id): (url: string)
    ensures Truthy(groupId) ==>
      url == ROOT + "/groups/" + groupId.value + "/datasets/" + Text(datasetId) + "/refreshes"
    ensures !Truthy(groupId) ==>
      url == ROOT + "/datasets/" + Text(datasetId) + "/refreshes"
  {
    TemplateShapes();
    if Truthy(groupId) then
      GroupRefreshUrl(Text(groupId), Text(datasetId))
    else
      FormatOne(ROOT + "/datasets/", "/refreshes", Text(datasetId));
      Format(REFRESH_DATASET_URL, [Text(datasetId)]).value
  }

  /** The request of `getByName` (and of `get`): GET on the collection URL. */
  function ListRequest(groupId: Id := None): (r: Request)
    ensures r.verb == GET && r.body == None
    ensures Truthy(groupId) ==> r.url == ROOT + "/groups/" + groupId.value + "/datasets"
    ensures !Truthy(groupId) ==> r.url == ROOT + "/datasets"
  {
    Request(GET, GetUrl(groupId), None)
  }

  /** `delete`: DELETE on the collection URL followed by `/` and the dataset. */
  function DeleteRequest(groupId: Id := None, datasetId: Id := None): (r: Request)
    ensures r.verb == DELETE && r.body == None
    ensures Truthy(groupId) ==>
      r.url == ROOT + "/groups/" + groupId.value + "/datasets/" + Text(datasetId)
    ensures !Truthy(groupId) ==> r.url == ROOT + "/datasets/" + Text(datasetId)
  {
    Request(DELETE, GetUrl(groupId) + "/" + Text(datasetId), None)
  }

  /** `refresh`: POST on the refreshes URL, with the notify body exactly when `notify` holds. */
  function RefreshRequest(groupId: Id := None, datasetId: Id := None, notify: bool := true): (r: Request)
    ensures r.verb == POST && r.url == GetRefreshUrl(groupId, datasetId)
    ensures r.body.Some? <==> notify
    ensures r.body.Some? ==>
      r.body.value.Keys == {"notifyOption"} && r.body.value["notifyOption"] == VStr("MailOnFailure")
  {
    var url := GetRefreshUrl(groupId, datasetId);
    if notify then Request(POST, url, Some(NOTIFY_BODY)) else Request(POST, url, None)
  }

  /** `refresh($groupId, $datasetId)` and `refresh()` notify: `notify` defaults to true. */
  lemma RefreshNotifiesByDefault(groupId: Id, datasetId: Id)
    ensures RefreshRequest(groupId, datasetId).body == Some(NOTIFY_BODY)
    ensures RefreshRequest().url == ROOT + "/datasets/" + "/refreshes"
  {
  }

  /** `delete()` and `get()` with no arguments target the global collection. */
  lemma DefaultsAreGlobal()
    ensures DeleteRequest().url == ROOT + "/datasets/"
    ensures ListRequest().url == ROOT + "/datasets"
  {
  }

  /**
   * `cancelRefresh`: DELETE on the group-scoped per-refresh URL, built by
   * interpolation; a falsy group is interpolated as it reads, with no
   * fallback to a global URL.
   */
  function CancelRefreshRequest(groupId: Id, datasetId: Id, refreshId: Id): (r: Request)
    ensures r.verb == DELETE && r.body == None
    ensures r.url == GroupRefreshUrl(Text(groupId), Text(datasetId)) + "/" + Text(refreshId)
  {
    SlashAfter(ROOT + "/groups/" + Text(groupId) + "/datasets/" + Text(datasetId), Text(refreshId));
    Request(DELETE, ROOT + "/groups/" + Text(groupId) + "/datasets/" + Text(datasetId)
                    + "/refreshes/" + Text(refreshId), None)
  }

  /** Appending `/` and a refresh to `.../refreshes` is interpolating `.../refreshes/` and the refresh. */
  lemma SlashAfter(u: string, rid: string)
    ensures u + "/refreshes/" + rid == u + "/refreshes" + "/" + rid
  {
    assert "/refreshes/" == "/refreshes" + "/";
  }

  /** `getRefreshHistory`'s request: none at all for a falsy workspace or dataset. */
  function RefreshHistoryRequest(workspaceId: Id, datasetId: Id): (r: Option<Request>)
    ensures r.None? <==> !Truthy(workspaceId) || !Truthy(datasetId)
    ensures r.Some? ==> r.value == Request(GET, GetRefreshUrl(workspaceId, datasetId), None)
  {
    if !Truthy(workspaceId) || !Truthy(datasetId) then None
    else Some(Request(GET, ROOT + "/groups/" + Text(workspaceId) + "/datasets/" + Text(datasetId)
                           + "/refreshes", None))
  }

  /** `getParameters`'s request: none at all for a falsy workspace or dataset. */
  function ParametersRequest(workspaceId: Id, datasetId: Id): (r: Option<Request>)
    ensures r.None? <==> !Truthy(workspaceId) || !Truthy(datasetId)
    ensures r.Some? ==> r.value == Request(GET, DeleteRequest(workspaceId, datasetId).url + "/parameters", None)
  {
    if !Truthy(workspaceId) || !Truthy(datasetId) then None
    else Some(Request(GET, ROOT + "/groups/" + Text(workspaceId) + "/datasets/" + Text(datasetId)
                           + "/parameters", None))
  }

  // ---------------------------------------------------------------------
  // Properties of the URL scheme
  // ---------------------------------------------------------------------

  /** The group can be read back from a group-scoped collection URL: it is spliced in exactly once. */
  lemma GroupUrlInjective(g1: Id, g2: Id)
    requires Truthy(g1) && Truthy(g2)
    ensures GetUrl(g1) == GetUrl(g2) ==> g1 == g2
  {
    var p, sfx := ROOT + "/groups/", "/datasets";
    var u1, u2 := GetUrl(g1), GetUrl(g2);
    assert u1 == p + g1.value + sfx && u2 == p + g2.value + sfx;
    assert u1[|p|..|u1| - |sfx|] == g1.value;
    assert u2[|p|..|u2| - |sfx|] == g2.value;
  }

  /** A truthy and a falsy group never yield the same collection URL. */
  lemma ScopesDistinct(g1: Id, g2: Id)
    requires Truthy(g1) && !Truthy(g2)
    ensures GetUrl(g1) != GetUrl(g2)
  {
    ScopeMarks(ROOT, g1.value + "/datasets", "");
  }

  /** In both scopes the refreshes endpoint sits below the dataset resource that `delete` targets. */
  lemma RefreshUrlUnderDatasetUrl(groupId: Id, datasetId: Id)
    ensures GetRefreshUrl(groupId, datasetId) == DeleteRequest(groupId, datasetId).url + "/refreshes"
  {
  }

  /** With a truthy group, the inline cancel URL is the refreshes URL followed by `/` and the refresh. */
  lemma CancelUnderRefreshUrl(groupId: Id, datasetId: Id, refreshId: Id)
    requires Truthy(groupId)
    ensures CancelRefreshRequest(groupId, datasetId, refreshId).url
            == GetRefreshUrl(groupId, datasetId) + "/" + Text(refreshId)
  {
  }

  /** With a falsy group, `cancelRefresh` does not fall back to the global refreshes URL. */
  lemma CancelHasNoGlobalFallback(groupId: Id, datasetId: Id, refreshId: Id)
    requires !Truthy(groupId)
    ensures CancelRefreshRequest(groupId, datasetId, refreshId).url
            != GetRefreshUrl(groupId, datasetId) + "/" + Text(refreshId)
  {
    var g, d, rid := Text(groupId), Text(datasetId), Text(refreshId);
    Regroup(ROOT + "/groups/", g, "/datasets/", d, "/refreshes", "/", rid);
    Regroup(ROOT + "/datasets", "/", d, "/refreshes", "/", rid, "");
    ScopeMarks(ROOT, g + "/datasets/" + d + "/refreshes" + "/" + rid, "/" + d + "/refreshes" + "/" + rid + "");
  }

  /** Reassociation of a seven-piece concatenation, kept free of literals so that it stays cheap. */
  lemma Regroup(a: string, b: string, c: string, d: string, e: string, f: string, h: string)
    ensures a + b + c + d + e + f + h == a + (b + c + d + e + f + h)
  {
  }

  /** A group-scoped URL and a global one part at the first letter after the root and its `/`. */
  lemma ScopeMarks(root: string, x: string, y: string)
    ensures root + "/groups/" + x != root + "/datasets" + y
  {
    var k := |root| + 1;
    assert (root + "/groups/" + x)[k] == 'g';
    assert (root + "/datasets" + y)[k] == 'd';
  }

  // ---------------------------------------------------------------------
  // getByName: first match in the `value` list
  // ---------------------------------------------------------------------

  /** The entry's `name` field is the string `name`. */
  predicate HasName(entry: Record, name: string)
  {
    "name" in entry && entry["name"] == VStr(name)
  }

  /**
   * `getByName`: `sent` is the list request; the decoded datasets are
   * scanned in order and the first whose name matches is returned; nothing
   * (`null`) when none does.
   */
  method GetByName(groupId: Id, name: string, datasets: seq<Record>)
    returns (sent: Request, found: Option<Record>)
    ensures sent == ListRequest(groupId)
    ensures found.None? <==> forall i :: 0 <= i < |datasets| ==> !HasName(datasets[i], name)
    ensures found.Some? ==>
      exists i :: 0 <= i < |datasets| && datasets[i] == found.value && HasName(datasets[i], name)
        && forall j :: 0 <= j < i ==> !HasName(datasets[j], name)
  {
    sent := Request(GET, GetUrl(groupId), None);
    for i := 0 to |datasets|
      invariant forall j :: 0 <= j < i ==> !HasName(datasets[j], name)
    {
      if HasName(datasets[i], name) {
        return sent, Some(datasets[i]);
      }
    }
    return sent, None;
  }

  // ---------------------------------------------------------------------
  // getRefreshHistory / getLastRefresh: a duration on every refresh
  // ---------------------------------------------------------------------

  /**
   * The environment of the duration computation: `now(k)` is what `time()`
   * reads while entry `k` is processed, `strtotime` parses a decoded time
   * field (a missing one reads as `null`), and `round2` is `round(_, 2)`.
   */
  datatype Clock = Clock(now: nat -> int, strtotime: Value -> int, round2: real -> real)

  /** The field `key` of a record as PHP reads it: a missing key reads as `null`. */
  function Field(entry: Record, key: string): Value
  {
    if key in entry then entry[key] else VNull
  }

  /** The end of refresh `k`: its `endTime` when present, otherwise the clock. */
  function EndTime(entry: Record, k: nat, clock: Clock): int
  {
    if "endTime" in entry then clock.strtotime(entry["endTime"]) else clock.now(k)
  }

  /** The minutes, rounded as the clock rounds, from the entry's `startTime` to `endTime`. */
  function Minutes(endTime: int, entry: Record, clock: Clock): Value
  {
    VReal(clock.round2((endTime - clock.strtotime(Field(entry, "startTime"))) as real / 60.0))
  }

  /** The duration of refresh `k`. */
  function Duration(entry: Record, k: nat, clock: Clock): Value
  {
    Minutes(EndTime(entry, k, clock), entry, clock)
  }

  /** Refresh `k` with its `duration` set and every other field kept. */
  function WithDuration(entry: Record, k: nat, clock: Clock): (e: Record)
    ensures e.Keys == entry.Keys + {"duration"}
    ensures e["duration"] == Duration(entry, k, clock)
    ensures forall f :: f in entry && f != "duration" ==> e[f] == entry[f]
  {
    entry["duration" := Duration(entry, k, clock)]
  }

  /**
   * The loop of `getRefreshHistory`: walks the refreshes and sets
   * `duration` on each, in place, keeping the order and the length.
   */
  method AddDurations(refreshes: seq<Record>, clock: Clock) returns (out: seq<Record>)
    ensures |out| == |refreshes|
    ensures forall k :: 0 <= k < |out| ==> out[k] == WithDuration(refreshes[k], k, clock)
    ensures forall k :: 0 <= k < |out| ==> out[k].Keys == refreshes[k].Keys + {"duration"}
    ensures forall k :: 0 <= k < |out| && "endTime" in refreshes[k] ==>
      out[k]["duration"] == Minutes(clock.strtotime(refreshes[k]["endTime"]), refreshes[k], clock)
    ensures forall k :: 0 <= k < |out| && "endTime" !in refreshes[k] ==>
      out[k]["duration"] == Minutes(clock.now(k), refreshes[k], clock)
  {
    out := refreshes;
    var k := 0;
    while k < |out|
      invariant k <= |out| == |refreshes|
      invariant forall j :: 0 <= j < k ==> out[j] == WithDuration(refreshes[j], j, clock)
      invariant forall j :: k <= j < |out| ==> out[j] == refreshes[j]
    {
      var refresh := out[k];
      var endTime := clock.now(k);
      if "endTime" in refresh {
        endTime := clock.strtotime(refresh["endTime"]);
      }
      var minutes := (endTime - clock.strtotime(Field(refresh, "startTime"))) as real / 60.0;
      out := out[k := refresh["duration" := VReal(clock.round2(minutes))]];
      k := k + 1;
    }
  }

  /**
   * `getRefreshHistory`: `sent` is the request issued (none, and the result
   * `false`, for a falsy workspace or dataset); otherwise the decoded
   * `refreshes` come back, each with its duration.
   */
  method GetRefreshHistory(workspaceId: Id, datasetId: Id, refreshes: seq<Record>, clock: Clock)
    returns (sent: Option<Request>, history: Option<seq<Record>>)
    ensures sent == RefreshHistoryRequest(workspaceId, datasetId)
    ensures history.None? <==> sent.None?
    ensures history.Some? ==>
      |history.value| == |refreshes|
      && forall k :: 0 <= k < |refreshes| ==> history.value[k] == WithDuration(refreshes[k], k, clock)
  {
    if !Truthy(workspaceId) || !Truthy(datasetId) {
      return None, None;
    }
    sent := Some(Request(GET, ROOT + "/groups/" + Text(workspaceId) + "/datasets/" + Text(datasetId)
                              + "/refreshes", None));
    var withDurations := AddDurations(refreshes, clock);
    history := Some(withDurations);
  }

  /**
   * `getLastRefresh`: element 0 of the history. Nothing (PHP's `null`, with
   * a warning) when no request is made or the history is empty.
   */
  method GetLastRefresh(workspaceId: Id, datasetId: Id, refreshes: seq<Record>, clock: Clock)
    returns (sent: Option<Request>, last: Option<Record>)
    ensures sent == RefreshHistoryRequest(workspaceId, datasetId)
    ensures last.Some? <==> sent.Some? && |refreshes| > 0
    ensures last.Some? ==> last.value == WithDuration(refreshes[0], 0, clock)
  {
    var history;
    sent, history := GetRefreshHistory(workspaceId, datasetId, refreshes, clock);
    if history.Some? && |history.value| > 0 {
      last := Some(history.value[0]);
    } else {
      last := None;
    }
  }

  // ---------------------------------------------------------------------
  // getParameters: folding {name, currentValue} entries into a map
  // ---------------------------------------------------------------------

  /** One decoded parameter entry. */
  datatype Parameter = Parameter(name: string, currentValue: Value)

  /** The names occurring in a parameter list. */
  function Names(ps: seq<Parameter>): set<string>
  {
    set i | 0 <= i < |ps| :: ps[i].name
  }

  /** The fold, entry by entry from the front: a later entry overwrites an earlier one of the same name. */
  function Collect(ps: seq<Parameter>): map<string, Value>
  {
    if ps == [] then map[]
    else Collect(ps[..|ps| - 1])[ps[|ps| - 1].name := ps[|ps| - 1].currentValue]
  }

  /** The keys of the fold are exactly the names in the list. */
  lemma {:induction false} CollectKeys(ps: seq<Parameter>)
    ensures Collect(ps).Keys == Names(ps)
  {
    if ps != [] {
      var n := |ps| - 1;
      var front := ps[..n];
      CollectKeys(front);
      assert Names(ps) == Names(front) + {ps[n].name} by {
        forall x | x in Names(ps) ensures x in Names(front) + {ps[n].name} {
          var i :| 0 <= i < |ps| && ps[i].name == x;
          if i < n { assert front[i] == ps[i]; }
        }
        forall x | x in Names(front) ensures x in Names(ps) {
          var i :| 0 <= i < |front| && front[i].name == x;
          assert ps[i] == front[i];
        }
      }
    }
  }

  /** Each key maps to the value of the last entry with that name. */
  lemma {:induction false} CollectLastWins(ps: seq<Parameter>, i: nat)
    requires i < |ps|
    requires forall j :: i < j < |ps| ==> ps[j].name != ps[i].name
    ensures ps[i].name in Collect(ps) && Collect(ps)[ps[i].name] == ps[i].currentValue
  {
    var n := |ps| - 1;
    if i < n {
      var front := ps[..n];
      assert front[i] == ps[i];
      forall j | i < j < |front| ensures front[j].name != front[i].name {
        assert front[j] == ps[j];
      }
      CollectLastWins(front, i);
    }
  }

  /** Every value of the fold is the current value of the last entry that bears its key. */
  lemma {:induction false} CollectFromLast(ps: seq<Parameter>, key: string)
    requires key in Collect(ps)
    ensures exists i :: 0 <= i < |ps| && ps[i].name == key && Collect(ps)[key] == ps[i].currentValue
                        && forall j :: i < j < |ps| ==> ps[j].name != key
  {
    var n := |ps| - 1;
    if ps[n].name != key {
      var front := ps[..n];
      CollectFromLast(front, key);
      var i :| 0 <= i < |front| && front[i].name == key && Collect(front)[key] == front[i].currentValue
               && forall j :: i < j < |front| ==> front[j].name != key;
      assert ps[i] == front[i];
      forall j | i < j < |ps| ensures ps[j].name != key {
        if j < n { assert ps[j] == front[j]; }
      }
    }
  }

  /** The loop of `getParameters`: builds the map key by key, in list order. */
  method FoldParameters(ps: seq<Parameter>) returns (m: map<string, Value>)
    ensures m == Collect(ps)
    ensures m.Keys == Names(ps)
    ensures forall key :: key in m ==>
      exists i :: 0 <= i < |ps| && ps[i].name == key && m[key] == ps[i].currentValue
                  && forall j :: i < j < |ps| ==> ps[j].name != key
  {
    m := map[];
    for i := 0 to |ps|
      invariant m == Collect(ps[..i])
    {
      assert ps[..i + 1][..i] == ps[..i];
      m := m[ps[i].name := ps[i].currentValue];
    }
    assert ps[..|ps|] == ps;
    CollectKeys(ps);
    forall key | key in m
      ensures exists i :: 0 <= i < |ps| && ps[i].name == key && m[key] == ps[i].currentValue
                          && forall j :: i < j < |ps| ==> ps[j].name != key
    {
      CollectFromLast(ps, key);
    }
  }

  /**
   * `getParameters`: `sent` is the request issued (none, and the result
   * `false`, for a falsy workspace or dataset); otherwise the decoded
   * parameter list, folded into a name-to-value map.
   */
  method GetParameters(workspaceId: Id, datasetId: Id, parameters: seq<Parameter>)
    returns (sent: Option<Request>, result: Option<map<string, Value>>)
    ensures sent == ParametersRequest(workspaceId, datasetId)
    ensures result.None? <==> sent.None?
    ensures result.Some? ==> result.value == Collect(parameters)
  {
    if !Truthy(workspaceId) || !Truthy(datasetId) {
      return None, None;
    }
    sent := Some(Request(GET, ROOT + "/groups/" + Text(workspaceId) + "/datasets/" + Text(datasetId)
                              + "/parameters", None));
    var folded := FoldParameters(parameters);
    result := Some(folded);
  }

  /** The worked example: `[{a, 1}, {b, 2}]` folds to `{a: 1, b: 2}`. */
  lemma CollectExample()
    ensures Collect([Parameter("a", VInt(1)), Parameter("b", VInt(2))]) == map["a" := VInt(1), "b" := VInt(2)]
  {
  }
}
