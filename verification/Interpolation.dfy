/** The interpolation loops: results by id, parameters in any order, references one by one, paths field by field. */
module Interpolation {
  import opened Common
  import opened Board
  import opened Scheduler
  import opened Paths

  method InterpolateParams(params: Params, m: Mission) returns (out: Params)
    requires UniqueIds(m.quests)
    ensures out == Interpolate(params, Keyed(m))
    ensures Interpolated(Keyed(m), params, out)
  {
    InterpolateReplaces(Keyed(m), params);
    hide Interpolated;
    var results := CollectResults(m);
    out := map[];
    var todo := params.Keys;
    while todo != {}
      invariant todo <= params.Keys && out == Interpolate(params - todo, Keyed(m))
      decreases |todo|
    {
      var k :| k in todo;
      var value: Param;
      match params[k] {
        case NotText(v) => value := NotText(v);
        case Tokens(ts) =>
          var replaced := ReplaceAll(ts, results, m);
          value := Tokens(replaced);
          assert replaced == Interpolate(params, Keyed(m))[k].tokens;
      }
      assert value == Interpolate(params, Keyed(m))[k];
      OneMoreParam(params, todo, k, Keyed(m));
      out := out[k := value];
      todo := todo - {k};
    }
    assert params - todo == params;
  }

  lemma OneMoreParam(params: Params, todo: set<string>, k: string, b: Keys)
    requires k in todo && todo <= params.Keys
    ensures Interpolate(params - (todo - {k}), b) == Interpolate(params - todo, b)[k := Interpolate(params, b)[k]]
  {
  }

  /** The results of the done quests, by id. */
  ghost predicate Tabulates(results: map<string, Value>, b: Keys) {
    forall id ::
      && (id in results <==> id in b && b[id].status == Done && b[id].result.Some?)
      && (id in results ==> results[id] == b[id].result.value)
  }

  method CollectResults(m: Mission) returns (results: map<string, Value>)
    requires UniqueIds(m.quests)
    ensures Tabulates(results, Keyed(m))
  {
    hide Keyed, Tabulates;
    results := map[];
    for i := 0 to |m.quests|
      invariant forall id :: id in results <==> exists j :: 0 <= j < i && m.quests[j].id == id && HasResult(m.quests[j])
      invariant forall j :: 0 <= j < i && HasResult(m.quests[j]) ==>
                  m.quests[j].id in results && results[m.quests[j].id] == m.quests[j].result.value
    {
      var q := m.quests[i];
      if q.status == Done && q.result.Some? {
        results := results[q.id := q.result.value];
      }
    }
    CollectedAll(m, results);
  }

  lemma CollectedAll(m: Mission, results: map<string, Value>)
    requires UniqueIds(m.quests)
    requires forall id :: id in results <==> exists j :: 0 <= j < |m.quests| && m.quests[j].id == id && HasResult(m.quests[j])
    requires forall j :: 0 <= j < |m.quests| && HasResult(m.quests[j]) ==>
               m.quests[j].id in results && results[m.quests[j].id] == m.quests[j].result.value
    ensures Tabulates(results, Keyed(m))
  {
    forall id | id in Keyed(m) ensures id in results <==> HasResult(Keyed(m)[id]) {
      var k := IndexOf(m.quests, id);
      assert m.quests[k] == Keyed(m)[id];
    }
    forall id | id in results ensures id in Keyed(m) && results[id] == Keyed(m)[id].result.value {
      var j :| 0 <= j < |m.quests| && m.quests[j].id == id && HasResult(m.quests[j]);
      assert IndexOf(m.quests, id) == j;
    }
  }

  predicate HasResult(q: Quest) {
    q.status == Done && q.result.Some?
  }

  method ReplaceAll(tokens: seq<Token>, results: map<string, Value>, ghost m: Mission) returns (out: seq<Token>)
    requires Tabulates(results, Keyed(m))
    ensures |out| == |tokens| && forall i :: 0 <= i < |out| ==> out[i] == InterpolateToken(Keyed(m), tokens[i])
  {
    hide Keyed;
    out := [];
    for i := 0 to |tokens|
      invariant |out| == i && forall j :: 0 <= j < i ==> out[j] == InterpolateToken(Keyed(m), tokens[j])
    {
      var t := tokens[i];
      if t.Ref? {
        t := ReplaceOne(t.digits, t.path, results);
      }
      out := out + [t];
    }
  }

  /** A match that cannot be resolved is left as it stands. */
  method ReplaceOne(digits: string, path: seq<string>, results: map<string, Value>) returns (t: Token)
    ensures forall b: Keys :: Tabulates(results, b) ==> t == InterpolateToken(b, Ref(digits, path))
    ensures t == Ref(digits, path) || t.Subst?
    ensures forall v :: t == Subst(v) <==> "q" + digits in results && Names(results["q" + digits], path, v)
  {
    hide Names;
    var id := "q" + digits;
    if id in results {
      forall v ensures Walk(results[id], path) == Some(v) <==> Names(results[id], path, v) {
        WalkFollows(results[id], path, v);
      }
    }
    if id !in results {
      return Ref(digits, path);
    }
    var result := results[id];
    match result
    case Text(_) =>
      return if path == [] then Subst(result) else Ref(digits, path);
    case Opaque(_) =>
      return Ref(digits, path);
    case Object(_) =>
      if path == [] {
        return Subst(result);
      }
      var cur := result;
      for i := 0 to |path|
        invariant i < |path| ==>
                    WalkFields(result, path) == if cur.Object? then WalkFields(cur, path[i..]) else None
        invariant i == |path| ==> WalkFields(result, path) == Some(cur)
      {
        if !cur.Object? {
          return Ref(digits, path);
        }
        assert path[i..][0] == path[i] && path[i..][1..] == path[i + 1..];
        cur := if path[i] in cur.fields then cur.fields[path[i]] else Opaque(0);
      }
      return Subst(cur);
  }
}
