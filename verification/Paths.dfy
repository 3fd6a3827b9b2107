/** What a field path denotes in a value, said through the values along it. */
module Paths {
  import opened Common
  import opened Board
  import opened Scheduler

  /** Each value but the last is an object, and the next one is its field, or null if it has no such field. */
  ghost predicate Along(vs: seq<Value>, path: seq<string>) {
    && |vs| == |path| + 1
    && forall i :: 0 <= i < |path| ==>
         vs[i].Object? && vs[i + 1] == if path[i] in vs[i].fields then vs[i].fields[path[i]] else Opaque(0)
  }

  ghost predicate Leads(start: Value, path: seq<string>, end: Value) {
    exists vs: seq<Value> :: Along(vs, path) && vs[0] == start && vs[|path|] == end
  }

  /** What a reference with this path to this result stands for: nothing for a whole result that is neither text nor object. */
  ghost predicate Names(result: Value, path: seq<string>, v: Value) {
    Leads(result, path, v) && (path == [] ==> !result.Opaque?)
  }

  /** The reference is to a quest done on the board, and its path denotes `v` in the result. */
  ghost predicate RefersTo(b: Keys, digits: string, path: seq<string>, v: Value) {
    var id := "q" + digits;
    id in b && b[id].status == Done && b[id].result.Some? && Names(b[id].result.value, path, v)
  }

  lemma AlongStep(vs: seq<Value>, path: seq<string>)
    requires path != [] && |vs| == |path| + 1
    ensures Along(vs, path) <==>
              && vs[0].Object? && vs[1] == (if path[0] in vs[0].fields then vs[0].fields[path[0]] else Opaque(0))
              && Along(vs[1..], path[1..])
  {
    if Along(vs[1..], path[1..]) && vs[0].Object? && vs[1] == (if path[0] in vs[0].fields then vs[0].fields[path[0]] else Opaque(0)) {
      forall i | 0 <= i < |path|
        ensures vs[i].Object? && vs[i + 1] == if path[i] in vs[i].fields then vs[i].fields[path[i]] else Opaque(0)
      {
        if i > 0 {
          assert vs[1..][i - 1] == vs[i] && path[1..][i - 1] == path[i] && vs[1..][i] == vs[i + 1];
        }
      }
    }
  }

  lemma LeadsNowhere(start: Value, v: Value)
    ensures Leads(start, [], v) <==> v == start
  {
    assert Along([start], []);
  }

  /** One field further. */
  lemma LeadsOn(start: Value, path: seq<string>, v: Value)
    requires path != []
    ensures Leads(start, path, v) <==>
              start.Object? && Leads(if path[0] in start.fields then start.fields[path[0]] else Opaque(0), path[1..], v)
  {
    if Leads(start, path, v) {
      var vs: seq<Value> :| Along(vs, path) && vs[0] == start && vs[|path|] == v;
      AlongStep(vs, path);
      assert vs[1..][|path| - 1] == v;
    }
    if start.Object? {
      var next := if path[0] in start.fields then start.fields[path[0]] else Opaque(0);
      if Leads(next, path[1..], v) {
        var vs: seq<Value> :| Along(vs, path[1..]) && vs[0] == next && vs[|path| - 1] == v;
        var longer := [start] + vs;
        assert longer[1..] == vs;
        AlongStep(longer, path);
      }
    }
  }

  lemma {:induction false} FieldsFollow(start: Value, path: seq<string>, v: Value)
    requires start.Object?
    ensures WalkFields(start, path) == Some(v) <==> Leads(start, path, v)
    decreases |path|
  {
    hide Leads;
    if path == [] {
      LeadsNowhere(start, v);
    } else {
      var next := if path[0] in start.fields then start.fields[path[0]] else Opaque(0);
      LeadsOn(start, path, v);
      if |path| == 1 {
        assert path[1..] == [];
        LeadsNowhere(next, v);
      } else if next.Object? {
        FieldsFollow(next, path[1..], v);
      } else {
        LeadsOn(next, path[1..], v);
      }
    }
  }

  /** The walk finds exactly what the path denotes. */
  lemma WalkFollows(result: Value, path: seq<string>, v: Value)
    ensures Walk(result, path) == Some(v) <==> Names(result, path, v)
  {
    hide Leads, WalkFields;
    if path == [] {
      LeadsNowhere(result, v);
    } else if result.Object? {
      FieldsFollow(result, path, v);
    } else {
      LeadsOn(result, path, v);
    }
  }

  lemma ResolveFollows(b: Keys, digits: string, path: seq<string>, v: Value)
    ensures Resolve(b, digits, path) == Some(v) <==> RefersTo(b, digits, path, v)
  {
    hide Walk, Names;
    var id := "q" + digits;
    if id in b && b[id].result.Some? {
      WalkFollows(b[id].result.value, path, v);
    }
  }

  // ----- Whole parameters -----

  /** A token after interpolation against a board. */
  ghost predicate Replaced(b: Keys, t: Token, t': Token) {
    if !t.Ref? then t' == t
    else
      && (t' == t || t'.Subst?)
      && forall v :: t' == Subst(v) <==> RefersTo(b, t.digits, t.path, v)
  }

  /** The same parameters, token by token, with the references replaced. */
  ghost predicate Interpolated(b: Keys, params: Params, out: Params) {
    && out.Keys == params.Keys
    && forall k | k in params ::
         if params[k].NotText? then out[k] == params[k]
         else
           && out[k].Tokens? && |out[k].tokens| == |params[k].tokens|
           && forall i :: 0 <= i < |params[k].tokens| ==> Replaced(b, params[k].tokens[i], out[k].tokens[i])
  }

  lemma TokenIsReplaced(b: Keys, t: Token)
    ensures Replaced(b, t, InterpolateToken(b, t))
  {
    hide Resolve, RefersTo;
    if t.Ref? {
      var t' := InterpolateToken(b, t);
      forall v ensures t' == Subst(v) <==> RefersTo(b, t.digits, t.path, v) {
        ResolveFollows(b, t.digits, t.path, v);
      }
    }
  }

  /** Interpolation replaces a reference exactly if it stands for something, and by that. */
  lemma InterpolateReplaces(b: Keys, params: Params)
    ensures Interpolated(b, params, Interpolate(params, b))
  {
    hide Replaced, InterpolateToken;
    var out := Interpolate(params, b);
    forall k | k in params && params[k].Tokens?
      ensures out[k].Tokens? && |out[k].tokens| == |params[k].tokens|
      ensures forall i :: 0 <= i < |params[k].tokens| ==> Replaced(b, params[k].tokens[i], out[k].tokens[i])
    {
      forall i | 0 <= i < |params[k].tokens| ensures Replaced(b, params[k].tokens[i], out[k].tokens[i]) {
        TokenIsReplaced(b, params[k].tokens[i]);
      }
    }
  }

  // ----- A round trip -----

  /** A value wrapped in nested objects along a path. */
  function Nest(path: seq<string>, leaf: Value): Value {
    if path == [] then leaf else Object(map[path[0] := Nest(path[1..], leaf)])
  }

  lemma {:induction false} NestLeads(path: seq<string>, leaf: Value)
    ensures Leads(Nest(path, leaf), path, leaf)
  {
    hide Leads;
    if path == [] {
      LeadsNowhere(leaf, leaf);
    } else {
      NestLeads(path[1..], leaf);
      LeadsOn(Nest(path, leaf), path, leaf);
    }
  }

  /** A leaf wrapped along any path, as a done quest's result, comes back through a reference with that path. */
  lemma NestedLeafComesBack(b: Keys, params: Params, out: Params, k: string, i: nat, digits: string, path: seq<string>, leaf: Value)
    requires Interpolated(b, params, out)
    requires k in params && params[k].Tokens? && i < |params[k].tokens| && params[k].tokens[i] == Ref(digits, path)
    requires var id := "q" + digits; id in b && b[id].status == Done && b[id].result == Some(Nest(path, leaf))
    requires path == [] ==> !leaf.Opaque?
    ensures k in out && out[k].Tokens? && i < |out[k].tokens| && out[k].tokens[i] == Subst(leaf)
  {
    NestLeads(path, leaf);
    hide Leads;
    assert RefersTo(b, digits, path, leaf);
    assert Replaced(b, params[k].tokens[i], out[k].tokens[i]);
  }
}
