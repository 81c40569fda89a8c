/** The template-variable collection of createMovieFromTemplate: the
    `templateVariables.variables` entries become one `variables` object on
    the request body. */
module TemplateVariables {
  import opened JsonValues

  /** An entry survives when its `name` is truthy and its `value` defined. */
  predicate Kept(entry: map<string, Json>) {
    Truthy(Get(entry, "name")) && Get(entry, "value") != Undefined
  }

  /** Names are declared as strings, so a truthy name is a non-empty string. */
  predicate NamesAreStrings(entries: seq<map<string, Json>>) {
    forall i :: 0 <= i < |entries| && Truthy(Get(entries[i], "name")) ==> Get(entries[i], "name").Str?
  }

  /** Entry `i` survives under the name `k`. */
  predicate KeptAs(entries: seq<map<string, Json>>, i: int, k: string)
    requires 0 <= i < |entries|
  {
    Kept(entries[i]) && Get(entries[i], "name") == Str(k)
  }

  /** The `variables` object after the `forEach`, in the source's order:
      each surviving entry assigns its value under its name. */
  function Variables(entries: seq<map<string, Json>>): map<string, Json>
    requires NamesAreStrings(entries)
  {
    if entries == [] then map[]
    else
      var last := entries[|entries| - 1];
      var earlier := Variables(entries[..|entries| - 1]);
      if Kept(last) then earlier[Get(last, "name").s := Get(last, "value")] else earlier
  }

  /** The loop of the source, one entry at a time. */
  method CollectVariables(entries: seq<map<string, Json>>) returns (variables: map<string, Json>)
    requires NamesAreStrings(entries)
    ensures variables == Variables(entries)
  {
    variables := map[];
    if |entries| > 0 {
      for i := 0 to |entries|
        invariant variables == Variables(entries[..i])
      {
        assert entries[..i + 1][..i] == entries[..i];
        var variable := entries[i];
        if Truthy(Get(variable, "name")) && Get(variable, "value") != Undefined {
          variables := variables[Get(variable, "name").s := Get(variable, "value")];
        }
      }
      assert entries[..|entries|] == entries;
    }
  }

  /** A name is collected exactly when some entry survives under it. */
  lemma {:induction false} VariablesKeys(entries: seq<map<string, Json>>, k: string)
    requires NamesAreStrings(entries)
    ensures k in Variables(entries) <==> exists i :: 0 <= i < |entries| && KeptAs(entries, i, k)
  {
    if entries != [] {
      var n := |entries| - 1;
      var init := entries[..n];
      assert forall i :: 0 <= i < n ==> init[i] == entries[i];
      VariablesKeys(init, k);
      if exists i :: 0 <= i < n && KeptAs(init, i, k) {
        var i :| 0 <= i < n && KeptAs(init, i, k);
        assert KeptAs(entries, i, k);
      }
      if KeptAs(entries, n, k) {
        assert k in Variables(entries);
      }
      if exists i :: 0 <= i < |entries| && KeptAs(entries, i, k) {
        var i :| 0 <= i < |entries| && KeptAs(entries, i, k);
        if i < n {
          assert KeptAs(init, i, k);
        }
      }
    }
  }

  /** The last surviving entry with a name wins: its value is the one
      collected. */
  lemma {:induction false} VariablesLastWins(entries: seq<map<string, Json>>, i: int, k: string)
    requires NamesAreStrings(entries)
    requires 0 <= i < |entries| && KeptAs(entries, i, k)
    requires forall j :: i < j < |entries| ==> !KeptAs(entries, j, k)
    ensures k in Variables(entries) && Variables(entries)[k] == Get(entries[i], "value")
  {
    var init := entries[..|entries| - 1];
    if i < |entries| - 1 {
      assert KeptAs(init, i, k);
      assert !KeptAs(entries, |entries| - 1, k);
      forall j | i < j < |init|
        ensures !KeptAs(init, j, k)
      {
        assert !KeptAs(entries, j, k);
      }
      VariablesLastWins(init, i, k);
    }
  }

  /** The request body after `if (Object.keys(variables).length > 0)`. */
  function WithVariables(movie: map<string, Json>, variables: map<string, Json>): map<string, Json> {
    if variables != map[] then movie["variables" := Obj(variables)] else movie
  }

  /** `movieData.variables` is set, to the collected object, exactly when
      at least one entry survives; otherwise the body is untouched. */
  lemma VariablesSetIffOneSurvives(movie: map<string, Json>, entries: seq<map<string, Json>>)
    requires NamesAreStrings(entries)
    ensures (exists i :: 0 <= i < |entries| && Kept(entries[i])) ==>
      WithVariables(movie, Variables(entries)) == movie["variables" := Obj(Variables(entries))]
    ensures (forall i :: 0 <= i < |entries| ==> !Kept(entries[i])) ==>
      WithVariables(movie, Variables(entries)) == movie
  {
    if exists i :: 0 <= i < |entries| && Kept(entries[i]) {
      var i :| 0 <= i < |entries| && Kept(entries[i]);
      assert Get(entries[i], "name").Str?;
      var k := Get(entries[i], "name").s;
      assert KeptAs(entries, i, k);
      VariablesKeys(entries, k);
    } else if Variables(entries) != map[] {
      var k :| k in Variables(entries);
      VariablesKeys(entries, k);
    }
  }
}
