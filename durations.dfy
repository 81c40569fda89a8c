/** The duration pass `execute` runs over `movieData.scenes` before every
    createMovie request: a zero `duration` on a scene or on one of its
    elements becomes 1, and every other value is left alone. */
module Durations {
  import opened JsonValues

  /** An object after `if (x.duration === 0) x.duration = 1`. */
  function FixedDuration(fields: map<string, Json>): (r: map<string, Json>)
    ensures r.Keys == fields.Keys
    ensures Get(r, "duration") == if Get(fields, "duration") == Num(0.0) then Num(1.0) else Get(fields, "duration")
    ensures forall k :: k != "duration" ==> Get(r, k) == Get(fields, k)
  {
    if Get(fields, "duration") == Num(0.0) then fields["duration" := Num(1.0)] else fields
  }

  /** One entry of `scene.elements` after the pass. Reading `duration` of a
      string, number or boolean yields `undefined`, so those stay as they are. */
  function NormalizedElement(e: Json): Json {
    if e.Obj? then Obj(FixedDuration(e.fields)) else e
  }

  /** One scene after the pass: its own duration, then, when `elements` is a
      truthy array, each element's. */
  function NormalizedScene(scene: Json): Json {
    if scene.Obj? then
      var fields := FixedDuration(scene.fields);
      var elements := Get(fields, "elements");
      if Truthy(elements) && elements.Arr? then
        Obj(fields["elements" := Arr(seq(|elements.items|, j requires 0 <= j < |elements.items| =>
                                           NormalizedElement(elements.items[j])))])
      else Obj(fields)
    else scene
  }

  /** The elements the pass visits in a scene, when the scene is an object. */
  function ElementsVisited(scene: Json): seq<Json> {
    if scene.Obj? && Truthy(Get(scene.fields, "elements")) && Get(scene.fields, "elements").Arr? then
      Get(scene.fields, "elements").items
    else []
  }

  /** Every value whose `duration` the pass reads, in the order it reads them:
      each scene, then that scene's elements. */
  function VisitOrder(scenes: seq<Json>): seq<Json>
  {
    if scenes == [] then []
    else VisitOrder(scenes[..|scenes| - 1]) + [scenes[|scenes| - 1]] + ElementsVisited(scenes[|scenes| - 1])
  }

  /** The first `null` or `undefined` among `vs`: reading its `duration`
      throws. */
  function FirstNullish(vs: seq<Json>): (r: Option<Json>)
    ensures r.Some? ==> Nullish(r.value)
  {
    if vs == [] then None
    else if Nullish(vs[0]) then Some(vs[0])
    else FirstNullish(vs[1..])
  }

  /** FirstNullish finds a null entry exactly when there is one, and what it
      finds is one of them. */
  lemma {:induction false} FirstNullishSpec(vs: seq<Json>)
    ensures FirstNullish(vs).None? <==> forall i :: 0 <= i < |vs| ==> !Nullish(vs[i])
    ensures FirstNullish(vs).Some? ==> Nullish(FirstNullish(vs).value) && FirstNullish(vs).value in vs
  {
    if vs != [] && !Nullish(vs[0]) {
      FirstNullishSpec(vs[1..]);
      assert forall i :: 1 <= i < |vs| ==> vs[i] == vs[1..][i - 1];
    }
  }

  /** The outcome of the pass: the TypeError of the first null entry it
      reaches, or every scene normalised. */
  function Normalized(scenes: seq<Json>): Result<seq<Json>> {
    match FirstNullish(VisitOrder(scenes))
    case Some(v) => Err(NullReadMessage(v, "duration"))
    case None => Ok(seq(|scenes|, i requires 0 <= i < |scenes| => NormalizedScene(scenes[i])))
  }

  // ---------------------------------------------------------------------
  // Facts about the visit order

  lemma {:induction false} FirstNullishAppend(a: seq<Json>, b: seq<Json>)
    ensures FirstNullish(a + b) == if FirstNullish(a).Some? then FirstNullish(a) else FirstNullish(b)
  {
    if a != [] {
      assert (a + b)[1..] == a[1..] + b;
      FirstNullishAppend(a[1..], b);
    } else {
      assert a + b == b;
    }
  }

  lemma {:induction false} VisitOrderAppend(a: seq<Json>, b: seq<Json>)
    ensures VisitOrder(a + b) == VisitOrder(a) + VisitOrder(b)
    decreases |b|
  {
    if b == [] {
      assert a + b == a;
    } else {
      var last := b[|b| - 1];
      assert (a + b)[..|a + b| - 1] == a + b[..|b| - 1];
      VisitOrderAppend(a, b[..|b| - 1]);
    }
  }

  /** A value the pass reads: a scene, or an element of a scene. */
  ghost predicate Reads(scenes: seq<Json>, v: Json) {
    exists i :: 0 <= i < |scenes| && (scenes[i] == v || v in ElementsVisited(scenes[i]))
  }

  lemma {:induction false} VisitOrderMembers(scenes: seq<Json>, v: Json)
    ensures v in VisitOrder(scenes) <==> Reads(scenes, v)
  {
    if scenes != [] {
      var init, last := scenes[..|scenes| - 1], scenes[|scenes| - 1];
      VisitOrderMembers(init, v);
      if Reads(init, v) {
        var i :| 0 <= i < |init| && (init[i] == v || v in ElementsVisited(init[i]));
        assert scenes[i] == init[i];
      }
      if Reads(scenes, v) && !(last == v || v in ElementsVisited(last)) {
        var i :| 0 <= i < |scenes| && (scenes[i] == v || v in ElementsVisited(scenes[i]));
        assert i < |init| && init[i] == scenes[i];
      }
    }
  }

  // ---------------------------------------------------------------------
  // The pass

  /** The inner loop over one scene's `elements`, rewriting in place. */
  method NormalizeElements(elements: seq<Json>) returns (r: Result<seq<Json>>)
    ensures r.Err? <==> FirstNullish(elements).Some?
    ensures r.Err? ==> r.msg == NullReadMessage(FirstNullish(elements).value, "duration")
    ensures r.Ok? ==> r.value == seq(|elements|, j requires 0 <= j < |elements| => NormalizedElement(elements[j]))
  {
    var items := elements;
    var j := 0;
    while j < |items|
      invariant 0 <= j <= |items| == |elements|
      invariant FirstNullish(elements[..j]) == None
      invariant forall m :: 0 <= m < j ==> items[m] == NormalizedElement(elements[m])
      invariant forall m :: j <= m < |items| ==> items[m] == elements[m]
    {
      var element := items[j];
      FirstNullishAppend(elements[..j], [element]);
      assert elements[..j + 1] == elements[..j] + [element];
      if Nullish(element) {
        assert elements == elements[..j + 1] + elements[j + 1..];
        FirstNullishAppend(elements[..j + 1], elements[j + 1..]);
        return Err(NullReadMessage(element, "duration"));
      }
      if element.Obj? && Get(element.fields, "duration") == Num(0.0) {
        items := items[j := Obj(element.fields["duration" := Num(1.0)])];
      }
      j := j + 1;
    }
    assert elements[..|items|] == elements;
    return Ok(items);
  }

  /** The loop of `execute` over `movieData.scenes`, rewriting durations in
      place. */
  method NormalizeDurations(scenes: seq<Json>) returns (r: Result<seq<Json>>)
    ensures r == Normalized(scenes)
  {
    var out := scenes;
    var i := 0;
    while i < |out|
      invariant 0 <= i <= |out| == |scenes|
      invariant FirstNullish(VisitOrder(scenes[..i])) == None
      invariant forall k :: 0 <= k < i ==> out[k] == NormalizedScene(scenes[k])
      invariant forall k :: i <= k < |out| ==> out[k] == scenes[k]
    {
      var scene := out[i];
      FirstNullishAppend([scene], ElementsVisited(scene));
      if Nullish(scene) {
        FirstNullishReached(scenes, i);
        return Err(NullReadMessage(scene, "duration"));
      }
      var fixed := NormalizeScene(scene);
      FirstNullishReached(scenes, i);
      if fixed.Err? {
        return Err(fixed.msg);
      }
      out := out[i := fixed.value];
      i := i + 1;
    }
    assert scenes[..i] == scenes;
    assert out == seq(|scenes|, k requires 0 <= k < |scenes| => NormalizedScene(scenes[k]));
    return Ok(out);
  }

  /** The body of that loop for one scene that is neither null nor undefined. */
  method NormalizeScene(scene: Json) returns (r: Result<Json>)
    requires !Nullish(scene)
    ensures r.Err? <==> FirstNullish(ElementsVisited(scene)).Some?
    ensures r.Err? ==> r.msg == NullReadMessage(FirstNullish(ElementsVisited(scene)).value, "duration")
    ensures r.Ok? ==> r.value == NormalizedScene(scene)
  {
    if !scene.Obj? {
      return Ok(scene);
    }
    var fields := scene.fields;
    if Get(fields, "duration") == Num(0.0) {
      fields := fields["duration" := Num(1.0)];
    }
    var elements := Get(fields, "elements");
    if Truthy(elements) && elements.Arr? {
      var items := NormalizeElements(elements.items);
      if items.Err? {
        return Err(items.msg);
      }
      fields := fields["elements" := Arr(items.value)];
    }
    return Ok(Obj(fields));
  }

  lemma VisitPrefix(scenes: seq<Json>, i: nat)
    requires i < |scenes|
    ensures VisitOrder(scenes[..i + 1]) == VisitOrder(scenes[..i]) + ([scenes[i]] + ElementsVisited(scenes[i]))
  {
    assert scenes[..i + 1][..i] == scenes[..i];
  }

  lemma VisitSplit(scenes: seq<Json>, i: nat)
    requires i < |scenes|
    ensures VisitOrder(scenes) == VisitOrder(scenes[..i + 1]) + VisitOrder(scenes[i + 1..])
  {
    assert scenes == scenes[..i + 1] + scenes[i + 1..];
    VisitOrderAppend(scenes[..i + 1], scenes[i + 1..]);
  }

  /** What the pass finds at scene `i`, when it found nothing before, is what
      it finds overall; and finding nothing there extends to scene `i + 1`. */
  lemma FirstNullishReached(scenes: seq<Json>, i: nat)
    requires i < |scenes|
    requires FirstNullish(VisitOrder(scenes[..i])) == None
    ensures var here := FirstNullish([scenes[i]] + ElementsVisited(scenes[i]));
      && (here.Some? ==> FirstNullish(VisitOrder(scenes)) == here)
      && (here.None? ==> FirstNullish(VisitOrder(scenes[..i + 1])) == None)
  {
    VisitPrefix(scenes, i);
    FirstNullishAppend(VisitOrder(scenes[..i]), [scenes[i]] + ElementsVisited(scenes[i]));
    VisitSplit(scenes, i);
    FirstNullishAppend(VisitOrder(scenes[..i + 1]), VisitOrder(scenes[i + 1..]));
  }

  // ---------------------------------------------------------------------
  // Properties of the pass

  /** The pass fails exactly when it reads a null or undefined scene, or a
      null or undefined entry of a scene's `elements` array. */
  lemma PassFailsIffNullRead(scenes: seq<Json>)
    ensures Normalized(scenes).Err? <==> exists v :: Nullish(v) && Reads(scenes, v)
  {
    FirstNullishSpec(VisitOrder(scenes));
    if exists v :: Nullish(v) && Reads(scenes, v) {
      var v :| Nullish(v) && Reads(scenes, v);
      VisitOrderMembers(scenes, v);
      var k :| 0 <= k < |VisitOrder(scenes)| && VisitOrder(scenes)[k] == v;
    }
    if Normalized(scenes).Err? {
      var v := FirstNullish(VisitOrder(scenes)).value;
      VisitOrderMembers(scenes, v);
    }
  }

  /** After a successful pass no scene and no element has a zero duration;
      a zero became 1 and every other duration, `-1` and `-2` included, is
      what it was. */
  lemma PassRemovesZeroDurations(scenes: seq<Json>)
    requires Normalized(scenes).Ok?
    ensures var r := Normalized(scenes).value;
      forall i :: 0 <= i < |r| && r[i].Obj? ==>
        && Get(r[i].fields, "duration") != Num(0.0)
        && Get(r[i].fields, "duration") ==
             (if Get(scenes[i].fields, "duration") == Num(0.0) then Num(1.0) else Get(scenes[i].fields, "duration"))
        && |ElementsVisited(r[i])| == |ElementsVisited(scenes[i])|
        && (forall j :: 0 <= j < |ElementsVisited(r[i])| ==>
              ElementsVisited(r[i])[j] == NormalizedElement(ElementsVisited(scenes[i])[j]))
        && forall j :: 0 <= j < |ElementsVisited(r[i])| && ElementsVisited(r[i])[j].Obj? ==>
             Get(ElementsVisited(r[i])[j].fields, "duration") != Num(0.0)
  {
  }

  /** The pass keeps the number and order of scenes and of elements, every
      key, and every value other than a zero duration; an `elements` it does
      not visit (absent, falsy, not an array, or empty) is kept as it was. */
  lemma PassKeepsEverythingElse(scenes: seq<Json>)
    requires Normalized(scenes).Ok?
    ensures var r := Normalized(scenes).value;
      && |r| == |scenes|
      && (forall i :: 0 <= i < |r| && !scenes[i].Obj? ==> r[i] == scenes[i])
      && (forall i :: 0 <= i < |r| && scenes[i].Obj? ==>
            && r[i].Obj? && r[i].fields.Keys == scenes[i].fields.Keys
            && (forall k :: k != "duration" && k != "elements" ==> Get(r[i].fields, k) == Get(scenes[i].fields, k))
            && (ElementsVisited(scenes[i]) == [] ==> Get(r[i].fields, "elements") == Get(scenes[i].fields, "elements"))
            && (Get(r[i].fields, "elements").Arr? <==> Get(scenes[i].fields, "elements").Arr?))
  {
  }

  /** Each element keeps its keys and every value but a zero duration. */
  lemma NormalizedElementKeepsFields(e: Json)
    ensures NormalizedElement(e).Obj? <==> e.Obj?
    ensures !e.Obj? ==> NormalizedElement(e) == e
    ensures e.Obj? ==>
      && NormalizedElement(e).fields.Keys == e.fields.Keys
      && forall k :: k != "duration" ==> Get(NormalizedElement(e).fields, k) == Get(e.fields, k)
  {
  }

  /** Nothing the pass reads in its own output is null or undefined. */
  lemma PassLeavesNoNullRead(scenes: seq<Json>, v: Json)
    requires Normalized(scenes).Ok?
    requires Reads(Normalized(scenes).value, v)
    ensures !Nullish(v)
  {
    var r := Normalized(scenes).value;
    PassFailsIffNullRead(scenes);
    var i :| 0 <= i < |r| && (r[i] == v || v in ElementsVisited(r[i]));
    assert r[i] == NormalizedScene(scenes[i]);
    if Nullish(v) {
      NullishVisitKept(scenes[i], v);
    }
  }

  /** A null or undefined value the pass leaves in a scene was already there. */
  lemma NullishVisitKept(scene: Json, v: Json)
    requires Nullish(v)
    requires NormalizedScene(scene) == v || v in ElementsVisited(NormalizedScene(scene))
    ensures scene == v || v in ElementsVisited(scene)
  {
    if scene.Obj? {
      var fields := FixedDuration(scene.fields);
      var elements := Get(fields, "elements");
      assert elements == Get(scene.fields, "elements");
      if Truthy(elements) && elements.Arr? {
        var out := seq(|elements.items|, j requires 0 <= j < |elements.items| => NormalizedElement(elements.items[j]));
        assert Get(fields["elements" := Arr(out)], "elements") == Arr(out);
        assert v in out;
        var j :| 0 <= j < |out| && out[j] == v;
        assert elements.items[j] == v;
      }
    }
  }

  /** Running the pass on its own output changes nothing. */
  lemma PassIdempotent(scenes: seq<Json>)
    requires Normalized(scenes).Ok?
    ensures Normalized(Normalized(scenes).value) == Normalized(scenes)
  {
    var r := Normalized(scenes).value;
    PassFailsIffNullRead(r);
    forall v | Nullish(v) && Reads(r, v)
      ensures false
    {
      PassLeavesNoNullRead(scenes, v);
    }
    var r2 := seq(|r|, i requires 0 <= i < |r| => NormalizedScene(r[i]));
    forall i | 0 <= i < |r|
      ensures r2[i] == r[i]
    {
      NormalizedSceneIdempotent(scenes[i]);
    }
    assert r2 == r;
  }

  lemma NormalizedSceneIdempotent(scene: Json)
    ensures NormalizedScene(NormalizedScene(scene)) == NormalizedScene(scene)
  {
    if scene.Obj? {
      var once := NormalizedScene(scene);
      var fields := FixedDuration(scene.fields);
      assert FixedDuration(once.fields) == once.fields;
      var elements := Get(fields, "elements");
      if Truthy(elements) && elements.Arr? {
        var items := Get(once.fields, "elements").items;
        assert forall j :: 0 <= j < |items| ==> NormalizedElement(items[j]) == items[j];
        assert seq(|items|, j requires 0 <= j < |items| => NormalizedElement(items[j])) == items;
        assert once.fields["elements" := Arr(items)] == once.fields;
      }
    }
  }
}
