/** The two ways createMovie fills `movieData.scenes`: taken from a JSON
    movie definition, or built from the "simple" form's scene collection. */
module SceneBuilder {
  import opened JsonValues

  // ---------------------------------------------------------------------
  // JSON mode

  const DefinitionErrorPrefix := "Invalid JSON in movie definition: "

  /** The scenes of a JSON-mode movie definition. `definition` is the parsed
      parameter, or the parser's error message. A value with truthy `scenes`
      gives those scenes; an array is the scene list itself; any other value
      is wrapped as a one-scene list. Reading `scenes` of null throws, and
      every failure is reported under one prefix. */
  function JsonScenes(definition: Result<Json>): (r: Result<Json>)
    ensures r.Err? <==> definition.Err? || Nullish(definition.value)
    ensures r.Err? ==> |r.msg| >= |DefinitionErrorPrefix| && r.msg[..|DefinitionErrorPrefix|] == DefinitionErrorPrefix
    ensures r.Ok? ==> Truthy(r.value)
    ensures r.Ok? && Truthy(Prop(definition.value, "scenes")) ==> r.value == Prop(definition.value, "scenes")
    ensures r.Ok? && !Truthy(Prop(definition.value, "scenes")) ==>
      r.value.Arr? && (definition.value.Arr? ==> r.value == definition.value)
                   && (!definition.value.Arr? ==> r.value.items == [definition.value])
  {
    match definition
    case Err(msg) => Err(DefinitionErrorPrefix + msg)
    case Ok(data) =>
      if Nullish(data) then Err(DefinitionErrorPrefix + NullReadMessage(data, "scenes"))
      else if Truthy(Prop(data, "scenes")) then Ok(Prop(data, "scenes"))
      else if data.Arr? then Ok(data)
      else Ok(Arr([data]))
  }

  // ---------------------------------------------------------------------
  // Simple mode

  /** The four element collections of a scene entry, in the order the
      builder visits them. */
  datatype Kind = Text | Image | Video | Audio

  function GroupName(kind: Kind): string {
    match kind
    case Text => "textElements"
    case Image => "imageElements"
    case Video => "videoElements"
    case Audio => "audioElements"
  }

  function TypeName(kind: Kind): string {
    match kind
    case Text => "text"
    case Image => "image"
    case Video => "video"
    case Audio => "audio"
  }

  /** The position of a kind in the builder's order. */
  function Rank(kind: Kind): nat {
    match kind
    case Text => 0
    case Image => 1
    case Video => 2
    case Audio => 3
  }

  /** `(scene.elements as IDataObject)?.<group>`. */
  function GroupOf(entry: map<string, Json>, kind: Kind): Json {
    Prop(Get(entry, "elements"), GroupName(kind))
  }

  /** A collection the builder can iterate: missing (`|| []`), or a list of
      objects as the form delivers it. */
  predicate GroupWellTyped(v: Json) {
    Truthy(v) ==> v.Arr? && forall j :: 0 <= j < |v.items| ==> v.items[j].Obj?
  }

  /** A scene entry as the form delivers it. */
  predicate EntryWellTyped(entry: Json) {
    && entry.Obj?
    && GroupWellTyped(GroupOf(entry.fields, Text))
    && GroupWellTyped(GroupOf(entry.fields, Image))
    && GroupWellTyped(GroupOf(entry.fields, Video))
    && GroupWellTyped(GroupOf(entry.fields, Audio))
  }

  predicate EntriesWellTyped(entries: seq<Json>) {
    forall i :: 0 <= i < |entries| ==> EntryWellTyped(entries[i])
  }

  /** The entries of one collection, `[]` when it is missing. */
  function GroupList(entry: map<string, Json>, kind: Kind): (r: seq<Json>)
    requires GroupWellTyped(GroupOf(entry, kind))
    ensures forall j :: 0 <= j < |r| ==> r[j].Obj?
    ensures Truthy(GroupOf(entry, kind)) ==> r == GroupOf(entry, kind).items
    ensures !Truthy(GroupOf(entry, kind)) ==> r == []
  {
    var group := GroupOf(entry, kind);
    if Truthy(group) then group.items else []
  }

  /** The request element built from one form entry. Every kind carries its
      `type`, `src` or `text`, and `duration`; `x`/`y` are added for text and
      image entries positioned `custom`; `resize` for image and video entries
      when truthy. */
  function BuildElement(kind: Kind, e: map<string, Json>): (r: map<string, Json>)
    ensures Get(r, "type") == Str(TypeName(kind))
  {
    match kind
    case Text =>
      var element := map["type" := Str("text"), "text" := Get(e, "text"), "style" := Get(e, "style"),
                         "position" := Get(e, "position"), "duration" := Get(e, "duration")];
      if Get(e, "position") == Str("custom") then element["x" := Get(e, "x")]["y" := Get(e, "y")] else element
    case Image =>
      var element := map["type" := Str("image"), "src" := Get(e, "src"), "position" := Get(e, "position"),
                         "duration" := Get(e, "duration")];
      var placed := if Get(e, "position") == Str("custom") then element["x" := Get(e, "x")]["y" := Get(e, "y")] else element;
      if Truthy(Get(e, "resize")) then placed["resize" := Get(e, "resize")] else placed
    case Video =>
      var element := map["type" := Str("video"), "src" := Get(e, "src"), "position" := Get(e, "position"),
                         "duration" := Get(e, "duration"), "muted" := Get(e, "muted")];
      if Truthy(Get(e, "resize")) then element["resize" := Get(e, "resize")] else element
    case Audio =>
      map["type" := Str("audio"), "src" := Get(e, "src"), "volume" := Get(e, "volume"), "duration" := Get(e, "duration")]
  }

  /** The fields of a built element: `src` or `text` and `duration` copied
      from the entry; `x`/`y` exactly for text and image entries positioned
      `custom`, never for video or audio; `resize` exactly for image and video
      entries whose `resize` is truthy. */
  lemma BuildElementFields(kind: Kind, e: map<string, Json>)
    ensures Get(BuildElement(kind, e), "duration") == Get(e, "duration")
    ensures kind == Text ==> Get(BuildElement(kind, e), "text") == Get(e, "text") && "src" !in BuildElement(kind, e)
    ensures kind != Text ==> Get(BuildElement(kind, e), "src") == Get(e, "src") && "text" !in BuildElement(kind, e)
    ensures "x" in BuildElement(kind, e) <==> (kind == Text || kind == Image) && Get(e, "position") == Str("custom")
    ensures "y" in BuildElement(kind, e) <==> (kind == Text || kind == Image) && Get(e, "position") == Str("custom")
    ensures "x" in BuildElement(kind, e) ==>
      BuildElement(kind, e)["x"] == Get(e, "x") && BuildElement(kind, e)["y"] == Get(e, "y")
    ensures "resize" in BuildElement(kind, e) <==> (kind == Image || kind == Video) && Truthy(Get(e, "resize"))
    ensures "resize" in BuildElement(kind, e) ==> BuildElement(kind, e)["resize"] == Get(e, "resize")
  {
  }

  /** The elements built from one collection, in input order. */
  function BuiltElements(kind: Kind, items: seq<Json>): (r: seq<Json>)
    requires forall j :: 0 <= j < |items| ==> items[j].Obj?
    ensures |r| == |items|
  {
    if items == [] then []
    else BuiltElements(kind, items[..|items| - 1]) + [Obj(BuildElement(kind, items[|items| - 1].fields))]
  }

  /** Each entry of a collection becomes one element, where it stands. */
  lemma {:induction false} BuiltElementsAt(kind: Kind, items: seq<Json>)
    requires forall j :: 0 <= j < |items| ==> items[j].Obj?
    ensures forall j :: 0 <= j < |items| ==> BuiltElements(kind, items)[j] == Obj(BuildElement(kind, items[j].fields))
  {
    if items != [] {
      BuiltElementsAt(kind, items[..|items| - 1]);
    }
  }

  /** All elements of a scene: text, then image, then video, then audio. */
  function SceneElements(entry: map<string, Json>): seq<Json>
    requires EntryWellTyped(Obj(entry))
  {
    BuiltElements(Text, GroupList(entry, Text)) + BuiltElements(Image, GroupList(entry, Image))
    + BuiltElements(Video, GroupList(entry, Video)) + BuiltElements(Audio, GroupList(entry, Audio))
  }

  /** The scene built from one entry: `background-color` when the entry's
      colour is truthy, `duration` when it is defined, `elements` when there
      is at least one element. */
  function BuiltScene(entry: map<string, Json>): map<string, Json>
    requires EntryWellTyped(Obj(entry))
  {
    var colored: map<string, Json> :=
      if Truthy(Get(entry, "backgroundColor")) then map["background-color" := Get(entry, "backgroundColor")] else map[];
    var timed := if Get(entry, "duration") != Undefined then colored["duration" := Get(entry, "duration")] else colored;
    var elements := SceneElements(entry);
    if |elements| > 0 then timed["elements" := Arr(elements)] else timed
  }

  /** One of the builder's four `for (const element of ...) elements.push(...)`
      loops: the entries of one collection, built and appended in order. */
  method PushElements(elements: seq<Json>, kind: Kind, items: seq<Json>) returns (r: seq<Json>)
    requires forall j :: 0 <= j < |items| ==> items[j].Obj?
    ensures r == elements + BuiltElements(kind, items)
  {
    r := elements;
    for j := 0 to |items|
      invariant r == elements + BuiltElements(kind, items[..j])
    {
      assert items[..j + 1][..j] == items[..j];
      r := r + [Obj(BuildElement(kind, items[j].fields))];
    }
    assert items[..|items|] == items;
  }

  /** The body of the builder's loop: one scene from one entry. */
  method BuildScene(scene: map<string, Json>) returns (sceneData: map<string, Json>)
    requires EntryWellTyped(Obj(scene))
    ensures sceneData == BuiltScene(scene)
  {
    sceneData := map[];
    if Truthy(Get(scene, "backgroundColor")) {
      sceneData := sceneData["background-color" := Get(scene, "backgroundColor")];
    }
    if Get(scene, "duration") != Undefined {
      sceneData := sceneData["duration" := Get(scene, "duration")];
    }
    var elements := BuildSceneElements(scene);
    if |elements| > 0 {
      sceneData := sceneData["elements" := Arr(elements)];
    }
  }

  /** The builder's four push loops, text, image, video and audio in turn. */
  method BuildSceneElements(scene: map<string, Json>) returns (elements: seq<Json>)
    requires EntryWellTyped(Obj(scene))
    ensures elements == SceneElements(scene)
  {
    var t, im, v, au := GroupList(scene, Text), GroupList(scene, Image), GroupList(scene, Video), GroupList(scene, Audio);
    elements := PushElements([], Text, t);
    EmptyJoin(BuiltElements(Text, t));
    elements := PushElements(elements, Image, im);
    elements := PushElements(elements, Video, v);
    elements := PushElements(elements, Audio, au);
    assert elements == BuiltElements(Text, t) + BuiltElements(Image, im) + BuiltElements(Video, v) + BuiltElements(Audio, au);
  }

  /** The scenes list the simple mode builds from its entries. */
  function SimpleScenes(sceneValues: seq<Json>): seq<Json>
    requires EntriesWellTyped(sceneValues)
  {
    seq(|sceneValues|, i requires 0 <= i < |sceneValues| => Obj(BuiltScene(sceneValues[i].fields)))
  }

  /** The simple-mode scene builder: one scene per entry, in input order. */
  method BuildSimpleScenes(sceneValues: seq<Json>) returns (scenes: seq<Json>)
    requires EntriesWellTyped(sceneValues)
    ensures scenes == SimpleScenes(sceneValues)
  {
    ghost var all := SimpleScenes(sceneValues);
    scenes := [];
    for i := 0 to |sceneValues|
      invariant scenes == all[..i]
    {
      var scene := BuildSimpleScene(sceneValues, i);
      PrefixGrows(all, i);
      scenes := scenes + [scene];
    }
    assert all[..|sceneValues|] == all;
  }

  /** Builds scene `i` of the simple mode. */
  method BuildSimpleScene(sceneValues: seq<Json>, i: nat) returns (scene: Json)
    requires EntriesWellTyped(sceneValues) && i < |sceneValues|
    ensures |SimpleScenes(sceneValues)| == |sceneValues|
    ensures scene == SimpleScenes(sceneValues)[i]
  {
    var sceneData := BuildScene(sceneValues[i].fields);
    SimpleSceneAt(sceneValues, i);
    scene := Obj(sceneData);
  }

  /** Scene `i` of the simple mode is built from entry `i` alone. */
  lemma SimpleSceneAt(sceneValues: seq<Json>, i: nat)
    requires EntriesWellTyped(sceneValues) && i < |sceneValues|
    ensures |SimpleScenes(sceneValues)| == |sceneValues|
    ensures SimpleScenes(sceneValues)[i] == Obj(BuiltScene(sceneValues[i].fields))
  {
  }

  // ---------------------------------------------------------------------
  // Properties of the built scenes

  /** A scene carries `elements` exactly when some collection is non-empty,
      and then as many elements as the collections hold together. */
  lemma ElementsOmittedWhenEmpty(entry: map<string, Json>)
    requires EntryWellTyped(Obj(entry))
    ensures "elements" in BuiltScene(entry) <==>
      |GroupList(entry, Text)| + |GroupList(entry, Image)| + |GroupList(entry, Video)| + |GroupList(entry, Audio)| > 0
    ensures "elements" in BuiltScene(entry) ==>
      |Get(BuiltScene(entry), "elements").items| ==
      |GroupList(entry, Text)| + |GroupList(entry, Image)| + |GroupList(entry, Video)| + |GroupList(entry, Audio)|
  {
  }

  /** The elements of a built scene are grouped by kind in the fixed order
      text, image, video, audio: the element at position `a` has the type of
      KindAt(entry, a), and kinds never go backwards along the list. */
  lemma ElementsOrderedByKind(entry: map<string, Json>)
    requires EntryWellTyped(Obj(entry))
    ensures var els := SceneElements(entry);
      forall a :: 0 <= a < |els| ==> els[a].Obj? && Get(els[a].fields, "type") == Str(TypeName(KindAt(entry, a)))
    ensures forall a, b :: 0 <= a <= b ==> Rank(KindAt(entry, a)) <= Rank(KindAt(entry, b))
  {
    var els := SceneElements(entry);
    var t, im := BuiltElements(Text, GroupList(entry, Text)), BuiltElements(Image, GroupList(entry, Image));
    var v, au := BuiltElements(Video, GroupList(entry, Video)), BuiltElements(Audio, GroupList(entry, Audio));
    GroupTyped(Text, GroupList(entry, Text));
    GroupTyped(Image, GroupList(entry, Image));
    GroupTyped(Video, GroupList(entry, Video));
    GroupTyped(Audio, GroupList(entry, Audio));
    KindBySizesMonotone(|GroupList(entry, Text)|, |GroupList(entry, Image)|, |GroupList(entry, Video)|);
    forall a | 0 <= a < |els|
      ensures els[a].Obj? && Get(els[a].fields, "type") == Str(TypeName(KindAt(entry, a)))
    {
      IndexOfFour(t, im, v, au, a);
    }
  }

  /** Where position `a` of four joined lists falls. */
  lemma IndexOfFour<T>(t: seq<T>, im: seq<T>, v: seq<T>, au: seq<T>, a: nat)
    requires a < |t + im + v + au|
    ensures (t + im + v + au)[a] ==
      if a < |t| then t[a]
      else if a < |t| + |im| then im[a - |t|]
      else if a < |t| + |im| + |v| then v[a - |t| - |im|]
      else au[a - |t| - |im| - |v|]
  {
  }

  lemma GroupTyped(kind: Kind, items: seq<Json>)
    requires forall j :: 0 <= j < |items| ==> items[j].Obj?
    ensures forall j :: 0 <= j < |items| ==>
      BuiltElements(kind, items)[j].Obj? && Get(BuiltElements(kind, items)[j].fields, "type") == Str(TypeName(kind))
  {
    BuiltElementsAt(kind, items);
  }

  /** The kind of the element at position `a` of a built scene. */
  function KindAt(entry: map<string, Json>, a: int): Kind
    requires EntryWellTyped(Obj(entry))
  {
    KindBySizes(|GroupList(entry, Text)|, |GroupList(entry, Image)|, |GroupList(entry, Video)|, a)
  }

  /** The kind at position `a` of a list holding `t` text, `im` image and
      `v` video elements before the audio ones. */
  function KindBySizes(t: nat, im: nat, v: nat, a: int): Kind {
    if a < t then Text else if a < t + im then Image else if a < t + im + v then Video else Audio
  }

  lemma KindBySizesMonotone(t: nat, im: nat, v: nat)
    ensures forall a, b :: a <= b ==> Rank(KindBySizes(t, im, v, a)) <= Rank(KindBySizes(t, im, v, b))
  {
  }
}
