/** The template customizer of templateLoader.ts: rewrite, in place, the text,
    media sources and background colours of a movie document whose elements
    the classifiers select. */
module Customizer {
  import opened JsonValues
  import opened Classifiers

  /** What one pass over the elements rewrites. `fontIsLarge` stands for the
      font-size test of isLikelyTitle (see Classifiers.HasLargeFont). */
  datatype ElementEdit =
    | TextEdit(textType: string, newText: Json, fontIsLarge: Json -> bool)
    | MediaEdit(mediaType: string, newSrc: Json)

  // ---------------------------------------------------------------------
  // One element

  /** The element selected for a text rewrite by `textType`. */
  predicate TextSelected(e: map<string, Json>, textType: string, fontIsLarge: Json -> bool) {
    || (textType == "title" && IsLikelyTitle(e, fontIsLarge))
    || (textType == "subtitle" && IsLikelySubtitle(e))
    || (textType == "body" && IsLikelyBodyText(e))
  }

  /** The component setting (`headline`, `body` or `lead`) a text type rewrites. */
  function SlotFor(textType: string): Option<string> {
    if textType == "title" then Some("headline")
    else if textType == "body" then Some("body")
    else if textType == "subtitle" then Some("lead")
    else None
  }

  /** A component text container whose `text` is truthy gets the new text; an
      array-valued `body.text` becomes the one-item array `[newText]`. */
  function RetextSlot(slot: Json, newText: Json, keepArray: bool): (r: Json)
    ensures !(slot.Obj? && Truthy(Get(slot.fields, "text"))) ==> r == slot
    ensures slot.Obj? && Truthy(Get(slot.fields, "text")) ==>
      && r.Obj? && r.fields.Keys == slot.fields.Keys
      && (forall k :: k != "text" ==> Get(r.fields, k) == Get(slot.fields, k))
      && Get(r.fields, "text") == (if keepArray && Get(slot.fields, "text").Arr? then Arr([newText]) else newText)
  {
    if slot.Obj? && Truthy(Get(slot.fields, "text")) then
      var text := Get(slot.fields, "text");
      Obj(slot.fields["text" := if keepArray && text.Arr? then Arr([newText]) else newText])
    else slot
  }

  /** The settings of a component after a text rewrite: only the container
      that `textType` names can change. */
  function RetextSettings(settings: map<string, Json>, textType: string, newText: Json): (r: map<string, Json>)
    ensures r.Keys == settings.Keys
    ensures forall k ::
      Get(r, k) == (if SlotFor(textType) == Some(k) then RetextSlot(Get(settings, k), newText, k == "body") else Get(settings, k))
  {
    match SlotFor(textType)
    case None => settings
    case Some(slot) =>
      if slot in settings then settings[slot := RetextSlot(settings[slot], newText, slot == "body")]
      else settings
  }

  /** One element after the text rewrite of replaceTextInTemplate. */
  function TextRewritten(e: map<string, Json>, textType: string, newText: Json, fontIsLarge: Json -> bool): (r: map<string, Json>)
    ensures forall k :: k != "text" && k != "settings" ==> Get(r, k) == Get(e, k)
    ensures r.Keys - {"text"} == e.Keys - {"text"}
    ensures Get(r, "text") ==
      if Get(e, "type") == Str("text") && TextSelected(e, textType, fontIsLarge) then newText
      else Get(e, "text")
    ensures "text" in r <==> "text" in e || (Get(e, "type") == Str("text") && TextSelected(e, textType, fontIsLarge))
    ensures Get(r, "settings") ==
      if Get(e, "type") == Str("component") && Get(e, "settings").Obj? then
        Obj(RetextSettings(Get(e, "settings").fields, textType, newText))
      else Get(e, "settings")
  {
    var kind := Get(e, "type");
    if kind == Str("text") then
      if TextSelected(e, textType, fontIsLarge) then e["text" := newText] else e
    else if kind == Str("component") && Truthy(Get(e, "settings")) && Get(e, "settings").Obj? then
      e["settings" := Obj(RetextSettings(Get(e, "settings").fields, textType, newText))]
    else e
  }

  /** The element selected for a media rewrite by `mediaType`. */
  predicate MediaSelected(e: map<string, Json>, mediaType: string) {
    var kind := Get(e, "type");
    || (mediaType == "image" && kind == Str("image"))
    || (mediaType == "video" && kind == Str("video"))
    || (mediaType == "logo" && kind == Str("image") && IsLikelyLogo(e))
  }

  /** One element after the media rewrite of replaceMediaInTemplate: a
      selected element gets the new `src`, and nothing else changes. */
  function MediaRewritten(e: map<string, Json>, mediaType: string, newSrc: Json): (r: map<string, Json>)
    ensures forall k :: k != "src" ==> Get(r, k) == Get(e, k)
    ensures r.Keys - {"src"} == e.Keys - {"src"}
    ensures Get(r, "src") == if MediaSelected(e, mediaType) then newSrc else Get(e, "src")
    ensures "src" in r <==> "src" in e || MediaSelected(e, mediaType)
  {
    if MediaSelected(e, mediaType) then e["src" := newSrc] else e
  }

  function EditElement(e: map<string, Json>, edit: ElementEdit): map<string, Json> {
    match edit
    case TextEdit(textType, newText, fontIsLarge) => TextRewritten(e, textType, newText, fontIsLarge)
    case MediaEdit(mediaType, newSrc) => MediaRewritten(e, mediaType, newSrc)
  }

  /** Whether a pass selects element `e`: for media, an element of the media
      type (a logo by the logo test); for text, a text element the
      classifier for `textType` picks, or a component whose container for
      `textType` is an object with a truthy `text`. */
  predicate Selected(e: map<string, Json>, edit: ElementEdit) {
    match edit
    case MediaEdit(mediaType, _) => MediaSelected(e, mediaType)
    case TextEdit(textType, _, fontIsLarge) =>
      || (Get(e, "type") == Str("text") && TextSelected(e, textType, fontIsLarge))
      || (&& Get(e, "type") == Str("component") && Get(e, "settings").Obj? && SlotFor(textType).Some?
          && Get(Get(e, "settings").fields, SlotFor(textType).value).Obj?
          && Truthy(Get(Get(Get(e, "settings").fields, SlotFor(textType).value).fields, "text")))
  }

  /** A pass leaves an element it does not select as it was. */
  lemma UnselectedElementUnchanged(e: map<string, Json>, edit: ElementEdit)
    requires !Selected(e, edit)
    ensures EditElement(e, edit) == e
  {
    match edit
    case MediaEdit(mediaType, newSrc) =>
    case TextEdit(textType, newText, fontIsLarge) =>
      if Get(e, "type") == Str("component") && Truthy(Get(e, "settings")) && Get(e, "settings").Obj? {
        var settings := Get(e, "settings").fields;
        assert RetextSettings(settings, textType, newText) == settings by {
          if SlotFor(textType).Some? && SlotFor(textType).value in settings {
            var slot := SlotFor(textType).value;
            assert RetextSlot(settings[slot], newText, slot == "body") == settings[slot];
            assert settings[slot := settings[slot]] == settings;
          }
        }
        assert e["settings" := Obj(settings)] == e;
      }
  }

  // ---------------------------------------------------------------------
  // The whole document

  /** The shape the rewriters' parameter type declares: every scene is an
      object, and every entry of an array-valued `elements` is an object. */
  predicate SceneWellTyped(scene: Json) {
    scene.Obj? &&
    (Get(scene.fields, "elements").Arr? ==>
      forall j :: 0 <= j < |Get(scene.fields, "elements").items| ==> Get(scene.fields, "elements").items[j].Obj?)
  }

  predicate ScenesWellTyped(scenes: seq<Json>) {
    forall i :: 0 <= i < |scenes| ==> SceneWellTyped(scenes[i])
  }

  /** The elements of a scene, when the rewriters visit them: `elements` must be an array. */
  function ElementsOf(scene: Json): Json {
    if scene.Obj? then Get(scene.fields, "elements") else Undefined
  }

  function EditedItems(items: seq<Json>, edit: ElementEdit): (r: seq<Json>)
    requires forall j :: 0 <= j < |items| ==> items[j].Obj?
    ensures |r| == |items|
    ensures forall j :: 0 <= j < |items| ==> r[j] == Obj(EditElement(items[j].fields, edit))
  {
    seq(|items|, j requires 0 <= j < |items| => Obj(EditElement(items[j].fields, edit)))
  }

  function EditedScene(scene: Json, edit: ElementEdit): Json
    requires SceneWellTyped(scene)
  {
    var elements := Get(scene.fields, "elements");
    if Truthy(elements) && elements.Arr? then
      Obj(scene.fields["elements" := Arr(EditedItems(elements.items, edit))])
    else scene
  }

  /** The scenes after one element pass. */
  function EditedScenes(scenes: seq<Json>, edit: ElementEdit): (r: seq<Json>)
    requires ScenesWellTyped(scenes)
    ensures |r| == |scenes| && ScenesWellTyped(r)
  {
    seq(|scenes|, i requires 0 <= i < |scenes| => EditedScene(scenes[i], edit))
  }

  /** One element pass keeps the shape of the document: as many scenes as
      before, each with the same keys and, apart from `elements`, the same
      values; an array of elements keeps its length and every element is
      edited where it stands; a scene whose `elements` is not an array is
      untouched. */
  lemma EditedScenesShape(scenes: seq<Json>, edit: ElementEdit)
    requires ScenesWellTyped(scenes)
    ensures var r := EditedScenes(scenes, edit);
      && (forall i :: 0 <= i < |scenes| ==>
           && r[i].fields.Keys == scenes[i].fields.Keys
           && (forall k :: k != "elements" ==> Get(r[i].fields, k) == Get(scenes[i].fields, k)))
      && (forall i :: 0 <= i < |scenes| && !ElementsOf(scenes[i]).Arr? ==> r[i] == scenes[i])
      && (forall i :: 0 <= i < |scenes| && ElementsOf(scenes[i]).Arr? ==>
           && ElementsOf(r[i]).Arr?
           && |ElementsOf(r[i]).items| == |ElementsOf(scenes[i]).items|
           && forall j :: 0 <= j < |ElementsOf(scenes[i]).items| ==>
                ElementsOf(r[i]).items[j] == Obj(EditElement(ElementsOf(scenes[i]).items[j].fields, edit)))
  {
  }

  /** replaceBackgroundColorInTemplate on the scenes. */
  function RecoloredScenes(scenes: seq<Json>, color: Json): (r: seq<Json>)
    requires ScenesWellTyped(scenes)
    ensures |r| == |scenes| && ScenesWellTyped(r)
  {
    seq(|scenes|, i requires 0 <= i < |scenes| => Obj(scenes[i].fields["background-color" := color]))
  }

  /** Every scene gets the colour, and no other key of any scene changes. */
  lemma RecoloredScenesSpec(scenes: seq<Json>, color: Json)
    requires ScenesWellTyped(scenes)
    ensures var r := RecoloredScenes(scenes, color);
      forall i :: 0 <= i < |scenes| ==>
        && r[i].fields.Keys == scenes[i].fields.Keys + {"background-color"}
        && Get(r[i].fields, "background-color") == color
        && (forall k :: k != "background-color" ==> Get(r[i].fields, k) == Get(scenes[i].fields, k))
  {
  }

  /** The documents the rewriters accept. */
  predicate Customizable(body: map<string, Json>) {
    Get(body, "scenes").Arr? && ScenesWellTyped(Get(body, "scenes").items)
  }

  /** One element pass, made only when the override is truthy. */
  function OptionallyEdited(scenes: seq<Json>, value: Json, edit: ElementEdit): (r: seq<Json>)
    requires ScenesWellTyped(scenes)
    ensures ScenesWellTyped(r) && |r| == |scenes|
    ensures !Truthy(value) ==> r == scenes
  {
    if Truthy(value) then EditedScenes(scenes, edit) else scenes
  }

  /** The scenes after the overrides of applyTemplateCustomizations, applied in
      the fixed order title, subtitle, body, image, video, logo, background
      colour, each only when truthy. */
  function CustomizedScenes(scenes: seq<Json>, text: map<string, Json>, media: map<string, Json>,
                            fontIsLarge: Json -> bool): (r: seq<Json>)
    requires ScenesWellTyped(scenes)
    ensures ScenesWellTyped(r) && |r| == |scenes|
  {
    var title, subtitle, bodyText := Get(text, "mainTitle"), Get(text, "subtitle"), Get(text, "bodyText");
    var image, video, logo := Get(media, "mainImageUrl"), Get(media, "backgroundVideoUrl"), Get(media, "logoUrl");
    var color := Get(media, "backgroundColor");
    var s1 := OptionallyEdited(scenes, title, TextEdit("title", title, fontIsLarge));
    var s2 := OptionallyEdited(s1, subtitle, TextEdit("subtitle", subtitle, fontIsLarge));
    var s3 := OptionallyEdited(s2, bodyText, TextEdit("body", bodyText, fontIsLarge));
    var s4 := OptionallyEdited(s3, image, MediaEdit("image", image));
    var s5 := OptionallyEdited(s4, video, MediaEdit("video", video));
    var s6 := OptionallyEdited(s5, logo, MediaEdit("logo", logo));
    if Truthy(color) then RecoloredScenes(s6, color) else s6
  }

  /** The document after applyTemplateCustomizations: nothing happens unless
      `scenes` is an array. */
  function Customized(body: map<string, Json>, text: map<string, Json>, media: map<string, Json>,
                      fontIsLarge: Json -> bool): map<string, Json>
    requires Get(body, "scenes").Arr? ==> Customizable(body)
  {
    var scenes := Get(body, "scenes");
    if !Truthy(scenes) || !scenes.Arr? then body
    else body["scenes" := Arr(CustomizedScenes(scenes.items, text, media, fontIsLarge))]
  }

  /** A worked example: a `mainTitle` override of "New" on a
      document whose one text element reads "Old" rewrites that element, and
      nothing else is overridden. */
  lemma TitleOverrideExample(fontIsLarge: Json -> bool)
    ensures var before := Obj(map["type" := Str("text"), "text" := Str("Old")]);
      var after := Obj(map["type" := Str("text"), "text" := Str("New")]);
      CustomizedScenes([Obj(map["elements" := Arr([before])])], map["mainTitle" := Str("New")], map[], fontIsLarge)
        == [Obj(map["elements" := Arr([after])])]
  {
    var before := map["type" := Str("text"), "text" := Str("Old")];
    var after := map["type" := Str("text"), "text" := Str("New")];
    var scenes := [Obj(map["elements" := Arr([Obj(before)])])];
    var text: map<string, Json> := map["mainTitle" := Str("New")];
    assert Get(text, "subtitle") == Undefined && Get(text, "bodyText") == Undefined;
    assert !HasLargeFont(before, fontIsLarge) by {
      assert Get(before, "settings") == Undefined;
    }
    assert IsLikelyTitle(before, fontIsLarge);
    assert TextRewritten(before, "title", Str("New"), fontIsLarge) == after;
    var edit := TextEdit("title", Str("New"), fontIsLarge);
    assert EditedItems([Obj(before)], edit) == [Obj(after)];
    var sceneFields := map["elements" := Arr([Obj(before)])];
    assert Get(sceneFields, "elements") == Arr([Obj(before)]);
    assert sceneFields["elements" := Arr([Obj(after)])] == map["elements" := Arr([Obj(after)])];
    assert EditedScene(scenes[0], edit) == Obj(map["elements" := Arr([Obj(after)])]);
    assert EditedScenes(scenes, TextEdit("title", Str("New"), fontIsLarge)) == [Obj(map["elements" := Arr([Obj(after)])])];
  }

  /** A media rewrite reads only `type`, `width`, `height`, `x` and `y`, which
      it never writes, so a rewritten element is selected again and
      rewriting it a second time changes nothing. */
  lemma MediaRewriteIdempotent(e: map<string, Json>, mediaType: string, newSrc: Json)
    ensures MediaRewritten(MediaRewritten(e, mediaType, newSrc), mediaType, newSrc) == MediaRewritten(e, mediaType, newSrc)
  {
    var once := MediaRewritten(e, mediaType, newSrc);
    assert MediaSelected(once, mediaType) == MediaSelected(e, mediaType) by {
      assert Get(once, "type") == Get(e, "type");
      assert IsLikelyLogo(once) == IsLikelyLogo(e) by {
        assert Get(once, "width") == Get(e, "width") && Get(once, "height") == Get(e, "height");
        assert Get(once, "x") == Get(e, "x") && Get(once, "y") == Get(e, "y");
      }
    }
  }

  /** replaceMediaInTemplate is idempotent: a second identical call leaves
      the document as the first one left it. */
  lemma MediaEditIdempotent(scenes: seq<Json>, mediaType: string, newSrc: Json)
    requires ScenesWellTyped(scenes)
    ensures EditedScenes(EditedScenes(scenes, MediaEdit(mediaType, newSrc)), MediaEdit(mediaType, newSrc))
            == EditedScenes(scenes, MediaEdit(mediaType, newSrc))
  {
    var edit := MediaEdit(mediaType, newSrc);
    var once := EditedScenes(scenes, edit);
    var twice := EditedScenes(once, edit);
    forall i | 0 <= i < |scenes|
      ensures twice[i] == once[i]
    {
      var elements := Get(scenes[i].fields, "elements");
      if Truthy(elements) && elements.Arr? {
        var items := EditedItems(elements.items, edit);
        assert once[i] == Obj(scenes[i].fields["elements" := Arr(items)]);
        assert Get(once[i].fields, "elements") == Arr(items);
        forall j | 0 <= j < |items|
          ensures EditElement(items[j].fields, edit) == items[j].fields
        {
          MediaRewriteIdempotent(elements.items[j].fields, mediaType, newSrc);
        }
        assert EditedItems(items, edit) == items;
        assert once[i].fields["elements" := Arr(items)] == once[i].fields;
      }
    }
  }

  /** replaceBackgroundColorInTemplate is idempotent. */
  lemma RecolorIdempotent(scenes: seq<Json>, color: Json)
    requires ScenesWellTyped(scenes)
    ensures RecoloredScenes(RecoloredScenes(scenes, color), color) == RecoloredScenes(scenes, color)
  {
    var once := RecoloredScenes(scenes, color);
    forall i | 0 <= i < |scenes|
      ensures RecoloredScenes(once, color)[i] == once[i]
    {
      assert once[i].fields["background-color" := color] == once[i].fields;
    }
  }

  /** An element pass that selects no element leaves the scenes as they were:
      the rewriters only ever write into selected elements and truthy slots. */
  lemma UnselectedPassIsNoOp(scenes: seq<Json>, edit: ElementEdit)
    requires ScenesWellTyped(scenes)
    requires forall i, j :: 0 <= i < |scenes| && ElementsOf(scenes[i]).Arr? && 0 <= j < |ElementsOf(scenes[i]).items| ==>
      !Selected(ElementsOf(scenes[i]).items[j].fields, edit)
    ensures EditedScenes(scenes, edit) == scenes
  {
    var r := EditedScenes(scenes, edit);
    forall i | 0 <= i < |scenes|
      ensures r[i] == scenes[i]
    {
      var elements := Get(scenes[i].fields, "elements");
      if Truthy(elements) && elements.Arr? {
        assert ElementsOf(scenes[i]) == elements;
        forall j | 0 <= j < |elements.items|
          ensures EditedItems(elements.items, edit)[j] == elements.items[j]
        {
          UnselectedElementUnchanged(elements.items[j].fields, edit);
        }
        assert EditedItems(elements.items, edit) == elements.items;
        assert scenes[i].fields["elements" := Arr(elements.items)] == scenes[i].fields;
      }
    }
  }

  /** With every override falsy, applyTemplateCustomizations leaves the
      document unchanged; and it never touches a document without a scenes
      array. */
  lemma CustomizedWithoutOverridesIsNoOp(body: map<string, Json>, text: map<string, Json>, media: map<string, Json>,
                                         fontIsLarge: Json -> bool)
    requires Get(body, "scenes").Arr? ==> Customizable(body)
    ensures !Get(body, "scenes").Arr? ==> Customized(body, text, media, fontIsLarge) == body
    ensures (forall k :: k in ["mainTitle", "subtitle", "bodyText"] ==> !Truthy(Get(text, k))) &&
            (forall k :: k in ["mainImageUrl", "backgroundVideoUrl", "logoUrl", "backgroundColor"] ==> !Truthy(Get(media, k)))
            ==> Customized(body, text, media, fontIsLarge) == body
  {
    if (forall k :: k in ["mainTitle", "subtitle", "bodyText"] ==> !Truthy(Get(text, k))) &&
       (forall k :: k in ["mainImageUrl", "backgroundVideoUrl", "logoUrl", "backgroundColor"] ==> !Truthy(Get(media, k))) &&
       Truthy(Get(body, "scenes")) && Get(body, "scenes").Arr?
    {
      assert !Truthy(Get(text, "mainTitle")) && !Truthy(Get(text, "subtitle")) && !Truthy(Get(text, "bodyText"));
      assert !Truthy(Get(media, "mainImageUrl")) && !Truthy(Get(media, "backgroundVideoUrl"));
      assert !Truthy(Get(media, "logoUrl")) && !Truthy(Get(media, "backgroundColor"));
      assert body["scenes" := Get(body, "scenes")] == body;
    }
  }

  lemma ScenesOverwritten(body: map<string, Json>, before: seq<Json>, after: seq<Json>)
    ensures body["scenes" := Arr(before)]["scenes" := Arr(after)] == body["scenes" := Arr(after)]
  {
  }

  // ---------------------------------------------------------------------
  // The document object and the in-place rewriters

  /** The `movieData` object the rewriters receive and mutate. */
  class MovieDocument {
    var body: map<string, Json>

    constructor (body: map<string, Json>)
      ensures this.body == body
    {
      this.body := body;
    }
  }

  /** replaceTextInTemplate. */
  method ReplaceTextInTemplate(doc: MovieDocument, textType: string, newText: Json, fontIsLarge: Json -> bool)
    requires Customizable(doc.body)
    modifies doc
    ensures Customizable(doc.body)
    ensures doc.body == old(doc.body)["scenes" :=
      Arr(EditedScenes(Get(old(doc.body), "scenes").items, TextEdit(textType, newText, fontIsLarge)))]
  {
    var scenes := Get(doc.body, "scenes").items;
    ghost var original := scenes;
    var i := 0;
    while i < |scenes|
      invariant 0 <= i <= |scenes| == |original|
      invariant forall k :: 0 <= k < i ==> scenes[k] == EditedScene(original[k], TextEdit(textType, newText, fontIsLarge))
      invariant forall k :: i <= k < |scenes| ==> scenes[k] == original[k]
    {
      var scene := scenes[i].fields;
      var elements := Get(scene, "elements");
      if Truthy(elements) && elements.Arr? {
        var items := elements.items;
        var j := 0;
        while j < |items|
          invariant 0 <= j <= |items| == |elements.items|
          invariant forall m :: 0 <= m < j ==>
            items[m] == Obj(TextRewritten(elements.items[m].fields, textType, newText, fontIsLarge))
          invariant forall m :: j <= m < |items| ==> items[m] == elements.items[m]
        {
          items := items[j := Obj(TextRewritten(items[j].fields, textType, newText, fontIsLarge))];
          j := j + 1;
        }
        assert items == EditedItems(elements.items, TextEdit(textType, newText, fontIsLarge));
        scenes := scenes[i := Obj(scene["elements" := Arr(items)])];
      }
      i := i + 1;
    }
    assert scenes == EditedScenes(original, TextEdit(textType, newText, fontIsLarge));
    doc.body := doc.body["scenes" := Arr(scenes)];
  }

  /** replaceMediaInTemplate. */
  method ReplaceMediaInTemplate(doc: MovieDocument, mediaType: string, newSrc: Json)
    requires Customizable(doc.body)
    modifies doc
    ensures Customizable(doc.body)
    ensures doc.body == old(doc.body)["scenes" :=
      Arr(EditedScenes(Get(old(doc.body), "scenes").items, MediaEdit(mediaType, newSrc)))]
  {
    var scenes := Get(doc.body, "scenes").items;
    ghost var original := scenes;
    var i := 0;
    while i < |scenes|
      invariant 0 <= i <= |scenes| == |original|
      invariant forall k :: 0 <= k < i ==> scenes[k] == EditedScene(original[k], MediaEdit(mediaType, newSrc))
      invariant forall k :: i <= k < |scenes| ==> scenes[k] == original[k]
    {
      var scene := scenes[i].fields;
      var elements := Get(scene, "elements");
      if Truthy(elements) && elements.Arr? {
        var items := elements.items;
        var j := 0;
        while j < |items|
          invariant 0 <= j <= |items| == |elements.items|
          invariant forall m :: 0 <= m < j ==> items[m] == Obj(MediaRewritten(elements.items[m].fields, mediaType, newSrc))
          invariant forall m :: j <= m < |items| ==> items[m] == elements.items[m]
        {
          items := items[j := Obj(MediaRewritten(items[j].fields, mediaType, newSrc))];
          j := j + 1;
        }
        assert items == EditedItems(elements.items, MediaEdit(mediaType, newSrc));
        scenes := scenes[i := Obj(scene["elements" := Arr(items)])];
      }
      i := i + 1;
    }
    assert scenes == EditedScenes(original, MediaEdit(mediaType, newSrc));
    doc.body := doc.body["scenes" := Arr(scenes)];
  }

  /** replaceBackgroundColorInTemplate. */
  method ReplaceBackgroundColorInTemplate(doc: MovieDocument, newColor: Json)
    requires Customizable(doc.body)
    modifies doc
    ensures Customizable(doc.body)
    ensures doc.body == old(doc.body)["scenes" := Arr(RecoloredScenes(Get(old(doc.body), "scenes").items, newColor))]
  {
    var scenes := Get(doc.body, "scenes").items;
    ghost var original := scenes;
    var i := 0;
    while i < |scenes|
      invariant 0 <= i <= |scenes| == |original|
      invariant forall k :: 0 <= k < i ==> scenes[k] == Obj(original[k].fields["background-color" := newColor])
      invariant forall k :: i <= k < |scenes| ==> scenes[k] == original[k]
    {
      scenes := scenes[i := Obj(scenes[i].fields["background-color" := newColor])];
      i := i + 1;
    }
    assert scenes == RecoloredScenes(original, newColor);
    doc.body := doc.body["scenes" := Arr(scenes)];
  }

  /** One `if (value) replace...InTemplate(movieData, type, value)` guard of
      applyTemplateCustomizations, applied to a document whose scenes are
      `done` and whose other keys are those of `base`. */
  method ApplyEdit(doc: MovieDocument, value: Json, edit: ElementEdit,
                   ghost base: map<string, Json>, ghost done: seq<Json>)
    requires ScenesWellTyped(done) && doc.body == base["scenes" := Arr(done)]
    modifies doc
    ensures doc.body == base["scenes" := Arr(OptionallyEdited(done, value, edit))]
  {
    if Truthy(value) {
      match edit
      case TextEdit(textType, newText, fontIsLarge) =>
        ReplaceTextInTemplate(doc, textType, newText, fontIsLarge);
      case MediaEdit(mediaType, newSrc) =>
        ReplaceMediaInTemplate(doc, mediaType, newSrc);
      ScenesOverwritten(base, done, EditedScenes(done, edit));
    }
  }

  /** applyTemplateCustomizations. */
  method ApplyTemplateCustomizations(doc: MovieDocument, text: map<string, Json>, media: map<string, Json>,
                                     fontIsLarge: Json -> bool)
    requires Get(doc.body, "scenes").Arr? ==> Customizable(doc.body)
    modifies doc
    ensures doc.body == Customized(old(doc.body), text, media, fontIsLarge)
  {
    var scenes := Get(doc.body, "scenes");
    if !Truthy(scenes) || !scenes.Arr? {
      return;
    }
    var title, subtitle, bodyText := Get(text, "mainTitle"), Get(text, "subtitle"), Get(text, "bodyText");
    var image, video, logo := Get(media, "mainImageUrl"), Get(media, "backgroundVideoUrl"), Get(media, "logoUrl");
    var color := Get(media, "backgroundColor");
    ghost var done := scenes.items;
    ApplyEdit(doc, title, TextEdit("title", title, fontIsLarge), old(doc.body), done);
    done := OptionallyEdited(done, title, TextEdit("title", title, fontIsLarge));
    ApplyEdit(doc, subtitle, TextEdit("subtitle", subtitle, fontIsLarge), old(doc.body), done);
    done := OptionallyEdited(done, subtitle, TextEdit("subtitle", subtitle, fontIsLarge));
    ApplyEdit(doc, bodyText, TextEdit("body", bodyText, fontIsLarge), old(doc.body), done);
    done := OptionallyEdited(done, bodyText, TextEdit("body", bodyText, fontIsLarge));
    ApplyEdit(doc, image, MediaEdit("image", image), old(doc.body), done);
    done := OptionallyEdited(done, image, MediaEdit("image", image));
    ApplyEdit(doc, video, MediaEdit("video", video), old(doc.body), done);
    done := OptionallyEdited(done, video, MediaEdit("video", video));
    ApplyEdit(doc, logo, MediaEdit("logo", logo), old(doc.body), done);
    done := OptionallyEdited(done, logo, MediaEdit("logo", logo));
    if Truthy(color) {
      ReplaceBackgroundColorInTemplate(doc, color);
    }
    assert Get(doc.body, "scenes").items == CustomizedScenes(scenes.items, text, media, fontIsLarge);
  }
}
