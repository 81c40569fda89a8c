/** The node's `execute`: for each input item, the selected operation builds
    its request from the item's parameters, and the results are collected in
    `returnData`; a failing item either ends the run or, with "continue on
    fail", leaves an `{error}` entry and the run goes on.

    The HTTP client, the template loader, the clock and the random file-name
    hash are the `Services` value: their answers are parameters. */
module Execute {
  import opened JsonValues
  import MovieConfig
  import SceneBuilder
  import Durations
  import TemplateVariables
  import Upload

  const DefaultBaseUrl := "https://api.json2video.com/v2"

  const DebugNote := "To load the template JSON, execute the node once after selecting a template."

  const MissingTemplateMessage := "Both template category and template name must be selected"

  /** An HTTP request as the node issues it: method, URL, query string and
      JSON body (`Undefined` for none). The API-key header is left out. */
  datatype Request = Request(httpMethod: string, url: string, query: map<string, string>, body: Json)

  /** Everything `execute` asks of the outside world. */
  datatype Services = Services(
    baseUrl: string,                                        // the credential's base URL, "" when unset
    continueOnFail: bool,
    request: Request -> Result<Json>,                       // the response, or the error's message
    loadTemplate: (string, string) -> Result<map<string, Json>>,
    download: string -> Result<Upload.Download>,
    clock: nat -> string,                                   // `new Date().toISOString()` while item i runs
    randomHash: nat -> string)                              // the random part of item i's file name

  /** The node parameters of one item. */
  datatype ItemParams = ItemParams(
    operation: string,
    inputMethod: string,
    movieConfig: map<string, Json>,
    movieDefinition: Result<Json>,                          // `JSON.parse` of the definition, or its error
    sceneValues: seq<Json>,
    projectId: string,
    templateCategory: string,
    templateName: string,
    templateVariables: seq<map<string, Json>>,
    upload: Upload.UploadParams,
    binary: Option<map<string, Upload.BinaryEntry>>)

  /** The collections have the shape the node's form gives them. */
  predicate ParamsWellTyped(p: ItemParams) {
    SceneBuilder.EntriesWellTyped(p.sceneValues) && TemplateVariables.NamesAreStrings(p.templateVariables)
  }

  /** What one item leaves: the entries it pushed onto `returnData`, and the
      message of the error it threw, if any. */
  datatype ItemOutcome = ItemOutcome(pushed: seq<Json>, error: Option<string>)

  function BaseUrl(s: Services): string {
    if s.baseUrl != "" then s.baseUrl else DefaultBaseUrl
  }

  function ErrorRecord(msg: string): Json {
    Obj(map["error" := Str(msg)])
  }

  // ---------------------------------------------------------------------
  // Specification of one item

  /** The duration pass, which runs only when `scenes` is a truthy array. */
  function NormalizedBody(movie: map<string, Json>): Result<map<string, Json>> {
    var scenes := Get(movie, "scenes");
    if Truthy(scenes) && scenes.Arr? then
      match Durations.Normalized(scenes.items)
      case Err(msg) => Err(msg)
      case Ok(items) => Ok(movie["scenes" := Arr(items)])
    else Ok(movie)
  }

  /** The body createMovie posts. The `template` input method reads a
      parameter the node does not declare, so it gets the default `{}` and
      the merge with it leaves the body as it is. */
  function MovieBody(p: ItemParams): Result<map<string, Json>>
    requires ParamsWellTyped(p)
  {
    var movie := MovieConfig.Merged(map[], p.movieConfig);
    if p.inputMethod == "template" then NormalizedBody(movie)
    else if p.inputMethod == "json" then
      match SceneBuilder.JsonScenes(p.movieDefinition)
      case Err(msg) => Err(msg)
      case Ok(scenes) => NormalizedBody(movie["scenes" := scenes])
    else if |p.sceneValues| > 0 then
      NormalizedBody(movie["scenes" := Arr(SceneBuilder.SimpleScenes(p.sceneValues))])
    else NormalizedBody(movie)
  }

  function MovieRequest(s: Services, movie: map<string, Json>): Request {
    Request("POST", BaseUrl(s) + "/movies", map[], Obj(movie))
  }

  /** The POST of a movie body after `pushed` is already on `returnData`. */
  function Sent(s: Services, body: Result<map<string, Json>>, pushed: seq<Json>): ItemOutcome {
    match body
    case Err(msg) => ItemOutcome(pushed, Some(msg))
    case Ok(movie) =>
      match s.request(MovieRequest(s, movie))
      case Err(msg) => ItemOutcome(pushed, Some(msg))
      case Ok(response) => ItemOutcome(pushed + [response], None)
  }

  function CreateMovieOutcome(p: ItemParams, s: Services): ItemOutcome
    requires ParamsWellTyped(p)
  {
    Sent(s, MovieBody(p), [])
  }

  function StatusRequest(s: Services, projectId: string): Request {
    Request("GET", BaseUrl(s) + "/movies", map["project" := projectId], Undefined)
  }

  function StatusOutcome(p: ItemParams, s: Services): ItemOutcome {
    match s.request(StatusRequest(s, p.projectId))
    case Err(msg) => ItemOutcome([], Some(msg))
    case Ok(response) => ItemOutcome([response], None)
  }

  function LoadFailureMessage(p: ItemParams, msg: string): string {
    "Failed to load template \"" + p.templateName + "\" from category \"" + p.templateCategory + "\": " + msg
  }

  /** The entry pushed for a template that carries truthy `_debug` info. */
  function DebugRecord(p: ItemParams, debugInfo: Json, now: string): Json {
    var loadedFrom := Prop(debugInfo, "loadedFrom");
    var timestamp := Prop(debugInfo, "timestamp");
    Obj(map[
      "templatePath" := (if loadedFrom.Str? then loadedFrom else Str("unknown source")),
      "templateName" := Str(p.templateCategory + "/" + p.templateName),
      "loadedAt" := (if timestamp.Str? then timestamp else Str(now)),
      "note" := Str(DebugNote)])
  }

  /** The loaded template with its `_debug` info removed, and the entries
      already pushed for it; or the error. */
  function LoadedTemplate(p: ItemParams, s: Services, i: nat): Result<(seq<Json>, map<string, Json>)> {
    if p.templateCategory == "" || p.templateName == "" then Err(MissingTemplateMessage)
    else
      match s.loadTemplate(p.templateCategory, p.templateName)
      case Err(msg) => Err(LoadFailureMessage(p, msg))
      case Ok(template) =>
        var debugInfo := Get(template, "_debug");
        if Truthy(debugInfo) then Ok(([DebugRecord(p, debugInfo, s.clock(i))], template - {"_debug"}))
        else Ok(([], template))
  }

  /** The body createMovieFromTemplate posts: the template under the movie
      settings, normalised, with the collected variables. */
  function TemplateBody(p: ItemParams, template: map<string, Json>): Result<map<string, Json>>
    requires ParamsWellTyped(p)
  {
    match NormalizedBody(MovieConfig.Merged(template, p.movieConfig))
    case Err(msg) => Err(msg)
    case Ok(movie) => Ok(TemplateVariables.WithVariables(movie, TemplateVariables.Variables(p.templateVariables)))
  }

  function TemplateOutcome(p: ItemParams, s: Services, i: nat): ItemOutcome
    requires ParamsWellTyped(p)
  {
    match LoadedTemplate(p, s, i)
    case Err(msg) => ItemOutcome([], Some(msg))
    case Ok(loaded) => Sent(s, TemplateBody(p, loaded.1), loaded.0)
  }

  function AssetRequest(s: Services, u: Upload.PreparedUpload, fileType: string): Request {
    Request("POST", BaseUrl(s) + "/assets", map[],
            Obj(map["file_name" := Str(u.fileName), "file_data" := Str(u.fileData), "type" := Str(fileType)]))
  }

  /** The entry pushed for a successful upload: its own fields, then the
      response's fields over them. */
  function UploadRecord(up: Upload.UploadParams, u: Upload.PreparedUpload, now: string, response: Json): Json {
    var own := map[
      "success" := Bool(true),
      "fileName" := Str(u.fileName),
      "fileType" := Str(up.fileType),
      "fileExtension" := Str(u.extension),
      "uploadMethod" := Str(up.inputMethod),
      "uploadTimestamp" := Str(now)];
    Obj(own + (if response.Obj? then response.fields else map[]))
  }

  function UploadOutcome(p: ItemParams, s: Services, i: nat): ItemOutcome {
    match Upload.Prepared(p.upload, p.binary, s.download, s.randomHash(i))
    case Err(msg) => ItemOutcome([], Some(msg))
    case Ok(u) =>
      match s.request(AssetRequest(s, u, p.upload.fileType))
      case Err(msg) => ItemOutcome([], Some(msg))
      case Ok(response) => ItemOutcome([UploadRecord(p.upload, u, s.clock(i), response)], None)
  }

  /** Item `i` under its operation; an unknown operation does nothing. */
  function ItemResult(p: ItemParams, s: Services, i: nat): ItemOutcome
    requires ParamsWellTyped(p)
  {
    if p.operation == "createMovie" then CreateMovieOutcome(p, s)
    else if p.operation == "checkMovieStatus" then StatusOutcome(p, s)
    else if p.operation == "createMovieFromTemplate" then TemplateOutcome(p, s, i)
    else if p.operation == "uploadFile" then UploadOutcome(p, s, i)
    else ItemOutcome([], None)
  }

  predicate AllWellTyped(items: seq<ItemParams>) {
    forall i :: 0 <= i < |items| ==> ParamsWellTyped(items[i])
  }

  /** `returnData` after a run whose items had the outcomes `outs`, or the
      error of the first failing item when failures are not continued. */
  function Collected(outs: seq<ItemOutcome>, continueOnFail: bool): Result<seq<Json>> {
    if outs == [] then Ok([])
    else
      var out := outs[|outs| - 1];
      match Collected(outs[..|outs| - 1], continueOnFail)
      case Err(msg) => Err(msg)
      case Ok(data) =>
        if out.error.None? then Ok(data + out.pushed)
        else if continueOnFail then Ok(data + out.pushed + [ErrorRecord(out.error.value)])
        else Err(out.error.value)
  }

  /** Each item's outcome; item `i` sees the clock and hash of its index. */
  function Outcomes(items: seq<ItemParams>, s: Services): (r: seq<ItemOutcome>)
    requires AllWellTyped(items)
    ensures |r| == |items|
  {
    seq(|items|, i requires 0 <= i < |items| => ItemResult(items[i], s, i))
  }

  /** The whole run. */
  function Run(items: seq<ItemParams>, s: Services): Result<seq<Json>>
    requires AllWellTyped(items)
  {
    Collected(Outcomes(items, s), s.continueOnFail)
  }

  // ---------------------------------------------------------------------
  // The operations

  /** The duration pass over the body's `scenes`. */
  method NormalizeBody(movie: map<string, Json>) returns (r: Result<map<string, Json>>)
    ensures r == NormalizedBody(movie)
  {
    var scenes := Get(movie, "scenes");
    if Truthy(scenes) && scenes.Arr? {
      var normalized := Durations.NormalizeDurations(scenes.items);
      if normalized.Err? {
        return Err(normalized.msg);
      }
      return Ok(movie["scenes" := Arr(normalized.value)]);
    }
    return Ok(movie);
  }

  /** createMovie up to its request. */
  method BuildMovieBody(p: ItemParams) returns (r: Result<map<string, Json>>)
    requires ParamsWellTyped(p)
    ensures r == MovieBody(p)
  {
    var movieData := MovieConfig.ApplyMovieConfig(map[], p.movieConfig);
    if p.inputMethod == "template" {
      // `{...{}, ...movieData}` is movieData
    } else if p.inputMethod == "json" {
      var scenes := SceneBuilder.JsonScenes(p.movieDefinition);
      if scenes.Err? {
        return Err(scenes.msg);
      }
      movieData := movieData["scenes" := scenes.value];
    } else {
      if |p.sceneValues| > 0 {
        var scenes := SceneBuilder.BuildSimpleScenes(p.sceneValues);
        movieData := movieData["scenes" := Arr(scenes)];
      }
    }
    r := NormalizeBody(movieData);
  }

  /** The POST to `/movies` and the push of its response. */
  method PostMovie(s: Services, movie: map<string, Json>, returnData: seq<Json>) returns (out: ItemOutcome)
    ensures out == Sent(s, Ok(movie), returnData)
  {
    var response := s.request(MovieRequest(s, movie));
    if response.Err? {
      return ItemOutcome(returnData, Some(response.msg));
    }
    return ItemOutcome(returnData + [response.value], None);
  }

  method CreateMovie(p: ItemParams, s: Services) returns (out: ItemOutcome)
    requires ParamsWellTyped(p)
    ensures out == CreateMovieOutcome(p, s)
  {
    var body := BuildMovieBody(p);
    if body.Err? {
      return ItemOutcome([], Some(body.msg));
    }
    out := PostMovie(s, body.value, []);
  }

  method CheckMovieStatus(p: ItemParams, s: Services) returns (out: ItemOutcome)
    ensures out == StatusOutcome(p, s)
  {
    var response := s.request(StatusRequest(s, p.projectId));
    if response.Err? {
      return ItemOutcome([], Some(response.msg));
    }
    return ItemOutcome([response.value], None);
  }

  /** createMovieFromTemplate up to its request, given the template. */
  method BuildTemplateBody(p: ItemParams, templateData: map<string, Json>) returns (r: Result<map<string, Json>>)
    requires ParamsWellTyped(p)
    ensures r == TemplateBody(p, templateData)
  {
    var movieData := MovieConfig.ApplyMovieConfig(templateData, p.movieConfig);
    var normalized := NormalizeBody(movieData);
    if normalized.Err? {
      return Err(normalized.msg);
    }
    movieData := normalized.value;
    var variables: map<string, Json> := map[];
    variables := TemplateVariables.CollectVariables(p.templateVariables);
    if variables != map[] {
      movieData := movieData["variables" := Obj(variables)];
    }
    return Ok(movieData);
  }

  method CreateMovieFromTemplate(p: ItemParams, s: Services, i: nat) returns (out: ItemOutcome)
    requires ParamsWellTyped(p)
    ensures out == TemplateOutcome(p, s, i)
  {
    var returnData: seq<Json> := [];
    if p.templateCategory == "" || p.templateName == "" {
      return ItemOutcome([], Some(MissingTemplateMessage));
    }
    var loaded := s.loadTemplate(p.templateCategory, p.templateName);
    if loaded.Err? {
      return ItemOutcome([], Some(LoadFailureMessage(p, loaded.msg)));
    }
    var templateData := loaded.value;
    var debugInfo := Get(templateData, "_debug");
    if Truthy(debugInfo) {
      returnData := returnData + [DebugRecord(p, debugInfo, s.clock(i))];
      templateData := templateData - {"_debug"};
    }
    var body := BuildTemplateBody(p, templateData);
    if body.Err? {
      return ItemOutcome(returnData, Some(body.msg));
    }
    out := PostMovie(s, body.value, returnData);
  }

  method UploadFile(p: ItemParams, s: Services, i: nat) returns (out: ItemOutcome)
    ensures out == UploadOutcome(p, s, i)
  {
    var prepared := Upload.PrepareUpload(p.upload, p.binary, s.download, s.randomHash(i));
    if prepared.Err? {
      return ItemOutcome([], Some(prepared.msg));
    }
    var response := s.request(AssetRequest(s, prepared.value, p.upload.fileType));
    if response.Err? {
      return ItemOutcome([], Some(response.msg));
    }
    return ItemOutcome([UploadRecord(p.upload, prepared.value, s.clock(i), response.value)], None);
  }

  method ProcessItem(p: ItemParams, s: Services, i: nat) returns (out: ItemOutcome)
    requires ParamsWellTyped(p)
    ensures out == ItemResult(p, s, i)
  {
    if p.operation == "createMovie" {
      out := CreateMovie(p, s);
    } else if p.operation == "checkMovieStatus" {
      out := CheckMovieStatus(p, s);
    } else if p.operation == "createMovieFromTemplate" {
      out := CreateMovieFromTemplate(p, s, i);
    } else if p.operation == "uploadFile" {
      out := UploadFile(p, s, i);
    } else {
      out := ItemOutcome([], None);
    }
  }

  /** `execute`'s loop over the items. */
  method Execute(items: seq<ItemParams>, s: Services) returns (r: Result<seq<Json>>)
    requires AllWellTyped(items)
    ensures r == Run(items, s)
  {
    var returnData: seq<Json> := [];
    ghost var all := Outcomes(items, s);
    ghost var outs: seq<ItemOutcome> := [];
    for i := 0 to |items|
      invariant outs == all[..i]
      invariant Collected(outs, s.continueOnFail) == Ok(returnData)
    {
      var out := ProcessItem(items[i], s, i);
      assert out == all[i];
      PrefixGrows(all, i);
      Appended(outs, out);
      outs := outs + [out];
      returnData := returnData + out.pushed;
      if out.error.Some? {
        if s.continueOnFail {
          returnData := returnData + [ErrorRecord(out.error.value)];
          continue;
        }
        CollectedKeepsFirstError(all, i + 1, s.continueOnFail);
        return Err(out.error.value);
      }
    }
    assert all[..|items|] == all;
    return Ok(returnData);
  }

  // ---------------------------------------------------------------------
  // Properties of the run

  /** Once some items have failed without "continue on fail", the later
      items do not change the outcome. */
  lemma {:induction false} CollectedKeepsFirstError(outs: seq<ItemOutcome>, k: nat, continueOnFail: bool)
    requires k <= |outs|
    requires Collected(outs[..k], continueOnFail).Err?
    ensures Collected(outs, continueOnFail) == Collected(outs[..k], continueOnFail)
    decreases |outs| - k
  {
    if k < |outs| {
      var n := |outs| - 1;
      assert outs[..n][..k] == outs[..k];
      CollectedKeepsFirstError(outs[..n], k, continueOnFail);
    } else {
      assert outs[..k] == outs;
    }
  }

  /** With "continue on fail" the run never fails. */
  lemma {:induction false} ContinueOnFailNeverFails(outs: seq<ItemOutcome>)
    ensures Collected(outs, true).Ok?
  {
    if outs != [] {
      ContinueOnFailNeverFails(outs[..|outs| - 1]);
    }
  }

  /** With "continue on fail" a failing item leaves what it pushed and then
      its `{error}` entry, and the run goes on. */
  lemma FailedItemLeavesErrorEntry(outs: seq<ItemOutcome>, k: nat)
    requires k < |outs| && outs[k].error.Some?
    ensures Collected(outs[..k], true).Ok?
    ensures Collected(outs[..k + 1], true) ==
      Ok(Collected(outs[..k], true).value + outs[k].pushed + [ErrorRecord(outs[k].error.value)])
  {
    ContinueOnFailNeverFails(outs[..k]);
    assert outs[..k + 1][..k] == outs[..k];
  }

  /** Item `k` is the first that fails. */
  predicate FirstFailure(outs: seq<ItemOutcome>, k: int) {
    && 0 <= k < |outs|
    && outs[k].error.Some?
    && forall j :: 0 <= j < k ==> outs[j].error.None?
  }

  /** Without "continue on fail" the run fails exactly when some item
      fails, and with the error of the first one. */
  lemma {:induction false} RunFailsAtFirstFailure(outs: seq<ItemOutcome>)
    ensures Collected(outs, false).Err? <==> exists k :: 0 <= k < |outs| && outs[k].error.Some?
    ensures Collected(outs, false).Err? ==>
      exists k :: FirstFailure(outs, k) && Collected(outs, false).msg == outs[k].error.value
  {
    if outs != [] {
      var n := |outs| - 1;
      var init := outs[..n];
      RunFailsAtFirstFailure(init);
      if Collected(init, false).Err? {
        var k :| FirstFailure(init, k) && Collected(init, false).msg == init[k].error.value;
        assert FirstFailure(outs, k);
      } else if outs[n].error.Some? {
        assert FirstFailure(outs, n);
      } else {
        forall k | 0 <= k < |outs|
          ensures outs[k].error.None?
        {
          if k < n {
            assert init[k] == outs[k];
          }
        }
      }
    }
  }

  /** Without failures, `returnData` is every item's entries in item order. */
  lemma {:induction false} RunWithoutFailures(outs: seq<ItemOutcome>, continueOnFail: bool)
    requires forall k :: 0 <= k < |outs| ==> outs[k].error.None?
    ensures Collected(outs, continueOnFail) == Ok(Flattened(outs))
  {
    if outs != [] {
      RunWithoutFailures(outs[..|outs| - 1], continueOnFail);
    }
  }

  function Flattened(outs: seq<ItemOutcome>): seq<Json> {
    if outs == [] then [] else Flattened(outs[..|outs| - 1]) + outs[|outs| - 1].pushed
  }

  // ---------------------------------------------------------------------
  // Properties of the bodies

  /** The duration pass touches only `scenes`, and the scenes it leaves
      have no zero duration, on a scene or on an element. */
  lemma NormalizedBodySpec(movie: map<string, Json>)
    requires NormalizedBody(movie).Ok?
    ensures var body := NormalizedBody(movie).value;
      && body.Keys == movie.Keys
      && (forall k :: k != "scenes" ==> Get(body, k) == Get(movie, k))
      && (Get(movie, "scenes").Arr? <==> Get(body, "scenes").Arr?)
      && (!Get(movie, "scenes").Arr? ==> body == movie)
    ensures var scenes := Get(NormalizedBody(movie).value, "scenes");
      scenes.Arr? ==>
        forall i :: 0 <= i < |scenes.items| && scenes.items[i].Obj? ==>
          && Get(scenes.items[i].fields, "duration") != Num(0.0)
          && forall j :: 0 <= j < |Durations.ElementsVisited(scenes.items[i])| && Durations.ElementsVisited(scenes.items[i])[j].Obj? ==>
               Get(Durations.ElementsVisited(scenes.items[i])[j].fields, "duration") != Num(0.0)
  {
    if Get(movie, "scenes").Arr? {
      Durations.PassRemovesZeroDurations(Get(movie, "scenes").items);
    }
  }

  /** In simple mode with no scene entries the body has no `scenes` at
      all: it is the movie settings alone. */
  lemma NoEntriesNoScenes(p: ItemParams)
    requires ParamsWellTyped(p)
    requires p.inputMethod != "json" && p.inputMethod != "template" && |p.sceneValues| == 0
    ensures MovieBody(p) == Ok(MovieConfig.Merged(map[], p.movieConfig))
    ensures "scenes" !in MovieBody(p).value
  {
    assert "scenes" !in MovieConfig.Merged(map[], p.movieConfig);
  }

  /** In simple mode with scene entries the body's scenes are the built
      ones, normalised. */
  lemma SimpleModeSendsBuiltScenes(p: ItemParams)
    requires ParamsWellTyped(p)
    requires p.inputMethod != "json" && p.inputMethod != "template" && |p.sceneValues| > 0
    ensures MovieBody(p).Ok? <==> Durations.Normalized(SceneBuilder.SimpleScenes(p.sceneValues)).Ok?
    ensures MovieBody(p).Ok? ==>
      Get(MovieBody(p).value, "scenes") == Arr(Durations.Normalized(SceneBuilder.SimpleScenes(p.sceneValues)).value)
  {
    var scenes := SceneBuilder.SimpleScenes(p.sceneValues);
    var movie := MovieConfig.Merged(map[], p.movieConfig)["scenes" := Arr(scenes)];
    assert MovieBody(p) == NormalizedBody(movie);
    assert Get(movie, "scenes") == Arr(scenes);
  }

  /** The template body keeps every template key the movie settings do not
      override, takes the copied settings, and sets `variables` only when
      one survives. */
  lemma TemplateBodySpec(p: ItemParams, template: map<string, Json>)
    requires ParamsWellTyped(p)
    requires TemplateBody(p, template).Ok?
    ensures var body := TemplateBody(p, template).value;
      && (forall k :: k != "scenes" && k != "variables" ==>
            Get(body, k) == if MovieConfig.Copied(p.movieConfig, k) then Get(p.movieConfig, k) else Get(template, k))
      && Get(body, "variables") ==
           (if TemplateVariables.Variables(p.templateVariables) != map[]
            then Obj(TemplateVariables.Variables(p.templateVariables)) else Get(template, "variables"))
  {
    MovieConfig.MergedGet(template, p.movieConfig);
    NormalizedBodySpec(MovieConfig.Merged(template, p.movieConfig));
  }

  /** Truthy `_debug` info never reaches the request; falsy `_debug` is
      not deleted and is sent as it was. */
  lemma DebugInfoHandling(p: ItemParams, s: Services, i: nat)
    requires ParamsWellTyped(p)
    requires LoadedTemplate(p, s, i).Ok?
    requires TemplateBody(p, LoadedTemplate(p, s, i).value.1).Ok?
    ensures var template := s.loadTemplate(p.templateCategory, p.templateName).value;
      var body := TemplateBody(p, LoadedTemplate(p, s, i).value.1).value;
      && (Truthy(Get(template, "_debug")) ==> "_debug" !in body)
      && (!Truthy(Get(template, "_debug")) ==> Get(body, "_debug") == Get(template, "_debug"))
  {
    var template := s.loadTemplate(p.templateCategory, p.templateName).value;
    var stripped := LoadedTemplate(p, s, i).value.1;
    var merged := MovieConfig.Merged(stripped, p.movieConfig);
    MovieConfig.MergedGet(stripped, p.movieConfig);
    assert !MovieConfig.Copied(p.movieConfig, "_debug");
    NormalizedBodySpec(merged);
    var normalized := NormalizedBody(merged).value;
    var vars := TemplateVariables.Variables(p.templateVariables);
    assert TemplateBody(p, stripped).value == TemplateVariables.WithVariables(normalized, vars);
    assert Get(TemplateVariables.WithVariables(normalized, vars), "_debug") == Get(normalized, "_debug");
    assert "_debug" in TemplateVariables.WithVariables(normalized, vars) <==> "_debug" in normalized;
    if Truthy(Get(template, "_debug")) {
      assert stripped == template - {"_debug"};
    } else {
      assert stripped == template;
    }
  }

  /** checkMovieStatus issues one GET of `/movies` under the base URL, with
      the project id as its only query parameter and no body, and pushes the
      response exactly when the request succeeds. */
  lemma StatusOutcomeSpec(p: ItemParams, s: Services)
    ensures var req := StatusRequest(s, p.projectId);
      && req.httpMethod == "GET" && req.url == BaseUrl(s) + "/movies"
      && req.query == map["project" := p.projectId] && req.body == Undefined
      && (StatusOutcome(p, s).error.None? <==> s.request(req).Ok?)
      && (s.request(req).Ok? ==> StatusOutcome(p, s).pushed == [s.request(req).value])
      && (s.request(req).Err? ==> StatusOutcome(p, s) == ItemOutcome([], Some(s.request(req).msg)))
  {
  }

  /** The debug entry is pushed before anything else happens to the
      template, so it stays on `returnData` even when a later step fails. */
  lemma DebugRecordComesFirst(p: ItemParams, s: Services, i: nat)
    requires ParamsWellTyped(p)
    requires p.templateCategory != "" && p.templateName != ""
    requires s.loadTemplate(p.templateCategory, p.templateName).Ok?
    requires Truthy(Get(s.loadTemplate(p.templateCategory, p.templateName).value, "_debug"))
    ensures var out := TemplateOutcome(p, s, i);
      var debugInfo := Get(s.loadTemplate(p.templateCategory, p.templateName).value, "_debug");
      && 1 <= |out.pushed| <= 2
      && out.pushed[0] == DebugRecord(p, debugInfo, s.clock(i))
      && (out.error.Some? <==> |out.pushed| == 1)
  {
  }

  /** A successful upload pushes one entry: its extension passed the
      allow-list of its file type, and the response's fields win over the
      node's own. */
  lemma UploadRecordSpec(p: ItemParams, s: Services, i: nat)
    requires UploadOutcome(p, s, i).error.None?
    ensures var u := Upload.Prepared(p.upload, p.binary, s.download, s.randomHash(i));
      var out := UploadOutcome(p, s, i);
      && u.Ok? && Upload.Allowed(p.upload.fileType, u.value.extension)
      && |out.pushed| == 1 && out.pushed[0].Obj?
      && var record := out.pushed[0].fields;
         var response := s.request(AssetRequest(s, u.value, p.upload.fileType)).value;
         && (response.Obj? ==> forall k :: k in response.fields ==> Get(record, k) == response.fields[k])
         && (forall k :: !(response.Obj? && k in response.fields) ==>
               Get(record, k) == Get(map["success" := Bool(true), "fileName" := Str(u.value.fileName),
                                         "fileType" := Str(p.upload.fileType), "fileExtension" := Str(u.value.extension),
                                         "uploadMethod" := Str(p.upload.inputMethod), "uploadTimestamp" := Str(s.clock(i))], k))
  {
  }

  /** A worked batch: three items, the second failing, with "continue
      on fail": three entries, the second being its `{error}` entry. */
  lemma ContinueOnFailBatchExample(first: Json, msg: string, third: Json)
    ensures Collected([ItemOutcome([first], None), ItemOutcome([], Some(msg)), ItemOutcome([third], None)], true)
            == Ok([first, ErrorRecord(msg), third])
  {
    var a, b, c := ItemOutcome([first], None), ItemOutcome([], Some(msg)), ItemOutcome([third], None);
    var s1, s2, s3 := [a], [a, b], [a, b, c];
    assert s1[..0] == [] && s1[0] == a && s1 != [];
    assert Collected([], true) == Ok([]);
    assert [] + a.pushed == [first];
    assert Collected(s1, true) == Ok([first]);
    assert s2[..1] == s1 && s2[1] == b;
    assert [first] + b.pushed + [ErrorRecord(msg)] == [first, ErrorRecord(msg)];
    assert Collected(s2, true) == Ok([first, ErrorRecord(msg)]);
    assert s3[..2] == s2 && s3[2] == c;
    assert [first, ErrorRecord(msg)] + [third] == [first, ErrorRecord(msg), third];
  }

  /** A worked end-to-end case: a JSON definition whose scene and
      text element have duration 0 is sent with both durations 1. */
  lemma JsonModeExample(p: ItemParams)
    requires ParamsWellTyped(p)
    requires p.inputMethod == "json" && p.movieConfig == map[]
    requires p.movieDefinition == Ok(Obj(map["scenes" := Arr([
      Obj(map["duration" := Num(0.0), "elements" := Arr([
        Obj(map["type" := Str("text"), "text" := Str("Hi"), "duration" := Num(0.0)])])])])]))
    ensures MovieBody(p) == Ok(map["scenes" := Arr([
      Obj(map["duration" := Num(1.0), "elements" := Arr([
        Obj(map["type" := Str("text"), "text" := Str("Hi"), "duration" := Num(1.0)])])])])])
  {
    var scene := Obj(map["duration" := Num(0.0), "elements" := Arr([
      Obj(map["type" := Str("text"), "text" := Str("Hi"), "duration" := Num(0.0)])])]);
    var fixedScene := Obj(map["duration" := Num(1.0), "elements" := Arr([
      Obj(map["type" := Str("text"), "text" := Str("Hi"), "duration" := Num(1.0)])])]);
    assert MovieConfig.Merged(map[], map[]) == map[];
    assert SceneBuilder.JsonScenes(p.movieDefinition) == Ok(Arr([scene]));
    ExampleScenesNormalized(scene, fixedScene);
    assert map[]["scenes" := Arr([scene])]["scenes" := Arr([fixedScene])] == map["scenes" := Arr([fixedScene])];
  }

  /** The duration pass on the scene of the end-to-end case. */
  lemma ExampleScenesNormalized(scene: Json, fixedScene: Json)
    requires scene == Obj(map["duration" := Num(0.0), "elements" := Arr([
      Obj(map["type" := Str("text"), "text" := Str("Hi"), "duration" := Num(0.0)])])])
    requires fixedScene == Obj(map["duration" := Num(1.0), "elements" := Arr([
      Obj(map["type" := Str("text"), "text" := Str("Hi"), "duration" := Num(1.0)])])])
    ensures Durations.Normalized([scene]) == Ok([fixedScene])
  {
    var element := Obj(map["type" := Str("text"), "text" := Str("Hi"), "duration" := Num(0.0)]);
    var fixedElement := Obj(map["type" := Str("text"), "text" := Str("Hi"), "duration" := Num(1.0)]);
    ExampleSceneFixed(element, fixedElement, scene, fixedScene);
    assert Durations.ElementsVisited(scene) == [element];
    assert Durations.VisitOrder([scene]) == [scene, element] by {
      assert [scene][..0] == [];
    }
    assert Durations.FirstNullish([scene, element]) == None by {
      assert [scene, element][1..] == [element];
      assert [element][1..] == [];
    }
    assert seq(1, i requires 0 <= i < 1 => Durations.NormalizedScene([scene][i])) == [fixedScene];
  }

  /** The pass on that one scene: both zero durations become 1. */
  lemma ExampleSceneFixed(element: Json, fixedElement: Json, scene: Json, fixedScene: Json)
    requires element == Obj(map["type" := Str("text"), "text" := Str("Hi"), "duration" := Num(0.0)])
    requires fixedElement == Obj(map["type" := Str("text"), "text" := Str("Hi"), "duration" := Num(1.0)])
    requires scene == Obj(map["duration" := Num(0.0), "elements" := Arr([element])])
    requires fixedScene == Obj(map["duration" := Num(1.0), "elements" := Arr([fixedElement])])
    ensures Durations.NormalizedScene(scene) == fixedScene
  {
    assert Durations.NormalizedElement(element) == fixedElement;
    var fields := map["duration" := Num(0.0), "elements" := Arr([element])];
    var fixedFields := Durations.FixedDuration(fields);
    assert fixedFields == map["duration" := Num(1.0), "elements" := Arr([element])];
    assert Get(fixedFields, "elements") == Arr([element]);
    assert seq(1, j requires 0 <= j < 1 => Durations.NormalizedElement([element][j])) == [fixedElement];
    assert fixedFields["elements" := Arr([fixedElement])] == fixedScene.fields;
  }
}
