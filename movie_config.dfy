/** The movie-level settings `execute` copies from the `movieConfig`
    collection onto the request body, for both createMovie and
    createMovieFromTemplate. */
module MovieConfig {
  import opened JsonValues

  /** The settings the merge may copy. */
  const ConfigKeys: set<string> := {"resolution", "width", "height", "quality", "draft", "cache", "comment"}

  /** Whether the merge copies `config[k]` onto the movie: `resolution`,
      `quality` and `comment` when truthy; `width` and `height` when truthy
      and only for the `custom` resolution; `draft` and `cache` whenever they
      are defined, `false` included; no other key. */
  predicate Copied(config: map<string, Json>, k: string) {
    if k == "resolution" || k == "quality" || k == "comment" then Truthy(Get(config, k))
    else if k == "width" || k == "height" then Get(config, "resolution") == Str("custom") && Truthy(Get(config, k))
    else if k == "draft" || k == "cache" then Get(config, k) != Undefined
    else false
  }

  /** The merged movie as one map: a key of `base` or a copied setting, with
      the setting's value when it is copied and the base's otherwise. */
  function Merged(base: map<string, Json>, config: map<string, Json>): map<string, Json> {
    map k | k in base.Keys + config.Keys && (k in base || Copied(config, k)) ::
      if Copied(config, k) then Get(config, k) else Get(base, k)
  }

  /** `movie` is `base` with the copied settings among `done` applied. */
  ghost predicate MergedUpTo(movie: map<string, Json>, base: map<string, Json>, config: map<string, Json>, done: set<string>) {
    && (forall k :: Get(movie, k) == if k in done && Copied(config, k) then Get(config, k) else Get(base, k))
    && (forall k :: k in movie <==> k in base || (k in done && Copied(config, k)))
  }

  /** One setting copied when the merge copies it. */
  ghost function Step(movie: map<string, Json>, config: map<string, Json>, key: string): map<string, Json> {
    if Copied(config, key) then movie[key := Get(config, key)] else movie
  }

  lemma MergeStep(movie: map<string, Json>, base: map<string, Json>, config: map<string, Json>, done: set<string>, key: string)
    requires MergedUpTo(movie, base, config, done) && key !in done
    ensures MergedUpTo(Step(movie, config, key), base, config, done + {key})
  {
  }

  /** The first three steps, in the source's order, copy the copied display settings. */
  lemma DisplayStepsMerge(base: map<string, Json>, config: map<string, Json>)
    ensures MergedUpTo(Step(Step(Step(base, config, "resolution"), config, "width"), config, "height"),
                       base, config, {"resolution", "width", "height"})
  {
    var m1 := Step(base, config, "resolution");
    var m2 := Step(m1, config, "width");
    assert MergedUpTo(base, base, config, {});
    MergeStep(base, base, config, {}, "resolution");
    MergeStep(m1, base, config, {"resolution"}, "width");
    MergeStep(m2, base, config, {"resolution", "width"}, "height");
  }

  /** The seven steps, in the source's order, copy exactly the copied settings. */
  lemma StepsMerge(base: map<string, Json>, config: map<string, Json>)
    ensures MergedUpTo(Step(Step(Step(Step(Step(Step(Step(base, config, "resolution"), config, "width"), config, "height"),
                              config, "quality"), config, "draft"), config, "cache"), config, "comment"),
                       base, config, ConfigKeys)
  {
    var m3 := Step(Step(Step(base, config, "resolution"), config, "width"), config, "height");
    var m4 := Step(m3, config, "quality");
    var m5 := Step(m4, config, "draft");
    var m6 := Step(m5, config, "cache");
    DisplayStepsMerge(base, config);
    MergeStep(m3, base, config, {"resolution", "width", "height"}, "quality");
    MergeStep(m4, base, config, {"resolution", "width", "height", "quality"}, "draft");
    MergeStep(m5, base, config, {"resolution", "width", "height", "quality", "draft"}, "cache");
    MergeStep(m6, base, config, {"resolution", "width", "height", "quality", "draft", "cache"}, "comment");
    assert {"resolution", "width", "height", "quality", "draft", "cache"} + {"comment"} == ConfigKeys;
  }

  lemma MergeComplete(movie: map<string, Json>, base: map<string, Json>, config: map<string, Json>)
    requires MergedUpTo(movie, base, config, ConfigKeys)
    ensures forall k :: Get(movie, k) == if Copied(config, k) then Get(config, k) else Get(base, k)
    ensures forall k :: k in movie <==> k in base || Copied(config, k)
  {
    forall k | Copied(config, k)
      ensures k in ConfigKeys
    {
      OnlyConfigKeysCopied(config, k);
    }
  }

  /** The merge onto `base` (`{}` for createMovie, the template for
      createMovieFromTemplate): every copied setting overrides the base's
      value, and every other key of the base is kept as it was. */
  method ApplyMovieConfig(base: map<string, Json>, config: map<string, Json>) returns (movie: map<string, Json>)
    ensures forall k :: Get(movie, k) == if Copied(config, k) then Get(config, k) else Get(base, k)
    ensures forall k :: k in movie <==> k in base || Copied(config, k)
    ensures movie == Merged(base, config)
  {
    movie := base;
    var resolution := Get(config, "resolution");
    if Truthy(resolution) {
      movie := movie["resolution" := resolution];
      if resolution == Str("custom") {
        if Truthy(Get(config, "width")) {
          movie := movie["width" := Get(config, "width")];
        }
        if Truthy(Get(config, "height")) {
          movie := movie["height" := Get(config, "height")];
        }
      }
    }
    ghost var m1 := Step(base, config, "resolution");
    ghost var m2 := Step(m1, config, "width");
    assert movie == Step(m2, config, "height");
    if Truthy(Get(config, "quality")) {
      movie := movie["quality" := Get(config, "quality")];
    }
    ghost var m3 := Step(m2, config, "height");
    assert movie == Step(m3, config, "quality");
    if Get(config, "draft") != Undefined {
      movie := movie["draft" := Get(config, "draft")];
    }
    ghost var m4 := Step(m3, config, "quality");
    assert movie == Step(m4, config, "draft");
    if Get(config, "cache") != Undefined {
      movie := movie["cache" := Get(config, "cache")];
    }
    ghost var m5 := Step(m4, config, "draft");
    assert movie == Step(m5, config, "cache");
    if Truthy(Get(config, "comment")) {
      movie := movie["comment" := Get(config, "comment")];
    }
    ghost var m6 := Step(m5, config, "cache");
    assert movie == Step(m6, config, "comment");
    StepsAreTheMerge(base, config);
    MergedGet(base, config);
  }

  /** The seven steps, in the source's order, compute `Merged`. */
  lemma StepsAreTheMerge(base: map<string, Json>, config: map<string, Json>)
    ensures Step(Step(Step(Step(Step(Step(Step(base, config, "resolution"), config, "width"), config, "height"),
                 config, "quality"), config, "draft"), config, "cache"), config, "comment") == Merged(base, config)
  {
    var movie := Step(Step(Step(Step(Step(Step(Step(base, config, "resolution"), config, "width"), config, "height"),
                   config, "quality"), config, "draft"), config, "cache"), config, "comment");
    StepsMerge(base, config);
    MergeComplete(movie, base, config);
    MergedIsTheMerge(movie, base, config);
  }

  /** Any map with the merge's keys and values is `Merged`. */
  lemma MergedIsTheMerge(movie: map<string, Json>, base: map<string, Json>, config: map<string, Json>)
    requires forall k :: Get(movie, k) == if Copied(config, k) then Get(config, k) else Get(base, k)
    requires forall k :: k in movie <==> k in base || Copied(config, k)
    ensures movie == Merged(base, config)
  {
    var merged := Merged(base, config);
    forall k | Copied(config, k)
      ensures k in config
    {
      OnlyConfigKeysCopied(config, k);
    }
    assert movie.Keys == merged.Keys;
    forall k | k in movie
      ensures movie[k] == merged[k]
    {
      assert Get(movie, k) == movie[k];
    }
  }

  /** Only the seven settings can ever be copied, so any other key of the
      configuration never reaches the movie. */
  lemma OnlyConfigKeysCopied(config: map<string, Json>, k: string)
    requires Copied(config, k)
    ensures k in ConfigKeys && k in config
  {
  }

  /** `Merged` reads as the merge: a copied setting overrides the base, any
      other key keeps the base's value or stays absent. */
  lemma MergedGet(base: map<string, Json>, config: map<string, Json>)
    ensures forall k :: Get(Merged(base, config), k) == if Copied(config, k) then Get(config, k) else Get(base, k)
    ensures forall k :: k in Merged(base, config) <==> k in base || Copied(config, k)
  {
    forall k | Copied(config, k)
      ensures k in config
    {
      OnlyConfigKeysCopied(config, k);
    }
  }
}
