/** The static template registry of templateLoader.ts and the two option
    lists the node's UI loads from it. */
module TemplateRegistry {
  import opened JsonValues

  /** One option of a node property drop-down: what is shown, what is stored. */
  datatype PropertyOption = PropertyOption(name: string, value: string)

  /** A registry category: its key and its (template key, display name) entries, in declaration order. */
  type Category = (string, seq<(string, string)>)

  const Registry: seq<Category> := [
    ("basic", [
      ("hello-world", "Hello World - Simple Text Animation"),
      ("image-slideshow", "Image Slideshow - Transitions Between Images"),
      ("video-with-text-overlay", "Video with Text Overlay - Basic Text Over Video"),
      ("video-with-watermark", "Video with Watermark - Add Logo or Watermark")
    ]),
    ("marketing", [
      ("black-friday-promo", "Black Friday Promo - Sale Announcement"),
      ("corporate-video", "Corporate Video - Professional Presentation"),
      ("event-agenda", "Event Agenda - Schedule Presentation"),
      ("event-speakers", "Event Speakers - Speaker Profiles"),
      ("motivational", "Motivational - Inspirational Quote Card"),
      ("promo", "Promo - Variables Template with Call to Action"),
      ("quote", "Quote - Quotation with Background"),
      ("real-estate", "Real Estate - Property Presentation (Landscape)"),
      ("real-estate-2", "Real Estate Story - Property Tour (Portrait)"),
      ("slide-text-left", "Slide Text Left - Animated Text Entrance")
    ]),
    ("news", [
      ("cnn-lower-third", "CNN Style Lower Third - News Caption"),
      ("one-line-lower-third", "One Line Lower Third - Simple News Caption")
    ])
  ]

  /** `s.charAt(0).toUpperCase() + s.slice(1)`. */
  function Capitalized(s: string): (r: string)
    ensures |r| == |s|
    ensures s != [] ==> r[0] == UpperChar(s[0]) && r[1..] == s[1..]
  {
    if s == [] then "" else [UpperChar(s[0])] + s[1..]
  }

  /** The category options for a registry, one per key, in key order. */
  function CategoryOptions(reg: seq<Category>): (r: seq<PropertyOption>)
    ensures |r| == |reg|
    ensures forall i :: 0 <= i < |reg| ==>
      r[i].value == reg[i].0 && r[i].name == Capitalized(reg[i].0)
  {
    if reg == [] then []
    else [PropertyOption(Capitalized(reg[0].0), reg[0].0)] + CategoryOptions(reg[1..])
  }

  /** getTemplateCategories: one option per registry key, in key order; the
      value is the key, the name is the key with its first letter upper-cased. */
  function TemplateCategories(): (r: seq<PropertyOption>)
    ensures |r| == |Registry|
    ensures forall i :: 0 <= i < |Registry| ==>
      r[i].value == Registry[i].0 && r[i].name == Capitalized(Registry[i].0)
  {
    CategoryOptions(Registry)
  }

  /** The entries of the first category named `key`, if any. */
  function Lookup(reg: seq<Category>, key: string): (r: Option<seq<(string, string)>>)
    ensures r.None? <==> forall i :: 0 <= i < |reg| ==> reg[i].0 != key
    ensures r.Some? ==> exists i :: 0 <= i < |reg| && reg[i].0 == key && r.value == reg[i].1
  {
    if reg == [] then None
    else if reg[0].0 == key then Some(reg[0].1)
    else Lookup(reg[1..], key)
  }

  /** `Object.entries(templates).map(([value, name]) => ({name, value}))`. */
  function EntryOptions(entries: seq<(string, string)>): (r: seq<PropertyOption>)
    ensures |r| == |entries|
    ensures forall j :: 0 <= j < |entries| ==>
      r[j] == PropertyOption(entries[j].1, entries[j].0)
  {
    if entries == [] then []
    else [PropertyOption(entries[0].1, entries[0].0)] + EntryOptions(entries[1..])
  }

  /** The options of category `category` of `reg`, `[]` when it is absent. */
  function TemplatesIn(reg: seq<Category>, category: string): (r: seq<PropertyOption>)
  {
    match Lookup(reg, category)
    case None => []
    case Some(entries) => EntryOptions(entries)
  }

  /** getTemplatesForCategory. */
  function TemplatesForCategory(category: string): (r: seq<PropertyOption>)
  {
    TemplatesIn(Registry, category)
  }

  /** No two categories, and no two templates of one category, share a key. */
  ghost predicate KeysDistinct(reg: seq<Category>) {
    && (forall i, j :: 0 <= i < j < |reg| ==> reg[i].0 != reg[j].0)
    && (forall i, a, b :: 0 <= i < |reg| && 0 <= a < b < |reg[i].1| ==> reg[i].1[a].0 != reg[i].1[b].0)
  }

  /** Every category holds at least one template. */
  ghost predicate NoEmptyCategory(reg: seq<Category>) {
    forall i :: 0 <= i < |reg| ==> reg[i].1 != []
  }

  lemma RegistryKeysDistinct()
    ensures KeysDistinct(Registry)
  {
    RegistryCategoryKeysDistinct();
    forall i | 0 <= i < |Registry|
      ensures forall a, b :: 0 <= a < b < |Registry[i].1| ==> Registry[i].1[a].0 != Registry[i].1[b].0
    {
      RegistryTemplateKeysDistinct(i);
    }
  }

  lemma RegistryCategoryKeysDistinct()
    ensures forall i, j :: 0 <= i < j < |Registry| ==> Registry[i].0 != Registry[j].0
  {
  }

  lemma RegistryTemplateKeysDistinct(i: nat)
    requires i < |Registry|
    ensures forall a, b :: 0 <= a < b < |Registry[i].1| ==> Registry[i].1[a].0 != Registry[i].1[b].0
  {
  }

  lemma RegistryHasNoEmptyCategory()
    ensures NoEmptyCategory(Registry)
  {
  }

  /** In a registry with distinct keys, an absent category has no templates
      and a present one has one option per template, in order. */
  lemma TemplatesInSpec(reg: seq<Category>, category: string)
    requires KeysDistinct(reg)
    ensures (forall i :: 0 <= i < |reg| ==> reg[i].0 != category) ==> TemplatesIn(reg, category) == []
    ensures forall i :: 0 <= i < |reg| && reg[i].0 == category ==>
      |TemplatesIn(reg, category)| == |reg[i].1| &&
      forall j :: 0 <= j < |reg[i].1| ==> TemplatesIn(reg, category)[j] == PropertyOption(reg[i].1[j].1, reg[i].1[j].0)
  {
  }

  /** A category that is not a registry key has no templates; a registry key
      has one option per template, whose value is the template key and whose
      name is its display string. */
  lemma TemplatesForCategorySpec(category: string)
    ensures (forall i :: 0 <= i < |Registry| ==> Registry[i].0 != category) ==>
      TemplatesForCategory(category) == []
    ensures forall i :: 0 <= i < |Registry| && Registry[i].0 == category ==>
      |TemplatesForCategory(category)| == |Registry[i].1| &&
      forall j :: 0 <= j < |Registry[i].1| ==>
        TemplatesForCategory(category)[j] == PropertyOption(Registry[i].1[j].1, Registry[i].1[j].0)
  {
    RegistryKeysDistinct();
    TemplatesInSpec(Registry, category);
  }

  /** Only a category that is offered has templates. */
  lemma TemplatesOnlyForOffered(reg: seq<Category>, category: string)
    ensures TemplatesIn(reg, category) != [] ==>
      exists i :: 0 <= i < |CategoryOptions(reg)| && CategoryOptions(reg)[i].value == category
  {
    if Lookup(reg, category).Some? {
      var i :| 0 <= i < |reg| && reg[i].0 == category;
      assert CategoryOptions(reg)[i].value == category;
    }
  }

  /** In a registry without empty categories, every offered category has templates. */
  lemma OfferedHaveTemplates(reg: seq<Category>, category: string)
    requires NoEmptyCategory(reg)
    ensures (exists i :: 0 <= i < |CategoryOptions(reg)| && CategoryOptions(reg)[i].value == category) ==>
      TemplatesIn(reg, category) != []
  {
    var cats := CategoryOptions(reg);
    if exists i :: 0 <= i < |cats| && cats[i].value == category {
      var i :| 0 <= i < |cats| && cats[i].value == category;
      assert reg[i].0 == category;
      var entries := Lookup(reg, category).value;
      var k :| 0 <= k < |reg| && reg[k].0 == category && entries == reg[k].1;
      assert |EntryOptions(entries)| == |reg[k].1| > 0;
    }
  }

  /** Every category offered in the UI has at least one template, and a value
      has templates exactly when it is an offered category. */
  lemma OfferedCategoriesHaveTemplates(category: string)
    ensures TemplatesForCategory(category) != [] <==>
      exists i :: 0 <= i < |TemplateCategories()| && TemplateCategories()[i].value == category
  {
    RegistryHasNoEmptyCategory();
    TemplatesOnlyForOffered(Registry, category);
    OfferedHaveTemplates(Registry, category);
    assert TemplateCategories() == CategoryOptions(Registry);
    assert TemplatesForCategory(category) == TemplatesIn(Registry, category);
  }
}
