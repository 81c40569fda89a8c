/** The role heuristics of templateLoader.ts: from an element's text length,
    numeric position and size, guess whether it is a title, a subtitle, body
    text or a logo. */
module Classifiers {
  import opened JsonValues

  /** `text.length` of an element's text: strings and arrays have one. */
  function TextLength(text: Json): (r: Option<nat>)
    ensures text.Str? ==> r == Some(|text.s|)
    ensures text.Arr? ==> r == Some(|text.items|)
    ensures !text.Str? && !text.Arr? ==> r.None?
  {
    match text
    case Str(s) => Some(|s|)
    case Arr(a) => Some(|a|)
    case _ => None
  }

  /** `v && typeof v === 'number' && v <op> bound`, for the numeric signals. */
  predicate NumberAbove(v: Json, bound: real) {
    Truthy(v) && v.Num? && v.n > bound
  }

  predicate NumberBelow(v: Json, bound: real) {
    Truthy(v) && v.Num? && v.n < bound
  }

  /** The font-size branch of isLikelyTitle fires: the element has truthy
      `settings` whose `font-size` is truthy and judged large. */
  predicate HasLargeFont(e: map<string, Json>, fontIsLarge: Json -> bool) {
    var settings := Get(e, "settings");
    Truthy(settings) && Truthy(Prop(settings, "font-size")) && fontIsLarge(Prop(settings, "font-size"))
  }

  /** isLikelyTitle. Without the font-size branch it is "non-empty text
      shorter than 60": a string of 1 to 59 characters, or an array of fewer
      than 60 items (an array is truthy even when empty). */
  function IsLikelyTitle(e: map<string, Json>, fontIsLarge: Json -> bool): (r: bool)
    ensures HasLargeFont(e, fontIsLarge) ==> r
    ensures !HasLargeFont(e, fontIsLarge) ==>
      (r <==>
        (Get(e, "text").Str? && 0 < |Get(e, "text").s| < 60) ||
        (Get(e, "text").Arr? && |Get(e, "text").items| < 60))
  {
    var text := Get(e, "text");
    HasLargeFont(e, fontIsLarge) ||
    (Truthy(text) && TextLength(text).Some? && TextLength(text).value < 60)
  }

  /** isLikelySubtitle. A numeric `y` beyond 100 makes any element a
      subtitle; otherwise only a text of length strictly between 30 and 120
      does. */
  function IsLikelySubtitle(e: map<string, Json>): (r: bool)
    ensures Get(e, "y").Num? && Get(e, "y").n > 100.0 ==> r
    ensures !(Get(e, "y").Num? && Get(e, "y").n > 100.0) ==>
      (r <==>
        (Get(e, "text").Str? && 30 < |Get(e, "text").s| < 120) ||
        (Get(e, "text").Arr? && 30 < |Get(e, "text").items| < 120))
  {
    var text := Get(e, "text");
    NumberAbove(Get(e, "y"), 100.0) ||
    (Truthy(text) && TextLength(text).Some? && TextLength(text).value > 30 && TextLength(text).value < 120)
  }

  /** isLikelyBodyText. Body text is exactly text longer than 60: no text of
      length 60 or less is body text, whatever else the element carries. */
  function IsLikelyBodyText(e: map<string, Json>): (r: bool)
    ensures r <==>
      (Get(e, "text").Str? && |Get(e, "text").s| > 60) ||
      (Get(e, "text").Arr? && |Get(e, "text").items| > 60)
  {
    var text := Get(e, "text");
    Truthy(text) && TextLength(text).Some? && TextLength(text).value > 60
  }

  /** isLikelyLogo. A logo is small (a numeric `width` or `height` that is
      non-zero and below 200) or sits in a corner band (`x` is 0 or a number
      beyond 1500, and `y` is a number below 100, zero and negative values
      included). */
  function IsLikelyLogo(e: map<string, Json>): (r: bool)
    ensures r <==>
      (var w, h, x, y := Get(e, "width"), Get(e, "height"), Get(e, "x"), Get(e, "y");
       (w.Num? && w.n != 0.0 && w.n < 200.0) ||
       (h.Num? && h.n != 0.0 && h.n < 200.0) ||
       (x.Num? && (x.n == 0.0 || x.n > 1500.0) && y.Num? && y.n < 100.0))
  {
    var x, y := Get(e, "x"), Get(e, "y");
    if NumberBelow(Get(e, "width"), 200.0) || NumberBelow(Get(e, "height"), 200.0) then true
    else if (x == Num(0.0) || NumberAbove(x, 1500.0)) && (y == Num(0.0) || NumberBelow(y, 100.0)) then true
    else false
  }

  /** Without the font-size branch, title and body text split the non-empty
      strings: exactly one holds for every length other than 60, and neither
      holds at exactly 60. */
  lemma TitleAndBodyPartitionStrings(e: map<string, Json>, fontIsLarge: Json -> bool)
    requires !HasLargeFont(e, fontIsLarge)
    requires Get(e, "text").Str? && Get(e, "text").s != ""
    ensures |Get(e, "text").s| != 60 ==> (IsLikelyTitle(e, fontIsLarge) <==> !IsLikelyBodyText(e))
    ensures |Get(e, "text").s| == 60 ==> !IsLikelyTitle(e, fontIsLarge) && !IsLikelyBodyText(e)
  {
  }
}
