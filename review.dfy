/**
 * The `/review` command: the review builder with its occasion table, the
 * review templates with their fallback, and the option defaults of the
 * three subcommands.
 */
module Review {
  import opened Wrappers
  import opened JsString

  // ---------------------------------------------------------------------
  // Occasions

  /** The occasions named for each style choice. */
  const OccasionMap: map<string, seq<string>> := map[
    "casual" := ["everyday wear", "coffee dates", "shopping trips"],
    "formal" := ["business meetings", "formal events", "special occasions"],
    "party" := ["night out", "celebrations", "club events"],
    "gothic" := ["dark themed events", "alternative gatherings", "mystical occasions"],
    "cute" := ["dates", "cute meetups", "playful events"],
    "elegant" := ["formal dinners", "special occasions", "sophisticated events"],
    "streetwear" := ["urban adventures", "casual hangouts", "street fashion events"],
    "vintage" := ["retro themed events", "vintage parties", "classic occasions"]
  ]

  /** The occasions for a style the table does not know. */
  const GenericOccasions: seq<string> := ["various occasions", "different events", "multiple settings"]

  /** `getOccasionsForStyle`: the style's three occasions, or the generic three. */
  function OccasionsForStyle(style: string): (r: seq<string>)
    ensures |r| == 3
    ensures style !in OccasionMap ==> r == GenericOccasions
    ensures style in OccasionMap ==> r == OccasionMap[style]
  {
    if style in OccasionMap then OccasionMap[style] else GenericOccasions
  }

  /** Every entry of the occasion table, and the generic entry, has exactly three non-empty occasions. */
  lemma OccasionTriples(style: string)
    ensures var o := OccasionsForStyle(style); |o| == 3 && o[0] != "" && o[1] != "" && o[2] != ""
  {
  }

  // ---------------------------------------------------------------------
  // The review text

  /**
   * The fixed wording of a review, piece by piece, in text order. The
   * builder is stated over any wording and used with `Phrases`, so that the
   * proofs about its shape do not depend on the words themselves.
   */
  datatype Wording = Wording(
    opening: string, between: string, masterpiece: string, scheme: string, aesthetic: string,
    quality: string, loveLead: string, loveTail: string, textures: string, versatile: string,
    perfectFor: string, comma: string, andEven: string, stop: string,
    showcaseLead: string, showcases: string, talent: string, overall: string, fashion: string, thanks: string)

  const Phrases: Wording := Wording(
    "This absolutely stunning ", " by ", " is a true masterpiece! The ", " color scheme creates the perfect ",
    " aesthetic that's both elegant and versatile.\n\n",
    "The quality and attention to detail are exceptional. ",
    "I especially love the ", " which add such a beautiful and unique touch to the overall design. ",
    "The textures are incredibly realistic and the fit is absolutely perfect.\n\n",
    "This piece is incredibly versatile and can be styled for so many different occasions - ",
    "it's perfect for ", ", ", ", and even ", ". ",
    "The ", " truly showcases ", "'s incredible talent and creativity in virtual fashion design.\n\n",
    "Overall, this is a must-have piece that I would definitely recommend to anyone looking for high-quality ",
    " fashion. ", "Thank you for creating such a beautiful and well-crafted item! ")

  /** The opening paragraph. */
  function Opening(w: Wording, itemType: string, creatorName: string, colorScheme: string, style: string): (r: string)
    ensures StartsWith(r, w.opening + itemType + w.between + creatorName)
  {
    var head := w.opening + itemType + w.between + creatorName;
    assert head + w.masterpiece + colorScheme + w.scheme + style + w.aesthetic
        == head + (w.masterpiece + colorScheme + w.scheme + style + w.aesthetic);
    StartsWithAppend(head, w.masterpiece + colorScheme + w.scheme + style + w.aesthetic);
    head + w.masterpiece + colorScheme + w.scheme + style + w.aesthetic
  }

  /** The sentence on special features, present iff there are any (`if (specialFeatures)`). */
  function FeatureSentence(w: Wording, specialFeatures: string): (r: string)
    ensures specialFeatures == "" <==> r == ""
    ensures specialFeatures != "" ==> r == w.loveLead + specialFeatures + w.loveTail
  {
    if specialFeatures != "" then w.loveLead + specialFeatures + w.loveTail else ""
  }

  /** The three occasions, in table order, in one sentence. */
  function OccasionSentence(w: Wording, o: seq<string>): string
    requires |o| == 3
  {
    w.perfectFor + o[0] + w.comma + o[1] + w.andEven + o[2] + w.stop
  }

  /** The showcase sentence and the recommendation. */
  function Closing(w: Wording, itemType: string, creatorName: string, style: string): string {
    w.showcaseLead + itemType + w.showcases + creatorName + w.talent + w.overall + style + w.fashion
  }

  /** The thanks and `rating` stars. */
  function Signature(w: Wording, rating: nat): string {
    w.thanks + Repeat('⭐', rating)
  }

  /** The review in wording `w`, piece by piece as `generateDetailedReview` appends them. */
  function ReviewText(w: Wording, itemType: string, style: string, colorScheme: string, specialFeatures: string,
                      rating: nat, creatorName: string): (r: string)
    ensures StartsWith(r, w.opening + itemType + w.between + creatorName)
    ensures EndsWith(r, w.thanks + Repeat('⭐', rating))
  {
    var head := w.opening + itemType + w.between + creatorName;
    var p0 := Opening(w, itemType, creatorName, colorScheme, style);
    var p1 := p0 + w.quality;
    var p2 := p1 + FeatureSentence(w, specialFeatures);
    var p3 := p2 + w.textures;
    var p4 := p3 + w.versatile;
    var p5 := p4 + OccasionSentence(w, OccasionsForStyle(style));
    var front := p5 + Closing(w, itemType, creatorName, style);
    StartsWithExtend(p0, head, w.quality);
    StartsWithExtend(p1, head, FeatureSentence(w, specialFeatures));
    StartsWithExtend(p2, head, w.textures);
    StartsWithExtend(p3, head, w.versatile);
    StartsWithExtend(p4, head, OccasionSentence(w, OccasionsForStyle(style)));
    StartsWithExtend(p5, head, Closing(w, itemType, creatorName, style));
    StartsWithExtend(front, head, Signature(w, rating));
    EndsWithAppend(front, Signature(w, rating));
    front + Signature(w, rating)
  }

  /**
   * `generateDetailedReview`. The item name is a parameter the text never
   * uses. A rating is a whole number of stars (`'⭐'.repeat` of a negative
   * count throws; the option admits 1 to 5 only).
   */
  function DetailedReview(itemName: string, itemType: string, style: string, colorScheme: string,
                          specialFeatures: string, rating: nat, creatorName: string): (r: string)
    ensures StartsWith(r, "This absolutely stunning " + itemType + " by " + creatorName)
    ensures EndsWith(r, "Thank you for creating such a beautiful and well-crafted item! " + Repeat('⭐', rating))
  {
    ReviewText(Phrases, itemType, style, colorScheme, specialFeatures, rating, creatorName)
  }

  /** The thanks sentence ends with a space; a proof step of EndsWithStars. */
  lemma ThanksEndsWithSpace()
    ensures |Phrases.thanks| > 0 && Phrases.thanks == Phrases.thanks[..|Phrases.thanks| - 1] + " "
  {
  }

  /**
   * The review closes with the thanks and exactly `rating` stars: the
   * character before the stars is a space.
   */
  lemma EndsWithStars(itemName: string, itemType: string, style: string, colorScheme: string,
                      specialFeatures: string, rating: nat, creatorName: string)
    ensures var r := DetailedReview(itemName, itemType, style, colorScheme, specialFeatures, rating, creatorName);
      EndsWith(r, Phrases.thanks + Repeat('⭐', rating)) && EndsWith(r, " " + Repeat('⭐', rating))
  {
    var w := Phrases;
    var front := Opening(w, itemType, creatorName, colorScheme, style) + w.quality + FeatureSentence(w, specialFeatures)
                 + w.textures + w.versatile + OccasionSentence(w, OccasionsForStyle(style))
                 + Closing(w, itemType, creatorName, style);
    var stars := Repeat('⭐', rating);
    assert DetailedReview(itemName, itemType, style, colorScheme, specialFeatures, rating, creatorName)
        == front + (w.thanks + stars);
    EndsWithAppend(front, w.thanks + stars);
    ThanksEndsWithSpace();
    var t0 := w.thanks[..|w.thanks| - 1];
    AppendAssoc(t0, " ", stars);
    AppendAssoc(front, t0, " " + stars);
    EndsWithAppend(front + t0, " " + stars);
  }

  /** The review is the same whatever the item name. */
  lemma IgnoresItemName(name1: string, name2: string, itemType: string, style: string, colorScheme: string,
                        specialFeatures: string, rating: nat, creatorName: string)
    ensures DetailedReview(name1, itemType, style, colorScheme, specialFeatures, rating, creatorName)
         == DetailedReview(name2, itemType, style, colorScheme, specialFeatures, rating, creatorName)
  {
  }

  /** Regrouping a text of three parts around an empty middle. */
  lemma InsertBetween(a: string, f: string, b: string, plain: string)
    requires plain == a + "" + b
    ensures |a| <= |plain| && a + f + b == plain[..|a|] + f + plain[|a|..]
  {
    assert plain == a + b;
    assert plain[..|a|] == a && plain[|a|..] == b;
  }

  /**
   * Giving special features adds their sentence right after the quality
   * sentence and changes nothing else.
   */
  lemma FeatureSentenceInserted(itemName: string, itemType: string, style: string, colorScheme: string,
                                specialFeatures: string, rating: nat, creatorName: string)
    ensures var plain := DetailedReview(itemName, itemType, style, colorScheme, "", rating, creatorName);
      var k := |Opening(Phrases, itemType, creatorName, colorScheme, style) + Phrases.quality|;
      && k <= |plain|
      && DetailedReview(itemName, itemType, style, colorScheme, specialFeatures, rating, creatorName)
         == plain[..k] + FeatureSentence(Phrases, specialFeatures) + plain[k..]
  {
    var w := Phrases;
    var a := Opening(w, itemType, creatorName, colorScheme, style) + w.quality;
    var t := w.textures;
    var v := w.versatile;
    var o := OccasionSentence(w, OccasionsForStyle(style));
    var c := Closing(w, itemType, creatorName, style);
    var g := Signature(w, rating);
    var f := FeatureSentence(w, specialFeatures);
    Regroup6(a, "", t, v, o, c, g);
    Regroup6(a, f, t, v, o, c, g);
    InsertBetween(a, f, t + v + o + c + g, DetailedReview(itemName, itemType, style, colorScheme, "", rating, creatorName));
  }

  /** Gathering the last five parts of a seven-part text; a proof step of FeatureSentenceInserted. */
  lemma Regroup6(a: string, f: string, t: string, v: string, o: string, c: string, g: string)
    ensures a + f + t + v + o + c + g == a + f + (t + v + o + c + g)
  {
  }

  /** The style's three occasions stand in one sentence, in table order. */
  lemma OccasionsInOrder(itemName: string, itemType: string, style: string, colorScheme: string,
                         specialFeatures: string, rating: nat, creatorName: string)
    ensures var o := OccasionsForStyle(style);
      Contains(DetailedReview(itemName, itemType, style, colorScheme, specialFeatures, rating, creatorName),
               Phrases.perfectFor + o[0] + Phrases.comma + o[1] + Phrases.andEven + o[2] + Phrases.stop)
  {
    var w := Phrases;
    var before := Opening(w, itemType, creatorName, colorScheme, style) + w.quality + FeatureSentence(w, specialFeatures)
                  + w.textures + w.versatile;
    var after := Closing(w, itemType, creatorName, style) + Signature(w, rating);
    var o := OccasionSentence(w, OccasionsForStyle(style));
    AppendAssoc(before + o, Closing(w, itemType, creatorName, style), Signature(w, rating));
    ContainsMiddle(before, o, after);
  }

  // ---------------------------------------------------------------------
  // Option defaults and the generate subcommand

  /** `getString('style') || 'casual'`. */
  function StyleOrDefault(style: string): (r: string)
    ensures style == "" ==> r == "casual"
    ensures style != "" ==> r == style
  {
    if style != "" then style else "casual"
  }

  /** What `/review generate` shows and saves: the review and its rating. */
  datatype SavedReview = SavedReview(itemName: string, itemId: string, reviewText: string, rating: int)

  /**
   * `handleReviewGenerate`: the style option defaults to casual; the saved
   * record holds the generated text and the given rating.
   */
  function Generate(itemName: string, itemId: string, creatorName: string, itemType: string, styleOption: string,
                    colorScheme: string, specialFeatures: string, rating: int): (r: SavedReview)
    requires 1 <= rating <= 5
    ensures r.itemName == itemName && r.itemId == itemId && r.rating == rating
    ensures r.reviewText
         == DetailedReview(itemName, itemType, StyleOrDefault(styleOption), colorScheme, specialFeatures, rating, creatorName)
  {
    SavedReview(itemName, itemId,
                DetailedReview(itemName, itemType, StyleOrDefault(styleOption), colorScheme, specialFeatures, rating, creatorName),
                rating)
  }

  /** Leaving the style out reviews the item as casual, with the casual occasions. */
  lemma OmittedStyleIsCasual(itemName: string, itemId: string, creatorName: string, itemType: string,
                             colorScheme: string, specialFeatures: string, rating: int)
    requires 1 <= rating <= 5
    ensures Generate(itemName, itemId, creatorName, itemType, "", colorScheme, specialFeatures, rating)
         == Generate(itemName, itemId, creatorName, itemType, "casual", colorScheme, specialFeatures, rating)
    ensures Contains(Generate(itemName, itemId, creatorName, itemType, "", colorScheme, specialFeatures, rating).reviewText,
                     Phrases.perfectFor + "everyday wear" + Phrases.comma + "coffee dates" + Phrases.andEven
                     + "shopping trips" + Phrases.stop)
  {
    assert OccasionsForStyle("casual") == ["everyday wear", "coffee dates", "shopping trips"];
    OccasionsInOrder(itemName, itemType, "casual", colorScheme, specialFeatures, rating, creatorName);
  }

  // ---------------------------------------------------------------------
  // Templates

  /** The four review templates. */
  datatype TemplateKind = OutfitKind | DressKind | AccessoriesKind | HairKind

  /** The item types with a template of their own. */
  const Templates: map<string, TemplateKind> :=
    map["outfit" := OutfitKind, "dress" := DressKind, "accessories" := AccessoriesKind, "hair" := HairKind]

  /** `templates[itemType] || templates.outfit`. */
  function TemplateFor(itemType: string): (r: TemplateKind)
    ensures itemType !in Templates ==> r == OutfitKind
    ensures itemType in Templates ==> r == Templates[itemType]
  {
    if itemType in Templates then Templates[itemType] else OutfitKind
  }

  function Title(kind: TemplateKind): string {
    match kind
    case OutfitKind => "Outfit Review Template"
    case DressKind => "Dress Review Template"
    case AccessoriesKind => "Accessories Review Template"
    case HairKind => "Hair Review Template"
  }

  /** The five-star rating every template closes with. */
  const FiveStars: string := "⭐⭐⭐⭐⭐"

  /** The template text of each kind; every one closes with five stars. */
  function TemplateText(kind: TemplateKind): (r: string)
    ensures EndsWith(r, FiveStars)
  {
    match kind
    case OutfitKind =>
      var body :=
        "This [item_type] by [creator_name] is absolutely stunning! The [color_scheme] color scheme creates a perfect [style] look that's both elegant and versatile.\n\n"
        + "The quality and attention to detail are exceptional. The [special_features] add such a beautiful touch to the overall design. The fit is perfect and the textures are incredibly realistic.\n\n"
        + "I love how this piece can be styled in so many different ways - it's perfect for [occasion1], [occasion2], and [occasion3]. The [item_type] truly showcases [creator_name]'s incredible talent and creativity.\n\n"
        + "Overall, this is a must-have piece that I would definitely recommend to anyone looking for high-quality [style] fashion. Thank you for creating such a beautiful item! ";
      EndsWithAppend(body, FiveStars);
      body + FiveStars
    case DressKind =>
      var body :=
        "This gorgeous [item_type] by [creator_name] is absolutely breathtaking! The [color_scheme] design is perfect for any [style] occasion.\n\n"
        + "The silhouette is incredibly flattering and the attention to detail is remarkable. I especially love the [special_features] which add such elegance to the overall look.\n\n"
        + "The quality is outstanding - the textures are realistic and the fit is perfect. This dress would be perfect for [occasion1], [occasion2], or even [occasion3].\n\n"
        + "[creator_name] has truly outdone themselves with this creation. It's a timeless piece that I know I'll be wearing for years to come. Highly recommended! ";
      EndsWithAppend(body, FiveStars);
      body + FiveStars
    case AccessoriesKind =>
      var body :=
        "These beautiful [item_type] by [creator_name] are absolutely perfect! The [color_scheme] design adds such elegance to any outfit.\n\n"
        + "The quality is exceptional - every detail has been carefully crafted. I love how the [special_features] make these accessories truly unique and special.\n\n"
        + "These pieces are incredibly versatile and can be styled with so many different looks. They're perfect for [occasion1], [occasion2], and [occasion3].\n\n"
        + "[creator_name] has created something truly special here. These accessories are a must-have for anyone who loves [style] fashion. Thank you for such beautiful work! ";
      EndsWithAppend(body, FiveStars);
      body + FiveStars
    case HairKind =>
      var body :=
        "This stunning [item_type] by [creator_name] is absolutely gorgeous! The [color_scheme] color and style are perfect for creating beautiful looks.\n\n"
        + "The quality is outstanding - the textures are realistic and the styling options are incredible. I especially love the [special_features] which add such character to the hair.\n\n"
        + "This hair works perfectly with so many different styles and outfits. It's ideal for [occasion1], [occasion2], and [occasion3].\n\n"
        + "[creator_name] has created a truly beautiful piece that I know I'll be using constantly. The attention to detail and quality make this hair a definite favorite. Highly recommended! ";
      EndsWithAppend(body, FiveStars);
      body + FiveStars
  }

  /** The item-type choices of both subcommands. */
  const ItemTypes: seq<string> := ["outfit", "top", "bottom", "dress", "shoes", "accessories", "hair", "makeup", "bundle"]

  /**
   * Of the nine item-type choices, outfit, dress, accessories and hair have
   * a template titled after the type; top, bottom, shoes, makeup and bundle
   * get the outfit template.
   */
  lemma TemplateChoices()
    ensures Title(TemplateFor("outfit")) == "Outfit Review Template"
    ensures Title(TemplateFor("dress")) == "Dress Review Template"
    ensures Title(TemplateFor("accessories")) == "Accessories Review Template"
    ensures Title(TemplateFor("hair")) == "Hair Review Template"
    ensures forall k :: 0 <= k < |ItemTypes| && ItemTypes[k] !in Templates ==> TemplateFor(ItemTypes[k]) == OutfitKind
    ensures forall k :: 0 <= k < |ItemTypes| && ItemTypes[k] !in Templates ==>
      ItemTypes[k] in {"top", "bottom", "shoes", "makeup", "bundle"}
  {
  }

  /** The `/review template` reply: the template's title, and a description naming the requested type. */
  datatype TemplateReply = TemplateReply(title: string, description: string)

  function TemplateView(itemType: string): (r: TemplateReply)
    ensures r.title == Title(TemplateFor(itemType))
    ensures StartsWith(r.description, "Here's a review template for " + itemType + " items:")
    ensures EndsWith(r.description, "\n\n```" + TemplateText(TemplateFor(itemType)) + "```")
  {
    var kind := TemplateFor(itemType);
    var head := "Here's a review template for " + itemType + " items:";
    StartsWithAppend(head, "\n\n```" + TemplateText(kind) + "```");
    EndsWithAppend(head, "\n\n```" + TemplateText(kind) + "```");
    TemplateReply(Title(kind), head + ("\n\n```" + TemplateText(kind) + "```"))
  }

  // ---------------------------------------------------------------------
  // History

  /** `getInteger('limit') || 5`: an absent limit, or a zero one, is five. */
  function LimitOrDefault(limit: Option<int>): (r: int)
    ensures limit == None || limit == Some(0) ==> r == 5
    ensures limit.Some? && limit.value != 0 ==> r == limit.value
  {
    if limit.Some? && limit.value != 0 then limit.value else 5
  }

  /** The `/review history` reply: a title and a description. */
  datatype HistoryReply = HistoryReply(title: string, description: string)

  /**
   * `handleReviewHistory`: the description naming the limit is set first and
   * then overwritten by the fixed coming-soon notice.
   */
  function History(limit: Option<int>): (r: HistoryReply)
    ensures r.title == "Review History"
    ensures StartsWith(r.description, "Review history feature is coming soon!")
  {
    var notice := "Review history feature is coming soon!";
    StartsWithAppend(notice, " Use `/review generate` to create new reviews.");
    HistoryReply("Review History", notice + " Use `/review generate` to create new reviews.")
  }

  /** The history reply never depends on the limit. */
  lemma HistoryIgnoresLimit(limit1: Option<int>, limit2: Option<int>)
    ensures History(limit1) == History(limit2)
  {
  }
}
