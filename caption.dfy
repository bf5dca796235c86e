/**
 * The `/caption` command: the four caption builders, the template-or-default
 * choice of the two generating subcommands and the template view.
 * An absent optional option is the empty string: every use of one is a
 * truthiness test, for which `null` and `""` behave alike.
 */
module Caption {
  import opened Wrappers
  import opened JsString
  import opened Placeholder
  import opened AgencyTemplates
  import SeededText

  /** The placeholder tokens the caption builders replace, spelled out for the proofs on literal templates. */
  lemma TokenSpellings()
    ensures Token("item_name") == "{item_name}" && Token("creator_name") == "{creator_name}"
    ensures Token("item_id") == "{item_id}" && Token("manufacturer_id") == "{manufacturer_id}"
    ensures Token("creator_instagram") == "{creator_instagram}"
  {
  }

  lemma ValidNames()
    ensures ValidName("item_name") && ValidName("creator_name") && ValidName("item_id") && ValidName("manufacturer_id")
    ensures ValidName("creator_instagram") && ValidName("agency_instagram") && ValidName("shop_link")
  {
    SeededText.ItemNames();
    SeededText.CreatorNames();
    SeededText.ManufacturerName();
    SeededText.LinkNames();
  }

  /** Text appended after `sep` when `extra` is non-empty (`if (extra) caption += sep + extra`). */
  function Appendix(sep: string, extra: string): (r: string)
    ensures extra == "" <==> r == ""
    ensures extra != "" ==> r == sep + extra
  {
    if extra != "" then sep + extra else ""
  }

  // ---------------------------------------------------------------------
  // IMVU captions

  /** The IMVU placeholders, in the order the template builder replaces them. */
  function ImvuSubs(itemName: string, creatorName: string, itemId: string, manufacturerId: string): seq<(string, string)> {
    [("item_name", itemName), ("creator_name", creatorName), ("item_id", itemId), ("manufacturer_id", manufacturerId)]
  }

  /**
   * The `{shop_link}` step: replaced only for a non-empty link when the text
   * still holds the token. The `includes` test changes nothing: without the
   * token, `replace` returns the text as it is.
   */
  function FillShopLink(caption: string, shopLink: string): (r: string)
    ensures shopLink == "" ==> r == caption
    ensures shopLink != "" ==> r == Replace(caption, Token("shop_link"), shopLink)
  {
    assert Token("shop_link") == "{shop_link}";
    if shopLink != "" && Contains(caption, "{shop_link}") then Replace(caption, "{shop_link}", shopLink) else caption
  }

  /**
   * `generateIMVUCaptionFromTemplate`: the filled template, then the tags
   * after a blank line; a template without placeholders is sent as it is.
   */
  function ImvuFromTemplate(itemName: string, creatorName: string, itemId: string, manufacturerId: string,
                            template: string, shopLink: string, additionalTags: string): (r: string)
    ensures NoBrace(template) ==> r == template + Appendix("\n\n", additionalTags)
    ensures additionalTags != "" ==> EndsWith(r, "\n\n" + additionalTags)
  {
    var subs := ImvuSubs(itemName, creatorName, itemId, manufacturerId);
    var filled := FillShopLink(Substitute(template, subs), shopLink);
    assert NoBrace(template) ==> filled == template by {
      if NoBrace(template) {
        NoBraceUnchanged(template, subs);
        NoBraceNoToken(template, "shop_link");
      }
    }
    EndsWithAppend(filled, Appendix("\n\n", additionalTags));
    filled + Appendix("\n\n", additionalTags)
  }

  /** The names the IMVU template builder fills: the four fixed ones, then `shop_link` for a non-empty link. */
  function ImvuFills(itemName: string, creatorName: string, itemId: string, manufacturerId: string, shopLink: string): seq<(string, string)> {
    ImvuSubs(itemName, creatorName, itemId, manufacturerId) + (if shopLink != "" then [("shop_link", shopLink)] else [])
  }

  /**
   * On a well-formed template with brace-free values the IMVU builder fills
   * the first `{item_name}`, `{creator_name}`, `{item_id}`, `{manufacturer_id}`
   * and, for a non-empty link, `{shop_link}`, in that order; every later copy
   * of a placeholder stays verbatim; the tags follow after a blank line iff
   * they are non-empty.
   */
  lemma ImvuTemplateFillsFirstHoles(segs: seq<Segment>, itemName: string, creatorName: string, itemId: string,
                                    manufacturerId: string, shopLink: string, additionalTags: string)
    requires WellFormed(segs)
    requires NoBrace(itemName) && NoBrace(creatorName) && NoBrace(itemId) && NoBrace(manufacturerId) && NoBrace(shopLink)
    ensures ImvuFromTemplate(itemName, creatorName, itemId, manufacturerId, Render(segs), shopLink, additionalTags)
         == Render(FillAll(segs, ImvuFills(itemName, creatorName, itemId, manufacturerId, shopLink)))
            + Appendix("\n\n", additionalTags)
  {
    var subs := ImvuSubs(itemName, creatorName, itemId, manufacturerId);
    var shop: seq<(string, string)> := if shopLink != "" then [("shop_link", shopLink)] else [];
    assert CleanSubs(subs + shop);
    SubstituteAppend(Render(segs), subs, shop);
    var filled := Substitute(Render(segs), subs);
    if shopLink != "" {
      assert Substitute(filled, shop) == Substitute(Replace(filled, Token("shop_link"), shopLink), []);
    }
    SubstituteFillsHoles(segs, subs + shop);
  }

  /**
   * `generateDefaultIMVUCaption`: it opens with the item name between
   * sparkles and closes with the tags when there are any, else with the
   * hashtag line whose last tag is the creator's name without whitespace.
   */
  function DefaultImvuCaption(itemName: string, creatorName: string, itemId: string, manufacturerId: string,
                              shopLink: string, additionalTags: string): (r: string)
    ensures StartsWith(r, "✨ " + itemName + " ✨\n\n")
    ensures additionalTags == "" ==> EndsWith(r, "\n#IMVU #Fashion #Modeling" + " #" + RemoveWhitespace(creatorName))
    ensures additionalTags != "" ==> EndsWith(r, "\n" + additionalTags)
  {
    var head := "✨ " + itemName + " ✨\n\n";
    var middle := "Creator: " + creatorName + "\n" + "Item ID: " + itemId + "\n" + "Manufacturer ID: " + manufacturerId + "\n"
      + Appendix("Shop: ", if shopLink != "" then shopLink + "\n" else "");
    var hashtags := "\n#IMVU #Fashion #Modeling" + " #" + RemoveWhitespace(creatorName);
    var tags := Appendix("\n", additionalTags);
    FramedBy(head, middle, hashtags, tags);
    head + middle + hashtags + tags
  }

  lemma ImvuSubsChain(a1: string, a2: string, a3: string, a4: string, itemName: string, creatorName: string,
                      itemId: string, manufacturerId: string)
    ensures ChainOf(ImvuSubs(itemName, creatorName, itemId, manufacturerId),
                    FourFills("item_name", itemName, a1, "creator_name", creatorName, a2, "item_id", itemId, a3,
                              "manufacturer_id", manufacturerId, a4))
  {
  }

  /**
   * A template holding `{item_name}`, `{creator_name}`, `{item_id}` and
   * `{manufacturer_id}` once each, in that order, between brace-free texts,
   * comes out with exactly those four values in their places.
   */
  lemma ImvuFillsInOrder(a0: string, a1: string, a2: string, a3: string, a4: string, itemName: string,
                         creatorName: string, itemId: string, manufacturerId: string)
    requires NoBrace(a0) && NoBrace(a1) && NoBrace(a2) && NoBrace(a3) && NoBrace(a4)
    requires NoBrace(itemName) && NoBrace(creatorName) && NoBrace(itemId) && NoBrace(manufacturerId)
    ensures ImvuFromTemplate(itemName, creatorName, itemId, manufacturerId,
                             a0 + Token("item_name") + a1 + Token("creator_name") + a2 + Token("item_id") + a3
                             + Token("manufacturer_id") + a4, "", "")
         == a0 + itemName + a1 + creatorName + a2 + itemId + a3 + manufacturerId + a4
  {
    ImvuSubsChain(a1, a2, a3, a4, itemName, creatorName, itemId, manufacturerId);
    ValidNames();
    SubstituteFourInOrder(a0, "item_name", itemName, a1, "creator_name", creatorName, a2, "item_id", itemId, a3,
                          "manufacturer_id", manufacturerId, a4, ImvuSubs(itemName, creatorName, itemId, manufacturerId));
  }

  lemma DefaultImvuFormatLayout()
    ensures DefaultImvuFormat == "✨ " + Token("item_name") + (" ✨\n\n" + "Creator: ") + Token("creator_name")
                                 + ("\n" + "Item ID: ") + Token("item_id") + ("\n" + "Manufacturer ID: ")
                                 + Token("manufacturer_id") + ("\n" + "\n#IMVU #Fashion #Modeling")
  {
    TokenSpellings();
  }

  lemma DefaultImvuPiecesBraceFree()
    ensures NoBrace("✨ ") && NoBrace(" ✨\n\n" + "Creator: ") && NoBrace("\n" + "Item ID: ")
    ensures NoBrace("\n" + "Manufacturer ID: ") && NoBrace("\n" + "\n#IMVU #Fashion #Modeling")
  {
    SeededText.DefaultImvuPieces();
  }

  lemma DefaultImvuText(itemName: string, creatorName: string, itemId: string, manufacturerId: string, w: string)
    ensures "✨ " + itemName + " ✨\n\n"
            + ("Creator: " + creatorName + "\n" + "Item ID: " + itemId + "\n" + "Manufacturer ID: " + manufacturerId + "\n" + "")
            + ("\n#IMVU #Fashion #Modeling" + " #" + w) + ""
         == "✨ " + itemName + (" ✨\n\n" + "Creator: ") + creatorName + ("\n" + "Item ID: ") + itemId
            + ("\n" + "Manufacturer ID: ") + manufacturerId + ("\n" + "\n#IMVU #Fashion #Modeling") + " #" + w
  {
  }

  lemma DefaultImvuLayout(itemName: string, creatorName: string, itemId: string, manufacturerId: string)
    ensures DefaultImvuCaption(itemName, creatorName, itemId, manufacturerId, "", "")
         == "✨ " + itemName + (" ✨\n\n" + "Creator: ") + creatorName + ("\n" + "Item ID: ") + itemId
            + ("\n" + "Manufacturer ID: ") + manufacturerId + ("\n" + "\n#IMVU #Fashion #Modeling")
            + " #" + RemoveWhitespace(creatorName)
  {
    DefaultImvuText(itemName, creatorName, itemId, manufacturerId, RemoveWhitespace(creatorName));
  }

  /**
   * The default IMVU caption with no link and no tags is the seeded
   * "Default" IMVU format filled with the same values, plus a last hashtag
   * made of the creator's name without whitespace.
   */
  lemma DefaultImvuMatchesSeededFormat(itemName: string, creatorName: string, itemId: string, manufacturerId: string)
    requires NoBrace(itemName) && NoBrace(creatorName) && NoBrace(itemId) && NoBrace(manufacturerId)
    ensures DefaultImvuCaption(itemName, creatorName, itemId, manufacturerId, "", "")
         == ImvuFromTemplate(itemName, creatorName, itemId, manufacturerId, DefaultImvuFormat, "", "")
            + " #" + RemoveWhitespace(creatorName)
  {
    DefaultImvuFormatLayout();
    DefaultImvuPiecesBraceFree();
    ImvuFillsInOrder("✨ ", " ✨\n\n" + "Creator: ", "\n" + "Item ID: ", "\n" + "Manufacturer ID: ",
                     "\n" + "\n#IMVU #Fashion #Modeling", itemName, creatorName, itemId, manufacturerId);
    DefaultImvuLayout(itemName, creatorName, itemId, manufacturerId);
  }

  /**
   * Substitution is sequential: an item name that itself reads
   * `{creator_name}` is replaced by the creator's name in the next step.
   */
  lemma ValueSubstitutedByLaterStep(a: string, creatorName: string, itemId: string, manufacturerId: string)
    requires NoBrace(a) && NoBrace(creatorName)
    ensures ImvuFromTemplate(Token("creator_name"), creatorName, itemId, manufacturerId, a + Token("item_name"), "", "")
         == a + creatorName
  {
    var s2: seq<(string, string)> := [("item_id", itemId), ("manufacturer_id", manufacturerId)];
    var s1 := [("creator_name", creatorName)] + s2;
    assert ImvuSubs(Token("creator_name"), creatorName, itemId, manufacturerId) == [("item_name", Token("creator_name"))] + s1;
    assert a + Token("item_name") == a + Token("item_name") + "";
    SubstituteFillsAfterBraceFree(a, "item_name", "", Token("creator_name"), s1);
    SubstituteFillsAfterBraceFree(a, "creator_name", "", creatorName, s2);
    NoBraceUnchanged(a + creatorName + "", s2);
    assert a + creatorName + "" == a + creatorName;
  }

  // ---------------------------------------------------------------------
  // Instagram captions

  /** The Instagram placeholders, in the order the template builder replaces them. */
  function InstagramSubs(itemName: string, creatorName: string, creatorInstagram: string, agencyInstagram: string,
                         itemId: string): seq<(string, string)> {
    [("item_name", itemName), ("creator_name", creatorName), ("creator_instagram", creatorInstagram),
     ("agency_instagram", agencyInstagram), ("item_id", itemId)]
  }

  /** The required-tags block: after a blank line, the tags joined by single spaces, iff the list is present and non-empty. */
  function RequiredTagsBlock(requiredTags: Option<seq<string>>): (r: string)
    ensures (requiredTags.Some? && |requiredTags.value| > 0) <==> r != ""
    ensures r != "" ==> r == "\n\n" + Join(requiredTags.value, " ")
  {
    if requiredTags.Some? && |requiredTags.value| > 0 then "\n\n" + Join(requiredTags.value, " ") else ""
  }

  /**
   * `generateInstagramCaptionFromTemplate`: the filled template, the required
   * tags and then the additional tags on a line of their own; a template
   * without placeholders is sent as it is.
   */
  function InstagramFromTemplate(itemName: string, creatorName: string, creatorInstagram: string, agencyInstagram: string,
                                 itemId: string, template: string, requiredTags: Option<seq<string>>,
                                 additionalTags: string): (r: string)
    ensures NoBrace(template) ==> r == template + RequiredTagsBlock(requiredTags) + Appendix("\n", additionalTags)
    ensures additionalTags != "" ==> EndsWith(r, "\n" + additionalTags)
    ensures additionalTags == "" ==> EndsWith(r, RequiredTagsBlock(requiredTags))
  {
    var subs := InstagramSubs(itemName, creatorName, creatorInstagram, agencyInstagram, itemId);
    var filled := Substitute(template, subs);
    assert NoBrace(template) ==> filled == template by {
      if NoBrace(template) {
        NoBraceUnchanged(template, subs);
      }
    }
    FramedBy(filled, "", RequiredTagsBlock(requiredTags), Appendix("\n", additionalTags));
    assert filled + "" == filled;
    filled + RequiredTagsBlock(requiredTags) + Appendix("\n", additionalTags)
  }

  /**
   * On a well-formed template with brace-free values the Instagram builder
   * fills the first hole of each of its five names, in order, then appends
   * the required tags and the additional tags.
   */
  lemma InstagramTemplateFillsFirstHoles(segs: seq<Segment>, itemName: string, creatorName: string, creatorInstagram: string,
                                         agencyInstagram: string, itemId: string, requiredTags: Option<seq<string>>,
                                         additionalTags: string)
    requires WellFormed(segs)
    requires NoBrace(itemName) && NoBrace(creatorName) && NoBrace(creatorInstagram) && NoBrace(agencyInstagram)
    requires NoBrace(itemId)
    ensures InstagramFromTemplate(itemName, creatorName, creatorInstagram, agencyInstagram, itemId, Render(segs),
                                  requiredTags, additionalTags)
         == Render(FillAll(segs, InstagramSubs(itemName, creatorName, creatorInstagram, agencyInstagram, itemId)))
            + RequiredTagsBlock(requiredTags) + Appendix("\n", additionalTags)
  {
    SubstituteFillsHoles(segs, InstagramSubs(itemName, creatorName, creatorInstagram, agencyInstagram, itemId));
  }

  /**
   * The five Instagram links read against a template holding the first,
   * third and fifth names once each, in that order: the second and fourth
   * names have no placeholder there.
   */
  function InstagramSteps(n1: string, v1: string, a1: string, n2: string, v2: string, n3: string, v3: string, a2: string,
                          n4: string, v4: string, n5: string, v5: string, a3: string): seq<Step> {
    [Fill(n1, v1, a1), Skip(n2, v2), Fill(n3, v3, a2), Skip(n4, v4), Fill(n5, v5, a3)]
  }

  lemma InstagramStepsLayout(a0: string, n1: string, v1: string, a1: string, n2: string, v2: string, n3: string,
                             v3: string, a2: string, n4: string, v4: string, n5: string, v5: string, a3: string,
                             tail: string)
    ensures var steps := InstagramSteps(n1, v1, a1, n2, v2, n3, v3, a2, n4, v4, n5, v5, a3);
      && a0 + Blank(steps) + tail == a0 + Token(n1) + a1 + Token(n3) + a2 + Token(n5) + a3 + tail
      && a0 + Filled(steps) + tail == a0 + v1 + a1 + v3 + a2 + v5 + a3 + tail
  {
    var steps := InstagramSteps(n1, v1, a1, n2, v2, n3, v3, a2, n4, v4, n5, v5, a3);
    var s1, s2, s3, s4 := steps[1..], steps[2..], steps[3..], steps[4..];
    assert s1[1..] == s2 && s2[1..] == s3 && s3[1..] == s4 && s4[1..] == [];
    assert Blank(s4) == Token(n5) + a3 + "";
    assert Blank(s3) == Blank(s4);
    assert Blank(s2) == Token(n3) + a2 + Blank(s3);
    assert Blank(s1) == Blank(s2);
    assert Blank(steps) == Token(n1) + a1 + Blank(s1);
    assert Filled(s4) == v5 + a3 + "";
    assert Filled(s3) == Filled(s4);
    assert Filled(s2) == v3 + a2 + Filled(s3);
    assert Filled(s1) == Filled(s2);
    assert Filled(steps) == v1 + a1 + Filled(s1);
  }

  /**
   * A template holding the first, third and fifth names of a five-link chain
   * once each, in that order, between brace-free texts, and then a tail
   * without a token of the second or fourth name: the three values land in
   * their places, the two other links change nothing, and the tail is kept
   * as it is.
   */
  lemma InstagramShapeFills(a0: string, n1: string, v1: string, a1: string, n2: string, v2: string, n3: string,
                            v3: string, a2: string, n4: string, v4: string, n5: string, v5: string, a3: string,
                            tail: string, subs: seq<(string, string)>)
    requires ValidName(n1) && ValidName(n2) && ValidName(n3) && ValidName(n4) && ValidName(n5)
    requires n2 != n3 && n2 != n5 && n4 != n5
    requires NoBrace(a0) && NoBrace(a1) && NoBrace(a2) && NoBrace(a3)
    requires NoBrace(v1) && NoBrace(v2) && NoBrace(v3) && NoBrace(v4) && NoBrace(v5)
    requires !Contains(tail, Token(n2)) && !Contains(tail, Token(n4))
    requires ChainOf(subs, InstagramSteps(n1, v1, a1, n2, v2, n3, v3, a2, n4, v4, n5, v5, a3))
    ensures Substitute(a0 + Token(n1) + a1 + Token(n3) + a2 + Token(n5) + a3 + tail, subs)
         == a0 + v1 + a1 + v3 + a2 + v5 + a3 + tail
  {
    var steps := InstagramSteps(n1, v1, a1, n2, v2, n3, v3, a2, n4, v4, n5, v5, a3);
    assert InOrder(steps, tail) by {
      assert steps[2..] == [Fill(n3, v3, a2), Skip(n4, v4), Fill(n5, v5, a3)];
      assert steps[4..] == [Fill(n5, v5, a3)];
    }
    InstagramStepsLayout(a0, n1, v1, a1, n2, v2, n3, v3, a2, n4, v4, n5, v5, a3, tail);
    SubstituteInOrder(a0, steps, tail, subs, a0 + Token(n1) + a1 + Token(n3) + a2 + Token(n5) + a3 + tail);
  }

  lemma InstagramSubsChain(a1: string, a2: string, a3: string, itemName: string, creatorName: string,
                           creatorInstagram: string, agencyInstagram: string, itemId: string)
    ensures ChainOf(InstagramSubs(itemName, creatorName, creatorInstagram, agencyInstagram, itemId),
                    InstagramSteps("item_name", itemName, a1, "creator_name", creatorName, "creator_instagram",
                                   creatorInstagram, a2, "agency_instagram", agencyInstagram, "item_id", itemId, a3))
  {
  }

  /**
   * An Instagram template holding `{item_name}`, `{creator_instagram}` and
   * `{item_id}` once each, in that order, between brace-free texts, then a
   * tail without `{creator_name}` or `{agency_instagram}`: the three values
   * land in their places and the tail is kept as it is, placeholders and all.
   */
  lemma InstagramFillsInOrder(a0: string, a1: string, a2: string, a3: string, tail: string, itemName: string,
                              creatorName: string, creatorInstagram: string, agencyInstagram: string, itemId: string)
    requires NoBrace(a0) && NoBrace(a1) && NoBrace(a2) && NoBrace(a3)
    requires NoBrace(itemName) && NoBrace(creatorName) && NoBrace(creatorInstagram) && NoBrace(agencyInstagram)
    requires NoBrace(itemId)
    requires !Contains(tail, Token("creator_name")) && !Contains(tail, Token("agency_instagram"))
    ensures InstagramFromTemplate(itemName, creatorName, creatorInstagram, agencyInstagram, itemId,
                                  a0 + Token("item_name") + a1 + Token("creator_instagram") + a2 + Token("item_id")
                                  + a3 + tail, None, "")
         == a0 + itemName + a1 + creatorInstagram + a2 + itemId + a3 + tail
  {
    ValidNames();
    InstagramSubsChain(a1, a2, a3, itemName, creatorName, creatorInstagram, agencyInstagram, itemId);
    InstagramShapeFills(a0, "item_name", itemName, a1, "creator_name", creatorName, "creator_instagram",
                        creatorInstagram, a2, "agency_instagram", agencyInstagram, "item_id", itemId, a3, tail,
                        InstagramSubs(itemName, creatorName, creatorInstagram, agencyInstagram, itemId));
  }

  lemma LadiesAndBabesInstagramLayout()
    ensures LadiesAndBabesInstagramFormat
         == "✨ " + Token("item_name") + (" ✨\n\n" + "Loving this beautiful piece by @") + Token("creator_instagram")
            + ("!\n\n" + "Item ID: ") + Token("item_id")
            + ("\n\n" + "#IMVU #Fashion #Modeling #VirtualFashion #" + "LadiesAndBabes #@") + Token("creator_instagram")
  {
    TokenSpellings();
  }

  lemma LadiesAndBabesInstagramPieces()
    ensures NoBrace("✨ ") && NoBrace(" ✨\n\n" + "Loving this beautiful piece by @") && NoBrace("!\n\n" + "Item ID: ")
    ensures NoBrace("\n\n" + "#IMVU #Fashion #Modeling #VirtualFashion #" + "LadiesAndBabes #@")
    ensures !Contains(Token("creator_instagram"), Token("creator_name"))
    ensures !Contains(Token("creator_instagram"), Token("agency_instagram"))
  {
    SeededText.LadiesAndBabesInstagramPieces();
    ValidNames();
    NoTokenInOtherName("creator_instagram", "creator_name");
    NoTokenInOtherName("creator_instagram", "agency_instagram");
  }

  /**
   * The seeded "Ladies & Babes" Instagram format holds `{creator_instagram}`
   * twice; only the first is filled and the closing hashtag keeps the
   * placeholder verbatim.
   */
  lemma LadiesAndBabesKeepsSecondHandle(itemName: string, creatorName: string, creatorInstagram: string,
                                        agencyInstagram: string, itemId: string)
    requires NoBrace(itemName) && NoBrace(creatorName) && NoBrace(creatorInstagram) && NoBrace(agencyInstagram)
    requires NoBrace(itemId)
    ensures InstagramFromTemplate(itemName, creatorName, creatorInstagram, agencyInstagram, itemId,
                                  LadiesAndBabesInstagramFormat, None, "")
         == "✨ " + itemName + (" ✨\n\n" + "Loving this beautiful piece by @") + creatorInstagram
            + ("!\n\n" + "Item ID: ") + itemId
            + ("\n\n" + "#IMVU #Fashion #Modeling #VirtualFashion #" + "LadiesAndBabes #@") + Token("creator_instagram")
  {
    LadiesAndBabesInstagramLayout();
    LadiesAndBabesInstagramPieces();
    InstagramFillsInOrder("✨ ", " ✨\n\n" + "Loving this beautiful piece by @", "!\n\n" + "Item ID: ",
                          "\n\n" + "#IMVU #Fashion #Modeling #VirtualFashion #" + "LadiesAndBabes #@",
                          Token("creator_instagram"), itemName, creatorName, creatorInstagram, agencyInstagram, itemId);
  }

  lemma DefaultInstagramLayout()
    ensures DefaultInstagramFormat
         == "✨ " + Token("item_name") + (" ✨\n\n" + "Beautiful piece by @") + Token("creator_instagram")
            + ("!\n\n" + "Item ID: ") + Token("item_id") + ("\n\n" + "#IMVU #Fashion #Modeling #VirtualFashion") + ""
    ensures NoBrace("✨ ") && NoBrace(" ✨\n\n" + "Beautiful piece by @") && NoBrace("!\n\n" + "Item ID: ")
    ensures NoBrace("\n\n" + "#IMVU #Fashion #Modeling #VirtualFashion")
    ensures !Contains("", Token("creator_name")) && !Contains("", Token("agency_instagram"))
  {
    TokenSpellings();
    SeededText.DefaultInstagramPieces();
    NoBraceNoToken("", "creator_name");
    NoBraceNoToken("", "agency_instagram");
  }

  /**
   * The seeded "Default" Instagram format, which has no placeholder for the
   * creator's name or the agency's handle, comes out with the item name,
   * the creator's handle and the item ID in their places.
   */
  lemma DefaultInstagramFormatFills(itemName: string, creatorName: string, creatorInstagram: string,
                                    agencyInstagram: string, itemId: string)
    requires NoBrace(itemName) && NoBrace(creatorName) && NoBrace(creatorInstagram) && NoBrace(agencyInstagram)
    requires NoBrace(itemId)
    ensures InstagramFromTemplate(itemName, creatorName, creatorInstagram, agencyInstagram, itemId,
                                  DefaultInstagramFormat, None, "")
         == "✨ " + itemName + (" ✨\n\n" + "Beautiful piece by @") + creatorInstagram + ("!\n\n" + "Item ID: ")
            + itemId + ("\n\n" + "#IMVU #Fashion #Modeling #VirtualFashion") + ""
  {
    DefaultInstagramLayout();
    InstagramFillsInOrder("✨ ", " ✨\n\n" + "Beautiful piece by @", "!\n\n" + "Item ID: ",
                          "\n\n" + "#IMVU #Fashion #Modeling #VirtualFashion", "",
                          itemName, creatorName, creatorInstagram, agencyInstagram, itemId);
  }

  /** The item ID line and the hashtag line up to the creator's handle sit together inside the caption. */
  lemma HashtagLineInside(head: string, middle: string, a: string, b: string, handle: string, sep: string,
                          other: string, tags: string)
    ensures Contains(head + middle + (a + b + handle + sep + other) + tags, middle + a + b + handle)
  {
    assert head + middle + (a + b + handle + sep + other) + tags == head + (middle + a + b + handle) + (sep + other + tags);
    ContainsMiddle(head, middle + a + b + handle, sep + other + tags);
  }

  /**
   * `generateDefaultInstagramCaption`: it opens with the item name and the
   * creator's handle and closes with the tags when there are any, else with
   * the hashtag line ending in both handles.
   */
  function DefaultInstagramCaption(itemName: string, creatorName: string, creatorInstagram: string, agencyInstagram: string,
                                   itemId: string, additionalTags: string): (r: string)
    ensures StartsWith(r, "✨ " + itemName + " ✨\n\n" + "Loving this beautiful piece by @" + creatorInstagram + "!\n\n")
    ensures additionalTags == "" ==> EndsWith(r, "#VirtualFashion #" + creatorInstagram + " #" + agencyInstagram)
    ensures additionalTags != "" ==> EndsWith(r, "\n" + additionalTags)
  {
    var head := "✨ " + itemName + " ✨\n\n" + "Loving this beautiful piece by @" + creatorInstagram + "!\n\n";
    var middle := "Item ID: " + itemId + "\n\n";
    var hashtags := "#IMVU #Fashion #Modeling " + "#VirtualFashion #" + creatorInstagram + " #" + agencyInstagram;
    var tags := Appendix("\n", additionalTags);
    var r := head + middle + hashtags + tags;
    StartsWithAppend(head, middle + hashtags + tags);
    assert r == head + (middle + hashtags + tags);
    if additionalTags == "" then
      var front := head + middle + "#IMVU #Fashion #Modeling ";
      assert r == front + ("#VirtualFashion #" + creatorInstagram + " #" + agencyInstagram);
      EndsWithAppend(front, "#VirtualFashion #" + creatorInstagram + " #" + agencyInstagram);
      r
    else
      EndsWithAppend(head + middle + hashtags, tags);
      r
  }

  /**
   * The default Instagram caption carries the item ID line, a blank line and
   * the hashtag line up to the creator's handle, whatever the extra tags.
   */
  lemma DefaultInstagramShowsItemId(itemName: string, creatorName: string, creatorInstagram: string,
                                    agencyInstagram: string, itemId: string, additionalTags: string)
    ensures Contains(DefaultInstagramCaption(itemName, creatorName, creatorInstagram, agencyInstagram, itemId, additionalTags),
                     "Item ID: " + itemId + "\n\n" + "#IMVU #Fashion #Modeling " + "#VirtualFashion #" + creatorInstagram)
  {
    HashtagLineInside("✨ " + itemName + " ✨\n\n" + "Loving this beautiful piece by @" + creatorInstagram + "!\n\n",
                      "Item ID: " + itemId + "\n\n", "#IMVU #Fashion #Modeling ", "#VirtualFashion #", creatorInstagram,
                      " #", agencyInstagram, Appendix("\n", additionalTags));
  }

  /** The default Instagram caption does not use the creator's name. */
  lemma DefaultInstagramIgnoresCreatorName(itemName: string, creatorName: string, other: string, creatorInstagram: string,
                                           agencyInstagram: string, itemId: string, additionalTags: string)
    ensures DefaultInstagramCaption(itemName, other, creatorInstagram, agencyInstagram, itemId, additionalTags)
         == DefaultInstagramCaption(itemName, creatorName, creatorInstagram, agencyInstagram, itemId, additionalTags)
  {
  }

  // ---------------------------------------------------------------------
  // Handlers

  /** What a generating subcommand replies with. */
  datatype Reply =
    | AiCaption              // generated by the AI service (not modelled)
    | Generated(text: string)
    | Failed                 // an exception, caught by the handler

  /**
   * `handleIMVUCaption`: with the AI service down, the agency's template when
   * the lookup finds one, read through the snake_case `imvu_caption_format`
   * column, else the default builder called with four arguments, so that
   * neither the shop link nor the tags reach it.
   */
  function ImvuHandler(aiReady: bool, rows: seq<TemplateRow>, agencyName: string, itemName: string, creatorName: string,
                       itemId: string, manufacturerId: string, shopLink: string, additionalTags: string): (r: Reply)
    ensures aiReady <==> r == AiCaption
    ensures !aiReady && FirstActive(rows, agencyName).Some? ==>
      r == Generated(ImvuFromTemplate(itemName, creatorName, itemId, manufacturerId,
                                      FirstActive(rows, agencyName).value.imvuCaptionFormat, shopLink, additionalTags))
    ensures !aiReady && FirstActive(rows, agencyName).None? ==>
      r == Generated(DefaultImvuCaption(itemName, creatorName, itemId, manufacturerId, "", ""))
  {
    if aiReady then AiCaption
    else
      var lookup := Lookup(rows, agencyName);
      if |lookup| > 0 then
        match TextField(lookup[0], "imvu_caption_format")
        case Some(format) => Generated(ImvuFromTemplate(itemName, creatorName, itemId, manufacturerId, format, shopLink, additionalTags))
        case None => Failed
      else
        Generated(DefaultImvuCaption(itemName, creatorName, itemId, manufacturerId, "", ""))
  }

  /** Without a template the IMVU reply does not depend on the shop link or the tags. */
  lemma ImvuDefaultIgnoresShopAndTags(rows: seq<TemplateRow>, agencyName: string, itemName: string, creatorName: string,
                                      itemId: string, manufacturerId: string, shop1: string, tags1: string,
                                      shop2: string, tags2: string)
    requires FirstActive(rows, agencyName).None?
    ensures ImvuHandler(false, rows, agencyName, itemName, creatorName, itemId, manufacturerId, shop1, tags1)
         == ImvuHandler(false, rows, agencyName, itemName, creatorName, itemId, manufacturerId, shop2, tags2)
         == Generated(DefaultImvuCaption(itemName, creatorName, itemId, manufacturerId, "", ""))
  {
  }

  /**
   * `handleInstagramCaption` as written: a found template is read through the
   * camelCase keys `instagramCaptionFormat` and `requiredTags`, which a
   * fetched row does not have; `undefined.replace` throws, and the handler
   * replies with its failure message.
   */
  function InstagramHandler(rows: seq<TemplateRow>, agencyName: string, itemName: string, creatorName: string,
                            creatorInstagram: string, agencyInstagram: string, itemId: string,
                            additionalTags: string): (r: Reply)
    ensures FirstActive(rows, agencyName).Some? <==> r == Failed
    ensures FirstActive(rows, agencyName).None? ==>
      r == Generated(DefaultInstagramCaption(itemName, creatorName, creatorInstagram, agencyInstagram, itemId, additionalTags))
  {
    var lookup := Lookup(rows, agencyName);
    if |lookup| > 0 then
      var row := lookup[0];
      match TextField(row, "instagramCaptionFormat")
      case Some(format) =>
        Generated(InstagramFromTemplate(itemName, creatorName, creatorInstagram, agencyInstagram, itemId, format,
                                        TagsField(row, "requiredTags"), additionalTags))
      case None => Failed
    else
      Generated(DefaultInstagramCaption(itemName, creatorName, creatorInstagram, agencyInstagram, itemId, additionalTags))
  }

  /**
   * The Instagram handler reading the row's own columns: a found template is
   * used, with its required tags, iff the lookup finds one.
   */
  function InstagramHandlerSnakeCase(rows: seq<TemplateRow>, agencyName: string, itemName: string, creatorName: string,
                                     creatorInstagram: string, agencyInstagram: string, itemId: string,
                                     additionalTags: string): (r: Reply)
    ensures r != Failed && r != AiCaption
    ensures FirstActive(rows, agencyName).Some? ==>
      r == Generated(InstagramFromTemplate(itemName, creatorName, creatorInstagram, agencyInstagram, itemId,
                                           FirstActive(rows, agencyName).value.instagramCaptionFormat,
                                           FirstActive(rows, agencyName).value.requiredTags, additionalTags))
    ensures FirstActive(rows, agencyName).None? ==>
      r == Generated(DefaultInstagramCaption(itemName, creatorName, creatorInstagram, agencyInstagram, itemId, additionalTags))
  {
    var lookup := Lookup(rows, agencyName);
    if |lookup| > 0 then
      match TextField(lookup[0], "instagram_caption_format")
      case Some(format) =>
        Generated(InstagramFromTemplate(itemName, creatorName, creatorInstagram, agencyInstagram, itemId, format,
                                        TagsField(lookup[0], "required_tags"), additionalTags))
      case None => Failed
    else
      Generated(DefaultInstagramCaption(itemName, creatorName, creatorInstagram, agencyInstagram, itemId, additionalTags))
  }

  /** A template-literal interpolation: a missing value prints as `undefined`. */
  function Interpolate(v: Option<string>): (r: string)
    ensures v.None? ==> r == "undefined"
    ensures v.Some? ==> r == v.value
  {
    match v
    case None => "undefined"
    case Some(s) => s
  }

  /** The shown template: both formats, and the required tags joined by `", "` when present. */
  datatype TemplateView = NotFound | Shown(imvuFormat: string, instagramFormat: string, requiredTags: Option<string>)

  /**
   * `handleCaptionTemplate` as written: the camelCase keys read as
   * `undefined`, so both formats print as `undefined` and the tags field is
   * never added.
   */
  function CaptionTemplateView(rows: seq<TemplateRow>, agencyName: string): (r: TemplateView)
    ensures FirstActive(rows, agencyName).None? <==> r == NotFound
    ensures FirstActive(rows, agencyName).Some? ==> r == Shown("undefined", "undefined", None)
  {
    var lookup := Lookup(rows, agencyName);
    if |lookup| == 0 then NotFound
    else
      var tags := TagsField(lookup[0], "requiredTags");
      Shown(Interpolate(TextField(lookup[0], "imvuCaptionFormat")),
            Interpolate(TextField(lookup[0], "instagramCaptionFormat")),
            match tags case Some(t) => Some(Join(t, ", ")) case None => None)
  }

  /** The template view reading the row's own columns: it shows the stored formats and tags. */
  function CaptionTemplateViewSnakeCase(rows: seq<TemplateRow>, agencyName: string): (r: TemplateView)
    ensures FirstActive(rows, agencyName).None? <==> r == NotFound
    ensures FirstActive(rows, agencyName).Some? ==>
      var row := FirstActive(rows, agencyName).value;
      r.imvuFormat == row.imvuCaptionFormat && r.instagramFormat == row.instagramCaptionFormat
      && (r.requiredTags.Some? <==> row.requiredTags.Some?)
      && (row.requiredTags.Some? ==> r.requiredTags.value == Join(row.requiredTags.value, ", "))
  {
    var lookup := Lookup(rows, agencyName);
    if |lookup| == 0 then NotFound
    else
      var tags := TagsField(lookup[0], "required_tags");
      Shown(Interpolate(TextField(lookup[0], "imvu_caption_format")),
            Interpolate(TextField(lookup[0], "instagram_caption_format")),
            match tags case Some(t) => Some(Join(t, ", ")) case None => None)
  }
}
