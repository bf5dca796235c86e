/**
 * The `/request` command: the two request builders, the template-or-default
 * choice of `/request format` and the view of `/request template`.
 */
module Request {
  import opened Wrappers
  import opened JsString
  import opened Placeholder
  import opened AgencyTemplates
  import Caption
  import SeededText

  /** The placeholder tokens the request builder replaces, spelled out for the proofs on literal templates. */
  lemma RequestTokenSpellings()
    ensures Token("item_name") == "{item_name}" && Token("creator_name") == "{creator_name}"
    ensures Token("imvu_link") == "{imvu_link}" && Token("instagram_handle") == "{instagram_handle}"
  {
  }

  lemma RequestNames()
    ensures ValidName("item_name") && ValidName("creator_name") && ValidName("imvu_link") && ValidName("instagram_handle")
  {
    SeededText.ItemNames();
    SeededText.CreatorNames();
    SeededText.RequestNames();
  }

  /** The request placeholders, in the order the template builder replaces them. */
  function RequestSubs(itemName: string, creatorName: string, imvuLink: string, instagramHandle: string)
    : seq<(string, string)>
  {
    [("item_name", itemName), ("creator_name", creatorName), ("imvu_link", imvuLink), ("instagram_handle", instagramHandle)]
  }

  /** `generateRequestFromTemplate`. */
  function RequestFromTemplate(itemName: string, creatorName: string, imvuLink: string, instagramHandle: string,
                               template: string): (r: string)
    ensures NoBrace(template) ==> r == template
  {
    var subs := RequestSubs(itemName, creatorName, imvuLink, instagramHandle);
    if NoBrace(template) then
      NoBraceUnchanged(template, subs);
      Substitute(template, subs)
    else
      Substitute(template, subs)
  }

  /**
   * On a well-formed template with brace-free values the request builder
   * fills the first `{item_name}`, `{creator_name}`, `{imvu_link}` and
   * `{instagram_handle}`, in that order, and leaves every later copy verbatim.
   */
  lemma RequestTemplateFillsFirstHoles(segs: seq<Segment>, itemName: string, creatorName: string, imvuLink: string,
                                       instagramHandle: string)
    requires WellFormed(segs)
    requires NoBrace(itemName) && NoBrace(creatorName) && NoBrace(imvuLink) && NoBrace(instagramHandle)
    ensures RequestFromTemplate(itemName, creatorName, imvuLink, instagramHandle, Render(segs))
         == Render(FillAll(segs, RequestSubs(itemName, creatorName, imvuLink, instagramHandle)))
  {
    assert CleanSubs(RequestSubs(itemName, creatorName, imvuLink, instagramHandle));
    SubstituteFillsHoles(segs, RequestSubs(itemName, creatorName, imvuLink, instagramHandle));
  }

  /**
   * `generateDefaultRequest`: it opens with the item, names the creator "for
   * streaming", gives the link and the handle on lines of their own, and
   * closes with the thanks.
   */
  function DefaultRequest(itemName: string, creatorName: string, imvuLink: string, instagramHandle: string): (r: string)
    ensures StartsWith(r, "Hi! I would love to request " + itemName)
    ensures Contains(r, " by " + creatorName + " for streaming!")
    ensures Contains(r, "\n\nIMVU Link: " + imvuLink)
    ensures Contains(r, "\nInstagram: @" + instagramHandle)
    ensures EndsWith(r, "\n\nThank you for considering my request! 💕")
  {
    var p0, p1, p2, p3, p4, p5 := "Hi! I would love to request ", " by ", " for streaming!", "\n\nIMVU Link: ",
                                  "\nInstagram: @", "\n\nThank you for considering my request! 💕";
    TenParts(p0, itemName, p1, creatorName, p2, p3, imvuLink, p4, instagramHandle, p5);
    StartsWithAppend(p0 + itemName, p1 + creatorName + p2 + p3 + imvuLink + p4 + instagramHandle + p5);
    ContainsMiddle(p0 + itemName, p1 + creatorName + p2, p3 + imvuLink + p4 + instagramHandle + p5);
    ContainsMiddle(p0 + itemName + p1 + creatorName + p2, p3 + imvuLink, p4 + instagramHandle + p5);
    ContainsMiddle(p0 + itemName + p1 + creatorName + p2 + p3 + imvuLink, p4 + instagramHandle, p5);
    EndsWithAppend(p0 + itemName + p1 + creatorName + p2 + p3 + imvuLink + p4 + instagramHandle, p5);
    p0 + itemName + p1 + creatorName + p2 + p3 + imvuLink + p4 + instagramHandle + p5
  }

  /** Regroupings of a ten-part text around each of its lines. */
  lemma TenParts(p0: string, i: string, p1: string, c: string, p2: string, p3: string, l: string, p4: string,
                 h: string, p5: string)
    ensures var r := p0 + i + p1 + c + p2 + p3 + l + p4 + h + p5;
      && r == (p0 + i) + (p1 + c + p2 + p3 + l + p4 + h + p5)
      && r == p0 + i + (p1 + c + p2) + (p3 + l + p4 + h + p5)
      && r == p0 + i + p1 + c + p2 + (p3 + l) + (p4 + h + p5)
      && r == p0 + i + p1 + c + p2 + p3 + l + (p4 + h) + p5
      && r == p0 + i + p1 + c + (p2 + p3) + l + p4 + h + p5
  {
  }

  /** The `@` is written unconditionally: a handle given with its `@` comes out with two. */
  lemma DefaultRequestDoublesAt(itemName: string, creatorName: string, imvuLink: string, handle: string)
    ensures Contains(DefaultRequest(itemName, creatorName, imvuLink, "@" + handle), "\nInstagram: @" + "@" + handle)
  {
    AppendAssoc("\nInstagram: @", "@", handle);
  }

  lemma RequestSubsChain(a1: string, a2: string, a3: string, a4: string, itemName: string, creatorName: string,
                         imvuLink: string, instagramHandle: string)
    ensures ChainOf(RequestSubs(itemName, creatorName, imvuLink, instagramHandle),
                    FourFills("item_name", itemName, a1, "creator_name", creatorName, a2, "imvu_link", imvuLink, a3,
                              "instagram_handle", instagramHandle, a4))
  {
  }

  /**
   * A template holding the four request placeholders once each, in chain
   * order, between brace-free texts, comes out with the four values in
   * their places.
   */
  lemma RequestFillsInOrder(a0: string, a1: string, a2: string, a3: string, a4: string, itemName: string,
                            creatorName: string, imvuLink: string, instagramHandle: string)
    requires NoBrace(a0) && NoBrace(a1) && NoBrace(a2) && NoBrace(a3) && NoBrace(a4)
    requires NoBrace(itemName) && NoBrace(creatorName) && NoBrace(imvuLink) && NoBrace(instagramHandle)
    ensures RequestFromTemplate(itemName, creatorName, imvuLink, instagramHandle,
                                a0 + Token("item_name") + a1 + Token("creator_name") + a2 + Token("imvu_link") + a3
                                + Token("instagram_handle") + a4)
         == a0 + itemName + a1 + creatorName + a2 + imvuLink + a3 + instagramHandle + a4
  {
    RequestSubsChain(a1, a2, a3, a4, itemName, creatorName, imvuLink, instagramHandle);
    RequestNames();
    SubstituteFourInOrder(a0, "item_name", itemName, a1, "creator_name", creatorName, a2, "imvu_link", imvuLink, a3,
                          "instagram_handle", instagramHandle, a4,
                          RequestSubs(itemName, creatorName, imvuLink, instagramHandle));
  }

  lemma LadiesAndBabesRequestLayout()
    ensures LadiesAndBabesRequestFormat
         == "Hi! I would love to request " + Token("item_name") + " by " + Token("creator_name")
            + (" for streaming!" + "\n\nIMVU Link: ") + Token("imvu_link") + "\nInstagram: @" + Token("instagram_handle")
            + "\n\nThank you for considering my request! 💕"
  {
    RequestTokenSpellings();
  }

  lemma DefaultRequestLayout()
    ensures DefaultRequestFormat
         == "Hi! I would love to request " + Token("item_name") + " by " + Token("creator_name")
            + (" for streaming!" + "\n\nIMVU Link: ") + Token("imvu_link") + "\nInstagram: @" + Token("instagram_handle")
            + "\n\nThank you! 💕"
  {
    RequestTokenSpellings();
  }

  /**
   * The default request is exactly the seeded "Ladies & Babes" request
   * format filled with the same brace-free values.
   */
  lemma DefaultRequestIsLadiesAndBabesFormat(itemName: string, creatorName: string, imvuLink: string,
                                             instagramHandle: string)
    requires NoBrace(itemName) && NoBrace(creatorName) && NoBrace(imvuLink) && NoBrace(instagramHandle)
    ensures DefaultRequest(itemName, creatorName, imvuLink, instagramHandle)
         == RequestFromTemplate(itemName, creatorName, imvuLink, instagramHandle, LadiesAndBabesRequestFormat)
  {
    RequestTokenSpellings();
    SeededText.RequestPieces();
    LadiesAndBabesRequestLayout();
    RequestFillsInOrder("Hi! I would love to request ", " by ", " for streaming!" + "\n\nIMVU Link: ", "\nInstagram: @",
                        "\n\nThank you for considering my request! 💕", itemName, creatorName, imvuLink, instagramHandle);
    TenParts("Hi! I would love to request ", itemName, " by ", creatorName, " for streaming!", "\n\nIMVU Link: ",
             imvuLink, "\nInstagram: @", instagramHandle, "\n\nThank you for considering my request! 💕");
  }

  /**
   * The seeded "Default" request format, filled, differs from the default
   * request only in its closing line.
   */
  lemma DefaultFormatClosesShorter(itemName: string, creatorName: string, imvuLink: string, instagramHandle: string)
    requires NoBrace(itemName) && NoBrace(creatorName) && NoBrace(imvuLink) && NoBrace(instagramHandle)
    ensures RequestFromTemplate(itemName, creatorName, imvuLink, instagramHandle, DefaultRequestFormat)
         == "Hi! I would love to request " + itemName + " by " + creatorName + " for streaming!" + "\n\nIMVU Link: " + imvuLink
            + "\nInstagram: @" + instagramHandle + "\n\nThank you! 💕"
  {
    RequestTokenSpellings();
    SeededText.RequestPieces();
    DefaultRequestLayout();
    RequestFillsInOrder("Hi! I would love to request ", " by ", " for streaming!" + "\n\nIMVU Link: ", "\nInstagram: @",
                        "\n\nThank you! 💕", itemName, creatorName, imvuLink, instagramHandle);
    TenParts("Hi! I would love to request ", itemName, " by ", creatorName, " for streaming!", "\n\nIMVU Link: ",
             imvuLink, "\nInstagram: @", instagramHandle, "\n\nThank you! 💕");
  }

  // ---------------------------------------------------------------------
  // Handlers

  /** What `/request format` replies with. */
  datatype Reply = Generated(text: string) | Failed

  /**
   * `handleRequestFormat` as written: a found template is read through the
   * camelCase key `requestFormat`, which a fetched row does not have;
   * `undefined.replace` throws and the handler replies with its failure
   * message. Without a template it replies with the default request.
   */
  function FormatHandler(rows: seq<TemplateRow>, agencyName: string, itemName: string, creatorName: string,
                         imvuLink: string, instagramHandle: string): (r: Reply)
    ensures FirstActive(rows, agencyName).Some? <==> r == Failed
    ensures FirstActive(rows, agencyName).None? ==>
      r == Generated(DefaultRequest(itemName, creatorName, imvuLink, instagramHandle))
  {
    var lookup := Lookup(rows, agencyName);
    if |lookup| > 0 then
      match TextField(lookup[0], "requestFormat")
      case Some(format) => Generated(RequestFromTemplate(itemName, creatorName, imvuLink, instagramHandle, format))
      case None => Failed
    else
      Generated(DefaultRequest(itemName, creatorName, imvuLink, instagramHandle))
  }

  /**
   * The format handler reading the row's own `request_format` column: a
   * found template with a format is filled; one whose format is NULL
   * still throws on `null.replace`.
   */
  function FormatHandlerSnakeCase(rows: seq<TemplateRow>, agencyName: string, itemName: string, creatorName: string,
                                  imvuLink: string, instagramHandle: string): (r: Reply)
    ensures r == Failed <==> FirstActive(rows, agencyName).Some? && FirstActive(rows, agencyName).value.requestFormat.None?
    ensures FirstActive(rows, agencyName).Some? && FirstActive(rows, agencyName).value.requestFormat.Some? ==>
      r == Generated(RequestFromTemplate(itemName, creatorName, imvuLink, instagramHandle,
                                         FirstActive(rows, agencyName).value.requestFormat.value))
    ensures FirstActive(rows, agencyName).None? ==>
      r == Generated(DefaultRequest(itemName, creatorName, imvuLink, instagramHandle))
  {
    var lookup := Lookup(rows, agencyName);
    if |lookup| > 0 then
      match TextField(lookup[0], "request_format")
      case Some(format) => Generated(RequestFromTemplate(itemName, creatorName, imvuLink, instagramHandle, format))
      case None => Failed
    else
      Generated(DefaultRequest(itemName, creatorName, imvuLink, instagramHandle))
  }

  /**
   * For the seeded "Ladies & Babes" row, reading the right column gives the
   * same request as an agency without a template.
   */
  lemma LadiesAndBabesRowGivesDefault(id: int, itemName: string, creatorName: string, imvuLink: string,
                                      instagramHandle: string)
    requires NoBrace(itemName) && NoBrace(creatorName) && NoBrace(imvuLink) && NoBrace(instagramHandle)
    ensures FormatHandlerSnakeCase([SeedRow(0, id)], LadiesAndBabesName, itemName, creatorName, imvuLink, instagramHandle)
         == FormatHandlerSnakeCase([], LadiesAndBabesName, itemName, creatorName, imvuLink, instagramHandle)
  {
    assert Matches(SeedRow(0, id), LadiesAndBabesName);
    DefaultRequestIsLadiesAndBabesFormat(itemName, creatorName, imvuLink, instagramHandle);
  }

  /** The `/request template` reply: the default with bracketed fields, or the shown format and required tags. */
  datatype TemplateView = NotFound(defaultFormat: string) | Shown(requestFormat: string, requiredTags: Option<string>)

  /** The default request shown when an agency has no template. */
  const BracketedDefault: string := DefaultRequest("[Item Name]", "[Creator Name]", "[Your IMVU Link]", "[Your Instagram Handle]")

  /**
   * `handleRequestTemplate` as written: a found template is read through the
   * camelCase keys, so its format prints as `undefined` and the tags field is
   * never added.
   */
  function TemplateViewOf(rows: seq<TemplateRow>, agencyName: string): (r: TemplateView)
    ensures FirstActive(rows, agencyName).None? <==> r == NotFound(BracketedDefault)
    ensures FirstActive(rows, agencyName).Some? ==> r == Shown("undefined", None)
  {
    var lookup := Lookup(rows, agencyName);
    if |lookup| == 0 then NotFound(BracketedDefault)
    else
      Shown(Caption.Interpolate(TextField(lookup[0], "requestFormat")),
            match TagsField(lookup[0], "requiredTags") case Some(t) => Some(JsString.Join(t, ", ")) case None => None)
  }

  /**
   * `${v}` of a nullable column: a NULL prints as `null`. The driver reads a
   * NULL column as `null`, not as a missing key, so this differs from
   * `Caption.Interpolate`, where a key the row lacks prints as `undefined`.
   */
  function InterpolateColumn(v: Option<string>): (r: string)
    ensures v.None? ==> r == "null"
    ensures v.Some? ==> r == v.value
  {
    match v
    case None => "null"
    case Some(s) => s
  }

  /**
   * The template view reading the row's own columns: the stored format, and
   * the required tags joined by `", "` iff the row has them.
   */
  function TemplateViewSnakeCase(rows: seq<TemplateRow>, agencyName: string): (r: TemplateView)
    ensures FirstActive(rows, agencyName).None? <==> r == NotFound(BracketedDefault)
    ensures FirstActive(rows, agencyName).Some? ==>
      var row := FirstActive(rows, agencyName).value;
      r.Shown? && r.requestFormat == InterpolateColumn(row.requestFormat)
      && (r.requiredTags.Some? <==> row.requiredTags.Some?)
      && (row.requiredTags.Some? ==> r.requiredTags.value == JsString.Join(row.requiredTags.value, ", "))
  {
    var lookup := Lookup(rows, agencyName);
    if |lookup| == 0 then NotFound(BracketedDefault)
    else
      Shown(InterpolateColumn(TextField(lookup[0], "request_format")),
            match TagsField(lookup[0], "required_tags") case Some(t) => Some(JsString.Join(t, ", ")) case None => None)
  }

  /** With no template the view shows the "Ladies & Babes" format filled with the bracketed field names. */
  lemma BracketedDefaultIsSeededFormat()
    ensures BracketedDefault
         == RequestFromTemplate("[Item Name]", "[Creator Name]", "[Your IMVU Link]", "[Your Instagram Handle]",
                                LadiesAndBabesRequestFormat)
  {
    assert NoBrace("[Item Name]") && NoBrace("[Creator Name]");
    assert NoBrace("[Your IMVU Link]") && NoBrace("[Your Instagram Handle]");
    DefaultRequestIsLadiesAndBabesFormat("[Item Name]", "[Creator Name]", "[Your IMVU Link]", "[Your Instagram Handle]");
  }
}
