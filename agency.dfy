/**
 * Agency caption/request templates: the row shape of the `agency_templates`
 * table, the two rows seeded into an empty table, and the active-name lookup
 * both stores perform.
 */
module AgencyTemplates {
  import opened Wrappers

  /**
   * One `agency_templates` row. `requiredTags` and `optionalTags` hold the
   * tag lists (the desktop store keeps them JSON-encoded; the encoding is not
   * modelled); `requestFormat` is a nullable column.
   */
  datatype TemplateRow = TemplateRow(
    id: int,
    agencyName: string,
    imvuCaptionFormat: string,
    instagramCaptionFormat: string,
    requiredTags: Option<seq<string>>,
    optionalTags: Option<seq<string>>,
    requestFormat: Option<string>,
    isActive: bool)

  /**
   * `row[key]` for a text column. A fetched row carries the table's own
   * snake_case column names only; any other key, such as the camelCase
   * `instagramCaptionFormat`, reads as `undefined` (here `None`).
   */
  function TextField(row: TemplateRow, key: string): (r: Option<string>)
    ensures key == "imvu_caption_format" ==> r == Some(row.imvuCaptionFormat)
    ensures key == "instagram_caption_format" ==> r == Some(row.instagramCaptionFormat)
    ensures key == "request_format" ==> r == row.requestFormat
    ensures key !in {"imvu_caption_format", "instagram_caption_format", "request_format"} ==> r == None
  {
    if key == "imvu_caption_format" then Some(row.imvuCaptionFormat)
    else if key == "instagram_caption_format" then Some(row.instagramCaptionFormat)
    else if key == "request_format" then row.requestFormat
    else None
  }

  /** `row[key]` for a tag-list column, under the same naming rule. */
  function TagsField(row: TemplateRow, key: string): (r: Option<seq<string>>)
    ensures key == "required_tags" ==> r == row.requiredTags
    ensures key == "optional_tags" ==> r == row.optionalTags
    ensures key !in {"required_tags", "optional_tags"} ==> r == None
  {
    if key == "required_tags" then row.requiredTags
    else if key == "optional_tags" then row.optionalTags
    else None
  }

  // The seeded templates, identical in the hosted and the desktop store.
  // Each format is written split at its placeholders and line breaks.

  const LadiesAndBabesName: string := "Ladies & Babes"
  const LadiesAndBabesImvuFormat: string :=
    "✨ " + "{item_name}" + " ✨\n\n" + "Creator: " + "{creator_name}" + "\n" + "Item ID: " + "{item_id}"
    + "\n" + "Manufacturer ID: " + "{manufacturer_id}" + "\n" + "\n#IMVU #Fashion #Modeling" + " #LadiesAndBabes"
  const LadiesAndBabesInstagramFormat: string :=
    "✨ " + "{item_name}" + " ✨\n\n" + "Loving this beautiful piece by @" + "{creator_instagram}" + "!\n\n"
    + "Item ID: " + "{item_id}" + "\n\n" + "#IMVU #Fashion #Modeling #VirtualFashion #" + "LadiesAndBabes #@"
    + "{creator_instagram}"
  const LadiesAndBabesTags: seq<string> := ["#IMVU", "#Fashion", "#Modeling", "#LadiesAndBabes"]
  const LadiesAndBabesRequestFormat: string :=
    "Hi! I would love to request " + "{item_name}" + " by " + "{creator_name}" + " for streaming!" + "\n\nIMVU Link: "
    + "{imvu_link}" + "\nInstagram: @" + "{instagram_handle}" + "\n\nThank you for considering my request! 💕"

  const DefaultName: string := "Default"
  const DefaultImvuFormat: string :=
    "✨ " + "{item_name}" + " ✨\n\n" + "Creator: " + "{creator_name}" + "\n" + "Item ID: " + "{item_id}"
    + "\n" + "Manufacturer ID: " + "{manufacturer_id}" + "\n" + "\n#IMVU #Fashion #Modeling"
  const DefaultInstagramFormat: string :=
    "✨ " + "{item_name}" + " ✨\n\n" + "Beautiful piece by @" + "{creator_instagram}" + "!\n\n" + "Item ID: "
    + "{item_id}" + "\n\n" + "#IMVU #Fashion #Modeling #VirtualFashion"
  const DefaultTags: seq<string> := ["#IMVU", "#Fashion", "#Modeling"]
  const DefaultRequestFormat: string :=
    "Hi! I would love to request " + "{item_name}" + " by " + "{creator_name}" + " for streaming!" + "\n\nIMVU Link: "
    + "{imvu_link}" + "\nInstagram: @" + "{instagram_handle}" + "\n\nThank you! 💕"

  /** Seeded row number `k` (0 or 1) stored under row id `id`; unset columns take their defaults. */
  function SeedRow(k: nat, id: int): (r: TemplateRow)
    requires k < 2
    ensures r.id == id && r.isActive && r.optionalTags == None
    ensures r.agencyName == (if k == 0 then LadiesAndBabesName else DefaultName)
  {
    if k == 0 then
      TemplateRow(id, LadiesAndBabesName, LadiesAndBabesImvuFormat, LadiesAndBabesInstagramFormat,
                  Some(LadiesAndBabesTags), None, Some(LadiesAndBabesRequestFormat), true)
    else
      TemplateRow(id, DefaultName, DefaultImvuFormat, DefaultInstagramFormat,
                  Some(DefaultTags), None, Some(DefaultRequestFormat), true)
  }

  /** `agency_name = name AND is_active`. */
  predicate Matches(row: TemplateRow, name: string) {
    row.agencyName == name && row.isActive
  }

  /** The first row, in table order, with exactly that name and the active flag set. */
  function FirstActive(rows: seq<TemplateRow>, name: string): (r: Option<TemplateRow>)
    ensures r.None? <==> forall k :: 0 <= k < |rows| ==> !Matches(rows[k], name)
    ensures r.Some? ==> exists k :: 0 <= k < |rows| && rows[k] == r.value && Matches(rows[k], name)
                          && forall j :: 0 <= j < k ==> !Matches(rows[j], name)
  {
    if rows == [] then None
    else if Matches(rows[0], name) then Some(rows[0])
    else
      var rest := FirstActive(rows[1..], name);
      assert forall k :: 1 <= k < |rows| ==> rows[k] == rows[1..][k - 1];
      if rest.Some? then
        var k' :| 0 <= k' < |rows[1..]| && rows[1..][k'] == rest.value && Matches(rows[1..][k'], name)
                  && forall j :: 0 <= j < k' ==> !Matches(rows[1..][j], name);
        assert rows[k' + 1] == rest.value;
        rest
      else rest
  }

  /** The hosted lookup (`.eq(name).eq(is_active).limit(1)`): that row as a list of at most one. */
  function Lookup(rows: seq<TemplateRow>, name: string): (r: seq<TemplateRow>)
    ensures |r| <= 1
    ensures r == [] <==> FirstActive(rows, name).None?
    ensures r != [] ==> r[0] == FirstActive(rows, name).value
  {
    match FirstActive(rows, name)
    case None => []
    case Some(row) => [row]
  }
}
