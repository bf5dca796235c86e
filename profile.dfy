/**
 * The `/profile` command: Instagram-handle normalisation, the preferred
 * agency list, the setup defaults and the single-field update. The hosted
 * profile table is not modelled: setup and update produce the profile value
 * handed to the hosted save, and the update reads the lookup's rows as a
 * parameter.
 */
module Profile {
  import opened Wrappers
  import opened JsString
  import Schedule

  // ---------------------------------------------------------------------
  // Handles

  /** `h.startsWith('@') ? h : '@' + h`. */
  function NormaliseHandle(h: string): (r: string)
    ensures StartsWith(r, "@")
    ensures StartsWith(h, "@") ==> r == h
    ensures !StartsWith(h, "@") ==> r == "@" + h
  {
    if StartsWith(h, "@") then h else "@" + h
  }

  /** Normalising twice is normalising once. */
  lemma NormaliseHandleIdempotent(h: string)
    ensures NormaliseHandle(NormaliseHandle(h)) == NormaliseHandle(h)
  {
    var r := NormaliseHandle(h);
    assert StartsWith(r, "@");
  }

  /** Normalisation adds at most one character and keeps the rest of the handle. */
  lemma NormaliseHandleKeepsHandle(h: string)
    ensures var r := NormaliseHandle(h); |r| <= |h| + 1 && EndsWith(r, h)
  {
    if !StartsWith(h, "@") {
      EndsWithAppend("@", h);
    } else {
      EndsWithAppend("", h);
      assert "" + h == h;
    }
  }

  // ---------------------------------------------------------------------
  // Agency lists

  /** `.map(a => a.trim())`: every piece trimmed, none dropped. */
  function TrimEach(pieces: seq<string>): (r: seq<string>)
    ensures |r| == |pieces|
    ensures forall k :: 0 <= k < |r| ==> Trimmed(r[k])
    ensures (forall j :: 0 <= j < |pieces| ==> Trimmed(pieces[j])) ==> r == pieces
  {
    if pieces == [] then []
    else
      var rest := TrimEach(pieces[1..]);
      assert Trimmed(pieces[0]) ==> Trim(pieces[0]) == pieces[0];
      assert pieces == [pieces[0]] + pieces[1..];
      [Trim(pieces[0])] + rest
  }

  /** Each entry is the trimmed piece at the same position. */
  lemma {:induction false} TrimEachAt(pieces: seq<string>, k: nat)
    requires k < |pieces|
    ensures TrimEach(pieces)[k] == Trim(pieces[k])
  {
    if k > 0 {
      TrimEachAt(pieces[1..], k - 1);
    }
  }

  /** `value.split(',').map(a => a.trim())`: one entry per piece, empty entries kept. */
  function ParseAgencies(s: string): (r: seq<string>)
    ensures |r| == |Split(s, ',')| >= 1
    ensures forall k :: 0 <= k < |r| ==> Trimmed(r[k])
  {
    TrimEach(Split(s, ','))
  }

  /** Agency text without a comma is one agency, trimmed. */
  lemma ParseSingleAgency(s: string)
    requires ',' !in s
    ensures ParseAgencies(s) == [Trim(s)]
  {
    SplitWithoutSeparator(s, ',');
    TrimEachAt([s], 0);
  }

  /** Comma-joined trimmed names read back as the same list, empty names included. */
  lemma ParseAgenciesJoined(xs: seq<string>)
    requires |xs| >= 1
    requires forall k :: 0 <= k < |xs| ==> ',' !in xs[k] && Trimmed(xs[k])
    ensures ParseAgencies(Join(xs, ",")) == xs
  {
    SplitJoin(xs, ',');
  }

  /**
   * An empty entry between two commas is kept, where the schedule's parser
   * drops it (`Schedule.ParseActivitiesDropsEmpty`).
   */
  lemma ParseAgenciesKeepsEmpty(x: string, y: string)
    requires ',' !in x && Trimmed(x)
    requires ',' !in y && Trimmed(y)
    ensures ParseAgencies(x + ",," + y) == [x, "", y]
  {
    SplitDoubleSeparator(x, y, ',');
    assert Trim("") == "";
  }

  /** Setup's list: an absent or empty option gives no agencies. */
  function SetupAgencies(option: Option<string>): (r: seq<string>)
    ensures option.None? || option.value == "" ==> r == []
    ensures option.Some? && option.value != "" ==> |r| == |Split(option.value, ',')|
  {
    match option
    case Some(s) => if s != "" then ParseAgencies(s) else []
    case None => []
  }

  // ---------------------------------------------------------------------
  // Profiles

  datatype ReminderSettings = ReminderSettings(streamReminders: bool, weeklyReminders: bool, dailyCheckIns: bool)

  datatype UserProfile = UserProfile(
    userId: string,
    imvuName: string,
    instagramHandle: string,
    timezone: string,
    captionStyle: string,
    preferredAgencies: seq<string>,
    reminderSettings: ReminderSettings)

  /** `getString('caption_style') || 'elegant'`. */
  function StyleOrElegant(style: Option<string>): (r: string)
    ensures style.None? || style.value == "" ==> r == "elegant"
    ensures style.Some? && style.value != "" ==> r == style.value
  {
    if style.Some? && style.value != "" then style.value else "elegant"
  }

  /** The profile `setup` hands to the save. */
  function Setup(
    userId: string, imvuName: string, instagramHandle: string, timezone: string,
    preferredAgencies: Option<string>, captionStyle: Option<string>): (p: UserProfile)
    ensures p.userId == userId && p.imvuName == imvuName && p.timezone == timezone
    ensures p.instagramHandle == NormaliseHandle(instagramHandle) && StartsWith(p.instagramHandle, "@")
    ensures p.captionStyle == StyleOrElegant(captionStyle)
    ensures p.preferredAgencies == SetupAgencies(preferredAgencies)
    ensures p.reminderSettings == ReminderSettings(true, true, false)
  {
    UserProfile(
      userId, imvuName, NormaliseHandle(instagramHandle), timezone, StyleOrElegant(captionStyle),
      SetupAgencies(preferredAgencies), ReminderSettings(true, true, false))
  }

  /** The `field` choices of `update`. */
  const FieldChoices: set<string> := {"imvu_name", "instagram_handle", "timezone", "preferred_agencies", "caption_style"}

  /**
   * The `switch` of `update` on a copy of the profile: the chosen field gets
   * the new value (a handle normalised, agencies parsed, a caption style
   * verbatim) and every other field is copied.
   */
  function UpdateField(p: UserProfile, field: string, value: string): (r: UserProfile)
    ensures r.userId == p.userId && r.reminderSettings == p.reminderSettings
    ensures r.imvuName == (if field == "imvu_name" then value else p.imvuName)
    ensures r.instagramHandle == (if field == "instagram_handle" then NormaliseHandle(value) else p.instagramHandle)
    ensures r.timezone == (if field == "timezone" then value else p.timezone)
    ensures r.preferredAgencies == (if field == "preferred_agencies" then ParseAgencies(value) else p.preferredAgencies)
    ensures r.captionStyle == (if field == "caption_style" then value else p.captionStyle)
    ensures field !in FieldChoices ==> r == p
  {
    match field
    case "imvu_name" => p.(imvuName := value)
    case "instagram_handle" => p.(instagramHandle := NormaliseHandle(value))
    case "timezone" => p.(timezone := value)
    case "preferred_agencies" => p.(preferredAgencies := ParseAgencies(value))
    case "caption_style" => p.(captionStyle := value)
    case _ => p
  }

  /** Updating a field with the value it already holds changes nothing. */
  lemma UpdateWithSameValue(p: UserProfile, value: string)
    ensures p.imvuName == value ==> UpdateField(p, "imvu_name", value) == p
    ensures p.timezone == value ==> UpdateField(p, "timezone", value) == p
    ensures p.captionStyle == value ==> UpdateField(p, "caption_style", value) == p
    ensures p.instagramHandle == NormaliseHandle(value) ==> UpdateField(p, "instagram_handle", value) == p
  {
  }

  datatype UpdateReply = NoProfile | Save(profile: UserProfile)

  /**
   * `update`: with no stored profile nothing is saved; otherwise the first
   * stored profile, with the one field changed, is saved.
   */
  function Update(stored: seq<UserProfile>, field: string, value: string): (r: UpdateReply)
    ensures r.NoProfile? <==> stored == []
    ensures r.Save? ==> r.profile == UpdateField(stored[0], field, value)
  {
    if stored == [] then NoProfile else Save(UpdateField(stored[0], field, value))
  }
}
