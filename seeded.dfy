/**
 * Facts about the fixed text pieces of the seeded caption and request
 * formats: none of them holds an opening brace, so no placeholder can
 * hide inside them. Kept in a module of their own, free of the string
 * library, one long piece per lemma, so that each fact is a short check
 * over its literal.
 */
module SeededText {

  lemma ShortPieces()
    ensures '{' !in "✨ " && '{' !in " by " && '{' !in "\nInstagram: @" && '{' !in "!\n\n" + "Item ID: "
  {
  }

  lemma CreatorLabel()
    ensures '{' !in " ✨\n\n" + "Creator: " && '{' !in "\n" + "Item ID: "
  {
  }

  lemma ManufacturerLabel()
    ensures '{' !in "\n" + "Manufacturer ID: "
  {
  }

  lemma DefaultImvuHashtags()
    ensures '{' !in "\n" + "\n#IMVU #Fashion #Modeling"
  {
  }

  lemma LovingLabel()
    ensures '{' !in " ✨\n\n" + "Loving this beautiful piece by @"
  {
  }

  lemma LadiesAndBabesInstagramHashtags()
    ensures '{' !in "\n\n" + "#IMVU #Fashion #Modeling #VirtualFashion #" + "LadiesAndBabes #@"
  {
  }

  lemma BeautifulLabel()
    ensures '{' !in " ✨\n\n" + "Beautiful piece by @"
  {
  }

  lemma DefaultInstagramHashtags()
    ensures '{' !in "\n\n" + "#IMVU #Fashion #Modeling #VirtualFashion"
  {
  }

  lemma RequestOpening()
    ensures '{' !in "Hi! I would love to request "
  {
  }

  lemma StreamingLabel()
    ensures '{' !in " for streaming!" + "\n\nIMVU Link: "
  {
  }

  lemma RequestClosing()
    ensures '{' !in "\n\nThank you for considering my request! 💕"
  {
  }

  lemma DefaultRequestClosing()
    ensures '{' !in "\n\nThank you! 💕"
  {
  }

  lemma DefaultImvuPieces()
    ensures '{' !in "✨ " && '{' !in " ✨\n\n" + "Creator: " && '{' !in "\n" + "Item ID: "
    ensures '{' !in "\n" + "Manufacturer ID: " && '{' !in "\n" + "\n#IMVU #Fashion #Modeling"
  {
    ShortPieces();
    CreatorLabel();
    ManufacturerLabel();
    DefaultImvuHashtags();
  }

  lemma LadiesAndBabesInstagramPieces()
    ensures '{' !in "✨ " && '{' !in " ✨\n\n" + "Loving this beautiful piece by @" && '{' !in "!\n\n" + "Item ID: "
    ensures '{' !in "\n\n" + "#IMVU #Fashion #Modeling #VirtualFashion #" + "LadiesAndBabes #@"
  {
    ShortPieces();
    LovingLabel();
    LadiesAndBabesInstagramHashtags();
  }

  lemma DefaultInstagramPieces()
    ensures '{' !in "✨ " && '{' !in " ✨\n\n" + "Beautiful piece by @" && '{' !in "!\n\n" + "Item ID: "
    ensures '{' !in "\n\n" + "#IMVU #Fashion #Modeling #VirtualFashion"
  {
    ShortPieces();
    BeautifulLabel();
    DefaultInstagramHashtags();
  }

  lemma RequestPieces()
    ensures '{' !in "Hi! I would love to request " && '{' !in " by " && '{' !in " for streaming!" + "\n\nIMVU Link: "
    ensures '{' !in "\nInstagram: @" && '{' !in "\n\nThank you! 💕"
    ensures '{' !in "\n\nThank you for considering my request! 💕"
  {
    ShortPieces();
    RequestOpening();
    StreamingLabel();
    RequestClosing();
    DefaultRequestClosing();
  }

  // The placeholder names carry no brace.

  lemma ItemNames()
    ensures '{' !in "item_name" && '}' !in "item_name" && '{' !in "item_id" && '}' !in "item_id"
  {
  }

  lemma CreatorNames()
    ensures '{' !in "creator_name" && '}' !in "creator_name"
    ensures '{' !in "creator_instagram" && '}' !in "creator_instagram"
  {
  }

  lemma ManufacturerName()
    ensures '{' !in "manufacturer_id" && '}' !in "manufacturer_id"
  {
  }

  lemma LinkNames()
    ensures '{' !in "agency_instagram" && '}' !in "agency_instagram" && '{' !in "shop_link" && '}' !in "shop_link"
  {
  }

  lemma RequestNames()
    ensures '{' !in "imvu_link" && '}' !in "imvu_link"
    ensures '{' !in "instagram_handle" && '}' !in "instagram_handle"
  {
  }
}
