/**
 * The card kind the image importer (src/image_search_app/scripts/img_to_card.py)
 * reads from the header strip of a card image: a keyword search on the
 * lower-cased header text. The OCR text itself is a parameter.
 */
module ImgToCard {
  import opened Text

  const Kinds: set<string> := {"Event", "Unit", "Upgrade", "Leader", "Card"}

  /** `_detect_type`: the first keyword, in the order event, unit, upgrade, leader, found in the lowered text. */
  function DetectType(topText: string): (r: string)
    ensures r in Kinds
  {
    var lowered := Lower(topText);
    if Contains(lowered, "event") then "Event"
    else if Contains(lowered, "unit") then "Unit"
    else if Contains(lowered, "upgrade") then "Upgrade"
    else if Contains(lowered, "leader") then "Leader"
    else "Card"
  }

  /**
   * Each kind is chosen exactly when its keyword occurs and no keyword
   * before it does; "Card" when none occurs.
   */
  lemma DetectTypePriority(topText: string)
    ensures var l := Lower(topText);
      && (DetectType(topText) == "Event" <==> Contains(l, "event"))
      && (DetectType(topText) == "Unit" <==> !Contains(l, "event") && Contains(l, "unit"))
      && (DetectType(topText) == "Upgrade" <==>
            !Contains(l, "event") && !Contains(l, "unit") && Contains(l, "upgrade"))
      && (DetectType(topText) == "Leader" <==>
            !Contains(l, "event") && !Contains(l, "unit") && !Contains(l, "upgrade") && Contains(l, "leader"))
      && (DetectType(topText) == "Card" <==>
            !Contains(l, "event") && !Contains(l, "unit") && !Contains(l, "upgrade") && !Contains(l, "leader"))
  {
  }

  /** The keywords are matched whatever the case of the header text. */
  lemma DetectTypeIgnoresCase(topText: string)
    ensures DetectType(Upper(topText)) == DetectType(topText)
    ensures DetectType(Lower(topText)) == DetectType(topText)
  {
    LowerOfCased(topText);
  }

  /** `" ".join(text.split())`: the OCR text of the header, single-spaced. */
  function HeaderText(ocr: string): string
  {
    Join(" ", Words(ocr))
  }

  /** `_detect_type(top_text) if top_text else "Card"`. */
  function HeaderType(topText: string): (r: string)
    ensures r in Kinds
  {
    if topText == [] then "Card" else DetectType(topText)
  }

  /** A blank header gives "Card". */
  lemma BlankHeader(ocr: string)
    requires forall i :: 0 <= i < |ocr| ==> IsSpace(ocr[i])
    ensures HeaderType(HeaderText(ocr)) == "Card"
  {
    StripEmpty(ocr);
    assert StripLeft(ocr) == [];
  }

  /** The guard for empty text agrees with the detector, which finds no keyword in it. */
  lemma HeaderTypeIsDetectType(topText: string)
    ensures HeaderType(topText) == DetectType(topText)
  {
  }

  /** The class `image_to_card` builds for a kind: `cls_map.get(card_type, Card)`. */
  datatype CardClass = EventCard | UnitCard | UpgradeCard | LeaderCard | PlainCard

  function ClassFor(cardType: string): (c: CardClass)
    ensures c == PlainCard <==> cardType !in {"Event", "Unit", "Upgrade", "Leader"}
  {
    match cardType
    case "Event" => EventCard
    case "Unit" => UnitCard
    case "Upgrade" => UpgradeCard
    case "Leader" => LeaderCard
    case _ => PlainCard
  }
}
