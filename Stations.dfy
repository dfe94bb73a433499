/**
 * The station directory: the table of upstream stop codes per station key
 * (`STATION_CODES`) and the case-insensitive mapping from what the user said
 * to a station key (`getStationName`).
 */
module Stations {
  import opened Wrappers
  import opened Text

  /** The eastbound (`e`) and westbound (`w`) stop codes of one station. */
  datatype Codes = Codes(e: string, w: string)

  const StationCodes: map<string, Codes> := map[
    "TargetField" := Codes("TF12", "TF11"),
    "WarehouseDistrict" := Codes("WAR2", "WAR1"),
    "NicolletMall" := Codes("5SNI", "5SNI"),
    "GovernmentPlaza" := Codes("GOVT", "GOVT"),
    "USBankStadium" := Codes("USB2", "USB1"),
    "WestBank" := Codes("WEBK", "WEBK"),
    "EastBank" := Codes("EABK", "EABK"),
    "StadiumVillage" := Codes("STVI", "STVI"),
    "ProspectPark" := Codes("PSPK", "PSPK"),
    "Westgate" := Codes("WGAT", "WGAT"),
    "Raymond" := Codes("RAST", "RAST"),
    "Fairview" := Codes("FAUN", "FAUN"),
    "Snelling" := Codes("SNUN", "SNUN"),
    "Hamline" := Codes("HMUN", "HMUN"),
    "Lexington" := Codes("LXUN", "LXUN"),
    "Victoria" := Codes("VIUN", "VIUN"),
    "Dale" := Codes("UNDA", "UNDA"),
    "Western" := Codes("WEUN", "WEUN"),
    "CapitolRice" := Codes("UNRI", "UNRI"),
    "Robert" := Codes("ROST", "ROST"),
    "Tenth" := Codes("10CE", "10CE"),
    "Central" := Codes("CNST", "CNST"),
    "UnionDepot" := Codes("UNDP", "UNDP")
  ]

  /** The lower-case phrases the directory recognises. */
  const Phrases: set<string> := {
    "target field", "warehouse district", "hennepin avenue", "stadium village",
    "prospect park", "u.s. bank stadium", "west gate", "nicollet mall",
    "government plaza", "west bank", "east bank", "raymond", "fairview",
    "hamline", "lexington", "victoria", "dale", "western avenue",
    "capitol rice", "robert street", "tenth street", "central", "union depot"
  }

  /**
   * `getStationName`: the station key for a spoken phrase, matched after
   * lower-casing, or "" when the phrase is not one the directory knows.
   */
  function StationName(phrase: string): (key: string)
  {
    KeyOf(ToLower(phrase))
  }

  /** The `switch` of `getStationName`, on the already lower-cased phrase. */
  function KeyOf(lower: string): (key: string)
  {
    match lower
    case "target field" => "TargetField"
    case "warehouse district" => "WarehouseDistrict"
    case "hennepin avenue" => "WarehouseDistrict"
    case "stadium village" => "StadiumVillage"
    case "prospect park" => "ProspectPark"
    case "u.s. bank stadium" => "USBankStadium"
    case "west gate" => "Westgate"
    case "nicollet mall" => "NicolletMall"
    case "government plaza" => "GovernmentPlaza"
    case "west bank" => "WestBank"
    case "east bank" => "EastBank"
    case "raymond" => "Raymond"
    case "fairview" => "Fairview"
    case "hamline" => "Hamline"
    case "lexington" => "Lexington"
    case "victoria" => "Victoria"
    case "dale" => "Dale"
    case "western avenue" => "Western"
    case "capitol rice" => "CapitolRice"
    case "robert street" => "Robert"
    case "tenth street" => "Tenth"
    case "central" => "Central"
    case "union depot" => "UnionDepot"
    case _ => ""
  }

  /**
   * A phrase resolves to "" exactly when its lower-case form is not a known
   * phrase, and every other result is a key of the table with both codes;
   * "Snelling" is in the table but no phrase reaches it.
   */
  lemma StationNameResult(phrase: string)
    ensures StationName(phrase) == "" <==> ToLower(phrase) !in Phrases
    ensures StationName(phrase) != "" ==>
      StationName(phrase) in StationCodes && StationName(phrase) != "Snelling"
    ensures StationName(phrase) in StationCodes <==> ToLower(phrase) in Phrases
  {
  }

  /**
   * One phrase the directory maps to `key`, for every key of the table that
   * some phrase reaches; None for "Snelling" and for keys outside the table.
   */
  function SpokenName(key: string): Option<string> {
    match key
    case "TargetField" => Some("target field")
    case "WarehouseDistrict" => Some("warehouse district")
    case "NicolletMall" => Some("nicollet mall")
    case "GovernmentPlaza" => Some("government plaza")
    case "USBankStadium" => Some("u.s. bank stadium")
    case "WestBank" => Some("west bank")
    case "EastBank" => Some("east bank")
    case "StadiumVillage" => Some("stadium village")
    case "ProspectPark" => Some("prospect park")
    case "Westgate" => Some("west gate")
    case "Raymond" => Some("raymond")
    case "Fairview" => Some("fairview")
    case "Hamline" => Some("hamline")
    case "Lexington" => Some("lexington")
    case "Victoria" => Some("victoria")
    case "Dale" => Some("dale")
    case "Western" => Some("western avenue")
    case "CapitolRice" => Some("capitol rice")
    case "Robert" => Some("robert street")
    case "Tenth" => Some("tenth street")
    case "Central" => Some("central")
    case "UnionDepot" => Some("union depot")
    case _ => None
  }

  /**
   * Every key of the table except "Snelling" is the result of some case of
   * the switch: the phrase `SpokenName` gives for it.
   */
  lemma SwitchReachesTable(key: string)
    ensures SpokenName(key).Some? ==> key in StationCodes
    ensures SpokenName(key).Some? ==> KeyOf(SpokenName(key).value) == key
    ensures key in StationCodes && SpokenName(key).None? ==> key == "Snelling"
  {
  }

  /** Two phrases with the same lower-case form resolve to the same key. */
  lemma StationNameCaseInsensitive(a: string, b: string)
    requires ToLower(a) == ToLower(b)
    ensures StationName(a) == StationName(b)
  {
  }

  /** Shouting the phrase changes nothing: upper-casing it first gives the same key. */
  lemma StationNameIgnoresUpperCase(phrase: string)
    ensures StationName(ToUpper(phrase)) == StationName(phrase)
  {
    ToLowerOfUpper(phrase);
  }

  /** A phrase resolves through the switch to the key of its lower-case form. */
  lemma ResolvesAs(phrase: string, lower: string)
    requires |phrase| == |lower|
    requires forall i :: 0 <= i < |phrase| ==> LowerChar(phrase[i]) == lower[i]
    ensures StationName(phrase) == KeyOf(lower)
  {
    ToLowerPointwise(phrase, lower);
  }

  /** "Hennepin Avenue" is an alias of the Warehouse District station. */
  lemma HennepinAvenueAlias()
    ensures StationName("Hennepin Avenue") == "WarehouseDistrict"
  {
    ResolvesAs("Hennepin Avenue", "hennepin avenue");
  }

  lemma WarehouseDistrictPhrase()
    ensures StationName("Warehouse District") == "WarehouseDistrict"
  {
    ResolvesAs("Warehouse District", "warehouse district");
  }

  /**
   * Only three stations have different eastbound and westbound stop codes;
   * every other station uses one code for both directions.
   */
  lemma DistinctDirectionCodes(key: string)
    requires key in StationCodes
    ensures StationCodes[key].e != StationCodes[key].w
        <==> key in {"TargetField", "WarehouseDistrict", "USBankStadium"}
  {
  }
}
