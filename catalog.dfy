/** The fixed data of constants.ts that the modelled logic reads: the
    localized "unknown location" label and the two catalogs. Descriptions,
    image URLs and every other translation are left out. */
module Catalog {
  import opened Types

  /** The localized sentinel the map page stores when no position is available. */
  function UnknownLabel(l: LanguageCode): (sentinel: string)
    ensures sentinel != ""
  {
    match l
    case En => "Unknown Location"
    case Es => "Ubicación Desconocida"
    case Fr => "Lieu Inconnu"
    case Zh => "未知位置"
    case Ko => "알 수 없는 위치"
  }

  /** The destinations catalog, in display order. */
  const Destinations: seq<Destination> := [
    Destination("1", "Kyoto", "京都", Culture, "Kansai"),
    Destination("2", "Akihabara", "秋葉原", City, "Tokyo"),
    Destination("3", "Mount Fuji", "富士山", Nature, "Chubu"),
    Destination("4", "Dotonbori", "道頓堀", Food, "Osaka"),
    Destination("5", "Naoshima", "直島", Culture, "Kagawa"),
    Destination("6", "Hokkaido", "北海道", Nature, "Hokkaido")
  ]

  /** The events catalog, in display order. */
  const JapanEvents: seq<JapanEvent> := [
    JapanEvent("1", "Sapporo Snow Festival", "さっぽろ雪まつり", "Early February", 2, "Sapporo, Hokkaido"),
    JapanEvent("2", "Cherry Blossom Season (Hanami)", "花見", "Late March - Early April", 4, "Nationwide"),
    JapanEvent("3", "Kanda Matsuri", "神田祭", "Mid May (Odd numbered years)", 5, "Tokyo"),
    JapanEvent("4", "Gion Matsuri", "祇園祭", "July 1-31", 7, "Kyoto"),
    JapanEvent("5", "Tenjin Matsuri", "天神祭", "July 24-25", 7, "Osaka"),
    JapanEvent("6", "Awa Odori", "阿波おどり", "August 12-15", 8, "Tokushima"),
    JapanEvent("7", "Takayama Autumn Festival", "高山祭", "October 9-10", 10, "Takayama")
  ]

  /** Every catalog event lies in a calendar month, as its record type documents. */
  lemma EventMonthsInRange()
    ensures forall i :: 0 <= i < |JapanEvents| ==> 1 <= JapanEvents[i].month <= 12
  {
  }
}
