/** The static catalogue (constants.ts): which boosts each platform offers,
    which quantity labels the wizard lists for each of them, and the price
    table `calculatePrice` looks them up in. */
module Constants {
  import opened Types
  import Seqs

  /** A platform card; the icon, colour and gradient are presentation only. */
  datatype PlatformConfig = PlatformConfig(id: PlatformId, name: string, allowedBoosts: seq<BoostType>)

  const PLATFORMS: seq<PlatformConfig> := [
    PlatformConfig(Tiktok, "TikTok", [Likes, Followers, Views, Favourites, Comments]),
    PlatformConfig(Youtube, "YouTube", [Likes, Views, Subscribers]),
    PlatformConfig(Instagram, "Instagram", [Likes, Followers, Views]),
    PlatformConfig(Facebook, "Facebook", [Likes, Followers, Views])
  ]

  /** `QUANTITY_OPTIONS`, one platform at a time: the labels the quantity
      step lists for each boost type. */
  const TIKTOK_OPTIONS: map<BoostType, seq<string>> := map[
    Likes := ["1k", "2k", "3k", "4k", "5k", "10k", "50k", "100k"],
    Followers := ["100", "500", "1k", "2k", "3k", "4k", "5k", "10k"],
    Views := ["1k", "2k", "3k", "4k", "5k", "10k", "50k", "100k"],
    Favourites := ["100", "200", "300", "400", "500"],
    Comments := ["10", "20", "30", "40", "50", "100"]
  ]

  const FACEBOOK_OPTIONS: map<BoostType, seq<string>> := map[
    Likes := ["1k", "2k", "3k", "4k", "5k"],
    Followers := ["1k", "2k", "3k", "4k", "5k"],
    Views := ["10k", "20k", "30k", "40k", "50k"]
  ]

  const YOUTUBE_OPTIONS: map<BoostType, seq<string>> := map[
    Likes := ["1k", "2k", "3k", "4k", "5k"],
    Views := ["1k", "2k", "3k", "4k", "5k"],
    Subscribers := ["1k", "2k", "3k", "4k", "5k", "10k"]
  ]

  const INSTAGRAM_OPTIONS: map<BoostType, seq<string>> := map[
    Likes := ["1k", "2k", "3k", "4k", "5k"],
    Followers := ["1k", "2k", "3k", "4k", "5k"],
    Views := ["10k", "20k", "30k", "40k", "50k"]
  ]

  const QUANTITY_OPTIONS: map<PlatformId, map<BoostType, seq<string>>> := map[
    Tiktok := TIKTOK_OPTIONS,
    Facebook := FACEBOOK_OPTIONS,
    Youtube := YOUTUBE_OPTIONS,
    Instagram := INSTAGRAM_OPTIONS
  ]

  /** `PRICE_LIST`, one platform at a time: for each boost type, the price
      in LKR of each quantity label. */
  const TIKTOK_PRICES: map<BoostType, map<string, int>> := map[
    Likes := map["1k" := 150, "2k" := 280, "3k" := 430, "4k" := 580, "5k" := 730, "10k" := 1480, "50k" := 7480, "100k" := 14980],
    Followers := map["100" := 90, "500" := 450, "1k" := 900, "2k" := 1700, "3k" := 2600, "4k" := 3500, "5k" := 4400, "10k" := 8900],
    Views := map["1k" := 80, "2k" := 160, "3k" := 240, "4k" := 320, "5k" := 400, "10k" := 700, "50k" := 3900, "100k" := 7900],
    Favourites := map["100" := 170, "200" := 340, "300" := 510, "400" := 680, "500" := 850],
    Comments := map["10" := 30, "20" := 60, "30" := 90, "40" := 120, "50" := 150, "100" := 300]
  ]

  const FACEBOOK_PRICES: map<BoostType, map<string, int>> := map[
    Likes := map["1k" := 850, "2k" := 1700, "3k" := 2550, "4k" := 3400, "5k" := 4250],
    Followers := map["1k" := 600, "2k" := 1200, "3k" := 1800, "4k" := 2400, "5k" := 3000],
    Views := map["10k" := 200, "20k" := 350, "30k" := 450, "40k" := 550, "50k" := 600]
  ]

  const YOUTUBE_PRICES: map<BoostType, map<string, int>> := map[
    Likes := map["1k" := 250, "2k" := 430, "3k" := 600, "4k" := 800, "5k" := 1000],
    Views := map["1k" := 600, "2k" := 1200, "3k" := 1600, "4k" := 2200, "5k" := 2800],
    Subscribers := map["1k" := 800, "2k" := 1500, "3k" := 2100, "4k" := 2700, "5k" := 3400, "10k" := 6650]
  ]

  const INSTAGRAM_PRICES: map<BoostType, map<string, int>> := map[
    Likes := map["1k" := 70, "2k" := 140, "3k" := 210, "4k" := 280, "5k" := 350],
    Followers := map["1k" := 750, "2k" := 1400, "3k" := 2100, "4k" := 2800, "5k" := 3500],
    Views := map["10k" := 130, "20k" := 260, "30k" := 390, "40k" := 520, "50k" := 650]
  ]

  const PRICE_LIST: map<PlatformId, map<BoostType, map<string, int>>> := map[
    Tiktok := TIKTOK_PRICES,
    Facebook := FACEBOOK_PRICES,
    Youtube := YOUTUBE_PRICES,
    Instagram := INSTAGRAM_PRICES
  ]

  /** The (platform, boost type, quantity label) triple has an entry in the table. */
  predicate InPriceList(p: PlatformId, t: BoostType, qty: string) {
    p in PRICE_LIST && t in PRICE_LIST[p] && qty in PRICE_LIST[p][t]
  }

  /* The table's facts, one platform at a time: every price is positive
     and no row has an empty label; every label the quantity step offers
     has a price. */

  lemma TiktokPricesPositive(t: BoostType, qty: string)
    requires t in TIKTOK_PRICES && qty in TIKTOK_PRICES[t]
    ensures TIKTOK_PRICES[t][qty] > 0 && qty != ""
  {
  }

  lemma TiktokOptionsPriced(t: BoostType, qty: string)
    requires t in TIKTOK_OPTIONS && qty in TIKTOK_OPTIONS[t]
    ensures t in TIKTOK_PRICES && qty in TIKTOK_PRICES[t]
  {
  }

  lemma FacebookPricesPositive(t: BoostType, qty: string)
    requires t in FACEBOOK_PRICES && qty in FACEBOOK_PRICES[t]
    ensures FACEBOOK_PRICES[t][qty] > 0 && qty != ""
  {
  }

  lemma FacebookOptionsPriced(t: BoostType, qty: string)
    requires t in FACEBOOK_OPTIONS && qty in FACEBOOK_OPTIONS[t]
    ensures t in FACEBOOK_PRICES && qty in FACEBOOK_PRICES[t]
  {
  }

  lemma YoutubePricesPositive(t: BoostType, qty: string)
    requires t in YOUTUBE_PRICES && qty in YOUTUBE_PRICES[t]
    ensures YOUTUBE_PRICES[t][qty] > 0 && qty != ""
  {
  }

  lemma YoutubeOptionsPriced(t: BoostType, qty: string)
    requires t in YOUTUBE_OPTIONS && qty in YOUTUBE_OPTIONS[t]
    ensures t in YOUTUBE_PRICES && qty in YOUTUBE_PRICES[t]
  {
  }

  lemma InstagramPricesPositive(t: BoostType, qty: string)
    requires t in INSTAGRAM_PRICES && qty in INSTAGRAM_PRICES[t]
    ensures INSTAGRAM_PRICES[t][qty] > 0 && qty != ""
  {
  }

  lemma InstagramOptionsPriced(t: BoostType, qty: string)
    requires t in INSTAGRAM_OPTIONS && qty in INSTAGRAM_OPTIONS[t]
    ensures t in INSTAGRAM_PRICES && qty in INSTAGRAM_PRICES[t]
  {
  }

  /** Every entry of the price table is a positive amount, under a
      non-empty label. */
  lemma PricesPositive(p: PlatformId, t: BoostType, qty: string)
    ensures InPriceList(p, t, qty) ==> PRICE_LIST[p][t][qty] > 0 && qty != ""
  {
    if InPriceList(p, t, qty) {
      match p
      case Tiktok => TiktokPricesPositive(t, qty);
      case Facebook => FacebookPricesPositive(t, qty);
      case Youtube => YoutubePricesPositive(t, qty);
      case Instagram => InstagramPricesPositive(t, qty);
    }
  }

  /** The table has no row for an empty quantity label. */
  lemma EmptyLabelUnpriced(p: PlatformId, t: BoostType)
    ensures !InPriceList(p, t, "")
  {
    PricesPositive(p, t, "");
  }

  /** `calculatePrice`: 0 as soon as one of the three selections is missing
      (a null or an empty quantity label) or the table has no entry for it. */
  function CalculatePrice(platform: Option<PlatformId>, boostType: Option<BoostType>, qty: Option<string>): (r: int)
    ensures r >= 0
    ensures platform == None || boostType == None || qty == None || qty == Some("") ==> r == 0
    ensures r > 0 <==> platform.Some? && boostType.Some? && qty.Some?
                       && InPriceList(platform.value, boostType.value, qty.value)
    ensures r > 0 ==> r == PRICE_LIST[platform.value][boostType.value][qty.value]
  {
    if platform == None || boostType == None || qty == None then 0
    else if qty.value == "" then
      EmptyLabelUnpriced(platform.value, boostType.value);
      0
    else if platform.value !in PRICE_LIST then 0
    else
      var platformPrices := PRICE_LIST[platform.value];
      if boostType.value !in platformPrices then 0
      else
        var typePrices := platformPrices[boostType.value];
        if qty.value in typePrices then
          PricesPositive(platform.value, boostType.value, qty.value);
          typePrices[qty.value]
        else 0
  }

  /** Two entries of the table, as configured. */
  lemma PriceExamples()
    ensures CalculatePrice(Some(Tiktok), Some(Likes), Some("1k")) == 150
    ensures CalculatePrice(Some(Youtube), Some(Views), Some("2k")) == 1200
  {
    assert InPriceList(Tiktok, Likes, "1k") && TIKTOK_PRICES[Likes]["1k"] == 150;
    assert InPriceList(Youtube, Views, "2k") && YOUTUBE_PRICES[Views]["2k"] == 1200;
  }

  /** YouTube has no Followers boost, so every label prices to 0; so does a
      label the table does not list. */
  lemma AbsentIsZero(qty: Option<string>)
    ensures CalculatePrice(Some(Youtube), Some(Followers), qty) == 0
    ensures CalculatePrice(Some(Tiktok), Some(Likes), Some("7k")) == 0
  {
    assert Followers !in PRICE_LIST[Youtube];
    assert "7k" !in PRICE_LIST[Tiktok][Likes];
  }

  /** `qty` is one of the labels the wizard offers for `p`/`t`. */
  predicate IsQuantityOption(p: PlatformId, t: BoostType, qty: string) {
    p in QUANTITY_OPTIONS && t in QUANTITY_OPTIONS[p] && qty in QUANTITY_OPTIONS[p][t]
  }

  /** Every label the quantity step can offer has a row in the table. */
  lemma OptionsInPriceList(p: PlatformId, t: BoostType, qty: string)
    requires IsQuantityOption(p, t, qty)
    ensures InPriceList(p, t, qty)
  {
    match p
    case Tiktok => TiktokOptionsPriced(t, qty);
    case Facebook => FacebookOptionsPriced(t, qty);
    case Youtube => YoutubeOptionsPriced(t, qty);
    case Instagram => InstagramOptionsPriced(t, qty);
  }

  /** Every label the quantity step can offer has a positive price, so a
      configuration completed through the wizard never prices to 0. */
  lemma QuantityOptionsArePriced(p: PlatformId, t: BoostType, qty: string)
    requires IsQuantityOption(p, t, qty)
    ensures CalculatePrice(Some(p), Some(t), Some(qty)) > 0
  {
    OptionsInPriceList(p, t, qty);
  }

  /** Every boost a platform card offers has a list of quantity options. */
  lemma AllowedBoostsHaveOptions(i: int, t: BoostType)
    requires 0 <= i < |PLATFORMS| && t in PLATFORMS[i].allowedBoosts
    ensures PLATFORMS[i].id in QUANTITY_OPTIONS && t in QUANTITY_OPTIONS[PLATFORMS[i].id]
  {
  }

  /** Each of the four platforms has exactly one card. */
  lemma PlatformsListedOnce(p: PlatformId)
    ensures |Seqs.Filter((c: PlatformConfig) => c.id == p, PLATFORMS)| == 1
  {
  }
}
