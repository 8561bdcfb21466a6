/** The market lookup and the request checks in front of the Bing Web
    Search call: a two-letter country code is resolved to a market code
    through a fixed table, the API key must be in the environment, and a
    location is given either completely or not at all. */
module BingMarkets {
  import opened Wrappers
  import opened PyText

  /** One row of the market table: country, language, market code. */
  datatype Market = Market(country: string, language: string, code: string)

  /** The markets Bing Web Search accepts, in the order they are searched. */
  const Markets: seq<Market> := [
    Market("Argentina", "Spanish", "es-AR"),
    Market("Australia", "English", "en-AU"),
    Market("Austria", "German", "de-AT"),
    Market("Belgium", "Dutch", "nl-BE"),
    Market("Belgium", "French", "fr-BE"),
    Market("Brazil", "Portuguese", "pt-BR"),
    Market("Canada", "English", "en-CA"),
    Market("Canada", "French", "fr-CA"),
    Market("Chile", "Spanish", "es-CL"),
    Market("Denmark", "Danish", "da-DK"),
    Market("Finland", "Finnish", "fi-FI"),
    Market("France", "French", "fr-FR"),
    Market("Germany", "German", "de-DE"),
    Market("Hong Kong SAR", "Traditional Chinese", "zh-HK"),
    Market("India", "English", "en-IN"),
    Market("Indonesia", "English", "en-ID"),
    Market("Italy", "Italian", "it-IT"),
    Market("Japan", "Japanese", "ja-JP"),
    Market("Korea", "Korean", "ko-KR"),
    Market("Malaysia", "English", "en-MY"),
    Market("Mexico", "Spanish", "es-MX"),
    Market("Netherlands", "Dutch", "nl-NL"),
    Market("New Zealand", "English", "en-NZ"),
    Market("Norway", "Norwegian", "no-NO"),
    Market("People's republic of China", "Chinese", "zh-CN"),
    Market("Poland", "Polish", "pl-PL"),
    Market("Republic of the Philippines", "English", "en-PH"),
    Market("Russia", "Russian", "ru-RU"),
    Market("South Africa", "English", "en-ZA"),
    Market("Spain", "Spanish", "es-ES"),
    Market("Sweden", "Swedish", "sv-SE"),
    Market("Switzerland", "French", "fr-CH"),
    Market("Switzerland", "German", "de-CH"),
    Market("Taiwan", "Traditional Chinese", "zh-TW"),
    Market("Turkey", "Turkish", "tr-TR"),
    Market("United Kingdom", "English", "en-GB"),
    Market("United States", "English", "en-US"),
    Market("United States", "Spanish", "es-US")
  ]

  /** Every code has a `-`, so taking the part after it cannot fail. */
  predicate Coded(ms: seq<Market>) {
    forall i :: 0 <= i < |ms| ==> '-' in ms[i].code
  }

  /** `code.split("-")[1]`: the country part of a market code. */
  function Region(code: string): string
    requires '-' in code
  {
    Split(code, '-')[1]
  }

  /** Does this row's country part, upper-cased, equal `cc`? */
  predicate RegionIs(m: Market, cc: string)
    requires '-' in m.code
  {
    Upper(Region(m.code)) == cc
  }

  /** The first row of `ms` whose country part is `cc`, as a market code. */
  function FindMarket(ms: seq<Market>, cc: string): Option<string>
    requires Coded(ms)
  {
    if ms == [] then None
    else if RegionIs(ms[0], cc) then Some(ms[0].code)
    else FindMarket(ms[1..], cc)
  }

  /** The lookup finds a row exactly when one matches, and then it is the
      first matching row. */
  lemma {:induction false} FindMarketFirst(ms: seq<Market>, cc: string)
    requires Coded(ms)
    ensures FindMarket(ms, cc).None? <==> forall i :: 0 <= i < |ms| ==> !RegionIs(ms[i], cc)
    ensures FindMarket(ms, cc).Some? ==>
      exists i :: 0 <= i < |ms| && FindMarket(ms, cc).value == ms[i].code && RegionIs(ms[i], cc) &&
        forall j :: 0 <= j < i ==> !RegionIs(ms[j], cc)
  {
    if ms != [] {
      assert Coded(ms[1..]) by {
        forall i | 0 <= i < |ms| - 1 ensures '-' in ms[1..][i].code {
          assert ms[1..][i] == ms[i + 1];
        }
      }
      FindMarketFirst(ms[1..], cc);
      if !RegionIs(ms[0], cc) {
        if FindMarket(ms, cc).Some? {
          var i :| 0 <= i < |ms| - 1 && FindMarket(ms, cc).value == ms[1..][i].code && RegionIs(ms[1..][i], cc) &&
            forall j :: 0 <= j < i ==> !RegionIs(ms[1..][j], cc);
          assert ms[1..][i] == ms[i + 1];
          forall j | 0 <= j < i + 1 ensures !RegionIs(ms[j], cc) {
            if j > 0 {
              assert ms[1..][j - 1] == ms[j];
            }
          }
        } else {
          forall i | 0 <= i < |ms| ensures !RegionIs(ms[i], cc) {
            if i > 0 {
              assert ms[1..][i - 1] == ms[i];
            }
          }
        }
      }
    }
  }

  lemma MarketsCoded()
    ensures Coded(Markets)
  {
    MarketsShaped();
    forall i | 0 <= i < |Markets| ensures '-' in Markets[i].code {
      assert Markets[i].code[2] == '-';
    }
  }

  /** `_get_market(country_code)`: the first market of the table whose
      country part equals the upper-cased argument, or `None`. */
  function GetMarket(countryCode: string): Option<string> {
    MarketsCoded();
    FindMarket(Markets, Upper(countryCode))
  }

  /** A found market is a code of the table whose country part is the
      upper-cased argument, and no earlier row has that country; nothing is
      found only when no row has it. */
  lemma GetMarketFound(countryCode: string)
    ensures Coded(Markets)
    ensures GetMarket(countryCode).None? <==>
      forall i :: 0 <= i < |Markets| ==> !RegionIs(Markets[i], Upper(countryCode))
    ensures GetMarket(countryCode).Some? ==>
      exists i :: 0 <= i < |Markets| && GetMarket(countryCode).value == Markets[i].code &&
        Upper(Region(Markets[i].code)) == Upper(countryCode) &&
        forall j :: 0 <= j < i ==> !RegionIs(Markets[j], Upper(countryCode))
  {
    MarketsCoded();
    FindMarketFirst(Markets, Upper(countryCode));
  }

  /** A found row is the first match, so a lookup can be read off the table. */
  lemma FindMarketAt(ms: seq<Market>, cc: string, k: nat)
    requires Coded(ms) && k < |ms| && RegionIs(ms[k], cc)
    requires forall j :: 0 <= j < k ==> !RegionIs(ms[j], cc)
    ensures FindMarket(ms, cc) == Some(ms[k].code)
  {
    FindMarketFirst(ms, cc);
    var i :| 0 <= i < |ms| && FindMarket(ms, cc).value == ms[i].code && RegionIs(ms[i], cc) &&
      forall j :: 0 <= j < i ==> !RegionIs(ms[j], cc);
    assert i == k;
  }

  /** The shape of every code in the table: two letters, `-`, two capitals. */
  predicate CodeShape(code: string) {
    |code| == 5 && code[0] != '-' && code[1] != '-' && code[2] == '-' && code[3] != '-' && code[4] != '-' &&
    !IsLowerAscii(code[3]) && !IsLowerAscii(code[4])
  }

  lemma RegionOfShape(code: string)
    requires CodeShape(code)
    ensures '-' in code && Upper(Region(code)) == LastTwo(code)
  {
    assert code[2] == '-';
    assert FirstIndex(code, '-') == 2;
    assert '-' !in code[3..];
    assert Split(code, '-') == [code[..2]] + Split(code[3..], '-');
    UpperLetters(code[3..]);
    assert code[3..] == LastTwo(code);
  }

  /** The last two characters of a string (the whole string if shorter). */
  function LastTwo(s: string): string {
    if |s| < 2 then s else s[|s| - 2..]
  }

  lemma MarketsShaped()
    ensures forall i :: 0 <= i < |Markets| ==> CodeShape(Markets[i].code)
  {
    MarketsShapedFirst();
    MarketsShapedSecond();
    MarketsShapedThird();
  }

  lemma MarketsShapedFirst()
    ensures forall i :: 0 <= i < 13 ==> CodeShape(Markets[i].code)
  {
  }

  lemma MarketsShapedSecond()
    ensures forall i :: 13 <= i < 26 ==> CodeShape(Markets[i].code)
  {
  }

  lemma MarketsShapedThird()
    ensures forall i :: 26 <= i < |Markets| ==> CodeShape(Markets[i].code)
  {
  }

  /** Reading a lookup off the table: the country part of every row is the
      last two characters of its code. */
  lemma MarketsRegions()
    ensures Coded(Markets)
    ensures forall i :: 0 <= i < |Markets| ==> Upper(Region(Markets[i].code)) == LastTwo(Markets[i].code)
  {
    MarketsShaped();
    MarketsCoded();
    forall i | 0 <= i < |Markets| ensures Upper(Region(Markets[i].code)) == LastTwo(Markets[i].code) {
      RegionOfShape(Markets[i].code);
    }
  }

  lemma GetMarketIs(countryCode: string, k: nat)
    requires k < |Markets| && LastTwo(Markets[k].code) == Upper(countryCode)
    requires forall j :: 0 <= j < k ==> LastTwo(Markets[j].code) != Upper(countryCode)
    ensures GetMarket(countryCode) == Some(Markets[k].code)
  {
    MarketsRegions();
    FindMarketAt(Markets, Upper(countryCode), k);
  }

  lemma GetMarketNone(countryCode: string)
    requires forall j :: 0 <= j < |Markets| ==> LastTwo(Markets[j].code) != Upper(countryCode)
    ensures GetMarket(countryCode) == None
  {
    MarketsRegions();
    FindMarketFirst(Markets, Upper(countryCode));
  }

  /** Canada has two markets: the English one comes first, however the
      code is spelt. */
  lemma GetMarketCanada(countryCode: string)
    requires Upper(countryCode) == "CA"
    ensures GetMarket(countryCode) == Some("en-CA")
  {
    assert Markets[6].code == "en-CA";
    assert "en-CA"[3..] == "CA";
    GetMarketIs(countryCode, 6);
  }

  /** The United Kingdom's market is `en-GB`: `uk` finds nothing. */
  lemma GetMarketUnitedKingdom(countryCode: string)
    requires Upper(countryCode) == "UK"
    ensures GetMarket(countryCode) == None
  {
    GetMarketNone(countryCode);
  }

  /** `market` as the search call receives it: `None`, or a string. */
  function ResolveMarket(market: Option<string>): (r: Option<string>)
  {
    if market.Some? && |market.value| == 2 then GetMarket(market.value) else market
  }

  /** Only a two-character market is looked up; anything else is passed on
      unchanged, so a full code such as `en-GB` reaches the request as given
      and an unknown country code leaves the request without a market. */
  lemma ResolveMarketCases(market: Option<string>)
    ensures market.None? ==> ResolveMarket(market) == None
    ensures market.Some? && |market.value| != 2 ==> ResolveMarket(market) == market
    ensures market.Some? && |market.value| == 2 && ResolveMarket(market).Some? ==>
      exists i :: 0 <= i < |Markets| && ResolveMarket(market).value == Markets[i].code &&
        LastTwo(Markets[i].code) == Upper(market.value)
    ensures market.Some? && |market.value| == 2 && ResolveMarket(market).None? ==>
      forall i :: 0 <= i < |Markets| ==> LastTwo(Markets[i].code) != Upper(market.value)
  {
    if market.Some? && |market.value| == 2 {
      MarketsRegions();
      GetMarketFound(market.value);
    }
  }

  /** Why a search request is refused before it is sent. */
  datatype CallError =
    | MissingApiKey     // `BING_API_KEY` is not in the environment (a `KeyError`)
    | PartialLocation   // only one of latitude and longitude is given (a `ValueError`)

  /** What the request carries: the subscription key header, the optional
      user location, the query and the optional market. Text decorations
      are always off and the text format is always raw. */
  datatype Request = Request(
    apiKey: string,
    location: Option<(real, real)>,
    query: string,
    textDecorations: bool,
    textFormat: string,
    market: Option<string>)

  /** The checks and the request that `_bing_api_call` prepares; the API key
      is the value of `BING_API_KEY` in the environment, if any. */
  function PrepareRequest(query: string, lat: Option<real>, lon: Option<real>, market: Option<string>,
                          apiKey: Option<string>): (r: Result<Request, CallError>)
    ensures r.Ok? <==> apiKey.Some? && lat.Some? == lon.Some?
    ensures r == Err(PartialLocation) <==> apiKey.Some? && lat.Some? != lon.Some?
    ensures r.Ok? ==> r.value.apiKey == apiKey.value && r.value.query == query
    ensures r.Ok? ==> (r.value.location.Some? <==> lat.Some?)
    ensures r.Ok? && lat.Some? ==> r.value.location == Some((lat.value, lon.value))
    ensures r.Ok? ==> r.value.market == ResolveMarket(market)
    ensures r.Ok? ==> !r.value.textDecorations && r.value.textFormat == "raw"
  {
    var mkt := ResolveMarket(market);
    if apiKey.None? then Err(MissingApiKey)
    else if lat.Some? || lon.Some? then
      if lat.None? || lon.None? then Err(PartialLocation)
      else Ok(Request(apiKey.value, Some((lat.value, lon.value)), query, false, "raw", mkt))
    else Ok(Request(apiKey.value, None, query, false, "raw", mkt))
  }

  /** A missing key is reported even when the location is also incomplete:
      the key is read first. */
  lemma MissingKeyFirst(query: string, lat: Option<real>, lon: Option<real>, market: Option<string>)
    ensures PrepareRequest(query, lat, lon, market, None) == Err(MissingApiKey)
  {
  }
}
