// Records of backend/internal/models/stock.go: the exchange feed's live and
// equity entries, the enriched quote the backend serves, and the dividend feed.
module StockModels {
  import opened Wrappers

  /** One entry of the live feed. */
  datatype StockLive = StockLive(name: string, price: real, change: real, volume: int)

  datatype Company = Company(address: string, directors: seq<string>, email: string,
                             facsimile: Option<string>, industry: string, name: string,
                             sector: string, telephone: string, website: string)

  /** The equity feed's record for one company. */
  datatype StockEquity = StockEquity(capital: real, company: Company, dps: Option<real>,
                                     eps: Option<real>, name: string, price: real, shares: int)

  /** The quote the backend serves for one stock. */
  datatype EnhancedStock = EnhancedStock(
    symbol: string, name: string, currentPrice: real, previousClose: real,
    change: real, changePercent: real, volume: int, lastUpdated: int,
    marketCap: Option<real>, sector: Option<string>, industry: Option<string>)

  /** A quote with company details. */
  datatype DetailedStock = DetailedStock(
    symbol: string, name: string, currentPrice: real, previousClose: real,
    change: real, changePercent: real, volume: int, lastUpdated: int,
    marketCap: real, shares: int, sector: string, industry: string,
    dps: Option<real>, eps: Option<real>, company: Company)

  /** One entry of the dividend feed. */
  datatype GSEDividendStock = GSEDividendStock(
    symbol: string, name: string, dividendYield: real, price: string, marketCap: string,
    country: string, exchange: string, sector: string, url: string)
}
