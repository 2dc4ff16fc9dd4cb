// src/services/api.ts: the records the web client receives. Numbers are reals
// except volumes; optional fields are Options; timestamps stay the strings
// the server sends.
module ApiTypes {
  import opened Wrappers

  datatype Stock = Stock(
    symbol: string,
    name: string,
    currentPrice: real,
    previousClose: real,
    change: real,
    changePercent: real,
    volume: int,
    lastUpdated: string)

  datatype Alert = Alert(
    id: string,
    userId: string,
    stockSymbol: string,
    stockName: string,
    alertType: string,
    thresholdPrice: Option<real>,
    currentPrice: Option<real>,
    status: string,
    createdAt: string,
    updatedAt: string)
}
