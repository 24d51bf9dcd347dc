/**
 * Records shared across the model: the per-symbol quote record that the
 * data service supplies and the portfolio keeps in `stockDataMap` (the fields
 * the modelled code reads), and an active holding.
 */
module Stock {

  /**
   * `dataSource` is the empty string when the record carries none (the
   * source treats a missing and an empty source alike).
   */
  datatype StockData = StockData(
    price: real,
    sector: string,
    dataSource: string,
    roe: real,
    pe: real,
    dividendYield: real,
    ma20: real,
    ma60: real,
    volatility: real)

  /**
   * One active position as the portfolio derives it from the transactions:
   * `currentPrice` comes from the quote record (0 without one).
   */
  datatype Holding = Holding(symbol: string, shares: real, avgCost: real, currentPrice: real)
}
