/** The three markets, one writer thread and one snapshot scheduler each. */
module Markets {

  datatype Market = Spot | Usdm | Coinm
}
