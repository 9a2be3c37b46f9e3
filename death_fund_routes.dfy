/** routes/deathFund.routes.js: the death fund routes, registered in the benefit shape with
    `/benefits/:userId`. */
module DeathFundRoutes {
  import opened Routing
  import opened BenefitRoutes

  const Crud: Handlers := Handlers("createDeathFund", "viewAllDeathFunds", "viewSingleDeathFund", "updateDeathFund", "deleteDeathFund", "getBenefitsByUserId")

  const Routes: seq<Route> := Table("benefits", Crud)
}
