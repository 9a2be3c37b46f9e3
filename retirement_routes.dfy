/** routes/retirement.routes.js: the retirement routes, registered in the benefit shape with
    `/benefits/:userId`. */
module RetirementRoutes {
  import opened Routing
  import opened BenefitRoutes

  const Crud: Handlers := Handlers("createRetirement", "viewAllRetirements", "viewSingleRetirement", "updateRetirement", "deleteRetirement", "getBenefitsByUserId")

  const Routes: seq<Route> := Table("benefits", Crud)
}
