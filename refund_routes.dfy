/** routes/refund.routes.js: the refund routes, registered in the benefit shape with
    `/benefits/:userId`. */
module RefundRoutes {
  import opened Routing
  import opened BenefitRoutes

  const Crud: Handlers := Handlers("createRefund", "viewAllRefunds", "viewSingleRefund", "updateRefund", "deleteRefund", "getBenefitsByUserId")

  const Routes: seq<Route> := Table("benefits", Crud)
}
