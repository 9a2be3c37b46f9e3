/** routes/medical.routes.js: the medical routes, registered in the benefit shape with
    `/benefits/:userId`. */
module MedicalRoutes {
  import opened Routing
  import opened BenefitRoutes

  const Crud: Handlers := Handlers("createMedical", "viewAllMedicals", "viewSingleMedical", "updateMedical", "deleteMedical", "getBenefitsByUserId")

  const Routes: seq<Route> := Table("benefits", Crud)
}
