/** routes/scholarship.routes.js: the scholarship routes, registered in the benefit shape with
    `/benefits/:userId`. */
module ScholarshipRoutes {
  import opened Routing
  import opened BenefitRoutes

  const Crud: Handlers := Handlers("createScholarship", "viewAllScholarships", "viewSingleScholarship", "updateScholarship", "deleteScholarship", "getBenefitsByUserId")

  const Routes: seq<Route> := Table("benefits", Crud)
}
