/** The applicant's thunks (src/features/apply/services.ts): fetching a
    published application to fill in, and submitting the answers.

    The fetch normalizes with the designer's ApplicationSchema and shapes the
    result like the designer's fetch, but it looks the application up under
    the requested id, reaches a different path, and has no catch and no
    `rejectValue`.
 */
module ApplyServices {
  import opened Shapes
  import opened Tables
  import opened Thunks
  import opened Schemas
  import DesignerServices

  const SubmitFailed := "Failed to submit application."

  /** `{}`: the value a successful submission settles with. */
  datatype EmptyObject = EmptyObject

  /** GetApplication (applicant). A failed call is never turned into an
      IErrorMessage. */
  ghost function GetApplication(id: Id, response: Response<ApplicationNode>)
    : (c: Call<(), DesignerServices.ApplicationWithChildren>)
    ensures c.request == Request(Get, "applications/" + id, None)
    ensures !("admin/" <= c.request.path)
    ensures c.outcome.Fulfilled? <==> response.Received?
    ensures !c.outcome.Rejected?
  {
    var path := "applications/" + id;
    assert path[1] != "admin/"[1];
    Call(
      Request(Get, path, None),
      match response
      case Received(_, data) =>
        Fulfilled(DesignerServices.ApplicationData(NormalizeApplication(data).entities, id))
      case _ => Thrown)
  }

  /** CreateSubmission: on status 200 it settles with an empty object,
      whatever the server answered. */
  function CreateSubmission<A, D>(submissionData: A, response: Response<D>): (c: Call<A, EmptyObject>)
    ensures c.request == Request(Post, "submissions", Some(submissionData))
    ensures DesignerServices.SettlesOn200(c.outcome, response, "Failed to submit application.")
  {
    Call(Request(Post, "submissions", Some(submissionData)), Echo(response, SubmitFailed, EmptyObject))
  }

  /** The applicant fetch finds the application only when the requested id
      is the payload's own id; otherwise the field is `undefined`, and the
      lists are those of the designer's fetch of the same payload either
      way. */
  lemma ApplicantFindsByArgument(id: Id, slug: string, status: int, a: ApplicationNode)
    ensures GetApplication(id, Received(status, a)).outcome.Fulfilled?
    ensures GetApplication(id, Received(status, a)).outcome.value.application ==
              if id == a.id then Some(FlatApplication(a)) else None
    ensures GetApplication(id, Received(status, a)).outcome.value ==
              DesignerServices.GetApplication(slug, Received(status, a)).outcome.value.(
                application := GetApplication(id, Received(status, a)).outcome.value.application)
  {
    ApplicationRoot(a);
  }

  /** Asking for the payload's own id, the applicant gets exactly what the
      designer's fetch returns for the same response. */
  lemma ApplicantAgreesWithDesigner(slug: string, status: int, a: ApplicationNode)
    ensures GetApplication(a.id, Received(status, a)).outcome ==
              DesignerServices.GetApplication(slug, Received(status, a)).outcome
  {
    ApplicantFindsByArgument(a.id, slug, status, a);
    DesignerServices.GetApplicationFindsRoot(slug, status, a);
  }

  /** With unique ids, the applicant's lists hold exactly the entities
      nested in the payload. */
  lemma ApplicantLists(id: Id, status: int, a: ApplicationNode)
    requires Distinct(ApplicationCensus(a))
    ensures var d := GetApplication(id, Received(status, a)).outcome.value;
            && multiset(d.sections) == multiset(ApplicationCensus(a).sections)
            && multiset(d.rows) == multiset(ApplicationCensus(a).rows)
            && multiset(d.columns) == multiset(ApplicationCensus(a).columns)
            && multiset(d.inputs) == multiset(ApplicationCensus(a).inputs)
  {
    ApplicantFindsByArgument(id, "", status, a);
    DesignerServices.GetApplicationLists("", status, a);
  }
}
