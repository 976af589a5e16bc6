/** The `generate-final-document` backend function: it reads the reviewed
    record, builds the final document from it, marks the consultation
    completed and answers with the document or with an error. The database
    update is an outcome passed in; dates and times are left out. */
module FinalDocument {
  import opened Wrappers

  /** The six reviewed texts (`reviewedData`). */
  datatype ReviewedData = ReviewedData(
    hda: string, comorbidades: string, medicacoes: string,
    alergias: string, hipoteseDiagnostica: string, conduta: string)

  datatype Header = Header(patientName: string, consultationType: string)

  /** `selectedSources` is kept as the list of its values (`Object.values`). */
  datatype Metadata = Metadata(selectedSources: seq<string>, aiContribution: nat, doctorContribution: nat)

  datatype Document = Document(header: Header, content: ReviewedData, metadata: Metadata)

  /** How many of `values` equal `v` (`values.filter(x => x === v).length`). */
  function CountOf(values: seq<string>, v: string): (n: nat)
    ensures n <= |values|
  {
    if values == [] then 0
    else CountOf(values[..|values| - 1], v) + (if values[|values| - 1] == v then 1 else 0)
  }

  /** The filter count is the multiplicity of `v` among the values. */
  lemma {:induction false} CountOfIsMultiplicity(values: seq<string>, v: string)
    ensures CountOf(values, v) == multiset(values)[v]
  {
    if values != [] {
      var init := values[..|values| - 1];
      CountOfIsMultiplicity(init, v);
      assert values == init + [values[|values| - 1]];
      assert multiset(values) == multiset(init) + multiset{values[|values| - 1]};
    }
  }

  /** Two distinct values are never both counted for the same entry, so
      their counts add up to at most the number of entries; they add up to
      exactly that when every entry is one of the two. */
  lemma {:induction false} CountsOfTwo(values: seq<string>, a: string, b: string)
    requires a != b
    ensures CountOf(values, a) + CountOf(values, b) <= |values|
    ensures (forall i | 0 <= i < |values| :: values[i] == a || values[i] == b) ==>
              CountOf(values, a) + CountOf(values, b) == |values|
  {
    if values != [] {
      var init := values[..|values| - 1];
      CountsOfTwo(init, a, b);
      if forall i | 0 <= i < |values| :: values[i] == a || values[i] == b {
        assert forall i | 0 <= i < |init| :: init[i] == values[i];
      }
    }
  }

  /** `generateDocumentContent`: the header repeats the patient and the
      type, the content is the reviewed record unchanged, and the metadata
      carries the sources with the number of 'ai' and of 'doctor' among them. */
  function GenerateDocumentContent(patientName: string, consultationType: string,
                                   reviewed: ReviewedData, selectedSources: seq<string>): (doc: Document)
    ensures doc.header.patientName == patientName && doc.header.consultationType == consultationType
    ensures doc.content == reviewed
    ensures doc.metadata.selectedSources == selectedSources
    ensures doc.metadata.aiContribution == multiset(selectedSources)["ai"]
    ensures doc.metadata.doctorContribution == multiset(selectedSources)["doctor"]
    ensures doc.metadata.aiContribution + doc.metadata.doctorContribution <= |selectedSources|
  {
    CountOfIsMultiplicity(selectedSources, "ai");
    CountOfIsMultiplicity(selectedSources, "doctor");
    CountsOfTwo(selectedSources, "ai", "doctor");
    Document(Header(patientName, consultationType), reviewed,
             Metadata(selectedSources, CountOf(selectedSources, "ai"), CountOf(selectedSources, "doctor")))
  }

  /** The JSON body of a request. A missing `reviewedData` or
      `selectedSources` makes the document construction throw. */
  datatype RequestBody = RequestBody(
    consultationId: string, patientName: string, consultationType: string,
    reviewedData: Option<ReviewedData>, selectedSources: Option<seq<string>>)

  /** A request: its HTTP method and its body, `None` when the body is not JSON. */
  datatype Request = Request(verb: string, body: Option<RequestBody>)

  /** Why the handler failed. */
  datatype Failure =
    | MalformedRequest   // `req.json()` or the document construction threw
    | UpdateFailed       // the status update reported an error

  /** The `error` text of the response: fixed for a failed update; for a
      malformed request it is whatever the runtime's exception says. */
  function ErrorText(f: Failure): Option<string> {
    match f
    case MalformedRequest => None
    case UpdateFailed => Some("Failed to update consultation status")
  }

  datatype ResponseBody =
    | NoBody                                                     // the CORS preflight answer
    | Succeeded(message: string, documentContent: Document)     // `{success: true, ...}`
    | Failed(reason: Failure)                                    // `{error, success: false}`

  datatype Response = Response(status: nat, body: ResponseBody)

  predicate Success(r: Response) {
    r.body.Succeeded?
  }

  /** What one call does: the response, and the consultation whose status
      it set to 'completed', if any. */
  datatype Outcome = Outcome(response: Response, completedId: Option<string>)

  /** A non-preflight request whose body parses and carries both the
      reviewed record and the sources. */
  predicate WellFormed(req: Request) {
    req.verb != "OPTIONS" && req.body.Some?
    && req.body.value.reviewedData.Some? && req.body.value.selectedSources.Some?
  }

  /** The request handler. `updateOk` is the outcome of the status update
      in the database. */
  function Handle(req: Request, updateOk: bool): (o: Outcome)
    ensures req.verb == "OPTIONS" ==> o == Outcome(Response(200, NoBody), None)
    ensures o.response.status == 200 || o.response.status == 500
    ensures o.response.status == 500 <==> o.response.body.Failed?
    ensures Success(o.response) <==> WellFormed(req) && updateOk
    ensures Success(o.response) ==>
      var b := req.body.value;
      && o.completedId == Some(b.consultationId)
      && o.response.body.documentContent.content == b.reviewedData.value
      && o.response.body.documentContent.header == Header(b.patientName, b.consultationType)
      && o.response.body.documentContent.metadata.selectedSources == b.selectedSources.value
      && o.response.body.documentContent.metadata.aiContribution == multiset(b.selectedSources.value)["ai"]
      && o.response.body.documentContent.metadata.doctorContribution == multiset(b.selectedSources.value)["doctor"]
      && o.response.body.message == "Document generated successfully"
    ensures o.completedId.Some? ==> Success(o.response)
    ensures WellFormed(req) && !updateOk ==> o.response == Response(500, Failed(UpdateFailed))
    ensures req.verb != "OPTIONS" && !WellFormed(req) ==> o.response == Response(500, Failed(MalformedRequest))
  {
    if req.verb == "OPTIONS" then Outcome(Response(200, NoBody), None)
    else if req.body.None? || req.body.value.reviewedData.None? || req.body.value.selectedSources.None? then
      Outcome(Response(500, Failed(MalformedRequest)), None)
    else
      var b := req.body.value;
      var doc := GenerateDocumentContent(b.patientName, b.consultationType,
                                         b.reviewedData.value, b.selectedSources.value);
      if !updateOk then Outcome(Response(500, Failed(UpdateFailed)), None)
      else Outcome(Response(200, Succeeded("Document generated successfully", doc)), Some(b.consultationId))
  }
}
