/**
 The backend's HTTP layer without HTTP: the three module-level agents, the
 two upload routes that fan a new file out to them, and the chat route that
 forwards a message to the agent its scenario names.

 The file id that `str(uuid.uuid4())` would generate is a parameter of each
 upload, required to have the canonical UUID form.
 */
module App {
  import opened Wrappers
  import opened PyStr
  import opened Agents

  /** The three chat scenarios, one per agent. */
  datatype Scenario = Incident | PdfQa | ImageVerify {
    /** The value of the request's "scenario" field that selects this scenario. */
    function Tag(): string {
      match this
      case Incident => "incident"
      case PdfQa => "pdf_qa"
      case ImageVerify => "image_verify"
    }
  }

  /** The scenario a "scenario" field selects, if any. */
  function ParseScenario(tag: string): (r: Option<Scenario>)
    ensures r.Some? ==> r.value.Tag() == tag
    ensures r.None? ==> forall sc: Scenario :: sc.Tag() != tag
  {
    if tag == "incident" then Some(Incident)
    else if tag == "pdf_qa" then Some(PdfQa)
    else if tag == "image_verify" then Some(ImageVerify)
    else None
  }

  /** Every scenario is selected by its own tag, and by no other. */
  lemma ParseScenarioTag(sc: Scenario, tag: string)
    ensures ParseScenario(sc.Tag()) == Some(sc)
    ensures ParseScenario(tag) == Some(sc) <==> tag == sc.Tag()
  {
  }

  /** The error `chat` raises for an unknown scenario: HTTP 400 "Invalid scenario". */
  const InvalidScenario: Error := HttpError(400, "Invalid scenario")

  /** `os.path.join(folder, name)` for a name that is not an absolute path. */
  function JoinPath(folder: string, name: string): (path: string)
    requires name == [] || name[0] != '/'
    ensures |path| >= |name| && path[|path| - |name|..] == name
    ensures folder <= path
    ensures folder == [] ==> path == name
    ensures folder != [] ==> |path| > |name| && path[|path| - |name| - 1] == '/'
    ensures |path| == |folder| + |name| + (if folder == [] || folder[|folder| - 1] == '/' then 0 else 1)
  {
    if folder == [] || folder[|folder| - 1] == '/' then folder + name else folder + "/" + name
  }

  /** Where an upload with id `fileId` and extension `ext` is saved. */
  function UploadPath(folder: string, fileId: string, ext: string): string
    requires IsUuidText(fileId)
  {
    JoinPath(folder, fileId + ext)
  }

  /** Two uploads with different ids are saved at different paths. */
  lemma UploadPathsDistinct(folder: string, id1: string, id2: string, ext: string)
    requires IsUuidText(id1) && IsUuidText(id2) && id1 != id2
    ensures UploadPath(folder, id1, ext) != UploadPath(folder, id2, ext)
  {
    var n1, n2 := id1 + ext, id2 + ext;
    assert n1[..36] == id1 && n2[..36] == id2;
    assert n1 != n2;
  }

  class Dispatcher {
    /** The directory uploads are saved under (the UPLOAD_FOLDER setting, './uploads' by default). */
    const uploadFolder: string
    const incidentAgent: IncidentRecallAgent
    const pdfAgent: PdfQaAgent
    const imgAgent: ImageVerificationAgent

    constructor (uploadFolder: string, incidentAgent: IncidentRecallAgent, pdfAgent: PdfQaAgent,
                 imgAgent: ImageVerificationAgent)
      ensures this.uploadFolder == uploadFolder
      ensures this.incidentAgent == incidentAgent && this.pdfAgent == pdfAgent && this.imgAgent == imgAgent
    {
      this.uploadFolder := uploadFolder;
      this.incidentAgent := incidentAgent;
      this.pdfAgent := pdfAgent;
      this.imgAgent := imgAgent;
    }

    /**
     `POST /api/upload/incidents`: saves the spreadsheet as `<id>.xlsx` and
     loads it into the incident agent, replacing every earlier record. Only the
     incident agent changes. Returns the id, or the parse failure.
     */
    method UploadIncidents(fileId: string) returns (r: Result<string, Error>)
      requires IsUuidText(fileId)
      modifies incidentAgent
      ensures var rows := incidentAgent.readRecords(UploadPath(uploadFolder, fileId, ".xlsx"));
        match rows
        case None => r == Failure(CollaboratorError) && incidentAgent.incidents == old(incidentAgent.incidents)
        case Some(records) => r == Success(fileId) && incidentAgent.incidents == records
      ensures pdfAgent.vectors == old(pdfAgent.vectors) && imgAgent.heatmaps == old(imgAgent.heatmaps)
    {
      var path := UploadPath(uploadFolder, fileId, ".xlsx");
      var loaded := incidentAgent.LoadIncidents(path);
      if !loaded {
        return Failure(CollaboratorError);
      }
      return Success(fileId);
    }

    /**
     `POST /api/upload/pdf`: saves the PDF as `<id>.pdf`, then loads it into
     the Q&A agent and, if that succeeded, into the image agent, both under the
     same id. Returns that id once both loads succeed. When the image load
     raises, the Q&A agent keeps the index it has just stored.
     */
    method UploadPdf(fileId: string) returns (r: Result<string, Error>)
      requires IsUuidText(fileId)
      modifies pdfAgent, imgAgent
      ensures var path := UploadPath(uploadFolder, fileId, ".pdf");
        var index, images := pdfAgent.IndexFor(path), imgAgent.extractImages(path);
        && pdfAgent.vectors == (if index.Some? then old(pdfAgent.vectors)[fileId := index.value] else old(pdfAgent.vectors))
        && imgAgent.heatmaps == (if index.Some? && images.Some?
                                 then old(imgAgent.heatmaps)[fileId := imgAgent.HeatmapsOf(images.value)]
                                 else old(imgAgent.heatmaps))
        && r == (if index.Some? && images.Some? then Success(fileId) else Failure(CollaboratorError))
      ensures incidentAgent.incidents == old(incidentAgent.incidents)
    {
      var path := UploadPath(uploadFolder, fileId, ".pdf");
      var indexed := pdfAgent.LoadDocument(fileId, path);
      if !indexed {
        return Failure(CollaboratorError);
      }
      var extracted := imgAgent.LoadDocument(fileId, path);
      if !extracted {
        return Failure(CollaboratorError);
      }
      return Success(fileId);
    }

    /**
     `POST /api/chat`: forwards `message` unchanged to the one agent that
     `scenario` names and returns that agent's reply list as it is (the
     route wraps it as `{"messages": ...}`); an unknown scenario raises HTTP 400
     and reaches no agent. The method may modify nothing, so no store changes.
     */
    method Chat(scenario: string, message: string) returns (r: Result<seq<Message>, Error>)
      ensures ParseScenario(scenario).None? ==> r == Failure(InvalidScenario)
      ensures scenario == Incident.Tag() ==> r == IncidentReply(incidentAgent.incidents, incidentAgent.render, message)
      ensures scenario == PdfQa.Tag() ==> r == PdfReply(pdfAgent.vectors, pdfAgent.answer, message)
      ensures scenario == ImageVerify.Tag() ==> r == Success(ImageReply(imgAgent.heatmaps, imgAgent.encodePng, message))
    {
      if scenario == "incident" {
        r := incidentAgent.Handle(message);
      } else if scenario == "pdf_qa" {
        r := pdfAgent.Handle(message);
      } else if scenario == "image_verify" {
        var msgs := imgAgent.Handle(message);
        r := Success(msgs);
      } else {
        r := Failure(InvalidScenario);
      }
    }
  }

  /**
   A PDF upload followed by a question about the returned id: once the upload
   succeeds, the question is answered from the index just stored, not by the
   branch for an unknown id.
   */
  method UploadPdfThenAsk(app: Dispatcher, fileId: string, question: string)
    returns (upload: Result<string, Error>, reply: Result<seq<Message>, Error>)
    requires IsUuidText(fileId)
    modifies app.pdfAgent, app.imgAgent
    ensures upload.Success? ==> upload.value == fileId
    ensures upload.Success? ==> app.pdfAgent.IndexFor(UploadPath(app.uploadFolder, fileId, ".pdf")).Some?
    ensures upload.Success? ==>
      var index := app.pdfAgent.IndexFor(UploadPath(app.uploadFolder, fileId, ".pdf")).value;
      reply == Success([BotText(app.pdfAgent.answer(index, question))])
  {
    upload := app.UploadPdf(fileId);
    if upload.Success? {
      PdfAnswerAfterLoad(old(app.pdfAgent.vectors), app.pdfAgent.answer, fileId,
                         app.pdfAgent.IndexFor(UploadPath(app.uploadFolder, fileId, ".pdf")).value, question);
    }
    reply := app.Chat(PdfQa.Tag(), fileId + Sep + question);
  }
}
