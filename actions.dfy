/**
 * The server actions of src/app/actions.ts. The signed-in session
 * (`getServerSession`) and the Docs API calls are parameters: a call either
 * yields its record (`Some`) or throws (`None`). A thrown "Not authenticated"
 * error is the `Threw` completion; errors caught inside an action become
 * `{success: false, error}` records.
 */
module Actions {
  import opened Options
  import opened Agents
  import opened Llm
  import DocsText

  /** The server-side session; only its access token matters here. */
  datatype ServerSession = ServerSession(accessToken: Option<string>)

  /** How an async server action settles: with a value, or by throwing an error. */
  datatype Completion<T> = Returned(value: T) | Threw(message: string)

  /** What the Docs API returns from a document creation. */
  datatype CreatedDocument = CreatedDocument(documentId: Option<string>)

  datatype CreateResult = CreateResult(success: bool, docId: Option<string>, error: Option<string>)
  datatype FetchResult = FetchResult(success: bool, text: Option<string>, title: Option<string>, error: Option<string>)
  datatype AnalyzeResult = AnalyzeResult(success: bool, results: Option<map<string, AgentAnalysis>>, error: Option<string>)

  const DefaultTitle := "New Mastermind Session"
  const NotAuthenticated := "Not authenticated"
  const CreateFailed := CreateResult(false, None, Some("Failed to create document"))
  const FetchFailed := FetchResult(false, None, None, Some("Failed to fetch document"))
  const NoDocument := AnalyzeResult(false, None, Some("Could not retrieve document"))

  /** `session && session.accessToken`: a session whose token is present and non-empty. */
  predicate Authenticated(session: Option<ServerSession>)
  {
    session.Some? && session.value.accessToken.Some? && session.value.accessToken.value != ""
  }

  function AccessToken(session: Option<ServerSession>): string
    requires Authenticated(session)
  {
    session.value.accessToken.value
  }

  /**
   * `createNewSession(title)`: without a token it throws before calling the
   * Docs API; otherwise it reports the created document's id, or a failure.
   * An omitted title (`None`) is the default title.
   */
  function CreateNewSession(session: Option<ServerSession>, title: Option<string>,
                            createDocument: (string, string) -> Option<CreatedDocument>): (r: Completion<CreateResult>)
    ensures r.Threw? <==> !Authenticated(session)
    ensures r.Threw? ==> r.message == NotAuthenticated
    ensures r.Returned? ==>
      var created := createDocument(AccessToken(session), title.GetOr(DefaultTitle));
      (r.value.success <==> created.Some?)
      && (created.Some? ==> r.value.docId == created.value.documentId && r.value.error.None?)
      && (created.None? ==> r.value == CreateFailed)
  {
    if !Authenticated(session) then Threw(NotAuthenticated)
    else
      match createDocument(AccessToken(session), title.GetOr(DefaultTitle))
      case Some(doc) => Returned(CreateResult(true, doc.documentId, None))
      case None => Returned(CreateFailed)
  }

  /**
   * The call without arguments, as the new-session button makes it, creates
   * a document titled "New Mastermind Session"; any other title is passed on
   * as given.
   */
  lemma CreateWithoutTitle(session: Option<ServerSession>, title: string,
                           createDocument: (string, string) -> Option<CreatedDocument>)
    requires Authenticated(session)
    ensures var created := createDocument(AccessToken(session), "New Mastermind Session");
            CreateNewSession(session, None, createDocument)
            == Returned(if created.Some? then CreateResult(true, created.value.documentId, None) else CreateFailed)
    ensures var created := createDocument(AccessToken(session), title);
            CreateNewSession(session, Some(title), createDocument)
            == Returned(if created.Some? then CreateResult(true, created.value.documentId, None) else CreateFailed)
  {
  }

  /**
   * `fetchDocumentContent(docId)`: without a token it throws before calling
   * the Docs API; otherwise it returns the extracted text and the title, or
   * a failure when the document cannot be fetched.
   */
  function FetchDocumentContent(session: Option<ServerSession>, docId: string,
                                getDocument: (string, string) -> Option<DocsText.Document>): (r: Completion<FetchResult>)
    ensures r.Threw? <==> !Authenticated(session)
    ensures r.Threw? ==> r.message == NotAuthenticated
    ensures r.Returned? ==>
      var fetched := getDocument(AccessToken(session), docId);
      (r.value.success <==> fetched.Some?)
      && (fetched.Some? ==> r.value.text == Some(DocsText.DocumentText(fetched.value))
                            && r.value.title == fetched.value.title && r.value.error.None?)
      && (fetched.None? ==> r.value == FetchFailed)
  {
    if !Authenticated(session) then Threw(NotAuthenticated)
    else
      match getDocument(AccessToken(session), docId)
      case Some(doc) => Returned(FetchResult(true, Some(DocsText.DocumentText(doc)), doc.title, None))
      case None => Returned(FetchFailed)
  }

  /** The requested ids that name a registry agent (unknown ids are dropped). */
  function KnownIds(ids: seq<string>): (known: set<string>)
    ensures forall id :: id in known <==> id in ids && FindAgent(id).Some?
  {
    set id | id in ids && FindAgent(id).Some?
  }

  lemma KnownIdsSnoc(ids: seq<string>, id: string)
    ensures KnownIds(ids + [id]) == if FindAgent(id).Some? then KnownIds(ids) + {id} else KnownIds(ids)
  {
  }

  /** The text `analyzeSession` analyses: present only when the fetch returned a non-empty string. */
  predicate HasText(session: Option<ServerSession>, docId: string,
                    getDocument: (string, string) -> Option<DocsText.Document>)
  {
    var f := FetchDocumentContent(session, docId, getDocument);
    f.Returned? && f.value.text.Some? && f.value.text.value != ""
  }

  /**
   * `analyzeSession(docId, activeAgentIds)`: fetches the document once;
   * an authentication error propagates; a missing or empty text fails the
   * whole batch; otherwise each requested id that names a registry agent is
   * analysed with that one text and stored under its id. The concurrent
   * fan-out of the source is the sequential loop here.
   */
  method AnalyzeSession(session: Option<ServerSession>, docId: string, activeAgentIds: seq<string>,
                        getDocument: (string, string) -> Option<DocsText.Document>,
                        model: ModelRequest -> ModelOutcome) returns (r: Completion<AnalyzeResult>)
    ensures !Authenticated(session) ==> r == Threw(NotAuthenticated)
    ensures Authenticated(session) && !HasText(session, docId, getDocument) ==> r == Returned(NoDocument)
    ensures HasText(session, docId, getDocument) ==>
      var text := FetchDocumentContent(session, docId, getDocument).value.text.value;
      && r.Returned? && r.value.success && r.value.error.None? && r.value.results.Some?
      && r.value.results.value.Keys == KnownIds(activeAgentIds)
      && forall id :: id in r.value.results.value ==>
           r.value.results.value[id] == AnalyzeDocumentWithAgent(text, FindAgent(id).value, model)
  {
    var fetched := FetchDocumentContent(session, docId, getDocument);
    if fetched.Threw? {
      return Threw(fetched.message);
    }
    var text := fetched.value.text;
    if text.None? || text.value == "" {
      return Returned(NoDocument);
    }
    var t := text.value;
    var results: map<string, AgentAnalysis> := map[];
    var i := 0;
    while i < |activeAgentIds|
      invariant 0 <= i <= |activeAgentIds|
      invariant results.Keys == KnownIds(activeAgentIds[..i])
      invariant forall id :: id in results ==>
                  FindAgent(id).Some? && results[id] == AnalyzeDocumentWithAgent(t, FindAgent(id).value, model)
    {
      KnownIdsSnoc(activeAgentIds[..i], activeAgentIds[i]);
      assert activeAgentIds[..i + 1] == activeAgentIds[..i] + [activeAgentIds[i]];
      var agentId := activeAgentIds[i];
      var agent := FindAgent(agentId);
      if agent.Some? {
        var analysis := AnalyzeDocumentWithAgent(t, agent.value, model);
        results := results[agentId := analysis];
      }
      i := i + 1;
    }
    assert activeAgentIds[..i] == activeAgentIds;
    return Returned(AnalyzeResult(true, Some(results), None));
  }

  /**
   * With no requested ids the known-id set is empty. Read together with the
   * ensures of `AnalyzeSession`, whose result keys are exactly `KnownIds`,
   * this says an empty request yields an empty result map.
   */
  lemma NoIdsNoResults()
    ensures KnownIds([]) == {}
  {
  }

  /** Unknown ids are dropped: requesting every registry id plus an unknown one yields exactly three keys. */
  lemma KnownIdsExample()
    ensures KnownIds(["critic", "creative", "analyst", "ghostwriter"]) == {"critic", "creative", "analyst"}
  {
    var s := KnownIds(["critic", "creative", "analyst", "ghostwriter"]);
    assert "critic" in s && "creative" in s && "analyst" in s;
  }

  /**
   * `HasText` spelled out: authentication, a fetched document and non-empty
   * extracted text. Read together with the ensures of `AnalyzeSession`, which
   * reports success exactly when `HasText` holds, this says that once text
   * retrieval succeeds the batch cannot fail, whatever the model returns.
   */
  lemma SuccessIndependentOfModel(session: Option<ServerSession>, docId: string,
                                  getDocument: (string, string) -> Option<DocsText.Document>)
    ensures HasText(session, docId, getDocument) <==>
      Authenticated(session)
      && getDocument(AccessToken(session), docId).Some?
      && DocsText.DocumentText(getDocument(AccessToken(session), docId).value) != ""
  {
  }
}
