/**
 * The artifact-staging endpoints of the pipeline as functions of the file
 * store they read and write. Each endpoint validates its request, reads its
 * input artifact, consults the debug switch, calls an external service and
 * saves its output whole at a fixed path. The services are oracle inputs:
 * the crawl result, the language model's reply, the extraction reply, and
 * `json.loads`/`json.dumps`.
 */
module Pipeline {
  import opened Common
  import opened Text
  import opened JsonValue
  import opened Config
  import opened Fence
  import opened Crawl
  import opened Urls

  /** The artifact files: path to content. */
  type Store = map<string, string>

  const KnowledgeBasePath := "data/knowledge_base/knowledge_base"
  const CompanyProfilePath := "data/company_profile/company_profile.md"
  const PotentialEventsPath := "data/potential_events/potential_events.json"
  const PotentialCustomerPath := "data/potential_customer/potential_customer.json"
  const PrioritizedCompaniesPath := "data/prioritized_companies/prioritized_companies.json"
  const OutreachEmailPath := "outreach_email.json"

  /** How an endpoint produced what it answers. */
  datatype Mode =
    | Live            // the external service was called and the artifact written
    | DebugExisting   // debug mode, the existing output file was used
    | DebugMissing    // debug mode, there was no output file
    | DebugUnchecked  // debug mode, the output file was not looked at

  datatype Saved = Saved(outputFile: string, mode: Mode)
  datatype Events = Events(outputFile: string, parsedData: Option<Json>, mode: Mode)
  datatype Extraction = Extraction(outputFile: string, data: Option<Json>, mode: Mode)
  datatype Prioritized = Prioritized(outputFile: string, rawResult: string, mode: Mode)
  datatype Outreach = Outreach(email: string)

  /** What the extraction service returns: it raises, or a decoded value, or text to decode. */
  datatype ExtractReply = ExtractFailed | ExtractValue(value: Json) | ExtractText(text: string)

  /** An endpoint's answer together with the store it leaves behind. */
  datatype Step<T> = Step(outcome: Outcome<T>, files: Store)

  /** Every path other than `path` keeps its presence and its content. */
  ghost predicate ChangesAtMost(before: Store, after: Store, path: string) {
    forall p :: p != path ==> (p in after <==> p in before) && (p in after ==> after[p] == before[p])
  }

  /** `if not content.strip()`, stated as "all whitespace". */
  function Blank(content: string): (b: bool)
    ensures b <==> IsBlank(content)
  {
    Strip(content) == ""
  }

  // ---------------------------------------------------------------------
  // Crawl stage: generate_knowledge_base
  // ---------------------------------------------------------------------

  /**
   * `crawl` is the completed crawl's page list, or None when the crawl call
   * raises. `file_name` is accepted but overridden: the artifact always goes to
   * the knowledge-base path.
   */
  function GenerateKnowledgeBase(files: Store, targetUrl: Option<string>, fileName: Option<string>,
                                 env: Env, crawl: Option<seq<Page>>): (r: Step<Saved>)
    ensures targetUrl.None? || fileName.None? ==> r.outcome == Err(UnprocessableEntity)
    ensures r.outcome.Err? || DebugOn(env) ==> r.files == files
    ensures ChangesAtMost(files, r.files, KnowledgeBasePath)
    ensures r.outcome.Ok? ==> r.outcome.value.outputFile == KnowledgeBasePath
    ensures r.outcome.Ok? && !DebugOn(env) ==>
      && crawl.Some?
      && !IsBlank(JoinMarkdown(crawl.value))
      && r.files == files[KnowledgeBasePath := JoinMarkdown(crawl.value)]
    // debug mode answers at once, before the key is looked at
    ensures targetUrl.Some? && fileName.Some? && DebugOn(env) ==>
      r.outcome == Ok(Saved(KnowledgeBasePath, DebugUnchecked))
    // no Firecrawl key, or a crawl that raises, is a server error
    ensures targetUrl.Some? && fileName.Some? && !DebugOn(env) && (!Given(env.firecrawlKey) || crawl.None?)
         ==> r.outcome == Err(InternalError)
    // a crawl whose every page is blank is refused with 400
    ensures targetUrl.Some? && fileName.Some? && !DebugOn(env) && Given(env.firecrawlKey)
         && crawl.Some? && (forall i :: 0 <= i < |crawl.value| ==> IsBlank(PageText(crawl.value[i])))
         ==> r.outcome == Err(BadRequest)
    // one page with text is enough for the crawl to be saved
    ensures targetUrl.Some? && fileName.Some? && !DebugOn(env) && Given(env.firecrawlKey)
         && crawl.Some? && (exists i :: 0 <= i < |crawl.value| && !IsBlank(PageText(crawl.value[i])))
         ==> r.outcome == Ok(Saved(KnowledgeBasePath, Live))
  {
    if targetUrl.None? || fileName.None? then Step(Err(UnprocessableEntity), files)
    else if DebugOn(env) then Step(Ok(Saved(KnowledgeBasePath, DebugUnchecked)), files)
    else if !Given(env.firecrawlKey) then Step(Err(InternalError), files)
    else if crawl.None? then Step(Err(InternalError), files)
    else
      var content := JoinMarkdown(crawl.value);
      JoinedMarkdownBlankIff(crawl.value);
      if Blank(content) then Step(Err(BadRequest), files)
      else Step(Ok(Saved(KnowledgeBasePath, Live)), files[KnowledgeBasePath := content])
  }

  // ---------------------------------------------------------------------
  // Profile stage: process_knowledge_base
  // ---------------------------------------------------------------------

  /**
   * `reply` is the model's text, or None when the call raises. Setting
   * OPENAI_API_KEY from an unset DEEPSEEK_API_KEY raises TypeError (500).
   */
  function ProcessKnowledgeBase(files: Store, filePath: Option<string>, env: Env,
                                reply: Option<string>): (r: Step<Saved>)
    ensures !Given(filePath) ==> r.outcome == Err(UnprocessableEntity)
    ensures Given(filePath) && filePath.value !in files ==> r.outcome == Err(NotFound)
    ensures Given(filePath) && filePath.value in files && IsBlank(files[filePath.value])
            ==> r.outcome == Err(BadRequest)
    ensures r.outcome.Err? || DebugOn(env) ==> r.files == files
    ensures ChangesAtMost(files, r.files, CompanyProfilePath)
    ensures r.outcome.Ok? ==> r.outcome.value.outputFile == CompanyProfilePath
    ensures r.outcome.Ok? && !DebugOn(env) ==>
      reply.Some? && r.files == files[CompanyProfilePath := reply.value]
    ensures ReadableInput(files, filePath) && DebugOn(env) ==>
      r.outcome == Ok(Saved(CompanyProfilePath, DebugUnchecked))
    // an unset DEEPSEEK_API_KEY, or a model call that raises, is a server error
    ensures ReadableInput(files, filePath) && !DebugOn(env) && (env.deepseekKey.None? || reply.None?)
         ==> r.outcome == Err(InternalError)
    ensures ReadableInput(files, filePath) && !DebugOn(env) && env.deepseekKey.Some? && reply.Some?
         ==> r.outcome == Ok(Saved(CompanyProfilePath, Live))
  {
    if !Given(filePath) then Step(Err(UnprocessableEntity), files)
    else if filePath.value !in files then Step(Err(NotFound), files)
    else if Blank(files[filePath.value]) then Step(Err(BadRequest), files)
    else if DebugOn(env) then Step(Ok(Saved(CompanyProfilePath, DebugUnchecked)), files)
    else if env.deepseekKey.None? then Step(Err(InternalError), files)
    else if reply.None? then Step(Err(InternalError), files)
    else Step(Ok(Saved(CompanyProfilePath, Live)), files[CompanyProfilePath := reply.value])
  }

  // ---------------------------------------------------------------------
  // Event discovery stage: find_potential_events
  // ---------------------------------------------------------------------

  /** The request passed the checks on `file_path` that every live call must pass first. */
  predicate ReadableInput(files: Store, filePath: Option<string>) {
    Given(filePath) && filePath.value in files && !IsBlank(files[filePath.value])
  }

  function FindPotentialEvents(files: Store, filePath: Option<string>, env: Env,
                               reply: Option<string>, loads: Loads): (r: Step<Events>)
    ensures !Given(filePath) ==> r.outcome == Err(UnprocessableEntity)
    ensures Given(filePath) && filePath.value !in files ==> r.outcome == Err(NotFound)
    ensures Given(filePath) && filePath.value in files && IsBlank(files[filePath.value])
            ==> r.outcome == Err(BadRequest)
    ensures r.outcome.Err? || DebugOn(env) ==> r.files == files
    ensures ChangesAtMost(files, r.files, PotentialEventsPath)
    ensures r.outcome.Ok? ==> r.outcome.value.outputFile == PotentialEventsPath
    // a live answer is a list that parsed from exactly the text written
    ensures r.outcome.Ok? && !DebugOn(env) ==>
      && reply.Some?
      && var cleaned := CleanFence(reply.value);
      && loads(cleaned).Some? && loads(cleaned).value.JArr?
      && r.outcome.value.parsedData == loads(cleaned)
      && r.files == files[PotentialEventsPath := cleaned]
    // a reply that does not parse to a list is refused with 400
    ensures ReadableInput(files, filePath) && !DebugOn(env) && env.deepseekKey.Some? && reply.Some?
         && (loads(CleanFence(reply.value)).None? || !loads(CleanFence(reply.value)).value.JArr?)
         ==> r.outcome == Err(BadRequest)
    ensures ReadableInput(files, filePath) && !DebugOn(env) && (env.deepseekKey.None? || reply.None?)
         ==> r.outcome == Err(InternalError)
    // and a reply that cleans to a list is accepted
    ensures ReadableInput(files, filePath) && !DebugOn(env) && env.deepseekKey.Some? && reply.Some?
         && loads(CleanFence(reply.value)).Some? && loads(CleanFence(reply.value)).value.JArr?
         ==> r.outcome.Ok?
    // debug mode answers from the cached file, and an unparsable cache gives no data, not an error
    ensures ReadableInput(files, filePath) && DebugOn(env) ==>
      r.outcome == Ok(if PotentialEventsPath in files
                      then Events(PotentialEventsPath, loads(files[PotentialEventsPath]), DebugExisting)
                      else Events(PotentialEventsPath, None, DebugMissing))
  {
    if !Given(filePath) then Step(Err(UnprocessableEntity), files)
    else if filePath.value !in files then Step(Err(NotFound), files)
    else if Blank(files[filePath.value]) then Step(Err(BadRequest), files)
    else if DebugOn(env) then
      if PotentialEventsPath in files then
        Step(Ok(Events(PotentialEventsPath, loads(files[PotentialEventsPath]), DebugExisting)), files)
      else
        Step(Ok(Events(PotentialEventsPath, None, DebugMissing)), files)
    else if env.deepseekKey.None? then Step(Err(InternalError), files)
    else if reply.None? then Step(Err(InternalError), files)
    else
      var cleaned := CleanFence(reply.value);
      var parsed := loads(cleaned);
      if parsed.None? || !parsed.value.JArr? then Step(Err(BadRequest), files)
      else Step(Ok(Events(PotentialEventsPath, parsed, Live)), files[PotentialEventsPath := cleaned])
  }

  // ---------------------------------------------------------------------
  // Company extraction stage: extract_companies_from_file
  // ---------------------------------------------------------------------

  /**
   * The first half of the extraction endpoint: validate the request, load the
   * events list and collect its distinct truthy URLs. A file that does not
   * parse gives 500, a top level that is not a list 400, and no URL 400.
   */
  function ExtractionUrls(files: Store, jsonFilePath: Option<string>, loads: Loads): (r: Outcome<set<Json>>)
    ensures !Given(jsonFilePath) ==> r == Err(UnprocessableEntity)
    ensures Given(jsonFilePath) && jsonFilePath.value !in files ==> r == Err(NotFound)
    ensures Given(jsonFilePath) && jsonFilePath.value in files && loads(files[jsonFilePath.value]).None?
            ==> r == Err(InternalError)
    ensures (Given(jsonFilePath) && jsonFilePath.value in files && loads(files[jsonFilePath.value]).Some?
             && !loads(files[jsonFilePath.value]).value.JArr?) ==> r == Err(BadRequest)
    ensures r.Ok? ==>
      && r.value != {}
      && var events := loads(files[jsonFilePath.value]).value.items;
      && forall u :: u in r.value <==> exists i :: 0 <= i < |events| && UrlOf(events[i]) == Ok(Some(u))
    // once the file decodes to a list, the URL collection decides the answer
    ensures Given(jsonFilePath) && jsonFilePath.value in files && loads(files[jsonFilePath.value]).Some?
            && loads(files[jsonFilePath.value]).value.JArr? ==>
      var urls := UrlSet(loads(files[jsonFilePath.value]).value.items);
      && (urls.Err? ==> r == Err(InternalError))
      && (urls == Ok({}) ==> r == Err(BadRequest))
      && (urls.Ok? && urls.value != {} ==> r == urls)
  {
    if !Given(jsonFilePath) then Err(UnprocessableEntity)
    else if jsonFilePath.value !in files then Err(NotFound)
    else
      var decoded := loads(files[jsonFilePath.value]);
      if decoded.None? then Err(InternalError)
      else if !decoded.value.JArr? then Err(BadRequest)
      else
        var urls := UrlSet(decoded.value.items);
        if urls.Err? then urls
        else if urls.value == {} then Err(BadRequest)
        else
          UrlSetCollects(decoded.value.items);
          urls
  }

  /**
   * The document `json.dump` writes for an extraction result: a value the
   * service returns is kept as it is, text is decoded, and there is no document
   * when the call raises or the text does not decode.
   */
  function ExtractionResult(reply: ExtractReply, loads: Loads): (doc: Option<Json>)
    ensures doc.None? <==> reply.ExtractFailed? || (reply.ExtractText? && loads(reply.text).None?)
    ensures reply.ExtractValue? ==> doc == Some(reply.value)
    ensures reply.ExtractText? && doc.Some? ==> loads(reply.text) == doc
  {
    match reply
    case ExtractFailed => None
    case ExtractValue(v) => Some(v)
    case ExtractText(t) => loads(t)
  }

  /**
   * The second half: `urls` is the capped URL list. The Firecrawl key is
   * checked before the debug switch; in debug mode a cached file that does not
   * parse is an error (500), unlike in the events stage.
   */
  function ExtractCompanies(files: Store, urls: seq<Json>, env: Env, loads: Loads, dumps: Dumps,
                            extract: seq<Json> -> ExtractReply): (r: Step<Extraction>)
    ensures !Given(env.firecrawlKey) ==> r.outcome == Err(InternalError)
    ensures r.outcome.Err? || DebugOn(env) ==> r.files == files
    ensures ChangesAtMost(files, r.files, PotentialCustomerPath)
    ensures r.outcome.Ok? ==> r.outcome.value.outputFile == PotentialCustomerPath
    ensures r.outcome.Ok? && !DebugOn(env) ==>
      && ExtractionResult(extract(urls), loads).Some?
      && r.outcome.value.data == ExtractionResult(extract(urls), loads)
      && r.files == files[PotentialCustomerPath := dumps(r.outcome.value.data.value)]
    ensures (Given(env.firecrawlKey) && DebugOn(env) && PotentialCustomerPath in files
             && loads(files[PotentialCustomerPath]).None?) ==> r.outcome == Err(InternalError)
    ensures (Given(env.firecrawlKey) && DebugOn(env) && PotentialCustomerPath in files
             && loads(files[PotentialCustomerPath]).Some?)
            ==> r.outcome == Ok(Extraction(PotentialCustomerPath, loads(files[PotentialCustomerPath]), DebugExisting))
    ensures Given(env.firecrawlKey) && DebugOn(env) && PotentialCustomerPath !in files
            ==> r.outcome == Ok(Extraction(PotentialCustomerPath, None, DebugMissing))
    // live: the stage succeeds exactly when the extraction gives a document
    ensures Given(env.firecrawlKey) && !DebugOn(env) ==>
      (r.outcome.Ok? <==> ExtractionResult(extract(urls), loads).Some?)
    ensures Given(env.firecrawlKey) && !DebugOn(env) && r.outcome.Err? ==> r.outcome == Err(InternalError)
  {
    if !Given(env.firecrawlKey) then Step(Err(InternalError), files)
    else if DebugOn(env) then
      if PotentialCustomerPath in files then
        var cached := loads(files[PotentialCustomerPath]);
        if cached.None? then Step(Err(InternalError), files)
        else Step(Ok(Extraction(PotentialCustomerPath, cached, DebugExisting)), files)
      else Step(Ok(Extraction(PotentialCustomerPath, None, DebugMissing)), files)
    else
      var result := ExtractionResult(extract(urls), loads);
      if result.None? then Step(Err(InternalError), files)
      else Step(Ok(Extraction(PotentialCustomerPath, result, Live)),
                files[PotentialCustomerPath := dumps(result.value)])
  }

  // ---------------------------------------------------------------------
  // Prioritisation stage: prioritize_companies
  // ---------------------------------------------------------------------

  /**
   * The customer file must parse (500 otherwise) but is neither checked for
   * emptiness nor required to be a list, and the cleaned reply is saved
   * without any JSON validation.
   */
  function PrioritizeCompanies(files: Store, customerPath: Option<string>, profilePath: Option<string>,
                               env: Env, loads: Loads, reply: Option<string>): (r: Step<Prioritized>)
    ensures !Given(customerPath) || !Given(profilePath) ==> r.outcome == Err(UnprocessableEntity)
    ensures (Given(customerPath) && Given(profilePath)
             && (customerPath.value !in files || profilePath.value !in files)) ==> r.outcome == Err(NotFound)
    ensures r.outcome.Err? || DebugOn(env) ==> r.files == files
    ensures ChangesAtMost(files, r.files, PrioritizedCompaniesPath)
    ensures r.outcome.Ok? ==> r.outcome.value.outputFile == PrioritizedCompaniesPath
    // a live answer returns, and writes, the cleaned reply itself
    ensures r.outcome.Ok? && !DebugOn(env) ==>
      && reply.Some?
      && r.outcome.value.rawResult == CleanFence(reply.value)
      && r.files == files[PrioritizedCompaniesPath := CleanFence(reply.value)]
    // a customer file that does not parse is a server error, checked before the debug switch
    ensures Given(customerPath) && Given(profilePath) && customerPath.value in files && profilePath.value in files
         && loads(files[customerPath.value]).None?
         ==> r.outcome == Err(InternalError)
    ensures Given(customerPath) && Given(profilePath) && customerPath.value in files && profilePath.value in files
         && loads(files[customerPath.value]).Some? && DebugOn(env)
         ==> r.outcome == Ok(if PrioritizedCompaniesPath in files
                             then Prioritized(PrioritizedCompaniesPath, files[PrioritizedCompaniesPath], DebugExisting)
                             else Prioritized(PrioritizedCompaniesPath, "", DebugMissing))
    ensures Given(customerPath) && Given(profilePath) && customerPath.value in files && profilePath.value in files
         && loads(files[customerPath.value]).Some? && !DebugOn(env) && (env.deepseekKey.None? || reply.None?)
         ==> r.outcome == Err(InternalError)
    // whatever the reply is, once the inputs are usable and the call succeeds, the stage succeeds
    ensures Given(customerPath) && Given(profilePath) && customerPath.value in files && profilePath.value in files
         && loads(files[customerPath.value]).Some? && !DebugOn(env) && env.deepseekKey.Some? && reply.Some?
         ==> r.outcome.Ok?
  {
    if !Given(customerPath) || !Given(profilePath) then Step(Err(UnprocessableEntity), files)
    else if customerPath.value !in files || profilePath.value !in files then Step(Err(NotFound), files)
    else if loads(files[customerPath.value]).None? then Step(Err(InternalError), files)
    else if DebugOn(env) then
      if PrioritizedCompaniesPath in files then
        Step(Ok(Prioritized(PrioritizedCompaniesPath, files[PrioritizedCompaniesPath], DebugExisting)), files)
      else
        Step(Ok(Prioritized(PrioritizedCompaniesPath, "", DebugMissing)), files)
    else if env.deepseekKey.None? then Step(Err(InternalError), files)
    else if reply.None? then Step(Err(InternalError), files)
    else
      var cleaned := CleanFence(reply.value);
      Step(Ok(Prioritized(PrioritizedCompaniesPath, cleaned, Live)), files[PrioritizedCompaniesPath := cleaned])
  }

  // ---------------------------------------------------------------------
  // Outreach stage: generate_outreach_email
  // ---------------------------------------------------------------------

  const OutreachMessage := "Personalized outreach email generated."

  /** The object saved beside the answer: exactly a fixed message and the email text. */
  function OutreachDocument(email: string): (doc: Json)
    ensures doc.JObj? && doc.fields.Keys == {"message", "email"}
    ensures Get(doc.fields, "message") == JStr(OutreachMessage)
    ensures Get(doc.fields, "email") == JStr(email)
  {
    JObj(map["message" := JStr(OutreachMessage), "email" := JStr(email)])
  }

  /**
   * The profile is read from its fixed path, the DeepSeek key must be set, and
   * the stripped reply is returned and saved. There is no debug branch.
   */
  function GenerateOutreachEmail(files: Store, env: Env, reply: Option<string>, dumps: Dumps): (r: Step<Outreach>)
    ensures CompanyProfilePath !in files ==> r.outcome == Err(NotFound)
    ensures CompanyProfilePath in files && !Given(env.deepseekKey) ==> r.outcome == Err(InternalError)
    ensures r.outcome.Err? ==> r.files == files
    ensures ChangesAtMost(files, r.files, OutreachEmailPath)
    ensures r.outcome.Ok? ==>
      && reply.Some?
      && r.outcome.value.email == Strip(reply.value)
      && r.files == files[OutreachEmailPath := dumps(OutreachDocument(Strip(reply.value)))]
    ensures CompanyProfilePath in files && Given(env.deepseekKey) ==> (r.outcome.Ok? <==> reply.Some?)
    ensures CompanyProfilePath in files && Given(env.deepseekKey) && reply.None? ==> r.outcome == Err(InternalError)
  {
    if CompanyProfilePath !in files then Step(Err(NotFound), files)
    else if !Given(env.deepseekKey) then Step(Err(InternalError), files)
    else if reply.None? then Step(Err(InternalError), files)
    else
      var email := Strip(reply.value);
      Step(Ok(Outreach(email)), files[OutreachEmailPath := dumps(OutreachDocument(email))])
  }

  // ---------------------------------------------------------------------
  // Properties across stages
  // ---------------------------------------------------------------------

  /**
   * In debug mode the crawl, profile, events, extraction and prioritisation
   * stages call no external service: their answer and store do not depend on
   * what the crawl, the model or the extraction service would return.
   */
  lemma DebugCallsNoService(files: Store, env: Env, loads: Loads, dumps: Dumps,
                            targetUrl: Option<string>, fileName: Option<string>, filePath: Option<string>,
                            customerPath: Option<string>, profilePath: Option<string>, urls: seq<Json>,
                            crawl1: Option<seq<Page>>, crawl2: Option<seq<Page>>,
                            reply1: Option<string>, reply2: Option<string>,
                            extract1: seq<Json> -> ExtractReply, extract2: seq<Json> -> ExtractReply)
    requires DebugOn(env)
    ensures GenerateKnowledgeBase(files, targetUrl, fileName, env, crawl1)
         == GenerateKnowledgeBase(files, targetUrl, fileName, env, crawl2)
    ensures ProcessKnowledgeBase(files, filePath, env, reply1) == ProcessKnowledgeBase(files, filePath, env, reply2)
    ensures FindPotentialEvents(files, filePath, env, reply1, loads)
         == FindPotentialEvents(files, filePath, env, reply2, loads)
    ensures ExtractCompanies(files, urls, env, loads, dumps, extract1)
         == ExtractCompanies(files, urls, env, loads, dumps, extract2)
    ensures PrioritizeCompanies(files, customerPath, profilePath, env, loads, reply1)
         == PrioritizeCompanies(files, customerPath, profilePath, env, loads, reply2)
  {
  }

  /**
   * The outreach stage has no debug branch: it calls the model and writes its
   * file whatever DEBUG_MODE says.
   */
  lemma OutreachIgnoresDebug(files: Store, env: Env, reply: Option<string>, dumps: Dumps)
    ensures GenerateOutreachEmail(files, env, reply, dumps)
         == GenerateOutreachEmail(files, env.(debugMode := Some("true")), reply, dumps)
    ensures CompanyProfilePath in files && Given(env.deepseekKey) && reply.Some? ==>
      GenerateOutreachEmail(files, env.(debugMode := Some("true")), reply, dumps).files
        == files[OutreachEmailPath := dumps(OutreachDocument(Strip(reply.value)))]
  {
  }
}
