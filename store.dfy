/**
 * The artifact store as the endpoints see it: one object whose `files` the
 * stage endpoints overwrite in place and the viewers read. Each endpoint is
 * proved to leave the store exactly as the stage function of `Pipeline`
 * says; the properties of those functions are proved there.
 */
module Endpoints {
  import opened Common
  import opened JsonValue
  import opened Config
  import opened Fence
  import opened Crawl
  import opened Urls
  import opened Pipeline

  class ArtifactStore {
    var files: Store

    constructor (initial: Store)
      ensures files == initial
    {
      files := initial;
    }

    /** POST /generate_knowledge_base */
    method GenerateKnowledgeBase(targetUrl: Option<string>, fileName: Option<string>, env: Env,
                                 crawl: Option<seq<Page>>) returns (r: Outcome<Saved>)
      modifies this
      ensures Step(r, files) == Pipeline.GenerateKnowledgeBase(old(files), targetUrl, fileName, env, crawl)
    {
      if targetUrl.None? || fileName.None? {
        return Err(UnprocessableEntity);
      }
      var outputFile := KnowledgeBasePath;
      if DebugOn(env) {
        return Ok(Saved(outputFile, DebugUnchecked));
      }
      if !Given(env.firecrawlKey) || crawl.None? {
        return Err(InternalError);
      }
      var markdownContent := JoinMarkdown(crawl.value);
      if Blank(markdownContent) {
        return Err(BadRequest);
      }
      files := files[outputFile := markdownContent];
      r := Ok(Saved(outputFile, Live));
    }

    /** POST /process_knowledge_base */
    method ProcessKnowledgeBase(filePath: Option<string>, env: Env, reply: Option<string>)
      returns (r: Outcome<Saved>)
      modifies this
      ensures Step(r, files) == Pipeline.ProcessKnowledgeBase(old(files), filePath, env, reply)
    {
      if !Given(filePath) {
        return Err(UnprocessableEntity);
      }
      if filePath.value !in files {
        return Err(NotFound);
      }
      var markdownContent := files[filePath.value];
      if Blank(markdownContent) {
        return Err(BadRequest);
      }
      if DebugOn(env) {
        return Ok(Saved(CompanyProfilePath, DebugUnchecked));
      }
      if env.deepseekKey.None? || reply.None? {
        return Err(InternalError);
      }
      files := files[CompanyProfilePath := reply.value];
      r := Ok(Saved(CompanyProfilePath, Live));
    }

    /** POST /find_potential_events */
    method FindPotentialEvents(filePath: Option<string>, env: Env, reply: Option<string>, loads: Loads)
      returns (r: Outcome<Events>)
      modifies this
      ensures Step(r, files) == Pipeline.FindPotentialEvents(old(files), filePath, env, reply, loads)
    {
      if !Given(filePath) {
        return Err(UnprocessableEntity);
      }
      if filePath.value !in files {
        return Err(NotFound);
      }
      var companyProfile := files[filePath.value];
      if Blank(companyProfile) {
        return Err(BadRequest);
      }
      var outputFile := PotentialEventsPath;
      if DebugOn(env) {
        if outputFile in files {
          var eventsData := loads(files[outputFile]);
          return Ok(Events(outputFile, eventsData, DebugExisting));
        }
        return Ok(Events(outputFile, None, DebugMissing));
      }
      if env.deepseekKey.None? || reply.None? {
        return Err(InternalError);
      }
      var cleanedOutput := CleanFence(reply.value);
      var eventsData := loads(cleanedOutput);
      if eventsData.None? || !eventsData.value.JArr? {
        return Err(BadRequest);
      }
      files := files[outputFile := cleanedOutput];
      r := Ok(Events(outputFile, eventsData, Live));
    }

    /**
     * POST /extract_companies. `listing` is the order in which `list(...)`
     * happened to take the URL set apart; only its first ten are sent.
     */
    method ExtractCompaniesFromFile(jsonFilePath: Option<string>, env: Env, loads: Loads, dumps: Dumps,
                                    extract: seq<Json> -> ExtractReply)
      returns (r: Outcome<Extraction>, ghost listing: seq<Json>)
      modifies this
      ensures var found := ExtractionUrls(old(files), jsonFilePath, loads);
        && (found.Err? ==> r == Err(found.status) && files == old(files))
        && (found.Ok? ==>
              && Enumerates(listing, found.value)
              && Step(r, files) == Pipeline.ExtractCompanies(old(files), CapUrls(listing), env, loads, dumps, extract))
    {
      listing := [];
      if !Given(jsonFilePath) {
        return Err(UnprocessableEntity), listing;
      }
      if jsonFilePath.value !in files {
        return Err(NotFound), listing;
      }
      var eventsData := loads(files[jsonFilePath.value]);
      if eventsData.None? {
        return Err(InternalError), listing;
      }
      if !eventsData.value.JArr? {
        return Err(BadRequest), listing;
      }
      var urlSet := UrlSet(eventsData.value.items);
      if urlSet.Err? {
        return Err(InternalError), listing;
      }
      if urlSet.value == {} {
        return Err(BadRequest), listing;
      }
      var urls := ListOfSet(urlSet.value);
      listing := urls;
      if |urls| > MaxUrls {
        urls := urls[..MaxUrls];
      }
      if !Given(env.firecrawlKey) {
        return Err(InternalError), listing;
      }
      var outputFile := PotentialCustomerPath;
      if DebugOn(env) {
        if outputFile in files {
          var parsedData := loads(files[outputFile]);
          if parsedData.None? {
            return Err(InternalError), listing;
          }
          return Ok(Extraction(outputFile, parsedData, DebugExisting)), listing;
        }
        return Ok(Extraction(outputFile, None, DebugMissing)), listing;
      }
      var result := ExtractionResult(extract(urls), loads);
      if result.None? {
        return Err(InternalError), listing;
      }
      files := files[outputFile := dumps(result.value)];
      r := Ok(Extraction(outputFile, result, Live));
    }

    /** POST /prioritize_companies */
    method PrioritizeCompanies(customerPath: Option<string>, profilePath: Option<string>, env: Env,
                               loads: Loads, reply: Option<string>) returns (r: Outcome<Prioritized>)
      modifies this
      ensures Step(r, files) == Pipeline.PrioritizeCompanies(old(files), customerPath, profilePath, env, loads, reply)
    {
      if !Given(customerPath) || !Given(profilePath) {
        return Err(UnprocessableEntity);
      }
      if customerPath.value !in files || profilePath.value !in files {
        return Err(NotFound);
      }
      var potentialData := loads(files[customerPath.value]);
      if potentialData.None? {
        return Err(InternalError);
      }
      var outputFile := PrioritizedCompaniesPath;
      if DebugOn(env) {
        if outputFile in files {
          return Ok(Prioritized(outputFile, files[outputFile], DebugExisting));
        }
        return Ok(Prioritized(outputFile, "", DebugMissing));
      }
      if env.deepseekKey.None? || reply.None? {
        return Err(InternalError);
      }
      var cleanedOutput := CleanFence(reply.value);
      files := files[outputFile := cleanedOutput];
      r := Ok(Prioritized(outputFile, cleanedOutput, Live));
    }

    /** POST /generate_outreach_email */
    method GenerateOutreachEmail(env: Env, reply: Option<string>, dumps: Dumps) returns (r: Outcome<Outreach>)
      modifies this
      ensures Step(r, files) == Pipeline.GenerateOutreachEmail(old(files), env, reply, dumps)
    {
      if CompanyProfilePath !in files {
        return Err(NotFound);
      }
      if !Given(env.deepseekKey) || reply.None? {
        return Err(InternalError);
      }
      var emailText := Text.Strip(reply.value);
      files := files[OutreachEmailPath := dumps(OutreachDocument(emailText))];
      r := Ok(Outreach(emailText));
    }

    /** What a viewer answers: the file's exact content, or 404. */
    method Read(path: string) returns (r: Outcome<string>)
      ensures r.Ok? <==> path in files
      ensures r.Ok? ==> r.value == files[path]
      ensures r.Err? ==> r.status == NotFound
    {
      if path !in files {
        return Err(NotFound);
      }
      r := Ok(files[path]);
    }

    /** GET /view_company_profile */
    method ViewCompanyProfile() returns (r: Outcome<string>)
      ensures r.Ok? <==> CompanyProfilePath in files
      ensures r.Ok? ==> r.value == files[CompanyProfilePath]
      ensures r.Err? ==> r.status == NotFound
    {
      r := Read(CompanyProfilePath);
    }

    /** GET /view_potential_events */
    method ViewPotentialEvents() returns (r: Outcome<string>)
      ensures r.Ok? <==> PotentialEventsPath in files
      ensures r.Ok? ==> r.value == files[PotentialEventsPath]
      ensures r.Err? ==> r.status == NotFound
    {
      r := Read(PotentialEventsPath);
    }

    /** GET /view_potential_customer */
    method ViewPotentialCustomer() returns (r: Outcome<string>)
      ensures r.Ok? <==> PotentialCustomerPath in files
      ensures r.Ok? ==> r.value == files[PotentialCustomerPath]
      ensures r.Err? ==> r.status == NotFound
    {
      r := Read(PotentialCustomerPath);
    }

    /** GET /view_prioritized_companies */
    method ViewPrioritizedCompanies() returns (r: Outcome<string>)
      ensures r.Ok? <==> PrioritizedCompaniesPath in files
      ensures r.Ok? ==> r.value == files[PrioritizedCompaniesPath]
      ensures r.Err? ==> r.status == NotFound
    {
      r := Read(PrioritizedCompaniesPath);
    }
  }
}
