# Lead-generation pipeline: artifact endpoints and database loaders

This project models the core of a lead-generation web service. The service
works in stages, and each stage reads one artifact file and writes the next:

1. A website crawl becomes a markdown knowledge base.
2. A language model turns the knowledge base into a company profile.
3. The profile becomes a JSON list of events.
4. The event URLs go to an extraction service, which returns potential customers.
5. The language model ranks those customers. A separate endpoint writes an outreach email; each call overwrites the single `outreach_email.json`.
6. Four viewers return the artifacts verbatim.
7. Two loaders copy the event and customer lists into database tables.

## What the model covers

The model describes the files each endpoint reads and writes. Every stage is a
pure function from the file store, the request, the environment and the
replies of the external services to the answer and the new store
(`Pipeline`). The endpoints themselves belong to a class, `Endpoints.ArtifactStore`,
whose `files` map they update in place. Each endpoint is proved to produce
exactly the store and answer the stage function gives. The viewers, which only
read, are proved directly.

The external services are parameters of the model:

- the crawl result (or a failed crawl);
- the language model's reply (or an exception);
- the extraction service's reply;
- `json.loads` and `json.dumps`;
- for the loaders, whether the database accepts the commit.

"No service call in debug mode" is stated as follows: the result does not
depend on what those services would return.

The remaining modules carry the Python semantics the endpoints depend on:

- `Text`: `str.strip` using Python's whitespace set, ASCII `str.lower`, and substring search.
- `JsonValue`: decoded JSON, with Python truthiness and hashability.
- `Config`: the `DEBUG_MODE` switch.
- `Fence`: the code-fence cleaner, which is `strip` followed by the two `re.sub` calls.
- `Crawl`: the markdown join.
- `Urls`: URL deduplication into a set, `list(set)` in some order, and the cap of 10.
- `Loaders`: the two bulk loaders and their all-or-nothing commit.

## Where the code and the expected behaviour disagree

The model follows the code.

- **Fence cleaning is not idempotent.** One might expect cleaning a cleaned reply to change nothing. The code removes one opening and one closing fence per call. `Fence.CleanFenceNotIdempotent` exhibits a family of replies that a second cleaning changes further. `Fence.CleanFenceIdempotentWhenUnwrapped` proves idempotence for the case where no fence survives the first pass.
- **A customer record without `stakeholder_email` is skipped, not stored.** The email might be taken for an optional field, read with a default like `stakeholder_link`. The code lists it among the required keys, so the record is dropped.
- **A file that does not parse as JSON gives 500, not 400.** This holds for the loaders, the extraction endpoint and the prioritisation endpoint.

## Model

| member | source | states |
|---|---|---|
| Config.DebugOn | main.py:57 | debug mode is on exactly when DEBUG_MODE is "true" in any letter case; an unset variable means off |
| Text.LStrip | main.py:102 | the result is a suffix of the input that starts with a non-space, and the removed prefix is all whitespace |
| Text.RStrip | main.py:140 | the result is a prefix of the input that ends with a non-space, and the removed suffix is all whitespace |
| Text.Strip | main.py:291 | a stripped string is no longer than the input and has no whitespace at either end; it is empty exactly when every character of the input is whitespace |
| Text.StripSlices | main.py:291 | what `strip` keeps is the whole middle of the input: the text between a blank prefix and a blank suffix |
| Crawl.JoinedMarkdownBlankIff | main.py:99-103 | the joined crawl is blank exactly when every page's markdown is blank, so a crawl of empty pages gives 400 |
| Crawl.JoinMarkdown | main.py:99 | no pages join to the empty text; otherwise the knowledge base opens with the first page's text and closes with the last page's, a page without markdown counting as "" |
| Crawl.SplitAfterAny | main.py:99 | splitting on newlines around one inserted newline splits each side on its own and concatenates the parts |
| Crawl.SplitJoinedAny | main.py:99 | for a crawl of at least one page, splitting the knowledge base on newlines gives the lines of each page's text, page after page, whatever newlines the pages contain |
| Crawl.SplitJoinedMarkdown | main.py:99 | corollary: when, in addition, no page contains a newline, the split gives back exactly the page texts in order (an empty crawl splits to one empty text instead) |
| Fence.DropOpening | main.py:292 | the result is a suffix of the input; after a leading opening fence (three backticks and json) it is what follows the fence minus the whitespace run, starting with a non-space; input without that fence is left alone |
| Fence.DropClosing | main.py:293 | after a final closing fence (three backticks) the result is the prefix before the fence minus the whitespace run, ending with a non-space; a final closing fence followed by one newline is removed the same way but the newline is kept; other input is left alone |
| Fence.CleanFence | main.py:290-293 | the cleaned reply never starts or ends with whitespace |
| Fence.CleanFenceUnwraps | main.py:290-293 | a reply wrapped in a json code fence, with any whitespace inside the fences, cleans to exactly its body |
| Fence.CleanFencePassesUnwrapped | main.py:549-551 | a reply with no fence at either end is only stripped |
| Fence.CleanFenceIsStripped | main.py:549-551 | stripping the cleaned reply again changes nothing |
| Fence.CleanFenceIdempotentWhenUnwrapped | main.py:290-293 | cleaning is idempotent when the first pass leaves no fence at either end |
| Fence.CleanFenceNotIdempotent | main.py:290-293 | for every non-empty text x with no whitespace at either end and no closing fence at its end, the reply made of two opening fences, a space, x and one closing fence keeps an opening fence after one cleaning, and a second cleaning changes it again, to x |
| Fence.DropClosingTrimmed | main.py:293 | on text with no whitespace at either end, the closing-fence substitution removes a final fence and the whitespace before it, otherwise leaves the text alone, and leaves no whitespace at either end |
| Urls.UrlOf | main.py:346 | one event raises (500) exactly when it is not an object or its `url` is a non-empty list or object; a contributed value is the event's own truthy, hashable `url`; a missing or falsy `url` contributes nothing |
| Urls.UrlSet | main.py:346 | a failed comprehension is a 500, and the set never holds more URLs than there are events |
| Urls.UrlSetOkIff | main.py:346 | the comprehension succeeds exactly when every event is an object whose `url` is falsy or hashable |
| Urls.UrlSetCollects | main.py:346 | a URL is in the set exactly when some event's `url` is that truthy value |
| Urls.UrlSetMembersTruthy | main.py:346 | every collected URL is truthy and hashable |
| Urls.ListOfSet | main.py:346 | `list(set)` lists every URL of the set exactly once, in some order |
| Urls.EnumerationLength | main.py:346-347 | the list has as many entries as the set |
| Urls.CapUrls | main.py:350-352 | the first min(count, 10) URLs of the list, in list order |
| Urls.CappedUrls | main.py:350-352 | the URLs sent are distinct members of the set, min(count, 10) of them, and all of them when there are at most 10 |
| Pipeline.Blank | main.py:102 | the emptiness test holds exactly for all-whitespace content |
| Pipeline.GenerateKnowledgeBase | main.py:43-112 | a missing field gives 422; debug mode answers success at once and writes nothing; otherwise a missing Firecrawl key or a failed crawl gives 500, an all-blank crawl gives 400, and a crawl with one non-blank page succeeds; success writes the joined crawl to the fixed knowledge-base path whatever file name is given; no other file changes |
| Pipeline.ProcessKnowledgeBase | main.py:114-205 | 422, 404 and 400 for a missing, absent or blank input file; on readable input debug mode succeeds, an unset DeepSeek key or a failed model call gives 500, and a set key with a reply succeeds; debug mode and errors change nothing; a live success writes the model's reply to the profile path only |
| Pipeline.FindPotentialEvents | main.py:207-317 | the same input checks; a live success parses the cleaned reply to a list and writes exactly that cleaned text; a reply that is not a JSON list gives 400 and one that is succeeds; an unset key or a failed call gives 500; debug mode answers from the cached file, with no data when the file is missing or does not parse |
| Pipeline.ExtractionUrls | main.py:319-352 | 422, 404, 500 and 400 for a missing path, an absent file, an unparsable file and a non-list; for a list, 500 when an event raises, 400 when no event has a truthy URL, and otherwise the non-empty set of exactly the truthy event URLs |
| Pipeline.ExtractionResult | main.py:397-402 | a returned value is kept, returned text is decoded, and there is no result when the call raises or the text does not decode |
| Pipeline.ExtractCompanies | main.py:354-415 | a missing Firecrawl key gives 500, checked before debug mode; debug mode answers the parsed cache, no data when there is no cache, and 500 when the cache does not parse; live, the stage succeeds exactly when there is an extraction result and otherwise gives 500; a live success writes the serialised result to the potential-customer path only |
| Pipeline.PrioritizeCompanies | main.py:417-567 | 422 and 404 for missing paths or files; 500 when the customer file does not parse, before debug mode is looked at; debug mode answers the existing output or ""; an unset key or a failed call gives 500; a live success returns and writes the cleaned reply with no JSON validation; once the inputs parse and the model answers, the stage succeeds |
| Pipeline.OutreachDocument | main.py:656-659 | an object with exactly the keys message and email, holding the fixed message and the email text |
| Pipeline.GenerateOutreachEmail | main.py:583-668 | 404 without the profile; 500 without the DeepSeek key; with both, success exactly when the model replies, 500 otherwise; success returns the stripped reply and writes `{"message", "email"}` to outreach_email.json only |
| Pipeline.DebugCallsNoService | main.py:56-65 | in debug mode the crawl, profile, events, extraction and prioritisation stages give the same answer and store whatever the services would return |
| Pipeline.OutreachIgnoresDebug | main.py:583-668 | the outreach stage behaves the same with debug mode on, and still writes its file |
| Endpoints.ArtifactStore.GenerateKnowledgeBase | main.py:43-112 | answer and new store are those of Pipeline.GenerateKnowledgeBase |
| Endpoints.ArtifactStore.ProcessKnowledgeBase | main.py:114-205 | answer and new store are those of Pipeline.ProcessKnowledgeBase |
| Endpoints.ArtifactStore.FindPotentialEvents | main.py:207-317 | answer and new store are those of Pipeline.FindPotentialEvents |
| Endpoints.ArtifactStore.ExtractCompaniesFromFile | main.py:319-415 | request errors as in Pipeline.ExtractionUrls, leaving the store unchanged; otherwise the URL set is listed in some order, capped at 10, and the result is that of Pipeline.ExtractCompanies |
| Endpoints.ArtifactStore.PrioritizeCompanies | main.py:417-567 | answer and new store are those of Pipeline.PrioritizeCompanies |
| Endpoints.ArtifactStore.GenerateOutreachEmail | main.py:583-668 | answer and new store are those of Pipeline.GenerateOutreachEmail |
| Endpoints.ArtifactStore.Read | main.py:674-681 | the content of an existing file, and 404 exactly when it is absent |
| Endpoints.ArtifactStore.ViewCompanyProfile | main.py:671-681 | the profile verbatim when it exists, otherwise 404 |
| Endpoints.ArtifactStore.ViewPotentialEvents | main.py:683-693 | the events file verbatim when it exists, otherwise 404 |
| Endpoints.ArtifactStore.ViewPotentialCustomer | main.py:695-705 | the customer file verbatim when it exists, otherwise 404 |
| Endpoints.ArtifactStore.ViewPrioritizedCompanies | main.py:707-717 | the prioritised file verbatim when it exists, otherwise 404 |
| Loaders.PyIn | database.py:66 | `k in item` raises exactly on null, booleans and numbers; on an object it tests the keys, on a string it is the substring test, on a list it tests the elements |
| Loaders.AllIn | database.py:66 | the key test raises exactly when there is a key and the element is null, a boolean or a number; when it does not raise it holds exactly when every key passes the membership test on the element, which on an object means every key is present |
| Loaders.Screen | database.py:64-71 | exactly the objects with every required key are kept, whole; an object missing a key is skipped; any other element raises unless some key is found missing in it |
| Loaders.Kept | database.py:64-67 | the batch fails with 500 exactly when some element raises; otherwise at most one object per element is staged, and each carries every required key |
| Loaders.KeptIndices | database.py:64-67 | the listed positions increase strictly and each holds an element the loop keeps |
| Loaders.KeptIndicesComplete | database.py:64-67 | every element the loop keeps has its position listed |
| Loaders.KeptInInputOrder | database.py:64-76 | the j-th staged object is the element at the j-th kept position, so input order is preserved |
| Loaders.KeptCount | database.py:66-76 | the inserted count equals the number of elements that contain every required key |
| Loaders.CompleteObjectsAllKept | database.py:136-167 | a list of complete objects is staged whole, with no size limit |
| Loaders.LoadJsonList | database.py:49-59 | 404 for an absent file, 500 when it does not parse, 400 when it is not a list; otherwise the list that was read |
| Loaders.EventBatch | database.py:36-84 | the same error statuses; every event row carries the request's root URL |
| Loaders.EventBatchRows | database.py:64-76 | one row per element with name, url and category, in input order, with the three values copied verbatim; every object with the three keys gets a row |
| Loaders.EventCategoryNotChecked | database.py:64-76 | in any list that commits, an element whose category is none of Associations, Exhibitions and News still gets a row carrying that category |
| Loaders.CustomerRowCopies | database.py:153-165 | a customer row copies the nine required values, and stores a missing stakeholder link as "" |
| Loaders.CustomerBatch | database.py:103-175 | 404, 500 and 400 as for events; never more rows than elements |
| Loaders.CustomerBatchRows | database.py:136-167 | one row per element with all nine required keys, in input order; every object with the nine keys gets a row |
| Loaders.CustomerBatchNotCapped | database.py:136-168 | a list of any length of complete customers is stored whole; the top-50 limit is not enforced here |
| Loaders.CustomerWithoutEmailSkipped | database.py:138-151 | an object without stakeholder_email is skipped |
| Loaders.Database.StoreEventsInDb | database.py:36-84 | success exactly when the batch is well-formed and the commit goes through; it then appends the batch rows in order and answers their count; otherwise the table is unchanged and the status is the batch's, or 500; the customer table never changes |
| Loaders.Database.StorePrioritizedCompaniesInDb | database.py:103-175 | the same all-or-nothing contract for the customer table; the event table never changes |

## Left out

- HTTP framework plumbing is not modelled. The model leaves out routing, the HTML pages and pydantic validation of the outreach request body. In the outreach request, the company object only feeds the prompt, which is also not modelled.
- The crawl's polling loop is not modelled; the crawl result is a parameter. The 10-page crawl limit is a setting of the crawl service.
- Prompts, model settings and response message strings are not modelled.
- A page whose `markdown` is present but null is not modelled; the join would raise on it.
- I/O errors when reading or writing a file are not modelled, nor are directory creation, encodings or path separators. A file exists exactly when its path is a key of the store.
- JSON numbers are integers. Floats, Python's `True == 1` inside a set, and the key order and indentation of `json.dump` are left to the `dumps` parameter.
- `str.lower` is modelled on ASCII letters only. No non-ASCII letter lowers to a letter of "true", so the debug test is unaffected.
- The database assigns ids and timestamps; neither is modelled.
- The loaders' `file_path` and `root_url` are plain strings: the framework's 422 for a missing query parameter (database.py:37 and database.py:104) is not modelled for them.
- Loaders.Database.StoreEventsInDb: column constraints are not modelled. The NOT NULL columns and the length limits of the customer table are folded into the commit oracle, which may fail for them.
- Loaders.Database.StorePrioritizedCompaniesInDb: the same as for the event loader.
- Setting `OPENAI_API_KEY` from `DEEPSEEK_API_KEY` is modelled only through its failure: an unset key raises, giving 500. The process environment is otherwise read-only.
