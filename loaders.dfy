/**
 * The two bulk loaders of the database router. Each reads a JSON list from a
 * file, skips the elements that lack a required key, maps the others to rows
 * in list order, and appends the rows to its table in one commit that either
 * takes all of them or, on any exception, none.
 */
module Loaders {
  import opened Common
  import opened Text
  import opened JsonValue
  import opened Pipeline

  const EventKeys := ["name", "url", "category"]
  const CustomerKeys := ["company_name", "industry", "revenue", "size", "stakeholder_name",
                         "stakeholder_position", "stakeholder_email", "stakeholder_phone", "reasoning"]

  /**
   * Python's `k in item`: a key of an object, a substring of a string, an
   * element of a list; on null, a boolean or a number it raises TypeError (None).
   */
  function PyIn(k: string, item: Json): (r: Option<bool>)
    ensures r.None? <==> item.JNull? || item.JBool? || item.JNum?
    ensures item.JObj? ==> r == Some(k in item.fields)
    ensures item.JStr? ==> r == Some(IsSubstring(k, item.s))
    ensures item.JArr? ==> (r == Some(true) <==> JStr(k) in item.items)
  {
    match item
    case JObj(m) => Some(k in m)
    case JStr(s) => Some(IsSubstring(k, s))
    case JArr(xs) => Some(JStr(k) in xs)
    case _ => None
  }

  /**
   * Every key passes Python's membership test on the element, the keys tried
   * in order; None when a test raises, which happens at the first key when
   * the element is null, a boolean or a number.
   */
  function AllIn(keys: seq<string>, item: Json): (r: Option<bool>)
    ensures r.None? <==> |keys| > 0 && (item.JNull? || item.JBool? || item.JNum?)
    ensures item.JObj? ==> (r == Some(true) <==> HasKeys(item.fields, keys))
    ensures r.Some? ==> (r == Some(true) <==> forall i :: 0 <= i < |keys| ==> PyIn(keys[i], item) == Some(true))
  {
    if |keys| == 0 then Some(true)
    else if item.JObj? || item.JStr? || item.JArr? then
      Some(forall k :: k in keys ==> PyIn(k, item) == Some(true))
    else None
  }

  /** What the loader's loop does with one element. */
  datatype Verdict = Keep(fields: map<string, Json>) | Skip | Raise

  /**
   * An element that lacks a key is skipped. One that has them all is kept if
   * it is an object; a string or list that passes the test makes the row
   * mapping raise (indexing or reading a key of a non-dict), as does a test that raises.
   */
  function Screen(item: Json, keys: seq<string>): (v: Verdict)
    // exactly the objects with every key are kept, whole
    ensures v.Keep? <==> item.JObj? && HasKeys(item.fields, keys)
    ensures v.Keep? ==> v.fields == item.fields
    ensures item.JObj? && !HasKeys(item.fields, keys) ==> v.Skip?
    // any other element raises unless some key is found missing in it
    ensures !item.JObj? ==> (v.Raise? <==> forall k :: k in keys ==> PyIn(k, item) != Some(false))
  {
    match AllIn(keys, item)
    case None => Raise
    case Some(present) =>
      if !present then Skip
      else if item.JObj? then Keep(item.fields)
      else Raise
  }

  predicate HasKeys(m: map<string, Json>, keys: seq<string>) {
    forall k :: k in keys ==> k in m
  }

  /**
   * The objects the loop stages, in list order; 500 as soon as one element
   * raises, since the whole batch is then rolled back.
   */
  function Kept(items: seq<Json>, keys: seq<string>): (r: Outcome<seq<map<string, Json>>>)
    ensures r.Err? <==> exists i :: 0 <= i < |items| && Screen(items[i], keys).Raise?
    ensures r.Err? ==> r.status == InternalError
    ensures r.Ok? ==> |r.value| <= |items|
    ensures r.Ok? ==> forall j :: 0 <= j < |r.value| ==> HasKeys(r.value[j], keys)
  {
    if |items| == 0 then Ok([])
    else
      var init := items[..|items| - 1];
      assert forall i :: 0 <= i < |init| ==> init[i] == items[i];
      var prev := Kept(init, keys);
      if prev.Err? then prev
      else match Screen(items[|items| - 1], keys)
        case Raise => Err(InternalError)
        case Skip => prev
        case Keep(m) => Ok(prev.value + [m])
  }

  /** The positions of the kept elements, in increasing order. */
  function KeptIndices(items: seq<Json>, keys: seq<string>): (idx: seq<nat>)
    ensures forall j :: 0 <= j < |idx| ==> idx[j] < |items| && Screen(items[idx[j]], keys).Keep?
    ensures forall j, l :: 0 <= j < l < |idx| ==> idx[j] < idx[l]
  {
    if |items| == 0 then []
    else
      var init := items[..|items| - 1];
      assert forall i :: 0 <= i < |init| ==> init[i] == items[i];
      var prev := KeptIndices(init, keys);
      if Screen(items[|items| - 1], keys).Keep? then
        var idx := prev + [|items| - 1];
        assert forall j :: 0 <= j < |prev| ==> idx[j] == prev[j];
        idx
      else prev
  }

  /** Every kept element's position is listed. */
  lemma {:induction false} KeptIndicesComplete(items: seq<Json>, keys: seq<string>)
    ensures forall i :: 0 <= i < |items| && Screen(items[i], keys).Keep? ==> i in KeptIndices(items, keys)
  {
    if |items| > 0 {
      var init := items[..|items| - 1];
      assert forall i :: 0 <= i < |init| ==> init[i] == items[i];
      KeptIndicesComplete(init, keys);
    }
  }

  /**
   * The staged objects are exactly the kept elements, in the order of the
   * input list: the j-th staged object is the element at the j-th kept position.
   */
  lemma {:induction false} KeptInInputOrder(items: seq<Json>, keys: seq<string>)
    requires Kept(items, keys).Ok?
    ensures |Kept(items, keys).value| == |KeptIndices(items, keys)|
    ensures forall j :: 0 <= j < |KeptIndices(items, keys)| ==>
      Screen(items[KeptIndices(items, keys)[j]], keys) == Keep(Kept(items, keys).value[j])
  {
    if |items| > 0 {
      var init := items[..|items| - 1];
      assert forall i :: 0 <= i < |init| ==> init[i] == items[i];
      KeptInInputOrder(init, keys);
    }
  }

  /** One more turn of the loader's loop: what the next element does to the staged objects. */
  lemma KeptStep(items: seq<Json>, i: nat, keys: seq<string>)
    requires i < |items| && Kept(items[..i], keys).Ok?
    ensures Screen(items[i], keys).Raise? ==> Kept(items, keys).Err?
    ensures Screen(items[i], keys).Skip? ==> Kept(items[..i + 1], keys) == Kept(items[..i], keys)
    ensures Screen(items[i], keys).Keep? ==>
      Kept(items[..i + 1], keys) == Ok(Kept(items[..i], keys).value + [Screen(items[i], keys).fields])
  {
    assert items[..i + 1][..i] == items[..i];
    assert items[..i + 1][i] == items[i];
  }

  /** The number of elements on which every key passes the membership test. */
  function CountContaining(items: seq<Json>, keys: seq<string>): nat {
    if |items| == 0 then 0
    else
      CountContaining(items[..|items| - 1], keys)
        + (if AllIn(keys, items[|items| - 1]) == Some(true) then 1 else 0)
  }

  /** When the batch goes through, the number of staged rows is the number of complete elements. */
  lemma {:induction false} KeptCount(items: seq<Json>, keys: seq<string>)
    requires Kept(items, keys).Ok?
    ensures |Kept(items, keys).value| == CountContaining(items, keys)
  {
    if |items| > 0 {
      var init := items[..|items| - 1];
      assert forall i :: 0 <= i < |init| ==> init[i] == items[i];
      KeptCount(init, keys);
    }
  }

  /** A list of objects that all carry every key is kept whole: no element dropped, no size cap. */
  lemma {:induction false} CompleteObjectsAllKept(items: seq<Json>, keys: seq<string>)
    requires forall i :: 0 <= i < |items| ==> items[i].JObj? && HasKeys(items[i].fields, keys)
    ensures Kept(items, keys).Ok? && |Kept(items, keys).value| == |items|
  {
    if |items| > 0 {
      var init := items[..|items| - 1];
      assert forall i :: 0 <= i < |init| ==> init[i] == items[i];
      CompleteObjectsAllKept(init, keys);
      var last := items[|items| - 1];
      assert forall k :: k in keys ==> PyIn(k, last) == Some(true);
      assert Screen(last, keys).Keep?;
    }
  }

  /** `json.load` of the file, required to be a list. */
  function LoadJsonList(files: Store, filePath: string, loads: Loads): (r: Outcome<seq<Json>>)
    ensures filePath !in files ==> r == Err(NotFound)
    ensures filePath in files && loads(files[filePath]).None? ==> r == Err(InternalError)
    ensures (filePath in files && loads(files[filePath]).Some? && !loads(files[filePath]).value.JArr?)
            ==> r == Err(BadRequest)
    ensures r.Ok? ==> filePath in files && loads(files[filePath]) == Some(JArr(r.value))
  {
    if filePath !in files then Err(NotFound)
    else
      var jsonData := loads(files[filePath]);
      if jsonData.None? then Err(InternalError)
      else if !jsonData.value.JArr? then Err(BadRequest)
      else Ok(jsonData.value.items)
  }

  // ---------------------------------------------------------------------
  // Events: store_events_in_db
  // ---------------------------------------------------------------------

  /** A `potential_events` row; `id` and `create_time` are assigned by the database. */
  datatype EventRow = EventRow(name: Json, url: Json, category: Json, rootUrl: string)

  function EventRowOf(m: map<string, Json>, rootUrl: string): EventRow
    requires HasKeys(m, EventKeys)
  {
    EventRow(m["name"], m["url"], m["category"], rootUrl)
  }

  /** The event rows for the staged objects, in order. */
  function EventRows(kept: seq<map<string, Json>>, rootUrl: string): (rows: seq<EventRow>)
    requires forall j :: 0 <= j < |kept| ==> HasKeys(kept[j], EventKeys)
  {
    seq(|kept|, j requires 0 <= j < |kept| => EventRowOf(kept[j], rootUrl))
  }

  lemma EventRowsAppend(kept: seq<map<string, Json>>, m: map<string, Json>, rootUrl: string)
    requires forall j :: 0 <= j < |kept| ==> HasKeys(kept[j], EventKeys)
    requires HasKeys(m, EventKeys)
    ensures EventRows(kept + [m], rootUrl) == EventRows(kept, rootUrl) + [EventRowOf(m, rootUrl)]
  {
  }

  /** One turn of the events loader's loop: what the next element does to the staged rows. */
  lemma EventRowsStep(items: seq<Json>, i: nat, rootUrl: string)
    requires i < |items| && Kept(items[..i], EventKeys).Ok?
    ensures Screen(items[i], EventKeys).Raise? ==> Kept(items, EventKeys).Err?
    ensures !Screen(items[i], EventKeys).Raise? ==> Kept(items[..i + 1], EventKeys).Ok?
    ensures Screen(items[i], EventKeys).Skip? ==>
      EventRows(Kept(items[..i + 1], EventKeys).value, rootUrl) == EventRows(Kept(items[..i], EventKeys).value, rootUrl)
    ensures Screen(items[i], EventKeys).Keep? ==>
      && HasKeys(Screen(items[i], EventKeys).fields, EventKeys)
      && EventRows(Kept(items[..i + 1], EventKeys).value, rootUrl)
         == EventRows(Kept(items[..i], EventKeys).value, rootUrl) + [EventRowOf(Screen(items[i], EventKeys).fields, rootUrl)]
  {
    KeptStep(items, i, EventKeys);
    if Screen(items[i], EventKeys).Keep? {
      EventRowsAppend(Kept(items[..i], EventKeys).value, Screen(items[i], EventKeys).fields, rootUrl);
    }
  }

  /** The rows the events loader would commit, or the status it fails with before committing. */
  function EventBatch(files: Store, filePath: string, rootUrl: string, loads: Loads): (r: Outcome<seq<EventRow>>)
    ensures filePath !in files ==> r == Err(NotFound)
    ensures filePath in files && loads(files[filePath]).None? ==> r == Err(InternalError)
    ensures (filePath in files && loads(files[filePath]).Some? && !loads(files[filePath]).value.JArr?)
            ==> r == Err(BadRequest)
    ensures r.Ok? ==> forall j :: 0 <= j < |r.value| ==> r.value[j].rootUrl == rootUrl
  {
    var items := LoadJsonList(files, filePath, loads);
    if items.Err? then Err(items.status)
    else
      var kept := Kept(items.value, EventKeys);
      if kept.Err? then Err(kept.status)
      else Ok(EventRows(kept.value, rootUrl))
  }

  /** Once the file has been read as a list, the batch is decided by the screening alone. */
  lemma EventBatchOfList(files: Store, filePath: string, rootUrl: string, loads: Loads, items: seq<Json>)
    requires filePath in files && loads(files[filePath]) == Some(JArr(items))
    ensures Kept(items, EventKeys).Err? ==> EventBatch(files, filePath, rootUrl, loads) == Err(InternalError)
    ensures Kept(items, EventKeys).Ok? ==>
      EventBatch(files, filePath, rootUrl, loads) == Ok(EventRows(Kept(items, EventKeys).value, rootUrl))
  {
  }

  /**
   * A committed events batch holds one row per element that has `name`, `url`
   * and `category`, in input order, copying the three values verbatim (the
   * category is not checked against any list) and the request's `root_url`;
   * every object element with the three keys gets its row.
   */
  lemma EventBatchRows(files: Store, filePath: string, rootUrl: string, loads: Loads)
    requires EventBatch(files, filePath, rootUrl, loads).Ok?
    ensures var items := loads(files[filePath]).value.items;
      var rows := EventBatch(files, filePath, rootUrl, loads).value;
      var idx := KeptIndices(items, EventKeys);
      && |rows| == CountContaining(items, EventKeys) == |idx| <= |items|
      && (forall j :: 0 <= j < |rows| ==>
           && items[idx[j]].JObj?
           && var m := items[idx[j]].fields;
           && HasKeys(m, EventKeys)
           && rows[j] == EventRow(m["name"], m["url"], m["category"], rootUrl))
      && forall i :: 0 <= i < |items| && items[i].JObj? && HasKeys(items[i].fields, EventKeys) ==> i in idx
  {
    var items := loads(files[filePath]).value.items;
    KeptInInputOrder(items, EventKeys);
    KeptCount(items, EventKeys);
    KeptIndicesComplete(items, EventKeys);
    forall i | 0 <= i < |items| && items[i].JObj? && HasKeys(items[i].fields, EventKeys)
      ensures Screen(items[i], EventKeys).Keep?
    {
      assert forall k :: k in EventKeys ==> PyIn(k, items[i]) == Some(true);
    }
  }

  /**
   * An element whose category is none of Associations, Exhibitions or News is
   * stored all the same: when the batch commits, some row carries that category.
   */
  lemma EventCategoryNotChecked(files: Store, filePath: string, rootUrl: string, loads: Loads,
                                items: seq<Json>, i: nat, category: string)
    requires filePath in files && loads(files[filePath]) == Some(JArr(items))
    requires Kept(items, EventKeys).Ok?
    requires i < |items| && items[i].JObj? && HasKeys(items[i].fields, EventKeys)
    requires items[i].fields["category"] == JStr(category)
    requires category != "Associations" && category != "Exhibitions" && category != "News"
    ensures EventBatch(files, filePath, rootUrl, loads).Ok?
    ensures exists j :: 0 <= j < |EventBatch(files, filePath, rootUrl, loads).value|
                     && EventBatch(files, filePath, rootUrl, loads).value[j].category == JStr(category)
  {
    EventBatchOfList(files, filePath, rootUrl, loads, items);
    EventBatchRows(files, filePath, rootUrl, loads);
    var rows := EventBatch(files, filePath, rootUrl, loads).value;
    var idx := KeptIndices(items, EventKeys);
    var j :| 0 <= j < |idx| && idx[j] == i;
    assert rows[j].category == JStr(category);
  }

  // ---------------------------------------------------------------------
  // Prioritised customers: store_prioritized_companies_in_db
  // ---------------------------------------------------------------------

  /** A `potential_customer` row; `id` and `create_time` are assigned by the database. */
  datatype CustomerRow = CustomerRow(
    companyName: Json, industry: Json, revenue: Json, size: Json,
    stakeholderName: Json, stakeholderPosition: Json, stakeholderEmail: Json,
    stakeholderPhone: Json, stakeholderLink: Json, reasoning: Json)

  /** The value under `key`, or the empty string when the key is absent. */
  function GetOrEmpty(m: map<string, Json>, key: string): Json {
    if key in m then m[key] else JStr("")
  }

  function CustomerRowOf(m: map<string, Json>): CustomerRow {
    CustomerRow(
      GetOrEmpty(m, "company_name"), GetOrEmpty(m, "industry"), GetOrEmpty(m, "revenue"),
      GetOrEmpty(m, "size"), GetOrEmpty(m, "stakeholder_name"), GetOrEmpty(m, "stakeholder_position"),
      GetOrEmpty(m, "stakeholder_email"), GetOrEmpty(m, "stakeholder_phone"),
      GetOrEmpty(m, "stakeholder_link"), GetOrEmpty(m, "reasoning"))
  }

  /**
   * A customer row copies the nine required values verbatim and stores a
   * missing `stakeholder_link` as "".
   */
  lemma CustomerRowCopies(m: map<string, Json>)
    requires HasKeys(m, CustomerKeys)
    ensures var row := CustomerRowOf(m);
      && row.companyName == m["company_name"] && row.industry == m["industry"]
      && row.revenue == m["revenue"] && row.size == m["size"]
      && row.stakeholderName == m["stakeholder_name"] && row.stakeholderPosition == m["stakeholder_position"]
      && row.stakeholderEmail == m["stakeholder_email"] && row.stakeholderPhone == m["stakeholder_phone"]
      && row.reasoning == m["reasoning"]
      && row.stakeholderLink == (if "stakeholder_link" in m then m["stakeholder_link"] else JStr(""))
  {
    assert CustomerKeys[0] in CustomerKeys && CustomerKeys[1] in CustomerKeys && CustomerKeys[2] in CustomerKeys;
    assert CustomerKeys[3] in CustomerKeys && CustomerKeys[4] in CustomerKeys && CustomerKeys[5] in CustomerKeys;
    assert CustomerKeys[6] in CustomerKeys && CustomerKeys[7] in CustomerKeys && CustomerKeys[8] in CustomerKeys;
  }

  /** The customer rows for the staged objects, in order. */
  function CustomerRows(kept: seq<map<string, Json>>): (rows: seq<CustomerRow>) {
    seq(|kept|, j requires 0 <= j < |kept| => CustomerRowOf(kept[j]))
  }

  lemma CustomerRowsAppend(kept: seq<map<string, Json>>, m: map<string, Json>)
    ensures CustomerRows(kept + [m]) == CustomerRows(kept) + [CustomerRowOf(m)]
  {
  }

  /** One turn of the customer loader's loop: what the next element does to the staged rows. */
  lemma CustomerRowsStep(items: seq<Json>, i: nat)
    requires i < |items| && Kept(items[..i], CustomerKeys).Ok?
    ensures Screen(items[i], CustomerKeys).Raise? ==> Kept(items, CustomerKeys).Err?
    ensures !Screen(items[i], CustomerKeys).Raise? ==> Kept(items[..i + 1], CustomerKeys).Ok?
    ensures Screen(items[i], CustomerKeys).Skip? ==>
      CustomerRows(Kept(items[..i + 1], CustomerKeys).value) == CustomerRows(Kept(items[..i], CustomerKeys).value)
    ensures Screen(items[i], CustomerKeys).Keep? ==>
      CustomerRows(Kept(items[..i + 1], CustomerKeys).value)
        == CustomerRows(Kept(items[..i], CustomerKeys).value) + [CustomerRowOf(Screen(items[i], CustomerKeys).fields)]
  {
    KeptStep(items, i, CustomerKeys);
    if Screen(items[i], CustomerKeys).Keep? {
      CustomerRowsAppend(Kept(items[..i], CustomerKeys).value, Screen(items[i], CustomerKeys).fields);
    }
  }

  /** The rows the customers loader would commit, or the status it fails with before committing. */
  function CustomerBatch(files: Store, filePath: string, loads: Loads): (r: Outcome<seq<CustomerRow>>)
    ensures filePath !in files ==> r == Err(NotFound)
    ensures filePath in files && loads(files[filePath]).None? ==> r == Err(InternalError)
    ensures (filePath in files && loads(files[filePath]).Some? && !loads(files[filePath]).value.JArr?)
            ==> r == Err(BadRequest)
    ensures r.Ok? ==> |r.value| <= |loads(files[filePath]).value.items|
  {
    var items := LoadJsonList(files, filePath, loads);
    if items.Err? then Err(items.status)
    else
      var kept := Kept(items.value, CustomerKeys);
      if kept.Err? then Err(kept.status)
      else Ok(CustomerRows(kept.value))
  }

  /** Once the file has been read as a list, the batch is decided by the screening alone. */
  lemma CustomerBatchOfList(files: Store, filePath: string, loads: Loads, items: seq<Json>)
    requires filePath in files && loads(files[filePath]) == Some(JArr(items))
    ensures Kept(items, CustomerKeys).Err? ==> CustomerBatch(files, filePath, loads) == Err(InternalError)
    ensures Kept(items, CustomerKeys).Ok? ==>
      CustomerBatch(files, filePath, loads) == Ok(CustomerRows(Kept(items, CustomerKeys).value))
  {
  }

  /**
   * A committed customers batch holds one row per element that has all nine
   * required keys, in input order, each mapped by CustomerRowOf; every object
   * element with the nine keys gets its row.
   */
  lemma CustomerBatchRows(files: Store, filePath: string, loads: Loads)
    requires CustomerBatch(files, filePath, loads).Ok?
    ensures var items := loads(files[filePath]).value.items;
      var rows := CustomerBatch(files, filePath, loads).value;
      var idx := KeptIndices(items, CustomerKeys);
      && |rows| == CountContaining(items, CustomerKeys) == |idx| <= |items|
      && (forall j :: 0 <= j < |rows| ==>
           && items[idx[j]].JObj?
           && var m := items[idx[j]].fields;
           && HasKeys(m, CustomerKeys)
           && rows[j] == CustomerRowOf(m))
      && forall i :: 0 <= i < |items| && items[i].JObj? && HasKeys(items[i].fields, CustomerKeys) ==> i in idx
  {
    var items := loads(files[filePath]).value.items;
    KeptInInputOrder(items, CustomerKeys);
    KeptCount(items, CustomerKeys);
    KeptIndicesComplete(items, CustomerKeys);
    forall i | 0 <= i < |items| && items[i].JObj? && HasKeys(items[i].fields, CustomerKeys)
      ensures Screen(items[i], CustomerKeys).Keep?
    {
      assert forall k :: k in CustomerKeys ==> PyIn(k, items[i]) == Some(true);
    }
  }

  /**
   * A list of complete customer objects is stored whole, however long it is:
   * the loader does not enforce the top-50 limit the model is asked for.
   */
  lemma CustomerBatchNotCapped(files: Store, filePath: string, loads: Loads)
    requires filePath in files && loads(files[filePath]).Some? && loads(files[filePath]).value.JArr?
    requires var items := loads(files[filePath]).value.items;
      forall i :: 0 <= i < |items| ==> items[i].JObj? && HasKeys(items[i].fields, CustomerKeys)
    ensures CustomerBatch(files, filePath, loads).Ok?
    ensures |CustomerBatch(files, filePath, loads).value| == |loads(files[filePath]).value.items|
  {
    CompleteObjectsAllKept(loads(files[filePath]).value.items, CustomerKeys);
  }

  /** A customer object without `stakeholder_email` is skipped, not stored with a default. */
  lemma CustomerWithoutEmailSkipped(m: map<string, Json>)
    requires "stakeholder_email" !in m
    ensures Screen(JObj(m), CustomerKeys) == Skip
  {
    assert CustomerKeys[6] == "stakeholder_email";
    assert PyIn(CustomerKeys[6], JObj(m)) == Some(false);
  }

  // ---------------------------------------------------------------------
  // The two tables
  // ---------------------------------------------------------------------

  class Database {
    var events: seq<EventRow>
    var customers: seq<CustomerRow>

    constructor ()
      ensures events == [] && customers == []
    {
      events, customers := [], [];
    }

    /**
     * POST /store_events_in_db. `commitOk` says whether the database accepts
     * the commit; when it does not, or an element raises, nothing is added.
     */
    method StoreEventsInDb(files: Store, filePath: string, rootUrl: string, loads: Loads, commitOk: bool)
      returns (r: Outcome<nat>)
      modifies this
      ensures var batch := EventBatch(files, filePath, rootUrl, loads);
        && (r.Ok? <==> batch.Ok? && commitOk)
        && (r.Ok? ==> r.value == |batch.value| && events == old(events) + batch.value)
        && (r.Err? ==> events == old(events) && r.status == if batch.Err? then batch.status else InternalError)
        && customers == old(customers)
    {
      if filePath !in files {
        return Err(NotFound);
      }
      var jsonData := loads(files[filePath]);
      if jsonData.None? {
        return Err(InternalError);
      }
      if !jsonData.value.JArr? {
        return Err(BadRequest);
      }
      var items := jsonData.value.items;
      EventBatchOfList(files, filePath, rootUrl, loads, items);
      var staged: seq<EventRow> := [];
      var insertedCount := 0;
      var i := 0;
      while i < |items|
        invariant 0 <= i <= |items|
        invariant Kept(items[..i], EventKeys).Ok?
        invariant staged == EventRows(Kept(items[..i], EventKeys).value, rootUrl)
        invariant insertedCount == |staged|
        invariant events == old(events) && customers == old(customers)
      {
        EventRowsStep(items, i, rootUrl);
        match Screen(items[i], EventKeys) {
          case Raise =>
            return Err(InternalError);  // rolled back
          case Skip =>
          case Keep(m) =>
            staged := staged + [EventRowOf(m, rootUrl)];
            insertedCount := insertedCount + 1;
        }
        i := i + 1;
      }
      assert items[..i] == items;
      if !commitOk {
        return Err(InternalError);  // rolled back
      }
      events := events + staged;
      r := Ok(insertedCount);
    }

    /** POST /store_prioritized_companies_in_db, with the same all-or-nothing commit. */
    method StorePrioritizedCompaniesInDb(files: Store, filePath: string, loads: Loads, commitOk: bool)
      returns (r: Outcome<nat>)
      modifies this
      ensures var batch := CustomerBatch(files, filePath, loads);
        && (r.Ok? <==> batch.Ok? && commitOk)
        && (r.Ok? ==> r.value == |batch.value| && customers == old(customers) + batch.value)
        && (r.Err? ==> customers == old(customers) && r.status == if batch.Err? then batch.status else InternalError)
        && events == old(events)
    {
      if filePath !in files {
        return Err(NotFound);
      }
      var jsonData := loads(files[filePath]);
      if jsonData.None? {
        return Err(InternalError);
      }
      if !jsonData.value.JArr? {
        return Err(BadRequest);
      }
      var items := jsonData.value.items;
      CustomerBatchOfList(files, filePath, loads, items);
      var staged: seq<CustomerRow> := [];
      var insertedCount := 0;
      var i := 0;
      while i < |items|
        invariant 0 <= i <= |items|
        invariant Kept(items[..i], CustomerKeys).Ok?
        invariant staged == CustomerRows(Kept(items[..i], CustomerKeys).value)
        invariant insertedCount == |staged|
        invariant events == old(events) && customers == old(customers)
      {
        CustomerRowsStep(items, i);
        match Screen(items[i], CustomerKeys) {
          case Raise =>
            return Err(InternalError);  // rolled back
          case Skip =>
          case Keep(m) =>
            staged := staged + [CustomerRowOf(m)];
            insertedCount := insertedCount + 1;
        }
        i := i + 1;
      }
      assert items[..i] == items;
      if !commitOk {
        return Err(InternalError);  // rolled back
      }
      customers := customers + staged;
      r := Ok(insertedCount);
    }
  }
}
