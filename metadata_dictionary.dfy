/**
 * The metadata-dictionary builder: for every index, every field of its
 * mapping is sampled with a set of aggregations, described by the language
 * model from a prompt that shows the samples, and recorded as the JSON object
 * the model answered with (or a fallback object built from the inputs when
 * the answer holds no JSON object).
 *
 * Elasticsearch, the language model and `json.loads` are the fields of
 * `Services`: they are given, not modelled.
 */
module MetadataDictionary {
  import opened Wrappers
  import opened Text
  import opened JsonData
  import opened DescriptionPrompt

  /** What an Elasticsearch call or a missing key raises. */
  datatype Error = StoreError(reason: string) | KeyError(key: string)

  /** One entry of a mapping's `properties`: the field name and its `type`, when it has one. */
  datatype Property = Property(name: string, typ: Option<string>)

  /** `mapping[index]['mappings']`: the `properties` object, which may be absent. */
  datatype IndexMapping = IndexMapping(properties: Option<seq<Property>>)

  /** `{"field_name": ..., "data_type": ...}`. */
  datatype FieldDescriptor = FieldDescriptor(fieldName: string, dataType: string)

  /** One aggregation of the sampling request. */
  datatype Aggregation =
    | Terms(field: string, size: int)
    | RareTerms(field: string, maxDocCount: int)
    | SignificantTerms(field: string, size: int)
    | Cardinality(field: string)
    | TopHits(size: int)

  /** The `aggs` object of the sampling request, one member per named aggregation. */
  datatype AggregationRequest = AggregationRequest(
    frequentTerms: Aggregation,
    rareTerms: Aggregation,
    significantTerms: Aggregation,
    uniqueCount: Aggregation,
    sampleDocs: Aggregation)

  datatype Bucket = Bucket(key: Key, docCount: nat)

  /** `response["aggregations"]`, with the parts the builder reads. */
  datatype SearchResponse = SearchResponse(
    frequentTerms: seq<Bucket>,
    rareTerms: seq<Bucket>,
    significantTerms: seq<Bucket>,
    uniqueCount: nat,
    sampleDocs: seq<Json>)

  /** What `get_diverse_terms` returns. */
  datatype DiverseTerms = DiverseTerms(
    frequentTerms: seq<Key>,
    rareTerms: seq<Key>,
    significantTerms: seq<Key>,
    uniqueCount: nat,
    sampleDocs: seq<Json>)

  /**
   * The outside world. `listSet` is the order in which `list(set(...))`
   * happens to enumerate a set; Python leaves it unspecified.
   */
  datatype Services = Services(
    indices: Result<seq<string>, Error>,
    getMapping: string -> Result<map<string, IndexMapping>, Error>,
    search: (string, AggregationRequest) -> Result<SearchResponse, Error>,
    generateText: string -> string,
    parseJson: string -> Option<Json>,
    listSet: set<Key> -> seq<Key>)

  /** `threshold`'s default: the most sample values shown per field. */
  const DefaultThreshold := 20

  /** `size`'s default in `get_diverse_terms`. */
  const DefaultSize := 10

  /** `max_doc_count` of the rare-terms aggregation. */
  const RareMaxDocCount := 5

  /** `size` of the top-hits aggregation. */
  const SampleDocCount := 3

  // ---------------------------------------------------------------------------
  // get_fields

  /** The descriptor of one mapping property; a property without `type` is `"unknown"`. */
  function Descriptor(p: Property): FieldDescriptor
  {
    FieldDescriptor(p.name, match p.typ case Some(t) => t case None => "unknown")
  }

  /** `mapping[index]['mappings'].get('properties', {})`. */
  function PropertiesOf(response: map<string, IndexMapping>, index: string): (r: Result<seq<Property>, Error>)
    ensures r.Err? <==> index !in response
    ensures r.Err? ==> r.error == KeyError(index)
    ensures r.Ok? && response[index].properties.None? ==> r.value == []
    ensures r.Ok? && response[index].properties.Some? ==> r.value == response[index].properties.value
  {
    if index !in response then Err(KeyError(index))
    else Ok(match response[index].properties case Some(ps) => ps case None => [])
  }

  /**
   * `get_fields(es, index)`: one descriptor per mapping property, in mapping
   * order. The mapping call's error, or a response without the index,
   * propagates.
   */
  function Fields(sv: Services, index: string): (r: Result<seq<FieldDescriptor>, Error>)
    ensures sv.getMapping(index).Err? ==> r == Err(sv.getMapping(index).error)
    ensures sv.getMapping(index).Ok? && index !in sv.getMapping(index).value ==> r == Err(KeyError(index))
    ensures sv.getMapping(index).Ok? ==>
              (r.Ok? <==> PropertiesOf(sv.getMapping(index).value, index).Ok?)
    ensures r.Ok? ==>
              var props := PropertiesOf(sv.getMapping(index).value, index).value;
              |r.value| == |props|
              && forall i :: 0 <= i < |props| ==>
                   r.value[i].fieldName == props[i].name
                   && (props[i].typ.None? ==> r.value[i].dataType == "unknown")
                   && (props[i].typ.Some? ==> r.value[i].dataType == props[i].typ.value)
  {
    var response :- sv.getMapping(index);
    var props :- PropertiesOf(response, index);
    Ok(seq(|props|, i requires 0 <= i < |props| => Descriptor(props[i])))
  }

  /** The loop of `get_fields`: it appends one descriptor per property. */
  method GetFields(sv: Services, index: string) returns (r: Result<seq<FieldDescriptor>, Error>)
    ensures r == Fields(sv, index)
  {
    var response :- sv.getMapping(index);
    var props :- PropertiesOf(response, index);
    var fields: seq<FieldDescriptor> := [];
    for i := 0 to |props|
      invariant fields == seq(i, k requires 0 <= k < i => Descriptor(props[k]))
    {
      fields := fields + [Descriptor(props[i])];
    }
    return Ok(fields);
  }

  // ---------------------------------------------------------------------------
  // get_diverse_terms

  /** The field the aggregations target: a text field's `.keyword` sub-field, any other field itself. */
  function AggField(field: string, dataType: string): (r: string)
    ensures r == field + ".keyword" <==> dataType == "text"
    ensures r == field <==> dataType != "text"
  {
    if dataType == "text" then field + ".keyword" else field
  }

  /** The field an aggregation reads, if it reads one. */
  function Target(a: Aggregation): Option<string>
  {
    match a
    case Terms(f, _) => Some(f)
    case RareTerms(f, _) => Some(f)
    case SignificantTerms(f, _) => Some(f)
    case Cardinality(f) => Some(f)
    case TopHits(_) => None
  }

  /** The request `get_diverse_terms` sends. */
  function SamplingRequest(field: string, dataType: string, size: int): (r: AggregationRequest)
    ensures r.frequentTerms.Terms? && r.rareTerms.RareTerms? && r.significantTerms.SignificantTerms?
            && r.uniqueCount.Cardinality? && r.sampleDocs.TopHits?
    ensures Target(r.frequentTerms) == Target(r.rareTerms) == Target(r.significantTerms)
            == Target(r.uniqueCount) == Some(AggField(field, dataType))
    ensures Target(r.sampleDocs) == None
    ensures r.frequentTerms.size == r.significantTerms.size == size
    ensures r.rareTerms.maxDocCount == RareMaxDocCount && r.sampleDocs.size == SampleDocCount
  {
    var target := AggField(field, dataType);
    AggregationRequest(
      Terms(target, size),
      RareTerms(target, RareMaxDocCount),
      SignificantTerms(target, size),
      Cardinality(target),
      TopHits(SampleDocCount))
  }

  /** `[bucket["key"] for bucket in buckets]`. */
  function BucketKeys(buckets: seq<Bucket>): (ks: seq<Key>)
    ensures |ks| == |buckets|
    ensures forall i :: 0 <= i < |buckets| ==> ks[i] == buckets[i].key
  {
    if buckets == [] then [] else [buckets[0].key] + BucketKeys(buckets[1..])
  }

  /** The dictionary `get_diverse_terms` builds from the response. */
  function Project(response: SearchResponse): DiverseTerms
  {
    DiverseTerms(
      BucketKeys(response.frequentTerms),
      BucketKeys(response.rareTerms),
      BucketKeys(response.significantTerms),
      response.uniqueCount,
      response.sampleDocs)
  }

  /**
   * `get_diverse_terms(es, index, field, data_type, size)`: one search with
   * the sampling request; the three term lists are the bucket keys in the
   * order the response lists them.
   */
  function GetDiverseTerms(sv: Services, index: string, field: string, dataType: string,
                           size: int := DefaultSize): (r: Result<DiverseTerms, Error>)
    ensures var response := sv.search(index, SamplingRequest(field, dataType, size));
            (response.Err? ==> r == Err(response.error))
            && (response.Ok? ==>
                  r.Ok?
                  && r.value.frequentTerms == BucketKeys(response.value.frequentTerms)
                  && r.value.rareTerms == BucketKeys(response.value.rareTerms)
                  && r.value.significantTerms == BucketKeys(response.value.significantTerms)
                  && r.value.uniqueCount == response.value.uniqueCount
                  && r.value.sampleDocs == response.value.sampleDocs)
  {
    var response :- sv.search(index, SamplingRequest(field, dataType, size));
    Ok(Project(response))
  }

  // ---------------------------------------------------------------------------
  // The combined samples of process_field

  predicate NoDuplicates(xs: seq<Key>)
  {
    forall i, j :: 0 <= i < j < |xs| ==> xs[i] != xs[j]
  }

  function Elements(xs: seq<Key>): set<Key>
  {
    set x | x in xs
  }

  /** `list(s)` for a set `s`: every element once, in some order. */
  predicate IsListing(xs: seq<Key>, s: set<Key>)
  {
    NoDuplicates(xs) && Elements(xs) == s
  }

  /** `listSet` behaves as `list` on sets does. */
  ghost predicate ListsSets(listSet: set<Key> -> seq<Key>)
  {
    forall s :: IsListing(listSet(s), s)
  }

  /** Where Python's `xs[:stop]` ends in a list of length `n`; a negative `stop` counts from the end. */
  function SliceEnd(n: nat, stop: int): (e: nat)
    ensures e <= n
    ensures stop >= 0 ==> e == if stop < n then stop else n
    ensures stop < 0 ==> e == if n + stop > 0 then n + stop else 0
  {
    if stop >= 0 then (if stop < n then stop else n)
    else if n + stop > 0 then n + stop else 0
  }

  /** The distinct terms of the three lists. */
  function SampleTerms(d: DiverseTerms): set<Key>
  {
    Elements(d.frequentTerms + d.rareTerms + d.significantTerms)
  }

  /** `list(set(frequent + rare + significant))[:threshold]`. */
  function CombinedSamples(listSet: set<Key> -> seq<Key>, d: DiverseTerms, threshold: int): seq<Key>
  {
    var all := listSet(SampleTerms(d));
    all[..SliceEnd(|all|, threshold)]
  }

  /** A list without duplicates is as long as the set of its elements. */
  lemma {:induction false} ListingSize(xs: seq<Key>)
    requires NoDuplicates(xs)
    ensures |Elements(xs)| == |xs|
  {
    if xs != [] {
      var rest := xs[1..];
      ListingSize(rest);
      assert Elements(xs) == {xs[0]} + Elements(rest);
      assert xs[0] !in Elements(rest);
    }
  }

  /**
   * The combined samples are distinct terms of the three lists, as many as
   * the threshold allows: all of them when the threshold is at least their
   * number.
   */
  lemma CombinedSamplesSpec(listSet: set<Key> -> seq<Key>, d: DiverseTerms, threshold: int)
    requires ListsSets(listSet)
    ensures var r := CombinedSamples(listSet, d, threshold);
            NoDuplicates(r)
            && (forall x :: x in r ==> x in d.frequentTerms + d.rareTerms + d.significantTerms)
            && |r| == SliceEnd(|SampleTerms(d)|, threshold)
            && (threshold >= |SampleTerms(d)| ==> Elements(r) == SampleTerms(d))
  {
    var all := listSet(SampleTerms(d));
    assert IsListing(all, SampleTerms(d));
    ListingSize(all);
    var r := CombinedSamples(listSet, d, threshold);
    forall x | x in r ensures x in d.frequentTerms + d.rareTerms + d.significantTerms {
      assert x in all;
      assert x in Elements(all);
    }
    if threshold >= |SampleTerms(d)| {
      assert r == all;
    }
  }

  // ---------------------------------------------------------------------------
  // extract_json

  /** Why `extract_json` raises `ValueError`. */
  datatype JsonError = NoJsonObject | InvalidJson(span: string)

  /** `text[start..end]` is a match of `\{(?:.|\n)*\}`: it opens with `{` and closes with `}`. */
  predicate IsBraceSpan(text: string, start: nat, end: nat)
  {
    start + 2 <= end <= |text| && text[start] == '{' && text[end - 1] == '}'
  }

  /**
   * The span `re.search` finds: the first `{` that has a `}` after it (which
   * is the first `{` of all), up to the last `}`. `None` when no `{` comes
   * before a `}`.
   */
  function JsonSpan(text: string): (r: Option<(nat, nat)>)
    ensures r.Some? ==> IsBraceSpan(text, r.value.0, r.value.1)
    ensures r.None? <==> forall s: nat, e: nat :: !IsBraceSpan(text, s, e)
    ensures r.Some? ==> forall s: nat, e: nat :: IsBraceSpan(text, s, e) ==>
              r.value.0 < s || (r.value.0 == s && e <= r.value.1)
  {
    match (FindFirst(text, '{'), FindLast(text, '}'))
    case (Some(s), Some(e)) =>
      if s < e then
        assert IsBraceSpan(text, s, e + 1);
        assert forall s': nat, e': nat :: IsBraceSpan(text, s', e') ==> s < s' || (s == s' && e' <= e + 1) by {
          forall s': nat, e': nat | IsBraceSpan(text, s', e') ensures s < s' || (s == s' && e' <= e + 1) {
            assert s <= s' && e' - 1 <= e;
          }
        }
        Some((s, e + 1))
      else None
    case _ => None
  }

  /**
   * `extract_json(text)`: the span from the first `{` to the last `}` is
   * handed to the parser; either step failing is a `ValueError`.
   */
  function ExtractJson(text: string, parseJson: string -> Option<Json>): (r: Result<Json, JsonError>)
    ensures r == Err(NoJsonObject) <==> forall s: nat, e: nat :: !IsBraceSpan(text, s, e)
    ensures r.Err? && r.error.InvalidJson? ==>
              JsonSpan(text).Some? && r.error.span == text[JsonSpan(text).value.0..JsonSpan(text).value.1]
              && parseJson(r.error.span).None?
    ensures r.Ok? ==>
              JsonSpan(text).Some?
              && parseJson(text[JsonSpan(text).value.0..JsonSpan(text).value.1]) == Some(r.value)
  {
    match JsonSpan(text)
    case None => Err(NoJsonObject)
    case Some((s, e)) =>
      var span := text[s..e];
      match parseJson(span)
      case None => Err(InvalidJson(span))
      case Some(j) => Ok(j)
  }

  // ---------------------------------------------------------------------------
  // process_field

  /** The object `process_field` records when the model text holds no parsable JSON object. */
  function Fallback(index: string, fd: FieldDescriptor, text: string, samples: seq<Key>): Json
  {
    JObject([
      ("field_name", JStr(fd.fieldName)),
      ("index_name", JStr(index)),
      ("data_type", JStr(fd.dataType)),
      ("natural_language_description", JStr(text)),
      ("sample_value", if samples != [] then KeyJson(samples[0]) else JStr(""))])
  }

  /** The five keys of a fallback entry, in order. */
  const FallbackKeys := ["field_name", "index_name", "data_type", "natural_language_description", "sample_value"]

  /**
   * A fallback entry has exactly the five keys, each once; it names the field,
   * the index and the data type, describes the field by the model's text and
   * shows the first sample, or `""` when there is none.
   */
  lemma FallbackEntry(index: string, fd: FieldDescriptor, text: string, samples: seq<Key>)
    ensures var m := Fallback(index, fd, text, samples).members;
            Keys(m) == FallbackKeys && DistinctKeys(m)
            && Get(m, "field_name") == Some(JStr(fd.fieldName))
            && Get(m, "index_name") == Some(JStr(index))
            && Get(m, "data_type") == Some(JStr(fd.dataType))
            && Get(m, "natural_language_description") == Some(JStr(text))
            && Get(m, "sample_value") == Some(if samples == [] then JStr("") else KeyJson(samples[0]))
  {
    var m := Fallback(index, fd, text, samples).members;
    assert Keys(m) == FallbackKeys;
    GetMember(m, 0);
    GetMember(m, 1);
    GetMember(m, 2);
    GetMember(m, 3);
    GetMember(m, 4);
  }

  /** The samples `process_field` shows the model, given the terms it drew. */
  function FieldSamples(sv: Services, d: DiverseTerms, threshold: int): seq<Key>
  {
    CombinedSamples(sv.listSet, d, threshold)
  }

  /** `llm_client.generate_text(prompt=prompt).strip()`: the answer, without whitespace at either end. */
  function ModelText(sv: Services, index: string, fd: FieldDescriptor, samples: seq<Key>): (text: string)
    ensures text == [] || (!IsSpace(text[0]) && !IsSpace(text[|text| - 1]))
    ensures |text| <= |sv.generateText(GeneratePrompt(index, fd.fieldName, fd.dataType, samples))|
  {
    Strip(sv.generateText(GeneratePrompt(index, fd.fieldName, fd.dataType, samples)))
  }

  /**
   * `process_field(es, index, field_detail, llm_client, threshold)`. Sampling
   * runs outside the `try`, so its error propagates; a `ValueError` from
   * extraction is replaced by the fallback entry.
   */
  function ProcessField(sv: Services, index: string, fd: FieldDescriptor,
                        threshold: int := DefaultThreshold): (r: Result<Json, Error>)
    ensures var terms := GetDiverseTerms(sv, index, fd.fieldName, fd.dataType, threshold);
            (r.Ok? <==> terms.Ok?) && (terms.Err? ==> r.error == terms.error)
  {
    var terms :- GetDiverseTerms(sv, index, fd.fieldName, fd.dataType, threshold);
    var samples := FieldSamples(sv, terms, threshold);
    var text := ModelText(sv, index, fd, samples);
    match ExtractJson(text, sv.parseJson)
    case Ok(j) => Ok(j)
    case Err(_) => Ok(Fallback(index, fd, text, samples))
  }

  /** When the model's text holds a parsable JSON span, `process_field` returns the parsed value unchanged. */
  lemma ProcessFieldParsed(sv: Services, index: string, fd: FieldDescriptor, threshold: int)
    requires GetDiverseTerms(sv, index, fd.fieldName, fd.dataType, threshold).Ok?
    ensures var samples := FieldSamples(sv, GetDiverseTerms(sv, index, fd.fieldName, fd.dataType, threshold).value, threshold);
            var text := ModelText(sv, index, fd, samples);
            var span := JsonSpan(text);
            span.Some? && sv.parseJson(text[span.value.0..span.value.1]).Some? ==>
              ProcessField(sv, index, fd, threshold) == Ok(sv.parseJson(text[span.value.0..span.value.1]).value)
  {
  }

  /**
   * When extraction fails, `process_field` returns the fallback entry: the
   * inputs, the stripped model text and the first combined sample.
   */
  lemma ProcessFieldFallback(sv: Services, index: string, fd: FieldDescriptor, threshold: int)
    requires GetDiverseTerms(sv, index, fd.fieldName, fd.dataType, threshold).Ok?
    ensures var samples := FieldSamples(sv, GetDiverseTerms(sv, index, fd.fieldName, fd.dataType, threshold).value, threshold);
            var text := ModelText(sv, index, fd, samples);
            ExtractJson(text, sv.parseJson).Err? ==>
              ProcessField(sv, index, fd, threshold) == Ok(Fallback(index, fd, text, samples))
  {
  }

  // ---------------------------------------------------------------------------
  // process_index and generate_metadata_dictionary

  /**
   * The per-field work `process_index` hands to its thread pool, given the
   * index name and the field: `process_field` with the builder's client,
   * model and threshold.
   */
  type FieldProcess = (string, FieldDescriptor) -> Result<Json, Error>

  /** `process_field(es, _, _, llm_client, threshold)`. */
  function FieldProcessor(sv: Services, threshold: int): (process: FieldProcess)
    ensures forall index, fd :: process(index, fd) == ProcessField(sv, index, fd, threshold)
  {
    (index, fd) => ProcessField(sv, index, fd, threshold)
  }

  /** What `process` gives for each field, in field order. */
  function FieldResults(process: FieldProcess, index: string, fields: seq<FieldDescriptor>): (rs: seq<Result<Json, Error>>)
    ensures |rs| == |fields|
    ensures forall i :: 0 <= i < |fields| ==> rs[i] == process(index, fields[i])
  {
    seq(|fields|, i requires 0 <= i < |fields| => process(index, fields[i]))
  }

  /** The entries of a list, each as the success it came from. */
  function Successes(entries: seq<Json>): (rs: seq<Result<Json, Error>>)
    ensures |rs| == |entries| && forall i :: 0 <= i < |entries| ==> rs[i] == Ok(entries[i])
  {
    seq(|entries|, i requires 0 <= i < |entries| => Ok(entries[i]))
  }

  /** The mapping of the index is read and every one of its fields is processed without error. */
  predicate IndexSucceeds(sv: Services, process: FieldProcess, index: string)
  {
    Fields(sv, index).Ok?
    && forall fd :: fd in Fields(sv, index).value ==> process(index, fd).Ok?
  }

  /** `entries` is a list `process_index` may return: the per-field results, in some order. */
  predicate IndexDone(sv: Services, process: FieldProcess, index: string, entries: seq<Json>)
  {
    Fields(sv, index).Ok?
    && multiset(Successes(entries)) == multiset(FieldResults(process, index, Fields(sv, index).value))
  }

  /** `e` is an error `process_index` may raise: the mapping call's, or one field's. */
  predicate IndexFails(sv: Services, process: FieldProcess, index: string, e: Error)
  {
    match Fields(sv, index)
    case Err(e') => e == e'
    case Ok(fields) => Err(e) in FieldResults(process, index, fields)
  }

  /**
   * `process_index(es, index, llm_client, threshold)`, with `process` the
   * per-field work: every field is processed and the results are appended as
   * they complete, one entry per field; the first failure to complete
   * raises, and a failing mapping call raises before any field is processed.
   */
  method ProcessIndex(sv: Services, process: FieldProcess, index: string)
    returns (r: Result<seq<Json>, Error>)
    ensures r.Ok? <==> IndexSucceeds(sv, process, index)
    ensures r.Ok? ==> IndexDone(sv, process, index, r.value) && |r.value| == |Fields(sv, index).value|
    ensures r.Err? ==> IndexFails(sv, process, index, r.error)
  {
    var fields :- GetFields(sv, index);
    var results := FieldResults(process, index, fields);
    r := AsCompleted(results);
    assert (forall i :: 0 <= i < |results| ==> results[i].Ok?)
           <==> forall fd :: fd in fields ==> process(index, fd).Ok?;
  }

  /**
   * `for future in as_completed(futures): metadata.append(future.result())`:
   * the results are taken in the order their computations complete, which is
   * any order; the first failure taken raises.
   */
  method AsCompleted(results: seq<Result<Json, Error>>) returns (r: Result<seq<Json>, Error>)
    ensures r.Ok? <==> forall i :: 0 <= i < |results| ==> results[i].Ok?
    ensures r.Ok? ==> multiset(Successes(r.value)) == multiset(results) && |r.value| == |results|
    ensures r.Err? ==> Err(r.error) in results
  {
    var completed: seq<Result<Json, Error>> :| multiset(completed) == multiset(results);
    var metadata: seq<Json> := [];
    for k := 0 to |completed|
      invariant Successes(metadata) == completed[..k]
    {
      var result := completed[k];
      if result.Err? {
        assert result in multiset(completed);
        return Err(result.error);
      }
      assert Successes(metadata + [result.value]) == completed[..k + 1];
      metadata := metadata + [result.value];
    }
    assert Successes(metadata) == completed;
    assert |multiset(completed)| == |multiset(results)|;
    forall i | 0 <= i < |results| ensures results[i].Ok? {
      assert results[i] in multiset(completed);
    }
    r := Ok(metadata);
  }

  /** The concatenation of the per-index lists. */
  function Flatten(lists: seq<seq<Json>>): seq<Json>
  {
    if lists == [] then [] else Flatten(lists[..|lists| - 1]) + lists[|lists| - 1]
  }

  lemma FlattenAppend(lists: seq<seq<Json>>, last: seq<Json>)
    ensures Flatten(lists + [last]) == Flatten(lists) + last
  {
    assert (lists + [last])[..|lists|] == lists;
  }

  /** The number of fields of all the indices, whose mappings were all read. */
  function FieldCount(sv: Services, indices: seq<string>): nat
    requires forall i :: 0 <= i < |indices| ==> Fields(sv, indices[i]).Ok?
  {
    if indices == [] then 0
    else FieldCount(sv, indices[..|indices| - 1]) + |Fields(sv, indices[|indices| - 1]).value|
  }

  lemma FieldCountAppend(sv: Services, indices: seq<string>, k: nat)
    requires k < |indices| && forall i :: 0 <= i <= k ==> Fields(sv, indices[i]).Ok?
    ensures FieldCount(sv, indices[..k + 1]) == FieldCount(sv, indices[..k]) + |Fields(sv, indices[k]).value|
  {
    assert indices[..k + 1][..k] == indices[..k];
  }

  /**
   * `generate_metadata_dictionary(es, llm_client, threshold)`: the entries of
   * every index, index after index in `get_indices` order; `perIndex` holds
   * what each `process_index` call returned. The first index that fails
   * stops the run with one of its errors.
   */
  method GenerateMetadataDictionary(sv: Services, threshold: int := DefaultThreshold)
    returns (r: Result<seq<Json>, Error>, ghost perIndex: seq<seq<Json>>)
    ensures sv.indices.Err? ==> r == Err(sv.indices.error)
    ensures r.Ok? <==>
              sv.indices.Ok?
              && forall i :: 0 <= i < |sv.indices.value| ==>
                   IndexSucceeds(sv, FieldProcessor(sv, threshold), sv.indices.value[i])
    ensures r.Ok? ==>
              |perIndex| == |sv.indices.value| && r.value == Flatten(perIndex)
              && (forall i :: 0 <= i < |perIndex| ==>
                    IndexDone(sv, FieldProcessor(sv, threshold), sv.indices.value[i], perIndex[i]))
              && |r.value| == FieldCount(sv, sv.indices.value)
    ensures r.Err? && sv.indices.Ok? ==>
              exists k :: 0 <= k < |sv.indices.value|
                && (forall i :: 0 <= i < k ==> IndexSucceeds(sv, FieldProcessor(sv, threshold), sv.indices.value[i]))
                && IndexFails(sv, FieldProcessor(sv, threshold), sv.indices.value[k], r.error)
  {
    if sv.indices.Err? {
      return Err(sv.indices.error), [];
    }
    r, perIndex := ProcessIndices(sv, FieldProcessor(sv, threshold), sv.indices.value);
  }

  /** The loop of `generate_metadata_dictionary` over the index names. */
  method ProcessIndices(sv: Services, process: FieldProcess, indices: seq<string>)
    returns (r: Result<seq<Json>, Error>, ghost perIndex: seq<seq<Json>>)
    ensures r.Ok? <==> forall i :: 0 <= i < |indices| ==> IndexSucceeds(sv, process, indices[i])
    ensures r.Ok? ==>
              |perIndex| == |indices| && r.value == Flatten(perIndex)
              && (forall i :: 0 <= i < |indices| ==> IndexDone(sv, process, indices[i], perIndex[i]))
              && |r.value| == FieldCount(sv, indices)
    ensures r.Err? ==>
              exists k :: 0 <= k < |indices|
                && (forall i :: 0 <= i < k ==> IndexSucceeds(sv, process, indices[i]))
                && IndexFails(sv, process, indices[k], r.error)
  {
    perIndex := [];
    var metadata: seq<Json> := [];
    for k := 0 to |indices|
      invariant |perIndex| == k && metadata == Flatten(perIndex)
      invariant forall i :: 0 <= i < k ==> IndexSucceeds(sv, process, indices[i])
      invariant AllDone(sv, process, indices, perIndex)
      invariant |metadata| == FieldCount(sv, indices[..k])
    {
      var entries := ProcessIndex(sv, process, indices[k]);
      if entries.Err? {
        return Err(entries.error), perIndex;
      }
      assert forall i :: 0 <= i < k + 1 ==> IndexSucceeds(sv, process, indices[i]) by {
        assert IndexSucceeds(sv, process, indices[k]);
      }
      FlattenAppend(perIndex, entries.value);
      FieldCountAppend(sv, indices, k);
      AllDoneAppend(sv, process, indices, perIndex, entries.value);
      perIndex := perIndex + [entries.value];
      metadata := metadata + entries.value;
    }
    assert indices[..|indices|] == indices;
    return Ok(metadata), perIndex;
  }

  /** Each of the first `|perIndex|` indices is done, with the entries `perIndex` holds for it. */
  predicate AllDone(sv: Services, process: FieldProcess, indices: seq<string>, perIndex: seq<seq<Json>>)
  {
    |perIndex| <= |indices| && forall i :: 0 <= i < |perIndex| ==> IndexDone(sv, process, indices[i], perIndex[i])
  }

  lemma AllDoneAppend(sv: Services, process: FieldProcess, indices: seq<string>, perIndex: seq<seq<Json>>, entries: seq<Json>)
    requires AllDone(sv, process, indices, perIndex) && |perIndex| < |indices|
    requires IndexDone(sv, process, indices[|perIndex|], entries)
    ensures AllDone(sv, process, indices, perIndex + [entries])
  {
    forall i | 0 <= i < |perIndex| + 1
      ensures IndexDone(sv, process, indices[i], (perIndex + [entries])[i])
    {
      if i < |perIndex| {
        assert (perIndex + [entries])[i] == perIndex[i];
      }
    }
  }
}
