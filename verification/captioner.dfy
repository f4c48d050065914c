/** The caption requester and parser (`generate_captions`): the caption
    record, the defaulting of the style list, the prompt it sends, and the
    all-or-nothing conversion of the decoded JSON response into records.
    The remote generation call and JSON text decoding are parameters. */
module Captioner {
  import opened Results
  import opened Text
  import Prompts

  /** A decoded JSON value. Numbers are kept as reals; object members as a
      map from member name to value. */
  datatype Json =
    | JNull
    | JBool(b: bool)
    | JNumber(num: real)
    | JString(str: string)
    | JArray(elems: seq<Json>)
    | JObject(members: map<string, Json>)

  /** One caption suggestion (`CaptionOption`). `caption`, `style` and
      `altText` are required; `length` and `score` default to `None` and
      `hashtags` to the empty list. */
  datatype CaptionOption = CaptionOption(
    caption: string,
    style: string,
    length: Option<string>,
    altText: string,
    hashtags: seq<string>,
    score: Option<real>)

  /** Why one array element could not become a record: it is not a JSON
      object (the `**item` expansion fails), or the named fields are missing
      or of the wrong kind (record validation fails). */
  datatype RecordError = NotAMapping | InvalidFields(fields: set<string>)

  /** Why a whole response was rejected. */
  datatype CaptionError =
    | InvalidJson                                 // the response text does not decode
    | NotIterable                                 // the decoded value cannot be iterated
    | InvalidItem(index: nat, reason: RecordError) // the first element that failed

  const CaptionFieldNames: set<string> := {"caption", "style", "length", "alt_text", "hashtags", "score"}

  // ---------------------------------------------------------------------
  // Field rules of the record.

  /** A required text field: present and a string. */
  predicate TextFieldOk(members: map<string, Json>, name: string)
  {
    name in members && members[name].JString?
  }

  /** A `str | None` field with default `None`: absent, null or a string. */
  predicate OptionalTextOk(members: map<string, Json>, name: string)
  {
    name !in members || members[name].JNull? || members[name].JString?
  }

  /** A `float | None` field with default `None`: absent, null or a number. */
  predicate OptionalNumberOk(members: map<string, Json>, name: string)
  {
    name !in members || members[name].JNull? || members[name].JNumber?
  }

  predicate AllStrings(values: seq<Json>)
  {
    forall j :: 0 <= j < |values| ==> values[j].JString?
  }

  /** A `List[str]` field with an empty-list default: absent, or an array of strings. */
  predicate TextListOk(members: map<string, Json>, name: string)
  {
    name !in members || (members[name].JArray? && AllStrings(members[name].elems))
  }

  /** The names of the fields that fail their rule. */
  function FieldErrors(members: map<string, Json>): (bad: set<string>)
    ensures bad <= CaptionFieldNames
  {
    (if TextFieldOk(members, "caption") then {} else {"caption"})
    + (if TextFieldOk(members, "style") then {} else {"style"})
    + (if OptionalTextOk(members, "length") then {} else {"length"})
    + (if TextFieldOk(members, "alt_text") then {} else {"alt_text"})
    + (if TextListOk(members, "hashtags") then {} else {"hashtags"})
    + (if OptionalNumberOk(members, "score") then {} else {"score"})
  }

  /** The strings of an array of JSON strings, in order. */
  function Strings(values: seq<Json>): (texts: seq<string>)
    requires AllStrings(values)
    ensures |texts| == |values|
    ensures forall j :: 0 <= j < |values| ==> values[j] == JString(texts[j])
  {
    if |values| == 0 then []
    else [values[0].str] + Strings(values[1..])
  }

  function OptionalText(members: map<string, Json>, name: string): Option<string>
    requires OptionalTextOk(members, name)
  {
    if name in members && members[name].JString? then Some(members[name].str) else None
  }

  function OptionalNumber(members: map<string, Json>, name: string): Option<real>
    requires OptionalNumberOk(members, name)
  {
    if name in members && members[name].JNumber? then Some(members[name].num) else None
  }

  /** `CaptionOption(**item)`: a record when the item is an object whose
      fields all follow their rules (members the record does not declare are
      ignored), and otherwise the reason it is not. */
  function ToCaptionOption(item: Json): (r: Result<CaptionOption, RecordError>)
    ensures !item.JObject? ==> r == Err(NotAMapping)
    ensures item.JObject? && r.Err? ==>
              r.error.InvalidFields? && r.error.fields != {} && r.error.fields <= CaptionFieldNames
    ensures r.Ok? ==> && item.JObject?
                      && "caption" in item.members && "style" in item.members && "alt_text" in item.members
                      && item.members["caption"] == JString(r.value.caption)
                      && item.members["style"] == JString(r.value.style)
                      && item.members["alt_text"] == JString(r.value.altText)
    ensures r.Ok? && "length" !in item.members ==> r.value.length == None
    ensures r.Ok? && "hashtags" !in item.members ==> r.value.hashtags == []
    ensures r.Ok? && "score" !in item.members ==> r.value.score == None
    // A present optional field is the record's value for it, as dumped back:
    // a present `length`, `hashtags` or `score` is kept, a `null` optional
    // becomes `None`.
    ensures r.Ok? && "length" in item.members ==> item.members["length"] == DumpText(r.value.length)
    ensures r.Ok? && "hashtags" in item.members ==> item.members["hashtags"] == JArray(DumpStrings(r.value.hashtags))
    ensures r.Ok? && "score" in item.members ==> item.members["score"] == DumpNumber(r.value.score)
  {
    match item
    case JObject(m) =>
      if FieldErrors(m) != {} then Err(InvalidFields(FieldErrors(m)))
      else
        assert TextFieldOk(m, "caption") && TextFieldOk(m, "style") && TextFieldOk(m, "alt_text");
        assert OptionalTextOk(m, "length") && TextListOk(m, "hashtags") && OptionalNumberOk(m, "score");
        assert "hashtags" in m ==> DumpStrings(Strings(m["hashtags"].elems)) == m["hashtags"].elems;
        Ok(CaptionOption(
          m["caption"].str,
          m["style"].str,
          OptionalText(m, "length"),
          m["alt_text"].str,
          if "hashtags" in m then Strings(m["hashtags"].elems) else [],
          OptionalNumber(m, "score")))
    case _ => Err(NotAMapping)
  }

  /** A JSON object becomes a record exactly when `caption`, `style` and
      `alt_text` are strings and each optional field is absent or of its
      kind; a missing or mistyped field is named in the error. */
  lemma RecordValidity(members: map<string, Json>)
    ensures ToCaptionOption(JObject(members)).Ok? <==>
      && TextFieldOk(members, "caption") && TextFieldOk(members, "style")
      && TextFieldOk(members, "alt_text")
      && OptionalTextOk(members, "length") && TextListOk(members, "hashtags")
      && OptionalNumberOk(members, "score")
    ensures "caption" !in members ==> ToCaptionOption(JObject(members)).error.fields >= {"caption"}
    ensures "style" !in members ==> ToCaptionOption(JObject(members)).error.fields >= {"style"}
    ensures "alt_text" !in members ==> ToCaptionOption(JObject(members)).error.fields >= {"alt_text"}
    ensures ToCaptionOption(JObject(members)).Err? ==>
      var named := ToCaptionOption(JObject(members)).error.fields;
      && ("caption" in named <==> !TextFieldOk(members, "caption"))
      && ("style" in named <==> !TextFieldOk(members, "style"))
      && ("length" in named <==> !OptionalTextOk(members, "length"))
      && ("alt_text" in named <==> !TextFieldOk(members, "alt_text"))
      && ("hashtags" in named <==> !TextListOk(members, "hashtags"))
      && ("score" in named <==> !OptionalNumberOk(members, "score"))
  {
  }

  // ---------------------------------------------------------------------
  // The record dumped back to JSON (`model_dump`), the inverse of
  // `ToCaptionOption`.

  function DumpText(o: Option<string>): Json
  {
    if o.Some? then JString(o.value) else JNull
  }

  function DumpNumber(o: Option<real>): Json
  {
    if o.Some? then JNumber(o.value) else JNull
  }

  function DumpStrings(texts: seq<string>): (values: seq<Json>)
    ensures |values| == |texts|
    ensures forall j :: 0 <= j < |texts| ==> values[j] == JString(texts[j])
  {
    seq(|texts|, j requires 0 <= j < |texts| => JString(texts[j]))
  }

  /** Every field of the record under its JSON name; absent optionals as null. */
  function DumpCaptionOption(c: CaptionOption): Json
  {
    JObject(map[
      "caption" := JString(c.caption),
      "style" := JString(c.style),
      "length" := DumpText(c.length),
      "alt_text" := JString(c.altText),
      "hashtags" := JArray(DumpStrings(c.hashtags)),
      "score" := DumpNumber(c.score)])
  }

  lemma StringsOfDump(texts: seq<string>)
    ensures AllStrings(DumpStrings(texts))
    ensures Strings(DumpStrings(texts)) == texts
  {
  }

  /** Every declared field an accepted item carries is the record's value
      for it, as dumped back; undeclared members play no part. */
  lemma PresentFieldsAsDumped(item: Json)
    ensures ToCaptionOption(item).Ok? ==>
      forall f :: f in item.members && f in CaptionFieldNames ==>
        item.members[f] == DumpCaptionOption(ToCaptionOption(item).value).members[f]
  {
  }

  /** A dumped record is read back as the same record. */
  lemma DumpRoundTrip(c: CaptionOption)
    ensures ToCaptionOption(DumpCaptionOption(c)) == Ok(c)
  {
    StringsOfDump(c.hashtags);
  }

  // ---------------------------------------------------------------------
  // The whole response.

  /** `[CaptionOption(**item) for item in items]`: every element in order,
      or the first element that fails; no partial list. */
  function ParseItems(items: seq<Json>): (r: Result<seq<CaptionOption>, CaptionError>)
    ensures r.Ok? <==> forall i :: 0 <= i < |items| ==> ToCaptionOption(items[i]).Ok?
    ensures r.Ok? ==> |r.value| == |items|
                      && forall i :: 0 <= i < |items| ==> ToCaptionOption(items[i]) == Ok(r.value[i])
    ensures r.Err? ==> && r.error.InvalidItem?
                       && r.error.index < |items|
                       && ToCaptionOption(items[r.error.index]) == Err(r.error.reason)
                       && forall j :: 0 <= j < r.error.index ==> ToCaptionOption(items[j]).Ok?
  {
    if |items| == 0 then Ok([])
    else
      var head := ToCaptionOption(items[0]);
      if head.Err? then Err(InvalidItem(0, head.error))
      else
        var tail := ParseItems(items[1..]);
        assert forall i :: 1 <= i < |items| ==> items[1..][i - 1] == items[i];
        if tail.Ok? then Ok([head.value] + tail.value)
        else Err(InvalidItem(tail.error.index + 1, tail.error.reason))
  }

  /** Iterating the decoded value and building one record per element. A
      list gives its elements; an empty object or empty string iterates
      nothing; a non-empty object or string yields keys or characters,
      which fail the `**item` expansion; other values cannot be iterated. */
  function ParseDecoded(data: Json): (r: Result<seq<CaptionOption>, CaptionError>)
    ensures data.JArray? ==> r == ParseItems(data.elems)
    ensures r.Ok? && !data.JArray? ==> r.value == [] && (data == JObject(map[]) || data == JString(""))
    ensures (data.JObject? && data.members != map[]) || (data.JString? && data.str != "") ==>
              r == Err(InvalidItem(0, NotAMapping))
    ensures data.JNull? || data.JBool? || data.JNumber? ==> r == Err(NotIterable)
    ensures data == JObject(map[]) || data == JString("") ==> r == Ok([])
  {
    match data
    case JArray(items) => ParseItems(items)
    case JObject(m) => if |m| == 0 then Ok([]) else Err(InvalidItem(0, NotAMapping))
    case JString(s) => if |s| == 0 then Ok([]) else Err(InvalidItem(0, NotAMapping))
    case _ => Err(NotIterable)
  }

  /** `json.loads(raw)` followed by the record list. `decode` is the JSON
      decoder: `None` when the text is not valid JSON. */
  function ParseResponse(raw: string, decode: string -> Option<Json>): (r: Result<seq<CaptionOption>, CaptionError>)
    ensures decode(raw).None? <==> r == Err(InvalidJson)
    ensures decode(raw).Some? ==> r == ParseDecoded(decode(raw).value)
  {
    match decode(raw)
    case None => Err(InvalidJson)
    case Some(data) => ParseDecoded(data)
  }

  /** Parsing a list of dumped records gives back the records, in order. */
  lemma {:induction false} ParseDumpedList(cs: seq<CaptionOption>)
    ensures ParseItems(seq(|cs|, i requires 0 <= i < |cs| => DumpCaptionOption(cs[i]))) == Ok(cs)
  {
    var items := seq(|cs|, i requires 0 <= i < |cs| => DumpCaptionOption(cs[i]));
    forall i | 0 <= i < |cs|
      ensures ToCaptionOption(items[i]) == Ok(cs[i])
    {
      DumpRoundTrip(cs[i]);
    }
    var r := ParseItems(items);
    assert r.Ok?;
    assert r.value == cs by {
      forall i | 0 <= i < |cs|
        ensures r.value[i] == cs[i]
      {
        assert ToCaptionOption(items[i]) == Ok(r.value[i]);
      }
    }
  }

  // ---------------------------------------------------------------------
  // The declared output schema sent with the request.

  datatype FieldKind = StringKind | StringArrayKind | NumberKind
  datatype SchemaField = SchemaField(name: string, kind: FieldKind, required: bool)

  /** The object schema each array element is declared to follow: all six
      fields, of which `caption`, `style`, `alt_text` and `hashtags` are
      required. */
  const ResponseItemSchema: seq<SchemaField> := [
    SchemaField("caption", StringKind, true),
    SchemaField("style", StringKind, true),
    SchemaField("length", StringKind, false),
    SchemaField("alt_text", StringKind, true),
    SchemaField("hashtags", StringArrayKind, true),
    SchemaField("score", NumberKind, false)
  ]

  predicate HasKind(v: Json, kind: FieldKind)
  {
    match kind
    case StringKind => v.JString?
    case StringArrayKind => v.JArray? && AllStrings(v.elems)
    case NumberKind => v.JNumber?
  }

  predicate FieldConforms(members: map<string, Json>, f: SchemaField)
  {
    && (f.required ==> f.name in members)
    && (f.name in members ==> HasKind(members[f.name], f.kind))
  }

  /** An element that follows the declared schema. */
  predicate ConformsToSchema(item: Json)
  {
    item.JObject? &&
    forall k :: 0 <= k < |ResponseItemSchema| ==> FieldConforms(item.members, ResponseItemSchema[k])
  }

  /** Every element that follows the declared schema becomes a record. */
  lemma SchemaConformingItemAccepted(item: Json)
    requires ConformsToSchema(item)
    ensures ToCaptionOption(item).Ok?
  {
    var m := item.members;
    assert FieldConforms(m, ResponseItemSchema[0]);
    assert FieldConforms(m, ResponseItemSchema[1]);
    assert FieldConforms(m, ResponseItemSchema[2]);
    assert FieldConforms(m, ResponseItemSchema[3]);
    assert FieldConforms(m, ResponseItemSchema[4]);
    assert FieldConforms(m, ResponseItemSchema[5]);
    RecordValidity(m);
  }

  /** The record is looser than the schema: an element without `hashtags`
      breaks the schema but still becomes a record, with no hashtags. */
  lemma RecordLooserThanSchema(caption: string, style: string, altText: string)
    ensures var item := JObject(map["caption" := JString(caption), "style" := JString(style),
                                    "alt_text" := JString(altText)]);
      && !ConformsToSchema(item)
      && ToCaptionOption(item) == Ok(CaptionOption(caption, style, None, altText, [], None))
  {
    var item := JObject(map["caption" := JString(caption), "style" := JString(style),
                            "alt_text" := JString(altText)]);
    assert !FieldConforms(item.members, ResponseItemSchema[4]);
  }

  // ---------------------------------------------------------------------
  // The request.

  const DefaultStyles: seq<string> := ["Neutral", "Witty", "Storylike", "Minimal"]

  /** `styles or [...]`: a missing or empty style list becomes the default list. */
  function EffectiveStyles(styles: Option<seq<string>>): (r: seq<string>)
    ensures |r| > 0
    ensures styles.Some? && |styles.value| > 0 ==> r == styles.value
    ensures styles.None? || |styles.value| == 0 ==> r == DefaultStyles
  {
    if styles.Some? && |styles.value| > 0 then styles.value else DefaultStyles
  }

  /** The arguments of `generate_captions` other than the image. */
  datatype CaptionArgs = CaptionArgs(
    n: int,
    styles: Option<seq<string>>,
    platform: Option<string>,
    includeHashtags: bool,
    maxChars: Option<int>,
    extraKeywords: Option<string>,
    model: string)

  /** The instruction `generate_captions` sends: the builder's prompt for the
      effective styles, with the other options passed through. */
  function RequestPrompt(args: CaptionArgs): string
  {
    Prompts.BuildCaptionPrompt(args.n, EffectiveStyles(args.styles), args.platform,
                               args.includeHashtags, args.maxChars, args.extraKeywords)
  }

  /** The request prompt never falls back to "diverse": its style clause is
      the caller's non-empty list or the default list, joined by ", ", and it
      occurs in the prompt. */
  lemma RequestPromptStyles(args: CaptionArgs)
    ensures var lines := Prompts.TemplateLines(Prompts.PromptClauses(
                           args.n, EffectiveStyles(args.styles), args.platform,
                           args.includeHashtags, args.maxChars, args.extraKeywords));
      && RequestPrompt(args) == Join("\n", lines)
      && (args.styles.Some? && |args.styles.value| > 0 ==>
            lines[Prompts.StylesLine] == Prompts.Bullet(Prompts.StylesLead + Join(", ", args.styles.value) + "."))
      && (args.styles.None? || |args.styles.value| == 0 ==>
            lines[Prompts.StylesLine] == Prompts.Bullet(Prompts.StylesLead + Join(", ", DefaultStyles) + "."))
    ensures IsSubstring(Prompts.StylesLead + Join(", ", EffectiveStyles(args.styles)) + ".", RequestPrompt(args))
  {
    Prompts.PromptLines(args.n, EffectiveStyles(args.styles), args.platform,
                        args.includeHashtags, args.maxChars, args.extraKeywords);
    Prompts.ClausesStated(args.n, EffectiveStyles(args.styles), args.platform,
                          args.includeHashtags, args.maxChars, args.extraKeywords);
  }

  /** The arguments of `generate_captions(image)` with every optional
      argument at its default; `defaultModel` is the configured default
      model name. */
  function DefaultArgs(defaultModel: string): CaptionArgs
  {
    CaptionArgs(5, None, None, true, None, None, defaultModel)
  }

  /** With the defaults, the prompt asks for five options in the four default
      styles and wants hashtags, and its platform, limit and keyword bullets
      are bare. */
  lemma DefaultRequest(defaultModel: string)
    ensures var args := DefaultArgs(defaultModel);
            var lines := RequestLines(args);
            var prompt := RequestPrompt(args);
      && args.model == defaultModel && args.n == 5
      && EffectiveStyles(args.styles) == DefaultStyles
      && IsSubstring(Prompts.CountLead + IntToString(args.n) + Prompts.CountPhrase, prompt)
      && IsSubstring(Prompts.StylesLead + Join(", ", EffectiveStyles(args.styles)) + ".", prompt)
      && IsSubstring(Prompts.HashtagsOn, prompt)
      && lines[Prompts.PlatformLine] == "- "
      && lines[Prompts.LimitLine] == "- "
      && lines[Prompts.KeywordLine] == "- "
  {
    BareOptionalRequest(DefaultArgs(defaultModel));
  }

  /** The template lines of the request prompt. */
  function RequestLines(args: CaptionArgs): (lines: seq<string>)
    ensures |lines| == Prompts.LineCount
    ensures RequestPrompt(args) == Join("\n", lines)
  {
    Prompts.TemplateLines(Prompts.PromptClauses(args.n, EffectiveStyles(args.styles), args.platform,
                                                args.includeHashtags, args.maxChars, args.extraKeywords))
  }

  /** A request with hashtags wanted and no platform, limit or keywords
      states its count, its styles and the hashtag rule, and leaves the three
      optional bullets bare. */
  lemma BareOptionalRequest(args: CaptionArgs)
    requires args.includeHashtags
    requires args.platform.None? && args.maxChars.None? && args.extraKeywords.None?
    ensures var lines := RequestLines(args);
            var prompt := RequestPrompt(args);
      && IsSubstring(Prompts.CountLead + IntToString(args.n) + Prompts.CountPhrase, prompt)
      && IsSubstring(Prompts.StylesLead + Join(", ", EffectiveStyles(args.styles)) + ".", prompt)
      && IsSubstring(Prompts.HashtagsOn, prompt)
      && lines[Prompts.PlatformLine] == "- "
      && lines[Prompts.LimitLine] == "- "
      && lines[Prompts.KeywordLine] == "- "
  {
    var styles := EffectiveStyles(args.styles);
    Prompts.CountAlwaysStated(args.n, styles, None, true, None, None);
    Prompts.ClausesStated(args.n, styles, None, true, None, None);
    Prompts.PromptLines(args.n, styles, None, true, None, None);
  }

  /** `generate_captions`: builds the prompt, sends it to `service` (the
      remote generation call for a model name and instruction, with the image
      fixed), decodes the reply and builds the records. */
  function GenerateCaptions(args: CaptionArgs, service: (string, string) -> string,
                            decode: string -> Option<Json>): (r: Result<seq<CaptionOption>, CaptionError>)
    ensures var reply := decode(service(args.model, RequestPrompt(args)));
      && (reply.None? <==> r == Err(InvalidJson))
      && (reply.Some? && reply.value.JArray? ==>
            && (r.Ok? <==> forall i :: 0 <= i < |reply.value.elems| ==> ToCaptionOption(reply.value.elems[i]).Ok?)
            && (r.Ok? ==> |r.value| == |reply.value.elems|
                          && forall i :: 0 <= i < |r.value| ==> ToCaptionOption(reply.value.elems[i]) == Ok(r.value[i])))
    ensures var reply := decode(service(args.model, RequestPrompt(args)));
      && (reply.Some? ==> r == ParseDecoded(reply.value))
      && (reply.Some? && !reply.value.JArray? ==> r.Err? || r.value == [])
  {
    ParseResponse(service(args.model, RequestPrompt(args)), decode)
  }
}
