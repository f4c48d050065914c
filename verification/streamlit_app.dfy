/** The browser front end's logic: the widget values it collects, their
    normalisation before the caption call (`_cached_captions`), and the
    hashtag and score lines shown for each result. Rendering, caching and
    image handling are outside the model. */
module StreamlitApp {
  import opened Results
  import opened Text
  import Prompts
  import Captioner

  const ModelOptions: seq<string> := ["gemini-2.5-flash", "gemini-2.5-flash-lite", "gemini-2.5-pro"]
  const StyleVocabulary: seq<string> :=
    ["Neutral", "Witty", "Storylike", "Minimal", "Poetic", "Elegant", "Playful", "SEO"]
  const PlatformOptions: seq<string> := ["", "Instagram", "LinkedIn", "Twitter/X", "Pinterest"]
  const MaxCharsOptions: seq<int> := [0, 80, 120, 150, 220]
  const MinCount := 3
  const MaxCount := 10

  /** The values of the sidebar widgets. */
  datatype Settings = Settings(
    model: string,
    n: int,
    styles: seq<string>,
    platform: string,
    includeHashtags: bool,
    maxChars: int,
    extraKeywords: string)

  /** What the widgets can produce: a listed model, a count on the 3..10
      slider, styles from the vocabulary, a listed platform (possibly the
      empty choice), and a listed character limit (0 meaning none). */
  predicate WithinWidgetBounds(s: Settings)
  {
    && s.model in ModelOptions
    && MinCount <= s.n <= MaxCount
    && (forall i :: 0 <= i < |s.styles| ==> s.styles[i] in StyleVocabulary)
    && s.platform in PlatformOptions
    && s.maxChars in MaxCharsOptions
  }

  /** `None if max_chars == 0 else int(max_chars)`. */
  function NormalizeMaxChars(maxChars: int): (r: Option<int>)
    ensures r.None? <==> maxChars == 0
    ensures r.Some? ==> r.value == maxChars
  {
    if maxChars == 0 then None else Some(maxChars)
  }

  /** `text if text else None`. */
  function NormalizeText(text: string): (r: Option<string>)
    ensures r.None? <==> text == ""
    ensures r.Some? ==> r.value == text
  {
    if text == "" then None else Some(text)
  }

  /** The arguments `_cached_captions` passes to `generate_captions`. */
  function CallArgs(s: Settings): (a: Captioner.CaptionArgs)
    ensures a.n == s.n && a.styles == Some(s.styles) && a.includeHashtags == s.includeHashtags
    ensures a.model == s.model
    ensures (a.maxChars.None? <==> s.maxChars == 0) && (a.maxChars.Some? ==> a.maxChars.value == s.maxChars)
    ensures (a.platform.None? <==> s.platform == "") && (a.platform.Some? ==> a.platform.value == s.platform)
    ensures a.extraKeywords.None? <==> s.extraKeywords == ""
    ensures a.extraKeywords.Some? ==> a.extraKeywords.value == s.extraKeywords
  {
    Captioner.CaptionArgs(s.n, Some(s.styles), NormalizeText(s.platform), s.includeHashtags,
                          NormalizeMaxChars(s.maxChars), NormalizeText(s.extraKeywords), s.model)
  }

  /** `_cached_captions`, without the cache and the image decoding: the
      generation call with the normalised settings. The reply fails to decode
      exactly when the result is `InvalidJson`; a decoded array gives one
      record per element, in order, exactly when every element converts; a
      decoded non-array never yields a record. */
  function CachedCaptions(s: Settings, service: (string, string) -> string,
                          decode: string -> Option<Captioner.Json>)
    : (r: Result<seq<Captioner.CaptionOption>, Captioner.CaptionError>)
    ensures var reply := decode(service(s.model, Captioner.RequestPrompt(CallArgs(s))));
      && (reply.None? <==> r == Err(Captioner.InvalidJson))
      && (reply.Some? && reply.value.JArray? ==>
            && (r.Ok? <==> forall i :: 0 <= i < |reply.value.elems| ==>
                             Captioner.ToCaptionOption(reply.value.elems[i]).Ok?)
            && (r.Ok? ==> |r.value| == |reply.value.elems|
                          && forall i :: 0 <= i < |r.value| ==>
                               Captioner.ToCaptionOption(reply.value.elems[i]) == Ok(r.value[i])))
    ensures var reply := decode(service(s.model, Captioner.RequestPrompt(CallArgs(s))));
      && (reply.Some? ==> r == Captioner.ParseDecoded(reply.value))
      && (reply.Some? && !reply.value.JArray? ==> r.Err? || r.value == [])
  {
    Captioner.GenerateCaptions(CallArgs(s), service, decode)
  }

  /** After normalisation, the prompt's character-limit, platform and keyword
      bullets are bare exactly when the raw widget value is 0 or empty, and
      otherwise the clause with the raw value occurs in the prompt. */
  lemma ClausesFollowRawValues(s: Settings)
    ensures var a := CallArgs(s);
            var c := Prompts.PromptClauses(a.n, Captioner.EffectiveStyles(a.styles), a.platform,
                                           a.includeHashtags, a.maxChars, a.extraKeywords);
            var lines := Prompts.TemplateLines(c);
      && (lines[Prompts.LimitLine] == "- " <==> s.maxChars == 0)
      && (lines[Prompts.PlatformLine] == "- " <==> s.platform == "")
      && (lines[Prompts.KeywordLine] == "- " <==> s.extraKeywords == "")
    ensures var prompt := Captioner.RequestPrompt(CallArgs(s));
      && (s.maxChars != 0 ==>
            IsSubstring(Prompts.LimitLead + IntToString(s.maxChars) + " characters.", prompt))
      && (s.platform != "" ==> IsSubstring(Prompts.PlatformLead + s.platform + ".", prompt))
      && (s.extraKeywords != "" ==> IsSubstring(Prompts.KeywordLead + s.extraKeywords + ".", prompt))
  {
    var a := CallArgs(s);
    var styles := Captioner.EffectiveStyles(a.styles);
    var c := Prompts.PromptClauses(a.n, styles, a.platform, a.includeHashtags, a.maxChars, a.extraKeywords);
    Prompts.PromptLines(a.n, styles, a.platform, a.includeHashtags, a.maxChars, a.extraKeywords);
    Prompts.ClausesStated(a.n, styles, a.platform, a.includeHashtags, a.maxChars, a.extraKeywords);
  }

  /** Within the widget bounds the call asks for 3 to 10 options, and the
      character limit, when present, is one of the positive choices. */
  lemma WidgetBoundsInCall(s: Settings)
    requires WithinWidgetBounds(s)
    ensures MinCount <= CallArgs(s).n <= MaxCount
    ensures var m := CallArgs(s).maxChars;
      m.None? || m.value in {80, 120, 150, 220}
  {
  }

  // ---------------------------------------------------------------------
  // Hashtag display.

  /** `tag.lstrip('#')`: the tag without its leading run of '#'. */
  function StripLeadingHashes(tag: string): (r: string)
    ensures |r| <= |tag| && r == tag[|tag| - |r|..]
    ensures forall i :: 0 <= i < |tag| - |r| ==> tag[i] == '#'
    ensures |r| == 0 || r[0] != '#'
    decreases |tag|
  {
    if |tag| > 0 && tag[0] == '#' then StripLeadingHashes(tag[1..]) else tag
  }

  /** One displayed token: `f"#{tag.lstrip('#')}"`. */
  function FormatHashtag(tag: string): (token: string)
    ensures |token| >= 1 && token[0] == '#'
    ensures |token| == 1 || token[1] != '#'
    ensures |token| <= |tag| + 1
  {
    "#" + StripLeadingHashes(tag)
  }

  /** The token is '#' followed by what remains of the tag after its leading
      run of '#': any `k` that ends that run gives the same token. */
  lemma {:induction false} FormatHashtagCharacterised(tag: string, k: nat)
    requires k <= |tag|
    requires forall i :: 0 <= i < k ==> tag[i] == '#'
    requires k == |tag| || tag[k] != '#'
    ensures FormatHashtag(tag) == "#" + tag[k..]
    decreases k
  {
    if k > 0 {
      FormatHashtagCharacterised(tag[1..], k - 1);
      assert tag[1..][k - 1..] == tag[k..];
    }
  }

  /** Formatting a token again changes nothing, and extra leading '#' in the
      tag make no difference. */
  lemma FormatHashtagIdempotent(tag: string)
    ensures FormatHashtag(FormatHashtag(tag)) == FormatHashtag(tag)
    ensures FormatHashtag("#" + tag) == FormatHashtag(tag)
  {
    FormatHashtagCharacterised(FormatHashtag(tag), 1);
    assert ("#" + tag)[1..] == tag;
  }

  /** "a", "#a" and "##a" are all displayed as "#a". */
  lemma SameTokenForLeadingHashes()
    ensures FormatHashtag("a") == "#a"
    ensures FormatHashtag("#a") == "#a"
    ensures FormatHashtag("##a") == "#a"
  {
    FormatHashtagCharacterised("a", 0);
    FormatHashtagCharacterised("#a", 1);
    FormatHashtagCharacterised("##a", 2);
  }

  /** The tokens of the tags, one per tag, in order. */
  function FormatAll(tags: seq<string>): (tokens: seq<string>)
    ensures |tokens| == |tags|
    ensures forall i :: 0 <= i < |tags| ==> tokens[i] == FormatHashtag(tags[i])
  {
    seq(|tags|, i requires 0 <= i < |tags| => FormatHashtag(tags[i]))
  }

  /** `" ".join(f"#{h.lstrip('#')}" for h in hashtags)`. */
  function HashtagDisplay(tags: seq<string>): string
  {
    Join(" ", FormatAll(tags))
  }

  /** Splitting the displayed line at spaces gives back one token per tag, in
      tag order, whenever the tags themselves contain no space. */
  lemma HashtagDisplayTokens(tags: seq<string>)
    requires |tags| > 0
    requires NoneContain(tags, ' ')
    ensures Split(HashtagDisplay(tags), ' ') == FormatAll(tags)
  {
    var tokens := FormatAll(tags);
    forall i | 0 <= i < |tokens|
      ensures ' ' !in tokens[i]
    {
      var rest := StripLeadingHashes(tags[i]);
      assert ' ' !in tags[i];
      assert tokens[i] == "#" + rest;
    }
    SplitJoin(tokens, ' ');
  }

  // ---------------------------------------------------------------------
  // Per-result lines.

  /** The conditional lines shown for one result: the hashtag line and the
      self-score line. */
  datatype ResultLines = ResultLines(hashtags: Option<string>, score: Option<real>)

  function ResultLinesOf(opt: Captioner.CaptionOption): (view: ResultLines)
    ensures view.hashtags.Some? <==> |opt.hashtags| > 0
    ensures view.score.Some? <==> opt.score.Some?
    ensures view.score == opt.score
    ensures view.hashtags.Some? ==> view.hashtags.value == HashtagDisplay(opt.hashtags)
  {
    ResultLines(if |opt.hashtags| > 0 then Some(HashtagDisplay(opt.hashtags)) else None, opt.score)
  }

  /** The hashtag line shown for a result splits back into one token per
      hashtag of the record, in order, when no hashtag contains a space. */
  lemma ResultHashtagTokens(opt: Captioner.CaptionOption)
    requires NoneContain(opt.hashtags, ' ')
    ensures ResultLinesOf(opt).hashtags.Some? ==>
              Split(ResultLinesOf(opt).hashtags.value, ' ') == FormatAll(opt.hashtags)
  {
    if |opt.hashtags| > 0 {
      HashtagDisplayTokens(opt.hashtags);
    }
  }
}
