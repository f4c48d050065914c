/** The caption prompt builder (`build_caption_prompt`): a deterministic
    template that turns the generation options into one instruction string.
    Being a Dafny function, the builder is deterministic by construction:
    equal arguments give equal prompts. */
module Prompts {
  import opened Results
  import opened Text

  /** Python truthiness of an `int | None` argument: `None` and `0` are false. */
  predicate IntTruthy(x: Option<int>)
  {
    x.Some? && x.value != 0
  }

  /** Python truthiness of a `str | None` argument: `None` and `""` are false. */
  predicate TextTruthy(x: Option<string>)
  {
    x.Some? && x.value != ""
  }

  const CountLead := "Return EXACTLY "
  const CountPhrase := " caption options"
  const CountTail := " as JSON per the schema (no extra text)."
  const StylesLead := "Styles to vary across options: "
  const LimitLead := "Limit each caption to <= "
  const PlatformLead := "Optimize tone for "
  const KeywordLead := "Try to incorporate these keywords when relevant: "
  const HashtagsOn := "Include 3–8 relevant, non-spammy hashtags per caption in a 'hashtags' array."
  const HashtagsOff := "Return an empty 'hashtags' array."

  /** The styles joined with ", ", or "diverse" for an empty list. */
  function StylesSegment(styles: seq<string>): string
  {
    if |styles| > 0 then Join(", ", styles) else "diverse"
  }

  function MaxCharRule(maxChars: Option<int>): string
  {
    if IntTruthy(maxChars) then LimitLead + IntToString(maxChars.value) + " characters." else ""
  }

  function PlatformHint(platform: Option<string>): string
  {
    if TextTruthy(platform) then PlatformLead + platform.value + "." else ""
  }

  function HashtagRule(includeHashtags: bool): string
  {
    if includeHashtags then HashtagsOn else HashtagsOff
  }

  function KeywordHint(extraKeywords: Option<string>): string
  {
    if TextTruthy(extraKeywords) then KeywordLead + extraKeywords.value + "." else ""
  }

  /** A "- " bullet of the goals list. */
  function Bullet(text: string): string
  {
    "- " + text
  }

  /** The six varying texts of the template: the rendered count and the five
      clauses, each as `build_caption_prompt` computes it before
      interpolation. */
  datatype Clauses = Clauses(count: string, styles: string, platform: string,
                             maxChars: string, keywords: string, hashtags: string)

  function PromptClauses(n: int, styles: seq<string>, platform: Option<string>,
                         includeHashtags: bool, maxChars: Option<int>,
                         extraKeywords: Option<string>): Clauses
  {
    Clauses(IntToString(n), StylesSegment(styles), PlatformHint(platform),
            MaxCharRule(maxChars), KeywordHint(extraKeywords), HashtagRule(includeHashtags))
  }

  // Positions of the lines of the template (line 0 is the empty line the
  // template opens with).
  const CountLine := 3
  const StylesLine := 9
  const PlatformLine := 10
  const LimitLine := 11
  const KeywordLine := 12
  const HashtagLine := 13
  const LineCount := 17

  /** The template, line by line, with the clauses filled in. The template
      text opens and closes with a line break, so its first and last lines
      are empty. */
  function TemplateLines(c: Clauses): (lines: seq<string>)
    ensures |lines| == LineCount
  {
    [ "",
      "You write concise, human-quality captions from an image.",
      "",
      CountLead + c.count + CountPhrase + CountTail,
      "Goals:",
      Bullet("Make captions natural, specific to the image, and not generic."),
      Bullet("Avoid hallucinating details that aren't visible."),
      Bullet("Add a tiny dose of personality; no cringe."),
      Bullet("Provide 'alt_text' variant suitable for accessibility (describe what's actually visible)."),
      Bullet(StylesLead + c.styles + "."),
      Bullet(c.platform),
      Bullet(c.maxChars),
      Bullet(c.keywords),
      Bullet(c.hashtags),
      "",
      "Follow the schema strictly.",
      "" ]
  }

  /** `build_caption_prompt(n, styles, platform, include_hashtags, max_chars, extra_keywords)`:
      the template lines joined by line breaks. */
  function BuildCaptionPrompt(n: int, styles: seq<string>, platform: Option<string>,
                              includeHashtags: bool, maxChars: Option<int>,
                              extraKeywords: Option<string>): string
  {
    Join("\n", TemplateLines(PromptClauses(n, styles, platform, includeHashtags, maxChars, extraKeywords)))
  }

  // ---------------------------------------------------------------------
  // The lines of the prompt.

  /** The prompt is its template lines joined by line breaks. The count line
      demands `n` options; the style bullet lists the styles, or "diverse";
      the limit, platform and keyword bullets are bare "- " exactly when their
      argument is falsy and otherwise carry it verbatim in their fixed
      wording; the hashtag bullet is the "Include 3–8 ..." rule exactly when
      hashtags are wanted and the "empty array" rule exactly when not. */
  lemma PromptLines(n: int, styles: seq<string>, platform: Option<string>,
                    includeHashtags: bool, maxChars: Option<int>,
                    extraKeywords: Option<string>)
    ensures var lines := TemplateLines(PromptClauses(n, styles, platform, includeHashtags, maxChars, extraKeywords));
      && BuildCaptionPrompt(n, styles, platform, includeHashtags, maxChars, extraKeywords) == Join("\n", lines)
      && lines[CountLine] == CountLead + IntToString(n) + CountPhrase + CountTail
      && (|styles| > 0 ==> lines[StylesLine] == Bullet(StylesLead + Join(", ", styles) + "."))
      && (|styles| == 0 ==> lines[StylesLine] == Bullet(StylesLead + "diverse" + "."))
      && (lines[LimitLine] == "- " <==> !IntTruthy(maxChars))
      && (IntTruthy(maxChars) ==>
            lines[LimitLine] == Bullet(LimitLead + IntToString(maxChars.value) + " characters."))
      && (lines[PlatformLine] == "- " <==> !TextTruthy(platform))
      && (TextTruthy(platform) ==> lines[PlatformLine] == Bullet(PlatformLead + platform.value + "."))
      && (lines[KeywordLine] == "- " <==> !TextTruthy(extraKeywords))
      && (TextTruthy(extraKeywords) ==> lines[KeywordLine] == Bullet(KeywordLead + extraKeywords.value + "."))
      && (lines[HashtagLine] == Bullet(HashtagsOn) <==> includeHashtags)
      && (lines[HashtagLine] == Bullet(HashtagsOff) <==> !includeHashtags)
  {
    var c := PromptClauses(n, styles, platform, includeHashtags, maxChars, extraKeywords);
    ClauseLines(c);
    ClauseValues(n, styles, platform, includeHashtags, maxChars, extraKeywords);
  }

  /** What each clause of the intermediate record holds. */
  lemma ClauseValues(n: int, styles: seq<string>, platform: Option<string>,
                     includeHashtags: bool, maxChars: Option<int>,
                     extraKeywords: Option<string>)
    ensures var c := PromptClauses(n, styles, platform, includeHashtags, maxChars, extraKeywords);
      && c.count == IntToString(n)
      && (|styles| > 0 ==> c.styles == Join(", ", styles))
      && (|styles| == 0 ==> c.styles == "diverse")
      && (c.maxChars == "" <==> !IntTruthy(maxChars))
      && (IntTruthy(maxChars) ==> c.maxChars == LimitLead + IntToString(maxChars.value) + " characters.")
      && (c.platform == "" <==> !TextTruthy(platform))
      && (TextTruthy(platform) ==> c.platform == PlatformLead + platform.value + ".")
      && (c.keywords == "" <==> !TextTruthy(extraKeywords))
      && (TextTruthy(extraKeywords) ==> c.keywords == KeywordLead + extraKeywords.value + ".")
      && (c.hashtags == HashtagsOn <==> includeHashtags)
      && (c.hashtags == HashtagsOff <==> !includeHashtags)
  {
  }

  /** Where the count and each clause sit in the template. */
  lemma ClauseLines(c: Clauses)
    ensures var lines := TemplateLines(c);
      && lines[CountLine] == CountLead + c.count + CountPhrase + CountTail
      && lines[StylesLine] == Bullet(StylesLead + c.styles + ".")
      && lines[PlatformLine] == Bullet(c.platform)
      && lines[LimitLine] == Bullet(c.maxChars)
      && lines[KeywordLine] == Bullet(c.keywords)
      && lines[HashtagLine] == Bullet(c.hashtags)
  {
  }

  // ---------------------------------------------------------------------
  // The template.

  /** The template's fixed lines never change, no line is added or removed,
      and a line with a clause changes only when that clause does: a missing
      clause leaves a bare "- " bullet in place. */
  lemma TemplateFrame(c1: Clauses, c2: Clauses, i: nat)
    requires i < LineCount
    ensures |TemplateLines(c1)| == |TemplateLines(c2)| == LineCount
    ensures TemplateLines(c1)[i] != TemplateLines(c2)[i] ==>
        || (i == CountLine && c1.count != c2.count)
        || (i == StylesLine && c1.styles != c2.styles)
        || (i == PlatformLine && c1.platform != c2.platform)
        || (i == LimitLine && c1.maxChars != c2.maxChars)
        || (i == KeywordLine && c1.keywords != c2.keywords)
        || (i == HashtagLine && c1.hashtags != c2.hashtags)
  {
  }

  // ---------------------------------------------------------------------
  // The prompt text states every clause that applies.

  /** Each template line occurs in the prompt. */
  lemma LineInPrompt(c: Clauses, i: nat)
    requires i < LineCount
    ensures IsSubstring(TemplateLines(c)[i], Join("\n", TemplateLines(c)))
  {
    PartOfJoin("\n", TemplateLines(c), i);
  }

  /** The text of a bullet occurs in the prompt. */
  lemma BulletTextInPrompt(c: Clauses, i: nat, text: string)
    requires i < LineCount
    requires TemplateLines(c)[i] == Bullet(text)
    ensures IsSubstring(text, Join("\n", TemplateLines(c)))
  {
    LineInPrompt(c, i);
    InfixIsSubstring("- ", text, "");
    assert "- " + text + "" == Bullet(text);
    SubstringTransitive(text, Bullet(text), Join("\n", TemplateLines(c)));
  }

  /** The prompt always demands exactly `n` options. */
  lemma CountAlwaysStated(n: int, styles: seq<string>, platform: Option<string>,
                          includeHashtags: bool, maxChars: Option<int>,
                          extraKeywords: Option<string>)
    ensures IsSubstring(CountLead + IntToString(n) + CountPhrase,
                        BuildCaptionPrompt(n, styles, platform, includeHashtags, maxChars, extraKeywords))
  {
    var c := PromptClauses(n, styles, platform, includeHashtags, maxChars, extraKeywords);
    assert c.count == IntToString(n);
    CountInTemplate(c);
  }

  /** The demand built from the count clause occurs in the joined template. */
  lemma CountInTemplate(c: Clauses)
    ensures IsSubstring(CountLead + c.count + CountPhrase, Join("\n", TemplateLines(c)))
  {
    var demand := CountLead + c.count + CountPhrase;
    ClauseLines(c);
    LineInPrompt(c, CountLine);
    InfixIsSubstring("", demand, CountTail);
    assert "" + demand + CountTail == TemplateLines(c)[CountLine];
    SubstringTransitive(demand, TemplateLines(c)[CountLine], Join("\n", TemplateLines(c)));
  }

  /** The style list (or "diverse"), every clause whose argument is truthy,
      and the hashtag clause chosen by the flag occur in the prompt text. */
  lemma ClausesStated(n: int, styles: seq<string>, platform: Option<string>,
                      includeHashtags: bool, maxChars: Option<int>,
                      extraKeywords: Option<string>)
    ensures var prompt := BuildCaptionPrompt(n, styles, platform, includeHashtags, maxChars, extraKeywords);
      && (|styles| > 0 ==> IsSubstring(StylesLead + Join(", ", styles) + ".", prompt))
      && (|styles| == 0 ==> IsSubstring(StylesLead + "diverse" + ".", prompt))
      && (IntTruthy(maxChars) ==>
            IsSubstring(LimitLead + IntToString(maxChars.value) + " characters.", prompt))
      && (TextTruthy(platform) ==> IsSubstring(PlatformLead + platform.value + ".", prompt))
      && (TextTruthy(extraKeywords) ==> IsSubstring(KeywordLead + extraKeywords.value + ".", prompt))
      && (includeHashtags ==> IsSubstring(HashtagsOn, prompt))
      && (!includeHashtags ==> IsSubstring(HashtagsOff, prompt))
  {
    var c := PromptClauses(n, styles, platform, includeHashtags, maxChars, extraKeywords);
    ClauseLines(c);
    ClauseValues(n, styles, platform, includeHashtags, maxChars, extraKeywords);
    BulletTextInPrompt(c, StylesLine, StylesLead + c.styles + ".");
    BulletTextInPrompt(c, PlatformLine, c.platform);
    BulletTextInPrompt(c, LimitLine, c.maxChars);
    BulletTextInPrompt(c, KeywordLine, c.keywords);
    BulletTextInPrompt(c, HashtagLine, c.hashtags);
  }

  /** A worked example: with the styles "Witty" and "Minimal" and a limit of
      120 characters, the prompt lists "Witty, Minimal" and states the limit
      120. */
  lemma ExampleWittyMinimal120(n: int, platform: Option<string>, includeHashtags: bool,
                               extraKeywords: Option<string>)
    ensures var prompt := BuildCaptionPrompt(n, ["Witty", "Minimal"], platform, includeHashtags,
                                             Some(120), extraKeywords);
      && IsSubstring("Witty, Minimal", prompt)
      && IsSubstring(LimitLead + "120" + " characters.", prompt)
  {
    var c := PromptClauses(n, ["Witty", "Minimal"], platform, includeHashtags, Some(120), extraKeywords);
    var prompt := Join("\n", TemplateLines(c));
    WittyMinimalJoined();
    RenderedLimit120();
    ClauseLines(c);
    BulletTextInPrompt(c, LimitLine, c.maxChars);
    BulletTextInPrompt(c, StylesLine, StylesLead + "Witty, Minimal" + ".");
    InfixIsSubstring(StylesLead, "Witty, Minimal", ".");
    SubstringTransitive("Witty, Minimal", StylesLead + "Witty, Minimal" + ".", prompt);
  }

  lemma WittyMinimalJoined()
    ensures Join(", ", ["Witty", "Minimal"]) == "Witty, Minimal"
  {
  }

  lemma RenderedLimit120()
    ensures IntToString(120) == "120"
  {
  }
}
