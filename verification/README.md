# Image caption recommender — a Dafny model

The image caption recommender lets a user upload an image and get caption
suggestions from a remote multimodal model. Each suggestion has a style label,
alt text, optional hashtags and an optional self-score. This project models
the logic around that remote call:

- **Prompt builder** (`prompts.dfy`, module `Prompts`) — `build_caption_prompt`. A fixed
  17-line template with the count and five clauses filled in. The template
  is kept as a list of lines (`TemplateLines`), and the prompt is those lines
  joined by line breaks. Python truthiness of the optional arguments is
  explicit (`IntTruthy`, `TextTruthy`). The builder is a Dafny function, so it
  is deterministic by construction: equal arguments give equal prompts.
- **Caption requester/parser** (`captioner.dfy`, module `Captioner`) — `generate_captions`.
  This covers the `CaptionOption` record and the field rules its construction
  applies to a decoded JSON object. It also covers the declared response
  schema, the default style list, and the all-or-nothing, order-preserving
  conversion of the decoded response into records. The remote call is a
  function parameter `service(model, prompt)`, with the image held fixed.
  JSON decoding is a parameter `decode` returning `None` for text that is not
  valid JSON.
- **Front end** (`streamlit_app.dfy`, module `StreamlitApp`). This covers the widget
  values and their bounds, and the normalisation `_cached_captions` applies
  (`0`/`""` become `None`). It also covers the hashtag display line and when
  the hashtag and score lines are shown.
- `text.dfy` (module `Text`) gives Python's `str.join`, `str.split` for one
  character, substring search and `str(int)` rendering. `results.dfy`
  (module `Results`) gives `Option` and `Result`.

## Model

| member | source | states |
|---|---|---|
| Prompts.PromptLines | core/prompts.py:9-35 | The prompt is its template lines joined by line breaks. The count line demands `n` options. The style bullet lists the styles joined by ", ", or "diverse" for an empty list. The limit, platform and keyword bullets are a bare "- " exactly when `max_chars` is None or 0, or the text is None or empty; otherwise each carries the argument verbatim in its fixed wording. The hashtag bullet is the "Include 3–8 …" rule iff `include_hashtags`, and the "Return an empty 'hashtags' array." rule iff not. |
| Prompts.TemplateFrame | core/prompts.py:19-35 | Every input gives the same number of lines (17), and the fixed template lines are the same for every input. A clause's line changes only when that clause does, so a missing clause leaves a bare "- " bullet in place. |
| Prompts.CountAlwaysStated | core/prompts.py:22 | For every input the prompt contains "Return EXACTLY {n} caption options". |
| Prompts.ClausesStated | core/prompts.py:9-32 | The prompt text contains the style list (or "diverse"), every clause whose argument is truthy, and the hashtag clause the flag selects. |
| Prompts.ExampleWittyMinimal120 | core/prompts.py:9-10 | With styles ["Witty","Minimal"] and a limit of 120, the prompt contains "Witty, Minimal" and "Limit each caption to <= 120 characters.". |
| Text.IntToString | core/prompts.py:22 | Renders an int in decimal as an f-string does. There is a minus sign iff the number is negative, the digits after it have no leading zero, and reading them back gives the magnitude. |
| Text.NatToString | core/prompts.py:10 | The decimal digits of a natural number, with no leading zero (only 0 is written "0"), that read back as the number. |
| Text.CanonicalDecimal | core/prompts.py:10 | Any digit string without a leading zero is exactly the rendering of the number it denotes, so the rendering is Python's `str(n)` and no other spelling. |
| Captioner.ToCaptionOption | core/captioner.py:10-16 | A non-object item is rejected. For an accepted object, `caption`, `style` and `alt_text` come from the object's strings. An absent `length`/`score` becomes None and an absent `hashtags` becomes []. A present `length`, `hashtags` or `score` equals the record's value for it as dumped back, so it is kept, and a `null` optional becomes None. A rejection names only record fields. |
| Captioner.PresentFieldsAsDumped | core/captioner.py:10-16 | Every declared field an accepted object carries equals that field of the record's dump; undeclared members play no part. |
| Captioner.RecordValidity | core/captioner.py:10-16 | An object becomes a record iff `caption`, `style` and `alt_text` are strings and each optional field is absent or has its declared kind. A field is named in the error exactly when it is missing where required, or present with the wrong kind. Empty caption or alt text and any score value are accepted: only presence and kind are checked. |
| Captioner.DumpRoundTrip | app/streamlit_app.py:89 | Dumping a record to JSON as `opt.model_dump()` does (every field, absent optionals as null) and building it again gives the same record. |
| Captioner.ParseItems | core/captioner.py:79 | Success iff every element becomes a record. The result then has the same length, and result i is built from element i. Otherwise the error names the first failing element, and no partial list is returned. |
| Captioner.ParseDecoded | core/captioner.py:79 | A decoded list is parsed element by element. Otherwise `{}` and `""` succeed with the empty list, and nothing else succeeds. A non-empty object or string fails at item 0, because its first key or character is not a mapping. null, booleans and numbers cannot be iterated. |
| Captioner.ParseResponse | core/captioner.py:77-79 | Text that does not decode fails with InvalidJson, and nothing else does. Decoded text is parsed as a whole. |
| Captioner.ParseDumpedList | core/captioner.py:79 | Parsing a list of dumped records returns exactly those records, in order. |
| Captioner.SchemaConformingItemAccepted | core/captioner.py:21-37 | Every element that follows the declared response schema becomes a record. |
| Captioner.RecordLooserThanSchema | core/captioner.py:35 | An element without `hashtags` breaks the schema, which requires it. The record still accepts it, with no hashtags and no length or score. |
| Captioner.EffectiveStyles | core/captioner.py:54 | A None or empty style list becomes ["Neutral","Witty","Storylike","Minimal"]. A non-empty list is kept unchanged. |
| Captioner.RequestPromptStyles | core/captioner.py:54-62 | The style bullet of the prompt that is sent is the caller's non-empty list, or otherwise the default list, joined by ", ", so the "diverse" fallback is never used. That style clause appears in the prompt. |
| Captioner.DefaultRequest | core/captioner.py:41-47 | With every optional argument at its default, the call uses the default model and its prompt asks for 5 options in the four default styles, includes the hashtag rule, and leaves the platform, limit and keyword bullets bare. |
| Captioner.BareOptionalRequest | core/captioner.py:54-62 | Any request with hashtags wanted and no platform, limit or keywords states its count, its effective styles and the hashtag rule, and leaves the three optional bullets bare. |
| Captioner.GenerateCaptions | core/captioner.py:39-80 | The call fails with InvalidJson iff the reply to the built prompt does not decode. Any decoded reply is iterated as a whole, exactly as `ParseDecoded` does. For a decoded array, the call succeeds iff every element becomes a record, and then returns one record per element, in order. A decoded non-array, such as a single object, never yields a record: it fails, or gives [] for `{}` or `""`. |
| StreamlitApp.NormalizeMaxChars | app/streamlit_app.py:44 | `max_chars` 0 becomes None. Any other value is passed on unchanged. |
| StreamlitApp.NormalizeText | app/streamlit_app.py:49-52 | An empty platform or keyword string becomes None. A non-empty one is passed on unchanged. |
| StreamlitApp.ClausesFollowRawValues | app/streamlit_app.py:44-52 | After normalisation, the prompt's limit, platform and keyword bullets are bare iff the raw widget value is 0 or empty. Otherwise the prompt contains the clause with the raw value. |
| StreamlitApp.WidgetBoundsInCall | app/streamlit_app.py:22-30 | Within the widget bounds, the count passed to the call is between 3 and 10, and any character limit passed is 80, 120, 150 or 220. |
| StreamlitApp.CallArgs | app/streamlit_app.py:44-53 | The call receives the widget count, styles, flag and model unchanged. The limit is None iff the widget value is 0, and platform and keywords are None iff empty; otherwise each is the raw value. |
| StreamlitApp.CachedCaptions | app/streamlit_app.py:41-54 | For the request built from the normalised settings, the result is InvalidJson iff the reply does not decode, and any decoded reply is iterated whole, as in `ParseDecoded`. A decoded array gives one record per element, in order, iff every element converts, and a decoded non-array never yields a record. |
| StreamlitApp.StripLeadingHashes | app/streamlit_app.py:83 | `lstrip('#')` returns a suffix of the tag. Everything removed is '#', and the result does not start with '#'. |
| StreamlitApp.FormatHashtag | app/streamlit_app.py:83 | A token is one '#' that is not followed by another '#'. |
| StreamlitApp.FormatHashtagCharacterised | app/streamlit_app.py:83 | The token is '#' followed by the tag with its whole leading run of '#' removed. |
| StreamlitApp.FormatHashtagIdempotent | app/streamlit_app.py:83 | Formatting a token again changes nothing, and a leading '#' on the tag makes no difference. |
| StreamlitApp.SameTokenForLeadingHashes | app/streamlit_app.py:83 | "a", "#a" and "##a" all display as "#a". |
| StreamlitApp.FormatAll | app/streamlit_app.py:83 | One token per tag, in tag order. |
| StreamlitApp.HashtagDisplayTokens | app/streamlit_app.py:83 | When no tag contains a space, splitting the displayed line at single spaces gives back exactly one token per tag, in order. |
| StreamlitApp.ResultLinesOf | app/streamlit_app.py:81-85 | The hashtag line is shown iff the list is non-empty, and it is then the record's own hashtags formatted and joined by spaces. The score line is shown iff the score is not None, and it shows the record's own score. |
| StreamlitApp.ResultHashtagTokens | app/streamlit_app.py:81-83 | When no hashtag of a result contains a space, the hashtag line shown for it splits at spaces into one formatted token per hashtag, in order. |
| Text.SplitJoin | app/streamlit_app.py:83 | Joining on a one-character separator and splitting on it again gives back the parts, provided no part contains the separator. |

## Left out

- The remote generation call (model SDK, temperature, token limit, safety settings) is left out. It is the parameter `service`; the image is not modelled.
- JSON text decoding is left out. It is the parameter `decode`.
- Captioner.GenerateCaptions: `service` is a total function that always returns text, so the SDK call's raised errors cannot occur in the model. Neither can a `None` `response.text`, for which `json.loads` raises TypeError (core/captioner.py:77-78), not a decode error. `CaptionError` has no case for a failed remote call.
- Captioner.DefaultArgs: the value of `DEFAULT_MODEL` comes from configuration, which is not part of this model, so it is a parameter. `CaptionArgs` itself carries no defaults; `DefaultArgs` applies `n=5`, `include_hashtags=True` and no styles, platform, limit or keywords (core/captioner.py:41-47).
- Captioner.ToCaptionOption: `score: float` is modelled as a `real`. The NaN and Infinity values that `json.loads` accepts cannot be represented, and float rounding is not modelled.
- pydantic's lax coercions are left out, for example a numeric string accepted for `score`. Only values of the declared JSON kind are accepted.
- API-key lookup, client construction and environment loading are I/O done at import time, and are left out.
- Widget rendering, `st.cache_data` memoisation, image decoding and the unused image hash are left out. `CachedCaptions` is the uncached call.
- The JSON download's `json.dumps` text and button are left out. The per-record `opt.model_dump()` it serialises (app/streamlit_app.py:89) is modelled as `DumpCaptionOption`.
- The unused `CaptionList` root model is not modelled. It declares a `__root__` field (core/captioner.py:18-19). Under pydantic v2, which `model_dump` at app/streamlit_app.py:89 implies, such a field is, as we read pydantic's rules, rejected when the class is defined. If so, importing core/captioner.py fails before any call. The model assumes the module loads.
- The caption and alt-text `.strip()` and the score's `:.1f` formatting are display only, and are left out.
- Prompts.ClausesStated: absence is not stated at the string level. A caller's keyword or platform text may itself contain any clause wording, so absence is stated per template line instead (`PromptLines`, `TemplateFrame`).
- The default model "gemini-1.5-flash" is not among the three selectable models, so the selectbox's `.index(...)` would fail when the page starts. The model takes the model name as given and does not reproduce this.
