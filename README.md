# AdSett campaign core, modelled in Dafny

This project models the core of the AdSett advertising-critique app (hackuta2025) and proves
properties of it. The core has five parts:

- **The campaign store** (`CampaignContext.tsx`). This is the in-memory list of campaigns and
  their ad creatives. It covers:
  - the de-duplication of campaigns and ads by id, keeping the first of each;
  - the per-campaign insights, which are the rounded means of the ads' quality, hostility,
    engagement and resonance;
  - the store callbacks `addCampaign`, `addAd`, `deleteAd`, `updateAdMetrics`, `renameAd`,
    `deleteCampaign`, `clearCampaigns`, `setCampaignList`, `getCampaignAds` and
    `getCampaignById`.
- **The ad uploader** (`AdUploader.tsx`). Uploaded files are filtered by MIME type and size,
  and the error of the last rejected file is shown. Each accepted file becomes an ad, whose
  demo metrics come from a 32-bit string hash of `name-size-createdAt`.
- **The Gemini wrapper's text handling** (`gemini_wrapper.py`). This covers:
  - the parser of the tagged `CRITICISM:` / `STRENGTHS:` / `WEAKNESSES:` / `SUGGESTIONS:`
    response;
  - `_parse_to_list`, which turns bullet text into items;
  - the plain-text "Initial Insight" and "Follow-up Insight" fallbacks, and the choice between
    a fallback and the model's reply.
- **The new-campaign form** (`new-campaign/page.tsx`). This covers:
  - the length checks on the trimmed name and description, which count UTF-16 code units;
  - the character counter, the inline error conditions and the submit gate;
  - the request payload, and what a submission does to the form and to the store.
- **The account menu's initials** (`LoginMenu.tsx`).

The files are:

- `wrappers.dfy`: `Option`.
- `text.dfy`: the Python and JavaScript string primitives the core relies on:
  - `str.strip`, `String.prototype.trim` and `lstrip(chars)`, each with its own whitespace set;
  - `startswith`, `split`, `join`, `replace`;
  - decimal formatting;
  - UTF-16 code units.
- `js_numbers.dfy`: `Math.round`, the JavaScript `%`, and `ToInt32` (the `|0` coercion).
- `campaign_context.dfy`, `ad_uploader.dfy`, `gemini_wrapper.dfy`, `new_campaign_page.dfy` and
  `login_menu.dfy`: one module per core file.

How each core file is modelled:

- **Store callbacks.** Each callback is a pure function from the previous list to the next,
  because the source's `setCampaigns(prev => …)` callbacks are pure. The `useState` cell is the
  class `CampaignStore`, whose methods assign the new list. A store invariant is proved
  preserved: campaign ids are distinct, ad ids are distinct within a campaign, and insights
  equal the averages of the ads.
- **Loops.** The source's loops are methods, each proved equal to a specification function.
  They are the de-duplication loops, the averaging `forEach`, the hash loop, the section loop,
  the `_parse_to_list` loop and the fallback's `result +=` loops.
- **Components.** The uploader and the form are classes over their React state.

The store invariant has one gap. `addCampaign` and `setCampaignList` compute the averages
before `dedupeCampaigns` removes repeated ad ids. A campaign that arrives with two ads sharing
an id therefore keeps the first ad but the mean of both. The invariant is proved under the
precondition that the incoming ads have distinct ids. `AddCampaignDuplicateAds` and
`SetCampaignListDuplicateAds` exhibit the campaign that breaks it.

## Model

| member | source | states |
|---|---|---|
| CampaignContext.KeepFirst | hackuta-frontend/src/context/CampaignContext.tsx:89-99 | the de-duplicated list is no longer than the input, has exactly the input's set of ids, and no id twice |
| CampaignContext.KeepFirstIsFirstOfEachKey | hackuta-frontend/src/context/CampaignContext.tsx:89-99 | de-duplication equals the reference definition: the elements that are the first with their id, in input order |
| CampaignContext.KeepFirstOfDistinct | hackuta-frontend/src/context/CampaignContext.tsx:75-99 | a list without repeated ids is left unchanged, so de-duplication is idempotent |
| CampaignContext.KeepFirstCons | hackuta-frontend/src/context/CampaignContext.tsx:165 | putting an element in front and de-duplicating keeps it first and drops every later element with its id |
| CampaignContext.DedupeAds | hackuta-frontend/src/context/CampaignContext.tsx:89-99 | the loop with the `seen` set returns the first ad of each id, in order |
| CampaignContext.DedupeCampaigns | hackuta-frontend/src/context/CampaignContext.tsx:75-87 | the loop returns the first campaign of each id, in order, each with its ads de-duplicated |
| CampaignContext.DedupeCampaignListDistinct | hackuta-frontend/src/context/CampaignContext.tsx:75-87 | no two campaigns of the result share an id |
| CampaignContext.Without | hackuta-frontend/src/context/CampaignContext.tsx:185 | filtering out an id removes exactly that id from the set of ids and no other |
| CampaignContext.WithoutOne | hackuta-frontend/src/context/CampaignContext.tsx:185 | with distinct ids, filtering out a present id removes exactly one element |
| CampaignContext.CountZeroIff | hackuta-frontend/src/context/CampaignContext.tsx:109-127 | a field's count is zero exactly when no ad defines that metric |
| CampaignContext.AveragesDefinedness | hackuta-frontend/src/context/CampaignContext.tsx:101-145 | insights are absent exactly when there are no ads, and a field's average is absent exactly when no ad defines it |
| CampaignContext.AveragesWithoutMetrics | hackuta-frontend/src/context/CampaignContext.tsx:103-142 | ads that all lack metrics give insights with every field absent, not absent insights |
| CampaignContext.FieldAverageWithin | hackuta-frontend/src/context/CampaignContext.tsx:129-142 | when every defined value lies between two integers, so does the rounded average |
| CampaignContext.AveragesReadOnlyMetrics | hackuta-frontend/src/context/CampaignContext.tsx:101-145 | insights depend only on the ads' metrics: ads with the same metrics give the same insights |
| CampaignContext.ComputeCampaignAverages | hackuta-frontend/src/context/CampaignContext.tsx:101-145 | the totals-and-counts loop yields the campaign with its insights replaced by the averages of its ads |
| CampaignContext.AveragesExample | hackuta-frontend/src/context/CampaignContext.tsx:129-142 | qualities 8 and 6, hostilities 2 and 4, and engagement 50 on one ad average to 7.0, 3.0, 50 and no resonance |
| CampaignContext.Merge | hackuta-frontend/src/context/CampaignContext.tsx:202 | the metrics patch overrides the fields it sets; the others keep the ad's previous values |
| CampaignContext.CampaignById | hackuta-frontend/src/context/CampaignContext.tsx:253-257 | a campaign is found exactly when the id is in the list; it has that id and is the first with it |
| CampaignContext.CampaignAds | hackuta-frontend/src/context/CampaignContext.tsx:247-251 | a known campaign id gives the ads of the first campaign with that id; an unknown id gives no ads |
| CampaignContext.AddCampaignEffect | hackuta-frontend/src/context/CampaignContext.tsx:153-167 | a clash on id or on trimmed lower-cased name leaves the list unchanged; otherwise the campaign with its averages is prepended; the store invariant is kept |
| CampaignContext.PrependFresh | hackuta-frontend/src/context/CampaignContext.tsx:165 | a consistent campaign with a fresh id, prepended to a valid list, survives de-duplication unchanged, and the list stays valid |
| CampaignContext.AddAdEffect | hackuta-frontend/src/context/CampaignContext.tsx:169-179 | other campaigns are unchanged; the target's ads become the new ad followed by the old ads without its id, with recomputed insights; an unknown campaign changes nothing; the invariant is kept |
| CampaignContext.DeleteAdEffect | hackuta-frontend/src/context/CampaignContext.tsx:181-189 | other campaigns are unchanged; the target loses exactly the ads with that id (one, when ids are distinct) and its insights are recomputed; the invariant is kept |
| CampaignContext.UpdateAdMetricsEffect | hackuta-frontend/src/context/CampaignContext.tsx:191-210 | only the ads with that id in that campaign change, and only their metrics, merged with the patch; the insights are recomputed; the invariant is kept |
| CampaignContext.RenameAdEffect | hackuta-frontend/src/context/CampaignContext.tsx:212-225 | only the matching ads' file names change, the insights stay equal, and the invariant is kept |
| CampaignContext.DeleteCampaignEffect | hackuta-frontend/src/context/CampaignContext.tsx:227-231 | the id is gone and every other id remains; an absent id changes nothing; a present one removes exactly one campaign; the invariant is kept |
| CampaignContext.SetCampaignListEffect | hackuta-frontend/src/context/CampaignContext.tsx:240-245 | the stored list satisfies the invariant when every campaign's ads have distinct ids; a list with distinct campaign ids is kept, each with its averages |
| CampaignContext.DuplicateAdsSampleFacts | hackuta-frontend/src/context/CampaignContext.tsx:161-165 | for two ads with the same id and qualities 8 and 6, de-duplication keeps the first, whose quality 8.0 differs from the mean 7.0 |
| CampaignContext.AddCampaignDuplicateAds | hackuta-frontend/src/context/CampaignContext.tsx:161-165 | adding that campaign to an empty store breaks the invariant: the averages were taken before the ads were de-duplicated |
| CampaignContext.SetCampaignListDuplicateAds | hackuta-frontend/src/context/CampaignContext.tsx:240-245 | `setCampaignList` with that campaign breaks the invariant in the same way |
| CampaignContext.CampaignStore.constructor | hackuta-frontend/src/context/CampaignContext.tsx:148 | the store starts empty |
| CampaignContext.CampaignStore.AddCampaign | hackuta-frontend/src/context/CampaignContext.tsx:153-167 | the list becomes the `addCampaign` result; the invariant is kept when the new campaign's ads have distinct ids |
| CampaignContext.CampaignStore.AddAd | hackuta-frontend/src/context/CampaignContext.tsx:169-179 | the list becomes the `addAd` result and the invariant is kept |
| CampaignContext.CampaignStore.DeleteAd | hackuta-frontend/src/context/CampaignContext.tsx:181-189 | the list becomes the `deleteAd` result and the invariant is kept |
| CampaignContext.CampaignStore.UpdateAdMetrics | hackuta-frontend/src/context/CampaignContext.tsx:191-210 | the list becomes the `updateAdMetrics` result and the invariant is kept |
| CampaignContext.CampaignStore.RenameAd | hackuta-frontend/src/context/CampaignContext.tsx:212-225 | the list becomes the `renameAd` result and the invariant is kept |
| CampaignContext.CampaignStore.DeleteCampaign | hackuta-frontend/src/context/CampaignContext.tsx:227-231 | the list becomes the `deleteCampaign` result and the invariant is kept |
| CampaignContext.CampaignStore.ClearCampaigns | hackuta-frontend/src/context/CampaignContext.tsx:233-238 | the list becomes empty, which satisfies the invariant |
| CampaignContext.CampaignStore.SetCampaignList | hackuta-frontend/src/context/CampaignContext.tsx:240-245 | the list becomes the normalised, de-duplicated input; valid when every campaign's ads have distinct ids |
| CampaignContext.CampaignStore.GetCampaignById | hackuta-frontend/src/context/CampaignContext.tsx:253-257 | a campaign is returned exactly when one has the id; it has that id and is the first stored campaign with it |
| CampaignContext.CampaignStore.GetCampaignAds | hackuta-frontend/src/context/CampaignContext.tsx:247-251 | a known campaign id gives the ads of the first stored campaign with that id; an unknown id gives no ads |
| JsNumbers.Round | hackuta-frontend/src/context/CampaignContext.tsx:131 | `Math.round` gives the integer within one half, rounding halves up |
| JsNumbers.Rem | hackuta-frontend/src/components/AdUploader.tsx:52 | JavaScript's `%` takes the sign of the dividend |
| JsNumbers.ToInt32 | hackuta-frontend/src/components/AdUploader.tsx:48 | `x \| 0` is the signed 32-bit integer congruent to `x` modulo 2^32 |
| AdUploader.HashFold | hackuta-frontend/src/components/AdUploader.tsx:45-49 | the hash stays a signed 32-bit integer |
| AdUploader.ShiftStepIsTimes31 | hackuta-frontend/src/components/AdUploader.tsx:47-48 | one step `(hash << 5) - hash + c` followed by `\|= 0` is `31 * hash + c` wrapped to 32 bits |
| AdUploader.Normalize | hackuta-frontend/src/components/AdUploader.tsx:50-53 | the double remainder lands in `[min, max)` and is `min` plus the non-negative remainder of `value` |
| AdUploader.RoundToTenthOfInteger | hackuta-frontend/src/components/AdUploader.tsx:56-59 | rounding an integer to a tenth leaves it unchanged |
| AdUploader.DemoMetrics | hackuta-frontend/src/components/AdUploader.tsx:55-60 | quality is in [6, 9), hostility in [1, 4), engagement in [25, 65) and resonance in [2, 6), each derived from the hash shifted by 0, 3, 6 and 2 |
| AdUploader.GenerateDemoMetrics | hackuta-frontend/src/components/AdUploader.tsx:44-61 | the loop over the seed's UTF-16 code units yields the metrics of the 32-bit hash |
| AdUploader.Rejection | hackuta-frontend/src/components/AdUploader.tsx:69-79 | a file is rejected exactly when unacceptable; the type message exactly when the type is wrong; the size message exactly when the type is right and the file exceeds 10 MiB |
| AdUploader.AcceptedMembers | hackuta-frontend/src/components/AdUploader.tsx:69-79 | a file is kept exactly when it is in the input and acceptable |
| AdUploader.LastRejectionIsLast | hackuta-frontend/src/components/AdUploader.tsx:66-79 | an error is shown exactly when some file is rejected, and it is the message of the last rejected file |
| AdUploader.NewAds | hackuta-frontend/src/components/AdUploader.tsx:81-100 | one ad per accepted file, in order, carrying the campaign id and the file's name |
| AdUploader.AddAllKeepsInvariant | hackuta-frontend/src/components/AdUploader.tsx:86-98 | adding the new ads one by one keeps the store invariant |
| AdUploader.Uploader.constructor | hackuta-frontend/src/components/AdUploader.tsx:18-20 | no error, not uploading, no drag |
| AdUploader.Uploader.HandleFiles | hackuta-frontend/src/components/AdUploader.tsx:63-109 | no files changes nothing; otherwise the accepted files' ads are added in order, the error is that of the last rejected file, the flags end false, and the invariant is kept |
| AdUploader.Uploader.FilterFiles | hackuta-frontend/src/components/AdUploader.tsx:69-79 | returns the acceptable files in order and leaves the last rejection's message as the error |
| AdUploader.Uploader.AddAccepted | hackuta-frontend/src/components/AdUploader.tsx:81-100 | adds one ad per accepted file to the campaign and keeps the invariant |
| GeminiWrapper.TagsExclusive | hackuta-backend/gemini_wrapper.py:103-110 | no section starts with two different tags |
| GeminiWrapper.TagOfTagged | hackuta-backend/gemini_wrapper.py:102-110 | a section counts as tagged `t` exactly when, once stripped, it starts with `t`'s tag, whatever the order of the tests |
| GeminiWrapper.ApplyField | hackuta-backend/gemini_wrapper.py:101-110 | one iteration sets the tagged field to the stripped text with every occurrence of the tag removed, and leaves the other fields alone |
| GeminiWrapper.ApplyAsTests | hackuta-backend/gemini_wrapper.py:102-110 | one iteration is the `if`/`elif` chain of `startswith` tests |
| GeminiWrapper.ApplySection | hackuta-backend/gemini_wrapper.py:102-110 | the loop body computes one iteration |
| GeminiWrapper.ParseStructuredResponse | hackuta-backend/gemini_wrapper.py:80-120 | the loop over the `\n\n`-separated sections and the criticism fallback compute the parse result |
| GeminiWrapper.ApplyAllUntagged | hackuta-backend/gemini_wrapper.py:101-110 | a field no section is tagged with keeps its initial value |
| GeminiWrapper.ApplyAllLast | hackuta-backend/gemini_wrapper.py:101-110 | the last section tagged `t` decides field `t` |
| GeminiWrapper.ParseTagged | hackuta-backend/gemini_wrapper.py:90-114 | a tagged field holds the extract of its last section, except an empty criticism, which becomes the whole response |
| GeminiWrapper.ParseUntagged | hackuta-backend/gemini_wrapper.py:90-114 | an untagged field is empty, except the criticism, which becomes the whole response |
| GeminiWrapper.ParseCriticismEmpty | hackuta-backend/gemini_wrapper.py:112-114 | the criticism is empty exactly when the response is |
| GeminiWrapper.ParseToList | hackuta-backend/gemini_wrapper.py:152-162 | the loop computes the list of cleaned, non-empty lines |
| GeminiWrapper.ParseToListShape | hackuta-backend/gemini_wrapper.py:152-162 | every item is non-empty, stripped and a single line, and there are no more items than non-blank lines |
| GeminiWrapper.CleanKeepsZero | hackuta-backend/gemini_wrapper.py:159 | the bullet set has no `0`, so `10. Launch` becomes `0. Launch` |
| GeminiWrapper.FormatInitialFallback | hackuta-backend/gemini_wrapper.py:168-189 | the `result +=` steps and the final strip compute the fallback text |
| GeminiWrapper.AppendBlock | hackuta-backend/gemini_wrapper.py:172-187 | a block appends its title, one line per item and, for strengths and weaknesses, a blank line |
| GeminiWrapper.FallbackRaw | hackuta-backend/gemini_wrapper.py:170-187 | the unstripped text is the header, a blank line, then the blocks; there are no blocks exactly when all three lists are empty |
| GeminiWrapper.InitialFallbackHeader | hackuta-backend/gemini_wrapper.py:170-189 | the text starts with `Initial Insight: ` and the stripped acknowledgment, or is exactly `Initial Insight:` when everything is empty |
| GeminiWrapper.EmptyHeader | hackuta-backend/gemini_wrapper.py:170-189 | the empty fallback strips to `Initial Insight:` |
| GeminiWrapper.FallbackLineCount | hackuta-backend/gemini_wrapper.py:172-187 | the line count shows at most 3 strengths, 3 weaknesses and 5 suggestions, with titles and gaps |
| GeminiWrapper.NumberedFromOne | hackuta-backend/gemini_wrapper.py:186-187 | the k-th suggestion is numbered k + 1 |
| GeminiWrapper.ResolveKey | hackuta-backend/gemini_wrapper.py:149 | a key is available exactly when one of the three sources is non-empty, and the argument takes precedence over `GOOGLE_API_KEY` |
| GeminiWrapper.GenerateInitialInsightText | hackuta-backend/gemini_wrapper.py:136-253 | without a key, or when the model call fails, the text is the fallback of the parsed lists; otherwise it is the stripped reply |
| GeminiWrapper.FormatFollowUpFallback | hackuta-backend/gemini_wrapper.py:281-294 | the appends build the summary lines, joined with line breaks |
| GeminiWrapper.FollowUpLinesShape | hackuta-backend/gemini_wrapper.py:283-293 | two fixed lines plus one per present part, in the order themes, risk, next actions; the `Q:` figure appears exactly when total quality is given; at most two themes joined by `, ` and at most two next actions joined by `; ` |
| GeminiWrapper.FollowUpTextStart | hackuta-backend/gemini_wrapper.py:283-294 | the text starts with the header line and then the performance figures |
| GeminiWrapper.FollowUpRoundTrip | hackuta-backend/gemini_wrapper.py:294 | when no line holds a line break, splitting the text on line breaks gives back the lines |
| GeminiWrapper.GenerateFollowUpInsightText | hackuta-backend/gemini_wrapper.py:256-336 | without a key, or when the model call fails, the text is the fallback summary; otherwise it is the stripped reply |
| NewCampaignPage.DescriptionHelper | hackuta-frontend/src/app/dashboard/new-campaign/page.tsx:66-71 | both branches give the untrimmed count followed by ` characters` |
| NewCampaignPage.JsTrimAllSpace | hackuta-frontend/src/app/dashboard/new-campaign/page.tsx:25-26 | an all-whitespace field trims to length 0 |
| NewCampaignPage.BlankFieldsInvalid | hackuta-frontend/src/app/dashboard/new-campaign/page.tsx:25-29 | blank fields fail both checks and disable submit, while empty fields show no inline message |
| NewCampaignPage.ShownErrorsBlockSubmit | hackuta-frontend/src/app/dashboard/new-campaign/page.tsx:117 | an inline message appears only when the form is invalid, and then submit is disabled |
| NewCampaignPage.AstralNameLength | hackuta-frontend/src/app/dashboard/new-campaign/page.tsx:25 | lengths count UTF-16 code units: two astral characters make a name of length 4, which passes |
| NewCampaignPage.PayloadFacts | hackuta-frontend/src/app/dashboard/new-campaign/page.tsx:40-46 | the name and description are sent trimmed, within bounds when valid; an answer is sent exactly when non-empty, and unchanged |
| NewCampaignPage.CampaignOf | hackuta-frontend/src/app/dashboard/new-campaign/page.tsx:47-57 | the stored campaign has the reply's id, name, description and answers, and no ads |
| NewCampaignPage.NewCampaignForm.constructor | hackuta-frontend/src/app/dashboard/new-campaign/page.tsx:15-23 | the fields start empty, with no error and not creating |
| NewCampaignPage.NewCampaignForm.HandleSubmit | hackuta-frontend/src/app/dashboard/new-campaign/page.tsx:31-64 | an invalid form sends nothing and changes nothing; otherwise the trimmed payload is sent; on success the campaign is added and the error stays cleared, on failure the store is untouched and the failure message is set; `isCreating` ends false; the store invariant is kept |
| NewCampaignPage.NewCampaignForm.Submit | hackuta-frontend/src/app/dashboard/new-campaign/page.tsx:36-63 | the submission past the gate: payload sent, reply handled, `isCreating` reset |
| NewCampaignPage.NewCampaignForm.Begin | hackuta-frontend/src/app/dashboard/new-campaign/page.tsx:36-37 | the error is cleared and `isCreating` set, with the form fields unchanged |
| NewCampaignPage.NewCampaignForm.Settle | hackuta-frontend/src/app/dashboard/new-campaign/page.tsx:47-63 | a reply adds the campaign to the store; a failure sets the failure message and leaves the store alone; either way `isCreating` ends false |
| NewCampaignPage.NewCampaignForm.AddCreated | hackuta-frontend/src/app/dashboard/new-campaign/page.tsx:47-57 | the store becomes the `addCampaign` result for the reply's campaign and keeps its invariant |
| LoginMenu.Candidates | hackuta-frontend/src/components/LoginMenu.tsx:13 | at most two candidates, none empty |
| LoginMenu.SourceChoice | hackuta-frontend/src/components/LoginMenu.tsx:13-14 | the source is the name when non-empty, else the e-mail when non-empty, else empty |
| LoginMenu.CharAt0 | hackuta-frontend/src/components/LoginMenu.tsx:17 | `charAt(0)` gives at most one code unit, and none exactly for an empty part |
| LoginMenu.FirstTwo | hackuta-frontend/src/components/LoginMenu.tsx:19 | `slice(0, 2)` is a prefix of at most two units, exactly two when available |
| LoginMenu.Initials | hackuta-frontend/src/components/LoginMenu.tsx:11-20 | at most two code units, and empty without a user |
| LoginMenu.EmptyPartsContributeNothing | hackuta-frontend/src/components/LoginMenu.tsx:15-18 | parts left empty by repeated, leading or trailing spaces add nothing to the initials |
| LoginMenu.InitialsCount | hackuta-frontend/src/components/LoginMenu.tsx:15-19 | with an upper-casing that keeps one unit as one, there is one unit per non-empty word, at most two |
| LoginMenu.NoSourceNoInitials | hackuta-frontend/src/components/LoginMenu.tsx:12-19 | a user without a non-empty name or e-mail gets no initials, so the fallback icon shows |
| LoginMenu.LabelAndInitialsDiverge | hackuta-frontend/src/components/LoginMenu.tsx:59-61 | with an empty name the label shows the empty name (`??`) while the initials come from the e-mail (`filter(Boolean)`) |

## Left out

- Persistence: the store keeps campaigns in memory only. `clearCampaigns`' removal of the `localStorage` key is a side effect that is not modelled.
- React rendering, hooks and batching: each callback's effect is modelled as one state transition. The intermediate renders between `setState` calls are not modelled.
- An optional `ads` field: `Campaign.ads` is a sequence, because every reader of the store uses `ads ?? []` and every store operation writes a list.
- Metric values are JavaScript numbers. They are modelled as mathematical reals, so floating-point rounding of the sums and quotients is not modelled. `Math.round` is modelled exactly on reals.
- Name matching in `addCampaign` lower-cases ASCII letters only. JavaScript's full Unicode `toLowerCase` is not modelled.
- The image loading, `URL.createObjectURL`, `crypto.randomUUID` and `new Date()` in the uploader become a `stamps` parameter, one stamp per accepted file. The awaits between files are not modelled as interleavings.
- The uploader's drag handlers, file input reset and browse button are not modelled.
- `createCampaign` (from `@/lib/api`) is not part of this model. Its reply, or its failure, is a parameter of `HandleSubmit`.
- `router.push("/dashboard")` after a successful submission is not modelled.
- The Gemini model calls (`ChatGoogleGenerativeAI`, `LLMChain`) and the prompts are left out. The reply, or its failure, is a parameter.
- `os.getenv` is left out: the two environment variables are parameters.
- The follow-up numbers are Python `int` or `float`, modelled as `PyNumber`. A float's `repr` is given as a string rather than computed.
- `print` logging in the exception handlers is not modelled.
- `parse_structured_response`'s `except` branch is not modelled, because nothing in its `try` body can raise on a `str`.
- `toUpperCase` in the initials is a function parameter, because JavaScript's case-mapping tables are not modelled. `InitialsCount` assumes an upper-casing that keeps one code unit as one, as for ASCII letters.
- AdUploader.Normalize: requires `min < max`. This holds for the four constant ranges the source passes, (6, 9), (1, 4), (25, 65) and (2, 6); the function is not defined for other ranges.
- GeminiWrapper.CleanKeepsZero: is stated on one concrete line, `10. Launch`, to show the missing `0` in the bullet set. It is not a general statement about numbered lines.
- CampaignContext.CampaignStore.AddCampaign: keeps the store invariant only when the new campaign's ads have distinct ids (see `AddCampaignDuplicateAds`).
- CampaignContext.CampaignStore.SetCampaignList: keeps the store invariant only when every campaign's ads have distinct ids (see `SetCampaignListDuplicateAds`).
