# Presto-Change-O backend core in Dafny

A model of the backend of a demo dashboard. The dashboard can turn into any
industry ("Presto-Change-O, you're a bank"). The backend's core does the
following:

- keeps a bounded chat history;
- builds the assistant's system prompt from the current mode and a generated
  customer persona;
- detects mode-switch phrases;
- relays streamed chat replies and their tool calls to the browser;
- relays a voice session between the browser and a realtime speech service;
- runs the two dashboard tools (`show_chart`, `show_metrics`);
- derives a colour theme from one primary colour;
- turns a language model's JSON reply into a new mode;
- generates the seeded customer personas;
- generates and saves three images per generated mode.

Everything is modelled as pure functions over immutable datatypes. Python's
exceptions become `None`, a `fault` flag, or an explicit outcome. What the
model cannot see is a parameter: the network, the SDK clients, JSON
parsing, clocks, Faker's random source and file writes.

| file | module | models |
|---|---|---|
| wrappers.dfy | Wrappers | `Option` with `:-` propagation |
| json.dfy | Json | decoded JSON values; `d.get`, truthiness, `str(value)` |
| strings.dfy | Strings | the `str` methods used (`lower`, `strip`, `split`, `join`, `title`, ...) |
| sorting.dfy | Sorting | `sorted(keys)` and `list.sort(key=...)` |
| modes.dfy | Modes | the records of backend/modes.py |
| tools.dfy | Tools | backend/tools.py |
| color.dfy | Color | backend/color_utils.py |
| modegen.dfy | ModeGenerator | backend/mode_generator.py |
| persona.dfy | Persona | backend/persona.py |
| chat.dfy | Chat | backend/chat.py |
| images.dfy | Images | backend/image_generator.py |
| voice.dfy | Voice | backend/voice.py |

## Model

| member | source | states |
|---|---|---|
| Tools.ToolDefinitionsShape | backend/tools.py:8-78 | The tool list holds exactly two function tools, `show_chart` then `show_metrics`, and the chart schema enumerates line, bar, pie and area. |
| Tools.ExecuteTool | backend/tools.py:81-108 | A chart result has exactly the keys chart_type, title and data. A metrics result has exactly the key metrics. Any other name yields only `{"error": "Unknown tool: <name>"}`. An error key appears exactly for unknown names. |
| Tools.ChartPassThrough | backend/tools.py:96-101 | Each chart key carries the argument's own value. A missing chart_type or title becomes null, and a missing data becomes the empty list. |
| Tools.UnlistedChartTypePassesThrough | backend/tools.py:96-101 | A chart kind outside the schema's enum ("donut") is returned unchanged, with no validation. |
| Tools.ChartIdentityOnSchemaKeys | backend/tools.py:96-101 | Arguments holding exactly the three schema keys come back unchanged. |
| Tools.MetricsPassThrough | backend/tools.py:102-105 | The metrics list is passed through, and a missing one becomes the empty list. |
| Tools.ApplyTool | backend/tools.py:96-108 | Calling `execute_tool` on a decoded value raises exactly when the value is not an object and the tool is known, since only known tools call `.get`. An unknown tool still answers with its error entry. |
| Color.Slice | backend/color_utils.py:36-38 | Python slicing: at most hi-lo characters, and exactly `s[lo..hi]` when in range. |
| Color.Doubled | backend/color_utils.py:32-33 | Short hex: every digit is written twice, in order. |
| Color.TrimHashes | backend/color_utils.py:29 | `lstrip("#")` removes every leading '#', however many there are. |
| Color.ParseHex | backend/color_utils.py:36-38 | `int(t, 16)` strips whitespace and reads an optional sign. A non-empty string of hex digits gives its value. A two-character pair, if it parses at all, gives a value in -15..255, because one of its two places may hold a sign. |
| Color.ParseHexPair | backend/color_utils.py:36-38 | `int(pair, 16)` of two hex digits is the pair's value. |
| Color.SixDigits | backend/color_utils.py:36-38 | Six hex digits give three components, pair by pair. |
| Color.DoubledPairs | backend/color_utils.py:32-38 | A doubled digit denotes 17 times the digit. |
| Color.ExpandedDigits | backend/color_utils.py:29-33 | After any number of '#', three digits are doubled and six are kept. |
| Color.HexToRgbDigits | backend/color_utils.py:12-40 | Any number of '#' followed by six hex digits parses pair by pair. Three digits give 17 times each digit. Every component is in 0..255. |
| Color.HexToRgb | backend/color_utils.py:12-40 | Every component of a parsed colour is in -15..255. |
| Color.SignedPair | backend/color_utils.py:36-38 | `int("-1", 16)` is -1: a sign is accepted inside a pair. |
| Color.PaddedPair | backend/color_utils.py:36-38 | `int("01", 16)` is 1. |
| Color.HexExampleLong | backend/color_utils.py:23-24 | "#1E88E5" is (30, 136, 229). |
| Color.HexExampleShort | backend/color_utils.py:25-26 | "#ABC" is (170, 187, 204). |
| Color.Clamp | backend/color_utils.py:60-62 | The result is in 0..255. It is the value itself inside that range, 0 below it and 255 above it. |
| Color.Hex2 | backend/color_utils.py:64 | `{:02x}` is two lower-case hex digits denoting the value. |
| Color.RgbToHex | backend/color_utils.py:43-64 | The output is '#' followed by six lower-case hex digits. |
| Color.HexExamplePrint | backend/color_utils.py:56-57 | (30, 136, 229) prints as "#1e88e5". |
| Color.RgbRoundTrip | backend/color_utils.py:12-64 | Parsing the printed colour gives back the clamped components: the identity on 0..255. |
| Color.HexRoundTrip | backend/color_utils.py:12-64 | Printing a parsed colour gives '#' and the lower-cased, expanded digits. |
| Color.NormalizePrimary | backend/color_utils.py:133 | The primary entry is lower-cased, with '#' added in front only when it is missing. |
| Color.DeriveThemePalette | backend/color_utils.py:67-139 | A palette exists exactly when the primary parses and `colorsys.rgb_to_hls` does not divide by zero. That division fails for a colour that is not grey and whose largest and smallest components sum to 0 or to 2·255. Secondary is the printed complement. The light scheme is chosen exactly when lightness exceeds one half, otherwise the dark scheme. Muted text is fixed. |
| Color.SignedPrimaryHasNoPalette | backend/color_utils.py:94-99 | "#-101-1" parses to (-1, 1, -1). No palette is derived from it, because `rgb_to_hls` divides by zero. |
| Color.PaletteSchemeConsistent | backend/color_utils.py:119-127 | Background, surface and text always come from the same scheme. |
| ModeGenerator.Unfence | backend/mode_generator.py:141-149 | A reply that does not start with a fence is only stripped. |
| ModeGenerator.UnfenceFenced | backend/mode_generator.py:141-149 | A fenced block with an info string, closed by a fence line, gives back exactly its body, whatever lines the body holds. |
| ModeGenerator.UnfenceJsonExample | backend/mode_generator.py:141-149 | "```json\n{...}\n```" unfences to the JSON text. |
| ModeGenerator.UnfenceUnclosed | backend/mode_generator.py:141-149 | Without a closing fence, only the opening line is dropped. |
| ModeGenerator.UserPrompt | backend/mode_generator.py:119 | The full request is used when non-empty. Otherwise a fixed request ends with the industry. |
| ModeGenerator.Traits | backend/mode_generator.py:80 | Missing traits give the empty list. A list gives its strings in order, and it is accepted exactly when every element is a string. A string gives its characters one by one. An empty object gives no traits. A non-empty object is rejected. null, a bool or a number is rejected, since Python cannot iterate it. |
| ModeGenerator.PromptTextShape | backend/mode_generator.py:83-88 | The prompt opens with the industry header and closes with the tools context. |
| ModeGenerator.BuildFullSystemPrompt | backend/mode_generator.py:74-88 | The prompt is built exactly when the industry name is absent or a string and the traits are accepted by ModeGenerator.Traits: a list of strings, a string, or an empty object. It then opens by naming the lower-cased industry (default "general") and ends with the tools context. |
| ModeGenerator.EmptyConfigPrompt | backend/mode_generator.py:80-88 | An empty configuration gives the "general" prompt with an empty fragment and no traits. |
| ModeGenerator.GeneralHead | backend/mode_generator.py:81-83 | The default header names a "general dashboard". |
| ModeGenerator.TraitsListed | backend/mode_generator.py:80 | Two string traits are joined in order with ", ". |
| ModeGenerator.Required | backend/mode_generator.py:169 | A required string field validates exactly when present and a string. |
| ModeGenerator.ToTab | backend/mode_generator.py:169 | A tab needs an object with string id and label. Its icon defaults to the source's clipboard icon text. |
| ModeGenerator.ToMetricValue | backend/mode_generator.py:172 | A metric value validates exactly when it is a string or a number. |
| ModeGenerator.ToMetric | backend/mode_generator.py:171-174 | A metric needs an object with a string label and a valid value. Its unit is None exactly when unit is absent or null. |
| ModeGenerator.Tabs | backend/mode_generator.py:160-169 | One tab per listed entry, in order. No tabs key gives no tabs. |
| ModeGenerator.Metrics | backend/mode_generator.py:161-174 | One metric per listed entry, in order. No metrics key gives no metrics. |
| ModeGenerator.Theme | backend/mode_generator.py:156-157 | The theme is derived from the configured primary colour, defaulting to "#4CAF50". |
| ModeGenerator.BuildMode | backend/mode_generator.py:156-175 | The id and name come from the configuration, or else from the snake-cased or title-cased industry. Theme, tabs, prompt and metrics are each the validated field. |
| ModeGenerator.BuildModeSucceeds | backend/mode_generator.py:156-175 | A mode is built exactly when every field it reads validates. |
| ModeGenerator.GenerateMode | backend/mode_generator.py:109-186 | A mode is returned only for a non-empty reply that, once unfenced, decodes to an object from which a mode builds. Conversely, such a reply gives exactly the mode built from that object. A failed or empty model call gives None. Nothing raises. |
| ModeGenerator.EmptyConfigDefaults | backend/mode_generator.py:156-175 | `{}` gives every default: snake-cased id, title-cased name, primary "#4caf50", the dark scheme, no tabs and no metrics. |
| ModeGenerator.DefaultTheme | backend/mode_generator.py:156-157 | The default primary is a dark colour, so the dark scheme applies. |
| ModeGenerator.DefaultPrimaryRgb | backend/mode_generator.py:156 | "#4CAF50" is (76, 175, 80). |
| ModeGenerator.DefaultPrimaryLower | backend/mode_generator.py:156 | The default primary is recorded as "#4caf50". |
| Persona.PyInt | backend/persona.py:116 | `pyint(lo, hi)` is in lo..hi and consumes one draw. |
| Persona.PyIntOnto | backend/persona.py:116 | Every value of the range is drawn by some stream. |
| Persona.Cents | backend/persona.py:123 | `round(pyfloat(lo, hi), 2)` in cents lies in 100·lo..100·hi. |
| Persona.RandomElement | backend/persona.py:160 | `random_element` returns an element of the list. |
| Persona.Sample | backend/persona.py:150 | `random_elements(..., unique=True)` gives k members of the list, distinct when the list is. |
| Persona.Bothify | backend/persona.py:182 | `bothify` puts a digit for '#' and a letter for '?', and keeps every other character. |
| Persona.Identifier | backend/persona.py:182 | `bothify(...).upper()` gives digits, upper-case letters and the upper-cased fixed characters. |
| Persona.DrawTransaction | backend/persona.py:119-125 | The category is "debit" exactly when the `pybool` draw says debit. A debit is $5..$500 and is described by the drawn company text; a credit is $100..$3000 and is described by the title-cased phrase. Both are dated in the last 30 days, and the flag, day, text and amount are drawn in that order. |
| Persona.DrawTransactions | backend/persona.py:118-125 | n valid transactions. |
| Persona.SortNewestFirst | backend/persona.py:128 | Transactions are sorted newest first and are a permutation of the input. The reversed sort stays stable: transactions of one date keep their drawn order. |
| Persona.SortedTransactionsValid | backend/persona.py:128 | Sorting keeps every transaction valid. |
| Persona.GenerateBanking | backend/persona.py:110-139 | There are 5 to 10 valid transactions, newest first. Balances, the four-digit account suffix, credit score and limit are within their ranges. |
| Persona.BankingTransactionsAreDrawn | backend/persona.py:116-128 | The listed transactions are exactly the drawn ones, and those of one date are listed in the order they were drawn. |
| Persona.PolicyNumber | backend/persona.py:182 | A policy number is "POL-", four characters, '-' and four more. |
| Persona.DrawPolicy | backend/persona.py:157-184 | Each policy type gets its own coverage range and deductible set. Life and Umbrella have no deductible. |
| Persona.DrawPolicies | backend/persona.py:156-184 | One valid policy per chosen type, in order. The running totals are the sums of coverage and premium. |
| Persona.DrawClaim | backend/persona.py:193-199 | A claim has its id shape, a date 30 days to 2 years ago, a listed type and status, and $500..$15000. |
| Persona.DrawClaims | backend/persona.py:192-199 | n valid claims. |
| Persona.DrawRisk | backend/persona.py:202-207 | Risk is low with no claims, low or medium with one, and medium or high with two. |
| Persona.PolicyTypesDistinct | backend/persona.py:148 | The four policy types are distinct. |
| Persona.DistinctKinds | backend/persona.py:150-184 | Policies drawn for distinct types have distinct types. |
| Persona.GenerateInsurance | backend/persona.py:142-217 | There are 1 to 3 valid policies of distinct listed types, totals that are their sums, at most two valid claims, and a risk score that follows the claim count. |
| Persona.LifeAndUmbrellaHaveNoDeductible | backend/persona.py:165-172 | A generated Life or Umbrella policy has deductible 0. |
| Persona.DrawAppointment | backend/persona.py:231-238 | An appointment is 1 to 90 days ahead, at a listed time, with a listed specialty and a "Dr. " provider. |
| Persona.DrawAppointments | backend/persona.py:230-238 | n valid appointments. |
| Sorting.SortByStable | backend/persona.py:241 | `list.sort(key=...)` is stable: for every key, the elements with that key appear in the sorted list in their input order. |
| Sorting.InsertByRuns | backend/persona.py:241 | Inserting an element puts it ahead of the elements with an equal key and leaves their order alone. |
| Persona.SortSoonestFirst | backend/persona.py:241 | Appointments are sorted soonest first and are a permutation of the input. The sort is stable: appointments on one day keep their drawn order. |
| Persona.SameDayKeepsDrawOrder | backend/persona.py:241 | Two appointments on the same day are left in the order they were drawn. |
| Persona.SortedAppointmentsValid | backend/persona.py:241 | Sorting keeps every appointment valid. |
| Persona.DrawPrescriptions | backend/persona.py:258-264 | One prescription per chosen medication, with that medication's dosage and frequency and 0 to 5 refills. |
| Persona.MedicationNamesDistinct | backend/persona.py:245-254 | The eight medication names are distinct. |
| Persona.MedicationsDistinct | backend/persona.py:245-254 | The medication list has no repeated entry. |
| Persona.DistinctPrescriptions | backend/persona.py:255-264 | Prescriptions name distinct medications because the chosen medications are distinct. |
| Persona.MemberIdShape | backend/persona.py:275 | A member id is "MBR-" followed by nine digits. |
| Persona.GenerateHealthcare | backend/persona.py:220-285 | There are at most two valid appointments, soonest first with same-day ones in drawn order (HealthcareAppointmentsAreDrawn), and 1 to 3 prescriptions of distinct medications. Plan and deductible come from their lists. The deductible met is at most the deductible, and out-of-pocket spent is at most 60% of the maximum. |
| Persona.HealthcareAppointmentsAreDrawn | backend/persona.py:230-241 | The listed appointments are exactly the drawn ones, soonest first, and those on one day are listed in the order they were drawn. |
| Persona.GenerateGeneric | backend/persona.py:292-326 | Account value, activity count and loyalty points are within their ranges. Status is from its list. The hint reads "This is a ... customer dashboard." |
| Persona.DisplayName | backend/persona.py:356 | `replace('_', ' ').title()`: the same length, with spaces exactly where '_' or ' ' was. |
| Persona.GeneratePersona | backend/persona.py:333-356 | The lower-cased id selects banking, insurance or healthcare. Any other id gets the generic persona. Every result is valid for its kind. |
| Persona.GenericHintNamesMode | backend/persona.py:325-356 | A dynamic mode's hint names its display name. |
| Persona.PetStoreDisplayName | backend/persona.py:356 | "pet_store" displays as "Pet Store". |
| Persona.UpperCaseBanking | backend/persona.py:351 | "BANKING" reaches the banking generator. |
| Chat.AddToHistory | backend/chat.py:52-57 | The new message is last. The oldest entry is dropped only when the limit is reached, and the bound of 20 is kept. |
| Chat.AddIsLastN | backend/chat.py:52-57 | One addition keeps the last 20 of the history plus the new message. |
| Chat.HistoryKeepsLast | backend/chat.py:52-57 | After any number of additions, the history is exactly the last 20 of everything added, in order. |
| Chat.LastNAppend | backend/chat.py:52-57 | Truncating early and truncating late agree. |
| Chat.ClearHistory | backend/chat.py:60-62 | Clearing empties the history and keeps the persona. |
| Chat.ClearThenAdd | backend/chat.py:60-62 | After clearing, the next message is the whole history. |
| Chat.Len | backend/chat.py:96 | `len` exists exactly for lists, strings and objects. |
| Chat.BankingContext | backend/chat.py:81-90 | The block starts with the customer header and name and ends with the banking footer. It exists exactly when both balances format. |
| Chat.InsuranceContext | backend/chat.py:91-100 | The block has the customer header, name and footer. It exists exactly when `len(active_policies)` exists and both the total coverage and the monthly premium format. |
| Chat.HealthcareContext | backend/chat.py:101-110 | The block has the patient header, name and footer. It exists exactly when the deductible met and the deductible both format and `len(active_prescriptions)` exists. |
| Chat.PersonaContext | backend/chat.py:80-110 | The block matching the mode; banking succeeds exactly when both balances format. |
| Chat.BuildSystemPrompt | backend/chat.py:65-114 | An empty persona or a mode without a profile gives the mode's prompt. Otherwise the result is prompt + blank line + block, failing exactly when the block fails. The mode's prompt is always a prefix. |
| Chat.BankingPromptNamesCustomer | backend/chat.py:81-114 | A banking customer's name follows the mode's prompt and the profile header. |
| Chat.BankingBalanceMustFormat | backend/chat.py:86 | A balance that cannot be formatted makes the banking prompt raise. |
| Chat.Keep | backend/chat.py:128 | `re.sub(r"[^\w\s]", "", ...)` keeps only word characters and whitespace and never lengthens the text. |
| Chat.Normalize | backend/chat.py:128 | The normal form keeps only word characters and whitespace and is no longer than the input. |
| Chat.NormalizeNoUpper | backend/chat.py:128 | The normal form holds no upper-case letter. |
| Chat.NormalizeAppend | backend/chat.py:128 | Normalisation works character by character. |
| Chat.NormalizeSplice | backend/chat.py:128 | A character that is neither kept nor upper-case vanishes from between two pieces, which are normalised separately. |
| Chat.NormalizeIdempotent | backend/chat.py:128 | Normalising twice is normalising once. |
| Chat.DetectModeSwitch | backend/chat.py:117-142 | No mode without a trigger phrase. Otherwise banking, then insurance, then healthcare, each exactly when its words occur and no earlier family's do. The result is always a profile mode. |
| Chat.RedundantKeywords | backend/chat.py:135-140 | "banking" and "healthcare" never change the outcome beyond "bank" and "health". |
| Chat.BankingWinsOverInsurance | backend/chat.py:135-138 | A text naming a bank and insurance switches to banking. |
| Chat.DetectBankExample | backend/chat.py:127-136 | Any text whose normal form is "prestochangeo youre a bank" switches to banking. |
| Chat.BankDocstringNormal | backend/chat.py:123-128 | "Presto-Change-O, you're a bank" normalises to "prestochangeo youre a bank". |
| Chat.DetectBankDocstring | backend/chat.py:123 | The literal "Presto-Change-O, you're a bank" switches to banking. |
| Chat.DetectHealthcareExample | backend/chat.py:127-140 | Any text whose normal form is "presto change o youre a healthcare provider" switches to healthcare: it names no bank and no insurer, and "health" occurs. |
| Chat.DetectHealthcareDocstring | backend/chat.py:124 | The literal "presto change o youre a healthcare provider" switches to healthcare. |
| Chat.Accumulate | backend/chat.py:262-280 | An index has an entry exactly when some fragment names it. |
| Chat.Absorb | backend/chat.py:262-280 | A fragment creates or updates only its own index. |
| Chat.AccumulateSpec | backend/chat.py:262-280 | Each index seen has an entry and no other index does. Its arguments are the in-order concatenation of its fragments. Its id and name are the last non-empty values. |
| Chat.CallOutcomeOf | backend/chat.py:292-312 | A call sends a result exactly when name and arguments are non-empty, the arguments parse and the tool accepts them. It raises exactly when a known tool gets a non-object. |
| Chat.ProcessCalls | backend/chat.py:287-312 | Each result sent comes from a listed call whose outcome is that send. |
| Chat.ProcessCallsFails | backend/chat.py:287-312 | The loop raises exactly when one of the listed calls raises. |
| Chat.ProcessCallsOrdered | backend/chat.py:287 | Results are sent in increasing index order. |
| Chat.ProcessCallsComplete | backend/chat.py:287-312 | Unless the loop raised, every firing call sent its result. |
| Chat.ProcessToolCalls | backend/chat.py:287-312 | Results come in increasing index order and only from firing calls. There is one result per fired call, and the i-th result is the one that call's outcome sends. The loop fails exactly when some call raises. Otherwise every firing call is answered. |
| Chat.EmptyCallsAreSkipped | backend/chat.py:292 | A call with an empty name or empty arguments sends nothing. |
| Chat.TextEvents | backend/chat.py:252-258 | Every event is a non-final chunk. There are exactly as many as there are non-empty text deltas. |
| Chat.TextEventsSpellFullText | backend/chat.py:252-258 | The forwarded texts concatenate to the full response. |
| Chat.HandleChatMessage | backend/chat.py:145-328 | A turn sends at least two messages. It starts with a mode switch or chat_start and ends with done or error. The history bound is kept. The turn opens with a mode switch exactly when a mode is detected and the store accepts it. That turn is then exactly: history cleared, the new mode's persona, and switch, chat_start, welcome text and done. Without a switch the persona is unchanged. |
| Chat.SwitchTurn | backend/chat.py:161-206 | A detected mode that the store accepts gives the switch turn (cleared history, the new persona, switch, start, welcome and done) whether or not a model client is available. |
| Chat.StreamedTurn | backend/chat.py:247-328 | A stream that breaks off keeps the state and ends in an error. A completed stream records a non-empty reply. When no tool call raises, the turn sends start, text deltas, tool results and done, in that order. |
| Chat.CompletedTurn | backend/chat.py:210-318 | A normal turn sends start, text, tool results and done, and records the user message and the reply. This holds both when no switch phrase is found and when the detected mode does not exist. |
| Chat.ChatTurnStreams | backend/chat.py:160-166 | A turn without a switch phrase, or whose detected mode does not exist, falls through to the streamed reply with the user message added to the history. |
| Images.ImageBase | backend/image_generator.py:35 | The base is a prefix of the endpoint. |
| Images.ImageUrl | backend/image_generator.py:28-37 | The URL is base + deployments path + deployment + generations path. |
| Images.ImageUrlDeployment | backend/image_generator.py:37 | The deployment sits between the two fixed parts. |
| Images.ProjectEndpoint | backend/image_generator.py:35 | `<base>/models/` gives `<base>`. |
| Images.OnlyOneModelsSuffix | backend/image_generator.py:35 | Only one trailing "/models" is removed. |
| Images.FirstItem | backend/image_generator.py:86-89 | An item exists exactly for a list whose first element is an object. |
| Images.PickPayload | backend/image_generator.py:89-101 | A truthy `b64_json` is used first, then a truthy `url`. No image exactly when both are falsy. |
| Images.Base64Preferred | backend/image_generator.py:89-91 | A non-empty base64 payload wins over any url. |
| Images.ChooseSource | backend/image_generator.py:80-101 | Falsy data gives no image. A base64 or url source is exactly the first item's truthy field. |
| Images.GenerateImage | backend/image_generator.py:47-108 | Bytes come only from a chosen source: base64 is decoded and a url is fetched. Transport failure or no image gives None. |
| Images.EmptyDataNoImage | backend/image_generator.py:81-84 | A response without data yields no image. |
| Images.ImagePath | backend/image_generator.py:185 | A saved image is served from "/images/<mode>_....png". |
| Images.PromptText | backend/image_generator.py:150-168 | Each prompt names the lower-cased industry and the primary colour. |
| Images.WithPath | backend/image_generator.py:185 | Recording a path changes only that image's entry. |
| Images.SaveOne | backend/image_generator.py:182-188 | A path is recorded exactly for generated bytes that were written. A failed write skips every later step. |
| Images.SaveAll | backend/image_generator.py:181-206 | A recorded path is the image's own, and the image was generated and its file written. |
| Images.SaveAllAt | backend/image_generator.py:181-206 | A recorded path is the image's own, for an image that was generated and written. |
| Images.SaveAllIff | backend/image_generator.py:181-206 | With working writes, an image has a path exactly when it was generated. |
| Images.SaveAllAbandons | backend/image_generator.py:181-209 | A failed background write loses all three paths. |
| Images.GenerateModeImages | backend/image_generator.py:111-211 | Every path is None or the image's own. A path implies the setup succeeded, the image was generated and it was written. Setup failure gives all None. With working writes, paths exist exactly for generated images. A failed background write gives all None. |
| Voice.BuildRealtimeTools | backend/voice.py:28-44 | Only function tools are kept, each flattened. |
| Voice.RealtimeToolsAppend | backend/voice.py:36-43 | The conversion works tool by tool. |
| Voice.AllFunctionsKept | backend/voice.py:36-43 | When every definition is a function tool, each one is kept, flattened, in place. |
| Voice.OthersDropped | backend/voice.py:37 | Definitions of another type are dropped. |
| Voice.SessionTools | backend/voice.py:117 | A voice session offers `show_chart` and `show_metrics`. |
| Voice.StripScheme | backend/voice.py:77 | An endpoint without ':' is left as it is. `https://` followed by a scheme-free rest gives that rest. |
| Voice.EndpointHost | backend/voice.py:78-81 | The host is a prefix of the scheme-less endpoint. |
| Voice.RealtimeUri | backend/voice.py:82 | The URI is wss://host/openai/realtime?api-version=... ending in &deployment=... |
| Voice.ProjectEndpointHost | backend/voice.py:78-81 | `https://<host>/models/` connects to `<host>`. |
| Voice.BrowserToRealtime | backend/voice.py:132-159 | Only audio appends are sent, at most one per frame. The browser side never ends as "closed". |
| Voice.AudioForwardedIffUnmuted | backend/voice.py:141-147 | An audio frame is forwarded with its data exactly when not muted. |
| Voice.BareMuteUnmutes | backend/voice.py:149-151 | A mute message without `muted` unmutes. |
| Voice.MutedSendsNothing | backend/voice.py:141-151 | While muted, and with no mute message, nothing reaches the service. |
| Voice.StartsUnmuted | backend/voice.py:68 | A first audio frame is forwarded. |
| Voice.UserTranscript | backend/voice.py:194-217 | An empty transcript is ignored. A non-empty one is shown first. A non-string transcript raises on `.lower()`. |
| Voice.ToolCall | backend/voice.py:296-333 | A tool call sends only the same result twice (to the browser and, under the call id, to the service) and then asks the service to continue. |
| Voice.RealtimeEvent | backend/voice.py:164-343 | A non-object event raises. Speech start cancels the response and notifies the browser. Speech stop notifies the browser. Deltas and errors are stated by Voice.DeltaForwarded, Voice.EmptyDeltasDropped and Voice.ErrorForwarded. |
| Voice.DeltaForwarded | backend/voice.py:273-294 | A non-empty audio delta goes to the browser as audio. A non-empty transcript delta goes as an assistant transcript. Neither raises. |
| Voice.ErrorForwarded | backend/voice.py:335-343 | An error object is forwarded with its message, or "Unknown error" without one. An `error` value that is not an object raises on `.get`. |
| Voice.BareErrorForwarded | backend/voice.py:335-343 | An error event with no details still tells the browser "Unknown error". |
| Voice.RealtimeEventAsWritten | backend/voice.py:192-220 | As written, a non-empty user transcript raises. |
| Voice.RealtimeFold | backend/voice.py:161-349 | The realtime side never ends with a browser stop. It ends as "closed" exactly when every frame decodes and is handled without raising. |
| Voice.RealtimeToBrowser | backend/voice.py:161-349 | The relay never ends with a browser stop. It reaches the closed connection exactly when every frame decodes and its event does not raise. |
| Voice.AsWrittenTranscriptEndsRelay | backend/voice.py:192-220 | As written, a plain user utterance is shown and then ends the relay. |
| Voice.TranscriptDispatch | backend/voice.py:192-194 | A user-transcript event reaches the transcript branch. |
| Voice.TranscriptContinues | backend/voice.py:192-221 | With the switch wired as intended, a plain utterance is shown and the relay reads on. |
| Voice.SwitchRunsEffects | backend/voice.py:219-271 | A detected switch runs the switch's effects after the transcript. |
| Voice.TriggerHasPresto | backend/chat.py:128-132 | A text switches only when its normal form contains "presto". |
| Voice.SwitchWithoutEarlyCancel | backend/voice.py:203-220 | "p-resto change o bank" switches to banking. Its lower-cased form lacks "presto", so no early cancel is sent: the transcript is shown and the switch's effects follow. |
| Voice.SwitchWithoutPresto | backend/voice.py:203-220 | A transcript that switches mode although its lower-cased form lacks "presto" is shown, and the switch's effects follow directly, with no cancel in between. |
| Voice.PrestoCancelsFirst | backend/voice.py:203-217 | "presto" cancels the response in flight, then announces a mode being generated. |
| Voice.EmptyDeltasDropped | backend/voice.py:273-294 | An audio or transcript delta sends nothing exactly when it is falsy, and never raises. |
| Voice.ToolCallAnswered | backend/voice.py:296-330 | Readable arguments give the browser result, the function output under the call id, then a response request. |
| Voice.UnparseableArgumentsIgnored | backend/voice.py:332-333 | Undecodable arguments send nothing and the relay continues. |
| Voice.Session | backend/voice.py:47-399 | A session always ends with "disconnected". It opens with the session update and "connected" exactly when it connects and the prompt builds. Otherwise it sends only an error. It sends an error exactly when the relay that finished first raised. Once connected, the sends in each direction are that direction's fold over its frames. |
| Voice.StopEndsCleanly | backend/voice.py:153-155 | A browser stop ends the session without an error. |

## Left out

- Concurrency: `asyncio.wait`, `asyncio.gather` and task cancellation are not modelled. Each voice relay direction is a fold over the frames it consumed. Which direction finished first is a parameter, and the interleaving of their messages is not modelled. A tie where both tasks finish together is not modelled.
- Network, SDK clients, credentials and bearer tokens are parameters: `llm`, `clientReady`, `connected`, `ready`, `fetch`, `generate`. The image folder creation and file writes are the `write` and `ready` parameters.
- JSON decoding (`json.loads`) is a parameter `parse`. Serialising with `json.dumps` is not modelled: a message is its structured value.
- Floating point:
  - the HLS complement of the palette is the parameter `complement`;
  - lightness above one half is modelled as max + min > 255, exact in real arithmetic (floating-point rounding at that boundary is not modelled);
  - money is integer cents;
  - the `{:,.2f}` formatting in the persona blocks is the parameter `money`;
  - JSON numbers are integers, so float metric values are not modelled;
  - the 0.6 out-of-pocket factor is 60 cents per dollar.
- Faker's random source is a draw stream (`Persona.Faker`), and the distributions are not modelled. The session seed (md5 of a fixed string, backend/chat.py:44) is not modelled because the stream stands for any seed. Dates that are only displayed are text draws.
- Color.ParseHex: Python's `int(_, 16)` also reads non-ASCII Unicode decimal digits ("١٢" is 18). The model reads ASCII digits only and reports such a string as None, because the Unicode digit tables are not modelled. Color.HexToRgb and Color.DeriveThemePalette inherit this.
- ModeGenerator.Traits: a non-empty JSON object is rejected, whereas Python's `", ".join(...)` joins its keys in document order. A map does not keep that order.
- ModeGenerator.BuildFullSystemPrompt: inherits the ModeGenerator.Traits gap, so a non-empty traits object gives no prompt.
- Json.Show renders lists and objects as a marker instead of Python's repr.
- Case mapping and `\w` are modelled for ASCII; non-ASCII letters are not.
- ModeGenerator.ToMetricValue: a boolean `value` is rejected. Pydantic's lax mode may coerce it to a number.
- `company_name` and `tagline` (backend/mode_generator.py:166-167) are not modelled. The `Mode` record of backend/modes.py has no such fields, so pydantic drops them.
- The generation system prompt is not modelled; it is folded into `llm`. The tools context is the parameter `context`, and its text is `ModeGenerator.ToolsContext`.
- backend/main.py and backend/auth.py are not part of this model. backend/modes.py defines only the records (`ModeTheme`, `ModeTab`, `ModeMetric`, `Mode`), and those are modelled.
- No file of the source defines the mode store (`get_mode`, `get_current_mode`, `set_current_mode`). backend/chat.py:18 imports all three from backend/modes.py and backend/voice.py:16 imports the last two, so `import chat` fails as written, and with it backend/main.py:12. This is the same situation as `ensure_persona` below. The model assumes a store and takes it as the parameters `current` (the current mode) and `setMode` (a switch that returns the new mode, or None for an unknown id).
- backend/voice.py:17 imports `ensure_persona` from backend/chat.py, which defines no such function, so the import fails as written. The voice session takes the current mode's persona as a parameter.
- The voice mode switch (backend/voice.py:221-271) is the parameter `effects`. Its sends are not modelled one by one, and neither is the `new_mode.company_name` it reads.
- A chat stream that raises part-way is `completed = false`. Error texts (`str(e)`) are not modelled: an error is one `ChatError` or `SessionError` message.
- Voice.Session: sends to a browser that has already gone are recorded as attempted. Whether the error or status send itself raises is not modelled.
- The constant fields of the realtime `session.update` (voice, audio formats, turn detection) are not modelled. Neither are logging or the `session.created`, `session.updated` and `response.audio.done` events, which only log.
- The prompt of an image request is stated about `Images.PromptText`. The `generate` parameter receives the structured request, not the text.

## Findings

| source | as written | input that shows it | evidently intended | confidence | as-written member | corrected member |
|---|---|---|---|---|---|---|
| backend/voice.py:220 | `await detect_mode_switch(transcript, websocket)` calls a synchronous one-argument function (backend/chat.py:117) with two arguments, so a TypeError ends the realtime relay. | Any transcription-completed event with a non-empty transcript, e.g. "show me revenue": the transcript reaches the browser and the relay then stops. | Detect a mode switch in the transcript and, on a hit, switch mode; otherwise keep relaying. | not executed; high for the TypeError on every non-empty transcript | Voice.RealtimeEventAsWritten, Voice.AsWrittenTranscriptEndsRelay | Voice.RealtimeEvent, Voice.TranscriptContinues, Voice.SwitchRunsEffects |
