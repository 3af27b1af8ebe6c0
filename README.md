# Agency site: pricing, contact form and word cycler, modelled in Dafny

This project models the logic inside the React single-page site of a web design agency. It covers three parts:

- **Pricing section** (`src/App.tsx`). A table of 15 currencies, each with a symbol, a name, a flag and three pre-formatted prices. A table of 45 country codes, each mapped to a currency code. The lookup `COUNTRY_TO_CURRENCY[country] ?? 'USD'`. The three pricing cards built from the active currency. The section's four state fields (`currencyCode`, `detectedCountry`, `loading`, `dropdownOpen`), changed by three events: the geo-lookup outcome, the dropdown toggle and a dropdown selection.
- **Contact form** (`src/components/ContactSection.tsx` and `src/components/ContactPage.tsx`). A four-field form and a four-valued status. The change, submit and "Send Another" handlers. What a settled POST does to the form and status, and what is shown in each status. The JSON body posted to the form service.
- **Word cycler** (`src/components/HookSection.tsx`). A fixed table of six words, each with one highlighted letter. An index that a timer tick advances modulo six.

## Modules

- `wrappers.dfy`: `Wrappers.Option`, which stands for JavaScript's `null`/`undefined`.
- `currency.dfy`: the two tables, their consistency, and `ResolveCurrency`.
- `pricing.dfy`:
  - the pricing cards and the currency menu;
  - the `PricingSection` class, with one method per event and functions for what it renders;
  - scenarios.
- `contact_form.dfy`: what both contact components share:
  - the form record, the status and the change update;
  - the settle rules and the view predicates;
  - the JSON object model `Body`, with `Serialize` (`JSON.stringify` of the form record) and its round-trip lemmas.
- `contact_section.dfy`, `contact_page.dfy`: one class per component. The two differ only in how they build the request body.
- `hook_section.dfy`: the word table, the tick and the highlighted letters.

Each event handler is a method of a class. It mutates that class's fields and states the whole new state in its `ensures`. Its `requires` is what the UI guarantees of the event: a dropdown click carries a key of the currency table, a select change carries one of its options, and a change event comes only while the form is on screen. Both renders and tables are functions, with their properties proved as lemmas. A scenario method builds a fresh component, drives it through a sequence of events and states what is then shown.

## Behaviour of note

- **A late geo result overwrites a manual choice.** `detect` calls `setCurrencyCode` whatever the visitor has already picked (src/App.tsx:90). `GeoSuccess` therefore overwrites `currencyCode` unconditionally, and `LateDetectionOverridesChoice` shows a manual INR choice replaced by a late German result.
- **The raw country is stored even when unmapped.** `setDetectedCountry(country)` runs before the lookup (src/App.tsx:88). So for an unknown code such as "XX", the "Auto-detected" line shows the US flag next to "XX" (`DetectedUnknownCountry`).
- **The currency lookup has no guard.** `CURRENCIES[currencyCode]` (src/App.tsx:100) is unguarded. It is defined only because `currencyCode` is always a key of the table. `PricingSection.Valid` states that invariant, and every event method preserves it.
- **The Euro row's Growth price is `'$549'`** (src/App.tsx:30), which has a dollar sign. `PricesCarryTheirSymbol` proves every other price starts with its currency's symbol, and `EuroGrowthPriceUsesDollar` pins down this single exception.

## Model

| member | source | states |
|---|---|---|
| Currency.TablesConsistent | src/App.tsx:28-57 | every currency named by the country table is a key of the currency table, and "USD" is a key |
| Currency.PricesNonEmpty | src/App.tsx:28-44 | every price of every currency is a non-empty string |
| Currency.PricesCarryTheirSymbol | src/App.tsx:28-44 | every price begins with its currency's symbol, except the Euro Growth price |
| Currency.EuroGrowthPriceUsesDollar | src/App.tsx:30 | the Euro Growth price is "$549" and does not begin with the euro symbol |
| Currency.CurrencyOrderIsTheTable | src/App.tsx:28-44 | the dropdown order lists exactly the keys of the currency table, each once |
| Currency.ResolveCurrency | src/App.tsx:89 | a known country gives its mapped currency; an unknown or absent country code gives "USD" |
| Currency.ResolvedCurrencyIsKnown | src/App.tsx:89-90 | whatever the country code, the resolved currency is a key of the currency table |
| Currency.GermanyResolvesToEuro | src/App.tsx:49 | "DE" resolves to "EUR" |
| Currency.EuroStarterAndFlag | src/App.tsx:30 | the Euro row's starter price is "€279" and its flag the EU flag |
| Currency.UnknownCountryIsUnmapped | src/App.tsx:47-57 | "XX" is not a key of the country table |
| Currency.UnknownCountryResolvesToDefault | src/App.tsx:89 | "XX" resolves to "USD" |
| Pricing.Plans | src/App.tsx:101-146 | three cards named Starter, Growth, Premium; card i carries price i of the currency; only Growth is featured |
| Pricing.CurrencyMenu | src/App.tsx:180-188 | one entry per currency in table order, with the table's flag and name; an entry is active iff its code is the selected one |
| Pricing.MenuHasOneActiveItem | src/App.tsx:183 | for a selected currency of the table exactly one entry is active |
| Pricing.PricingSection.constructor | src/App.tsx:77-80 | starts on "USD", no detected country, loading, dropdown closed; the active code is a table key |
| Pricing.PricingSection.GeoSuccess | src/App.tsx:87-94 | stores the raw country code, sets the resolved currency whatever was chosen, clears loading, leaves the dropdown alone; keeps the active code a table key |
| Pricing.PricingSection.GeoFailure | src/App.tsx:91-94 | clears loading and changes nothing else |
| Pricing.PricingSection.Toggle | src/App.tsx:166 | flips the dropdown and changes nothing else |
| Pricing.PricingSection.Select | src/App.tsx:180-184 | sets the chosen code and closes the dropdown; country and loading unchanged; the active code stays a table key |
| Pricing.PricingSection.Config | src/App.tsx:100 | the lookup of the active currency is defined and yields a row of the table |
| Pricing.PricingSection.ShownPrice | src/App.tsx:218 | a card shows the placeholder exactly while loading, otherwise the active currency's price for its tier |
| Pricing.PricingSection.AutoDetectedLine | src/App.tsx:157-160 | present iff loading is over and the detected code is non-empty; then shows the active currency's flag and the raw code |
| Pricing.PricingSection.Menu | src/App.tsx:172-184 | the currency menu of the active code while open, nothing while closed |
| Pricing.DetectedGermany | src/App.tsx:83-104 | a German visitor gets "EUR", a starter price of "€279" and an auto-detected line with the EU flag and "DE" |
| Pricing.DetectedUnknownCountry | src/App.tsx:83-104 | an unmapped country keeps "USD" and "$299", yet the auto-detected line shows the US flag and the raw "XX" |
| Pricing.DetectionFailed | src/App.tsx:91-104 | a failed lookup keeps "USD" and "$299" and shows no auto-detected line |
| Pricing.ChoseIndianRupee | src/App.tsx:34 | after choosing INR the cards show "₹9,999", "₹19,999", "₹34,999" |
| Pricing.LateDetectionOverridesChoice | src/App.tsx:88-90 | a German result arriving after a manual INR choice leaves "EUR" active |
| Pricing.ErrorAnswerResetsChoice | src/App.tsx:84-94 | an error answer without a country code resets a manual INR choice to "USD" with no auto-detected line, while a thrown lookup keeps "INR" |
| ContactForm.Key | src/components/ContactSection.tsx:137-180 | each field's input name is one of the four form keys |
| ContactForm.KeysDistinct | src/components/ContactSection.tsx:137-180 | two fields share an input name iff they are the same field |
| ContactForm.WithField | src/components/ContactSection.tsx:15-16 | a change event sets the named field to the value and leaves the other three unchanged |
| ContactForm.StatusAfter | src/components/ContactSection.tsx:35-43 | a settled submission gives success iff the response is ok, and error otherwise |
| ContactForm.FormAfter | src/components/ContactSection.tsx:35-43 | an ok response clears all four fields; a non-ok response or a throw keeps them |
| ContactForm.InitiallyConsistent | src/components/ContactSection.tsx:12-13 | the initial empty form in the idle status satisfies the component invariant |
| ContactForm.ViewsPartitionStatuses | src/components/ContactSection.tsx:104-207 | the success panel replaces the form; the error banner and the disabled button each go with one status; idle is the plain form |
| ContactForm.SubmitDisabled | src/components/ContactSection.tsx:207 | the submit button is disabled only while the form is on screen and never beside the error banner |
| ContactForm.ErrorBannerShown | src/components/ContactSection.tsx:191 | the error banner shows exactly in the status a failed submission leaves, and only with the form |
| ContactForm.SuccessPanelShown | src/components/ContactSection.tsx:104 | the success panel shows exactly in the status an ok response leaves |
| ContactForm.FormShown | src/components/ContactSection.tsx:104 | the form is on screen exactly while idle, sending or in error |
| ContactForm.Member | src/components/ContactPage.tsx:35 | looking a key up in a JSON object finds a value iff some member has that key, and the value found is that of the first member with that key |
| ContactForm.MemberNames | src/components/ContactPage.tsx:35 | the names of the members of a JSON object, in order |
| ContactForm.Members | src/components/ContactPage.tsx:35 | the object built from a list of fields has one member per field, keyed by the field's name and holding its value |
| ContactForm.Serialize | src/components/ContactPage.tsx:35 | `JSON.stringify(form)` has the member names name, email, project, message, in the record's order |
| ContactForm.SerializeCarriesTheForm | src/components/ContactPage.tsx:35 | the serialized form has exactly the members name, email, project, message, in that order; looking each key up yields the form's value for that field |
| ContactForm.MemberAtDistinctKey | src/components/ContactPage.tsx:35 | when no earlier member has the same key, looking up the key of member k yields member k's value |
| ContactForm.SerializedMemberAt | src/components/ContactPage.tsx:35 | looking up a field's key in the serialized form yields that field's value |
| ContactForm.SerializeInjective | src/components/ContactPage.tsx:35 | two forms with the same body are equal, so the body loses nothing of the form |
| ContactForm.ProjectMemberIsAnOption | src/components/ContactSection.tsx:168-172 | in a reachable state the posted project member is the form's project, one of the select's five options |
| ContactSection.RequestBody | src/components/ContactSection.tsx:27-32 | the body built member by member is the same JSON object as the serialized form record |
| ContactSection.ContactSection.constructor | src/components/ContactSection.tsx:12-13 | four empty fields and status idle |
| ContactSection.ContactSection.HandleChange | src/components/ContactSection.tsx:15-16 | only the named field changes, the status stays |
| ContactSection.ContactSection.Submit | src/components/ContactSection.tsx:21-32 | status becomes sending, the form is untouched, the posted body carries the current form's four fields, and its project member is one of the select's options |
| ContactSection.ContactSection.Settle | src/components/ContactSection.tsx:35-43 | ok gives success with the form cleared; not-ok or a throw gives error with the form kept |
| ContactSection.ContactSection.SendAnother | src/components/ContactSection.tsx:115-117 | status becomes idle; after a success the form is empty |
| ContactSection.SendThenSendAnother | src/components/ContactSection.tsx:12-117 | filling four fields and sending posts those four values, shows the success panel with an empty form; "Send Another" returns to an empty idle form |
| ContactPage.ContactPage.constructor | src/components/ContactPage.tsx:19-20 | four empty fields and status idle |
| ContactPage.RequestBody | src/components/ContactPage.tsx:35 | the posted body has the members name, email, project, message, in that order, and each key holds the form's value for that field |
| ContactPage.ContactPage.HandleChange | src/components/ContactPage.tsx:24-25 | only the named field changes, the status stays |
| ContactPage.ContactPage.Submit | src/components/ContactPage.tsx:30-35 | status becomes sending, the form is untouched, the posted body is the serialized form record, and its project member is one of the select's options |
| ContactPage.ContactPage.Settle | src/components/ContactPage.tsx:37-45 | ok gives success with the form cleared; not-ok or a throw gives error with the form kept |
| ContactPage.ContactPage.SendAnother | src/components/ContactPage.tsx:125 | status becomes idle; after a success the form is empty |
| ContactPage.FailThenRetry | src/components/ContactPage.tsx:30-45 | a failed send shows the error banner and keeps the form; the retry posts the same body, and an ok answer then clears the form |
| HookSection.HighlightsInRange | src/components/HookSection.tsx:5-12 | every highlight index lies inside its word |
| HookSection.HighlightedLetters | src/components/HookSection.tsx:6-11 | the highlighted letters are o, o, e, n, o, s |
| HookSection.WordTextsDistinct | src/components/HookSection.tsx:5-12 | no two words share a text, the text being the animation key |
| HookSection.Next | src/components/HookSection.tsx:19 | the next index is in range; it is one more, or 0 after the last word |
| HookSection.AdvanceIsModular | src/components/HookSection.tsx:19 | n ticks from index i land on (i + n) mod 6 |
| HookSection.SixTicksReturn | src/components/HookSection.tsx:19 | six ticks return to the starting word and fewer never do |
| HookSection.KeyChangesOnEveryTick | src/components/HookSection.tsx:19 | every tick changes the animation key |
| HookSection.Letters | src/components/HookSection.tsx:50 | one span per letter of the word, carrying that letter |
| HookSection.OneHighlighted | src/components/HookSection.tsx:51 | a span list whose only flagged position is `at` has one highlighted span |
| HookSection.NoneHighlighted | src/components/HookSection.tsx:51 | a span list with no flagged position has no highlighted span |
| HookSection.ExactlyOneLetterHighlighted | src/components/HookSection.tsx:50-51 | a word with its highlight in range renders exactly one highlighted letter, the one at its index |
| HookSection.HookSection.constructor | src/components/HookSection.tsx:15 | the index starts at 0 |
| HookSection.HookSection.Tick | src/components/HookSection.tsx:18-19 | one tick moves the index to the next word and keeps it in range |
| HookSection.HookSection.Current | src/components/HookSection.tsx:43 | the word on show is a word of the table with its highlight in range |
| HookSection.HookSection.Display | src/components/HookSection.tsx:50-51 | the letters on show carry exactly one highlight |
| HookSection.FirstCycle | src/components/HookSection.tsx:5-19 | the section opens on "Emotion" with its "o" highlighted, shows "Curiosity" after one tick and "Emotion" again after six |

## Left out

- The network calls to the geo-IP service (src/App.tsx:85) and to the form service (src/components/ContactSection.tsx:24, src/components/ContactPage.tsx:32) are not modelled. Their outcomes become inputs: a country code option for the geo lookup, and ok / not-ok / threw for the POST.
- The parsing of the answer is not modelled. A `country_code` that is absent becomes `None`. A value that is not a string, or a key such as "constructor" that JavaScript would find on the object prototype, is not modelled.
- Asynchronous interleaving and unmounting are not modelled. Events are a sequence of discrete method calls, and each handler is split at its `await`: `Submit` runs first, then `Settle`.
- Timing is not modelled: the 2.5-second `setInterval` and its cleanup (src/components/HookSection.tsx:18-21). Only the tick step is modelled.
- These parts have no logic to model and are left out:
  - `src/components/Logo.tsx`, which is SVG markup with floating-point sizing;
  - the JSX layout, the animation properties, the routes and the static copy;
  - each plan's description and feature list.
- HTML form validation (`required`, `type="email"`) is not modelled, because the browser does it.
- ContactSection.ContactSection.HandleChange and ContactPage.ContactPage.HandleChange require the form to be on screen, that is, a status other than success. The inputs are unmounted while the success panel shows, so change events are assumed only then. The form's exit animation under `AnimatePresence mode="wait"`, during which its inputs briefly stay mounted, is not modelled.
- The geo lookup never checks `res.ok` (src/App.tsx:85-86). Any answer whose body parses as JSON counts as a success, and an error answer without a `country_code` counts as `GeoSuccess(None)`. That resets a manual choice to "USD", where a thrown lookup (`GeoFailure`) keeps it. The model covers this case only because the outcome is an input; `ErrorAnswerResetsChoice` shows it.
- `ContactForm.Body` is the ordered list of members standing for the JSON text that `JSON.stringify` produces. String escaping and the text encoding are not modelled.
- `ContactForm.Consistent` and the class invariants assume the project select emits only its options. `HandleChange` therefore requires that of a project change.
- The country table is one literal in the source but two map displays here. The verifier does not fully unfold a single map display of 45 entries, so the table is written as the union of its first 20 and its last 25 entries. The entries and their order follow the source.
