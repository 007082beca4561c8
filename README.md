# DwellDex rules, modelled in Dafny

DwellDex is a small React front end for a property-listing site. This project models the parts of it that are rules rather than markup, and proves properties of them:

- **The listing-submission wizard** (`MainFeature`). It has four steps over a draft listing. There is a validation per step, a Next button gated by that validation, and an unconditional Back button. Negative numbers are refused as they are typed. An amenity list toggles entries on and off. A submission resets the wizard once it completes. The component is the class `ListingWizard.Wizard`, with one method per event handler. Validation is the pure function `ListingWizard.ValidateStep` of the step and the draft.
- **The catalog** on the home page (`Home`). It shows a case-insensitive search over title and location, combined with a type button. `formatPrice` inserts thousands separators with a regular expression.
- **The detail page** (`PropertyDetail`). It looks a listing up by the id in the route and picks up to three similar listings.
- **The contact form** (`Contact`). It has four required fields, an anchored e-mail pattern and a minimum message length. Typing into a field clears that field's error, and the form resets after sending.
- **The neighbourhood guide** (`LocalityInsights`). It has a name search and the colour classes of the score rings.
- **The testimonial star row** (`Testimonials`). It always has five stars, filled up to the rating.

The JavaScript library behaviour these rules rest on is modelled in separate modules:

- `Text`:
  - `trim` over the ECMAScript white-space set;
  - `toLowerCase`;
  - `includes`.
- `Numbers`:
  - `toString` of a non-negative integer;
  - `parseFloat`, `parseInt` and `isNaN` over a decimal-numeral grammar.
- `Seqs`: `Array.prototype.filter`.
- `EmailPatterns`: the two e-mail regular expressions.
- `PriceFormat`: `formatPrice`. The regular-expression replace is modelled position by position. It is then proved equal to grouping digits in threes from the right.

The two numeric readers behave differently:

- `parseFloat` reads the longest numeral at the start of the text.
- `parseInt` reads only the sign and the whole-number digits.
- `isNaN` accepts the empty text, or a text that is one numeral from end to end.

Bedrooms are validated with `parseInt` and the other numeric fields with `parseFloat`. As a result, "0.5" is refused as a number of bedrooms but accepted as a number of bathrooms. ".5" is accepted as a number of bedrooms, because `parseInt(".5")` is NaN and a comparison with NaN is false.

## Model

| member | source | states |
|---|---|---|
| Text.TrimStartRemovesSpace | src/components/MainFeature.jsx:106 | the leading part `trim` removes is all white space, and what remains is a suffix that does not start with white space |
| Text.TrimEndRemovesSpace | src/components/MainFeature.jsx:106 | the trailing part `trim` removes is all white space, and what remains is a prefix that does not end with white space |
| Text.TrimBlank | src/components/MainFeature.jsx:106-109 | `!s.trim()` holds exactly when every character of `s` is white space, including for the empty string |
| Text.Trim | src/components/MainFeature.jsx:106 | `trim` never lengthens a string, and a non-empty result neither starts nor ends with white space |
| Text.ToLower | src/pages/Home.jsx:111-112 | `toLowerCase` keeps the length, turns every ASCII capital into its small letter (code point plus 32), and keeps every other character |
| Text.ToLowerEqualIff | src/pages/Home.jsx:111-112 | two texts lowercase alike iff they have the same length and differ position by position at most in ASCII case |
| Text.ToLowerSameIgnoringCase | src/pages/Home.jsx:111-112 | a text and its lowercase differ only in ASCII case |
| Text.Includes | src/pages/Home.jsx:111-112 | every string includes the empty text, and includes only texts no longer than itself |
| Text.IncludesExtended | src/pages/Home.jsx:111-112 | a text included in a string stays included when the string is extended on either side |
| Text.Utf16Length | src/pages/Contact.jsx:61 | `length` counts between one and two code units per character |
| Text.Utf16LengthOfBmp | src/pages/Contact.jsx:61 | on characters of the Basic Multilingual Plane, `length` is the number of characters |
| Numbers.NatToStringValue | src/pages/Home.jsx:119 | the digits `toString` prints for a non-negative integer read back as that integer |
| Numbers.CanonicalRoundTrip | src/pages/PropertyDetail.jsx:159 | every digit string without a superfluous leading zero is what `toString` prints for its value |
| Numbers.NatToStringInjective | src/pages/PropertyDetail.jsx:159 | two ids print the same exactly when they are equal |
| Numbers.ParseFloatSign | src/components/MainFeature.jsx:66 | `parseFloat(s) > 0` iff `s` starts with an unsigned or `+` numeral that has a non-zero digit; `parseFloat(s) < 0` iff it starts with a `-` numeral that has a non-zero digit |
| Numbers.WholeValuePositive | src/components/MainFeature.jsx:119 | the whole-number part that `parseInt` reads is positive iff it has a non-zero digit |
| Numbers.ParseFloat | src/components/MainFeature.jsx:66 | `parseFloat` gives a number iff the text starts with a numeral, and a negative number only for a text starting with `-` |
| Numbers.ParseInt | src/components/MainFeature.jsx:119 | `parseInt` gives a number only where `parseFloat` does, and a negative one only for a text starting with `-` |
| Numbers.IsNaN | src/components/MainFeature.jsx:115-127 | a non-empty text that `isNaN` accepts as a number has a `parseFloat` reading |
| Seqs.FilterIsSubsequence | src/pages/Home.jsx:110-115 | `filter` keeps the elements that pass in their original order |
| Seqs.FilterCount | src/pages/Home.jsx:110-115 | `filter` keeps every copy of a value that passes and no copy of one that fails |
| Seqs.FilterCongruent | src/pages/Home.jsx:110-115 | two tests that agree on every element of a list filter it alike |
| Seqs.FilterIdempotent | src/pages/Home.jsx:110-115 | filtering a filtered list again with the same test changes nothing |
| Seqs.FilterNoDuplicates | src/components/MainFeature.jsx:89 | filtering a list without duplicates gives a list without duplicates |
| EmailPatterns.StrictImpliesLoose | src/pages/Contact.jsx:51 | every address the contact-page pattern accepts is accepted by the wizard's `\S+@\S+\.\S+` |
| EmailPatterns.StrictShape | src/pages/Contact.jsx:51 | an accepted contact address has exactly one `@`, and a final label of 2 to 4 letters after its last `.` |
| EmailPatterns.PatternsDiffer | src/components/MainFeature.jsx:135 | the unanchored wizard pattern accepts "a@b.c" and " jo@site.com", which the anchored contact pattern refuses |
| EmailPatterns.LooseNeedsDomain | src/components/MainFeature.jsx:135 | the wizard pattern refuses "a@.com" |
| ListingWizard.Draft.Set | src/components/MainFeature.jsx:69-72 | setting one input changes that input only and keeps the amenities |
| ListingWizard.FloatRejectedIff | src/components/MainFeature.jsx:114-116 | the `parseFloat` test rejects a value iff it is not a numeral with no minus sign and a non-zero digit |
| ListingWizard.IntRejectedIff | src/components/MainFeature.jsx:118-120 | the `parseInt` test for bedrooms rejects a value iff it is not a numeral whose whole part is positive or empty |
| ListingWizard.StepOf | src/components/MainFeature.jsx:247-598 | every input belongs to one of steps 1 to 3, the step on which it is rendered |
| ListingWizard.DetailsErrors | src/components/MainFeature.jsx:105-110 | step 1 reports only title, description, type and location, each with its "is required" message |
| ListingWizard.FeaturesErrors | src/components/MainFeature.jsx:113-129 | step 2 reports only price, bedrooms, bathrooms and area, each with its "is required" or "must be a positive number" message |
| ListingWizard.ContactStepErrors | src/components/MainFeature.jsx:132-142 | step 3 reports only the e-mail and the phone, each with its "is required" or "is invalid" message |
| ListingWizard.ValidateStep | src/components/MainFeature.jsx:101-145 | at any step other than 1, 2 and 3, validation reports nothing, and every field a step reports belongs to that step |
| ListingWizard.DetailsReadOnlyStepOne | src/components/MainFeature.jsx:105-110 | step 1's report depends only on title, description, type and location |
| ListingWizard.FeaturesReadOnlyStepTwo | src/components/MainFeature.jsx:113-129 | step 2's report depends only on price, bedrooms, bathrooms and area |
| ListingWizard.ContactStepReadOnlyStepThree | src/components/MainFeature.jsx:132-142 | step 3's report depends only on the e-mail and the phone |
| ListingWizard.ValidateStepIgnoresOtherSteps | src/components/MainFeature.jsx:101-145 | editing an input of another step leaves a step's report as it was |
| ListingWizard.ValidateStepIgnoresAmenities | src/components/MainFeature.jsx:101-145 | the amenities are not validated: changing them leaves every step's report as it was |
| ListingWizard.DetailsChecked | src/components/MainFeature.jsx:105-110 | step 1 reports a field iff it is one of title, description and location and is blank, or it is the type and none is chosen; each such report is the field's "is required" message |
| ListingWizard.FeaturesChecked | src/components/MainFeature.jsx:113-129 | step 2 reports price, bathrooms and area iff they are not positive numerals, bedrooms iff its `parseInt` reading is not accepted, and no other field; an empty input gets its "is required" message, any other its "must be a positive number" message |
| ListingWizard.ContactStepChecked | src/components/MainFeature.jsx:132-142 | step 3 reports the e-mail iff it is blank (as required) or contains no `\S+@\S+\.\S+` match (as invalid), the phone iff it is blank, and no other field |
| ListingWizard.MissingTitleOnly | src/components/MainFeature.jsx:105-110 | a step-1 draft with a type, location and description but no title is reported for its title only |
| ListingWizard.HalfBedroomRefused | src/components/MainFeature.jsx:115-123 | "0.5" is refused as bedrooms and accepted as bathrooms |
| ListingWizard.PointFiveBedroomsAccepted | src/components/MainFeature.jsx:118-120 | ".5" passes as bedrooms |
| ListingWizard.PreviewAlwaysValid | src/components/MainFeature.jsx:167-169 | validation at step 4 reports nothing, so a submission from the preview step proceeds |
| ListingWizard.RejectedAtEntryIff | src/components/MainFeature.jsx:64-67 | an edit of a numeric field is dropped iff the text starts with a minus sign and a numeral with a non-zero digit |
| ListingWizard.RejectedAtEntryExamples | src/components/MainFeature.jsx:66 | "-50" is dropped; "-", "-0" and "50" are kept |
| ListingWizard.Toggle | src/components/MainFeature.jsx:84-98 | after a toggle the amenity is listed iff it was not listed before, and every other amenity's membership is unchanged; an absent amenity is appended at the end of the unchanged list, and removing a present one removes every copy of it and keeps every other amenity, with its count, in its order |
| ListingWizard.ToggleKeepsNoDuplicates | src/components/MainFeature.jsx:84-98 | a toggle keeps the amenity list free of duplicates |
| ListingWizard.ToggleTwiceAbsent | src/components/MainFeature.jsx:84-98 | switching an absent amenity on and off again restores the list exactly |
| ListingWizard.ToggleTwicePresent | src/components/MainFeature.jsx:84-98 | switching a present amenity off and on again moves it to the end of the list |
| ListingWizard.Wizard.constructor | src/components/MainFeature.jsx:7-25 | the wizard starts on step 1 with an empty draft, no errors, no preview and no pending submission |
| ListingWizard.Wizard.HandleChange | src/components/MainFeature.jsx:61-81 | an edit of an input of the current step (each step renders only its own inputs, lines 247-598): a dropped numeric edit changes nothing; otherwise only the named input changes, and only its error is cleared to null, and only when one was shown; the earlier steps still pass |
| ListingWizard.Wizard.ToggleAmenity | src/components/MainFeature.jsx:84-98 | the amenity list becomes its toggle, nothing else changes, and the invariant (no duplicates, earlier steps pass) is kept |
| ListingWizard.Wizard.HandleNextStep | src/components/MainFeature.jsx:148-156 | with no errors the step goes up by exactly one; otherwise the step stays and the errors are stored; the step stays within 1 to 4 (Next is rendered on steps 1 to 3 only, lines 340, 492, 588), and every step before the new one has passed its validation |
| ListingWizard.Wizard.HandlePrevStep | src/components/MainFeature.jsx:159-161 | Back lowers the step by exactly one without validating; it stays within 1 to 4 (Back is rendered on steps 2 to 4 only, lines 485, 581, 755) |
| ListingWizard.Wizard.TogglePreview | src/components/MainFeature.jsx:613 | the step-4 switch flips the preview flag and nothing else |
| ListingWizard.Wizard.HandleSubmit | src/components/MainFeature.jsx:164-171 | with no errors the submission starts; otherwise the errors are stored and nothing starts; on step 4 it always starts, and the draft then passes steps 1 to 3 |
| ListingWizard.Wizard.CompleteSubmission | src/components/MainFeature.jsx:173-194 | the completed submission empties every input and the amenities, returns to step 1, and clears the preview and submitting flags |
| ListingWizard.EmptyDraftIsBlank | src/components/MainFeature.jsx:178-190 | every input of the reset draft is empty and no amenity is selected |
| ListingWizard.SubmitFlow | src/components/MainFeature.jsx:148-194 | Next three times, Submit and completion, on a draft that passes every step, end on step 1 with an empty draft |
| PriceFormat.SeparatorAtDigits | src/pages/Home.jsx:119 | in a string of digits, `\B(?=(\d{3})+(?!\d))` matches exactly at the inner positions a multiple of three from the end |
| PriceFormat.LastGroupSeparated | src/pages/Home.jsx:119 | in a digit string longer than three, the replace puts one comma right before the last three digits and none after |
| PriceFormat.InsertSeparatorsIsGroup | src/pages/Home.jsx:119 | on digits, the global replace equals grouping the digits in threes from the right |
| PriceFormat.GroupWellGrouped | src/pages/Home.jsx:119 | grouped digits have a leading group of 1 to 3 digits, exactly three digits after every comma, and no leading or trailing comma |
| PriceFormat.StripSeparated | src/pages/Home.jsx:119 | deleting the commas of a grouped prefix, a comma and three digits keeps the prefix's digits followed by the three digits |
| PriceFormat.StripGroup | src/pages/Home.jsx:119 | deleting the commas from grouped digits gives the digits back |
| PriceFormat.FormatPrice | src/pages/Home.jsx:118-120 | the shown price starts with "$" followed by at least one character |
| PriceFormat.FormatPriceRoundTrip | src/pages/Home.jsx:118-120 | `formatPrice` starts with "$"; the rest is well grouped, and without its commas it is the price's digits, which read back as the price |
| PriceFormat.FormatPriceExample | src/pages/PropertyDetail.jsx:176-178 | the villa's price 1250000 is shown as "$1,250,000" |
| Catalog.MatchesSearch | src/pages/Home.jsx:111-112 | the empty search text matches every listing; a listing matches only a search text no longer than its title or its location |
| Catalog.FilterProperties | src/pages/Home.jsx:110-115 | a listing is shown iff its lowercased title or location contains the lowercased search text and the type button is "all" or its type (`MatchesFilter`, line 113); the shown listings keep catalog order |
| Catalog.FilterPropertiesCounts | src/pages/Home.jsx:110-115 | a shown listing appears as many times as in the catalog, a hidden one not at all |
| Catalog.FilterIdempotent | src/pages/Home.jsx:110-115 | filtering the shown listings again with the same search and type shows the same listings |
| Catalog.EmptySearchShowsAll | src/pages/Home.jsx:110-115 | an empty search with "all" shows the listings unchanged |
| Catalog.SearchIgnoresCase | src/pages/Home.jsx:110-115 | two search texts that differ only in ASCII case ("CONDO", "Condo") show the same listings under any type button |
| Catalog.SearchAsLowercase | src/pages/Home.jsx:110-115 | a search text and its lowercase show the same listings |
| Catalog.CondoExample | src/pages/Home.jsx:110-115 | the "condo" button with an empty search shows only the Seattle condominium |
| Catalog.LoadListings | src/pages/Home.jsx:94-102 | the load timer installs the listings and ends loading, keeping the search and the type button |
| Catalog.View | src/pages/Home.jsx:224-315 | while loading the placeholders show; afterwards the grid shows exactly the filtered listings when there are any, and "No properties found" iff there are none |
| Catalog.FirstViewShowsAll | src/pages/Home.jsx:7-10 | the page opens on placeholders and, once loaded, shows every listing in the grid |
| PropertyDetail.FindFrom | src/pages/PropertyDetail.jsx:159 | returns the first index whose id prints as the route text, or none when no listing has that id |
| PropertyDetail.FindById | src/pages/PropertyDetail.jsx:159 | `find` returns the first listing whose id prints as the route text, and nothing iff no listing has that id |
| PropertyDetail.NonCanonicalRouteNotFound | src/pages/PropertyDetail.jsx:159 | a route with a leading zero, no digits or a non-digit finds no listing |
| PropertyDetail.FindOwnId | src/pages/PropertyDetail.jsx:159 | with distinct ids, every listing is found by its printed id |
| PropertyDetail.IsSimilar | src/pages/PropertyDetail.jsx:165 | a similar listing is never the found one, and every other listing with the found one's location is similar |
| PropertyDetail.AllSimilar | src/pages/PropertyDetail.jsx:164-165 | the filter keeps exactly the other listings that share the type or the location |
| PropertyDetail.Similar | src/pages/PropertyDetail.jsx:164-166 | at most three, exactly the first three (or all) qualifying listings in catalog order; none is the found listing and each shares its type or location |
| PropertyDetail.SimilarInCatalogOrder | src/pages/PropertyDetail.jsx:164-166 | the similar listings appear in catalog order |
| PropertyDetail.OnLoaded | src/pages/PropertyDetail.jsx:156-173 | loading ends whether or not a listing is found; a found listing is stored with its similar listings; otherwise both are left as they were |
| PropertyDetail.View | src/pages/PropertyDetail.jsx:192-235 | the placeholder shows iff loading; "Property Not Found" iff loaded with no listing; otherwise the stored listing |
| PropertyDetail.UnknownIdShowsNotFound | src/pages/PropertyDetail.jsx:156-173 | opened on an unknown id, the page ends on "Property Not Found" with no similar listings |
| PropertyDetail.VillaExample | src/pages/PropertyDetail.jsx:159-166 | route "1" finds the villa, whose similar listings are the two other houses |
| ContactForm.ContactMessage.Set | src/pages/Contact.jsx:28-31 | typing sets the named field and no other |
| ContactForm.FieldError | src/pages/Contact.jsx:42-63 | the check of a field reports, if anything, an error about that field |
| ContactForm.ContactErrors | src/pages/Contact.jsx:42-63 | every error in the map is filed under the field it is about |
| ContactForm.RequiredFieldsChecked | src/pages/Contact.jsx:45-57 | name and subject are reported, as required, iff they are blank |
| ContactForm.EmailChecked | src/pages/Contact.jsx:49-53 | the e-mail is reported as required when blank, and otherwise as invalid iff it does not match the anchored pattern |
| ContactForm.MessageChecked | src/pages/Contact.jsx:59-63 | the message is reported iff its trimmed length, in UTF-16 code units, is below 10: as required when blank, as too short otherwise |
| ContactForm.NoErrorsIffAcceptable | src/pages/Contact.jsx:42-67 | the error map is empty iff name and subject are not blank, the e-mail matches and the trimmed message is at least 10 UTF-16 code units long |
| ContactForm.EmojiMessageAccepted | src/pages/Contact.jsx:61 | a message of five emoji counts as 10 code units and is not reported |
| ContactForm.StrictNotBlank | src/pages/Contact.jsx:49-51 | an address the pattern accepts is never blank |
| ContactForm.PaddedEmailRefused | src/pages/Contact.jsx:51 | a stored address whose first character is a space is reported |
| ContactForm.ContactPage.constructor | src/pages/Contact.jsx:7-14 | the form starts empty, with no errors and nothing sending |
| ContactForm.ContactPage.HandleChange | src/pages/Contact.jsx:26-40 | typing sets only the named field, and resets only that field's error to "" when one was shown |
| ContactForm.ContactPage.Validate | src/pages/Contact.jsx:42-67 | stores the new error messages and returns true iff the form is acceptable |
| ContactForm.ContactPage.HandleSubmit | src/pages/Contact.jsx:69-74 | sending starts iff the form is acceptable; the errors are replaced by the new ones |
| ContactForm.ContactPage.CompleteSubmission | src/pages/Contact.jsx:76-85 | all four fields become "" and sending ends |
| Locality.NameMatches | src/pages/LocalityInsights.jsx:168 | the empty search text matches every neighbourhood; a neighbourhood matches only a search text no longer than its name |
| Locality.FilterNeighborhoods | src/pages/LocalityInsights.jsx:167-169 | a neighbourhood is shown iff its lowercased name contains the lowercased search text; the shown ones keep their order |
| Locality.EmptyTermShowsAll | src/pages/LocalityInsights.jsx:165-169 | an empty search shows every neighbourhood |
| Locality.FilterNeighborhoodsIgnoresCase | src/pages/LocalityInsights.jsx:167-169 | two search texts that differ only in ASCII case show the same cards |
| Locality.FilterNeighborhoodsCounts | src/pages/LocalityInsights.jsx:167-169 | a shown card appears as many times as in the guide, a hidden one not at all |
| Locality.FilterNeighborhoodsIdempotent | src/pages/LocalityInsights.jsx:167-169 | searching the shown cards again with the same text changes nothing |
| Locality.SetSearchTerm | src/pages/LocalityInsights.jsx:190 | typing in the search box never changes the selected neighbourhood |
| Locality.Select | src/pages/LocalityInsights.jsx:196-201 | a click on a shown card selects it and keeps the search text |
| Locality.SelectionMayBeHidden | src/pages/LocalityInsights.jsx:164-169 | the selected neighbourhood can be missing from the shown cards |
| Locality.ScoreColor | src/pages/LocalityInsights.jsx:120-126 | the class is "bg-secondary" iff the colour is "secondary", "bg-green-500" iff it is "green", and "bg-primary" otherwise, including when the colour is absent |
| Locality.CardRingColors | src/pages/LocalityInsights.jsx:221-223 | the safety, amenities and transit rings get the primary, secondary and green classes |
| Testimonials.RenderStars | src/pages/Testimonials.jsx:38-60 | the loop produces exactly five stars keyed 1 to 5 in order, the i-th filled iff i is at most the rating |
| Testimonials.FilledPrefix | src/pages/Testimonials.jsx:40-58 | the filled stars form a prefix of the row |
| Testimonials.FilledCountIsClamp | src/pages/Testimonials.jsx:40-58 | an integer rating r gives r filled and 5 - r empty stars, limited to 0..5 |
| Testimonials.HeroStars | src/pages/Testimonials.jsx:159 | `renderStars(5)` gives five filled stars |

## Left out

- JSX markup, CSS classes, framer-motion animation and icon lookup are left out. They are presentation only.
- The `setTimeout` delays are left out. Each completion (home load, detail load, wizard and contact submission) is one state update (`LoadListings`, `OnLoaded`, `CompleteSubmission`).
- Toasts, `window.print`, navigation and dark mode are left out. They are foreign UI calls.
- The wizard's own `formatPrice` (src/components/MainFeature.jsx:201-204) is left out. It relies on locale-dependent `toLocaleString` of a float.
- The static content pages About and Privacy are not part of this model.
- The `strokeDashoffset` of the score rings is left out. It is floating-point SVG geometry.
- There is no review-rating aggregation or half-star logic in the source, so none is modelled.
- `Numbers.ScanDecimal` models a simplified numeral grammar: sign, digits, point and digits. JavaScript's `parseFloat`/`Number` also accept surrounding white space, exponents, "Infinity" and (for `Number`) hexadecimal; these are not modelled. As a consequence, a price, bedrooms, bathrooms or area of "1e3", which a `type="number"` input can hold, is reported by the model as "must be a positive number", whereas the source accepts it (`isNaN("1e3")` is false and `parseFloat` reads 1000, src/components/MainFeature.jsx:115-127).
- `Numbers.NatToString` covers only the plain digit form of `toString`. Prices of 1e21 and above, which JavaScript prints with an exponent, are not modelled.
- `Text.ToLower` lowercases ASCII letters only. Other characters are kept as they are.
- Numeric inputs of `type="number"` are read as any text. The browser's sanitising of such inputs is not modelled.
- The e-mail inputs are `type="email"` (src/pages/Contact.jsx:217, src/components/MainFeature.jsx:524). The browser strips leading and trailing white space from their value; this is not modelled, and the stored e-mail is any text.
- ContactForm.ContactPage.HandleSubmit: on the contact page the browser's constraint validation also blocks the submission of a malformed address, since that form does not set `noValidate` (src/pages/Contact.jsx:186, 217). This is not modelled: `HandleSubmit` is modelled for every form. The wizard is not affected: its e-mail input exists only on step 3, whose buttons are all `type="button"` (src/components/MainFeature.jsx:565, 580, 587), while the only submit button is on step 4 (lines 760-761), which renders no input; so `ListingWizard.Wizard.HandleSubmit` accepting any e-mail is what the source does.
- Testimonials.RenderStars: the rating is an integer, as every testimonial's is in the source. Fractional ratings are not modelled.
- ListingWizard.Wizard.HandleSubmit: the method does not require step 4. The only submit button is on step 4, and there it is disabled while sending (lines 761-762), so the method requires only that no submission is pending.
- ListingWizard.Wizard: a submission in progress does not force step 4. The Back button stays enabled while sending, so this is not an invariant of the class.
- PropertyDetail.OnLoaded: a route change inside the page does not set `loading` back to true (the effect at lines 156-173 never does). When the new id is not found, the previous listing and its similar listings remain shown. The model keeps this behaviour as written.
