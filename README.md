# Artistly: a Dafny model of the site's decision logic

Artistly is a small marketing and lead-intake site for a talent-booking
business. This project models the parts of it that make decisions:

- **Artist directory** (`Artists`). A fixed list of artists is narrowed by
  category, location and price range. A numeric `category` query parameter
  takes precedence over the category picked in the drop-down. The drop-down
  option lists are the distinct values of the full list, in first-occurrence
  order (`Sequences.Distinct`). A URL effect copies the URL category's name
  into the drop-down, and "Reset Filters" clears all three selections. The
  filter is modelled twice. `ArtistPage.FetchArtists` reassigns `filtered`
  one `.filter` stage at a time, as the page does. `Matching` is a single-pass
  reference that keeps the artists meeting every active criterion. The method
  is proved equal to the reference, and the lemmas about the reference give
  subsequence, exact membership, precedence and idempotence.
- **Onboarding form** (`Onboarding`, `Submissions`). `OnboardForm` is a class
  that holds the form record, the error object (keyed by the `Field` datatype, whose
  `FieldKey` is the JavaScript key) and local storage. Field and
  check-box handlers update one field and clear only that field's error. The
  validator has six rules. The submit step builds a payload (the image is kept
  only by file name, or `"N/A"`), appends it to the list stored under
  `"artistSubmissions"`, and resets the form.
- **Dashboard** (`Dashboard`). It loads the stored list (a missing key leaves
  it empty), shows "No submissions yet" exactly when that list is empty, and
  colours category badges with a total lookup that has a default.
- **Form field** (`FormField`). The label rule adds exactly one `*` unless the
  label already ends in one. The component renders supplied children or a
  default input whose type defaults to `"text"`. The red border and the error
  message appear exactly when the error is truthy.
- **Header** (`Header`). It maps each navigation item to its href. The menu
  button toggles the mobile menu, and a mobile link click closes it.

Local storage is a `map<string, seq<Submission>>`: the stored JSON text is
treated as already decoded. The code does not guard its storage reads:
`JSON.parse` throws on corrupt text. Stored lists here are already decoded, so
that case does not arise. The artist sample data lives in a module that is
not part of this model, so it is a parameter (`ArtistPage.all`). The query
parameter is a field of the page (`ArtistPage.categoryParam`: `None` when it
is absent). `ChangeQuery` models a client-side navigation that changes only
the query string while the page stays mounted.

When a URL id is present, the code keeps filtering by it even after the
drop-down is set to "All Categories". `UrlIdOverridesSelectedCategory` states
that behaviour.

## Model

| member | source | states |
|---|---|---|
| `Sequences.Distinct` | src/app/artists/ArtistClient.js:20-26 | the option list built through a `Set` has no duplicates and holds exactly the values of its input |
| `Sequences.DistinctInFirstOccurrenceOrder` | src/app/artists/ArtistClient.js:20-26 | option values appear in the order in which they first occur in the full list |
| `Sequences.DistinctOrderAt` | src/app/artists/ArtistClient.js:20-26 | of two distinct values, the earlier one occurs in the input before any occurrence of the later one |
| `Sequences.FirstIndex` | src/app/artists/ArtistClient.js:20-26 | the first-occurrence position holds the value and no earlier position does |
| `Artists.CategoryOptions` | src/app/artists/ArtistClient.js:20-22 | the category options are duplicate-free and are exactly the category names of the full list |
| `Artists.LocationOptions` | src/app/artists/ArtistClient.js:23 | the location options are duplicate-free and are exactly the locations of the full list |
| `Artists.PriceRangeOptions` | src/app/artists/ArtistClient.js:24-26 | the price options are duplicate-free and are exactly the price ranges of the full list |
| `Artists.CategoryOptionsInOrder` | src/app/artists/ArtistClient.js:20-22 | an earlier category option belongs to an artist that comes before every artist with a later one |
| `Artists.LocationOptionsInOrder` | src/app/artists/ArtistClient.js:23 | an earlier location option belongs to an artist that comes before every artist with a later one |
| `Artists.PriceRangeOptionsInOrder` | src/app/artists/ArtistClient.js:24-26 | an earlier price option belongs to an artist that comes before every artist with a later one |
| `Artists.OptionsCoverFiltered` | src/app/artists/ArtistClient.js:20-26 | options come from the unfiltered list, so every listed artist's values stay selectable |
| `Artists.CategoryIdParam` | src/app/artists/ArtistClient.js:46 | an id exists only for a present, non-empty, numeric parameter, and is its parsed value |
| `Artists.ParseInteger` | src/app/artists/ArtistClient.js:29-31 | `Number()` on an optionally signed run of decimal digits: a number exactly for such strings, the digits' value when unsigned or with `+`, its negation with `-` |
| `Artists.CategoryIdParamRoundTrip` | src/app/page.js:166 | a category link written with an id `${n}` is read back by the directory as the id `n` |
| `Artists.FindByCategoryId` | src/app/artists/ArtistClient.js:30-32 | returns the first artist with the id, or nothing when no artist has it |
| `Artists.ResolvedCategory` | src/app/artists/ArtistClient.js:28-37 | the drop-down category after the URL effect is either unchanged or the category name of some artist whose id is the URL id |
| `Artists.ResolvedCategorySpec` | src/app/artists/ArtistClient.js:28-37 | the drop-down takes the category name of the first artist with the URL id; with no id, a non-numeric one, or no such artist it is unchanged |
| `Artists.ArtistPage.ResolveUrlCategory` | src/app/artists/ArtistClient.js:28-37 | the URL effect sets only the selected category, to the resolved name |
| `Artists.Keep` | src/app/artists/ArtistClient.js:47-65 | one filter stage returns a subsequence of its input holding exactly the artists that satisfy the stage's condition |
| `Artists.Matching` | src/app/artists/ArtistClient.js:44-66 | the reference filter returns a subsequence holding exactly the artists that satisfy every criterion |
| `Artists.KeepCounts` | src/app/artists/ArtistClient.js:47-65 | a stage keeps every copy of an artist that satisfies its condition and no copy of any other |
| `Artists.MatchingCounts` | src/app/artists/ArtistClient.js:44-66 | the reference filter keeps every copy of an artist that meets all criteria and no copy of any other |
| `Artists.ActiveCriteriaMeaning` | src/app/artists/ArtistClient.js:46-66 | the stages that run are the URL-id stage, or else a non-empty category name, then non-empty location and price |
| `Artists.KeepAfterMatching` | src/app/artists/ArtistClient.js:44-66 | running one more stage after earlier ones is the same as one pass with all of them |
| `Artists.ArtistPage.FetchArtists` | src/app/artists/ArtistClient.js:40-70 | the stage-by-stage reassignment leaves the listed artists equal to the reference filter, clears loading and keeps the selections |
| `Artists.Filtered` | src/app/artists/ArtistClient.js:44-66 | what the directory shows keeps the original order and holds exactly the artists that meet every active rule (the URL id, else a selected category, then location and price) |
| `Artists.FilteredCounts` | src/app/artists/ArtistClient.js:44-66 | every copy of a qualifying artist is shown and no copy of any other |
| `Artists.FilteredWithoutCriteria` | src/app/artists/ArtistClient.js:44-66 | with no URL id and all three selections `""`, the whole list is shown |
| `Artists.UrlIdOverridesSelectedCategory` | src/app/artists/ArtistClient.js:46-54 | with a numeric id, every result has that id and the selected category (even `""`) does not change the result |
| `Artists.SelectedCategoryWithoutUrlId` | src/app/artists/ArtistClient.js:50-54 | with no usable id and a non-empty drop-down category, every result has that category name |
| `Artists.LocationAndPriceMatched` | src/app/artists/ArtistClient.js:56-66 | non-empty location and price selections are matched exactly by every result |
| `Artists.MatchingIdempotent` | src/app/artists/ArtistClient.js:44-66 | filtering a filtered list with the same criteria changes nothing |
| `Artists.FilteredIdempotent` | src/app/artists/ArtistClient.js:44-66 | re-applying the page's criteria to what it shows gives the same list |
| `Artists.ArtistPage.HandleReset` | src/app/artists/ArtistClient.js:81-85 | reset sets all three selections to `""` and nothing else |
| `Artists.ArtistPage.SelectCategory` | src/app/artists/ArtistClient.js:108 | choosing a category changes only the category selection |
| `Artists.ArtistPage.SelectLocation` | src/app/artists/ArtistClient.js:126 | choosing a location changes only the location selection |
| `Artists.ArtistPage.SelectPriceRange` | src/app/artists/ArtistClient.js:144 | choosing a price range changes only the price selection |
| `Artists.ArtistPage.constructor` | src/app/artists/ArtistClient.js:11-18 | the page starts with the full list, loading, and every selection `""` |
| `Artists.ArtistPage.ChangeQuery` | src/app/artists/ArtistClient.js:13-14 | a new query string replaces only the parameter: the selections and the listed artists are kept while the page stays mounted |
| `Artists.ArtistPage.NavigateWithQuery` | src/app/artists/ArtistClient.js:28-79 | after a query change both effects run: the drop-down takes the newly resolved name or keeps the old one, and the list is filtered by the new parameter and the current selections |
| `Artists.Heading` | src/app/artists/ArtistClient.js:93 | the heading is the selected category when one is selected and "All Artists" otherwise; never empty |
| `Artists.Results` | src/app/artists/ArtistClient.js:166-177 | the spinner shows while loading; "No artists found" shows exactly when loading is over and the list is empty |
| `Onboarding.Without` | src/app/onboard/page.js:40 | unticking drops every occurrence of the value and keeps every copy of the other values, in order |
| `Onboarding.Toggle` | src/app/onboard/page.js:39-41 | a click flips whether the value is ticked and leaves every other value's membership unchanged |
| `Onboarding.WithText` | src/app/onboard/page.js:30-32 | the spread update sets the named text field to the value and keeps every other field |
| `Onboarding.WithList` | src/app/onboard/page.js:42 | the spread update sets the named check-box list and keeps every other field |
| `Onboarding.ToggleAbsentAppends` | src/app/onboard/page.js:39-41 | ticking an absent value appends it at the end |
| `Onboarding.TogglePresentRemoves` | src/app/onboard/page.js:39-41 | toggling a present value removes all its occurrences and keeps the rest in order |
| `Onboarding.ToggleTwiceRestores` | src/app/onboard/page.js:39-41 | ticking an absent value and toggling it again restores the original list |
| `Onboarding.Cleared` | src/app/onboard/page.js:35 | the field's error is cleared (to `null`) only when it was set; every other key and error is unchanged |
| `Onboarding.OnboardForm.HandleInputChange` | src/app/onboard/page.js:27-36 | a file input sets only the image, any other input only its named field, and only that key's error is cleared |
| `Onboarding.OnboardForm.HandleCheckboxChange` | src/app/onboard/page.js:38-45 | only the named list is toggled and only that list's error is cleared |
| `Onboarding.ValidationErrors` | src/app/onboard/page.js:47-56 | the error keys are exactly the empty ones among name, bio, category, languages, feeRange and location, each with its own message; the image never fails |
| `Onboarding.Message` | src/app/onboard/page.js:49-55 | every required field's validation message is non-empty, so it is displayed |
| `Onboarding.FieldNamed` | src/app/onboard/page.js:27-28 | an input's `name` attribute picks out the form field whose key it is, and only that one |
| `Onboarding.NoErrorsIffComplete` | src/app/onboard/page.js:57-58 | validation passes, the error object being empty, exactly when all six required fields are filled |
| `Onboarding.EmptyFormFailsEveryRule` | src/app/onboard/page.js:12-20 | the initial empty record fails all six rules |
| `Onboarding.OnlyNameMissing` | src/app/onboard/page.js:49 | a form whose only empty field is the name reports an error for the name field alone |
| `Onboarding.OnboardForm.Validate` | src/app/onboard/page.js:47-59 | errors become the validator's messages and the result is true exactly when there are none |
| `Onboarding.ImageName` | src/app/onboard/page.js:67 | the stored image is the file's non-empty name, otherwise "N/A"; never empty |
| `Onboarding.Payload` | src/app/onboard/page.js:65-68 | the stored image name is never empty, and the payload is well-formed exactly when the form passes validation |
| `Onboarding.PayloadSpec` | src/app/onboard/page.js:65-68 | the payload copies every field but the image, which it keeps by name |
| `Onboarding.OnboardForm.HandleSubmit` | src/app/onboard/page.js:61-90 | a failed validation changes only the errors; a passing one appends the payload to the stored list, resets the form and shows the thanks |
| `Onboarding.OnboardForm.constructor` | src/app/onboard/page.js:12-24 | the form starts from the empty record with no errors |
| `Onboarding.SubmitAgainAfterReset` | src/app/onboard/page.js:79-87 | after a successful submit the reset form fails validation, so a second submit stores nothing more |
| `Submissions.Appended` | src/app/onboard/page.js:70-76 | the append writes only the submissions key and leaves every other key as it was |
| `Submissions.Stored` | src/app/onboard/page.js:70-72 | a missing key reads as the empty list; a present key reads as its stored list |
| `Submissions.AppendedThenStored` | src/app/onboard/page.js:70-76 | the stored list becomes the old one plus the payload: one longer, earlier entries unchanged, payload last |
| `Submissions.AppendToMissingKey` | src/app/onboard/page.js:70-72 | a missing key reads as `[]`, so the first append stores a one-element list |
| `Submissions.TwoAppendsInOrder` | src/app/onboard/page.js:70-76 | two successive appends store both submissions in submission order |
| `Submissions.AppendKeepsWellFormed` | src/app/onboard/page.js:63-76 | appending a complete submission keeps every stored submission well-formed |
| `Dashboard.DashboardPage.constructor` | src/app/dashboard/page.js:7 | the dashboard starts with an empty list |
| `Dashboard.DashboardPage.LoadStored` | src/app/dashboard/page.js:9-14 | a present key's list is loaded as stored; a missing key leaves the list as it was |
| `Dashboard.OpenDashboard` | src/app/dashboard/page.js:7-14 | the mounted dashboard shows the stored list, empty when the key is missing |
| `Dashboard.ViewOf` | src/app/dashboard/page.js:51 | "No submissions yet" shows exactly when the list is empty; otherwise the cards in stored order |
| `Dashboard.SubmissionShownLast` | src/app/dashboard/page.js:66 | a new submission appears as the last card, after the earlier ones in order |
| `Dashboard.ListedCategoryColors` | src/app/dashboard/page.js:17-23 | Singer, Musician, Band, DJ and Dancer get their listed classes |
| `Dashboard.CategoryColor` | src/app/dashboard/page.js:16-25 | a listed category gets its listed classes, and a category gets the default exactly when it is not listed |
| `Dashboard.OnboardingCategoryColors` | src/app/dashboard/page.js:16-25 | of the form's categories, Singer, DJ and Dancer get their own colour; Comedian, Speaker and Actor get the default |
| `FormField.LabelText` | src/app/components/FormField.js:13 | the shown label ends in `*`; a label ending in `*` is unchanged, any other gets one `*` appended |
| `FormField.LabelAddsAtMostOneStar` | src/app/components/FormField.js:13 | the shown label is the given one followed by at most one character |
| `FormField.LabelIdempotent` | src/app/components/FormField.js:13 | applying the label rule twice equals applying it once |
| `FormField.BorderClass` | src/app/components/FormField.js:22-24 | the border is red exactly when the error is truthy |
| `FormField.Render` | src/app/components/FormField.js:1-29 | supplied children replace the input; otherwise an input with type defaulting to "text"; the message shows exactly when the error is truthy |
| `Header.ToLower` | src/app/components/Header.js:71 | lowering keeps the length, turns each upper-case letter into its lower-case partner and touches nothing else |
| `Header.Href` | src/app/components/Header.js:71 | "Home" maps to "/", any other item to "/" plus its lowered name; every href starts with "/" |
| `Header.NavHrefs` | src/app/components/Header.js:19 | the four items map to "/", "/artists", "/onboard" and "/dashboard" |
| `Header.LinksOf` | src/app/components/Header.js:62-78 | one link per item, in item order, each with the item's href |
| `Header.DesktopNav` | src/app/components/Header.js:62-78 | the desktop bar has one link per navigation item, in order, labelled with the item and pointing to an absolute path |
| `Header.MobileNav` | src/app/components/Header.js:81 | the mobile menu renders no links while it is closed |
| `Header.MenusAgree` | src/app/components/Header.js:88-97 | the open mobile menu has the same links as the desktop bar, in `navItems` order |
| `Header.HeaderState.constructor` | src/app/components/Header.js:8 | the menu starts closed |
| `Header.HeaderState.ToggleMenu` | src/app/components/Header.js:40 | the menu button flips the menu state |
| `Header.HeaderState.ClickMobileLink` | src/app/components/Header.js:93 | clicking a mobile link always closes the menu |
| `Header.ToggleTwice` | src/app/components/Header.js:40 | pressing the button twice restores the menu state |

## Left out

- Artificial delays: the 500 ms filter timer and the 1 s redirect timer are not modelled. `FetchArtists` applies the filter at once, and the `loading` flag has no timing.
- Navigation after submit (`router.push("/dashboard")`) is a side effect of the router and is not modelled.
- Rendering libraries: animations, `Image`/`Link`/`Suspense`, and every CSS class except the error border are out of scope.
- Browser events: the header's scroll listener and its `scrolled` flag, and the image preview made with `URL.createObjectURL`, are not modelled.
- The onboarding category drop-down's open/closed flag is left out. It is a presentation toggle with no effect on the data.
- The home page (src/app/page.js) is left out. It is rendering plus a timer that copies categories from a data module. Only its category link format is used, in `CategoryIdParamRoundTrip`.
- The artist and category sample data module is not part of this model. The artist list is a parameter, so nothing ties an artist's category id to its category name.
- JSON encoding of storage is not modelled. Stored lists are typed values, and a failed storage write (quota exceeded) is not modelled.
- Artists.CategoryIdParam: models JavaScript `Number()` only on optionally signed decimal integers. Hex, binary (`0b`) and octal (`0o`) literals, surrounding whitespace, exponents, `Infinity` and fractions are treated as non-numeric. A whitespace-only parameter, which `Number` reads as 0 and so as id 0, gives no id in the model. Ids beyond 2^53, which `Number` rounds before the `===` comparison, are compared exactly. For a fraction such as "1.5", the code would filter by the fractional id and show nothing, while the model falls back to the drop-down category.
- Header.ToLower: lowers ASCII letters only, because `toLowerCase` performs full Unicode case mapping. All navigation items are ASCII.
- Dashboard.CategoryColor: does not model lookups of inherited object keys such as "constructor". The categories it is given come from the form's fixed check-box list.
- Onboarding.OnboardForm.HandleInputChange: requires that the input's name is a key of the form record and, for a non-file input, one of the four text fields. These are the only inputs wired to the handler; an arbitrary name would add a new key to the form and error objects, and the model keys both by the `Field` datatype.
- React state updates are modelled as immediate assignments. Batching and stale closures are not modelled, because each handler here reads the state once and writes it once.
