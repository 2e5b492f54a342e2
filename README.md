# Motorcycle dealership catalog: a Dafny model

This project models the client-side logic of a motorcycle dealership
website. The site is a Next.js application: a content management system
stores the motorcycles, and the browser renders a catalog page for each
brand, a used-bikes page, and a product page. The model covers:

- **The catalog grid** (`CatalogGrid`).
  - The filter bounds derived from the motorcycle list.
  - The filter record and search text, and the operations that change them: a range change, a brand toggle, clear all, and a new list.
  - The visible list the filters produce.
  - The sorted brand list of the sidebar.
- **The dual-handle range control** (`RangeSlider`). The two handles are kept in order by clamping each one against the other. The control also computes the track percentage and decides which input is on top.
- **The lead form** (`ConfiguratorForm`). A five-step wizard that asks about a trade-in, financing, contact details and pickup timing. Its step counter, answers and error message are modelled, together with the controls each step shows.
- **The photo carousel** (`ImageSlider`). A cyclic index over the images, the last direction, and a fullscreen flag.
- **The home page** (`page.tsx`). CMS feature sections merged into two built-in defaults, by position.
- **The root layout** (`layout.tsx`). The navigation bar's brand list: the distinct brands of new (not used) bikes.

Files:

- `wrappers.dfy`: `Option`.
- `collections.dfy`: the JavaScript array operations used here.
  - `filter`, with its order and count facts.
  - `Math.min` and `Math.max` of a list.
  - `Array.from(new Set(...))`, with its first-appearance order.
- `strings.dfy`: strings.
  - ASCII lower-casing.
  - `includes` (substring search).
  - The default `sort()`, as string order and insertion sort.
- `arithmetic.dfy`: small facts about integer division.
- `range_slider.dfy` (module `Slider`), `catalog.dfy` (module `Catalog`), `configurator.dfy` (module `Configurator`), `image_slider.dfy` (module `Gallery`), `homepage.dfy` (module `Homepage`), `layout.dfy` (module `Navigation`): the components.

Modelling choices:

- A React component becomes a Dafny class. Its `useState` variables are fields, and each event handler is a method that changes them. Derived values (`useMemo`) are pure functions of those fields.
- JavaScript truthiness is written out where the code relies on it:
  - An absent page `brand` is the empty string.
  - An absent `isUsed` is `false`.
  - `displacement || 0` reads an absent displacement as 0.
  - A CMS string counts only when it is present and not empty.
- A number is an unbounded integer. `Math.round(a / b)` of two integers is applied to the exact rational quotient, with halves rounded up.
- The current calendar year is a parameter.
- In the layout a failed CMS fetch is `None`, as the layout catches the error and keeps an empty list. On the home page `None` is a missing document (the query's `[0]` matched nothing). A failed fetch there throws and is not modelled.

Two behaviours of the code worth noting:

- `toggleBrand` changes the selection even on a brand page; only the UI hides the checkboxes there (src/components/CatalogGrid.tsx:277). `Catalog.BrandPageIgnoresSelection` proves that the selection then has no effect on the visible list.
- `handleFilterChange` does not clamp a range into the bounds; whatever the range control emits is stored (src/components/CatalogGrid.tsx:125-127). The ranges stay in order and inside the bounds only because each slider's track is the bound and the slider clamps its handles (src/components/CatalogGrid.tsx:310-316). `Catalog.CatalogGrid.SlideLow` and `SlideHigh` prove that composition for one drag. Each drag also leaves the slider `Valid()` with its track unchanged, so the invariant carries over to the next drag (`Catalog.CatalogGrid.SlideTwice`). The empty-list year bound (2000, current year) is an interval only from 2000 on, so the grid's invariant is established under that condition.

## Model

| member | source | states |
|---|---|---|
| Catalog.YearBounds | src/components/CatalogGrid.tsx:42-56 | An empty list gives (2000, current year). Otherwise the low end is the least year, and the high end the greatest, or least + 1 when all years agree. So low < high, and every year is inside. |
| Catalog.PriceBounds | src/components/CatalogGrid.tsx:42-60 | An empty list gives (0, 50000). Otherwise the low end is the least price, and the high end the greatest, or least + 1000 when all prices agree. Every price is inside. |
| Catalog.DisplacementBounds | src/components/CatalogGrid.tsx:42-64 | Only displacements above zero count. An empty list gives (50, 2000), and a list with none above zero gives (50, 1200). Otherwise the range spans them, widened by 100 when they all agree, and it covers every positive displacement. |
| Catalog.WidenSpans | src/components/CatalogGrid.tsx:48-64 | min/max of a non-empty list, with the max widened when it equals the min, is its span: low < high, and it covers every value. |
| Catalog.VisibleItems | src/components/CatalogGrid.tsx:87-123 | An item is visible exactly when it passes every check. The checks: the page brand (ignoring case); no used bikes on a brand page unless it is the used page; only used bikes on the used page; the search; the sidebar selection when there is no page brand; and the three inclusive ranges. The displacement range applies only to a positive displacement. |
| Catalog.VisibleInOrder | src/components/CatalogGrid.tsx:88 | The visible list is a subsequence of the catalog, in catalog order. Each kept item keeps its multiplicity; each dropped item has none. |
| Catalog.EmptySearchMatches | src/components/CatalogGrid.tsx:100-106 | An empty search matches every item. |
| Catalog.SearchIgnoresCase | src/components/CatalogGrid.tsx:100-104 | A query and its lower-cased form show the same list. |
| Catalog.DisplacementNotApplicable | src/components/CatalogGrid.tsx:118-119 | An item without a positive displacement is visible or not regardless of the displacement range. |
| Catalog.BrandPageIgnoresSelection | src/components/CatalogGrid.tsx:109 | On a brand page, replacing the sidebar selection changes nothing. |
| Catalog.ResetShowsPage | src/components/CatalogGrid.tsx:69-74 | With the ranges at the bounds, no brands selected and no search, the visible list is exactly the page's items. |
| Catalog.ResetOffered | src/components/CatalogGrid.tsx:261-266 | The Reset button is shown exactly when the filter record differs from the one `clearFilters` installs: a range away from its bound, or a brand selected. The search text plays no part. |
| Catalog.BoundsProper | src/components/CatalogGrid.tsx:42-64 | The price and displacement bounds are always proper intervals, and so is the year bound of a non-empty list. For an empty list the year bound is an interval exactly when the current year is 2000 or later, and a proper one exactly when it is after 2000. |
| Catalog.ResetWithin | src/components/CatalogGrid.tsx:69-74 | When the bounds are intervals, the reset filter record has every range in order and inside its bound. |
| Catalog.SetRangeWithin | src/components/CatalogGrid.tsx:125-127 | Storing a range that lies inside its bound keeps all three ranges inside their bounds. |
| Catalog.SetRange | src/components/CatalogGrid.tsx:125-127 | The named range takes the new value. The other ranges and the brand selection are unchanged. |
| Catalog.Toggled | src/components/CatalogGrid.tsx:129-138 | The toggled brand's membership flips, and every other brand's membership is unchanged. An absent brand is appended at the end. |
| Catalog.ToggleTwice | src/components/CatalogGrid.tsx:129-138 | Toggling twice restores membership. For a brand that was not selected, toggling twice restores the exact list. |
| Catalog.AvailableBrands | src/components/CatalogGrid.tsx:173-176 | Sorted and duplicate-free. It holds exactly the brands of the full list and depends on nothing else. |
| Catalog.CatalogGrid.constructor | src/components/CatalogGrid.tsx:37-74 | The grid starts with the ranges at the bounds, nothing selected and no search, so it shows the page's items. With a non-empty list or a year from 2000, every range is in order and inside its bound (`Valid()`). |
| Catalog.CatalogGrid.SetSearchQuery | src/components/CatalogGrid.tsx:37 | Only the search text changes, so `Valid()` is kept. |
| Catalog.CatalogGrid.HandleFilterChange | src/components/CatalogGrid.tsx:125-127 | The filter record becomes `SetRange` of the old record. Nothing else changes. A value inside its bound keeps `Valid()`. |
| Catalog.CatalogGrid.SlideLow | src/components/CatalogGrid.tsx:310-316 | A low-handle drag stores the pair the slider emits, (min(input, high), high). A slider in order whose track is the bound, moved to a point above the track's bottom, keeps the grid `Valid()`. The slider's track ends are unchanged, its low ref follows the new low value, and the slider stays `Valid()`. |
| Catalog.CatalogGrid.SlideHigh | src/components/CatalogGrid.tsx:310-316 | A high-handle drag stores (low, max(input, low)). Under the same conditions, with a point below the track's top, it keeps the grid `Valid()`. The track ends are unchanged, the high ref follows the new high value, and the slider stays `Valid()`. |
| Catalog.CatalogGrid.SlideTwice | src/components/CatalogGrid.tsx:310-316 | A low drag followed by a high drag on the same slider, each to a point on the track, leaves both the grid and the slider `Valid()`. |
| Catalog.CatalogGrid.ToggleBrand | src/components/CatalogGrid.tsx:129-138 | The selection becomes `Toggled` of the old one, the sidebar's brand list is unchanged, and `Valid()` is kept. |
| Catalog.CatalogGrid.ClearFilters | src/components/CatalogGrid.tsx:140-148 | Ranges go back to the bounds, the selection empties and the search clears. Afterwards the sidebar shows no Reset button and the page's items are all visible. With a non-empty list or a year from 2000, `Valid()` holds. |
| Catalog.CatalogGrid.ReceiveItems | src/components/CatalogGrid.tsx:77-84 | A new list recomputes the bounds and resets the three ranges to them. The brand selection and the search are kept. With a non-empty list or a year from 2000, `Valid()` holds. |
| Slider.RoundDiv | src/components/ui/RangeSlider.tsx:32 | `Math.round(n / d)`: the result r satisfies r <= n/d + 1/2 < r + 1, for either sign of d. |
| Slider.Percent | src/components/ui/RangeSlider.tsx:29-35 | 0 on a degenerate track. Otherwise the nearest integer to (v - min) / (max - min) × 100, halves rounded up. |
| Slider.PercentEnds | src/components/ui/RangeSlider.tsx:29-35 | On a non-degenerate track, min is at 0% and max at 100%. |
| Slider.PercentBounded | src/components/ui/RangeSlider.tsx:29-35 | A value on the track is between 0% and 100%. |
| Slider.PercentMonotone | src/components/ui/RangeSlider.tsx:29-35 | The percentage never decreases as the value grows. |
| Slider.LowInputZ | src/components/ui/RangeSlider.tsx:100 | The low input (z 50 or 30) is above the high input (z 40) exactly when its percentage exceeds 90, and below it otherwise. |
| Slider.RangeSlider.constructor | src/components/ui/RangeSlider.tsx:22-25 | Both shown values and both refs start from the `value` prop. |
| Slider.RangeSlider.MoveLow | src/components/ui/RangeSlider.tsx:93-98 | The low value becomes min(input, high), and the emitted pair is (new low, unchanged high). The ref follows; the high value is unchanged; the order low <= high is kept. |
| Slider.RangeSlider.MoveHigh | src/components/ui/RangeSlider.tsx:108-113 | The high value becomes max(input, low), and the emitted pair is (unchanged low, new high). The ref follows; the low value is unchanged; the order is kept. |
| Slider.RangeSlider.ReceiveProps | src/components/ui/RangeSlider.tsx:59-62 | A new `value` replaces both shown values unconditionally. The refs are untouched. |
| Configurator.Updated | src/components/ConfiguratorForm.tsx:122-123 | The named answer takes the new value. Every other answer and the photo are unchanged. |
| Configurator.ConfiguratorForm.constructor | src/components/ConfiguratorForm.tsx:59-71 | The form starts at step 1, with all answers empty, no photo and no error. |
| Configurator.ConfiguratorForm.HandleNext | src/components/ConfiguratorForm.tsx:76-87 | The step stays put while it is unanswered: steps 1, 2 and 4 leave everything unchanged. Step 3 with neither email nor phone also sets the contact error. Otherwise the error clears and the step grows by exactly one. |
| Configurator.ConfiguratorForm.HandleBack | src/components/ConfiguratorForm.tsx:89-91 | One step back when above step 1; at step 1 nothing changes. |
| Configurator.ConfiguratorForm.UpdateData | src/components/ConfiguratorForm.tsx:122-125 | Only the named answer changes, and the error clears. |
| Configurator.ConfiguratorForm.UpdatePhoto | src/components/ConfiguratorForm.tsx:210-216 | The photo is recorded, and the error clears. |
| Configurator.ConfiguratorForm.ChooseTradeInYes | src/components/ConfiguratorForm.tsx:182 | Records "yes" and clears the error, staying on step 1. |
| Configurator.ConfiguratorForm.ChooseTradeInNo | src/components/ConfiguratorForm.tsx:188-191 | Records "no" and moves to step 2. The error is left as it was. |
| Configurator.ConfiguratorForm.ChooseFinancing | src/components/ConfiguratorForm.tsx:261-264 | Records the financing option and moves to step 3. |
| Configurator.ConfiguratorForm.ChoosePickup | src/components/ConfiguratorForm.tsx:333-336 | Records the pickup option and moves to step 5. |
| Configurator.ConfiguratorForm.Offered | src/components/ConfiguratorForm.tsx:154-341 | "Continue" (`handleNext`) is on screen only at steps 1 and 3. At step 5 the only control modelled is "Back". |
| Configurator.ConfiguratorForm.WayOnAndBack | src/components/ConfiguratorForm.tsx:154-341 | Every step above the first shows "Back". Steps 1 to 4 each show a control that moves on: "No", a financing option, "Continue", and a pickup option. |
| Configurator.ConfiguratorForm.Press | src/components/ConfiguratorForm.tsx:154-341 | Any control a step shows keeps the step within 1..5. "Continue" is shown only at step 1 after "Sì" and at step 3. |
| Gallery.Paginated | src/components/ImageSlider.tsx:37-43 | From a valid index the result is valid. Direction 1 gives the next index modulo the count (last to 0); any other direction gives the previous index modulo the count (0 to last). |
| Gallery.NextThenPrevious | src/components/ImageSlider.tsx:35-44 | Next then previous, or previous then next, returns to the starting image. |
| Gallery.SingleImage | src/components/ImageSlider.tsx:35-44 | With one image the index stays 0. |
| Gallery.ForwardModular | src/components/ImageSlider.tsx:38-39 | k presses of "next" advance the index by k modulo the count. |
| Gallery.FullCycle | src/components/ImageSlider.tsx:38-39 | As many presses of "next" as there are images return to the start. |
| Gallery.ImageSlider.constructor | src/components/ImageSlider.tsx:14-16 | The carousel starts on image 0, direction 0, not fullscreen. |
| Gallery.ImageSlider.Paginate | src/components/ImageSlider.tsx:35-44 | The direction is recorded and the index takes one cyclic step, staying valid. Fullscreen is unchanged. |
| Gallery.ImageSlider.OpenFullscreen | src/components/ImageSlider.tsx:114 | Fullscreen turns on; the index and the direction are unchanged. |
| Gallery.ImageSlider.CloseFullscreen | src/components/ImageSlider.tsx:135-139 | Fullscreen turns off; the index and the direction are unchanged. |
| Gallery.NextThenBack | src/components/ImageSlider.tsx:35-44 | On a carousel with images, next then previous leaves the index where it was. |
| Homepage.MergeSections | src/app/page.tsx:37-44 | Exactly as many sections as defaults (2). Each field is the CMS value at the same position when it is a non-empty string, and the default otherwise. No field is ever empty. |
| Homepage.MissingDataGivesDefaults | src/app/page.tsx:38 | Without a document, or without its `featureSections`, the result is the defaults. |
| Homepage.ExtraSectionsIgnored | src/app/page.tsx:37-38 | CMS sections beyond the second have no effect. |
| Navigation.NavBrands | src/app/layout.tsx:24-38 | Empty when the fetch fails. Otherwise duplicate-free, and it holds exactly the brands that have at least one new bike. |
| Navigation.NavBrandsFirstAppearance | src/app/layout.tsx:30-34 | Brands are listed in the order of their first new bike. |
| Navigation.UsedBikeIgnored | src/app/layout.tsx:32 | Adding a used bike leaves the list unchanged. |
| Collections.MinOf | src/components/CatalogGrid.tsx:54 | `Math.min(...s)` of a non-empty list is an element of the list and no greater than any element. |
| Collections.MaxOf | src/components/CatalogGrid.tsx:55 | `Math.max(...s)` of a non-empty list is an element of the list and no less than any element. |
| Collections.Filter | src/components/CatalogGrid.tsx:88 | `filter` keeps exactly the elements that pass, and never lengthens the list. |
| Collections.Dedup | src/app/layout.tsx:30 | `Array.from(new Set(s))` is duplicate-free and has the same elements as `s`. |
| Collections.DedupFirstAppearance | src/app/layout.tsx:30 | `Array.from(new Set(s))` lists values in the order of their first occurrence in `s`. |
| Strings.SortSorted | src/components/CatalogGrid.tsx:175 | The default `sort()` yields a list sorted by string order. |
| Strings.Sort | src/components/CatalogGrid.tsx:175 | Sorting is a permutation of its input. |
| Strings.Contains | src/components/CatalogGrid.tsx:102-104 | `includes`: the empty needle is found in every string. A found needle is no longer than the text, and one as long as the text equals it. |
| Strings.ContainsAt | src/components/CatalogGrid.tsx:102-104 | `includes` holds exactly when the needle occurs at some position of the text. |
| Strings.Lower | src/components/CatalogGrid.tsx:90 | `toLowerCase` keeps the length and lower-cases each character. |

## Left out

- Scroll-spotlight tracking in the grid: DOM geometry, window listeners and floating-point distances.
- Swipe detection in the carousel: the product of floating-point offset and velocity.
- The range control's style effects, which write the track element's CSS.
- Step snapping and the limits of the range inputs: the browser's native range input does those. The model takes any value the input delivers.
- Slider.RangeSlider.MoveLow: keeps the order of the two values with no condition. It keeps `min <= low` only when the input is at least `min`, which the native input guarantees.
- Slider.RangeSlider.MoveHigh: the same holds for `high <= max`.
- Prices and years are taken to be integers. The CMS schema declares them as plain numbers with no integer rule (src/sanity/schemaTypes/motorcycle.ts:27-31, 50-54), so a fractional price cannot be represented.
- Slider.Percent: computes `Math.round` on the exact quotient, not on the double-precision result of `(v - min) / (max - min) * 100`. The two can differ at an exact half. For v - min = 29 and max - min = 200, doubles give 14.499999999999998, which rounds to 14. The model gives 15, the exact 14.5 rounded up. Near 90% such a difference can also change which range input is on top.
- Slider.PercentBounded: covers only a proper track (`min < max`). `Catalog.BoundsProper` says when the filter bounds are proper: always, except the year bound of an empty list up to and including 2000.
- Lower-casing: ASCII only, not full Unicode case mapping.
- Strings.Sort: compares characters by code point. JavaScript's default `sort()` compares UTF-16 code units, which orders differently only for characters outside the Basic Multilingual Plane.
- The form's submission (`handleSubmit`) and the server action behind it: an asynchronous request, e-mail sending and `window.open`. The success screen that follows is left out too.
- The form's 333 ms delays before a step change: each is modelled as an immediate step change.
- CMS queries (fetching the motorcycles and the homepage document) and the hero image URL builder. Their data is a parameter.
- Colour and theme lookup tables: static style maps.
- Presentational markup and animations, in these files and in the other components.
- Catalog.CatalogGrid.HandleFilterChange: models only the three range keys, which are the only keys it is called with.
- The carousel's `images` prop is fixed for the life of the carousel, as on a product page.
- Motorcycle fields the core does not read: slug, image, kilometres, catchphrase, summary.
- Configurator.ConfiguratorForm.Press: its contract is the step range alone. What each control does is in the contracts of the methods it calls.
