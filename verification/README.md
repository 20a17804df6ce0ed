# ACME microsite: a Dafny model of its page logic

The ACME microsite is a static page that reports the results of an arts and
culture community survey. All of its figures come from one literal, `ACME_DATA`
in `js/data.js`. The page logic in `js/app.js` turns those figures into a
zip-code bubble map, a navigation bar that highlights the section being read,
a row of program tabs, counters that count up to their value, and a small
filter-driven data explorer.

This project models that logic and the dataset it reads, and proves what the
code promises about them:

- `AcmeData` holds the dataset: 38 zip codes, the top ten themes, the six
  grant programs, the pie-chart and program-comparison series and the share
  of voice. Lemmas check its consistency: the keys are distinct and ascending,
  the ranks run from 1 to 10, the chart values repeat the theme percentages,
  and the comparison series run parallel to the programs.
- `JsNumber` is the slice of JavaScript number semantics that the map scaling
  depends on: `x / 0` is an infinity or `NaN` and never an error, and every
  comparison with `NaN` is false.
- `ZipCodeMap` is `renderZipCodeMap`. It scales each zip's count against the
  maximum into a radius between 5 and 25 and one of five colours, and labels
  the zips with more than 30 responses. The Leaflet calls are replaced by the
  list of markers they would draw.
- `Navigation` is the scroll handler. It picks the last section scrolled past,
  allowing a 100-pixel offset, then marks the link that points at it.
- `ClassFlags` counts how many elements carry the `active` class.
- `ProgramTabs` is the tab bar, as a class. Its fields are the button flags
  (an array) and the program shown.
- `Utils` is `animateNumber`, with the interval timer written as a loop.
- `DataExplorer` is the explorer's `updateDisplay`, written as a list of
  display blocks.

Numbers that carry one decimal in the dataset are integer tenths: a
percentage of 18.1 is `181`, and a satisfaction of 3.8 is `38`. Coordinates
are integer ten-thousandths of a degree: 30.2729 is `302729`. Ratios and
radii are exact rationals.

## Model

| member | source | states |
|---|---|---|
| AcmeData.FindProgram | js/app.js:459-460 | `programs[key]`: the result is absent exactly when no program has the key; otherwise it is a program stored under that key |
| AcmeData.AscendingZipsDistinct | js/data.js:473-519 | zip keys that ascend numerically are pairwise distinct, as the properties of an object must be |
| AcmeData.ZipcodeValuesMatch | js/data.js:473-519 | every zip key has five digits, and its numeric value is the listed one |
| AcmeData.ZipcodeDataAscending | js/data.js:473-519 | the zip keys are listed in strictly ascending order, which is also the order `Object.entries` yields them in |
| AcmeData.ZipcodeDataNonNegative | js/data.js:473-519 | there are 38 zip codes, and no response count is negative |
| AcmeData.ZipcodeDataValid | js/data.js:473-519 | the zip data has 38 entries with non-negative counts and distinct keys |
| AcmeData.ThemesWellFormed | js/data.js:59-167 | there are ten themes; theme i has rank i + 1 and a positive frequency and percentage |
| AcmeData.PieChartConsistent | js/data.js:358-376 | the pie chart has one label, value and colour per theme, and each value is that theme's percentage |
| AcmeData.ProgramComparisonConsistent | js/data.js:379-383 | the comparison series run parallel to the six programs, whose keys are distinct and in the order nexus, thrive, elevate, music, space, aipp, and each awareness value is that program's awareness percentage |
| AcmeData.ShareOfVoiceOverlaps | js/data.js:33-47 | the three role shares add up to more than 100%, because respondents could pick several roles |
| AcmeData.InitialProgramExists | js/app.js:452-455 | the program the tabs show first, `nexus`, exists, and it is the first program |
| JsNumber.Divide | js/app.js:302 | division never fails: the result is finite exactly when the divisor is non-zero, and it then multiplies back to the dividend; `0 / 0` is NaN and a positive number over 0 is +Infinity |
| JsNumber.ScaleShift | js/app.js:313 | `base + x * factor` is finite exactly when x is, and NaN exactly when x is |
| JsNumber.GreaterThan | js/app.js:303-306 | JavaScript's `x > c` for a finite constant: true for +Infinity, and false for -Infinity and for NaN |
| ClassFlags.CountActive | js/app.js:614-619 | the active count is the number of `true` flags (their multiplicity in the multiset of flags); it is at most the number of elements, and zero exactly when no element is active |
| ClassFlags.AtMostOneActive | js/app.js:614-619 | when every active element sits at one index, at most one element is active |
| ClassFlags.ExactlyOneActive | js/app.js:443-444 | when exactly the element at k is active, the active count is one |
| ZipCodeMap.MaxResponses | js/app.js:298 | `Math.max` over the counts: an upper bound on every count, and attained by some zip |
| ZipCodeMap.Intensity | js/app.js:302 | `responses / maxResponses`: for a count between 0 and a positive maximum, a finite share between 0 and 1 |
| ZipCodeMap.GetColor | js/app.js:301-308 | the fill colour is always one of the five palette colours |
| ZipCodeMap.Radius | js/app.js:313 | `5 + intensity * 20`: finite exactly when the intensity is, and between 5 and 25 for an intensity between 0 and 1 |
| ZipCodeMap.HasLabel | js/app.js:342 | a zip gets a text label when it has more than 30 responses |
| ZipCodeMap.Shade | js/app.js:303-307 | orders the palette from lightest (0) to darkest (4) |
| ZipCodeMap.MarkerFor | js/app.js:311-350 | a circle keeps its zip's key and coordinates, gets a palette colour, and is labelled exactly when the zip has more than 30 responses |
| ZipCodeMap.RenderZipCodeMap | js/app.js:280-352 | nothing is drawn exactly when the container or the map library is missing; otherwise there is one marker per zip, in iteration order, each scaled against the map's own maximum |
| ZipCodeMap.IntensityAbove | js/app.js:302-306 | for a positive maximum, `responses / max > num / 5` holds exactly when `5 * responses > num * max` |
| ZipCodeMap.ColorBuckets | js/app.js:301-308 | each of the five colours is given exactly to the counts above its threshold, a fifth of the maximum apart, and not above the next one |
| ZipCodeMap.FourFifthsFallsThrough | js/app.js:303-304 | the thresholds are strict: an intensity of exactly 0.8 gets the second colour, not the darkest |
| ZipCodeMap.ColorMonotone | js/app.js:301-308 | more responses never give a lighter colour |
| ZipCodeMap.RadiusBounds | js/app.js:312-313 | for counts between 0 and a positive maximum, the radius is finite and within [5, 25]; it is 25 at the maximum and 5 at zero |
| ZipCodeMap.RadiusMonotone | js/app.js:313 | more responses never give a smaller radius |
| ZipCodeMap.MarkersWithinRange | js/app.js:298-313 | on valid data with a positive maximum, every drawn circle has a finite radius between 5 and 25 |
| ZipCodeMap.MaximumDrawnDarkest | js/app.js:298-313 | the zips at the maximum are drawn at radius 25 in the darkest colour |
| ZipCodeMap.AllZeroMap | js/app.js:298-318 | when every count is zero the maximum is 0, every radius is NaN, every circle is the lightest colour, and none is labelled |
| ZipCodeMap.ShippedMaximum | js/data.js:473-519 | the largest count in the shipped data is 95, held by 78745 alone |
| ZipCodeMap.ShippedMarkers | js/app.js:311-350 | against the shipped maximum, 78745 is drawn at radius 25, darkest and labelled; 78734, with 4 responses, is drawn at radius 5 + 80/95, lightest and unlabelled |
| ZipCodeMap.LabelThreshold | js/app.js:342 | the label threshold is strict: 31 responses get a label, 30 do not |
| Navigation.LastReached | js/app.js:606-612 | the index of the last section, in document order, whose top less 100 px has been scrolled past; absent exactly when no section has been |
| Navigation.CurrentId | js/app.js:606-612 | the final value of `current`: the id of the last reached section, or `''` when no section is reached |
| Navigation.ActiveSection | js/app.js:606-612 | the section loop leaves `current` at the id of the last reached section, or `''` when none is reached |
| Navigation.LinkFlags | js/app.js:614-619 | one flag per link, set exactly when the link's href is `#` followed by the current id |
| Navigation.MarkActiveLinks | js/app.js:614-619 | after the pass over the links, each link's `active` flag is set exactly when its href matches the current id |
| Navigation.OnScroll | js/app.js:605-620 | one run of the handler computes the current section and then marks exactly the links that match it |
| Navigation.DistinctHrefsAtMostOneActive | js/app.js:614-619 | when the hrefs are distinct, at most one link is active after the handler |
| Navigation.NothingReached | js/app.js:606-619 | above every section, `current` stays `''`, so only a bare `#` link can be active |
| Navigation.LastReachedMonotone | js/app.js:607-611 | scrolling further down never moves the active section back up the page |
| ProgramTabs.TabBar.constructor | js/app.js:437-456 | `init` keeps the buttons' flags, and it shows the `nexus` program exactly when there is at least one button |
| ProgramTabs.TabBar.RenderProgramContent | js/app.js:458-461 | shows the program stored under the key; an unknown key leaves the content as it was |
| ProgramTabs.TabBar.Click | js/app.js:441-450 | after a click, the clicked button is the only active one (the count is exactly one), and the content is that button's program, or unchanged when the key is unknown |
| ProgramTabs.InitialContent | js/app.js:452-455 | a tab bar with buttons first shows the Nexus Grant Program, which is the first program in the data |
| Utils.RunningIsProduct | js/app.js:10-14 | after k ticks the running value is k times the increment `target / (duration / 16)` |
| Utils.Increment | js/app.js:10 | the per-tick increment `target / (duration / 16)` |
| Utils.Running | js/app.js:11-14 | the running value after k ticks: the increment added k times to the start value 0, before any clamping |
| Utils.ReachesTarget | js/app.js:13-15 | in exact arithmetic, with a positive target, the running value reaches the target exactly when the ticks cover `duration / 16` frames |
| Utils.ScaledReach | js/app.js:10-15 | for an increment of t / n, k increments reach t exactly when k ≥ n |
| Utils.FirstTickReaches | js/app.js:10-18 | with a target at or below zero and at least one frame, the first tick reaches the target, so the timer stops at once |
| Utils.AnimateNumber | js/app.js:8-20 | the element shows the floor of the running value each tick and ends on exactly the target; the numbers shown never decrease, never exceed the target, and are not negative for a non-negative target; in exact arithmetic, a positive target takes the first tick count that covers `duration / 16` frames, and a target at or below zero takes one tick |
| Utils.ShownInOrder | js/app.js:14-19 | floors of the running value followed by the target are bounded by the target, non-negative for a non-negative target, and non-decreasing |
| Utils.ShownStep | js/app.js:14-19 | any earlier number shown is at most any later one |
| Utils.RunningGrows | js/app.js:14 | with a non-negative target, the running value never decreases from one tick to the next |
| Utils.DefaultDurationTicks | js/app.js:8-18 | in exact arithmetic, with the default 2000 ms, the running value of a positive target is still below the target after 124 ticks and reaches it on the 125th, so the timer clears on tick 125 |
| DataExplorer.LowerChar | js/app.js:513 | `toLowerCase` on one character: A to Z move to a to z, and every other character is kept |
| DataExplorer.ToLower | js/app.js:513 | `toLowerCase` keeps the length and lowers each character in place |
| DataExplorer.FindTheme | js/app.js:512-514 | `themes.find`: the first theme whose lower-cased name contains the filter; absent exactly when none does |
| DataExplorer.Includes | js/app.js:513 | `s.includes(part)`: some window of `s` of the length of `part` equals `part` |
| DataExplorer.ThemePart | js/app.js:511-518 | at most one theme item, present exactly when the filter is not `all` and some theme matches |
| DataExplorer.ProgramPart | js/app.js:520-525 | at most one program item, present exactly when the filter is not `all` and names a program |
| DataExplorer.Display | js/app.js:505-531 | `updateDisplay`: the heading, then the theme part, then the program part, then the hint when both filters are `all`; it opens with the heading and holds one to three blocks |
| DataExplorer.DisplayFrame | js/app.js:505-531 | the display opens with its heading and has at most three blocks; it ends with the hint exactly when both filters are `all` |
| DataExplorer.DisplayTheme | js/app.js:511-518 | a theme item appears exactly when the theme filter is not `all` and matches a name; it shows the first matching theme, right after the heading |
| DataExplorer.DisplayProgram | js/app.js:520-529 | a program item appears exactly when the program filter is not `all` and names a program; it shows that program's name and awareness, and it is the last block, so there is at most one and no hint follows it |
| DataExplorer.UpperCaseFilterMatchesNothing | js/app.js:512-514 | a filter holding an upper-case letter never matches a lower-cased name, so it shows no theme |

## Left out

- Leaflet, Plotly and the DOM are left out. Each circle becomes a `Marker`, and the zip-code label icon becomes its `labelled` flag. The tile layer, the map view, and the popups and tooltips (area and response count) are dropped. Element lookups become a `hostReady` flag or plain parameters. `innerHTML` markup becomes `Block` values.
- Timers, `setInterval` and `debounce` are left out. The animation's ticks are loop iterations, and one debounced scroll event is one call to `OnScroll`. The number and timing of events is not modelled.
- Floating point is not modelled. Ratios, radii and the animation's running value are exact rationals, so IEEE-754 rounding is not captured. Only the special values that division by zero produces are kept.
- `toLocaleString` and the page's number formatting are left out. `AnimateNumber` returns the integers that would be formatted.
- The map code divides by the maximum without a guard. When every count is zero, every radius is NaN and every circle gets the lightest colour (`AllZeroMap`). The model follows the code here rather than adding a guard.
- Utils.AnimateNumber: requires a positive duration, and a target of at least zero or a duration of at least one 16 ms frame. The excluded inputs behave as follows in the source. Five of them never clear the interval:
  - a zero duration with a zero target (the increment is `0 / 0`, NaN);
  - a zero duration with a negative target (the increment is -Infinity);
  - a negative duration with a positive target (the increment is a finite negative number that moves away from the target);
  - a negative target with a duration between 0 and 16 ms (the first increment already overshoots below the target);
  - a non-numeric `data-count`, for which the caller passes `parseInt`'s NaN as the target, so the element shows "NaN" every tick.

  Three others stop after one tick and show the target:
  - a zero duration with a positive target (the increment is +Infinity);
  - a negative duration with a zero target (the increment is `-0`, and `0 >= 0` holds);
  - a negative duration with a negative target (the increment is positive, so the value is already above the target).

  None of these is modelled. The target is an integer, so NaN is not representable. The page's only caller passes the default 2000 ms.
- Utils.AnimateNumber: the tick count and the floors shown each tick are exact-arithmetic values. The source adds the increment in IEEE-754 doubles, and 125 additions of `target / 125` can land just below the target, so with the default duration some targets take one tick more (126 for 11, 2638 or 6904). The floor shown on a tick can then be one lower (10 instead of 11 on tick 125 for target 11). The program keeps the promises that do not depend on rounding: the last number shown is exactly the target (it is clamped), no number exceeds the target, and the numbers never decrease.
- DataExplorer.LowerChar: lower-cases ASCII letters only. JavaScript's full Unicode case mapping is not modelled.
- `scrollY` and `offsetTop` are integers. Fractional scroll positions are not modelled.
- `programs[key]` is a lookup among the six own properties. Inherited keys such as `constructor`, which JavaScript would also find, are not modelled.
- ProgramTabs.TabBar.constructor: assumes the content container exists. The source would throw when writing into a missing container.
- The description of each theme is not a field of its record. It is returned by `ThemeDescription(rank)`, so the proofs about the figures do not carry the prose.
- The description text of each program strength and challenge is left out: only the `renderProgramContent` markup reads it, and that markup is not modelled. Titles and mention counts are kept.
- The rendered markup of `renderProgramContent` (strengths, challenges and response count) is left out. The model records which program is shown.
- The rest of `ACME_DATA` that the logic does not read is left out: summary counts, quotes, recommendations, transportation barriers and the role breakdown.
- Other page wiring is left out: the intersection-observer animations, theme card flipping, the mobile menu, smooth scrolling, the chart rendering and the removed download functions.

