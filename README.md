# Wallboard pagination and grid engine

A Dafny model of the logic of `script.js`, a browser wallboard that shows a
flat list of monitored items `{Name, Status, Error}` as a grid of coloured
cells. The page offers three cascading dropdowns: a group (150 items), a
screen of that group (50 items), and a grid size (even numbers up to the
screen's item count). Submitting a size switches the page to full-screen
mode and draws the grid. In full-screen mode a click on a cell starts it
blinking and plays a beep; another click stops the blinking.

Modules:

- `Wrappers`: `Option`. `None` stands for what the page reads as `NaN`.
- `Text`: `String.prototype.split(",")` and `String.prototype.trim()` as
  recursive functions, with `Join` as the inverse of `Split`. `trim` removes
  the full ECMAScript WhiteSpace and LineTerminator set.
- `Status`: the item record and the status switch. `Healthy` is green,
  `Unhealthy` is red, `Error` is gray with staggered error lines. Any other
  status gets no colour and no lines.
- `Arithmetic`: `Math.min`, `Math.ceil` of a quotient, and the length
  `Array.from({length})` uses (a negative length gives nothing).
- `Pagination`: group, screen and size arithmetic on the list length `n`,
  including the index clamping of `Array.prototype.slice`. It also holds
  the loop that fills the size dropdown and the default-selection cascade.
- `Layout`: the cap of 50 cells, then columns and rows.
- `Wallboard`: the page state as a class `Board`. Its fields are
  `isFullscreen`, the drawn `cells`, a `blink` array, the grid `shape` and a
  `beeps` counter. Its methods are `Render` (`createGrid`), `Submit` (the
  form handler) and `Click` (the cell handler).

Behaviour of the code worth noting:

- The default size is the option `"50"` and nothing else (script.js:249).
  When a screen holds 2 to 49 items, jQuery's `.val("50")` leaves the
  select empty. The change handler then parses `NaN`, and `createGrid(NaN)`
  draws no cells. With fewer than 2 items no option is added, nothing fires
  and the grid is left as it was. The model does not fall back to the
  largest size (`Pagination.DefaultSize`, `Pagination.StartupRender`).
- The grid always shows items `0..c-1` of the whole list, whichever group
  and screen are selected (script.js:80-81).
- Submit refuses only a size that parses to 0 or `NaN` (script.js:23). A
  negative size is accepted: it sets `isFullscreen` and draws no cells.
- Group and screen numbers are not range-checked. The formulas are modelled
  for every integer. A group number past the data yields no screens. A group
  number of 0 would count 150 items (script.js:188-192), but the dropdown
  never offers it, so no property is claimed for it.

## Model

| member | source | states |
|---|---|---|
| Text.Split | script.js:102 | `split(",")` always yields at least one fragment |
| Text.SplitCount | script.js:102 | there is one fragment more than there are commas in `Error` |
| Text.SplitJoin | script.js:102 | joining the fragments with "," gives back the original string |
| Text.SplitPiecesFree | script.js:102 | no fragment contains a comma |
| Text.SplitWithoutSeparator | script.js:102 | a string without commas is a single fragment |
| Text.SplitAtFirst | script.js:102 | splitting at the first comma gives the text before it, then the fragments of the rest |
| Text.LeadingSpace | script.js:107 | `trim` drops the leading run of whitespace and stops at the first other character |
| Text.TrailingSpaceStart | script.js:107 | `trim` drops the trailing run of whitespace and stops after the last other character |
| Text.Trim | script.js:107 | the trimmed message is an infix of the fragment with no whitespace at either end; everything dropped is whitespace |
| Text.TrimKeepsAbsent | script.js:107 | trimming introduces no character |
| Text.TrimOfTrimmed | script.js:107 | a fragment with no whitespace at either end is unchanged by `trim` |
| Text.TrimIdempotent | script.js:107 | trimming twice is the same as trimming once |
| Text.TrimEmpty | script.js:107 | a fragment trims to "" exactly when it is all whitespace |
| Status.ErrorMessages | script.js:102-108 | one message per comma-separated fragment (commas + 1); message `k` has delay `12*k` s and comma-free trimmed text |
| Status.ErrorMessagesText | script.js:102-108 | message `k` is `Message(trim(fragment k), 12*k)` |
| Status.Present | script.js:89-113 | Healthy gives green, Unhealthy red, Error gray, each if and only if; any other status gives no colour; error lines appear exactly for Error and are the split of `Error` |
| Status.TwoPieces | script.js:102-108 | a two-fragment detail gives two messages, with delays 0 s and 12 s |
| Status.TwoErrorCauses | script.js:89-108 | "disk full, cpu high" becomes gray with "disk full" at 0 s and "cpu high" at 12 s |
| Arithmetic.CeilDiv | script.js:161 | `Math.ceil(a/b)` is the least integer `q` with `a <= b*q` (for positive `b`); a negative divisor is handled too |
| Arithmetic.ArrayLength | script.js:164 | `Array.from` makes as many elements as a non-negative length says, and none for a negative one |
| Pagination.Labels | script.js:164-166 | `Array.from({length: k}, (_, i) => i + 1)` is exactly `1..k` in order |
| Pagination.GroupCount | script.js:161 | the group count is `ceil(n/150)`: `150*(k-1) < n <= 150*k`; it is 0 exactly when the list is empty |
| Pagination.GroupLabels | script.js:161-166 | the group options are exactly `1..GroupCount(n)` ascending, and there are none exactly when `n = 0` |
| Pagination.ScreenLabels | script.js:195-200 | the screen options are `1..ScreenCount(n, g)` ascending |
| Pagination.RelativeIndex | script.js:225 | a `slice` index ends up within `0..length` |
| Pagination.SliceLength | script.js:225 | a slice is never longer than the list |
| Pagination.RelativeIndexValue | script.js:225 | an index in `0..length` is kept, a larger one becomes the length, a negative one counts back from the end and stops at 0 |
| Pagination.SliceLengthOfNonNegative | script.js:225 | with non-negative indices a slice holds `min(end, length) - min(start, length)` elements, or none; inside the list it holds `end - start` |
| Pagination.SliceOfLastThree | script.js:225 | `slice(-3, 10)` of ten elements holds three |
| Pagination.GroupItemCount | script.js:188-192 | group `g` from 1 up counts at least one item exactly when it is one of the offered groups |
| Pagination.ScreenCount | script.js:194-198 | the screen count is `ceil(count/50)` of the group's item count, and 0 exactly when the group holds no item |
| Pagination.GroupSliceLength | script.js:221-225 | `groupData` is never longer than the list, and for a group from 1 up it is exactly as long as the screen dropdown counted (none for a negative count) |
| Pagination.ScreenItemCount | script.js:226-230 | a screen holds at most 50 items, and at least one exactly when it is an offered screen |
| Pagination.SizeOptions | script.js:239-244 | there are `count/2` size options (none for a negative count), and option `i` is `2*(i+1)` |
| Pagination.BuildSizeOptions | script.js:239-244 | the dropdown loop appends exactly the `SizeOptions` of the screen's item count, in order |
| Pagination.GroupItemCountBounds | script.js:188-192 | an offered group counts `min(150g, n) - 150(g-1)` items, between 1 and 150; every group but the last has 150 |
| Pagination.ScreenCountOfGroup | script.js:188-195 | an offered group has `ceil(count/50)` screens, between 1 and 3 |
| Pagination.NoScreensPastData | script.js:188-200 | a group beyond the data has no screens |
| Pagination.ScreenItemCountBounds | script.js:226-230 | each screen of an offered group holds between 1 and 50 items |
| Pagination.NoSizesPastGroup | script.js:226-244 | a screen beyond its group has no items and offers no size |
| Pagination.ScreenItemsPrefix | script.js:226-230 | the first `k` screens of a group hold `min(50k, count)` items |
| Pagination.ScreensPartitionGroup | script.js:188-230 | summed over screens `1..ScreenCount`, the per-screen counts equal the group's item count |
| Pagination.GroupItemsPrefix | script.js:188-192 | the first `k` groups hold `min(150k, n)` items |
| Pagination.GroupsPartitionList | script.js:161-192 | summed over all groups, the group counts equal the list length |
| Pagination.SizeOptionsMembership | script.js:239-244 | `x` is offered if and only if it is even and `2 <= x <= count` |
| Pagination.SizeOptionsOrder | script.js:239-244 | sizes ascend strictly; there are none exactly when the count is at most 1; the largest is the greatest even number not above the count |
| Pagination.Preselect | script.js:247-250 | no change fires exactly when there are no options; the wanted value is chosen when offered; otherwise the handler receives `NaN` |
| Pagination.DefaultSize | script.js:246-250 | a screen of at least 50 items draws 50 cells; one of 2..49 items hands `NaN` to the grid; a smaller one fires nothing |
| Pagination.ScreenChangeRender | script.js:246-250 | after a screen is chosen, a screen of at least 50 items draws 50 cells, one of 2..49 hands `NaN` to the grid, and a smaller one fires nothing |
| Pagination.GroupChangeRender | script.js:183-250 | picking an offered group cascades through screen 1 to the default size of that screen; a group past the data fires nothing |
| Pagination.StartupRender | script.js:156-180 | on load, a list of at least 50 items draws 50 cells; 2..49 items hand `NaN` to the grid; fewer fire nothing |
| Pagination.TwoHundredThirtyItems | script.js:161-230 | 230 items give 2 groups; group 1 has screens of 50, 50 and 50; group 2 has screens of 50 and 30 |
| Layout.CellsDrawn | script.js:65-80 | the loop draws the count capped at 50, and nothing for a count below 1 or `NaN` |
| Layout.Arrange | script.js:65-69 | for a positive count: `columns = min(c, 5)` with `1 <= columns <= 5`, `1 <= rows <= 10`, and `columns*(rows-1) < c <= columns*rows`; a count of 0 gives no layout |
| Layout.SevenCells | script.js:68-69 | 7 cells are laid out in 5 columns and 2 rows |
| Wallboard.Draw | script.js:86-113 | a cell carries its item's name, has a colour exactly for the three known statuses, and shows what `Present` gives |
| Wallboard.Cells | script.js:80-86 | the grid has exactly `k` cells, and cell `i` shows item `i` of the whole list |
| Wallboard.Toggle | script.js:117-132 | outside full-screen mode a click changes nothing and is silent; in it the blink flag flips, and the beep plays exactly on the flip to blinking |
| Wallboard.ToggleTwice | script.js:117-132 | two clicks restore the cell, with exactly one beep in full-screen mode and none outside it |
| Wallboard.Board.constructor | script.js:2 | the page starts outside full-screen mode, with no grid and no beeps |
| Wallboard.Board.Render | script.js:57-135 | the grid is replaced by `Cells(data, CellsDrawn(c))`; every new cell is not blinking; the layout is `Arrange(c)`; the full-screen flag and the beeps are unchanged |
| Wallboard.Board.Submit | script.js:18-54 | a size of 0 or `NaN` is refused and nothing changes; any other size sets `isFullscreen` and renders the grid; nothing ever clears the flag |
| Wallboard.Board.Click | script.js:117-132 | the click changes only cell `i`'s blink flag, as `Toggle` says; one beep is added exactly on the flip to blinking |

## Left out

- `fetchJsonData` (script.js:7-16) is left out. It is a network fetch with JSON parsing, and it returns `[]` on failure. The list is a parameter: each handler's fresh fetch is modelled as reading the same snapshot, so only its length `n` matters to pagination.
- `parseInt` of dropdown values (script.js:21, 140, 145, 150-151) is left out. Parsed values are given as `Option<int>`, with `None` for `NaN`. Option labels are integers rather than strings.
- A group or screen dropdown set to its placeholder calls the next handler with `NaN`. That yields no screens or no sizes; this input is not modelled, and the pagination functions take integers.
- DOM construction, option HTML, `.hide()`, CSS widths and `gridTemplateColumns` strings (script.js:3, 44-47, 58-59, 72-73, 82-84, 99-112, 169-173, 203-207, 233-242) are presentation only. `Board.shape` keeps the column and row counts they are built from.
- The vendor-prefixed `requestFullscreen` calls (script.js:29-41) are browser APIs. Only the flag they precede (script.js:50) is modelled.
- `new Audio(...).play()` (script.js:123-124) is asynchronous and external. It is modelled as the `beeps` counter.
- The cell height `(screenHeight - 100) / rows` (script.js:76-77) is left out. It is a floating-point division of a window measurement.
- Asynchronous ordering is left out. `createGrid` empties the grid, awaits the fetch and then draws; `Render` does all of this in one step. Overlapping fetches and stale dropdown overwrites are event-loop concurrency and are not modelled.
- Feed items with a non-string `Name`, `Status` or `Error` are not modelled. Items are `Item(name, status, error: Option<string>)`.
- Wallboard.Board.Render: an item that is missing within the first `min(c, 50)`, or an `Error` item without an `Error` field, makes the page throw a TypeError. These cases are a precondition (`Drawable`) rather than a modelled failure.
