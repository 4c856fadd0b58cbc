# Payments charts: a Dafny model of the chart data-shaping core

The payments chart library ships three embeddable React components: a bar chart, a line chart and a pie chart. Each component takes a list of records. A record is a plain object with a `name` label and some numeric fields. From the records and the browser window's width, each component works out what to draw:

- which numeric fields become series, how many, and in which colours and under which names;
- which records the current page shows, and whether paging controls appear;
- on a phone-sized screen, how a pie with many slices is folded into its four largest slices plus one "Other" slice.

Each bundle also scans the page once the document is ready. Every container carrying the chart's marker attribute is read into render options.

This project models that shaping logic and the components' state in Dafny:

- **Breakpoints**: the three device classes.
- **Records**: records as ordered, duplicate-free property lists. Numeric-field inference is `Object.keys` filtered by `typeof === 'number'`.
- **Pagination**: page size, page slicing, the page count (`Math.ceil`) and the Previous/Next buttons.
- **NotesModal**: a class for the notes dialog and the page scroll lock it holds.
- **PieChart**, **BarChart**, **LineChart**: the per-chart pipelines and one class per component. The class fields are the component's props and `useState` hooks, and its methods are the event handlers.
- **AutoRender**: the container scan, with per-container error isolation, and the `options.data || sample` defaulting.
- **Scenarios**: worked examples on concrete inputs.

Inputs the code reads from its environment are parameters of the model: the window width, the container attributes, and the key pressed.

## Model

| member | source | states |
|---|---|---|
| Breakpoints.Classify | src/components/PaymentsPieChart.jsx:35-36 | mobile exactly below 768 px, tablet exactly from 768 up to but excluding 1024, desktop otherwise |
| Breakpoints.ClassifyMonotone | src/components/PaymentsPieChart.jsx:55-56 | a wider window never gives a smaller device class |
| Breakpoints.MaxSeries | src/components/PaymentsBarChart.jsx:109 | at most 2 series on mobile, 3 on tablet, 5 on desktop |
| Text.UpperChar | src/components/PaymentsLineChart.jsx:94 | `toUpperCase` on one character: a lower-case ASCII letter becomes its capital, anything else is unchanged |
| Text.DecimalRoundTrip | src/components/PaymentsBarChart.jsx:442 | a page number printed in a template literal is a non-empty run of digits without a leading zero that reads back as the same number |
| Records.Get | src/components/PaymentsBarChart.jsx:106 | a property lookup is undefined exactly when no property has the key, and otherwise returns a value stored under that key |
| Records.NumericFieldsSpec | src/components/PaymentsBarChart.jsx:105-107 | the inferred fields are exactly the keys other than `name` that hold numbers, in key order, without repeats |
| Pagination.ItemsPerPage | src/components/PaymentsBarChart.jsx:85-89 | page size: all records on desktop; at most 3 on mobile and 4 on tablet, and fewer only when there are fewer records; never 0 when there are records |
| Pagination.Slice | src/components/PaymentsBarChart.jsx:95 | `Array.slice` with the end clamped to the length: element i of the result is element start+i of the input |
| Pagination.VisibleData | src/components/PaymentsBarChart.jsx:91-96 | the whole list when one page holds it; otherwise at most a page of records, the i-th being record page*size+i |
| Pagination.TotalPages | src/components/PaymentsBarChart.jsx:98 | the page count is the ceiling of records over page size: t-1 pages are too few and t are enough |
| Pagination.PagesReassemble | src/components/PaymentsLineChart.jsx:70-77 | the pages 0 … totalPages-1, concatenated, are exactly the records: nothing is lost or shown twice |
| Pagination.PageNonEmpty | src/components/PaymentsLineChart.jsx:70-75 | every page in range shows at least one record, and, when the records span more than one page, a page past the end shows none |
| Pagination.PrevPage | src/components/PaymentsBarChart.jsx:569 | Previous goes back one page and never below page 0 |
| Pagination.NextPage | src/components/PaymentsBarChart.jsx:592 | Next goes forward one page and never past the last page |
| Pagination.NavigationInRange | src/components/PaymentsBarChart.jsx:569-593 | from a page in range both buttons stay in range; a button leaves the page unchanged exactly when it is disabled; an enabled one moves exactly one page |
| Pagination.ShowPagination | src/components/PaymentsBarChart.jsx:555 | the controls appear exactly when the page size is smaller than the record count, so never on desktop and never without records |
| Pagination.PageIndicator | src/components/PaymentsBarChart.jsx:436-442 | the parenthesised page indicator is present exactly when the controls are |
| Pagination.FirstPageInRange | src/components/PaymentsBarChart.jsx:35-38 | page 0, where mounting and every resize leave a chart, is always a valid page |
| NotesModal.Notes.constructor | src/components/PaymentsPieChart.jsx:32 | a chart mounts with the dialog closed and page scrolling free |
| NotesModal.Notes.Visible | src/components/PaymentsPieChart.jsx:513 | the dialog renders only when it is open and there is a description to show; since only the Notes control opens it, in a valid state it is shown exactly when open, and page scrolling is locked exactly while it is shown |
| NotesModal.Notes.ClickTrigger | src/components/PaymentsPieChart.jsx:789-799 | the Notes control, present only with a description, opens the dialog and locks page scrolling |
| NotesModal.Notes.KeyDown | src/components/PaymentsPieChart.jsx:72-90 | Escape closes an open dialog and releases the scroll lock; other keys change nothing |
| NotesModal.Notes.ClickBackdrop | src/components/PaymentsPieChart.jsx:529-533 | a click closes the dialog exactly when its target is the backdrop itself |
| NotesModal.Notes.ClickClose | src/components/PaymentsPieChart.jsx:570 | the close icon and the Close button close the dialog and release the scroll lock |
| NotesModal.Notes.Unmount | src/components/PaymentsPieChart.jsx:86-89 | the effect's cleanup releases the scroll lock even when the dialog is still open |
| PieChart.PieKey | src/components/PaymentsPieChart.jsx:126-135 | the plotted field is the first inferred numeric field of the first record; there is none for no records or no numeric field |
| PieChart.PieData | src/components/PaymentsPieChart.jsx:125-142 | one slice per record in record order, named by the record, valued by the plotted field, coloured by index modulo the 12-colour palette; empty when there is no plotted field |
| PieChart.SortDescSorted | src/components/PaymentsPieChart.jsx:149 | the descending sort's output is in non-increasing order of value |
| PieChart.SortDescPermutes | src/components/PaymentsPieChart.jsx:149 | the sort's output is a permutation of its input |
| PieChart.SortDescStable | src/components/PaymentsPieChart.jsx:149 | slices of equal value keep their input order, as JavaScript's stable sort does |
| PieChart.SortDescSum | src/components/PaymentsPieChart.jsx:149 | sorting does not change the total value |
| PieChart.SortDescKeepsSorted | src/components/PaymentsPieChart.jsx:149 | input already in descending order comes out unchanged |
| PieChart.MobileOptimised | src/components/PaymentsPieChart.jsx:145-163 | up to five slices stay as they are; beyond that the four largest are kept and one muted "Other" slice carries the rest; the total never changes |
| PieChart.MobileTopFour | src/components/PaymentsPieChart.jsx:149-150 | the four kept slices come from the input, are in descending order, and no folded slice is larger than the fourth kept one |
| PieChart.MobileOtherValue | src/components/PaymentsPieChart.jsx:151-159 | "Other" is worth the total minus the four kept slices |
| PieChart.MobileKeepsTieOrder | src/components/PaymentsPieChart.jsx:149-150 | ties for the kept places go to the earlier records: for every value, the kept slices of that value are the first ones of that value in record order |
| PieChart.ResponsiveConfig | src/components/PaymentsPieChart.jsx:166-213 | mobile: labels off, legend on, slices folded; tablet and desktop: labels follow the prop, the legend shows only without labels. Labels and legend are never both on, the drawn slices add up to the total, and the inner radius stays below the outer radius |
| PieChart.DisplayName | src/components/PaymentsPieChart.jsx:283-284 | a name longer than 10, 12 or 15 characters is cut to that length and ends in "..."; shorter names are kept |
| PieChart.SliceLabel | src/components/PaymentsPieChart.jsx:252-253 | a slice gets no label exactly when it is under 3% of the total; otherwise its label is the display name |
| PieChart.PaymentsPieChart.constructor | src/components/PaymentsPieChart.jsx:27-33 | mount state: the given width, chart key 0, no slice hovered, dialog closed |
| PieChart.PaymentsPieChart.Config | src/components/PaymentsPieChart.jsx:166-168 | the configuration drawn for the current width, whose slices add up to its total |
| PieChart.PaymentsPieChart.Resize | src/components/PaymentsPieChart.jsx:53-63 | records the new width and increments the chart key by one exactly when the device class changes |
| PieChart.PaymentsPieChart.HoverSlice | src/components/PaymentsPieChart.jsx:478 | hovering a drawn slice marks it as hovered and changes nothing else |
| PieChart.PaymentsPieChart.LeaveSlice | src/components/PaymentsPieChart.jsx:479 | leaving the pie clears the hovered slice |
| PieChart.PaymentsPieChart.Unmount | src/components/PaymentsPieChart.jsx:86-89 | unmounting the chart releases the scroll lock |
| BarChart.Candidates | src/components/PaymentsBarChart.jsx:111-117 | the five known series in priority order, each with its fixed colour, under its short name on mobile and its full name otherwise |
| BarChart.KeepPresent | src/components/PaymentsBarChart.jsx:119 | the filter keeps exactly the series whose key is an inferred field, in priority order |
| BarChart.BarConfigs | src/components/PaymentsBarChart.jsx:101-120 | no series without records; otherwise known series in priority order, each plotting a numeric field, at most 2, 3 or 5 of them; a known numeric field is dropped only when the cap is reached |
| BarChart.BarSeriesStyle | src/components/PaymentsBarChart.jsx:111-117 | every drawn series is a known one with that entry's colour, under the short name exactly on mobile |
| BarChart.BarPriority | src/components/PaymentsBarChart.jsx:119 | when a known numeric field is left out, every drawn series comes before it in the priority list |
| BarChart.PaymentsBarChart.constructor | src/components/PaymentsBarChart.jsx:27-31 | mount state: the given width, page 0, dialog closed |
| BarChart.PaymentsBarChart.Visible | src/components/PaymentsBarChart.jsx:123 | the records drawn now: none without records, otherwise between one and a page of them |
| BarChart.PaymentsBarChart.Series | src/components/PaymentsBarChart.jsx:122 | the series drawn now never exceed the device's cap |
| BarChart.PaymentsBarChart.Resize | src/components/PaymentsBarChart.jsx:35-38 | a resize records the width and returns to page 0, which is always in range |
| BarChart.PaymentsBarChart.ClickPrevious | src/components/PaymentsBarChart.jsx:569-570 | Previous moves to the previous page and keeps the page in range |
| BarChart.PaymentsBarChart.ClickNext | src/components/PaymentsBarChart.jsx:592-593 | Next moves to the next page and keeps the page in range |
| BarChart.PaymentsBarChart.Unmount | src/components/PaymentsBarChart.jsx:58-61 | unmounting the chart releases the scroll lock |
| LineChart.InsertSpaces | src/components/PaymentsLineChart.jsx:95 | the spaced text never starts with a capital |
| LineChart.UnspaceInsertSpaces | src/components/PaymentsLineChart.jsx:95 | inserting the spaces loses nothing: removing them gives back the key |
| LineChart.InsertSpacesSpaced | src/components/PaymentsLineChart.jsx:95 | in the spaced text every capital comes right after a space |
| LineChart.GeneratedLabel | src/components/PaymentsLineChart.jsx:93-96 | the first character is capitalised; the rest is kept on mobile, and elsewhere it is the rest of the key with a space inserted before every capital (InsertSpaces), from which the rest of the key is recovered |
| LineChart.LineLabel | src/components/PaymentsLineChart.jsx:93 | a non-empty override in `fieldLabels` names the line; an empty or absent one falls through to the generated label |
| LineChart.OverrideEveryDevice | src/components/PaymentsLineChart.jsx:93 | an override gives the same name on every device |
| LineChart.LinesFor | src/components/PaymentsLineChart.jsx:91-99 | one line per key, coloured by position in the 5-colour cycle, 2 px wide on mobile and 3 px otherwise |
| LineChart.LineConfigs | src/components/PaymentsLineChart.jsx:79-100 | no lines without records; otherwise the first 2, 3 or 5 inferred fields in key order, each labelled, coloured and sized as above |
| LineChart.LineKeysNumeric | src/components/PaymentsLineChart.jsx:83-85 | every line plots a numeric field of the first record other than `name` |
| LineChart.LinesDistinct | src/components/PaymentsLineChart.jsx:89-97 | no two lines plot the same field or share a colour |
| LineChart.Subtitle | src/components/PaymentsLineChart.jsx:213-216 | the single-trend wording appears exactly when there is one line |
| LineChart.LineCount | src/components/PaymentsLineChart.jsx:427 | the count part of the footer's "Chart: Payments Intelligence (…)" text: the count in decimal digits (which read back as the count), then " line" for one line and " lines" otherwise |
| LineChart.PaymentsLineChart.constructor | src/components/PaymentsLineChart.jsx:30-33 | mount state: the given width and page 0 |
| LineChart.PaymentsLineChart.Visible | src/components/PaymentsLineChart.jsx:103 | the records drawn now: none without records, otherwise between one and a page of them |
| LineChart.PaymentsLineChart.Lines | src/components/PaymentsLineChart.jsx:102 | the lines drawn now never exceed the device's cap |
| LineChart.PaymentsLineChart.Resize | src/components/PaymentsLineChart.jsx:37-40 | a resize records the width and returns to page 0, which is always in range |
| LineChart.PaymentsLineChart.ClickPrevious | src/components/PaymentsLineChart.jsx:348-349 | Previous moves to the previous page and keeps the page in range |
| LineChart.PaymentsLineChart.ClickNext | src/components/PaymentsLineChart.jsx:371-372 | Next moves to the next page and keeps the page in range |
| AutoRender.OnUnlessFalse | src/components/PaymentsPieChart.jsx:954 | `data-show-logo`, `data-show-labels` and `data-show-legend` are off only when the attribute is exactly "false", so they are on when it is absent |
| AutoRender.OffUnlessTrue | src/components/PaymentsPieChart.jsx:958 | `data-show-inner-radius` is on only when the attribute is exactly "true" |
| AutoRender.ReadJson | src/components/PaymentsPieChart.jsx:964 | an absent or empty JSON attribute is read as undefined without parsing; a malformed one throws |
| AutoRender.ReadContainer | src/components/PaymentsLineChart.jsx:549-572 | a container is logged instead of having a render requested exactly when one of its JSON attributes is malformed; otherwise a render is requested for its id with the parsed data, its title, source text, source URL and notes description as read, the read flags and, for the line chart, the parsed field labels or `{}` |
| AutoRender.ScanContainers | src/components/PaymentsPieChart.jsx:949-978 | every marked container gets its own outcome, and a render is requested for it exactly when its own attributes parse, whatever the other containers' attributes hold |
| AutoRender.MountData | src/components/PaymentsPieChart.jsx:865 | given data, including an empty list, is drawn as it is; without data the sample of that chart kind is drawn, which is never empty |
| Scenarios.TwoQuartersDesktop | src/components/PaymentsBarChart.jsx:85-120 | two quarters with one numeric field on desktop: one page holding both, and one series, for `volume` |
| Scenarios.TwoQuartersMobile | src/components/PaymentsBarChart.jsx:85-98 | the same two quarters on mobile fit on one page, and no controls appear |
| Scenarios.PieSampleOnMobile | src/components/PaymentsPieChart.jsx:829-836 | the six-slice sample on mobile folds into five slices, "Other" worth the two smallest (15000) |
| Scenarios.OneMalformedAmongThree | src/components/PaymentsBarChart.jsx:826-846 | of three containers, the malformed middle one is logged and a render is requested for the other two |

## Left out

- The drawing itself is not modelled: React elements, Recharts, styles, fonts, tooltips, dot visibility, label positions and the legend layout. So are the debounce timer, the resize and keydown listener registration, and `chartKey` as a React key.
- The `window.PaymentsCharts` registry, its `render` alias and its presence check before rendering are left out. So are the `render…Chart` entry points' container lookup by id (a container without an id, or whose id repeats an earlier one, is not drawn into itself), the missing-React error panel and `console` logging. Only their data defaulting is modelled, as AutoRender.MountData.
- `JSON.parse` is not modelled. An attribute arrives already parsed into records, a label map or "malformed". Parsed JSON of the wrong shape (an object instead of an array, say) is not modelled.
- Values are unbounded integers. Floating point, `toFixed`, `toLocaleString`, the K/M value formatting and the trigonometry of label positions are left out.
- Records.NumericFieldsSpec: keys follow the order of the property list. `Object.keys` lists integer-like keys first, and that reordering is not modelled.
- PieChart.DisplayName: lengths and cuts count Unicode characters, while `name.length` and `substring` count UTF-16 code units. A name with characters outside the Basic Multilingual Plane (an emoji, say) can be cut later than in the source, and the source's cut can split a surrogate pair, which the model cannot.
- Text.UpperChar: only ASCII letters change case. Case mapping beyond ASCII and UTF-16 code units are not modelled.
- LineChart.LineLabel: a `fieldLabels` key is looked up only among the map's own entries, so keys inherited from `Object.prototype` are not modelled.
- Record names are taken to be strings.
- PieChart.PieData: every record is required to hold a number under the plotted field (PieReady). The source would produce `undefined` values for records lacking it.
- PieChart.SliceLabel: requires a positive total. The percentage is computed by Recharts, which is not part of this model.
- Pagination.TotalPages: requires at least one record. With none the source divides 0 by 0; ShowPagination models the resulting `NaN > 1` as false.
- Pagination.PageIndicator: states when the indicator appears and that it is parenthesised, not the digits it holds. The pagination bar's "p of t" counter text is likewise left out.
- The bar chart's subtitle is a fixed text per device and is not modelled.
- NotesModal.Notes: the body scroll lock is held per chart. The source shares one `document.body.style.overflow` across all charts on a page, so one chart's cleanup can release another's lock; that sharing is not modelled.
- The line chart accepts `notesDescription` but renders no notes dialog, so it has no NotesModal.
- `hoveredIndex` only changes styling, which is not modelled beyond the state update.
- App.js, the rollup configuration and the build scripts are not part of this model.
