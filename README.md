# hyper-plugin-power-bar, modelled in Dafny

A model of the battery indicator that `index.js` adds to the Hyper terminal: how it
formats the remaining time, how it classifies the charge level, how it subscribes to
battery events and unsubscribes, how it injects its stylesheet, and how one render
step updates the three DOM nodes (container, progress bar, label).

Modules, following the pieces of `index.js`:

- `Battery` (battery.dfy): the battery snapshot (`level`, `charging`, `chargingTime`,
  `dischargingTime`), `getBatteryLevel` and `getBatteryChargingLabel`. A duration is
  `Finite(seconds)` or `Infinite`, so the host's `Infinity` estimate is part of the model.
- `TimeFormat` (time_format.dfy): the `factor`/`suffix` tables and the `while` loop of
  `getBatteryTime`, proved against a reference definition: the unit index is the least
  `n` with the estimate at most `factor[0] * … * factor[n]`, or 7 past the table.
- `Classify` (classify.dfy): the `for…in` loop over `states`, proved against a
  top-down scan for the greatest threshold at or below the truncated level.
- `Observer` (observer.dfy): the battery as an event target (a registry from event type
  to a set of callbacks, and a record of callback runs), `observeBatteryChange` and the
  disposer it returns.
- `StyleSheet` (style_sheet.dfy): the `outputVar`/`reducer` fold and the text written
  into the style node.
- `Dom` (dom.dfy): elements with attributes, `innerHTML` as text, class lists with
  `DOMTokenList` set semantics (section 7.1 of the WHATWG DOM Standard), child nodes
  where `appendChild` moves a node that is already a child (section 4.2.3 of the same
  standard), and `querySelector('style[name="…"]')`.
- `PowerBar` (power_bar.dfy): the module-level `elements` record as a class, with
  `createElements`, `drawBatteryLevel`, `applyCSS`, and the 50 ms timer as a separate step.

Inputs that come from the host are parameters: the battery snapshot, the
`showBatteryBar` configuration entry (`None` when undefined), the text of the
stylesheet file, and the number formatters `toFixed(1)` and `toPrecision(3)` for
finite values.

Behaviours of the code that the model reproduces as written, some of which a reader
might not expect:

- `getBatteryTime` compares with `>`, so 60 s prints as "60.0 seconds" and 3600 s as
  "60.0 minutes", where one might expect "1.0 minutes" and "1.0 hours".
- The unit "weeks" is never printed: anything above 604800 s passes through the three
  trailing factors of 1 and ends with the empty unit (`WeeksNeverShown`).
- `Infinity` prints as "Infinity " with an empty unit.
- A truncated level below 0 leaves `state` undefined, and `classList.add` then adds the
  token "undefined"; no state token such as "critical" is added.
- The stylesheet file text is written twice, followed by the `:root` block.
- Disposing twice is harmless: `removeEventListener` of an absent listener does nothing.

## Model

| member | source | states |
|---|---|---|
| `Battery.BatteryLevel` | index.js:55-58 | the level shown is the fraction times 100; a fraction in [0, 1] gives a percentage in [0, 100] |
| `Battery.ChargingLabel` | index.js:61-64 | the label is " until full" exactly when charging, else " until empty" |
| `Battery.ActiveTime` | index.js:69 | the estimate used is `chargingTime` when charging, else `dischargingTime` |
| `TimeFormat.UnitFrom` | index.js:70-72 | the least index from k on at which the estimate is at most the running product of factors, or 7 |
| `TimeFormat.UnitIndex` | index.js:12-13 | the unit index is always below 8, so `suffix[n]` is defined |
| `TimeFormat.Fixed1` | index.js:73 | `toFixed(1)`: a finite value is printed by the host formatter, `Infinity` as the word "Infinity" |
| `TimeFormat.TimeText` | index.js:73 | the text is the `toFixed(1)` number, one space, then the unit of the reference index; that unit is "seconds", "minutes", "hours", "days" or empty |
| `TimeFormat.TimeTextCases` | index.js:69-73 | `Infinity` prints as "Infinity ", an estimate up to 60 s as its `toFixed(1)` text plus " seconds", one above a week with an empty unit |
| `TimeFormat.GetBatteryTime` | index.js:67-74 | the loop on the estimate `ActiveTime` selects stops at the reference unit index and prints that estimate divided by every factor passed over, with that index's suffix |
| `TimeFormat.ProdValues` | index.js:13 | the running products of `factor` are 60, 3600, 86400 and then 604800 |
| `TimeFormat.AtMostAMinuteStaysSeconds` | index.js:71-72 | any estimate at most 60 s, including exactly 60 and negative values, is printed unchanged in seconds |
| `TimeFormat.BeyondAWeekHasNoUnit` | index.js:71-73 | the index is 7, with the empty unit, exactly when the estimate exceeds 604800 s |
| `TimeFormat.WeeksNeverShown` | index.js:12-13 | the index is in {0, 1, 2, 3, 7}: "weeks" is never printed |
| `TimeFormat.InfinityText` | index.js:69-73 | the estimate `Infinity` runs to index 7 and prints "Infinity " |
| `TimeFormat.UnitIndexMonotonic` | index.js:71-72 | a larger estimate never gets a smaller unit index |
| `TimeFormat.ScaledRange` | index.js:71-73 | for minutes, hours and days the printed number is above 1 and at most that unit's factor |
| `TimeFormat.Examples` | index.js:67-74 | 59 s and 60 s stay in seconds, 3600 s is 60 minutes, 90061 s is 90061/86400 days |
| `Classify.TagName` | index.js:14-19 | each tag's string is one of "critical", "low-power", "charged" and "full" |
| `Classify.Trunc` | index.js:109 | `parseInt` of a number truncates toward zero |
| `Classify.DescendingScan` | index.js:14-19 | no tag exactly when the level is below 0, else the tag of the greatest threshold in {0, 15, 40, 95} at or below the level |
| `Classify.ClassifyLevel` | index.js:108-110 | the ascending overwrite loop yields the tag of the greatest threshold at or below the truncated level |
| `Classify.Examples` | index.js:108-110 | 95 is full, 94.9 charged, 40 charged, 39.9 low-power, 15 low-power, 0 and -0.5 critical, -5 none, 150 full |
| `Classify.ScanMonotonic` | index.js:14-19 | a higher level never gets a lower tag |
| `Classify.StateToken` | index.js:117 | the token added is one of the four tag names or "undefined", and "undefined" exactly when no threshold was reached |
| `Classify.StateTokenInjective` | index.js:117 | distinct classification outcomes add distinct class tokens |
| `Observer.AddListener` | index.js:79-80 | registering adds the callback for that type and changes no other registration |
| `Observer.RemoveListener` | index.js:84-85 | unregistering removes the callback for that type and changes no other registration |
| `Observer.Subscribe` | index.js:79-80 | the callback is added for `dischargingtimechange` and `levelchange` and for no other type |
| `Observer.Unsubscribe` | index.js:84-85 | the callback is removed from those two types and every other registration stays |
| `Observer.UnsubscribeUndoesSubscribe` | index.js:79-85 | disposing right after observing restores every type's listeners, when the callback was not already observing |
| `Observer.UnsubscribeIdempotent` | index.js:83-86 | disposing twice leaves the same listeners as disposing once |
| `Observer.OthersUntouched` | index.js:79-85 | observing and disposing never change another callback's registrations |
| `Observer.Deliveries` | index.js:79-80 | an event runs a callback at most once, and once exactly when it is registered for that type |
| `Observer.DeliveriesAfterObserving` | index.js:79-86 | after observing, a level or discharging-time change runs the callback once; charging events are unaffected; after disposing, the observed events do not run it |
| `Observer.BatteryManager.AddEventListener` | index.js:79-80 | the battery's registry gains the callback for the type |
| `Observer.BatteryManager.RemoveEventListener` | index.js:84-85 | the battery's registry loses the callback for the type |
| `Observer.BatteryManager.Invoke` | index.js:81 | the direct call is recorded as one run of the callback |
| `Observer.BatteryManager.DispatchEvent` | index.js:79-80 | firing a type runs each callback registered for it exactly once and keeps earlier runs |
| `Observer.ObserveBatteryChange` | index.js:77-87 | the registry becomes `Subscribe` of the old one, the callback has run exactly once more, and the disposer names the battery and the callback |
| `Observer.Dispose` | index.js:83-86 | the registry becomes `Unsubscribe` of the old one and no callback runs |
| `Observer.ObserveThenDispose` | index.js:77-87 | observe, a level change, dispose, a level change: the callback runs first (the direct call) and twice in all |
| `StyleSheet.OutputVar` | index.js:128-129 | the line is "--", the name, ": ", the value and ";\n", each readable at its offset |
| `StyleSheet.Reduce` | index.js:131-136 | the fold only appends: the initial text is a prefix of the result |
| `StyleSheet.DeclarationsAppend` | index.js:134-136 | the declarations of two key lists concatenate |
| `StyleSheet.ReduceIsDeclarations` | index.js:131-136 | the left fold appends each key's `--name: value;` line, in key order, after the initial text |
| `StyleSheet.StyleText` | index.js:140-141 | the style text is the file text twice, then "\n:root {", the declarations in key order, and "}" |
| `StyleSheet.NoVariables` | index.js:125-141 | with no variables the block is ":root {}" |
| `StyleSheet.HeightLine` | index.js:21-23 | the `height: '2px'` entry gives the line "--height: 2px;\n" |
| `StyleSheet.DefaultVariables` | index.js:21-23 | the component's variables give the block ":root {--height: 2px;\n}" |
| `StyleSheet.DeclarationAt` | index.js:128-136 | each key's declaration sits in the block right after those of the keys before it |
| `Dom.Element.constructor` | index.js:46-48 | a created element has the given tag, no attributes, classes or children, and an empty text |
| `Dom.Element.SetAttribute` | index.js:139 | the attribute map gains or overwrites that one entry |
| `Dom.Element.AppendChild` | index.js:142 | the child is removed from where it was among the children and placed last |
| `Dom.Element.AddClasses` | index.js:116-118 | the class tokens become the old ones plus the added ones |
| `Dom.Element.ToggleClass` | index.js:119 | the token is present exactly when `force` holds, the others untouched |
| `Dom.Element.RemoveClass` | index.js:121 | the class tokens lose that token only |
| `Dom.Without` | index.js:142 | the result holds exactly the nodes other than the given one, and equals the input when the node is absent |
| `Dom.WithoutAppend` | index.js:142 | taking a node out of a concatenation takes it out of each part, so the remaining nodes keep their order |
| `Dom.WithoutSingle` | index.js:142 | a single node is kept unless it is the one taken out |
| `Dom.Toggled` | index.js:119 | the token is present exactly when `force` holds and every other token is kept |
| `Dom.IsStyleNamed` | index.js:126 | the selector matches a `style` element whose `name` attribute is exactly `filename` |
| `Dom.StylesAfterAppend` | index.js:142 | appending a node that matches the selector adds it to the matches and keeps every other match |
| `Dom.QuerySelectorFrom` | index.js:126 | the first style node named `filename` from index k on, or the end |
| `Dom.QuerySelector` | index.js:126 | the index of a matching child with no match before it, or the end exactly when there is none |
| `PowerBar.StateOf` | index.js:108-110 | by percentage: none at or below -1, "critical" above -1 and below 15, "low-power" from 15 below 40, "charged" from 40 below 95, "full" from 95 |
| `PowerBar.LabelMarkup` | index.js:114 | the markup is the level span, then the time element holding the time text and the charging label, each piece readable at its offset |
| `PowerBar.Elements.constructor` | index.js:6-10 | the three element references start out null |
| `PowerBar.Elements.CreateElements` | index.js:45-52 | three fresh distinct nodes; the container's children are [label, progress]; the three start with no attributes and no text; the container is appended to the root and returned |
| `PowerBar.Elements.DrawBatteryLevel` | index.js:90-122 | bar max 100 and value the level; the label text; label, bar and container tokens added as sets, the state tag among them; "hidden" exactly when `showBatteryBar === false`; one more pending timer |
| `PowerBar.Elements.ClearUpdated` | index.js:121 | the timer removes "updated" from the label and nothing else |
| `PowerBar.Elements.FindStyle` | index.js:126 | the first style child named `filename` when there is one, else a fresh `style` node with no attributes, classes or children |
| `PowerBar.Elements.NameStyle` | index.js:139-141 | the node gains the `name` attribute and the text, only those two fields change, and the container's matching style nodes stay the same |
| `PowerBar.Elements.ApplyCss` | index.js:125-143 | the reused or fresh style node is named `filename`, holds the style text and is the last child; the style nodes of that name become the old ones plus it, exactly one when there was at most one; a reused node keeps its other attributes, classes and (modelled) element children, a fresh one has only the `name` attribute; of the children only attributes and text may change, and those of the other children are unchanged |
| `PowerBar.ApplyCssTwice` | index.js:125-143 | applying twice leaves one style node of that name, last, holding the second call's text |
| `PowerBar.Redraw` | index.js:112-118 | one render with `showBatteryBar` undefined adds "battery-bar" and the state token to the bar's tokens and keeps the earlier ones |
| `PowerBar.RenderTwice` | index.js:112-118 | after two renders the bar carries both renders' state tokens: states accumulate |

## Left out

- The battery API calls (`navigator.getBattery()`), the `async` functions and the
  `Promise.all` join of three reads: one snapshot is an input, and the three reads see it.
- The `setTimeout` itself: the model counts pending timers and applies one with `ClearUpdated`.
- `readFileSync` and `resolve`: the file text is a parameter, and both reads return it.
- The exact output of `toFixed(1)` and `toPrecision(3)` on finite numbers: they are
  function parameters; real arithmetic stands for IEEE doubles, and `NaN` is not modelled.
- `parseInt` of a number's string form (exponent notation, `-0`): modelled as truncation
  toward zero; `parseFloat(level)` is taken as `level`.
- `Dom.IsStyleNamed` compares the `name` attribute with `filename` as plain strings: the selector at index.js:126 is built by string joining, so a `filename` holding `"` or `\` would change what it matches or throw; the component only passes `'style.css'`.
- `querySelector` searches only the container's direct children; the component only ever
  appends style nodes there, and `innerHTML` text is not parsed into nodes: assigning
  `innerHTML` (index.js:114, 140) sets the text field and does not replace `childNodes`.
- `Dom.Element.AppendChild` does not take the node out of another parent: the component
  only appends fresh nodes or nodes that are already children of the same parent. It also
  requires the child to differ from the parent, where the DOM would throw
  `HierarchyRequestError` (it would also throw for an ancestor); the component never appends
  a node into itself or an ancestor.
- Listener lists are sets, so the order in which one event runs several callbacks is left open.
- What a callback does when it runs (in the component, `drawBatteryLevel`): callbacks are
  identities, and a run is recorded.
- The React wrapper `decorateHyper` (mount, unmount, refs), `decorateConfig`,
  `mapHyperState`, the `config` global and `console.debug`: host glue.
- The `estimate` accumulator: it is never called and depends on the clock.
