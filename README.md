# uiwrapper page-object layer in Dafny

This project models the decision logic of `uiwrapper`, a Selenium page-object layer for a
Splunk-style web UI. The browser is abstract: a sequence of immutable page snapshots
(`Browser.Dom`), the page the session is on, and a log of the actions performed on elements
(clicks, clears, typed keys, Escape). Every Selenium wait is a function of the current snapshot
that either holds or times out; there is no time.

The layer's objects become Dafny classes with the fields their methods read:

- `Locators.Locator` holds the registry that maps a symbolic element name to a `[by, selector]`
  pair.
- Each widget owns a `Session` (the driver) and a `Locator`. The widgets are `CheckBox`,
  `AlertCheckbox`, `DropDown`, `AlertDropDown`, `Select`, `AlertSelect`, `AlertToggle`,
  `AlertTable`, `ContainerAction` and `AlertContainerAction`.
- A widget's methods change the session, and sometimes the registry, in place.
- Fields that hold other widgets, such as the buttons of `AlertContainerAction` or the check
  box's `checkbox` and `checkbox_btn`, become functions of the registry, not fields.

Each method is proved against a step function of the old state. The result and the new
`State(page, log)` are exactly what the function gives, so `(r, driver.Now()) ==
XStep(pages, old(driver.Now()), ...)`. The properties the code promises are then lemmas about
those functions: which element is clicked, when `True`, `False` or an exception comes back,
and what a failing step leaves behind.

Two kinds of code are modelled as values rather than sessions:

- The configuration-reply shaping of `ConfigManager` works over insertion-ordered association
  lists (`Dicts`), because Python dictionary order matters to `filter`.
- The string rules (`strip`, whitespace collapsing, `lower`, `replace`) are in `Text`, and are
  restricted to ASCII.

Module layout: `Outcomes`, `Text`, `Dicts`, `Matching`, `Locators`, `Browser`,
`AlertComponentActions` (the element façade), `Widgets` (shared click loops and first-match
picking), `Components` (the `Base` registry and single-element widgets such as buttons and
messages), then one module per core source file.

## Model

| member | source | states |
|---|---|---|
| Locators.NormalizeEntry | uiwrapper/actions/locator.py:20 | A `None` strategy becomes `By.CSS_SELECTOR`; an explicit strategy and the selector string are kept unchanged. |
| Locators.Normalize | uiwrapper/actions/locator.py:19-22 | The dictionary comprehension keeps exactly the caller's keys, maps each one to its normalized pair, and leaves no `None` strategy. |
| Locators.Resolve | uiwrapper/actions/locator.py:32-38 | `get_locator` succeeds iff the name is registered and then returns the stored pair. An unknown name fails with IndexError, because the log call indexes the `[]` default. |
| Locators.UpdatedNewKeys | uiwrapper/actions/locator.py:56-60 | After `update_locaters`, every key of the new dictionary resolves to its normalized pair: the last write wins. |
| Locators.UpdatedOtherKeys | uiwrapper/actions/locator.py:60 | Every key not in the update keeps its previous resolution, including a failing one. |
| Locators.UpdatedKeys | uiwrapper/actions/locator.py:60 | The registered names after an update are the old names plus the new ones. |
| Locators.UpdatedNormal | uiwrapper/actions/locator.py:56-60 | An update keeps the registry free of `None` strategies. |
| Locators.UpdatedTwice | uiwrapper/actions/locator.py:49-60 | Two updates in a row equal one update with the merged dictionary, in which the later pairs win. |
| Locators.NormalizeNormal | uiwrapper/actions/locator.py:19-22 | Normalizing a registry that already has no `None` strategy changes nothing. |
| Locators.Locator.constructor | uiwrapper/actions/locator.py:13-23 | The registry is a fresh, normalized copy of the caller's dictionary, and the invariant holds. |
| Locators.Locator.GetLocator | uiwrapper/actions/locator.py:25-38 | The result is `Resolve(locators, name)`, and a found pair always has a strategy. The registry is not changed. |
| Locators.Locator.GetAllLocators | uiwrapper/actions/locator.py:40-47 | The result is the registry's current value, which has no `None` strategy. |
| Locators.Locator.UpdateLocaters | uiwrapper/actions/locator.py:49-60 | The new registry is `Updated(old, added)` and the no-`None` invariant is preserved. |
| Text.LStrip | uiwrapper/alerts/actions/alert_action_component.py:227 | The result is no longer than the input and does not start with whitespace. |
| Text.LStripSuffix | uiwrapper/alerts/actions/alert_action_component.py:227 | What `lstrip` drops is an all-whitespace prefix; the result is the rest of the text. |
| Text.RStrip | uiwrapper/alerts/actions/alert_action_component.py:227 | The result is no longer than the input and does not end with whitespace. |
| Text.RStripPrefix | uiwrapper/alerts/actions/alert_action_component.py:227 | What `rstrip` drops is an all-whitespace suffix; the result is the start of the text. |
| Text.Strip | uiwrapper/alerts/actions/alert_action_component.py:227 | `strip()` has no whitespace at either end and is no longer than the input. |
| Text.StripInfix | uiwrapper/alerts/actions/alert_action_component.py:227 | The stripped text is a contiguous infix of the input. |
| Text.StripNoEdge | uiwrapper/alerts/actions/alert_action_component.py:227 | `strip()` leaves a text without edge whitespace unchanged. |
| Text.StripEmpty | uiwrapper/alerts/actions/alert_action_component.py:213-217 | `strip()` is empty iff the text is all whitespace. This is when `get_text` falls back. |
| Text.Collapse | uiwrapper/alerts/actions/alert_action_component.py:227 | `re.sub(r"\s+", " ", s)` gives only plain blanks as whitespace and no two adjacent whitespace characters. It is empty iff the input is, and starts with whitespace iff the input does. |
| Text.ElementText | uiwrapper/alerts/actions/alert_action_component.py:219-228 | `get_element_text` yields a normalized text: blanks only, no doubled whitespace, none at the ends. |
| Text.CollapseFixed | uiwrapper/alerts/actions/alert_action_component.py:227 | Collapsing a text that already has single blanks only changes nothing. |
| Text.NormalizedIsFixed | uiwrapper/alerts/actions/alert_action_component.py:227 | `get_element_text` leaves an already-normalized text unchanged. |
| Text.ElementTextIdempotent | uiwrapper/alerts/actions/alert_action_component.py:227 | `get_element_text` is idempotent. |
| Text.Lower | uiwrapper/alerts/actions/alert_action_component.py:237 | `lower()` keeps the length and lower-cases each ASCII letter in place. |
| Text.Remove | uiwrapper/alerts/actions/alert_action_component.py:237 | `replace(c, "")` removes every `c` and introduces no new character. |
| Text.RemoveAbsent | uiwrapper/alerts/actions/alert_action_component.py:237 | Removing a character the text does not contain changes nothing. |
| Text.RemoveConcat | uiwrapper/alerts/actions/alert_action_component.py:237 | Removal distributes over concatenation, so it keeps the order of what is left. |
| Text.UpdatedMessageClean | uiwrapper/alerts/actions/alert_action_component.py:230-237 | `get_updated_message` contains no blank and no double quote. |
| Text.LStripLower | uiwrapper/alerts/actions/alert_action_component.py:237 | `lstrip` commutes with `lower`. |
| Text.RStripLower | uiwrapper/alerts/actions/alert_action_component.py:237 | `rstrip` commutes with `lower`. |
| Text.RemoveLower | uiwrapper/alerts/actions/alert_action_component.py:237 | Removing a non-letter commutes with `lower`. |
| Text.StripLower | uiwrapper/alerts/actions/alert_action_component.py:237 | `strip` commutes with `lower`. |
| Text.UpdatedMessageCaseInsensitive | uiwrapper/helper.py:236-240 | The updated message ignores case: lower-casing the input first gives the same message. |
| Dicts.LookupKeys | uiwrapper/config_manager.py:96-123 | `get` finds exactly the keys that `Keys` (`d.keys()`) lists. |
| Dicts.LookupAt | uiwrapper/config_manager.py:133 | In a dictionary without duplicate keys, `get` of a stored key returns its stored value. |
| Dicts.Set | uiwrapper/config_manager.py:133 | `d[k] = v` keeps the size or grows it by one. |
| Dicts.SetKeys | uiwrapper/config_manager.py:133 | `d[k] = v` keeps the key order; a new key goes last. |
| Dicts.SetLookup | uiwrapper/config_manager.py:133 | After `d[k] = v`, `k` gives `v` and every other key gives what it gave before. |
| Dicts.SetUnique | uiwrapper/config_manager.py:133 | `d[k] = v` keeps every key unique. |
| ConfigManagers.Visible | uiwrapper/config_manager.py:133-137 | The stanza comprehension is no longer than the content. |
| ConfigManagers.VisibleLookup | uiwrapper/config_manager.py:133-137 | A stanza has no `eai:` key, and every other content key keeps its value. |
| ConfigManagers.VisibleKeys | uiwrapper/config_manager.py:133-137 | The stanza's keys are exactly the content keys that do not start with `eai:`. |
| ConfigManagers.Parsed | uiwrapper/config_manager.py:127-137 | The loop's dictionary has no more stanzas than there are entries. |
| ConfigManagers.ParsedUnique | uiwrapper/config_manager.py:127-137 | Every stanza name occurs once in the configuration. |
| ConfigManagers.ParsedOrder | uiwrapper/config_manager.py:127-133 | The stanzas come in order of first occurrence: the keys are `FirstNames`, the non-empty entry names with later duplicates dropped. |
| ConfigManagers.Configuration | uiwrapper/config_manager.py:123-125 | A missing or empty `entry` list gives `{}`. |
| ConfigManagers.ParsedHas | uiwrapper/config_manager.py:127-133 | A name is in the configuration iff some entry carries it as a non-empty name. Entries without a name are skipped. |
| ConfigManagers.ParsedLast | uiwrapper/config_manager.py:132-133 | The last entry with a given name decides its stanza: a later duplicate overwrites an earlier one. A missing `content` gives `{}`. |
| ConfigManagers.Kept | uiwrapper/config_manager.py:150-154 | The filter comprehension is no longer than its input. |
| ConfigManagers.KeptLookup | uiwrapper/config_manager.py:150-154 | `filter` keeps exactly the keys that contain some filter string, with their values unchanged. |
| ConfigManagers.KeptFirst | uiwrapper/config_manager.py:150-157 | The result is empty iff no key is wanted. Otherwise its first pair is the first wanted pair in insertion order. |
| ConfigManagers.Filter | uiwrapper/config_manager.py:140-159 | Without `single_stanza`, the result is the filtered dictionary. With it, the result is the first kept value, or StopIteration exactly when nothing is kept. |
| ConfigManagers.FilterSingle | uiwrapper/config_manager.py:155-157 | With `single_stanza`, the call fails iff no key is wanted. Otherwise it returns the value of the first wanted key of the input. |
| ConfigManagers.GetConfigStep | uiwrapper/config_manager.py:36-39 | `get_config` filters only when the filter is truthy; with `None` or `[]` it returns the whole configuration. |
| ConfigManagers.Aggregate | uiwrapper/config_manager.py:104-111 | The aggregate is one of the two `Response` values. |
| ConfigManagers.AggregateIff | uiwrapper/config_manager.py:104-111 | The result is Success iff every status code is 200, which holds vacuously with no stanzas. |
| ConfigManagers.Statuses | uiwrapper/config_manager.py:98-100 | One status code per stanza, in order. |
| ConfigManagers.RequestData.constructor | uiwrapper/config_manager.py:41 | The request body holds the caller's dictionary. |
| ConfigManagers.ConfigManager.constructor | uiwrapper/config_manager.py:15-18 | The query parameters are `count=0, output_mode=json`, plus the credentials and the URL. |
| ConfigManagers.ConfigManager.ParseConfiguration | uiwrapper/config_manager.py:113-138 | The for loop builds exactly `Configuration(reply)`. |
| ConfigManagers.ConfigManager.GetConfig | uiwrapper/config_manager.py:20-39 | `get_config` is `GetConfigStep` on the decoded reply. |
| ConfigManagers.ConfigManager.PostConfig | uiwrapper/config_manager.py:48 | The caller's dictionary gets `output_mode = json`, in place. |
| ConfigManagers.ConfigManager.UpdateConfig | uiwrapper/config_manager.py:63 | The caller's dictionary gets `output_mode = json`, in place. |
| ConfigManagers.ConfigManager.DeleteAllConfig | uiwrapper/config_manager.py:88-111 | Every stanza `get_config` lists is deleted in order, and the answer is the aggregate of their status codes. |
| ConfigManagers.OutputModeSet | uiwrapper/config_manager.py:48 | After the mutation, `output_mode` is `json` and every other field is unchanged. |
| Matching.FirstIndex | uiwrapper/alerts/components/table.py:294-305 | The first position of a key: none iff the key is absent, otherwise the first occurrence. |
| Matching.FirstIndexAt | uiwrapper/alerts/components/table.py:294-305 | A position with no earlier occurrence of the key is the first index. |
| AlertComponentActions.WaitTimeout | uiwrapper/alerts/actions/alert_action_component.py:132-135 | A truthy timeout is used as given; `None` or `0` gives the default 15-second wait. |
| AlertComponentActions.AlertBaseRegistry | uiwrapper/alerts/components/alert_base.py:20-27 | An alert widget's registry has its own name plus `label_component` and `help`, all normalized. |
| AlertComponentActions.FindElements | uiwrapper/alerts/actions/alert_action_component.py:54-68 | `_find_elements` never raises: a rejected selector gives `[]`, otherwise the driver's elements. |
| AlertComponentActions.WaitAndFind | uiwrapper/alerts/actions/alert_action_component.py:118-136 | Wait-then-find succeeds iff the named element becomes visible, and then returns the non-empty list of every element under that name. |
| AlertComponentActions.FindNamed | uiwrapper/alerts/actions/alert_action_component.py:54-68 | `_find_elements(*get_locator(name))` fails only for an unregistered name. |
| AlertComponentActions.GetElementText | uiwrapper/alerts/actions/alert_action_component.py:219-228 | The inner text comes back normalized. |
| AlertComponentActions.GetText | uiwrapper/alerts/actions/alert_action_component.py:194-217 | `get_text` fails iff the element is not present. Otherwise the result is the trimmed text when non-empty, else `"element text not found of locator=" + name`, and never empty. |
| AlertComponentActions.ClickElementStep | uiwrapper/alerts/actions/alert_action_component.py:70-89 | A failing clickable wait is raised unchanged and changes nothing; otherwise the element is clicked. |
| AlertComponentActions.ClickElementClicksOnlyClickable | uiwrapper/alerts/actions/alert_action_component.py:77-89 | `click_element` passes iff the wait yields an element whose click goes through, and then logs exactly that click. Otherwise the session is unchanged. |
| AlertComponentActions.ClickElement | uiwrapper/alerts/actions/alert_action_component.py:70-89 | The outcome and the new session are `ClickElementStep`. |
| AlertComponentActions.ClickElementIn | uiwrapper/alerts/actions/alert_action_component.py:70-89 | The same, for a widget's own registry. |
| AlertComponentActions.EnterTextStep | uiwrapper/alerts/actions/alert_action_component.py:91-116 | An unknown name raises UnboundLocalError from the handler, and the page never changes. |
| AlertComponentActions.EnterTextClearsUnlessPassword | uiwrapper/alerts/actions/alert_action_component.py:100-116 | A present field is cleared unless its selector is exactly `"password"`, then the text is typed. The call passes iff neither `clear()` nor `send_keys` raises. A failing `clear()` changes nothing, and a failing `send_keys` leaves only the clearing behind; the handler re-raises either error. |
| AlertComponentActions.EnterTextFailsCleanly | uiwrapper/alerts/actions/alert_action_component.py:106-116 | When the element is missing, the error is raised and nothing is typed. |
| AlertComponentActions.EnterText | uiwrapper/alerts/actions/alert_action_component.py:91-116 | The outcome and the new session are `EnterTextStep`. |
| Components.BaseRegistry | uiwrapper/components/base.py:20-29 | A `Base` widget's registry has its own name plus the label, tooltip, icon and help pairs, all normalized. |
| Components.BaseRegistryContainer | uiwrapper/components/base.py:20-29 | The widget's own name resolves to its pair unless it is one of the base names, which overwrite it. |
| Components.BaseWidgetResolves | uiwrapper/components/button.py:23-33 | A button or message not named like a base pair is found through its own pair. |
| Widgets.WithLabel | uiwrapper/components/select.py:258-259 | The chips whose stripped, lower-cased text is the key: exactly those. |
| Widgets.ClickAll | uiwrapper/components/select.py:213-218 | A click loop keeps the session on a valid page. |
| Widgets.ClickAllSnoc | uiwrapper/components/select.py:213-218 | One more element is clicked only when every earlier click went through. |
| Widgets.ClickAllSticks | uiwrapper/components/select.py:212-224 | After a failing click the loop stops: later elements are never clicked. |
| Widgets.ClickAllSucceeds | uiwrapper/components/select.py:213-218 | When no click fails, the loop passes and logs every click in order. |
| Widgets.ClickAllFails | uiwrapper/components/select.py:212-224 | When the k-th click is the first to fail, the loop fails after logging exactly the first k clicks. |
| Widgets.ClickAllPassIff | uiwrapper/components/select.py:212-227 | The loop passes iff no click fails. |
| Widgets.ClickEach | uiwrapper/components/select.py:213-218 | The click loop's outcome and new session are `ClickAll`. |
| Widgets.PickClicksFirstMatch | uiwrapper/components/select.py:175-181 | With no label equal to the key, ValueError without a click; the selects pass the options' `strip().lower()` keys (`FoldedTexts`) as labels. Otherwise the first labelled option is clicked: True after a good click, the click's error otherwise. |
| Widgets.PickStep | uiwrapper/components/select.py:175-181 | The option loop keeps the session on a valid page. `PickClicksFirstMatch` states its result. |
| Widgets.Pick | uiwrapper/components/select.py:175-181 | The loop's result and new session are `PickStep`. |
| AlertTables.TableRegistryResolves | uiwrapper/alerts/components/table.py:45-64 | Each of the seventeen names the table adds (`TableLocators`) resolves to its CSS pair built from the container's selector, whatever the container is called. |
| AlertTables.TableRegistryContainer | uiwrapper/alerts/components/table.py:41-43 | The container's own name still resolves to its normalized pair. |
| AlertTables.FollowLinkContract | uiwrapper/alerts/components/table.py:290-306 | No links gives False, and links whose lower-cased collapsed texts (`LinkKeys`) lack the key raise ValueError. True comes back iff the first matching link is displayed, enabled and clicked without error. Anything but True leaves the session unchanged. |
| AlertTables.FollowLinkClicksFirstMatch | uiwrapper/alerts/components/table.py:294-299 | A True result clicked the first link with the key, and nothing else. |
| AlertTables.ForwardKept | uiwrapper/alerts/components/table.py:253-254 | Writing `temp_col` keeps the paging assumption. |
| AlertTables.NextPageAdvances | uiwrapper/alerts/components/table.py:281-306 | Under the paging assumption, a `next_page` that returns True moves to a later page. |
| AlertTables.Prepend | uiwrapper/alerts/components/table.py:74-78 | `rows.extend(...)`: the caller's rows first, then the walk's rows. |
| AlertTables.PrependTwice | uiwrapper/alerts/components/table.py:78-81 | Extending in two steps equals extending once with both lists. |
| AlertTables.WalkSinglePage | uiwrapper/alerts/components/table.py:73-83 | A table without pagination links yields its current rows, without a click. |
| AlertTables.PageStepOnlyClicks | uiwrapper/alerts/components/table.py:281-306 | A pagination step appends at most one click to the log and nothing else. |
| AlertTables.WalkOnlyClicks | uiwrapper/alerts/components/table.py:66-83 | Walking the pages only ever appends clicks to the log. |
| AlertTables.ColumnKey | uiwrapper/alerts/components/table.py:249 | `column.lower().replace(" ", "_")`: same length, no blank, each character lower-cased with a blank turned into `_`. |
| AlertTables.ColumnValueStep | uiwrapper/alerts/components/table.py:239-256 | The status column leaves the registry alone and returns edge-stripped text. Any other column writes only `temp_col` as `value + " td.cell-" + key` and returns normalized text. |
| AlertTables.ColumnValueKeepsOthers | uiwrapper/alerts/components/table.py:253-254 | `_column_value` changes the resolution of no name other than `temp_col`. |
| AlertTables.ColumnValueIgnoresTempCol | uiwrapper/alerts/components/table.py:253-255 | What `_column_value` reads does not depend on an earlier `temp_col`. |
| AlertTables.ScanFound | uiwrapper/alerts/components/table.py:109-115 | A row found from position i of a page matches: equal value, or containment when searching. |
| AlertTables.ScanFoundRow | uiwrapper/alerts/components/table.py:109-115 | The same property, for the step at one row. |
| AlertTables.SearchFound | uiwrapper/alerts/components/table.py:97-117 | The row `get_row` returns has a column value that matches the query, read on the page where it was found. |
| AlertTables.CellReadNoValueError | uiwrapper/alerts/components/table.py:239-256 | Reading a row's column never raises ValueError, so a ValueError from `get_row` never comes from a cell. |
| AlertTables.ColumnValueIsCellRead | uiwrapper/alerts/components/table.py:239-256 | Once the table container shows, `_column_value` reads what `CellRead` reads: the stripped status text, or the normalized text of the cell found under the row. |
| AlertTables.AgreeTempCol | uiwrapper/alerts/components/table.py:253-254 | Writing `temp_col` keeps what the row stream resolves: the container, the rows, the pagination links and the status column. |
| AlertTables.NextPageAgree | uiwrapper/alerts/components/table.py:281-306 | `next_page` does not depend on `temp_col`: two registries that agree on those names page alike. |
| AlertTables.FirstHitMiss | uiwrapper/alerts/components/table.py:109-115 | A row whose column reads without a match is skipped, and the search goes on one row later. |
| AlertTables.FirstHitFound | uiwrapper/alerts/components/table.py:109-115 | The position the search reports holds a matching row, and every earlier row was read without a match. |
| AlertTables.FirstHitNone | uiwrapper/alerts/components/table.py:109-117 | The search finds nothing iff no row of the stream matches. |
| AlertTables.FirstHitErr | uiwrapper/alerts/components/table.py:109-115 | An error from the search is the error some row's column read raised. |
| AlertTables.ScanAgrees | uiwrapper/alerts/components/table.py:97-117 | Scanning a page from position i is the search over the rest of the row stream from that row on, whatever `temp_col` holds. |
| AlertTables.ScanEnd | uiwrapper/alerts/components/table.py:97-117 | The same at the end of a page, where `next_page` decides whether the stream goes on. |
| AlertTables.ScanRow | uiwrapper/alerts/components/table.py:109-115 | The same at one row of a page. |
| AlertTables.ScanMiss | uiwrapper/alerts/components/table.py:109-115 | A row whose column reads without a match is passed over by both the scan and the search over the stream. |
| AlertTables.SearchAgrees | uiwrapper/alerts/components/table.py:97-117 | The page-by-page search is the search over the whole row stream, and a found row leaves the session in the state where it was read. |
| AlertTables.GetRowAgrees | uiwrapper/alerts/components/table.py:85-117 | `get_row` is the first-match search over the lazily paged row stream of `get_total_rows_elements`. A found row leaves the session where that row was read, so no page is clicked past it. |
| AlertTables.GetRowFirstMatch | uiwrapper/alerts/components/table.py:97-117 | A row `get_row` returns is in the stream and matches, every earlier row of the stream does not match, and the session ends on the page where it was read. |
| AlertTables.GetRowNotFound | uiwrapper/alerts/components/table.py:97-117 | `get_row` raises ValueError iff no row of the stream matches and the stream ended without error, or because `next_page` raised ValueError. |
| AlertTables.WalkIsStream | uiwrapper/alerts/components/table.py:66-117 | `get_list_of_rows` lists exactly the rows `get_row` iterates, in the same order, and fails with the error that ends that stream. |
| AlertTables.SortScanSkips | uiwrapper/alerts/components/table.py:379-381 | Headers that do not match are skipped without effect. |
| AlertTables.SortFirstMatch | uiwrapper/alerts/components/table.py:381-401 | On the first matching header: the order it already has costs no click, and the opposite order costs one. From any other direction, `desc` costs two. Each of these returns True. |
| AlertTables.SortNoMatch | uiwrapper/alerts/components/table.py:402-403 | With no matching header, ValueError without a click. |
| AlertTables.SortAscFallsThrough | uiwrapper/alerts/components/table.py:395-403 | As written, `asc` on an unsorted sole matching header clicks once and then raises ValueError. |
| AlertTables.SortIntendedSucceeds | uiwrapper/alerts/components/table.py:379-403 | With the intended branch, sorting a column that has a header always returns True after at most two clicks. |
| AlertTables.Headers | uiwrapper/alerts/components/table.py:411-418 | `get_headers` keeps at most one entry per header. |
| AlertTables.HeadersStripped | uiwrapper/alerts/components/table.py:416 | Every header returned is stripped. |
| AlertTables.HeadersAllKept | uiwrapper/alerts/components/table.py:413-416 | When every header has text, all are kept in order, stripped. |
| AlertTables.ToggleClicksIff | uiwrapper/alerts/components/table.py:429-440 | The switch is clicked exactly when `enable` differs from `label == "enabled"`, where the label is trimmed and lower-cased. Otherwise nothing is clicked. |
| AlertTables.DeleteRowNeverSucceeds | uiwrapper/alerts/components/table.py:165-192 | As written, `delete_row` never returns True. |
| AlertTables.DeleteRowIntendedSucceeds | uiwrapper/alerts/components/table.py:165-185 | The intended `delete_row` returns True only when the row was found, its delete button clicked, the popup shown and the prompt's delete, close or cancel button clickable. The log then gains exactly those two clicks, in that order, and the popup is gone. |
| AlertTables.Walk | uiwrapper/alerts/components/table.py:66-83 | The walk of `get_list_of_rows` keeps the session on a valid page. `WalkIsStream`, `WalkSinglePage` and `WalkOnlyClicks` state its rows and its effect. |
| AlertTables.FollowLink | uiwrapper/alerts/components/table.py:290-306 | Following a pagination link keeps the session on a valid page, and any result but True leaves the session unchanged. |
| AlertTables.PageStep | uiwrapper/alerts/components/table.py:281-356 | The loop shared by `next_page`, `prev_page` and `switch_to` keeps the session on a valid page. `PageStepOnlyClicks` and `NextPageAdvances` state its effect. |
| AlertTables.NextPageStep | uiwrapper/alerts/components/table.py:281-306 | `next_page` keeps the session on a valid page. `NextPageAdvances` and `FollowLinkContract` state its result. |
| AlertTables.SearchPages | uiwrapper/alerts/components/table.py:97-117 | The row search across pages keeps the session on a valid page, and its `temp_col` writes keep the paging assumption. |
| AlertTables.ScanRows | uiwrapper/alerts/components/table.py:109-115 | Scanning one page's rows keeps the session on a valid page and the paging assumption. |
| AlertTables.GetRowStep | uiwrapper/alerts/components/table.py:97-117 | `get_row` keeps the session on a valid page and the paging assumption. `GetRowAgrees`, `GetRowFirstMatch` and `GetRowNotFound` state its result. |
| AlertTables.SortScan | uiwrapper/alerts/components/table.py:379-403 | The header loop of `sort_table` as written keeps the session on a valid page. `SortScanSkips`, `SortFirstMatch`, `SortNoMatch` and `SortAscFallsThrough` state its result. |
| AlertTables.SortTableStep | uiwrapper/alerts/components/table.py:369-403 | `sort_table` as written keeps the session on a valid page. |
| AlertTables.SortScanIntended | uiwrapper/alerts/components/table.py:379-403 | The intended header loop keeps the session on a valid page. `SortIntendedSucceeds` states its result. |
| AlertTables.GetHeadersStep | uiwrapper/alerts/components/table.py:405-418 | `get_headers` succeeds iff the header row shows and `table_headers` is registered, and every header it returns is stripped. |
| AlertTables.ToggleStep | uiwrapper/alerts/components/table.py:429-440 | The status switch keeps the session on a valid page. `ToggleClicksIff` states when it clicks. |
| AlertTables.UpdateStatusStep | uiwrapper/alerts/components/table.py:420-440 | `update_status` keeps the session on a valid page. |
| AlertTables.UpdateStatusMissing | uiwrapper/alerts/components/table.py:428 | `update_status` of a name no row of the stream carries raises ValueError. |
| AlertTables.UpdateStatusTogglesFirstMatch | uiwrapper/alerts/components/table.py:428-440 | Once the name is found, `update_status` toggles the first row of the stream that carries it, on the page where that row was read. |
| AlertTables.DeleteRowStep | uiwrapper/alerts/components/table.py:157-192 | `delete_row` as written keeps the session on a valid page. `DeleteRowNeverSucceeds` states its result. |
| AlertTables.DeleteRowIntended | uiwrapper/alerts/components/table.py:157-185 | The intended `delete_row` keeps the session on a valid page. `DeleteRowIntendedSucceeds` states its result. |
| AlertTables.AlertTable.constructor | uiwrapper/alerts/components/table.py:34-64 | `name` and `value` come from the container, and the registry is the container, the alert base pairs, then the table's pairs. |
| AlertTables.AlertTable.Follow | uiwrapper/alerts/components/table.py:281-356 | The shared pagination loop is `PageStep`. |
| AlertTables.AlertTable.NextPage | uiwrapper/alerts/components/table.py:281-306 | `next_page` is `NextPageStep`: the link keyed `next`, raising when links exist but none matches. |
| AlertTables.AlertTable.PrevPage | uiwrapper/alerts/components/table.py:308-330 | `prev_page` is `PageStep` with the key `prev`. |
| AlertTables.AlertTable.SwitchTo | uiwrapper/alerts/components/table.py:332-356 | `switch_to(value)` is `PageStep` with the key `value.lower()`. |
| AlertTables.AlertTable.GetListOfRows | uiwrapper/alerts/components/table.py:66-83 | The caller's rows followed by the rows of every page reached while `next_page` is True; the session is where the walk leaves it. |
| AlertTables.AlertTable.GetRowsCount | uiwrapper/alerts/components/table.py:119-125 | The count is the length of the walk's rows. |
| AlertTables.AlertTable.ColumnValue | uiwrapper/alerts/components/table.py:239-256 | The value and the new registry are `ColumnValueStep`. |
| AlertTables.AlertTable.GetRow | uiwrapper/alerts/components/table.py:85-117 | The for loop over the lazily paged row stream is `GetRowStep`, including the pages it clicks through and its `temp_col` writes; `GetRowAgrees` ties it to the stream. |
| AlertTables.AlertTable.SortTable | uiwrapper/alerts/components/table.py:369-403 | `sort_table` as written is `SortTableStep`. |
| AlertTables.AlertTable.GetHeaders | uiwrapper/alerts/components/table.py:405-418 | `get_headers` is `GetHeadersStep` and changes nothing. |
| AlertTables.AlertTable.Toggle | uiwrapper/alerts/components/table.py:429-440 | The status switch of a found row is `ToggleStep`. |
| AlertTables.AlertTable.UpdateStatus | uiwrapper/alerts/components/table.py:420-440 | `update_status` is `UpdateStatusStep`: find the row, then toggle it if needed. |
| AlertTables.AlertTable.DeleteRow | uiwrapper/alerts/components/table.py:157-192 | `delete_row` as written is `DeleteRowStep`. |
| Helpers.BrowserName | uiwrapper/helper.py:101-117 | chrome, firefox and edge map to `chrome`, `firefox` and `MicrosoftEdge`; any other name raises ValueError. |
| Helpers.OptionArgumentsOrder | uiwrapper/helper.py:119-127 | The five common arguments come first in fixed order. Headless mode appends `--headless` and then the window size, and `--headless` is present iff headless. |
| Helpers.Options.constructor | uiwrapper/helper.py:104 | A new options object has no capability and no argument. |
| Helpers.Options.SetCapability | uiwrapper/helper.py:105 | Sets one capability and keeps the arguments. |
| Helpers.Options.AddArgument | uiwrapper/helper.py:119 | Appends one argument and keeps the capabilities. |
| Helpers.EdgeDriverFileWindows | uiwrapper/helper.py:187-195 | Edge uses `msedgedriver.exe` exactly on win and cygwin platforms, and `msedgedriver` otherwise. |
| Helpers.LaunchRemoteIff | uiwrapper/helper.py:138-201 | Chrome and Firefox go remote to `REMOTE_HOST + ":4444/wd/hub"` exactly when `REMOTE_HOST` is set; Edge always runs locally. A local launch is for the requested browser. |
| Helpers.SetupDriverStep | uiwrapper/helper.py:34-66 | The options are built first, so an unsupported browser fails with ValueError before any dispatch. A supported one gets its browser name and the option arguments. |
| Helpers.SetupDriverDispatch | uiwrapper/helper.py:43-49 | Every supported browser is dispatched to its own setup, with the same options. |
| Helpers.WebDriverHelper.constructor | uiwrapper/helper.py:20-30 | The configuration fields are stored; the driver is not yet quit. |
| Helpers.WebDriverHelper.GetBrowserOptions | uiwrapper/helper.py:90-136 | A fresh options object whose only capability is `browserName` and whose arguments are the fixed list; ValueError for an unsupported browser. |
| Helpers.WebDriverHelper.SetupDriver | uiwrapper/helper.py:34-66 | `setup_driver` is `SetupDriverStep`. |
| Helpers.WebDriverHelper.Login | uiwrapper/helper.py:68-88 | The login outcome is passed on unchanged, and the driver is quit exactly when the login failed. |
| Selects.SelectRegistryKeys | uiwrapper/components/select.py:77-134 | The registered names are the base ones plus `values`, `search_box` and `load_values`, plus `open`, `selected` and `cancel_selected` iff some select flag is set. |
| Selects.SearchBoxLocator | uiwrapper/components/select.py:65-69 | `search_box` is the base plus the combo-box textbox iff `searchable and index`, and the popover textbox otherwise. |
| Selects.SingleSelectLocators | uiwrapper/components/select.py:107-134 | Single-select: `selected` uses the combo box iff `searchable and index`, and `open` uses it iff `index`. `cancel_selected` drops the base prefix iff `index`. The base name keeps the caller's strategy. These win over the multi-select pairs. |
| Selects.MultiSelectLocators | uiwrapper/components/select.py:92-105 | Multi-select without single-select registers `open`, `selected` and `cancel_selected` under the base prefix. |
| Selects.DeselectRaisesIff | uiwrapper/components/select.py:232-269 | `deselect` raises ValueError, without touching the session, iff no branch applies: neither single-select nor multi-select with a value. |
| Selects.DeselectChipsClicksMatches | uiwrapper/components/select.py:254-262 | The multi-select branch returns True iff no matching chip's click fails. It clicks every chip labelled `value` case-insensitively, then sends Escape. |
| Selects.DeselectAllContract | uiwrapper/components/select.py:203-230 | A non-multi widget raises ValueError without a click. A multi widget always ends with Escape, and returns True iff no chip's click failed. |
| Selects.SelectClicksFirstMatch | uiwrapper/components/select.py:154-181 | After the prelude, `select` never returns False. With `value.lower()` not among the options' `FoldedTexts` it raises ValueError without a click; otherwise it clicks the first option whose stripped lower-cased text is `value.lower()`. |
| Selects.HitsIff | uiwrapper/components/select.py:148-151 | One option is clicked once per requested value it matches, and never when it matches none. |
| Selects.MatchClicksAppend | uiwrapper/components/select.py:146-151 | The nested loop's clicks over two option lists are the clicks over each, in order. |
| Selects.MatchClicksIff | uiwrapper/components/select.py:146-151 | An option is clicked iff it is listed and matches some requested value case-insensitively. |
| Selects.SelectMultipleAlwaysTrue | uiwrapper/components/select.py:136-152 | `select_multiple_values` never returns False; a non-multi widget returns True without doing anything. |
| Selects.SelectMultipleIff | uiwrapper/components/select.py:143-152 | On a multi widget whose options show, the result is True iff none of the matching clicks fails. |
| Selects.GetAllOptionsStripped | uiwrapper/components/select.py:271-290 | Every option is stripped and the listed options' `text.strip()` (`StrippedTexts`) come first, in order. A non-multi widget returns exactly the listed options. |
| Selects.FindValueStep | uiwrapper/components/select.py:292-299 | `find_value` is exact, case-sensitive membership in `get_all_options()`, with the same session effect. |
| Selects.IsEditableStep | uiwrapper/components/select.py:326-339 | `is_editable` yields a value only when `open` is present. |
| Selects.IsEditableIff | uiwrapper/components/select.py:334-337 | `is_editable` is `not (disabled or readonly)`, with a missing or empty attribute counting as false. |
| Selects.IsEditableNeedsOpen | uiwrapper/components/select.py:326-339 | A widget with neither select flag never registers `open`, so `is_editable` raises IndexError. |
| Selects.ClickHits | uiwrapper/components/select.py:148-151 | The inner loop over the requested values clicks an option once per match. |
| Selects.ClickMatches | uiwrapper/components/select.py:146-151 | The nested loops' outcome and new session are the clicks of `MatchClicks`. |
| Selects.SelectPrelude | uiwrapper/components/select.py:163-174 | What `select` does before its loop keeps the session on a valid page. |
| Selects.SearchStep | uiwrapper/components/select.py:316-324 | `_search` keeps the session on a valid page. |
| Selects.DeselectIndexedStep | uiwrapper/components/select.py:247-252 | The indexed single-select branch of `deselect` keeps the session on a valid page. |
| Selects.DeselectChipsStep | uiwrapper/components/select.py:254-262 | The multi-select branch of `deselect` keeps the session on a valid page. `DeselectChipsClicksMatches` states its result. |
| Selects.SelectStep | uiwrapper/components/select.py:154-181 | `select` keeps the session on a valid page. `SelectClicksFirstMatch` states its result. |
| Selects.DeselectStep | uiwrapper/components/select.py:232-269 | `deselect` keeps the session on a valid page. `DeselectRaisesIff` and `DeselectChipsClicksMatches` state its result. |
| Selects.DeselectAllStep | uiwrapper/components/select.py:203-230 | `deselect_all` keeps the session on a valid page. `DeselectAllContract` states its result. |
| Selects.SelectMultipleStep | uiwrapper/components/select.py:136-152 | `select_multiple_values` keeps the session on a valid page. `SelectMultipleAlwaysTrue` and `SelectMultipleIff` state its result. |
| Selects.GetAllOptionsStep | uiwrapper/components/select.py:271-290 | `get_all_options` keeps the session on a valid page. `GetAllOptionsStripped` states its result. |
| Selects.Select.constructor | uiwrapper/components/select.py:33-90 | `value` is the control-group selector, and the registry is `SelectRegistry` of the flags. |
| Selects.Select.ClickNamed | uiwrapper/components/select.py:169 | `click_element(name)` is `ClickElementStep`. |
| Selects.Select.DeselectIndexed | uiwrapper/components/select.py:247-252 | The indexed single-select branch of `deselect` is `DeselectIndexedStep`. |
| Selects.Select.DeselectChips | uiwrapper/components/select.py:254-262 | The multi-select branch of `deselect` is `DeselectChipsStep`. |
| Selects.Select.Deselect | uiwrapper/components/select.py:232-269 | `deselect` is `DeselectStep`. |
| Selects.Select.DeselectAll | uiwrapper/components/select.py:203-230 | `deselect_all` is `DeselectAllStep`. |
| Selects.Select.Search | uiwrapper/components/select.py:316-324 | `_search` is `SearchStep`. |
| Selects.Select.Prelude | uiwrapper/components/select.py:163-174 | What `select` does before its loop is `SelectPrelude`. |
| Selects.Select.SelectValue | uiwrapper/components/select.py:154-181 | `select` is `SelectStep`. |
| Selects.Select.SelectMultipleValues | uiwrapper/components/select.py:136-152 | `select_multiple_values` is `SelectMultipleStep`. |
| Selects.Select.GetAllOptions | uiwrapper/components/select.py:271-290 | `get_all_options` is `GetAllOptionsStep`. |
| Selects.Select.FindValue | uiwrapper/components/select.py:292-299 | `find_value` is `FindValueStep`. |
| Selects.Select.IsEditable | uiwrapper/components/select.py:326-339 | `is_editable` is `IsEditableStep` and changes nothing. |
| CheckBoxes.IsCheckedStep | uiwrapper/components/check_box.py:81-92 | `is_checked` fails iff the element is missing; otherwise it holds iff the state attribute reads exactly `"true"`. |
| CheckBoxes.SetStepContract | uiwrapper/components/check_box.py:40-79 | Every error leaves the session untouched. True is returned iff the state differed from the target, and then exactly the button was clicked. False means no click. |
| CheckBoxes.SetReachesTarget | uiwrapper/components/check_box.py:40-79 | On a page where clicking the button flips the state, `check`/`uncheck` always end in the requested state. |
| CheckBoxes.SetIdempotent | uiwrapper/components/check_box.py:50-56 | On such a page, a second `check` (or `uncheck`) returns False and changes nothing. |
| CheckBoxes.CheckUncheckRoundTrip | uiwrapper/components/check_box.py:40-79 | Checking then unchecking, or the other way round, clicks twice and restores the original state. |
| CheckBoxes.ReadChecked | uiwrapper/components/check_box.py:81-92 | The read is `IsCheckedStep`. |
| CheckBoxes.SetState | uiwrapper/components/check_box.py:40-79 | The conditional click is `SetStep`. |
| CheckBoxes.SetStep | uiwrapper/components/check_box.py:40-79 | The conditional click keeps the session on a valid page. `SetStepContract` states its result. |
| CheckBoxes.CheckBoxLocators | uiwrapper/components/check_box.py:27-38 | `name + "_checkbox_btn"` and `name + "_checkbox"` are under the control-group base with the caller's strategy, and the name resolves to the base. |
| CheckBoxes.CheckBox.constructor | uiwrapper/components/check_box.py:18-38 | `name` and the control-group `value` are stored with the registry `CheckBoxRegistry`. |
| CheckBoxes.CheckBox.IsChecked | uiwrapper/components/check_box.py:81-92 | `is_checked` reads `data-test-selected` on `name + "_checkbox"`. |
| CheckBoxes.CheckBox.Check | uiwrapper/components/check_box.py:40-59 | `check` waits for the button first, then is `SetStep` with target checked. |
| CheckBoxes.CheckBox.Uncheck | uiwrapper/components/check_box.py:61-79 | `uncheck` does not wait, and is `SetStep` with target unchecked. |
| AlertCheckboxes.AlertCheckboxLocators | uiwrapper/alerts/components/checkbox.py:20-34 | `checkbox_btn` is `value + " .checkbox a.btn"`, the name maps to `[by, value]` again after the base pairs, and the registered names are exactly five. |
| AlertCheckboxes.AlertCheckbox.constructor | uiwrapper/alerts/components/checkbox.py:11-34 | The registry is `AlertCheckboxRegistry`. |
| AlertCheckboxes.AlertCheckbox.IsChecked | uiwrapper/alerts/components/checkbox.py:76-84 | `is_checked` reads `aria-checked` on the widget's own element. |
| AlertCheckboxes.AlertCheckbox.Check | uiwrapper/alerts/components/checkbox.py:36-54 | `check` is `SetStep` with target checked, waiting for `checkbox_btn` first. |
| AlertCheckboxes.AlertCheckbox.Uncheck | uiwrapper/alerts/components/checkbox.py:56-74 | `uncheck` is `SetStep` with target unchecked, without waiting. |
| DropDowns.DropDownRegistryLocators | uiwrapper/components/dropdown.py:40-54 | The button key `name + "_type"` has the container's strategy and selector, as does the name unless a later pair overwrites it. `menu` and `selected_value` are fixed CSS pairs. |
| DropDowns.OptionsStep | uiwrapper/components/dropdown.py:65-71 | Reading the options changes the session only through the button click. |
| DropDowns.OptionsFromPopover | uiwrapper/components/dropdown.py:65-71 | The options are those at `"#" + popover-id + label`. A button without `data-test-popover-id` raises TypeError. |
| DropDowns.SelectClicksFirstMatch | uiwrapper/components/dropdown.py:56-77 | `select` never returns False. With no match it raises ValueError without a click; otherwise it clicks the first option whose stripped lower-cased text is `value.lower()`. |
| DropDowns.Shown | uiwrapper/components/dropdown.py:93-97 | The empty-text filter keeps at most every text. |
| DropDowns.ShownMembers | uiwrapper/components/dropdown.py:93-97 | The filter keeps exactly the non-empty texts. |
| DropDowns.ShownAppend | uiwrapper/components/dropdown.py:93-97 | The filter distributes over concatenation, so it keeps the order. |
| DropDowns.ShownAllKept | uiwrapper/components/dropdown.py:93-97 | When no text is empty, all are kept. |
| DropDowns.DropdownValuesContract | uiwrapper/components/dropdown.py:79-98 | `get_dropdown_values` succeeds iff the options can be read. Every value is non-empty and stripped, and every non-empty stripped option text is listed. |
| DropDowns.Options | uiwrapper/components/dropdown.py:65-71 | The option read is `OptionsStep`. |
| DropDowns.SelectOption | uiwrapper/components/dropdown.py:56-77 | `select` is `SelectStep`. |
| DropDowns.ShownTexts | uiwrapper/components/dropdown.py:92-98 | The append loop builds exactly the stripped non-empty texts. |
| DropDowns.SelectStep | uiwrapper/components/dropdown.py:56-77 | `select` keeps the session on a valid page. `SelectClicksFirstMatch` states its result. |
| DropDowns.GetDropdownValuesStep | uiwrapper/components/dropdown.py:79-98 | `get_dropdown_values` keeps the session on a valid page. `DropdownValuesContract` states its result. |
| DropDowns.SelectedValueStep | uiwrapper/components/dropdown.py:100-102 | `get_selected_value` fails iff the element is missing; otherwise it is its stripped text. |
| DropDowns.DropDown.constructor | uiwrapper/components/dropdown.py:22-54 | The button name is `name + "_type"` and the registry is `DropDownRegistry`. |
| DropDowns.DropDown.Select | uiwrapper/components/dropdown.py:56-77 | `select` is `SelectStep` on the button. |
| DropDowns.DropDown.GetDropdownValues | uiwrapper/components/dropdown.py:79-98 | `get_dropdown_values` is `GetDropdownValuesStep`. |
| DropDowns.DropDown.GetSelectedValue | uiwrapper/components/dropdown.py:100-102 | `get_selected_value` is `SelectedValueStep` and changes nothing. |
| AlertDropDowns.AlertDropDownRegistryLocators | uiwrapper/alerts/components/dropdown.py:32-39 | Each of the four added names resolves to its CSS pair, and `add_action` is `value + " .dropdown-toggle.btn"`. |
| AlertDropDowns.OpenStep | uiwrapper/alerts/components/dropdown.py:47-48 | Opening changes the session only through the `add_action` click. |
| AlertDropDowns.ListTextsNormalized | uiwrapper/alerts/components/dropdown.py:41-52 | The listed values are the collapsed texts (`CollapsedTexts`) of every element, in order, with empty ones kept, and each is normalized. |
| AlertDropDowns.SelectOnlyListed | uiwrapper/alerts/components/dropdown.py:54-68 | `select` returns True only for a name among `get_dropdown_values`, and raises ValueError for any other name. |
| AlertDropDowns.SelectClicksFirstExact | uiwrapper/alerts/components/dropdown.py:61-64 | `select` clicks the first action whose collapsed text equals the name exactly, comparing case-sensitively. |
| AlertDropDowns.ElementTexts | uiwrapper/alerts/components/dropdown.py:50-51 | The append loop builds exactly the collapsed texts. |
| AlertDropDowns.ListStep | uiwrapper/alerts/components/dropdown.py:41-52 | The list read keeps the session on a valid page. `ListTextsNormalized` states its result. |
| AlertDropDowns.GetDropdownValuesStep | uiwrapper/alerts/components/dropdown.py:41-52 | `get_dropdown_values` keeps the session on a valid page; it is the list read of `action_name` after the menu wait. |
| AlertDropDowns.GetAddActionsListStep | uiwrapper/alerts/components/dropdown.py:70-82 | `get_add_actions_list` keeps the session on a valid page; it is the list read of `add_actions_container` without the menu wait. |
| AlertDropDowns.SelectStep | uiwrapper/alerts/components/dropdown.py:54-68 | `select` keeps the session on a valid page. `SelectOnlyListed` and `SelectClicksFirstExact` state its result. |
| AlertDropDowns.AlertDropDown.constructor | uiwrapper/alerts/components/dropdown.py:14-39 | The registry is `AlertDropDownRegistry`. |
| AlertDropDowns.AlertDropDown.Open | uiwrapper/alerts/components/dropdown.py:47-48 | The click on `add_action`, and optionally the menu wait, is `OpenStep`. |
| AlertDropDowns.AlertDropDown.List | uiwrapper/alerts/components/dropdown.py:46-52 | The shared list read is `ListStep`. |
| AlertDropDowns.AlertDropDown.GetDropdownValues | uiwrapper/alerts/components/dropdown.py:41-52 | `get_dropdown_values` waits for the menu and lists `action_name`. |
| AlertDropDowns.AlertDropDown.GetAddActionsList | uiwrapper/alerts/components/dropdown.py:70-82 | `get_add_actions_list` lists `.link-label` without waiting for the menu. |
| AlertDropDowns.AlertDropDown.Select | uiwrapper/alerts/components/dropdown.py:54-68 | `select` is `SelectStep`. |
| AlertSelects.AlertSelectNameOverwritten | uiwrapper/alerts/components/select.py:31-39 | The name is re-registered as `value + ' [data-test="select"]'`, and `values` is the fixed option selector. |
| AlertSelects.OpenStep | uiwrapper/alerts/components/select.py:47-54 | The fallback click happens only for a registered name. |
| AlertSelects.OpenFallsBackIff | uiwrapper/alerts/components/select.py:47-54 | The fallback is taken iff the name is visible but clicking it fails. A successful fallback clicked the clickable element at the selector plus `[label="Select..."]`. |
| AlertSelects.PickOption | uiwrapper/alerts/components/select.py:56-63 | The menu wait and the option loop keep the session on a valid page. |
| AlertSelects.SelectAsWritten | uiwrapper/alerts/components/select.py:41-63 | `select` as written keeps the session on a valid page. `SelectAsWrittenMissesValue` and `SelectAgreesWithoutFallback` state how it differs from the intended `select`. |
| AlertSelects.SelectStep | uiwrapper/alerts/components/select.py:41-63 | The intended `select`, which matches the caller's value, keeps the session on a valid page. `SelectClicksFirstMatch` states its result. |
| AlertSelects.GetAllOptionsStep | uiwrapper/alerts/components/select.py:65-79 | `get_all_options` keeps the session on a valid page. `GetAllOptionsStripped` states its result, and `SelectedIsListed` relates it to `select`. |
| AlertSelects.GetAllOptionsStripped | uiwrapper/alerts/components/select.py:65-79 | `get_all_options` succeeds iff the select shows, its click passes and `values` is registered. It then lists one entry per option, in order, each the option's stripped text. |
| AlertSelects.SelectAsWrittenMissesValue | uiwrapper/alerts/components/select.py:51-63 | As written, after the fallback the options are compared with the selector string, so a listed value raises ValueError. The corrected `select` does not raise. |
| AlertSelects.SelectAgreesWithoutFallback | uiwrapper/alerts/components/select.py:41-63 | Without the fallback, the code as written and the corrected `select` agree. |
| AlertSelects.SelectClicksFirstMatch | uiwrapper/alerts/components/select.py:56-63 | The intended `select` never returns False. With no match it raises ValueError without a click; otherwise it clicks the first option whose stripped lower-cased text is `value.lower()`. |
| AlertSelects.SelectedIsListed | uiwrapper/alerts/components/select.py:65-79 | A value `select` accepted is among `get_all_options`, up to case. |
| AlertSelects.SelectedValueStep | uiwrapper/alerts/components/select.py:81-87 | `selected_value` fails iff the element is missing. Otherwise it is a one-element list holding `data-test-value`, or `None` when that attribute is missing. |
| AlertSelects.AlertSelect.constructor | uiwrapper/alerts/components/select.py:14-39 | The registry is `AlertSelectRegistry`. |
| AlertSelects.AlertSelect.Open | uiwrapper/alerts/components/select.py:47-54 | The click with its fallback is `OpenStep`. |
| AlertSelects.AlertSelect.Pick | uiwrapper/alerts/components/select.py:56-63 | The menu wait and the option loop are `PickOption`. |
| AlertSelects.AlertSelect.Select | uiwrapper/alerts/components/select.py:41-63 | `select` as written, with the fallback's rebinding of `value`, is `SelectAsWritten`. |
| AlertSelects.AlertSelect.GetAllOptions | uiwrapper/alerts/components/select.py:65-79 | `get_all_options` is `GetAllOptionsStep`. |
| AlertSelects.AlertSelect.SelectedValue | uiwrapper/alerts/components/select.py:81-87 | `selected_value` is `SelectedValueStep` and changes nothing. |
| AlertToggles.AlertToggleLocators | uiwrapper/alerts/components/toggle.py:20-23 | `selected_value` is `value + " .active"`, and the buttons are found through the caller's own pair. |
| AlertToggles.SelectClicksFirstMatch | uiwrapper/alerts/components/toggle.py:25-36 | `select` raises without a click when the buttons never show or none is labelled `value`. Otherwise it clicks the first button so labelled and returns True. |
| AlertToggles.GetValueStep | uiwrapper/alerts/components/toggle.py:38-43 | `get_value` raises what the wait raises, and otherwise is `get_text("selected_value")`. |
| AlertToggles.GetValueNotEmpty | uiwrapper/alerts/components/toggle.py:43 | The value is never empty: the trimmed label, or the "element text not found" fallback. |
| AlertToggles.SelectStep | uiwrapper/alerts/components/toggle.py:25-36 | `select` keeps the session on a valid page. `SelectClicksFirstMatch` states its result. |
| AlertToggles.AlertToggle.constructor | uiwrapper/alerts/components/toggle.py:10-23 | The registry is `AlertToggleRegistry`. |
| AlertToggles.AlertToggle.Select | uiwrapper/alerts/components/toggle.py:25-36 | `select` is `SelectStep`. |
| AlertToggles.AlertToggle.GetValue | uiwrapper/alerts/components/toggle.py:38-43 | `get_value` is `GetValueStep` and changes nothing. |
| ContainerActions.ContainerRegistry | uiwrapper/actions/container_action.py:37-48 | The caller's names plus `wait-spinner` and `open_modal`, with `open_modal` the modal's CSS pair. |
| ContainerActions.CreateFor | uiwrapper/actions/container_action.py:49-56 | A create dropdown exists iff `multi_input`; a create button exists iff `single_input` without `multi_input`. |
| ContainerActions.ButtonsResolve | uiwrapper/actions/container_action.py:57-82 | The save, add and config-save buttons are found through their own CSS pairs. |
| ContainerActions.ErrorContainerResolves | uiwrapper/actions/container_action.py:83-88 | The error box is found through its CSS pair. |
| ContainerActions.GetMessage | uiwrapper/components/message.py:27-35 | `get_message` fails iff the element is missing, and otherwise is its stripped text. |
| ContainerActions.AddContract | uiwrapper/actions/container_action.py:90-111 | `add` is True iff the chosen action passes and the modal then shows. Single-input without multi-input clicks the create button. Multi-input without a value, and no flag at all, click `add_btn`. Multi and single input without a value returns False. |
| ContainerActions.AddThroughDropDown | uiwrapper/actions/container_action.py:97-98 | With `multi_input` and a value, `add` selects the value in the create dropdown and is True iff that returns True and the modal shows. |
| ContainerActions.DismissIff | uiwrapper/actions/container_action.py:113-129 | `close`/`cancel` return True iff the click passes and the wait element becomes invisible. A failing click changes nothing. |
| ContainerActions.SaveThreeWay | uiwrapper/actions/container_action.py:131-156 | `save` returns the stripped error text exactly when the click passed and the probe read a non-empty message. It returns True when the probe was empty or raised and the modal went away, and False otherwise. |
| ContainerActions.SaveConfigIff | uiwrapper/actions/container_action.py:176-192 | `save_config` is True iff the config save click passes and the element named `self.name` becomes visible. |
| ContainerActions.ClickStep | uiwrapper/components/button.py:27-33 | A button's click keeps the session on a valid page. |
| ContainerActions.Probe | uiwrapper/actions/container_action.py:140-144 | The error probe of `save` is stripped, and a non-empty probe is the message `get_message` returned. |
| ContainerActions.AddAction | uiwrapper/actions/container_action.py:96-102 | The create action `add` chooses keeps the session on a valid page. `AddContract` and `AddThroughDropDown` state its result. |
| ContainerActions.AddStep | uiwrapper/actions/container_action.py:90-111 | `add` keeps the session on a valid page. `AddContract` states its result. |
| ContainerActions.DismissStep | uiwrapper/actions/container_action.py:119-129 | The click-then-invisibility sequence keeps the session on a valid page. `DismissIff` states its result. |
| ContainerActions.SaveStep | uiwrapper/actions/container_action.py:137-156 | `save` keeps the session on a valid page. `SaveThreeWay` states its result. |
| ContainerActions.SaveConfigStep | uiwrapper/actions/container_action.py:176-192 | `save_config` keeps the session on a valid page. `SaveConfigIff` states its result. |
| ContainerActions.Click | uiwrapper/components/button.py:27-33 | A button's `click` is `ClickStep`. |
| ContainerActions.Dismiss | uiwrapper/actions/container_action.py:119-129 | The click-then-invisibility sequence is `DismissStep`. |
| ContainerActions.Save | uiwrapper/actions/container_action.py:137-156 | The save sequence is `SaveStep`. |
| ContainerActions.ContainerAction.constructor | uiwrapper/actions/container_action.py:22-88 | `value` is the first entry's selector, the flags decide the create widget, and the registry is `ContainerRegistry`. |
| ContainerActions.ContainerAction.Add | uiwrapper/actions/container_action.py:90-111 | `add` is `AddStep`. |
| ContainerActions.ContainerAction.Close | uiwrapper/actions/container_action.py:113-129 | `close` is `DismissStep` on the close button, waiting on `open_modal`. |
| ContainerActions.ContainerAction.Cancel | uiwrapper/actions/container_action.py:158-174 | `cancel` is `DismissStep` on the cancel button, waiting on `open_modal`. |
| ContainerActions.ContainerAction.SaveForm | uiwrapper/actions/container_action.py:131-156 | `save` is `SaveStep` with the save button, the error box and `open_modal`. |
| ContainerActions.ContainerAction.SaveConfig | uiwrapper/actions/container_action.py:176-192 | `save_config` is `SaveConfigStep`. |
| ContainerActions.ContainerAction.ErrorMessage | uiwrapper/actions/container_action.py:194-200 | `error_message` is the error box's `get_message`, and errors propagate. |
| AlertContainerActions.AlertContainerRegistry | uiwrapper/alerts/actions/alert_action_container_actions.py:28-34 | The caller's names plus `wait_btn`. |
| AlertContainerActions.AlertWidgetResolves | uiwrapper/alerts/components/button.py:19-30 | An alert button not named `label_component` or `help` is found through its own CSS pair. |
| AlertContainerActions.WaitIsForSaveButton | uiwrapper/alerts/actions/alert_action_container_actions.py:30-47 | `wait_btn` and the save button resolve to the same pair, so every wait is for the save button to disappear. |
| AlertContainerActions.RemoveGotItStep | uiwrapper/alerts/actions/alert_action_container_actions.py:147-151 | Removing the popup keeps the session on a valid page. |
| AlertContainerActions.RemoveGotItEffect | uiwrapper/alerts/actions/alert_action_container_actions.py:147-151 | `_remove_got_it_popup` clicks `.modal-footer .btn-save` when it is clickable and its click goes through. Otherwise it changes nothing and raises nothing. |
| AlertContainerActions.AlertContainerAction.constructor | uiwrapper/alerts/actions/alert_action_container_actions.py:21-34 | The registry is `AlertContainerRegistry`. |
| AlertContainerActions.AlertContainerAction.Open | uiwrapper/alerts/actions/alert_action_container_actions.py:68-73 | `open` clicks the new-alert button, and a failing click is raised. |
| AlertContainerActions.AlertContainerAction.Close | uiwrapper/alerts/actions/alert_action_container_actions.py:75-92 | `close` is `DismissStep` on the close button, waiting on `wait_btn`. |
| AlertContainerActions.AlertContainerAction.Cancel | uiwrapper/alerts/actions/alert_action_container_actions.py:120-137 | `cancel` is `DismissStep` on the cancel button, waiting on `wait_btn`. |
| AlertContainerActions.AlertContainerAction.SaveForm | uiwrapper/alerts/actions/alert_action_container_actions.py:94-118 | `save` is the three-way `SaveStep`, waiting on `wait_btn`. |
| AlertContainerActions.AlertContainerAction.ErrorMessage | uiwrapper/alerts/actions/alert_action_container_actions.py:139-145 | `error_message` reads the alert error box, and errors propagate. |
| AlertContainerActions.AlertContainerAction.RemoveGotItPopup | uiwrapper/alerts/actions/alert_action_container_actions.py:147-151 | `_remove_got_it_popup` is `RemoveGotItStep` and never raises. |

## Left out

- **Browser and time.**
  - Logging is a no-op everywhere, and the logger singleton is not modelled.
  - Real waits, timeouts and sleeps are not modelled, including the 15-second and 60-second waits of `save`/`close`/`cancel` and the sleeps in the table. Each wait is an Ok/Fail function of the current page snapshot. `WaitTimeout` states only which bound would be used.
  - The JavaScript that removes screen-reader spans in `get_text` is not run. Each element carries the `textContent` left once those spans are removed, untrimmed. `GetText` trims it and applies the fallback rule.
  - The Selenium driver itself is not modelled. Element lookup, visibility, clicks and page changes come from the abstract `Browser.Dom` snapshots.
- **Widgets as values.** Widgets are values (`Widget(name, reg)`), not objects sharing one driver. Aliasing between two widget objects over the same session is not modelled; every widget method is a step on the single `Session`.
- **Network and driver construction.**
  - The HTTP calls of `ConfigManager`, including `requests.*`, `urlencode` and `quote_plus`, are not modelled. The decoded reply and the status code of each DELETE are parameters.
  - `delete_config` is not modelled beyond that status code.
  - The REST login in `helper.py` is not modelled.
  - Driver construction (`webdriver.Chrome/Firefox/Edge/Remote`) is described by a `Driver` value.
  - `REMOTE_HOST` and `sys.platform` are parameters.
  - The login page is not modelled; its outcome is a parameter of `Login`.
- **Table operations.**
  - `search`, `clear_search`, `get_expanded_row_value`, `edit_row`, `clone_row`, `get_input_count`, `get_column_list` and `get_column_value` are not modelled. They rely on DOM re-rendering and staleness, or on names the table never registers.
  - AlertTables: `get_list_of_rows` and `get_row` are modelled under a paging assumption (`Forward`). A clickable "next" link must lead to a later page, which makes the recursion through `next_page` terminate. A table that links back to an earlier page is outside the model. On such a table the source itself never terminates: `get_list_of_rows` and `get_total_rows_elements` recurse without bound (`uiwrapper/alerts/components/table.py`, lines 80-81 and 94-95), which Python ends with RecursionError.
  - `_is_element_clickable` is modelled as `displayed and enabled`. Selenium exceptions from those two reads are not modelled.
- **Select.**
  - `search_list` is not modelled.
  - The non-multi branches of `selected_values` are left out. Only the multi-select branch is modelled, as used by `get_all_options`.
- **Unmodelled members and widgets.**
  - `hover` and `_hover_element` are not modelled.
  - The container's `edit_btn` and `delete_btn` are not modelled, because no core method uses them.
  - The text-box and search-box widgets (`alert_name`, `description`, `search_query`) are not modelled. They only take typed text.
  - The alert container's `add_action_dropdown` field is not modelled, because no method of the container uses it. The `AlertDropDown` widget itself is modelled.
  - `Message.wait_for_message_cycle` is not modelled.
  - `get_help_text`, `get_tooltip_text` and `get_label` are not modelled.
- **Unicode.** There is none. Whitespace is the ASCII set that Python's `str.isspace()` accepts, and `lower()` folds only `A`..`Z`.
- **Component base class.** `uiwrapper/actions/component_action.py` is not part of this model. The `components/` widgets use the same façade as `AlertComponentAction`: the registry, the waits, `click_element` and `get_element`.
- **ContainerActions.ContainerAction.constructor.** The first key of the caller's dictionary is an explicit `name` parameter, because a Dafny map has no insertion order.
- AlertComponentActions.GetText: trims with Python's whitespace set, which includes the characters `\x1c` to `\x1f`. The page script's JavaScript `trim()` keeps those four, so a text that starts or ends with one of them is trimmed further than in the browser.
- AlertTables.AlertTable.GetListOfRows: the in-place `rows.extend` on the caller's list is not modelled. The method returns a new sequence, so the caller's list does not keep the rows of the pages read before a later page raises, and aliasing of that list is not captured.
- AlertTables.AlertTable.constructor: registers only the container's first pair `map[name := container]`, while `__init__` hands the whole container dictionary to the base class. Further pairs of that dictionary are not registered.
- Locators.Locator.GetAllLocators: returns the registry's value. Python returns the live dictionary, so a caller's later changes to it would change the registry; that aliasing is not modelled.
- **AlertComponentActions.ClickElementStep.** The branch that logs when the clickable wait returns a falsy element is not modelled. A successful wait always yields an element.

## Findings

| source | as written | input that shows it | evidently intended | confidence | as-written member | corrected member |
|---|---|---|---|---|---|---|
| uiwrapper/alerts/components/table.py:395-403 | From a header whose `data-test-sort-dir` is neither `asc` nor `desc`, order `asc` clicks once and falls out of the branch. The loop goes on, and the for-else raises ValueError. | A single header whose text equals the column, without `data-test-sort-dir`, sorted with `order="asc"`. | One click sorts ascending and returns True. | not executed | AlertTables.SortAscFallsThrough | AlertTables.SortIntendedSucceeds |
| uiwrapper/alerts/components/table.py:172-177 | After the popup opens, `delete_row` calls `self.delete_btn.click()`, `self.close()` or `self.cancel()`. AlertTable and its bases define none of these, so the AttributeError is swallowed and the result is False. | Any table whose row is found and whose delete prompt opens, with any `action`. | Click the prompt's delete, close or cancel button, wait for the popup to go, and return True. | not executed | AlertTables.DeleteRowNeverSucceeds | AlertTables.DeleteRowIntendedSucceeds |
| uiwrapper/alerts/components/select.py:51-59 | In the fallback branch `value` is rebound to the selector plus `[label="Select..."]`. The option loop then compares the options with that string, not the caller's value. | A select whose first click fails while its fallback element is clickable, and whose options include the requested value. | Match the options against the caller's value. | not executed | AlertSelects.SelectAsWrittenMissesValue | AlertSelects.SelectClicksFirstMatch |

`AlertSelect.Select`, `AlertTable.SortTable` and `AlertTable.DeleteRow` model the code as
written. The corrected definitions are `SelectStep`, `SortScanIntended` and
`DeleteRowIntended`. No other operation uses any of the three.

`ColumnKey("sta tus")` is `sta_tus`, so `_column_value` reads that column through `temp_col` (`AlertTables.ColumnKey`).
