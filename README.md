# SEC-Helper catalog engine in Dafny

SEC-Helper is a desktop tool for downloading textbooks from the national
smart-education platform. This project models the catalog engine behind its
textbook window and proves properties of that model. The engine has three
parts:

- **The catalog tree.** `parse_material` turns the taxonomy payload into a
  tree of tags (`tag_id -> {tag_name, children}`, where `children` is `None`
  for a tag without sub-hierarchies). `_fetch_materials` then splices every
  resource record of every shard into that tree. It walks the record's first
  tag path (descend, or stay put on a missing segment) and stores the record
  under its `id` where the walk ends.
- **Flattening and totals.** `parse_resource` collects every record with an
  `id` below a node, and the handlers count the records and sum their sizes.
- **The cascade of option menus.** Each change of a menu does the same steps:
  - it runs the visibility rules (information technology, special education,
    senior-school grades, the volume menu);
  - it resets the visible menus after the changed one;
  - it clears the totals;
  - it descends the tree by the selected values;
  - it then either fills the next menu or resolves the selection into
    resources and totals.

Two windows implement the engine and share the pure pieces:

- `src/basic.py` is the live window.
- `src/gui.py` is an earlier variant. It has different error handling, it does
  not clear the resource list on a change, and it enables the download button
  on a resolution that renders, even one with no record.

`format_title`, the title normaliser, is modelled too.

Layout (one module per file):

- `wrappers.dfy` (`Option`), `dicts.dfy` (Python dicts as insertion-ordered
  association lists: assignment replaces in place or appends, lookup takes the
  first match, `update` assigns in order) and `text.dfy` (`find`, `replace`,
  `split`, `strip`, `join` with Python's semantics).
- `catalog.dfy`: the tree (`Children = Null | Entries(..)`,
  `Node = Tag | Res`), the faults an operation can raise, and path lookup and
  replacement (`NodeAt`, `Graft`) with their frame lemmas.
- `utils.dfy`: `parse_material`, `parse_resource`, `format_title`.
- `splice.dfy`: the descend-or-stay walk and the insertion of one record,
  shared by both windows.
- `cascade.dfy`: the menus, the visibility rules, the reset, the descent, the
  listing of names, the totals; shared by both windows.
- `basic.dfy`: module `Basic`, the tree build and class `Basic`, the live
  window.
- `gui.dfy`: module `Gui`, the tree build and class `GUI`, the earlier window.

Each window is a class holding the menus, the subject-menu width, the tree,
the resource list, the totals, the download button and the message boxes
shown. Each handler is a method that updates those fields step by step, as the
source does. Its `ensures` ties the new state (`Snapshot()`) to a function of
the old one, and the properties are lemmas about those functions. The HTTP
responses are parameters: the taxonomy payload, the URL-list payload, and a
function from URL to shard response.

## Model

| member | source | states |
|---|---|---|
| Utils.ParseMaterial | src/utils.py:8-28 | the result is `None` exactly when the hierarchy list is empty |
| Utils.ParseMaterialEntries | src/utils.py:20-28 | the keys are exactly the `tag_id`s of all children of all hierarchies, each once; under each id sits the last child with that id, as a tag with its name and `parse_material` of its own hierarchies |
| Utils.ParseMaterialLaterWins | src/utils.py:17-26 | on a concrete payload a duplicate id keeps the later child's name, and a child without hierarchies gets `None` children |
| Utils.CollectHierarchiesUpdate | src/utils.py:20-26 | the two loops of `parse_material` assign the entries of all children of all hierarchies in payload order |
| Utils.ParseResourceShape | src/utils.py:31-51 | `parse_resource` fails, with `AttributeError`, exactly when a tag with `None` children is reachable; otherwise every record is stored once, under its own id |
| Utils.ParseResourceGet | src/utils.py:43-51 | under each key sits the last record with that id in visiting order (records taken whole, tags entered, others dropped): later records overwrite earlier ones |
| Utils.ParseResourceFlat | src/utils.py:43-51 | flattening an already-flat result gives the same mapping back |
| Utils.FormatTitle | src/utils.py:71-82 | the result has no leading or trailing whitespace |
| Utils.FormatTitleAfterMarker | src/utils.py:75-76 | when the title contains "主义思想", only the text after its last occurrence matters |
| Utils.FormatTitlePlain | src/utils.py:73-82 | a title with no marker and no revision note is only stripped |
| Utils.FormatTitleFullWidth | src/utils.py:73-82 | the full-width revision note is removed and the rest stripped |
| Utils.FormatTitleAscii | src/utils.py:73-82 | the ASCII revision note is removed and the rest stripped |
| Utils.FormatTitleBoth | src/utils.py:73-82 | a title carrying the full-width note and then the ASCII note has both removed and the rest stripped |
| Utils.ParseResource | src/utils.py:31-51 | `parse_resource` raises only `AttributeError`, and an empty dict flattens to an empty dict |
| Text.Find | src/utils.py:75 | `p in s` / `s.find(p)`: the first occurrence, and none before it |
| Text.RemoveAll | src/utils.py:79-80 | `s.replace(p, "")`: no change without an occurrence, shorter by at least the length of `p` with one |
| Text.LastPieceSuffix | src/utils.py:76 | `s.split(sep)[-1]` is a suffix of `s` without `sep`, and all of `s` when `sep` does not occur |
| Text.LastPieceAfter | src/utils.py:76 | whatever precedes the last occurrence of the separator has no bearing on the last piece |
| Text.Strip | src/utils.py:82 | `s.strip()` is the slice of `s` left when whitespace is removed from both ends, and only whitespace is removed |
| Text.JoinSplit | src/basic.py:482 | joining the pieces of `split(",")` gives the string back |
| Text.SplitJoin | src/gui.py:527 | splitting the join of comma-free pieces gives the pieces back |
| Dicts.Put | src/basic.py:514 | `d[k] = v`: afterwards `k` maps to `v`; an existing key keeps its position and a new key is appended last |
| Dicts.GetPutOther | src/basic.py:514 | `d[k] = v` leaves every other key's value as it was |
| Dicts.GetUpdate | src/utils.py:49 | after `d.update(e)`, a key maps to its last value in `e`, else to its value in `d` |
| Splice.Walk | src/basic.py:504-507 | the descend-or-stay walk returns the keys it went down by, and that path exists below the start |
| Splice.WalkSubsequence | src/basic.py:504-507 | the walk only goes down by segments of the path, in order |
| Splice.WalkFull | src/gui.py:548-549 | when every segment names a child in turn, the walk follows the whole path |
| Splice.WalkStays | src/gui.py:548-549 | when no segment names a child, the walk stays at the top tag |
| Splice.Insert | src/basic.py:504-514 | the walk and the store raise only `KeyError` or `AttributeError`, and a record without an `id` always raises |
| Splice.InsertLands | src/basic.py:504-514 | a successful insertion lands on a tag at the walked path; that tag keeps its name, its children (`{}` in place of `None`) gain the record under its id |
| Splice.InsertElsewhere | src/basic.py:504-514 | nodes off the walked path, and the other children of the landing tag with everything below them, are unchanged |
| Splice.Land | src/basic.py:503-514 | the walk and the store run as a loop over the segments and give the insertion above |
| Catalog.GraftAt | src/basic.py:510-514 | after replacing the node at a path, the new node is found there |
| Catalog.GraftOther | src/basic.py:510-514 | replacing the node at a path changes no node off that path |
| Catalog.GraftAbove | src/basic.py:510-514 | replacing a node keeps the top-level keys, and every ancestor's name and keys |
| Catalog.GraftInside | src/basic.py:510-514 | below the replaced path lies what lies below the new node |
| Basic.SpliceRecord | src/basic.py:489-514 | splicing one record raises only `KeyError`, `IndexError`, `TypeError` or `AttributeError`; a record without `tag_paths` or without an `id` never changes the tree |
| Basic.SpliceShard | src/basic.py:488-514 | the records of a shard raise only what one record can raise |
| Basic.SpliceShards | src/basic.py:485-517 | splicing the shards never raises a request error: a failed shard is skipped |
| Basic.BuildTree | src/basic.py:469-526 | at most the one "获取教材失败" message, and only with the empty tree; what escapes is only what a record can raise |
| Basic.SpliceRecordSkips | src/basic.py:490-501 | a record whose first segment after the top tag is not a child of the top node changes nothing |
| Basic.SpliceRecordStores | src/basic.py:494-514 | a stored record lands at the end of its walk under its id, and nothing off the landing point changes |
| Basic.SpliceRecordRaises | src/basic.py:495-500 | a path with fewer than two parts, or with no segment after the top tag, raises `IndexError`; an unknown top tag raises `KeyError` |
| Basic.RecordAborts | src/basic.py:488-519 | a record that raises ends the whole build with its exception, whatever was spliced before and whatever follows |
| Basic.SkippedShard | src/basic.py:485-517 | an empty URL or a failed shard request leaves the build as if the URL were not listed |
| Basic.SpliceShardsAppend | src/basic.py:485-517 | splicing two runs of shards is splicing the first, then the second into its result |
| Basic.BuildTreeUnreachable | src/basic.py:520-526 | a failed taxonomy or URL-list request shows one message and gives the empty tree |
| Basic.BuildTreeNoShards | src/basic.py:477-519 | with no URL list, the tree is the parsed taxonomy |
| Basic.SpliceOne | src/basic.py:489-514 | one record spliced step by step, equal to the record's splicing function |
| Basic.FetchMaterials | src/basic.py:469-526 | the loops over URLs and records build exactly the tree of the build function |
| Basic.Resolution | src/basic.py:370-392 | the menus and the tree are untouched, messages only appended; the outcome is a resolution or the `KeyError` of a record without `custom_properties` |
| Basic.ResolutionTotals | src/basic.py:370-392 | after the clearing, the resources are exactly the flattened records, or none with a message; each sits under its own id; on completion the count and size totals are set and download is enabled exactly when there is a record; a failed sum leaves the totals cleared |
| Basic.OptionChange | src/basic.py:300-392 | a change of menu keeps the tree, only appends messages, and sets the subject width the rules give |
| Basic.Settled | src/basic.py:312-392 | after the rules, the handler keeps the tree and the subject width and only appends messages |
| Basic.Followed | src/basic.py:338-392 | the descent and what follows keep the tree and the width, only append messages, and change no menu but the one after `keys[k]` |
| Basic.ClearedFrom | src/basic.py:322-335 | the clearing changes no menu outside the list, empties the resources, clears the totals and disables download |
| Basic.Initialised | src/basic.py:214-238 | initialisation changes no menu but the material menu, and adds at most one message to those of the build |
| Basic.OptionChangeResets | src/basic.py:661-677 | after a change of visible menu `k`, every visible menu after it holds its default; all but the next are disabled and keep at most their first entry; the next keeps at most its first entry plus the names offered and is enabled exactly when filled |
| Basic.FollowedMenus | src/basic.py:338-392 | the descent and what follows change no menu but the next one, which only gains names, and keep the tree |
| Basic.OptionChangeBranches | src/basic.py:338-392 | the next menu is filled exactly when `key` is not the last visible menu and no value missed; otherwise the selection resolves; filling leaves resources and totals cleared |
| Basic.InitialisedFills | src/basic.py:214-232 | the first top-level tag's children become the tree, their names fill the material menu in order, and the menu is enabled |
| Basic.InitialisedFails | src/basic.py:214-238 | a build that raised, an empty tree, or a first tag with `None` children shows the parse-failure message and changes no menu |
| Basic.Basic.constructor | src/basic.py:201-203 | the window starts with the category, stage and volume menus hidden and nothing loaded |
| Basic.Basic.ToggleWidget | src/utils.py:250-252 | `toggle_widget_state`: only that menu's visibility changes |
| Basic.Basic.ResetMenuOption | src/basic.py:661-677 | each listed menu from `start` on is reset: disabled, at most its first entry, its default value |
| Basic.Basic.ToggleAndReset | src/basic.py:601-603 | showing a menu, or hiding and resetting it, is the rule-table toggle |
| Basic.Basic.ApplyRules | src/basic.py:594-603 | the special-education rules run in order |
| Basic.Basic.UpdateMenuState | src/basic.py:570-625 | the menus end as the rule table arranges them and the subject width is 48 exactly in the information-technology case |
| Basic.Basic.OfferNames | src/basic.py:353-368 | the next menu is filled and enabled as the fill function says |
| Basic.Basic.ResolveSelection | src/basic.py:370-392 | the resolution as the resolution function says |
| Basic.Basic.FollowSelection | src/basic.py:338-392 | the descent and what follows, as the follow function says |
| Basic.Basic.SettleChange | src/basic.py:312-392 | the handler after the rules, as the settle function says |
| Basic.Basic.OnOptionChange | src/basic.py:300-392 | the whole handler: the new state and outcome are those of the option-change function |
| Basic.Basic.InitMaterials | src/basic.py:214-238 | the new state is that of the initialisation function on the built tree |
| Cascade.Shown | src/basic.py:580-622 | the rules govern every menu but the material and subject menus |
| Cascade.Arrange | src/basic.py:570-625 | the rules leave the material and subject menus untouched |
| Cascade.ArrangeRules | src/basic.py:580-622 | a menu the rules do not govern is untouched; a shown one is only made visible; a hidden one is also disabled, set to its default and keeps at most its first entry |
| Cascade.VolumeReplacesGrade | src/basic.py:607-622 | the volume and grade menus are never shown together; without special education, category, stage and volume are hidden; with it, the provider is hidden |
| Cascade.MaterialChangeRules | src/basic.py:573-574 | when the material menu changed, the subject and category values play no part |
| Cascade.Width | src/basic.py:580-589 | the subject width is 48 for primary or junior information technology, the configured width otherwise |
| Cascade.ArrangeTwice | src/basic.py:570-625 | running the rules twice on the same selection is running them once |
| Cascade.ArrangeInSteps | src/basic.py:584-622 | the toggles in the order the source runs them come to the rule table |
| Cascade.VisibleKeys | src/basic.py:313-317 | the visible menus are exactly the configured ones that are mapped; they form a sublist of the configured order, and have no repeats when the order has none |
| Cascade.IndexOf | src/basic.py:320 | `keys.index(key)`: the first position of `key`, or `ValueError` when it is absent |
| Cascade.ResetAll | src/basic.py:661-677 | resetting menus never shows or hides one |
| Cascade.ResetAllFrame | src/basic.py:661-677 | resetting a list of menus leaves every unlisted menu as it was |
| Cascade.ResetAllAt | src/basic.py:661-677 | a listed menu ends up reset, however often listed; an unlisted one is untouched |
| Cascade.HideAndReset | src/gui.py:454-455 | hiding a menu and then resetting it is the toggle that hides it |
| Cascade.PickIn | src/basic.py:344-348 | the children of the first tag named `name`, none when no tag matches, `KeyError` when a record comes first |
| Cascade.Descend | src/basic.py:338-351 | the descent raises only `AttributeError` (a `None` level) or `KeyError` (a record met first), and stops early only on a name |
| Cascade.DescendSelected | src/basic.py:338-351 | the loop over the visible menus up to `key` is the descent by their selected values, stopping at the first miss |
| Cascade.NamesIn | src/basic.py:359-365 | the names listed are those of the leading tags, and the listing stops with `KeyError` exactly at the first record |
| Cascade.ListTagNames | src/basic.py:359-365 | the option loop collects the names the listing function gives |
| Cascade.SizeTotal | src/basic.py:383-386 | the size sum succeeds exactly when every record has `custom_properties`, else `KeyError`; no records sum to 0, and a single record contributes its size, or 0 when it has none |
| Cascade.SizeTotalAppend | src/basic.py:383-386 | the total over two runs of records is the sum of their totals; with the single-record case above, the total is the sum of the sizes with a missing size counting as 0 |
| Cascade.Populate | src/basic.py:353-368 | the next menu gains the names of the level in order, is enabled exactly when the listing completed, and nothing else changes |
| Cascade.PopulateNames | src/basic.py:353-368 | over a level of tags, the next menu gains exactly their names and is enabled |
| Cascade.FirstValue | src/basic.py:217 | `next(iter(tree.values()))`: the first top-level node; `AttributeError` for `None`, `StopIteration` for `{}` |
| Gui.SpliceRecord | src/gui.py:535-554 | splicing one record raises only what the live window's records can raise, and a record without `tag_paths` always raises `KeyError` |
| Gui.SpliceShard | src/gui.py:535-554 | a shard holding a record without `tag_paths` ends the build with an exception |
| Gui.SpliceShards | src/gui.py:531-554 | a build over a URL list holding the empty URL raises; what escapes is a request error or what a record can raise |
| Gui.BuildTree | src/gui.py:510-556 | a failed taxonomy or URL-list request raises a request error; nothing but a request error or what a record can raise escapes |
| Gui.OptionChange | src/gui.py:258-358 | a change of menu keeps the tree and the messages, and sets the subject width the rules give |
| Gui.Settled | src/gui.py:271-358 | after the rules, the handler keeps the tree, the subject width and the messages |
| Gui.Followed | src/gui.py:293-358 | the descent and what follows keep the tree, the width and the messages, and change no menu but the one after `keys[k]` |
| Gui.ClearedFrom | src/gui.py:282-290 | the clearing changes no menu outside the list, keeps the resources, clears the totals and disables download |
| Gui.Initialised | src/gui.py:227-256 | initialisation changes no menu but the material menu, leaves it as enabled as it was, and shows at most one message |
| Gui.SpliceRecordStricter | src/gui.py:535-554 | where this window stores or skips a record, the live window does the same; where the live window raises, this one raises the same; a record without `tag_paths` or with an empty first path raises here and is skipped there |
| Gui.SpliceShardStricter | src/gui.py:535-554 | a shard this window splices gives the live window's tree; a shard the live window fails on fails here |
| Gui.SpliceShardsStricter | src/gui.py:531-554 | a build of the shards that completes here gives the live window's tree |
| Gui.BuildTreeStricter | src/gui.py:510-556 | a build that completes here gives the tree the live window builds, with no message |
| Gui.SpliceRecordSkips | src/gui.py:537-545 | a record with an empty path list, or whose segment after the top tag is not among the top node's children, changes nothing |
| Gui.SpliceRecordStores | src/gui.py:538-554 | a stored record lands at the end of its walk under its id, and nothing off the landing point changes |
| Gui.RecordAborts | src/gui.py:535-554 | a record that raises ends the whole build with its exception |
| Gui.ShardFailureAborts | src/gui.py:531-533 | a failed shard request, or an empty URL, ends the build with a request error |
| Gui.SpliceShardsAppend | src/gui.py:531-554 | splicing two runs of shards is splicing the first, then the second into its result |
| Gui.SpliceOne | src/gui.py:535-554 | one record spliced step by step, equal to the record's splicing function |
| Gui.FetchMaterials | src/gui.py:510-556 | the loops over URLs and records build exactly the tree of the build function, or raise its exception |
| Gui.Classify | src/gui.py:242-256 | a request error shows the load message, `ValueError` and `KeyError` the parse message, anything else the unknown-error message |
| Gui.Resolution | src/gui.py:325-358 | the menus, the tree and the messages are untouched, and the outcome is never a fill |
| Gui.ResolutionEnables | src/gui.py:325-358 | a resolution lists exactly the flattened records, counts and sums them and enables download even with no record; a flatten error escapes with everything unchanged; a record without `custom_properties` (`KeyError`) or of size 0 (`TypeError`) stops the rendering with the records stored, before either total is set, so the totals and the download button stay as they were |
| Gui.RenderFault | src/gui.py:357 | a record raises `KeyError` exactly when it lacks `custom_properties`, `TypeError` exactly when its size is 0 (`format_bytes` gives the int `0`, src/utils.py:56-57), and nothing otherwise |
| Gui.Rendered | src/gui.py:341-358 | nothing is raised exactly when no record raises, and then every record has `custom_properties`; otherwise the exception is `KeyError` or `TypeError` and is some record's |
| Gui.RenderedFirst | src/gui.py:343-358 | the rendering raises the exception of the first record that raises |
| Gui.ZeroSizeStops | src/gui.py:325-358 | a single record of size 0 is stored, raises `TypeError`, and leaves the totals and download as they were |
| Gui.GUI.RenderResources | src/gui.py:341-358 | the loop over the records gives the rendering's exception, or none |
| Gui.OptionChangeKeepsResources | src/gui.py:279-358 | when the next menu is filled, the resource list is the one from before the change while totals and download are cleared; on resolution it is replaced only when flattening succeeds, and a resolution that raises leaves the totals and the download button cleared |
| Gui.OptionChangeAgrees | src/gui.py:258-358 | both windows leave the menus and the tree in the same state after a change, and fill the next menu in the same cases |
| Gui.InitialisedFills | src/gui.py:227-240 | the first top-level tag's children become the tree and their names fill the material menu in order; the menu's enabled state is not changed |
| Gui.InitialisedClassifies | src/gui.py:227-256 | a failure shows exactly one message: a failed request the load message, an empty tree or a first tag with `None` children the unknown-error message, a first node that is a record the parse message |
| Gui.GradeVolumeSpecialInfoTech | src/gui.py:462-479 | the grade and volume steps of the special-education information-technology case come to the rule-table toggles |
| Gui.GradeVolumeGradeless | src/gui.py:462-483 | the grade and volume steps of the senior-school case come to the rule-table toggles |
| Gui.GradeVolumeOther | src/gui.py:462-487 | the grade and volume steps of every other case come to the rule-table toggles |
| Gui.GUI.constructor | src/gui.py:220-222 | the window starts with the category, stage and volume menus hidden and nothing loaded |
| Gui.GUI.ToggleWidget | src/gui.py:453-456 | `grid()` / `grid_remove()`: only that menu's visibility changes |
| Gui.GUI.ResetOptions | src/gui.py:492-508 | each listed menu from `start` on is reset: disabled, at most its first entry, its default value |
| Gui.GUI.Hide | src/gui.py:433-435 | hiding a menu and resetting it is the rule-table toggle |
| Gui.GUI.ApplyRules | src/gui.py:451-456 | the special-education rules run in order |
| Gui.GUI.AdjustGradeVolume | src/gui.py:458-487 | the grade and volume steps leave grade and volume as the rule table says |
| Gui.GUI.AdjustWidgets | src/gui.py:413-490 | the menus end as the rule table arranges them, the same final state as the live window's rules, and the subject width is 48 exactly in the information-technology case |
| Gui.GUI.OfferNames | src/gui.py:308-323 | the next menu is filled and enabled as the fill function says |
| Gui.GUI.ResolveSelection | src/gui.py:325-358 | the resolution as the resolution function says |
| Gui.GUI.FollowSelection | src/gui.py:292-358 | the descent and what follows, as the follow function says |
| Gui.GUI.SettleChange | src/gui.py:271-358 | the handler after the rules, as the settle function says: the resource list is not cleared |
| Gui.GUI.UpdateOptions | src/gui.py:258-358 | the whole handler: the new state and outcome are those of the option-change function |
| Gui.GUI.InitMaterials | src/gui.py:227-256 | the new state is that of the initialisation function on the built tree |

## Left out

- Windows, frames, widget construction and layout, the network probe, token
  storage, file paths, downloads, `_fetch_documents` and all of `src/app.py`
  are not part of this model: they are user interface, operating-system
  storage and I/O.
- The HTTP requests are inputs. Each response is either a failure (any
  `requests.RequestException`, including a `.json()` decoding error) or its
  decoded body. A shard's response is a function of its URL, so two requests
  of the same URL get the same answer. Missing and `null` keys of a resource
  record are modelled alike, as `None`.
- `format_bytes`, `format_date`, the status label text and the rendering of
  the resource list are left out. They are floating-point formatting, date
  parsing and Treeview rendering. The live window's rendering reads every key
  with a default and is assumed not to raise. The earlier window's rendering
  reads `custom_properties` with a plain subscript and adds a string to what
  `format_bytes` returns, which is the int `0` for a size of 0; the model
  keeps the `KeyError` and the `TypeError` these raise, before the totals are
  set, but not the text rendered. It also reads `title` and
  `provider_list` with plain subscripts; records are assumed to carry both
  keys, because the model's records do not hold them.
- Logging is left out. Message boxes are kept as a list of (message, detail)
  alerts.
- `config.py` is not part of this model. The menu order, each menu's default
  value and the configured subject width are parameters (`Config`).
- The tree is modelled on values. `_fetch_materials` updates nested dicts in
  place; the model replaces the node at a path (`Graft`). The dicts are fresh
  and unshared, so no aliasing is lost.
- A record's `tag_name` and `children` keys are not modelled. Records are
  assumed to carry neither, which is how the source tells them apart from
  tags.
- `parse_hierarchy`, which `src/gui.py` imports, is modelled as
  `parse_material`.
- Helper methods such as `FollowSelection`, `SettleChange`, `ApplyRules` and
  `AdjustGradeVolume` split each handler into the steps the source runs in
  sequence. They do not exist in the source.
- Gui.SpliceRecord: a `tag_paths` that is JSON `null` raises `TypeError` in the
  source. The model treats it like a missing key and raises `KeyError`.
- Basic.BuildTree: `None` stands only for a missing `hierarchies` or `urls`
  key. A taxonomy or URL-list body that is not a JSON object, or a `urls` value
  that is JSON `null`, raises `AttributeError` at src/basic.py:477-482; no
  handler catches it, so `_init_materials` shows "教材解析失败". These cases
  are not modelled.
- Gui.BuildTree: a taxonomy body that is not a JSON object, or a `urls` value
  that is not a string, would raise `AttributeError`. These cases are not
  modelled.
- Gui.InitialisedClassifies: only the exceptions the model raises are
  classified. `TypeError` and `AttributeError` from malformed payloads fall
  under "anything else".
- Utils.ParseMaterial: a hierarchy without `children`, or a child without
  `tag_id`, `tag_name` or `hierarchies`, raises `KeyError` in the source. The
  model makes these keys of the taxonomy payload mandatory, so it does not
  model that error path or the "教材解析失败" / "数据解析错误" message it
  leads to. A `hierarchies` value that is `null` is modelled as an empty list;
  both give `None` children.
