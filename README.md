# WooCommerce Download Labels — a Dafny model of its label store

The WordPress plugin "WooCommerce Download Labels" lets a shop administrator
upload two files (typically shipping labels) into the fixed slots "File 1" and
"File 2", give each a heading, remove one slot or clear everything, and shows
the files as download links on the "Download Labels" tab of the customer's
account page.

Its whole durable state is two options, each a PHP array:
`wdl_pdf_files` (slot → file URL) and `wdl_label_headings` (slot → heading).
This project models

- PHP arrays with string keys as key-unique, ordered entry lists with
  `isset`, read, assignment and `unset` (`php_arrays.dfy`, module `PhpArrays`);
- the two save-time sanitisers that rebuild each option from the submitted
  settings form (`sanitize.dfy`, module `Sanitize`);
- the link list of the customer page (`customer_view.dfy`, module `CustomerView`);
- the store itself as a class `LabelStore` whose fields are the two options,
  with the save, remove, clear-all and customer-page handlers as methods
  (`labels.dfy`, module `Labels`).

The host's helpers are parameters of the members that use them:
`esc_url`, `esc_html`, `sanitize_text_field`, the default heading of a key,
and the results of `wp_handle_upload` in this request: a function from the
name of a file input (`wdl_pdf_file_1`, `wdl_pdf_file_2`) to the URL its file
was stored under, or None when the result has no `url`. Each slot has its own
result, so one upload can fail while the other succeeds.

Behaviour of the code worth knowing:

- The customer page lists every entry of the URL option, also those whose URL
  is `''`; it does not skip empty URLs.
- A heading that is set but empty is shown as is; the default heading is used
  only when the key is not set in the heading option.
- The default heading is `'Label ' . ($key + 1)` on the slot key (such as
  "File 1"), not a count of the links shown; it is an opaque function of the
  key here.
- With no new file for a slot, the sanitiser keeps the value submitted in the
  form for that slot (or `''`), not the URL stored before; the settings form
  as written submits no such value, so a save without new files stores `''`
  for both slots (`Sanitize.NothingSubmittedSavesEmptyUrls`). Likewise,
  uploading a new file into one slot alone stores `''` for the other slot and
  wipes the URL it held (`Sanitize.UploadIntoOneSlotWipesOther`).
- A file whose upload yields no URL leaves its slot out of the saved array.
- The remove action does nothing for a key PHP treats as false, which is
  `''` and also `'0'`.
- The settings are registered on `admin_init`, which also runs for the remove
  and clear requests, and `update_option` passes each value through the
  sanitize callback registered for its option. The URL callback stores both
  fixed slots whenever no file is posted, so every remove with a truthy key
  rewrites the whole URL option: removing "File 1" stores `"File 1" => ''`
  instead of dropping the key, removing a key set nowhere still adds `''` for
  a missing fixed slot (a fresh store gains two entries), and clearing stores
  `''` for both URL slots. The customer page then never shows the "No labels"
  message: it lists two links, empty URLs included, labelled with default
  headings where the default heading evaluates (see "## Left out")
  (`Labels.ClearThroughCallback`, `Labels.RemoveThroughCallback`). The
  heading callback drops absent slots, so the heading option does lose the
  key. `RemoveFile` and `ClearAllLabels` themselves model `update_option` as
  a plain assignment; the two lemmas state what the callbacks make of it.

## Model

| member | source | states |
|---|---|---|
| PhpArrays.Lookup | woocommerce-download-labels.php:37 | reading `$a[$k]` yields a value exactly when the key is set (`isset`), and it is the value of that key's entry |
| PhpArrays.Put | woocommerce-download-labels.php:208-211 | after `$a[$k] = $v` the key reads `$v`, every other key reads as before, keys already present keep their positions and a new key is appended; the result has no repeated key |
| PhpArrays.Unset | woocommerce-download-labels.php:274-280 | `unset($a[$k])` leaves only entries of the original array whose key is not `$k`, without repeated keys; `UnsetPresent` and `UnsetAbsent` pin the result down exactly |
| PhpArrays.UnsetKeepsOthers | woocommerce-download-labels.php:274-280 | unsetting a key leaves the value of every other key unchanged |
| PhpArrays.UnsetAbsent | woocommerce-download-labels.php:274-280 | unsetting a key that is not set leaves the array equal to before |
| PhpArrays.UnsetPresent | woocommerce-download-labels.php:274-280 | unsetting a set key removes exactly its entry and keeps the order of all others |
| Sanitize.SanitizePdfFiles | woocommerce-download-labels.php:202-224 | output keys are only "File 1"/"File 2" (others dropped), in that order; a slot without a new file (absent or size ≤ 0) holds `esc_url` of the submitted value or `''`; a new file whose upload gives no URL leaves the slot absent (prior value not kept); an upload URL is stored through `esc_url` |
| Sanitize.SanitizeLabelHeadings | woocommerce-download-labels.php:227-239 | the output sets exactly those of "File 1"/"File 2" that the input sets, each mapped through `sanitize_text_field`, in slot order; absent slots stay absent and other keys are dropped |
| Sanitize.NoNewFileStoresBothSlots | woocommerce-download-labels.php:210-220 | with no new file in either slot, the output is exactly both fixed slots in order, each holding `esc_url` of the submitted value or `''` |
| Sanitize.UploadIntoOneSlotWipesOther | woocommerce-download-labels.php:205-220 | a new file stored in "File 1" alone, with no URL submitted, saves its URL and `''` for "File 2", whatever that slot held before |
| Sanitize.NothingSubmittedSavesEmptyUrls | woocommerce-download-labels.php:210-220 | with no new files and nothing submitted, the saved URL option is `["File 1" => '', "File 2" => '']` whatever was stored before |
| CustomerView.CustomerLinks | woocommerce-download-labels.php:36-39 | one link per URL entry, in array order, empty URLs included, each with the escaped URL and the heading chosen for its key |
| CustomerView.CustomerPage | woocommerce-download-labels.php:35-42 | the "No labels" message is shown exactly when the URL option is empty; otherwise the link list |
| CustomerView.RemovalDropsOnlyItsLink | woocommerce-download-labels.php:270-283 | unsetting a key in both options removes exactly that key's link from the customer page; every other link keeps its position, URL and heading; a key not in the URL option leaves the page as it was |
| Labels.LabelStore.constructor | woocommerce-download-labels.php:29-30 | both options start as the empty array, the default `get_option` returns |
| Labels.LabelStore.SavePdfFiles | woocommerce-download-labels.php:102-108 | saving stores the URL option as its sanitiser computes it and leaves the heading option unchanged |
| Labels.LabelStore.SaveLabelHeadings | woocommerce-download-labels.php:110-116 | saving stores the heading option as its sanitiser computes it and leaves the URL option unchanged |
| Labels.LabelStore.RemoveFile | woocommerce-download-labels.php:267-287 | always reports success; a truthy key is unset in both options, so neither holds it afterwards and every other key keeps its value and order; an empty or `'0'` key, or a key set in neither option, changes nothing (`update_option` as plain assignment; through its callbacks see `Labels.RemoveThroughCallback`) |
| Labels.LabelStore.ClearAllLabels | woocommerce-download-labels.php:291-296 | always reports success and leaves both options empty, whatever they held |
| Labels.LabelStore.DownloadLabelsContent | woocommerce-download-labels.php:28-43 | the message exactly when the URL option is empty; otherwise one link per URL entry, in order, whose href is the escaped URL and whose text is the escaped stored heading when the key is set in the heading option (even if empty) and the key's default heading otherwise |
| Labels.ClearTwice | woocommerce-download-labels.php:291-295 | clearing twice leaves the same (empty) state as clearing once |
| Labels.RemoveTwice | woocommerce-download-labels.php:268-286 | removing the same key twice leaves the same state as removing it once |
| Labels.ClearThroughCallback | woocommerce-download-labels.php:292-293 | clearing through the registered callbacks stores `["File 1" => '', "File 2" => '']` and no headings, and the customer page then shows two empty-URL links with default headings, where the default heading evaluates |
| Labels.RemoveThroughCallback | woocommerce-download-labels.php:270-283 | a remove with a truthy key stored through the registered callbacks leaves the URL option as exactly the two fixed slots, each with what the unset array held for it through `esc_url` or `''`; a removed fixed slot is absent from the heading option, and the customer page shows two links, one of them the removed slot's empty-URL link with its default heading, where the default heading evaluates |

## Left out

- Hook, endpoint, menu, settings-section and settings-field registration (lines 15-25, 44, 70-81, 101-157 apart from the two sanitiser bindings): host plumbing with no logic of its own.
- The emitted CSS, the jQuery of the admin page, the admin page and field HTML, and the fixed title and introduction of the customer page: output only.
- `esc_url`, `esc_html`, `sanitize_text_field`, `wp_handle_upload`, `basename` and `__`/`_e`: host or PHP code, taken as opaque function parameters.
- The default heading `'Label ' . ($key + 1)` (line 37) is the plugin's own expression, taken here as a total opaque function of the key. On a key such as "File 1" it does not evaluate cleanly: PHP 7 warns and yields "Label 1" for both slots, and PHP 8 throws a TypeError, so the page stops at the first link whose key is not set in the heading option. That error path is not modelled. After a clear, or after removing a fixed slot, it is exactly the path taken for the links without a heading.
- `get_option`/`update_option` are reads and assignments of the class fields in `RemoveFile` and `ClearAllLabels`; the sanitize callbacks that `update_option` runs in those requests are not folded into the two methods. `Labels.ClearThroughCallback` and `Labels.RemoveThroughCallback` state the whole URL and heading options those requests store through the callbacks, and the customer page that follows.
- Labels.LabelStore.RemoveFile: its clauses that a key set in neither option changes nothing, and that the removed key is absent from the URL option, hold for `update_option` as plain assignment only; through the URL callback both fixed slots are always stored afterwards (`Labels.RemoveThroughCallback`).
- Labels.LabelStore.ClearAllLabels: leaves the URL option empty only for `update_option` as plain assignment; through the URL callback it holds `''` for both fixed slots (`Labels.ClearThroughCallback`).
- The settings save of the host (`options.php`) is two separate method calls, one per option; the order in which the host writes them is not modelled.
- The JSON reply of the remove and clear actions is a boolean result; who may call the actions (the handlers check no capability or nonce) and concurrent edits by several administrators are left to the host.
- PHP's conversion of numeric-string array keys to integers: the plugin's own keys are never numeric, so string equality of keys is kept.
- Form values that are arrays rather than strings, and a submitted option value that is not an array (it is the empty array here, for which `isset` is equally false).
