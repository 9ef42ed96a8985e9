/**
 * The plugin's durable state and the handlers that change or read it. The
 * two options `wdl_pdf_files` (slot → file URL) and `wdl_label_headings`
 * (slot → heading) are the fields of a LabelStore; `get_option` reads a field
 * and `update_option` assigns it. Request data (`$_POST`, `$_FILES`) are
 * parameters, and the JSON success reply of the two admin actions is a
 * boolean result.
 */
module Labels {
  import opened PhpArrays
  import opened Sanitize
  import opened CustomerView

  /** PHP's truth value of a string: "" and "0" are false. */
  predicate IsTruthy(s: string)
  {
    s != "" && s != "0"
  }

  /** `isset($_POST['file_key']) ? sanitize_text_field($_POST['file_key']) : ''` */
  function RequestedKey(postedKey: Option<string>, sanitizeText: string -> string): string
  {
    if postedKey.Some? then sanitizeText(postedKey.value) else ""
  }

  class LabelStore {
    /** option `wdl_pdf_files` */
    var pdfFiles: PhpArray
    /** option `wdl_label_headings` */
    var labelHeadings: PhpArray

    /** Both options unset: `get_option` yields its default, the empty array. */
    constructor ()
      ensures pdfFiles == [] && labelHeadings == []
    {
      pdfFiles := [];
      labelHeadings := [];
    }

    /** Saving the settings form stores the URL option through its sanitiser; the headings are untouched. */
    method SavePdfFiles(input: PhpArray, files: map<string, UploadedFile>,
                        upload: string -> Option<string>, escUrl: string -> string)
      modifies this
      ensures pdfFiles == SanitizePdfFiles(input, files, upload, escUrl)
      ensures labelHeadings == old(labelHeadings)
    {
      pdfFiles := SanitizePdfFiles(input, files, upload, escUrl);
    }

    /** Saving the settings form stores the heading option through its sanitiser; the URLs are untouched. */
    method SaveLabelHeadings(input: PhpArray, sanitizeText: string -> string)
      modifies this
      ensures labelHeadings == SanitizeLabelHeadings(input, sanitizeText)
      ensures pdfFiles == old(pdfFiles)
    {
      labelHeadings := SanitizeLabelHeadings(input, sanitizeText);
    }

    /**
     * `wdl_remove_file`: with a truthy key, unset it in both options and
     * write both back; always report success.
     */
    method RemoveFile(postedKey: Option<string>, sanitizeText: string -> string) returns (success: bool)
      modifies this
      ensures success
      ensures var key := RequestedKey(postedKey, sanitizeText);
              if IsTruthy(key) then
                pdfFiles == Unset(old(pdfFiles), key) && labelHeadings == Unset(old(labelHeadings), key)
              else
                pdfFiles == old(pdfFiles) && labelHeadings == old(labelHeadings)
      // the key is gone from both options ...
      ensures IsTruthy(RequestedKey(postedKey, sanitizeText)) ==>
                !HasKey(pdfFiles, RequestedKey(postedKey, sanitizeText)) &&
                !HasKey(labelHeadings, RequestedKey(postedKey, sanitizeText))
      // ... every other key keeps its value ...
      ensures forall k | k != RequestedKey(postedKey, sanitizeText) ::
                Lookup(pdfFiles, k) == Lookup(old(pdfFiles), k) &&
                Lookup(labelHeadings, k) == Lookup(old(labelHeadings), k)
      // ... and a key set in neither option changes nothing
      ensures !HasKey(old(pdfFiles), RequestedKey(postedKey, sanitizeText)) &&
              !HasKey(old(labelHeadings), RequestedKey(postedKey, sanitizeText)) ==>
                pdfFiles == old(pdfFiles) && labelHeadings == old(labelHeadings)
    {
      var fileKey := RequestedKey(postedKey, sanitizeText);
      if IsTruthy(fileKey) {
        var files := pdfFiles;
        var headings := labelHeadings;
        if HasKey(files, fileKey) {
          files := Unset(files, fileKey);
        } else {
          UnsetAbsent(files, fileKey);
        }
        if HasKey(headings, fileKey) {
          headings := Unset(headings, fileKey);
        } else {
          UnsetAbsent(headings, fileKey);
        }
        forall k | k != fileKey
          ensures Lookup(files, k) == Lookup(pdfFiles, k) && Lookup(headings, k) == Lookup(labelHeadings, k)
        {
          UnsetKeepsOthers(pdfFiles, fileKey, k);
          UnsetKeepsOthers(labelHeadings, fileKey, k);
        }
        pdfFiles := files;
        labelHeadings := headings;
      }
      success := true;
    }

    /** `wdl_clear_all_labels`: both options become the empty array; always report success. */
    method ClearAllLabels() returns (success: bool)
      modifies this
      ensures success
      ensures pdfFiles == [] && labelHeadings == []
    {
      pdfFiles := [];
      labelHeadings := [];
      success := true;
    }

    /**
     * `wdl_download_labels_content`: one link per URL entry, in order, each
     * labelled with the stored heading when its key is set in the heading
     * option and with the default heading otherwise.
     */
    method DownloadLabelsContent(h: Helpers) returns (view: View)
      ensures view == CustomerPage(pdfFiles, labelHeadings, h)
      ensures view.NoLabels? <==> pdfFiles == []
      ensures view.Links? ==>
                |view.links| == |pdfFiles| &&
                forall i | 0 <= i < |pdfFiles| ::
                  view.links[i].href == h.escUrl(pdfFiles[i].1) &&
                  view.links[i].text == (if HasKey(labelHeadings, pdfFiles[i].0)
                                         then h.escHtml(Lookup(labelHeadings, pdfFiles[i].0).value)
                                         else h.defaultHeading(pdfFiles[i].0))
    {
      var files := pdfFiles;
      var headings := labelHeadings;
      if files == [] {
        return NoLabels;
      }
      var links: seq<Link> := [];
      var i := 0;
      while i < |files|
        invariant 0 <= i <= |files|
        invariant |links| == i
        invariant forall j | 0 <= j < i :: links[j] == LinkFor(files[j], headings, h)
      {
        var key := files[i].0;
        var heading := if HasKey(headings, key) then h.escHtml(Lookup(headings, key).value) else h.defaultHeading(key);
        links := links + [Link(h.escUrl(files[i].1), heading)];
        i := i + 1;
      }
      assert links == CustomerLinks(files, headings, h);
      view := Links(links);
    }
  }

  /** Clearing twice leaves the state one clear leaves; `once` is the state after the first call. */
  method ClearTwice(store: LabelStore) returns (once: (PhpArray, PhpArray))
    modifies store
    ensures once == (store.pdfFiles, store.labelHeadings) == ([], [])
  {
    var first := store.ClearAllLabels();
    once := (store.pdfFiles, store.labelHeadings);
    var second := store.ClearAllLabels();
  }

  /** Removing the same key twice leaves the state one removal leaves; `once` is the state after the first call. */
  method RemoveTwice(store: LabelStore, postedKey: Option<string>, sanitizeText: string -> string)
    returns (once: (PhpArray, PhpArray))
    modifies store
    ensures once == (store.pdfFiles, store.labelHeadings)
  {
    var first := store.RemoveFile(postedKey, sanitizeText);
    once := (store.pdfFiles, store.labelHeadings);
    var second := store.RemoveFile(postedKey, sanitizeText);
  }

  /*
   * The host's `update_option` passes every value through the sanitize
   * callback registered for the option, and the settings are registered on
   * `admin_init`, which also runs for the remove and clear requests. The two
   * lemmas below state what those requests therefore store, beyond the plain
   * assignments of RemoveFile and ClearAllLabels; no file is posted in them.
   */

  /**
   * Clearing stores '' for both URL slots and no heading, so the customer
   * page shows two links with empty URLs and default headings instead of the
   * "No labels" message.
   */
  lemma ClearThroughCallback(upload: string -> Option<string>, escUrl: string -> string,
                             sanitizeText: string -> string, h: Helpers)
    ensures SanitizePdfFiles([], map[], upload, escUrl) == [(SLOT_1, ""), (SLOT_2, "")]
    ensures SanitizeLabelHeadings([], sanitizeText) == []
    ensures CustomerPage(SanitizePdfFiles([], map[], upload, escUrl), SanitizeLabelHeadings([], sanitizeText), h)
              == Links([Link(h.escUrl(""), h.defaultHeading(SLOT_1)), Link(h.escUrl(""), h.defaultHeading(SLOT_2))])
  {
    NothingSubmittedSavesEmptyUrls(map[], upload, escUrl);
  }

  /**
   * Removing any key rewrites the whole URL option: both fixed slots are
   * stored, each with what the unset array held for it, through `esc_url`,
   * or '' when it held nothing. So a key set in neither option is not a
   * no-op when a fixed slot was missing (a fresh store gains two '' entries),
   * and a removed fixed slot stays in the URL option as '' while the heading
   * callback keeps it out of the heading option. The customer page then
   * always shows two links, one of them the removed slot's empty-URL link
   * with its default heading.
   */
  lemma RemoveThroughCallback(urls: PhpArray, headings: PhpArray, key: string,
                              upload: string -> Option<string>, escUrl: string -> string,
                              sanitizeText: string -> string, h: Helpers)
    ensures SanitizePdfFiles(Unset(urls, key), map[], upload, escUrl)
              == [(SLOT_1, SubmittedUrl(Unset(urls, key), SLOT_1, escUrl)),
                  (SLOT_2, SubmittedUrl(Unset(urls, key), SLOT_2, escUrl))]
    ensures IsSlot(key) ==> !HasKey(SanitizeLabelHeadings(Unset(headings, key), sanitizeText), key)
    ensures var page := CustomerPage(SanitizePdfFiles(Unset(urls, key), map[], upload, escUrl),
                                     SanitizeLabelHeadings(Unset(headings, key), sanitizeText), h);
            page.Links? && |page.links| == 2 &&
            (IsSlot(key) ==> Link(h.escUrl(""), h.defaultHeading(key)) in page.links)
  {
    var rest := Unset(urls, key);
    NoNewFileStoresBothSlots(rest, map[], upload, escUrl);
    var stored := SanitizePdfFiles(rest, map[], upload, escUrl);
    var storedHeadings := SanitizeLabelHeadings(Unset(headings, key), sanitizeText);
    if IsSlot(key) {
      var i := if key == SLOT_1 then 0 else 1;
      assert stored[i] == (key, "");
      assert CustomerLinks(stored, storedHeadings, h)[i] == Link(h.escUrl(""), h.defaultHeading(key));
    }
  }
}
