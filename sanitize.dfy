/**
 * The two save-time sanitisers registered for the plugin's options. Each one
 * builds a fresh array from the submitted form value; only the two fixed
 * slots "File 1" and "File 2" are ever written.
 *
 * The host's helpers are parameters: `escUrl` is `esc_url`, `sanitizeText` is
 * `sanitize_text_field`, and `upload(field)` is what `wp_handle_upload`
 * gives for the file posted in the input `field` of this request: the `url`
 * under which it was stored, or None when its result carries no `url`. Each
 * slot has its own result, so one upload may fail while the other succeeds.
 * A submitted form value that is not an array is the empty array here:
 * `isset` on it is false for every key either way.
 */
module Sanitize {
  import opened PhpArrays

  const SLOT_1: string := "File 1"
  const SLOT_2: string := "File 2"

  /** Names of the file inputs in `$_FILES`, one per slot. */
  const FIELD_1: string := "wdl_pdf_file_1"
  const FIELD_2: string := "wdl_pdf_file_2"

  predicate IsSlot(k: string)
  {
    k == SLOT_1 || k == SLOT_2
  }

  /** One entry of `$_FILES`, reduced to the size, the only part the plugin reads itself. */
  datatype UploadedFile = UploadedFile(size: int)

  /** `isset($_FILES[field]) && $_FILES[field]['size'] > 0` */
  predicate HasNewFile(files: map<string, UploadedFile>, field: string)
  {
    field in files && files[field].size > 0
  }

  /** The submitted value for `slot` through `esc_url`, or '' when none was submitted. */
  function SubmittedUrl(input: PhpArray, slot: string, escUrl: string -> string): string
  {
    match Lookup(input, slot)
    case Some(v) => escUrl(v)
    case None => ""
  }

  /** What one slot's `if` block writes; None when it writes nothing. */
  function SlotUrl(input: PhpArray, files: map<string, UploadedFile>, slot: string, field: string,
                   upload: string -> Option<string>, escUrl: string -> string): Option<string>
  {
    if HasNewFile(files, field) then
      match upload(field)
      case Some(url) => Some(escUrl(url))
      case None => None
    else
      Some(SubmittedUrl(input, slot, escUrl))
  }

  function PutSlot(a: PhpArray, slot: string, v: Option<string>): PhpArray
  {
    if v.Some? then Put(a, slot, v.value) else a
  }

  /**
   * What the saved URL array holds for one slot: with no new file, the
   * submitted value; with a new file that was stored, its URL; with a new file
   * whose upload gave no URL, no entry at all (the submitted value is not kept).
   */
  ghost predicate SlotSaved(input: PhpArray, files: map<string, UploadedFile>,
                            upload: string -> Option<string>, escUrl: string -> string,
                            output: PhpArray, slot: string, field: string)
  {
    && (!HasNewFile(files, field) ==> Lookup(output, slot) == Some(SubmittedUrl(input, slot, escUrl)))
    && (HasNewFile(files, field) && upload(field).None? ==> !HasKey(output, slot))
    && (HasNewFile(files, field) && upload(field).Some? ==>
          Lookup(output, slot) == Some(escUrl(upload(field).value)))
  }

  /** `wdl_sanitize_pdf_files` */
  function SanitizePdfFiles(input: PhpArray, files: map<string, UploadedFile>,
                            upload: string -> Option<string>, escUrl: string -> string): (output: PhpArray)
    // only the fixed slots appear, "File 1" before "File 2"; other submitted keys are dropped
    ensures forall i | 0 <= i < |output| :: IsSlot(output[i].0)
    ensures |output| == 2 ==> output[0].0 == SLOT_1 && output[1].0 == SLOT_2
    ensures SlotSaved(input, files, upload, escUrl, output, SLOT_1, FIELD_1)
    ensures SlotSaved(input, files, upload, escUrl, output, SLOT_2, FIELD_2)
  {
    var first := PutSlot([], SLOT_1, SlotUrl(input, files, SLOT_1, FIELD_1, upload, escUrl));
    PutSlot(first, SLOT_2, SlotUrl(input, files, SLOT_2, FIELD_2, upload, escUrl))
  }

  /** `wdl_sanitize_label_headings` */
  function SanitizeLabelHeadings(input: PhpArray, sanitizeText: string -> string): (output: PhpArray)
    // exactly the fixed slots set in the input, each through `sanitize_text_field`
    ensures forall k :: HasKey(output, k) <==> IsSlot(k) && HasKey(input, k)
    ensures forall k | HasKey(output, k) :: Lookup(output, k).value == sanitizeText(Lookup(input, k).value)
    ensures |output| == 2 ==> output[0].0 == SLOT_1 && output[1].0 == SLOT_2
  {
    var first := PutSlot([], SLOT_1, if HasKey(input, SLOT_1) then Some(sanitizeText(Lookup(input, SLOT_1).value)) else None);
    PutSlot(first, SLOT_2, if HasKey(input, SLOT_2) then Some(sanitizeText(Lookup(input, SLOT_2).value)) else None)
  }

  /**
   * A save with no new file and no submitted URL for either slot stores ''
   * for both, in slot order: the fallback is the submitted value, never the
   * URL stored before.
   */
  lemma NothingSubmittedSavesEmptyUrls(files: map<string, UploadedFile>,
                                       upload: string -> Option<string>, escUrl: string -> string)
    requires !HasNewFile(files, FIELD_1) && !HasNewFile(files, FIELD_2)
    ensures SanitizePdfFiles([], files, upload, escUrl) == [(SLOT_1, ""), (SLOT_2, "")]
  {
    NoNewFileStoresBothSlots([], files, upload, escUrl);
  }

  /**
   * Uploading a new file into "File 1" alone, from the settings form as
   * written (which submits no URL), stores '' for "File 2": whatever URL
   * that slot held before is lost.
   */
  lemma UploadIntoOneSlotWipesOther(files: map<string, UploadedFile>,
                                    upload: string -> Option<string>, escUrl: string -> string)
    requires HasNewFile(files, FIELD_1) && upload(FIELD_1).Some? && !HasNewFile(files, FIELD_2)
    ensures SanitizePdfFiles([], files, upload, escUrl)
              == [(SLOT_1, escUrl(upload(FIELD_1).value)), (SLOT_2, "")]
  {
  }

  /**
   * With no new file in either slot, the output holds both fixed slots, in
   * slot order, each with the submitted value through `esc_url` or ''.
   */
  lemma NoNewFileStoresBothSlots(input: PhpArray, files: map<string, UploadedFile>,
                                 upload: string -> Option<string>, escUrl: string -> string)
    requires !HasNewFile(files, FIELD_1) && !HasNewFile(files, FIELD_2)
    ensures SanitizePdfFiles(input, files, upload, escUrl)
              == [(SLOT_1, SubmittedUrl(input, SLOT_1, escUrl)), (SLOT_2, SubmittedUrl(input, SLOT_2, escUrl))]
  {
  }
}
