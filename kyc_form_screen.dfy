/**
 * The KYC form screen's state and handlers. The 800 ms debounce timer is a
 * slot holding the draft the armed timer will write; `Flush` is the timer
 * firing. Submission and upload are split at the awaited request: a begin
 * step that validates and returns the request, and a completion step that
 * receives the response.
 */
module KycFormScreen {
  import opened Wrappers
  import opened JsonValues
  import opened KycSlice
  import opened Navigation
  import opened Effects
  import opened Store
  import opened DeviceStorage
  import opened KycFormRules

  /** Which request a completion answers. */
  datatype Channel = ManualEntry | DocumentUpload

  const SuccessAlert := ShowAlert("Success", Plain("KYC submitted and is under review"))
  const SubmitLoginAlert := ShowAlert("Authentication required", Plain("Please log in to submit KYC."))
  const UploadLoginAlert := ShowAlert("Authentication required", Plain("Please log in to upload documents."))

  /** The payload a successful submission dispatches. */
  function SubmittedPatch(now: string): KycPatch {
    KycPatch(Some(Pending), Some(JStr(now)), None, None)
  }

  /** The alert a rejected request shows. */
  function RejectionAlert(channel: Channel, server: FieldErrors, data: Json, status: int): Effect {
    match channel
    case ManualEntry => ShowAlert("Submission failed", FailureMessage(server, data, "Submission failed", status))
    case DocumentUpload => ShowAlert("Upload failed", FailureMessage(server, data, "Upload failed", status))
  }

  /** The alert a request that never got a response shows. */
  function NetworkAlert(channel: Channel, reason: string): Effect {
    match channel
    case ManualEntry => ShowAlert("Error", Plain("Submission failed (network)"))
    case DocumentUpload => ShowAlert("Upload failed", Plain(if reason != "" then reason else "Failed to upload"))
  }

  /** The multipart upload: identifiers only when typed, and the document's name and type. */
  function UploadRequest(token: Json, aadhaar: string, pan: string, fileUri: string): Request {
    UploadKycRequest(token,
      if aadhaar != "" then Some(aadhaar) else None,
      if pan != "" then Some(pan) else None,
      fileUri, FileName(fileUri), Mime(FileName(fileUri)))
  }

  class FormScreen {
    var mode: string
    var aadhaar: string
    var pan: string
    var fileUri: string
    var uploading: bool
    var submitting: bool
    var errors: FieldErrors
    var pendingSave: Option<Draft>    // what the armed debounce timer will save
    var draftSavedAt: Json

    function Current(): Draft
      reads this
    {
      Draft(mode, aadhaar, pan, fileUri)
    }

    /**
     * The validation effect after the fields went from `before` to their
     * current values: when they changed, the live error map replaces the old
     * one and the debounce slot holds the current fields; otherwise nothing ran.
     */
    predicate Revalidated(before: Draft, errorsBefore: FieldErrors, pendingBefore: Option<Draft>)
      reads this
    {
      if Current() == before then errors == errorsBefore && pendingSave == pendingBefore
      else errors == LiveErrors(aadhaar, pan) && pendingSave == Some(Current())
    }

    /** The first render: blank fields, and the validation effect has armed a save of them. */
    constructor ()
      ensures Current() == BlankDraft && errors == NoErrors && pendingSave == Some(BlankDraft)
      ensures !uploading && !submitting && draftSavedAt == JNull
    {
      mode := "manual";
      aadhaar := "";
      pan := "";
      fileUri := "";
      uploading := false;
      submitting := false;
      errors := LiveErrors("", "");
      pendingSave := Some(Draft("manual", "", "", ""));
      draftSavedAt := JNull;
    }

    method Revalidate(before: Draft)
      modifies this`errors, this`pendingSave
      ensures Revalidated(before, old(errors), old(pendingSave))
    {
      if Current() != before {
        errors := LiveErrors(aadhaar, pan);
        pendingSave := Some(Current());
      }
    }

    method EditAadhaar(input: string)
      modifies this`aadhaar, this`errors, this`pendingSave
      ensures aadhaar == SanitiseAadhaar(input)
      ensures Revalidated(old(Current()), old(errors), old(pendingSave))
    {
      var before := Current();
      aadhaar := SanitiseAadhaar(input);
      Revalidate(before);
    }

    method EditPan(input: string)
      modifies this`pan, this`errors, this`pendingSave
      ensures pan == SanitisePan(input)
      ensures Revalidated(old(Current()), old(errors), old(pendingSave))
    {
      var before := Current();
      pan := SanitisePan(input);
      Revalidate(before);
    }

    method EditFileUri(input: string)
      modifies this`fileUri, this`errors, this`pendingSave
      ensures fileUri == input
      ensures Revalidated(old(Current()), old(errors), old(pendingSave))
    {
      var before := Current();
      fileUri := input;
      Revalidate(before);
    }

    method SelectMode(m: string)
      modifies this`mode, this`errors, this`pendingSave
      ensures mode == m
      ensures Revalidated(old(Current()), old(errors), old(pendingSave))
    {
      var before := Current();
      mode := m;
      Revalidate(before);
    }

    /** The draft read on mount arrives: a loadable draft replaces the fields and its save time is shown. */
    method Load(stored: Option<Json>)
      modifies this`mode, this`aadhaar, this`pan, this`fileUri, this`draftSavedAt, this`errors, this`pendingSave
      ensures LoadDraft(stored).None? ==>
        Current() == old(Current()) && draftSavedAt == old(draftSavedAt)
        && errors == old(errors) && pendingSave == old(pendingSave)
      ensures LoadDraft(stored).Some? ==>
        Current() == LoadDraft(stored).value.draft && draftSavedAt == LoadDraft(stored).value.savedAt
        && Revalidated(old(Current()), old(errors), old(pendingSave))
    {
      var loaded := LoadDraft(stored);
      if loaded.Some? {
        var before := Current();
        mode := loaded.value.draft.mode;
        aadhaar := loaded.value.draft.aadhaar;
        pan := loaded.value.draft.pan;
        fileUri := loaded.value.draft.fileUri;
        draftSavedAt := loaded.value.savedAt;
        Revalidate(before);
      }
    }

    /** The debounce timer fires: the draft it captured is written with the current time. */
    method Flush(now: string, storage: Storage)
      modifies this`pendingSave, this`draftSavedAt, storage
      ensures pendingSave.None?
      ensures old(pendingSave).None? ==> storage.entries == old(storage.entries) && draftSavedAt == old(draftSavedAt)
      ensures old(pendingSave).Some? ==>
        storage.entries == old(storage.entries)[DraftKey := DraftJson(old(pendingSave).value, now)]
        && draftSavedAt == JStr(now)
    {
      if pendingSave.Some? {
        storage.SetItem(DraftKey, DraftJson(pendingSave.value, now));
        draftSavedAt := JStr(now);
        pendingSave := None;
      }
    }

    /** "Save Draft": the current fields are written at once; an armed timer stays armed. */
    method SavePartial(now: string, storage: Storage) returns (effects: seq<Effect>)
      modifies this`draftSavedAt, storage
      ensures storage.entries == old(storage.entries)[DraftKey := DraftJson(Current(), now)]
      ensures draftSavedAt == JStr(now)
      ensures effects == [ShowAlert("Saved", Plain("Draft saved locally. You can resume later."))]
    {
      storage.SetItem(DraftKey, DraftJson(Current(), now));
      draftSavedAt := JStr(now);
      effects := [ShowAlert("Saved", Plain("Draft saved locally. You can resume later."))];
    }

    /**
     * "Clear Draft": the key is removed and the identifiers and file emptied;
     * the mode is kept. Emptying them re-arms the debounce timer with the
     * blank fields whenever any of them was non-empty.
     */
    method ClearDraft(storage: Storage) returns (effects: seq<Effect>)
      modifies this`aadhaar, this`pan, this`fileUri, this`draftSavedAt, this`errors, this`pendingSave, storage
      ensures storage.entries == old(storage.entries) - {DraftKey}
      ensures Current() == Draft(old(mode), "", "", "") && draftSavedAt == JNull
      ensures Revalidated(old(Current()), old(errors), old(pendingSave))
      ensures effects == [ShowAlert("Cleared", Plain("Draft cleared"))]
    {
      var before := Current();
      storage.RemoveItem(DraftKey);
      aadhaar := "";
      pan := "";
      fileUri := "";
      draftSavedAt := JNull;
      Revalidate(before);
      effects := [ShowAlert("Cleared", Plain("Draft cleared"))];
    }

    /**
     * "Submit KYC", up to the request. Both identifiers are checked and the
     * submit-time error map replaces the old one; anything invalid stops here.
     * Without a token the request goes ahead only if the server accepted the
     * session (`sessionAccepted`, the outcome of the status probe).
     */
    method BeginManualSubmit(token: Json, sessionAccepted: bool) returns (effects: seq<Effect>, request: Option<Request>)
      modifies this`errors, this`submitting
      ensures errors == SubmitErrors(aadhaar, pan)
      ensures request.Some? <==> AadhaarValid(aadhaar) && PanValid(pan) && (Truthy(token) || sessionAccepted)
      ensures request.Some? ==> request.value == SubmitKycRequest(token, aadhaar, pan) && submitting && effects == []
      ensures request.None? && HasAny(errors) ==> effects == [] && submitting == old(submitting)
      ensures request.None? && !HasAny(errors) ==> effects == [SubmitLoginAlert] && !submitting
    {
      effects := [];
      request := None;
      errors := SubmitErrors(aadhaar, pan);
      if HasAny(errors) {
        return;
      }
      submitting := true;
      if !Truthy(token) && !sessionAccepted {
        submitting := false;
        effects := [SubmitLoginAlert];
        return;
      }
      request := Some(SubmitKycRequest(token, aadhaar, pan));
    }

    /**
     * "Upload File", up to the request. An empty file URI only sets the file
     * error; otherwise the file error is cleared and, with a token, the
     * upload is sent. The identifiers are not validated.
     */
    method BeginUpload(token: Json) returns (effects: seq<Effect>, request: Option<Request>)
      modifies this`errors, this`uploading
      ensures fileUri == "" ==>
        errors == old(errors).(file := Some(FileMessage)) && effects == [] && request.None? && uploading == old(uploading)
      ensures fileUri != "" ==> errors == old(errors).(file := None)
      ensures fileUri != "" && !Truthy(token) ==> effects == [UploadLoginAlert] && request.None? && !uploading
      ensures fileUri != "" && Truthy(token) ==>
        effects == [] && uploading && request == Some(UploadRequest(token, aadhaar, pan, fileUri))
    {
      effects := [];
      request := None;
      if fileUri == "" {
        errors := errors.(file := Some(FileMessage));
        return;
      }
      errors := errors.(file := None);
      uploading := true;
      if !Truthy(token) {
        uploading := false;
        effects := [UploadLoginAlert];
        return;
      }
      request := Some(UploadRequest(token, aadhaar, pan, fileUri));
    }

    /**
     * The response to a submission or upload. Success marks KYC pending with
     * the submission time, removes the draft and returns Home; a rejection
     * merges the server's field errors and explains; a network failure only
     * explains. The busy flag is cleared on every path.
     */
    method Complete(channel: Channel, outcome: Response, now: string, store: AppStore, storage: Storage)
      returns (effects: seq<Effect>)
      modifies this`errors, this`submitting, this`uploading, store`kyc, storage
      ensures channel.ManualEntry? ==> !submitting && uploading == old(uploading)
      ensures channel.DocumentUpload? ==> !uploading && submitting == old(submitting)
      ensures outcome.NetworkError? ==>
        effects == [NetworkAlert(channel, outcome.reason)]
        && errors == old(errors) && store.kyc == old(store.kyc) && storage.entries == old(storage.entries)
      ensures outcome.Response? && outcome.ok ==>
        effects == [SuccessAlert, Navigate(Home, map[])]
        && store.kyc == SetKycStatus(old(store.kyc), SubmittedPatch(now))
        && storage.entries == old(storage.entries) - {DraftKey}
        && errors == old(errors)
      ensures outcome.Response? && !outcome.ok ==>
        var data := Data(outcome.body);
        var server := ServerFieldErrors(data, channel.DocumentUpload?);
        effects == [RejectionAlert(channel, server, data, outcome.status)]
        && errors == MergeErrors(old(errors), server)
        && store.kyc == old(store.kyc) && storage.entries == old(storage.entries)
    {
      match outcome {
        case NetworkError(reason) =>
          effects := [NetworkAlert(channel, reason)];
        case Response(ok, status, _, body) =>
          if ok {
            store.DispatchSetKycStatus(SubmittedPatch(now));
            storage.RemoveItem(DraftKey);
            effects := [SuccessAlert, Navigate(Home, map[])];
          } else {
            var data := Data(body);
            var server := ServerFieldErrors(data, channel.DocumentUpload?);
            errors := MergeErrors(errors, server);
            effects := [RejectionAlert(channel, server, data, status)];
          }
      }
      if channel.ManualEntry? {
        submitting := false;
      } else {
        uploading := false;
      }
    }
  }

  /**
   * Typing a burst of Aadhaar inputs and then pausing writes the draft once,
   * carrying the last value: nothing is stored while the timer keeps being
   * re-armed, and the single flush stores the final fields.
   */
  method BurstThenPause(inputs: seq<string>, now: string) returns (storage: Storage, form: FormScreen)
    ensures storage.entries ==
      map[DraftKey := DraftJson(Draft("manual", if inputs == [] then "" else SanitiseAadhaar(inputs[|inputs| - 1]), "", ""), now)]
  {
    storage := new Storage();
    form := new FormScreen();
    var i := 0;
    ghost var last := "";
    while i < |inputs|
      invariant 0 <= i <= |inputs|
      invariant last == if i == 0 then "" else SanitiseAadhaar(inputs[i - 1])
      invariant storage.entries == map[]
      invariant form.pendingSave == Some(form.Current())
      invariant form.Current() == Draft("manual", last, "", "")
    {
      form.EditAadhaar(inputs[i]);
      last := SanitiseAadhaar(inputs[i]);
      i := i + 1;
    }
    form.Flush(now, storage);
  }

  /**
   * Clearing a loaded draft that held an identifier or a file removes the key,
   * but the re-armed timer then writes the blank fields back under it.
   */
  method ClearedDraftComesBack(d: Draft, savedAt: string, later: string) returns (storage: Storage, form: FormScreen)
    requires d.aadhaar != "" || d.pan != "" || d.fileUri != ""
    ensures storage.entries == map[DraftKey := DraftJson(Draft(d.mode, "", "", ""), later)]
  {
    storage := new Storage();
    storage.SetItem(DraftKey, DraftJson(d, savedAt));
    form := new FormScreen();
    DraftRoundTrip(d, savedAt);
    form.Load(storage.Get(DraftKey));
    var shown := form.ClearDraft(storage);
    assert storage.entries == map[];
    form.Flush(later, storage);
  }
}
