/**
 * The pure rules of the KYC form: identifier patterns, input sanitising,
 * live and submit-time validation, server field errors, file naming and the
 * stored draft's format.
 */
module KycFormRules {
  import opened Wrappers
  import opened JsonValues
  import opened Text
  import opened Effects

  const DraftKey := "kycDraft_v1"

  /** `/^[0-9]{12}$/` */
  predicate AadhaarValid(s: string)
    ensures AadhaarValid(s) <==> |s| == 12 && DigitsOnly(s) == s
  {
    |s| == 12 && forall i :: 0 <= i < |s| ==> IsDigit(s[i])
  }

  /** `/^[A-Z]{5}[0-9]{4}[A-Z]$/` */
  predicate PanValid(s: string)
    ensures PanValid(s) ==> |s| == 10 && Upper(s) == s && forall i :: 0 <= i < |s| ==> IsAlnum(s[i])
  {
    |s| == 10
    && (forall i :: 0 <= i < 5 ==> IsUpper(s[i]))
    && (forall i :: 5 <= i < 9 ==> IsDigit(s[i]))
    && IsUpper(s[9])
  }

  // ---------------------------------------------------------------- input

  /** `s.replace(/[^0-9]/g, '')`: the digits of `s`, in order. */
  function DigitsOnly(s: string): (r: string)
    ensures |r| <= |s|
    ensures forall i :: 0 <= i < |r| ==> IsDigit(r[i])
    ensures (forall i :: 0 <= i < |s| ==> IsDigit(s[i])) ==> r == s
  {
    if s == [] then []
    else
      assert s == [s[0]] + s[1..];
      if IsDigit(s[0]) then [s[0]] + DigitsOnly(s[1..])
      else DigitsOnly(s[1..])
  }

  /** Every digit of `s` is kept, as often as it occurs, and nothing else. */
  lemma {:induction false} DigitsOnlyCounts(s: string)
    ensures forall c :: IsDigit(c) ==> multiset(DigitsOnly(s))[c] == multiset(s)[c]
    ensures forall c :: !IsDigit(c) ==> multiset(DigitsOnly(s))[c] == 0
    decreases |s|
  {
    if s != [] {
      assert s == [s[0]] + s[1..];
      DigitsOnlyCounts(s[1..]);
    }
  }

  /** Filtering works piece by piece, so the digits keep their order. */
  lemma {:induction false} DigitsOnlyAppend(s: string, t: string)
    ensures DigitsOnly(s + t) == DigitsOnly(s) + DigitsOnly(t)
    decreases |s|
  {
    if s == [] {
      assert s + t == t;
    } else {
      var u := s + t;
      assert u != [] && u[0] == s[0] && u[1..] == s[1..] + t;
      DigitsOnlyAppend(s[1..], t);
      if IsDigit(s[0]) {
        assert DigitsOnly(u) == [s[0]] + DigitsOnly(s[1..] + t);
        assert DigitsOnly(s) == [s[0]] + DigitsOnly(s[1..]);
        assert [s[0]] + (DigitsOnly(s[1..]) + DigitsOnly(t)) == ([s[0]] + DigitsOnly(s[1..])) + DigitsOnly(t);
      } else {
        assert DigitsOnly(u) == DigitsOnly(s[1..] + t);
        assert DigitsOnly(s) == DigitsOnly(s[1..]);
      }
    }
  }

  /** What the Aadhaar field stores for typed text. */
  function SanitiseAadhaar(input: string): (a: string)
    ensures |a| <= 12 && forall i :: 0 <= i < |a| ==> IsDigit(a[i])
    ensures AadhaarValid(a) <==> |a| == 12
    ensures AadhaarValid(input) ==> a == input
    ensures forall c :: IsDigit(c) ==> multiset(a)[c] == multiset(Take(input, 12))[c]
  {
    DigitsOnlyCounts(Take(input, 12));
    DigitsOnly(Take(input, 12))
  }

  /** What the PAN field stores for typed text. */
  function SanitisePan(input: string): (p: string)
    ensures |p| == if |input| <= 10 then |input| else 10
    ensures forall i :: 0 <= i < |p| ==> !IsLower(p[i])
    ensures forall i :: 0 <= i < |p| ==> p[i] == UpperChar(input[i])
    ensures PanValid(input) ==> p == input
  {
    Upper(Take(input, 10))
  }

  /**
   * The stored Aadhaar is at most twelve digits; it is valid exactly when it
   * has twelve, and a valid number is stored as typed.
   */
  lemma SanitisedAadhaar(input: string)
    ensures var a := SanitiseAadhaar(input);
      && |a| <= 12
      && (forall i :: 0 <= i < |a| ==> IsDigit(a[i]))
      && (AadhaarValid(a) <==> |a| == 12)
      && SanitiseAadhaar(a) == a
      && (AadhaarValid(input) ==> a == input)
  {
  }

  /**
   * The stored PAN is at most ten characters without ASCII lower-case letters;
   * sanitising is idempotent, and a PAN typed in any mix of cases is stored as
   * the valid upper-case PAN it spells.
   */
  lemma SanitisedPan(input: string, pan: string)
    ensures var p := SanitisePan(input);
      && |p| <= 10
      && (forall i :: 0 <= i < |p| ==> !IsLower(p[i]))
      && SanitisePan(p) == p
    ensures PanValid(pan) && |input| == 10 && Upper(input) == Upper(pan) ==> SanitisePan(input) == pan
  {
    var p := SanitisePan(input);
    assert Upper(p) == p;
    if PanValid(pan) && |input| == 10 && Upper(input) == Upper(pan) {
      assert forall i :: 0 <= i < 10 ==> UpperChar(pan[i]) == pan[i];
    }
  }

  // ----------------------------------------------------------- validation

  /** The error map: one optional message per field. */
  datatype FieldErrors = FieldErrors(aadhaar: Option<string>, pan: Option<string>, file: Option<string>)

  const NoErrors := FieldErrors(None, None, None)

  const LiveAadhaarMessage := "Aadhaar must be 12 digits"
  const LivePanMessage := "PAN must match pattern (ABCDE1234F)"
  const SubmitAadhaarMessage := "Aadhaar must be numeric 12 digits"
  const SubmitPanMessage := "PAN must follow pattern ABCDE1234F"
  const FileMessage := "Please provide a file URI"

  predicate HasAny(e: FieldErrors) {
    e.aadhaar.Some? || e.pan.Some? || e.file.Some?
  }

  /** The error map the validation effect installs while the user types. */
  function LiveErrors(aadhaar: string, pan: string): (e: FieldErrors)
    ensures e.file.None?
    ensures e.aadhaar.None? <==> aadhaar == "" || AadhaarValid(aadhaar)
    ensures e.pan.None? <==> pan == "" || PanValid(pan)
    ensures e.aadhaar.Some? ==> e.aadhaar.value == LiveAadhaarMessage
    ensures e.pan.Some? ==> e.pan.value == LivePanMessage
  {
    FieldErrors(
      if aadhaar != "" && !AadhaarValid(aadhaar) then Some(LiveAadhaarMessage) else None,
      if pan != "" && !PanValid(pan) then Some(LivePanMessage) else None,
      None)
  }

  /** The error map manual submission installs before sending anything. */
  function SubmitErrors(aadhaar: string, pan: string): (e: FieldErrors)
    ensures e.file.None?
    ensures e.aadhaar.None? <==> AadhaarValid(aadhaar)
    ensures e.pan.None? <==> PanValid(pan)
    ensures !HasAny(e) <==> AadhaarValid(aadhaar) && PanValid(pan)
    ensures e.aadhaar.Some? ==> e.aadhaar.value == SubmitAadhaarMessage
    ensures e.pan.Some? ==> e.pan.value == SubmitPanMessage
  {
    FieldErrors(
      if !AadhaarValid(aadhaar) then Some(SubmitAadhaarMessage) else None,
      if !PanValid(pan) then Some(SubmitPanMessage) else None,
      None)
  }

  /**
   * Live validation leaves empty fields alone and otherwise flags the same
   * fields as submission; submission finds nothing exactly when both
   * identifiers are valid, so an empty form passes live validation and fails
   * submission on both fields.
   */
  lemma LiveVersusSubmit(aadhaar: string, pan: string)
    ensures var live := LiveErrors(aadhaar, pan);
      var submit := SubmitErrors(aadhaar, pan);
      && (live.aadhaar.Some? <==> aadhaar != "" && submit.aadhaar.Some?)
      && (live.pan.Some? <==> pan != "" && submit.pan.Some?)
      && (!HasAny(submit) <==> AadhaarValid(aadhaar) && PanValid(pan))
      && (HasAny(live) ==> HasAny(submit))
    ensures LiveErrors("", "") == NoErrors
    ensures SubmitErrors("", "") == FieldErrors(Some(SubmitAadhaarMessage), Some(SubmitPanMessage), None)
  {
  }

  /** `Array.isArray(data[key]) ? data[key].join('\n')`. */
  function ArrayField(data: Json, key: string): Option<string> {
    var v := Get(data, key);
    if v.JArr? then Some(JoinItems(v.items, "\n")) else None
  }

  /** The field errors a rejected submission reports; the document key only for uploads. */
  function ServerFieldErrors(data: Json, withDocument: bool): (e: FieldErrors)
    ensures e.aadhaar.Some? <==> Get(data, "aadhaar_identifier").JArr?
    ensures e.pan.Some? <==> Get(data, "pan_identifier").JArr?
    ensures e.file.Some? <==> withDocument && Get(data, "document").JArr?
    ensures e.aadhaar.Some? ==> e.aadhaar.value == JoinItems(Get(data, "aadhaar_identifier").items, "\n")
    ensures e.pan.Some? ==> e.pan.value == JoinItems(Get(data, "pan_identifier").items, "\n")
    ensures e.file.Some? ==> e.file.value == JoinItems(Get(data, "document").items, "\n")
  {
    if !Truthy(data) then NoErrors
    else FieldErrors(
      ArrayField(data, "aadhaar_identifier"),
      ArrayField(data, "pan_identifier"),
      if withDocument then ArrayField(data, "document") else None)
  }

  /** `{ ...current, ...server }` over keys that the server map actually holds. */
  function MergeErrors(current: FieldErrors, server: FieldErrors): (m: FieldErrors)
    ensures server.aadhaar.Some? ==> m.aadhaar == server.aadhaar
    ensures server.aadhaar.None? ==> m.aadhaar == current.aadhaar
    ensures server.pan.Some? ==> m.pan == server.pan
    ensures server.pan.None? ==> m.pan == current.pan
    ensures server.file.Some? ==> m.file == server.file
    ensures server.file.None? ==> m.file == current.file
    ensures HasAny(server) ==> HasAny(m)
    ensures !HasAny(server) ==> m == current
  {
    FieldErrors(
      if server.aadhaar.Some? then server.aadhaar else current.aadhaar,
      if server.pan.Some? then server.pan else current.pan,
      if server.file.Some? then server.file else current.file)
  }

  /**
   * Merging server errors keeps every field the server does not name, adopts
   * every field it names, is idempotent, and a body without array-valued
   * fields leaves the error map as it was.
   */
  lemma MergeServerErrors(current: FieldErrors, data: Json, withDocument: bool)
    ensures var server := ServerFieldErrors(data, withDocument);
      var merged := MergeErrors(current, server);
      && (server.aadhaar.None? ==> merged.aadhaar == current.aadhaar)
      && (server.pan.None? ==> merged.pan == current.pan)
      && (server.file.None? ==> merged.file == current.file)
      && (server.aadhaar.Some? ==> merged.aadhaar == server.aadhaar)
      && (server.pan.Some? ==> merged.pan == server.pan)
      && (server.file.Some? ==> merged.file == server.file)
      && MergeErrors(merged, server) == merged
    ensures !withDocument ==> ServerFieldErrors(data, withDocument).file.None?
    ensures (!Get(data, "aadhaar_identifier").JArr? && !Get(data, "pan_identifier").JArr?
             && !Get(data, "document").JArr?) ==> MergeErrors(current, ServerFieldErrors(data, withDocument)) == current
  {
  }

  /** `Object.values(fieldErrors)`, in the order the keys were added. */
  function Messages(e: FieldErrors): (ms: seq<string>)
    ensures |ms| > 0 <==> HasAny(e)
  {
    (if e.aadhaar.Some? then [e.aadhaar.value] else [])
    + (if e.pan.Some? then [e.pan.value] else [])
    + (if e.file.Some? then [e.file.value] else [])
  }

  /**
   * The failure alert's text: the server's field messages joined by line
   * breaks, else the serialised body, else "<fallback> (<status>)".
   */
  function FailureMessage(server: FieldErrors, data: Json, fallback: string, status: int): (m: Message)
    ensures HasAny(server) ==> m == Plain(Join(Messages(server), "\n"))
    ensures m.JsonOf? <==> !HasAny(server) && Truthy(data)
    ensures m.JsonOf? ==> m.value == data
    ensures !HasAny(server) && !Truthy(data) ==> m == Plain(fallback + " (" + IntText(status) + ")")
  {
    var messages := Messages(server);
    if |messages| > 0 then Plain(Join(messages, "\n"))
    else if Truthy(data) then JsonOf(data)
    else
      assert fallback + " " + StatusSuffix(status) == fallback + " (" + IntText(status) + ")";
      Plain(fallback + " " + StatusSuffix(status))
  }

  /**
   * Field messages win whenever the server names a field, the body is shown
   * only when it names none, and the status message only when the body is
   * falsy as well.
   */
  lemma FailureMessageChoice(data: Json, withDocument: bool, fallback: string, status: int)
    ensures var server := ServerFieldErrors(data, withDocument);
      var m := FailureMessage(server, data, fallback, status);
      && (HasAny(server) ==> m == Plain(Join(Messages(server), "\n")))
      && (!HasAny(server) && Truthy(data) ==> m == JsonOf(data))
      && (!Truthy(data) ==> m == Plain(fallback + " (" + IntText(status) + ")"))
  {
  }

  /** A single server message for one field is shown as it is. */
  lemma SingleFieldMessage(withDocument: bool, fallback: string, status: int)
    ensures var single := JObj(map["pan_identifier" := JArr([JStr("Invalid PAN")])]);
      FailureMessage(ServerFieldErrors(single, withDocument), single, fallback, status) == Plain("Invalid PAN")
  {
    var single := JObj(map["pan_identifier" := JArr([JStr("Invalid PAN")])]);
    var server := ServerFieldErrors(single, withDocument);
    assert server.aadhaar.None? && server.file.None?;
    assert JoinItems([JStr("Invalid PAN")], "\n") == "Invalid PAN";
    assert Messages(server) == ["Invalid PAN"];
  }

  // ------------------------------------------------------------ file name

  /** `s.split('/').pop()`: the text after the last '/', or all of `s` when it has none. */
  function LastSegment(s: string): (r: string)
    ensures |r| <= |s| && r == s[|s| - |r|..]
    ensures forall i :: 0 <= i < |r| ==> r[i] != '/'
    ensures |r| < |s| ==> s[|s| - |r| - 1] == '/'
    decreases |s|
  {
    if s == [] then []
    else if s[|s| - 1] == '/' then []
    else LastSegment(s[..|s| - 1]) + [s[|s| - 1]]
  }

  /** The upload's file name: the last path segment, or "document.jpg" when that is empty. */
  function FileName(uri: string): (r: string)
    ensures r != "" && forall i :: 0 <= i < |r| ==> r[i] != '/'
    ensures LastSegment(uri) != "" ==> r == LastSegment(uri)
    ensures LastSegment(uri) == "" ==> r == DefaultFileName
    ensures uri != "" && (forall i :: 0 <= i < |uri| ==> uri[i] != '/') ==> r == uri
    ensures uri == "" || uri[|uri| - 1] == '/' ==> r == DefaultFileName
  {
    var segment := LastSegment(uri);
    if segment == "" then DefaultNameHasNoSlash(); DefaultFileName else segment
  }

  /** The name an upload gets when its URI ends in '/'. */
  const DefaultFileName: string := "document.jpg"

  lemma DefaultNameHasNoSlash()
    ensures DefaultFileName != "" && forall i :: 0 <= i < |DefaultFileName| ==> DefaultFileName[i] != '/'
  {
    forall i | 0 <= i < |DefaultFileName| ensures DefaultFileName[i] != '/' {
      assert DefaultFileName[i] in "documentjpg.";
    }
  }

  /** The longest suffix of ASCII letters and digits. */
  function AlnumSuffix(s: string): (r: string)
    ensures |r| <= |s| && r == s[|s| - |r|..]
    ensures forall i :: 0 <= i < |r| ==> IsAlnum(r[i])
    ensures |r| < |s| ==> !IsAlnum(s[|s| - |r| - 1])
    decreases |s|
  {
    if s == [] || !IsAlnum(s[|s| - 1]) then []
    else AlnumSuffix(s[..|s| - 1]) + [s[|s| - 1]]
  }

  /** `/\.([0-9a-zA-Z]+)$/` lower-cased, or "jpg" when the name does not end that way. */
  function Extension(name: string): (e: string)
    ensures e != "" && forall i :: 0 <= i < |e| ==> IsAlnum(e[i]) && !IsUpper(e[i])
    ensures e != "jpg" ==> '.' in name
    ensures e != "jpg" ==>
      exists k :: 0 <= k < |name| - 1 && name[k] == '.' && (forall j :: k < j < |name| ==> IsAlnum(name[j])) && e == Lower(name[k + 1..])
  {
    var tail := AlnumSuffix(name);
    if tail != "" && |tail| < |name| && name[|name| - |tail| - 1] == '.' then
      var k := |name| - |tail| - 1;
      assert name[k + 1..] == tail;
      assert forall j :: k < j < |name| ==> name[j] == tail[j - k - 1];
      Lower(tail)
    else "jpg"
  }

  /** A name whose last character is not a letter or digit, such as "photo.", falls back to "jpg". */
  lemma TrailingSymbolIsJpeg(name: string)
    requires name != [] && !IsAlnum(name[|name| - 1])
    ensures Extension(name) == "jpg" && Mime(name) == "image/jpeg"
  {
  }

  /** The upload's content type: PNG for a ".png" extension in any case, JPEG for everything else. */
  function Mime(name: string): (m: string)
    ensures m == "image/png" || m == "image/jpeg"
    ensures m == "image/png" <==> Extension(name) == "png"
  {
    if Extension(name) == "png" then "image/png" else "image/jpeg"
  }

  /** A '/'-free name after the last '/' is the file name. */
  lemma {:induction false} FileNameAfterSlash(dir: string, name: string)
    requires name != "" && forall i :: 0 <= i < |name| ==> name[i] != '/'
    ensures FileName(dir + "/" + name) == name
    decreases |name|
  {
    var s := dir + "/" + name;
    var r := LastSegment(s);
    assert forall j :: |s| - |name| <= j < |s| ==> s[j] == name[j - (|s| - |name|)];
    assert s[|s| - |name| - 1] == '/';
    assert |r| == |name|;
    assert r == s[|s| - |name|..] == name;
  }

  /** A non-empty alphanumeric suffix after a final '.' is the extension, lower-cased. */
  lemma {:induction false} ExtensionAfterDot(stem: string, ext: string)
    requires ext != "" && forall i :: 0 <= i < |ext| ==> IsAlnum(ext[i])
    ensures Extension(stem + "." + ext) == Lower(ext)
  {
    var s := stem + "." + ext;
    var t := AlnumSuffix(s);
    assert forall j :: |s| - |ext| <= j < |s| ==> s[j] == ext[j - (|s| - |ext|)];
    assert s[|s| - |ext| - 1] == '.';
    assert |t| == |ext|;
    assert t == s[|s| - |ext|..] == ext;
  }

  /** A name without a '.' falls back to "jpg", hence to the JPEG type. */
  lemma NoDotIsJpeg(name: string)
    requires forall i :: 0 <= i < |name| ==> name[i] != '.'
    ensures Extension(name) == "jpg" && Mime(name) == "image/jpeg"
  {
  }

  /** "photo.PNG" at the end of a path is sent as a PNG. */
  lemma UpperCasePngIsPng(dir: string)
    ensures FileName(dir + "/photo.PNG") == "photo.PNG"
    ensures Mime(FileName(dir + "/photo.PNG")) == "image/png"
  {
    var name := "photo.PNG";
    assert forall i :: 0 <= i < |name| ==> name[i] != '/';
    FileNameAfterSlash(dir, name);
    assert dir + "/photo.PNG" == dir + "/" + name;
    PngExtension();
  }

  lemma PngExtension()
    ensures Extension("photo.PNG") == "png"
  {
    var ext := "PNG";
    assert "photo.PNG" == "photo" + "." + ext;
    assert forall i :: 0 <= i < |ext| ==> IsAlnum(ext[i]);
    ExtensionAfterDot("photo", ext);
    LowerPng();
  }

  lemma LowerPng()
    ensures Lower("PNG") == "png"
  {
    var l := Lower("PNG");
    assert l[0] == 'p' && l[1] == 'n' && l[2] == 'g';
  }

  // ---------------------------------------------------------------- draft

  /** The draft fields saved under the draft key. */
  datatype Draft = Draft(mode: string, aadhaar: string, pan: string, fileUri: string)

  const BlankDraft := Draft("manual", "", "", "")

  /** The saved record: the draft fields and the time of the save. */
  function DraftJson(d: Draft, savedAt: string): (r: Json)
    ensures r.JObj? && r.fields.Keys == {"mode", "aadhaar", "pan", "fileUri", "savedAt"}
    ensures forall key :: key in r.fields ==> r.fields[key].JStr?
    ensures Truthy(r)
  {
    JObj(map["mode" := JStr(d.mode), "aadhaar" := JStr(d.aadhaar), "pan" := JStr(d.pan),
             "fileUri" := JStr(d.fileUri), "savedAt" := JStr(savedAt)])
  }

  /** `value ?? fallback` for a field the screen keeps as text. */
  function TextOr(value: Json, fallback: string): string {
    match value
    case JNull => fallback
    case JStr(s) => s
    case _ => ToText(value)
  }

  /** A draft read back: its fields and its save time (null when absent). */
  datatype LoadedDraft = LoadedDraft(draft: Draft, savedAt: Json)

  /**
   * Reading the draft key on mount. Nothing is loaded when the key is absent,
   * or when it holds `null` (reading a field of it throws and the error is
   * swallowed); any other value loads, with a missing mode read as "manual",
   * missing text as "" and a missing save time as null.
   */
  function LoadDraft(stored: Option<Json>): (r: Option<LoadedDraft>)
    ensures r.None? <==> stored.None? || stored.value.JNull?
  {
    match stored
    case None => None
    case Some(JNull) => None
    case Some(v) =>
      Some(LoadedDraft(
        Draft(TextOr(Get(v, "mode"), "manual"), TextOr(Get(v, "aadhaar"), ""),
              TextOr(Get(v, "pan"), ""), TextOr(Get(v, "fileUri"), "")),
        Get(v, "savedAt")))
  }

  /** A saved draft loads back as saved, with its save time. */
  lemma DraftRoundTrip(d: Draft, savedAt: string)
    ensures LoadDraft(Some(DraftJson(d, savedAt))) == Some(LoadedDraft(d, JStr(savedAt)))
  {
  }

  /** A stored value without any draft field loads as the blank draft. */
  lemma MissingFieldsLoadBlank(v: Json)
    requires !v.JNull?
    requires forall key :: key in ["mode", "aadhaar", "pan", "fileUri", "savedAt"] ==> Get(v, key) == JNull
    ensures LoadDraft(Some(v)) == Some(LoadedDraft(BlankDraft, JNull))
  {
    assert Get(v, "mode") == JNull && Get(v, "aadhaar") == JNull && Get(v, "pan") == JNull;
    assert Get(v, "fileUri") == JNull && Get(v, "savedAt") == JNull;
  }
}
