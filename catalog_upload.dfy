/** The catalog upload page: the file picker's type and size check, the
    upload form, and the submission that sends the file with the optional
    marketplace links. */
module CatalogUpload {
  import opened Wrappers
  import Text
  import Platform

  datatype FileInfo = FileInfo(name: string, mimeType: string, size: nat)

  datatype UploadForm = UploadForm(taxRate: real, extraCosts: real, mlLinks: Option<string>)

  /** What `uploadCatalog` is called with. */
  datatype UploadRequest = UploadRequest(file: FileInfo, taxRate: real, extraCosts: real, mlLinks: Option<seq<string>>)

  /** A rejected upload: the `message` of the response body, if any. */
  datatype UploadFailure = UploadFailure(serverMessage: Option<string>)

  const MAX_FILE_SIZE: nat := 10 * 1024 * 1024
  const VALID_TYPES: seq<string> :=
    ["application/pdf", "text/csv", "application/vnd.ms-excel",
     "application/vnd.openxmlformats-officedocument.spreadsheetml.sheet"]
  const INVALID_FORMAT: string := "Formato de arquivo inválido. Use PDF, CSV ou XLSX"
  const TOO_LARGE: string := "Arquivo muito grande. Tamanho máximo: 10MB"
  const NO_FILE: string := "Selecione um arquivo"
  const UPLOADED: string := "Catálogo enviado com sucesso!"
  const UPLOAD_ERROR: string := "Erro ao enviar catálogo"
  const CATALOG_ROUTE_PREFIX: string := "/catalogs/"

  /** `uploadSchema`: a tax rate between 0 and 100 and non-negative extra
      costs; the links are optional. */
  predicate UploadSchemaValid(f: UploadForm)
  {
    0.0 <= f.taxRate <= 100.0 && f.extraCosts >= 0.0
  }

  /** The message a picked file is refused with, if any: the type is checked
      first, then the size, which may be at most 10 MiB. */
  function FileProblem(f: FileInfo): (problem: Option<string>)
    ensures problem == None <==> f.mimeType in VALID_TYPES && f.size <= 10485760
    ensures problem == Some(INVALID_FORMAT) <==> f.mimeType !in VALID_TYPES
    ensures problem == Some(TOO_LARGE) <==> f.mimeType in VALID_TYPES && f.size > 10485760
  {
    if f.mimeType !in VALID_TYPES then Some(INVALID_FORMAT)
    else if f.size > MAX_FILE_SIZE then Some(TOO_LARGE)
    else None
  }

  /** The `ml_links` argument: the non-blank lines of the text, or none when
      the field is absent or empty or every line is blank. */
  function MlLinksParam(mlLinks: Option<string>): (param: Option<seq<string>>)
    ensures mlLinks == None || mlLinks == Some([]) ==> param == None
    ensures param.Some? ==> mlLinks.Some? && param.value != [] &&
                            param.value == Text.NonBlankLines(mlLinks.value)
  {
    var links := if mlLinks.Some? && mlLinks.value != [] then Text.NonBlankLines(mlLinks.value) else [];
    if |links| > 0 then Some(links) else None
  }

  /** A text of several links sends each line that holds something, in
      order; a text of blank lines sends none. */
  lemma MlLinksOfLines(text: string)
    requires text != []
    ensures MlLinksParam(Some(text)) == None <==>
              forall i :: 0 <= i < |Text.Split(text, '\n')| ==> Text.IsBlank(Text.Split(text, '\n')[i])
    ensures MlLinksParam(Some(text)).Some? ==>
              forall l :: l in MlLinksParam(Some(text)).value <==> l in Text.Split(text, '\n') && Text.HasContent(l)
  {
    Text.NonBlankLinesSpec(text);
  }

  /** The message a failed upload shows: the server's, unless it is missing
      or empty. */
  function UploadErrorMessage(e: UploadFailure): (m: string)
    ensures e.serverMessage.Some? && e.serverMessage.value != [] ==> m == e.serverMessage.value
    ensures e.serverMessage.None? || e.serverMessage == Some([]) ==> m == UPLOAD_ERROR
  {
    if e.serverMessage.Some? && e.serverMessage.value != [] then e.serverMessage.value else UPLOAD_ERROR
  }

  class UploadPage {
    var file: Option<FileInfo>
    var isUploading: bool
    var uploadProgress: int
    var uploads: seq<UploadRequest>
    var toasts: seq<Platform.Toast>
    var pushes: seq<string>

    constructor ()
      ensures file == None && !isUploading && uploadProgress == 0
      ensures uploads == [] && toasts == [] && pushes == []
    {
      file := None;
      isUploading := false;
      uploadProgress := 0;
      uploads := [];
      toasts := [];
      pushes := [];
    }

    /** `handleFileChange`: no pick or a refused file leaves the selection
        as it was (a refusal is reported); an accepted file replaces it. */
    method HandleFileChange(selected: Option<FileInfo>)
      modifies this
      ensures selected == None ==> unchanged(this)
      ensures selected.Some? && FileProblem(selected.value).Some? ==>
                && file == old(file)
                && toasts == old(toasts) + [Platform.ToastError(FileProblem(selected.value).value)]
      ensures selected.Some? && FileProblem(selected.value).None? ==> file == selected && toasts == old(toasts)
      ensures isUploading == old(isUploading) && uploadProgress == old(uploadProgress)
      ensures uploads == old(uploads) && pushes == old(pushes)
    {
      if selected.None? {
        return;
      }
      var f := selected.value;
      if f.mimeType !in VALID_TYPES {
        toasts := toasts + [Platform.ToastError(INVALID_FORMAT)];
        return;
      }
      if f.size > MAX_FILE_SIZE {
        toasts := toasts + [Platform.ToastError(TOO_LARGE)];
        return;
      }
      file := selected;
    }

    /** `removeFile`: no file and no progress. */
    method RemoveFile()
      modifies this
      ensures file == None && uploadProgress == 0
      ensures isUploading == old(isUploading) && uploads == old(uploads)
      ensures toasts == old(toasts) && pushes == old(pushes)
    {
      file := None;
      uploadProgress := 0;
    }

    /** Submitting the form: an invalid form changes nothing; without a file
        an error is shown and nothing is uploaded; otherwise the file is sent
        with the non-blank link lines, or none, and `response` (the new
        catalog's id, or the failure) decides between opening the catalog and
        showing the error. `isUploading` is off again in every case. */
    method Submit(data: UploadForm, response: Result<string, UploadFailure>)
      modifies this
      ensures !UploadSchemaValid(data) ==> unchanged(this)
      ensures UploadSchemaValid(data) && old(file) == None ==>
                && toasts == old(toasts) + [Platform.ToastError(NO_FILE)]
                && uploads == old(uploads) && pushes == old(pushes) && isUploading == old(isUploading)
      ensures UploadSchemaValid(data) && old(file).Some? ==>
                && uploads == old(uploads) +
                     [UploadRequest(old(file).value, data.taxRate, data.extraCosts, MlLinksParam(data.mlLinks))]
                && !isUploading
                && (response.Success? ==>
                      && toasts == old(toasts) + [Platform.ToastSuccess(UPLOADED)]
                      && pushes == old(pushes) + [CATALOG_ROUTE_PREFIX + response.value])
                && (response.Failure? ==>
                      && toasts == old(toasts) + [Platform.ToastError(UploadErrorMessage(response.error))]
                      && pushes == old(pushes))
      ensures file == old(file) && uploadProgress == old(uploadProgress)
    {
      if !UploadSchemaValid(data) {
        return;
      }
      if file.None? {
        toasts := toasts + [Platform.ToastError(NO_FILE)];
        return;
      }
      isUploading := true;
      var mlLinks := if data.mlLinks.Some? && data.mlLinks.value != [] then Text.NonBlankLines(data.mlLinks.value) else [];
      uploads := uploads + [UploadRequest(file.value, data.taxRate, data.extraCosts,
                                          if |mlLinks| > 0 then Some(mlLinks) else None)];
      if response.Success? {
        toasts := toasts + [Platform.ToastSuccess(UPLOADED)];
        pushes := pushes + [CATALOG_ROUTE_PREFIX + response.value];
      } else {
        toasts := toasts + [Platform.ToastError(UploadErrorMessage(response.error))];
      }
      isUploading := false;
    }
  }

  /** A file of exactly 10 MiB of an accepted type is kept; one byte more is
      refused and the earlier selection stays. */
  method SizeLimitIsInclusive(mimeType: string, earlier: FileInfo)
    returns (atLimit: Option<FileInfo>, overLimit: Option<FileInfo>)
    requires mimeType in VALID_TYPES
    requires FileProblem(earlier) == None
    ensures atLimit == Some(FileInfo("a", mimeType, 10485760))
    ensures overLimit == Some(earlier)
  {
    var page := new UploadPage();
    page.HandleFileChange(Some(FileInfo("a", mimeType, 10485760)));
    atLimit := page.file;
    page.HandleFileChange(Some(earlier));
    page.HandleFileChange(Some(FileInfo("b", mimeType, 10485761)));
    overLimit := page.file;
  }
}
