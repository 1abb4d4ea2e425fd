/**
 * The scan blueprint's upload pipeline: the guard order, the extension
 * check, the stored file name, the metadata normalisation, the treatment
 * fallback and the removal of the saved file on every failure after it.
 * The classifier, secure_filename, uuid4 and the database calls are inputs.
 */
module ScanRoutes {
  import opened Wrappers
  import opened PyValue
  import opened Http
  import Text

  /** ALLOWED_EXTENSIONS */
  const AllowedExtensions: set<string> := {"png", "jpg", "jpeg"}

  /** filename.rsplit('.', 1)[1]: the text after the last '.', if there is one. */
  function Extension(filename: string): (ext: Option<string>)
    ensures ext.None? <==> '.' !in filename
    ensures ext.Some? ==> '.' !in ext.value
    ensures ext.Some? ==> exists k | 0 <= k < |filename| :: filename[k] == '.' && ext.value == filename[k + 1..]
  {
    match Text.LastIndexOf(filename, '.')
    case None => None
    case Some(k) => Some(filename[k + 1..])
  }

  /** allowed_file: the name has a '.' and its last extension, lowercased, is allowed. */
  predicate AllowedFile(filename: string) {
    match Extension(filename)
    case None => false
    case Some(ext) => Text.Lower(ext) in AllowedExtensions
  }

  /** The extension check in terms of the name's characters. */
  lemma AllowedFileMeaning(filename: string)
    ensures AllowedFile(filename) <==> exists k | 0 <= k < |filename| ::
      filename[k] == '.' && '.' !in filename[k + 1..] && Text.Lower(filename[k + 1..]) in AllowedExtensions
  {
    if !AllowedFile(filename) {
      forall k | 0 <= k < |filename| && filename[k] == '.' && '.' !in filename[k + 1..]
        ensures Text.Lower(filename[k + 1..]) !in AllowedExtensions
      {
      }
    }
  }

  /** `x if x else None` on a form field. */
  function OrNone(field: Option<string>): (r: Option<string>)
    ensures r.Some? <==> field.Some? && field.value != ""
    ensures r.Some? ==> r == field
  {
    if field.Some? && field.value != "" then field else None
  }

  const UploadFolderPath: string := "backend/uploads/images"

  /** The image row create_image inserts. */
  datatype ImageRecord = ImageRecord(userId: int, filePath: string, treeId: Option<string>,
                                     status: string, scanLatitude: Option<string>, scanLongitude: Option<string>)

  /** What predict_service.analyze_image does: a result, a ValueError with its text, or another exception. */
  datatype Analysis =
    | Analysed(predictedClass: string, confidence: real, rawOutput: Value)
    | AnalysisValueError(text: string)
    | AnalysisFailed

  /** A disease_model row: the two treatment texts. */
  datatype DiseaseRow = DiseaseRow(organic: Value, chemical: Value)

  datatype ScanReply =
    | ScanError(reply: Reply)
    | ScanOk(imageId: Value, storedName: string, predictedClass: string, confidence: real,
             rawOutput: Value, organic: Value, chemical: Value)

  /** The treatment texts of the response: the disease row's, or "N/A" for both without one. */
  function TreatmentTexts(details: Option<DiseaseRow>): (t: (Value, Value))
    ensures details.None? ==> t == (Str("N/A"), Str("N/A"))
    ensures details.Some? ==> t == (details.value.organic, details.value.chemical)
  {
    match details
    case None => (Str("N/A"), Str("N/A"))
    case Some(row) => (row.organic, row.chemical)
  }

  /** The upload folder on disk, as the set of paths it holds. */
  class UploadFolder {
    var files: set<string>

    constructor(files: set<string>)
      ensures this.files == files
    {
      this.files := files;
    }

    /** image_file.save(path) */
    method Save(path: string)
      modifies this
      ensures files == old(files) + {path}
    {
      files := files + {path};
    }

    /** `if os.path.exists(path): os.remove(path)` */
    method RemoveIfExists(path: string)
      modifies this
      ensures files == old(files) - {path}
    {
      if path in files {
        files := files - {path};
      }
    }
  }

  /**
   * The try block of upload_and_analyze once the guards have passed: save
   * the file under its new name, classify, record the image, and remove the
   * file again on every failure.
   */
  method SaveAndAnalyze(folder: UploadFolder, userId: int, storedName: string,
                        treeId: Option<string>, scanLatitude: Option<string>, scanLongitude: Option<string>,
                        analysis: Analysis, lookup: string -> Option<DiseaseRow>, createImage: ImageRecord -> Value)
    returns (r: ScanReply)
    modifies folder
    ensures var record := ImageRecord(userId, "uploads/" + storedName, OrNone(treeId), "analyzed",
                                      OrNone(scanLatitude), OrNone(scanLongitude));
      && (analysis.AnalysisValueError? ==> r == ScanError(Json(400, analysis.text)))
      && (analysis.AnalysisFailed? ==>
            r == ScanError(Json(500, "An unexpected server error occurred during analysis")))
      && (analysis.Analysed? && !Truthy(createImage(record)) ==>
            r == ScanError(Json(500, "Failed to save image metadata")))
      && (analysis.Analysed? && Truthy(createImage(record)) ==>
            var treatment := TreatmentTexts(lookup(analysis.predictedClass));
            r == ScanOk(createImage(record), storedName, analysis.predictedClass, analysis.confidence,
                        analysis.rawOutput, treatment.0, treatment.1))
    ensures r.ScanOk? ==> folder.files == old(folder.files) + {UploadFolderPath + "/" + storedName}
    ensures !r.ScanOk? ==> folder.files == old(folder.files) - {UploadFolderPath + "/" + storedName}
  {
    var savePath := UploadFolderPath + "/" + storedName;
    folder.Save(savePath);
    match analysis {
      case AnalysisValueError(text) =>
        folder.RemoveIfExists(savePath);
        return ScanError(Json(400, text));
      case AnalysisFailed =>
        folder.RemoveIfExists(savePath);
        return ScanError(Json(500, "An unexpected server error occurred during analysis"));
      case Analysed(predictedClass, confidence, rawOutput) =>
        var details := lookup(predictedClass);
        var record := ImageRecord(userId, "uploads/" + storedName, OrNone(treeId), "analyzed",
                                  OrNone(scanLatitude), OrNone(scanLongitude));
        var imageId := createImage(record);
        if !Truthy(imageId) {
          folder.RemoveIfExists(savePath);
          return ScanError(Json(500, "Failed to save image metadata"));
        }
        var treatment := TreatmentTexts(details);
        r := ScanOk(imageId, storedName, predictedClass, confidence, rawOutput, treatment.0, treatment.1);
    }
  }

  /** The name a secured filename is stored under: the uuid and the lowercased extension. */
  function StoredName(uuid: string, securedFilename: string): (name: Option<string>)
    ensures name.Some? <==> '.' in securedFilename
    ensures name.Some? ==> name.value == uuid + "." + Text.Lower(Extension(securedFilename).value)
  {
    match Extension(securedFilename)
    case None => None
    case Some(ext) => Some(uuid + "." + Text.Lower(ext))
  }

  /**
   * upload_and_analyze. `service` says whether the classifier loaded,
   * `filename` is the uploaded part's name (None without an 'image' part),
   * `lookup` is get_disease_by_name and `createImage` returns the new id or a
   * falsy value. The file stays in the folder only when the scan succeeds.
   */
  method UploadAndAnalyze(folder: UploadFolder, userId: int, service: bool, filename: Option<string>,
                          treeId: Option<string>, scanLatitude: Option<string>, scanLongitude: Option<string>,
                          secureFilename: string -> string, uuid: string, analysis: Analysis,
                          lookup: string -> Option<DiseaseRow>, createImage: ImageRecord -> Value)
    returns (r: ScanReply)
    modifies folder
    ensures !service ==> r == ScanError(Json(503,
      "Image analysis is temporarily disabled. ML model file is missing or failed to load."))
    ensures service && filename.None? ==> r == ScanError(Json(400, "No image file provided"))
    ensures service && filename == Some("") ==> r == ScanError(Json(400, "No selected file"))
    ensures service && filename.Some? && filename.value != "" && !AllowedFile(filename.value) ==>
      r == ScanError(Crash)
    ensures service && filename.Some? && AllowedFile(filename.value)
            && StoredName(uuid, secureFilename(filename.value)).None? ==>
      r == ScanError(Crash)
    ensures service && filename.Some? && AllowedFile(filename.value)
            && StoredName(uuid, secureFilename(filename.value)).Some? ==>
      var storedName := StoredName(uuid, secureFilename(filename.value)).value;
      var record := ImageRecord(userId, "uploads/" + storedName, OrNone(treeId), "analyzed",
                                OrNone(scanLatitude), OrNone(scanLongitude));
      && (analysis.AnalysisValueError? ==> r == ScanError(Json(400, analysis.text)))
      && (analysis.AnalysisFailed? ==>
            r == ScanError(Json(500, "An unexpected server error occurred during analysis")))
      && (analysis.Analysed? && !Truthy(createImage(record)) ==>
            r == ScanError(Json(500, "Failed to save image metadata")))
      && (analysis.Analysed? && Truthy(createImage(record)) ==>
            var treatment := TreatmentTexts(lookup(analysis.predictedClass));
            r == ScanOk(createImage(record), storedName, analysis.predictedClass, analysis.confidence,
                        analysis.rawOutput, treatment.0, treatment.1))
    ensures r.ScanOk? ==>
      && service && filename.Some? && AllowedFile(filename.value)
      && StoredName(uuid, secureFilename(filename.value)) == Some(r.storedName)
      && analysis.Analysed? && r.predictedClass == analysis.predictedClass
      && r.imageId == createImage(ImageRecord(userId, "uploads/" + r.storedName, OrNone(treeId), "analyzed",
                                              OrNone(scanLatitude), OrNone(scanLongitude)))
      && Truthy(r.imageId)
      && (r.organic, r.chemical) == TreatmentTexts(lookup(analysis.predictedClass))
      && folder.files == old(folder.files) + {UploadFolderPath + "/" + r.storedName}
    ensures !r.ScanOk? ==> folder.files <= old(folder.files)
  {
    if !service {
      return ScanError(Json(503, "Image analysis is temporarily disabled. ML model file is missing or failed to load."));
    }
    if filename.None? {
      return ScanError(Json(400, "No image file provided"));
    }
    if filename.value == "" {
      return ScanError(Json(400, "No selected file"));
    }
    if !AllowedFile(filename.value) {
      // The if has no else: the view returns None and Flask fails the request.
      return ScanError(Crash);
    }
    var storedName := StoredName(uuid, secureFilename(filename.value));
    if storedName.None? {
      // rsplit('.', 1)[1] raises before save_path is bound, and the handler's
      // os.path.exists(save_path) raises again, outside any handler.
      return ScanError(Crash);
    }
    r := SaveAndAnalyze(folder, userId, storedName.value, treeId, scanLatitude, scanLongitude,
                        analysis, lookup, createImage);
  }
}
