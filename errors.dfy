/**
 * The backend's error taxonomy: an application error carries an HTTP status,
 * a flag saying whether it is an expected ("operational") failure and a
 * machine-readable code. Raw failures of the storage client are classified
 * into this taxonomy, and any error is rendered into the JSON body sent to
 * the client, withholding the detail of unexpected failures.
 */
module Errors {
  import opened Records

  /** Which class of the hierarchy built the error; `Base` is the root class used directly. */
  datatype Kind = Base | Validation | NotFound | Unauthorized | Forbidden | Conflict | Internal

  /** The existing record a validation error may point to. */
  datatype ExistingDiagnosis = ExistingDiagnosis(id: string, diagnosisName: string, createdAt: Timestamp)

  /**
   * An application error. `warning` and `existingDiagnosis` are set only by the
   * validation kind; an unset warning is `false`, which is how the renderer reads it.
   */
  datatype AppError = AppError(
    kind: Kind,
    statusCode: int,
    message: string,
    isOperational: bool,
    code: Option<string>,
    warning: bool,
    existingDiagnosis: Option<ExistingDiagnosis>)

  /** What can reach the classifier or the renderer: nothing, a plain error object, or an application error. */
  datatype Thrown =
    | Nothing
    | Raw(raw: StoreError)
    | App(err: AppError)

  /** The fields each class fixes. */
  predicate HasFixedFields(e: AppError, status: int, operational: bool, code: string) {
    e.statusCode == status && e.isOperational == operational && e.code == Some(code)
    && !e.warning && e.existingDiagnosis.None?
  }

  /** `e` is what the constructor of its class can build. */
  predicate Wf(e: AppError) {
    match e.kind
    case Base => !e.warning && e.existingDiagnosis.None?
    case Validation => e.statusCode == 400 && e.isOperational
    case NotFound => HasFixedFields(e, 404, true, "NOT_FOUND")
    case Unauthorized => HasFixedFields(e, 401, true, "UNAUTHORIZED")
    case Forbidden => HasFixedFields(e, 403, true, "FORBIDDEN")
    case Conflict => e.statusCode == 409 && e.isOperational && !e.warning && e.existingDiagnosis.None?
    case Internal => HasFixedFields(e, 500, false, "INTERNAL_ERROR")
  }

  function NewAppError(statusCode: int, message: string, isOperational: bool := true, code: Option<string> := None): (e: AppError)
    ensures Wf(e) && e.kind == Base
    ensures e.statusCode == statusCode && e.message == message && e.isOperational == isOperational && e.code == code
  {
    AppError(Base, statusCode, message, isOperational, code, false, None)
  }

  function ValidationError(message: string, code: Option<string> := None, warning: bool := false,
                           existing: Option<ExistingDiagnosis> := None): (e: AppError)
    ensures Wf(e) && e.kind == Validation && e.statusCode == 400
    ensures e.message == message && e.code == code && e.warning == warning && e.existingDiagnosis == existing
  {
    AppError(Validation, 400, message, true, code, warning, existing)
  }

  function NotFoundError(message: string := "Resource not found"): (e: AppError)
    ensures Wf(e) && e.kind == NotFound && e.message == message
  {
    AppError(NotFound, 404, message, true, Some("NOT_FOUND"), false, None)
  }

  function UnauthorizedError(message: string := "Unauthorized"): (e: AppError)
    ensures Wf(e) && e.kind == Unauthorized && e.message == message
  {
    AppError(Unauthorized, 401, message, true, Some("UNAUTHORIZED"), false, None)
  }

  function ForbiddenError(message: string := "Forbidden"): (e: AppError)
    ensures Wf(e) && e.kind == Forbidden && e.message == message
  {
    AppError(Forbidden, 403, message, true, Some("FORBIDDEN"), false, None)
  }

  function ConflictError(message: string, code: Option<string> := None): (e: AppError)
    ensures Wf(e) && e.kind == Conflict && e.message == message && e.code == code
  {
    AppError(Conflict, 409, message, true, code, false, None)
  }

  function InternalServerError(message: string := "Internal server error"): (e: AppError)
    ensures Wf(e) && e.kind == Internal && e.message == message
  {
    AppError(Internal, 500, message, false, Some("INTERNAL_ERROR"), false, None)
  }

  /** The expectations on freshly built errors. */
  lemma ConstructorFields(message: string, existing: ExistingDiagnosis)
    ensures var e := ValidationError(message, Some("VALIDATION_CODE"), true, Some(existing));
      e.statusCode == 400 && e.warning && e.existingDiagnosis == Some(existing)
    ensures var e := NewAppError(400, message, true, Some("TEST_CODE"));
      e.statusCode == 400 && e.message == message && e.isOperational && e.code == Some("TEST_CODE")
    ensures ValidationError(message).statusCode == 400 && ValidationError(message).isOperational
    ensures NotFoundError().statusCode == 404 && NotFoundError().message == "Resource not found"
      && NotFoundError().code == Some("NOT_FOUND")
    ensures UnauthorizedError().statusCode == 401 && UnauthorizedError().code == Some("UNAUTHORIZED")
    ensures ForbiddenError().statusCode == 403 && ForbiddenError().code == Some("FORBIDDEN")
    ensures ConflictError(message).statusCode == 409
    ensures InternalServerError(message).statusCode == 500 && !InternalServerError(message).isOperational
      && InternalServerError(message).code == Some("INTERNAL_ERROR")
  {
  }

  /** The `code` property of what was thrown; "" when it is absent or empty (falsy). */
  function CodeOf(t: Thrown): string {
    match t
    case Nothing => ""
    case Raw(r) => r.code
    case App(err) => err.code.GetOr("")
  }

  /**
   * The reference table of storage codes: PostgREST's "no row" and the
   * PostgreSQL unique, foreign-key and not-null violations, each with the
   * class, status, code and client-facing message it must turn into.
   */
  const StoreCodeTable: map<string, (Kind, int, string, string)> := map[
    "PGRST116" := (NotFound, 404, "NOT_FOUND", "Resource not found"),
    "23505" := (Conflict, 409, "DUPLICATE_ENTRY", "Resource already exists"),
    "23503" := (Validation, 400, "FOREIGN_KEY_VIOLATION", "Invalid reference"),
    "23502" := (Validation, 400, "NOT_NULL_VIOLATION", "Required field is missing")]

  /** The message of the switch's default branch. */
  const UnknownCodeMessage := "Database error occurred"

  /** The error built for a code of the switch. */
  function ErrorForCode(code: string): (e: AppError)
    ensures Wf(e)
    ensures code in StoreCodeTable ==>
      var entry := StoreCodeTable[code];
      (e.kind, e.statusCode, e.code, e.message) == (entry.0, entry.1, Some(entry.2), entry.3)
    ensures code !in StoreCodeTable ==> e.kind == Internal && e.statusCode == 500 && e.message == UnknownCodeMessage
  {
    match code
    case "PGRST116" => NotFoundError("Resource not found")
    case "23505" => ConflictError("Resource already exists", Some("DUPLICATE_ENTRY"))
    case "23503" => ValidationError("Invalid reference", Some("FOREIGN_KEY_VIOLATION"))
    case "23502" => ValidationError("Required field is missing", Some("NOT_NULL_VIOLATION"))
    case _ => InternalServerError(UnknownCodeMessage)
  }

  /**
   * `handleSupabaseError`, as written: an absent error is internal; a truthy
   * `code` goes through the switch, even on an application error that already
   * has one; only a code-less application error is passed through; anything
   * else becomes internal with its own message, or a default when it has none.
   */
  function HandleSupabaseError(t: Thrown): (e: AppError)
    ensures (t.App? ==> Wf(t.err)) ==> Wf(e)
    ensures t.Nothing? ==> e == InternalServerError("Unknown error occurred")
    ensures CodeOf(t) in StoreCodeTable ==>
      var entry := StoreCodeTable[CodeOf(t)];
      e.kind == entry.0 && e.statusCode == entry.1 && e.code == Some(entry.2) && e.message == entry.3
    ensures CodeOf(t) != "" && CodeOf(t) !in StoreCodeTable ==>
      e.kind == Internal && e.statusCode == 500 && e.message == UnknownCodeMessage
    ensures t.App? && CodeOf(t) == "" ==> e == t.err
    ensures t.Raw? && CodeOf(t) == "" ==>
      e == InternalServerError(if t.raw.message != "" then t.raw.message else "An error occurred")
  {
    if t.Nothing? then InternalServerError("Unknown error occurred")
    else if CodeOf(t) != "" then ErrorForCode(CodeOf(t))
    else if t.App? then t.err
    else InternalServerError(if t.raw.message != "" then t.raw.message else "An error occurred")
  }

  /**
   * Classification is total, and apart from a code-less error of the root
   * class (passed through with whatever status it was given) it only yields
   * 400, 404, 409 or 500. In particular 401 and 403 never come out.
   */
  lemma ClassificationStatuses(t: Thrown)
    requires t.App? ==> Wf(t.err)
    ensures var e := HandleSupabaseError(t);
      e.statusCode in {400, 404, 409, 500} || (t.App? && t.err.kind == Base && e == t.err)
  {
    if CodeOf(t) != "" && CodeOf(t) in StoreCodeTable {
      assert CodeOf(t) in {"PGRST116", "23505", "23503", "23502"};
    } else if t.App? && CodeOf(t) == "" {
      match t.err.kind
      case Base =>
      case Validation =>
      case Conflict =>
      case NotFound =>
      case Unauthorized =>
      case Forbidden =>
      case Internal =>
    }
  }

  /** The classification examples: each known code, an unknown code and nothing at all. */
  lemma ClassificationExamples(message: string)
    ensures HandleSupabaseError(Raw(StoreError("PGRST116", message))) == NotFoundError()
    ensures HandleSupabaseError(Raw(StoreError("23505", message)))
      == ConflictError("Resource already exists", Some("DUPLICATE_ENTRY"))
    ensures HandleSupabaseError(Raw(StoreError("23503", message))).statusCode == 400
    ensures HandleSupabaseError(Raw(StoreError("23503", message))).code == Some("FOREIGN_KEY_VIOLATION")
    ensures HandleSupabaseError(Raw(StoreError("23502", message))).code == Some("NOT_NULL_VIOLATION")
    ensures HandleSupabaseError(Raw(StoreError("UNKNOWN", message))) == InternalServerError("Database error occurred")
    ensures HandleSupabaseError(Nothing).statusCode == 500
    ensures HandleSupabaseError(Nothing).code == Some("INTERNAL_ERROR")
  {
  }

  /**
   * As written, an application error that already carries a code is sent
   * through the switch again: a not-found error comes back as a 500, and an
   * unauthorized one as a non-operational 500 whose text the client never sees.
   * So classifying a classified error does not return it unchanged.
   */
  lemma ReclassificationNotIdempotent()
    ensures HandleSupabaseError(App(NotFoundError())).statusCode == 500
    ensures HandleSupabaseError(App(UnauthorizedError())).kind == Internal
    ensures var once := HandleSupabaseError(Raw(StoreError("PGRST116", "")));
      HandleSupabaseError(App(once)) != once
  {
  }

  /**
   * The classifier with the pass-through of application errors moved before
   * the switch, as the comment on it says: an error that is already an
   * application error is returned as it is.
   */
  function HandleSupabaseErrorPassThrough(t: Thrown): (e: AppError)
    ensures (t.App? ==> Wf(t.err)) ==> Wf(e)
    ensures t.App? ==> e == t.err
    ensures !t.App? ==> e == HandleSupabaseError(t)
  {
    if t.App? then t.err else HandleSupabaseError(t)
  }

  /** Classifying with the corrected classifier twice is classifying once. */
  lemma PassThroughIdempotent(t: Thrown)
    ensures HandleSupabaseErrorPassThrough(App(HandleSupabaseErrorPassThrough(t))) == HandleSupabaseErrorPassThrough(t)
  {
  }

  /** The corrected classifier differs from the written one only on application errors that carry a code. */
  lemma PassThroughAgrees(t: Thrown)
    requires !(t.App? && CodeOf(t) != "")
    ensures HandleSupabaseErrorPassThrough(t) == HandleSupabaseError(t)
  {
  }

  /** The JSON body sent to the client; `warning` true means the field `warning: true` is present. */
  datatype ErrorBody = ErrorBody(
    error: string,
    statusCode: int,
    code: Option<string>,
    warning: bool,
    existingDiagnosis: Option<ExistingDiagnosis>)

  /** The only body an unexpected failure ever produces. */
  const GenericInternalBody: ErrorBody := ErrorBody("Internal server error", 500, Some("INTERNAL_ERROR"), false, None)

  predicate IsOperationalApp(t: Thrown) {
    t.App? && t.err.isOperational
  }

  /**
   * `formatErrorResponse`: an operational application error is shown with its
   * own message, status and code, plus `warning` and `existing_diagnosis` for a
   * validation error when they are set; everything else is the generic body.
   */
  function FormatErrorResponse(t: Thrown): (r: ErrorBody)
    ensures IsOperationalApp(t) ==>
      r.error == t.err.message && r.statusCode == t.err.statusCode && r.code == t.err.code
    ensures IsOperationalApp(t) ==> (r.warning <==> t.err.kind == Validation && t.err.warning)
    ensures IsOperationalApp(t) ==>
      r.existingDiagnosis == (if t.err.kind == Validation then t.err.existingDiagnosis else None)
    ensures !IsOperationalApp(t) ==> r == GenericInternalBody
  {
    if t.App? && t.err.isOperational then
      var e := t.err;
      var isValidation := e.kind == Validation;
      ErrorBody(e.message, e.statusCode, e.code,
                isValidation && e.warning,
                if isValidation && e.existingDiagnosis.Some? then e.existingDiagnosis else None)
    else
      GenericInternalBody
  }

  /** The two rendering examples: a validation warning in full, an internal error generically. */
  lemma FormatExamples(existing: ExistingDiagnosis)
    ensures FormatErrorResponse(App(ValidationError("Test error", Some("TEST_CODE"), true, Some(existing))))
      == ErrorBody("Test error", 400, Some("TEST_CODE"), true, Some(existing))
    ensures FormatErrorResponse(App(InternalServerError("Internal error"))) == GenericInternalBody
  {
  }

  /**
   * No raw storage text reaches the client: classifying a storage error and
   * rendering the result gives a body that does not depend on the error's
   * message, only on its code.
   */
  lemma StoreMessageNeverRendered(code: string, m1: string, m2: string)
    ensures FormatErrorResponse(App(HandleSupabaseError(Raw(StoreError(code, m1)))))
         == FormatErrorResponse(App(HandleSupabaseError(Raw(StoreError(code, m2)))))
  {
    if code == "" {
      assert !HandleSupabaseError(Raw(StoreError(code, m1))).isOperational;
      assert !HandleSupabaseError(Raw(StoreError(code, m2))).isOperational;
    }
  }

  /** Whatever was thrown, the rendered body only carries a warning for a validation error. */
  lemma WarningOnlyForValidation(t: Thrown)
    ensures FormatErrorResponse(t).warning ==> t.App? && t.err.kind == Validation && t.err.warning
    ensures FormatErrorResponse(t).existingDiagnosis.Some? ==> t.App? && t.err.kind == Validation
  {
  }
}
