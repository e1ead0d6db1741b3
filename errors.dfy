/**
 * The error classifier and the configuration check of the app's error
 * utilities: `handleError` maps whatever was thrown to an `AppError` by an
 * ordered chain of case-sensitive substring tests, and `isSupabaseConfigured`
 * validates the two backend settings.
 */
module Errors {
  import opened Wrappers
  import opened Text

  /** The keys of the error-code table. */
  datatype ErrorCode =
    | DatabaseConnection | TableNotFound | Unauthorized | UploadFailed | DeleteFailed
    | InvalidFileType | FileTooLarge | NetworkError | SupabaseConfig

  /** The string the error-code table gives each code (each code string equals its key). */
  function CodeName(c: ErrorCode): string {
    match c
    case DatabaseConnection => "DATABASE_CONNECTION"
    case TableNotFound => "TABLE_NOT_FOUND"
    case Unauthorized => "UNAUTHORIZED"
    case UploadFailed => "UPLOAD_FAILED"
    case DeleteFailed => "DELETE_FAILED"
    case InvalidFileType => "INVALID_FILE_TYPE"
    case FileTooLarge => "FILE_TOO_LARGE"
    case NetworkError => "NETWORK_ERROR"
    case SupabaseConfig => "SUPABASE_CONFIG"
  }

  /** The user-facing message table, looked up by code. */
  function ErrorMessage(c: ErrorCode): string {
    match c
    case DatabaseConnection => "Veritabanı bağlantısı kurulamadı. Lütfen internet bağlantınızı kontrol edin."
    case TableNotFound => "Veritabanı tabloları bulunamadı. Lütfen sistem yöneticisi ile iletişime geçin."
    case Unauthorized => "Veritabanına erişim yetkisi yok. RLS politikaları kontrol edilmeli."
    case UploadFailed => "Dosya yükleme başarısız oldu. Lütfen tekrar deneyin."
    case DeleteFailed => "Dosya silme işlemi başarısız oldu. Lütfen tekrar deneyin."
    case InvalidFileType => "Geçersiz dosya türü. Sadece MP3 dosyaları desteklenir."
    case FileTooLarge => "Dosya boyutu çok büyük. Maksimum 50MB boyutunda dosya yükleyebilirsiniz."
    case NetworkError => "Ağ bağlantısı hatası. İnternet bağlantınızı kontrol edin."
    case SupabaseConfig => "Uygulama yapılandırması eksik. Lütfen sistem yöneticisi ile iletişime geçin."
  }

  /** The `code` of an `AppError`: a table code, or the literal 'UNKNOWN_ERROR'. */
  datatype Code = Known(key: ErrorCode) | UnknownError

  function CodeText(c: Code): string {
    match c
    case Known(k) => CodeName(k)
    case UnknownError => "UNKNOWN_ERROR"
  }

  /** `handleError` always fills `details`, so it is not optional here. */
  datatype AppError = AppError(code: Code, message: string, details: string)

  /**
   * What reaches `handleError`: an `Error` object, known by its `message`, or
   * any other value, known by its `String(...)` form.
   */
  datatype Thrown = ErrorObject(message: string) | OtherValue(asString: string)

  function MessageOf(e: Thrown): string {
    match e
    case ErrorObject(m) => m
    case OtherValue(s) => s
  }

  const MissingTable := "relation \"public.songs\" does not exist"
  const FailedFetch := "Failed to fetch"
  const InvalidUrl := "Invalid URL"
  const SupabaseWord := "supabase"
  const Status401 := "401"
  const PermissionDenied := "permission denied"

  const TableDetails := "Veritabanı tabloları oluşturulması gerekiyor."
  const ConfigDetails := "Supabase yapılandırması kontrol edilmeli."
  const AuthDetails := "RLS politikaları veya API key kontrolü gerekli."
  const UnknownMessage := "Beklenmeyen bir hata oluştu. Lütfen tekrar deneyin."
  const UnknownDetails := "Bilinmeyen hata"

  /** Each rule of the chain, stated on the message by substring occurrence. */
  ghost predicate MatchesTable(m: string) { Occurs(m, MissingTable) }
  ghost predicate MatchesNetwork(m: string) { Occurs(m, FailedFetch) }
  ghost predicate MatchesConfig(m: string) { Occurs(m, InvalidUrl) || Occurs(m, SupabaseWord) }
  ghost predicate MatchesAuth(m: string) { Occurs(m, Status401) || Occurs(m, PermissionDenied) }

  /**
   * The classification the rule chain is meant to perform, stated by
   * substring occurrence: the first rule that matches decides.
   */
  ghost function Classify(m: string): Code {
    if MatchesTable(m) then Known(TableNotFound)
    else if MatchesNetwork(m) then Known(NetworkError)
    else if MatchesConfig(m) then Known(SupabaseConfig)
    else if MatchesAuth(m) then Known(Unauthorized)
    else UnknownError
  }

  /**
   * `handleError`: the code is the classification of the message (an
   * `Error`'s message, or any other value's string form); a table code
   * always carries that code's entry of the message table.
   */
  function HandleError(e: Thrown): (r: AppError)
    ensures r.code == Classify(MessageOf(e))
    ensures r.code.Known? ==> r.message == ErrorMessage(r.code.key)
  {
    var m := MessageOf(e);
    var table, network := Includes(m, MissingTable), Includes(m, FailedFetch);
    var config := Includes(m, InvalidUrl) || Includes(m, SupabaseWord);
    var auth := Includes(m, Status401) || Includes(m, PermissionDenied);
    assert table == MatchesTable(m) && network == MatchesNetwork(m);
    assert config == MatchesConfig(m) && auth == MatchesAuth(m);
    if table then
      AppError(Known(TableNotFound), ErrorMessage(TableNotFound), TableDetails)
    else if network then
      AppError(Known(NetworkError), ErrorMessage(NetworkError), m)
    else if config then
      AppError(Known(SupabaseConfig), ErrorMessage(SupabaseConfig), ConfigDetails)
    else if auth then
      AppError(Known(Unauthorized), ErrorMessage(Unauthorized), AuthDetails)
    else
      AppError(UnknownError, UnknownMessage, if m == "" then UnknownDetails else m)
  }

  /**
   * The order of the rules: each code results exactly when its rule is the
   * first that matches, and only four of the nine table codes can result.
   */
  lemma FirstMatchWins(m: string)
    ensures Classify(m) == Known(TableNotFound) <==> MatchesTable(m)
    ensures Classify(m) == Known(NetworkError) <==> !MatchesTable(m) && MatchesNetwork(m)
    ensures Classify(m) == Known(SupabaseConfig) <==> !MatchesTable(m) && !MatchesNetwork(m) && MatchesConfig(m)
    ensures Classify(m) == Known(Unauthorized) <==>
              !MatchesTable(m) && !MatchesNetwork(m) && !MatchesConfig(m) && MatchesAuth(m)
    ensures Classify(m) == UnknownError <==>
              !MatchesTable(m) && !MatchesNetwork(m) && !MatchesConfig(m) && !MatchesAuth(m)
    ensures Classify(m).Known? ==> Classify(m).key in {TableNotFound, NetworkError, SupabaseConfig, Unauthorized}
  {
  }

  /**
   * A network error reports the original message verbatim; an unknown error
   * reports the message, or 'Bilinmeyen hata' when it is empty.
   */
  lemma DetailsCarryMessage(e: Thrown)
    ensures HandleError(e).code == Known(NetworkError) ==> HandleError(e).details == MessageOf(e)
    ensures HandleError(e).code == UnknownError ==>
              HandleError(e).details == (if MessageOf(e) == "" then UnknownDetails else MessageOf(e))
    ensures HandleError(e).code == UnknownError ==> HandleError(e).message == UnknownMessage
  {
  }

  /**
   * A failed fetch outranks an authorisation failure: a message mentioning
   * both (and not the missing table) is a network error.
   */
  lemma FetchOutranksUnauthorized(e: Thrown)
    requires Occurs(MessageOf(e), FailedFetch) && Occurs(MessageOf(e), Status401)
    requires !Occurs(MessageOf(e), MissingTable)
    ensures HandleError(e).code == Known(NetworkError)
    ensures HandleError(e).details == MessageOf(e)
  {
  }

  /**
   * Any message around 'Failed to fetch' without a double quote is a network
   * error reported verbatim, whatever else it says: 'TypeError: Failed to
   * fetch (401)' is one.
   */
  lemma FailedFetchIsNetworkError(before: string, after: string)
    requires '"' !in before && '"' !in after
    ensures var m := before + FailedFetch + after;
      && HandleError(ErrorObject(m)).code == Known(NetworkError)
      && HandleError(ErrorObject(m)).details == m
  {
    var m := before + FailedFetch + after;
    OccursMiddle(before, FailedFetch, after);
    assert '"' !in FailedFetch;
    NotOccursWithoutChar(m, MissingTable, 9, '"');
  }

  /** The message thrown when the backend settings fail the configuration check. */
  const MissingConfiguration := "Supabase configuration is missing"

  /**
   * Matching is case-sensitive: the message thrown when the backend is not
   * configured matches no rule (its 'S' is upper case), so it is an unknown
   * error carrying that message.
   */
  lemma MissingConfigurationIsUnknown(e: Thrown)
    requires e == ErrorObject(MissingConfiguration)
    ensures HandleError(e).code == UnknownError
    ensures HandleError(e).details == MissingConfiguration
  {
    MissingConfigurationMatchesNothing(MessageOf(e));
  }

  lemma MissingConfigurationMatchesNothing(m: string)
    requires m == MissingConfiguration
    ensures !MatchesTable(m) && !MatchesNetwork(m) && !MatchesConfig(m) && !MatchesAuth(m)
  {
    AbsentCharacters(m);
    NotOccursWithoutChar(m, MissingTable, 9, '"');
    NotOccursWithoutChar(m, FailedFetch, 0, 'F');
    NotOccursWithoutChar(m, InvalidUrl, 0, 'I');
    NotOccursWithoutChar(m, Status401, 0, '4');
    NotOccursWithoutChar(m, PermissionDenied, 11, 'd');
    LowerCaseSupabaseAbsent(m);
  }

  /** None of the characters that start or end the other patterns occurs in the message. */
  lemma AbsentCharacters(m: string)
    requires m == MissingConfiguration
    ensures forall j :: 0 <= j < |m| ==> m[j] != '"' && m[j] != 'F' && m[j] != 'I' && m[j] != '4' && m[j] != 'd'
  {
  }
  /**
   * 'p' occurs in the message only at index 2, where an occurrence of
   * 'supabase' would have to start at index 0; but the message starts with 'S'.
   */
  lemma LowerCaseSupabaseAbsent(m: string)
    requires m == MissingConfiguration
    ensures !Occurs(m, SupabaseWord)
  {
    assert forall j :: 3 <= j < |m| ==> m[j] != 'p';
    assert m[0] == 'S' && SupabaseWord[0] == 's' && SupabaseWord[2] == 'p';
    forall i: nat
      ensures !OccursAt(m, SupabaseWord, i)
    {
      if i + |SupabaseWord| <= |m| {
        assert m[i..i + |SupabaseWord|][2] == m[i + 2];
        assert m[i..i + |SupabaseWord|][0] == m[i];
      }
    }
  }

  const UrlPlaceholder := "your_supabase_url_here"
  const KeyPlaceholder := "your_supabase_anon_key_here"
  const SupabaseHost := "supabase.co"

  /**
   * `isSupabaseConfigured`, over the two environment settings (absent when
   * unset): both are set and non-empty, neither is its placeholder, and the
   * URL mentions 'supabase.co'.
   */
  predicate IsSupabaseConfigured(url: Option<string>, key: Option<string>)
    ensures IsSupabaseConfigured(url, key) <==>
              && url.Some? && key.Some? && url.value != "" && key.value != ""
              && url.value != UrlPlaceholder && key.value != KeyPlaceholder
              && Occurs(url.value, SupabaseHost)
  {
    && url.Some? && url.value != ""
    && key.Some? && key.value != ""
    && url.value != UrlPlaceholder
    && key.value != KeyPlaceholder
    && Includes(url.value, SupabaseHost)
  }

  /**
   * The configuration check reads the raw settings, so the client's fallbacks for unset
   * settings ('https://placeholder.supabase.co' and 'placeholder-key') never
   * reach it; the lemma is about those strings only: were they the settings,
   * they would pass, because the check compares against other placeholders.
   */
  lemma ClientFallbackPassesCheck()
    ensures IsSupabaseConfigured(Some("https://placeholder.supabase.co"), Some("placeholder-key"))
  {
    assert "https://placeholder.supabase.co" == "https://placeholder." + SupabaseHost + "";
    OccursMiddle("https://placeholder.", SupabaseHost, "");
  }
}
