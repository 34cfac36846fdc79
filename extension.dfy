/**
 * The response constructors and localized messages of
 * src/controller/extension.rs (response.rs carries identical copies of
 * `denied` and of the three messages; this module is their single definition).
 */
module Extension {
  import opened Wrappers
  import opened Protocol

  /** The translation catalog lookup `tr(lang, key)`, absent entries as None. */
  type Translate = (string, string) -> Option<string>

  const NotFoundKey: string := "error.not_found"
  const InvalidTokenKey: string := "jwt.payload.invalid"
  const InternalKey: string := "error.internal"

  const NotFoundFallback: string := "The requested path is not provided!"
  const InvalidTokenFallback: string := "Sorry, the authentication payload is invalid, please login first"
  const InternalFallback: string :=
    "Sorry, Unexpected internal server error. Our team has been notified. Please try again"

  /** `CheckResponse::ok()` */
  function CheckOk(): CheckResponse {
    CheckResponse(Some(RpcStatus(OK, "", [])), None)
  }

  /** `CheckResponse::denied(msg)` */
  function Denied(msg: string): CheckResponse {
    CheckResponse(Some(RpcStatus(PermissionDenied, msg, [])), None)
  }

  /**
   * `ok()` lets the request through with an empty message, no details and no
   * HTTP payload; `denied(msg)` refuses it with code PermissionDenied and
   * carries `msg` verbatim, so two denials are equal only for equal messages.
   */
  lemma ConstructorsMeaning(msg: string, msg': string)
    ensures Allows(CheckOk())
    ensures CheckOk().status.value.message == "" && CheckOk().status.value.details == []
    ensures CheckOk().httpResponse.None?
    ensures !Allows(Denied(msg))
    ensures Denied(msg).status.Some? && Denied(msg).status.value.code == PermissionDenied
    ensures Denied(msg).status.value.message == msg && Denied(msg).status.value.details == []
    ensures Denied(msg).httpResponse.None?
    ensures Denied(msg) == Denied(msg') ==> msg == msg'
  {
  }

  /** A localized message: the translation of `key` if the catalog has one, else the fallback. */
  function Localized(tr: Translate, lang: string, key: string, fallback: string): (s: string)
    ensures tr(lang, key).Some? ==> s == tr(lang, key).value
    ensures tr(lang, key).None? ==> s == fallback
  {
    tr(lang, key).GetOr(fallback)
  }

  function NotFoundMsg(tr: Translate, lang: string): string {
    Localized(tr, lang, NotFoundKey, NotFoundFallback)
  }

  function InvalidTokenMsg(tr: Translate, lang: string): string {
    Localized(tr, lang, InvalidTokenKey, InvalidTokenFallback)
  }

  function IntErrMsg(tr: Translate, lang: string): string {
    Localized(tr, lang, InternalKey, InternalFallback)
  }

  /** Each message looks up its own key and uses the catalog's entry when there is one. */
  lemma MessagesUseTheirKeys(tr: Translate, lang: string)
    ensures tr(lang, "error.not_found").Some? ==> NotFoundMsg(tr, lang) == tr(lang, "error.not_found").value
    ensures tr(lang, "jwt.payload.invalid").Some? ==> InvalidTokenMsg(tr, lang) == tr(lang, "jwt.payload.invalid").value
    ensures tr(lang, "error.internal").Some? ==> IntErrMsg(tr, lang) == tr(lang, "error.internal").value
  {
  }

  /**
   * Without a catalog entry each message is its fixed English text: non-empty,
   * the same for every language, and distinct between the three messages.
   */
  lemma FallbacksFixed(tr: Translate, tr': Translate, lang: string, lang': string)
    requires forall k :: tr(lang, k).None? && tr'(lang', k).None?
    ensures NotFoundMsg(tr, lang) == NotFoundMsg(tr', lang') == "The requested path is not provided!"
    ensures InvalidTokenMsg(tr, lang) == InvalidTokenMsg(tr', lang')
            == "Sorry, the authentication payload is invalid, please login first"
    ensures IntErrMsg(tr, lang) == IntErrMsg(tr', lang')
            == "Sorry, Unexpected internal server error. Our team has been notified. Please try again"
    ensures |NotFoundMsg(tr, lang)| > 0 && |InvalidTokenMsg(tr, lang)| > 0 && |IntErrMsg(tr, lang)| > 0
    ensures NotFoundMsg(tr, lang) != InvalidTokenMsg(tr, lang)
    ensures InvalidTokenMsg(tr, lang) != IntErrMsg(tr, lang)
    ensures IntErrMsg(tr, lang) != NotFoundMsg(tr, lang)
  {
    assert tr(lang, NotFoundKey).None? && tr'(lang', NotFoundKey).None?;
    assert tr(lang, InvalidTokenKey).None? && tr'(lang', InvalidTokenKey).None?;
    assert tr(lang, InternalKey).None? && tr'(lang', InternalKey).None?;
    assert |NotFoundFallback| < |InvalidTokenFallback| < |InternalFallback|;
  }
}
