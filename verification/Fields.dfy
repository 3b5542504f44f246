/** What the request schemas let through to the services. */
module Fields {
  import opened Rows
  import opened Runs

  /** The characters `str.strip` removes. */
  predicate IsSpace(c: char) {
    || '\t' <= c <= '\r' || '\U{1C}' <= c <= ' ' || c == '\U{85}' || c == '\U{A0}' || c == '\U{1680}'
    || '\U{2000}' <= c <= '\U{200A}' || c == '\U{2028}' || c == '\U{2029}' || c == '\U{202F}' || c == '\U{205F}'
    || c == '\U{3000}'
  }

  /** Not blank, and at most `max` characters. */
  predicate Text(s: string, max: nat) {
    |s| <= max && exists i :: 0 <= i < |s| && !IsSpace(s[i])
  }

  /** The same, after the schema has stripped it. */
  predicate Stripped(s: string, max: nat) {
    0 < |s| <= max && !IsSpace(s[0]) && !IsSpace(s[|s| - 1])
  }

  /** A phone that is its own normal form, so that it can be entered as it is stored. */
  predicate Enterable(p: Phone) {
    && Stripped(p.digits, 20) && ' ' !in p.digits && '-' !in p.digits
    && !(|p.digits| >= 3 && p.digits[..3] == "+82")
  }

  predicate ValidDraft(d: Draft) {
    Text(d.title, 50) && Text(d.content, 500)
  }

  /** The request passes the field checks; the settlement account, one opaque value here, has none. */
  predicate PassesFields(r: Request) {
    match r
    case ReqSignupSend(phone, name, _, _) => Enterable(phone) && Stripped(name, 100)
    case ReqLoginSend(phone, _, _) => Enterable(phone)
    case ReqSignupConfirm(phone, _, _) => Enterable(phone)
    case ReqLoginConfirm(phone, _, _, token) => Enterable(phone) && (token.Some? ==> Stripped(token.value, 4096))
    case ReqSetName(_, name) => Stripped(name, 100)
    case ReqSetFcmToken(_, token) => Stripped(token, 4096)
    case ReqProposalCreate(_, d) => ValidDraft(d)
    case ReqProposalUpdate(_, _, d) => ValidDraft(d)
    case ReqProposalDispute(_, _, question, _, _) => question >= 1
    case ReqOfferDispute(_, _, question, _, _) => question >= 1
    case ReqReportCreate(_, _, question, _) => question >= 1
    case ReqMarkRead(_, ids) => ids != {}
    case _ => true
  }
}
