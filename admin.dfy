/** What the two administration screens, AdminEditScreen.tsx and
    AdminCreateScreen.tsx, share: the event/activity mode, the access rule,
    the request headers, the minutes field and the "ready to send" checks
    of the two forms. */
module Admin {
  import opened Base
  import opened Text
  import opened Http
  import opened Api

  datatype Mode = EventoMode | AtividadeMode

  /** The activity type a form starts with and returns to. */
  const DefaultTipo := "trilha"

  const AccessDenied := Alert("Acesso negado", "Somente administradores podem acessar esta tela.")

  /** `authHeaders`: `token || AsyncStorage.getItem("@token")`, sent as a
      bearer token when truthy and no header otherwise. */
  function AuthHeaders(contextToken: Option<string>, stored: Option<string>): (h: map<string, string>)
    ensures Truthy(contextToken) ==> h == map[AuthorizationHeader := "Bearer " + contextToken.value]
    ensures !Truthy(contextToken) && Truthy(stored) ==> h == map[AuthorizationHeader := "Bearer " + stored.value]
    ensures !Truthy(contextToken) && !Truthy(stored) ==> h == map[]
  {
    var t := OrElse(contextToken, stored);
    if Truthy(t) then map[AuthorizationHeader := "Bearer " + t.value] else map[]
  }

  /** The session context never carries a token, so the headers are those
      of the stored token: the same header the client gets at sign-in. */
  lemma HeadersFollowStorage(stored: Option<string>)
    ensures AuthHeaders(None, stored) == WithAuthToken(map[], stored)
  {
  }

  /** `Number(s)` on the strings the minutes field can hold: the value of a
      string of digits (after trimming), `None` standing for NaN. */
  function NumberOf(s: string): (n: Option<nat>)
    ensures AllDigits(s) ==> n == Some(ParseDigits(s))
  {
    var t := Trim(s);
    if AllDigits(s) then (TrimNoSurroundingSpace(s); Some(ParseDigits(s)))
    else if AllDigits(t) then Some(ParseDigits(t))
    else None
  }

  /** `Number(tempo)` where the checks have made it a number. */
  function Minutes(tempo: string): (r: nat)
    ensures AllDigits(tempo) ==> r == ParseDigits(tempo)
  {
    var n := NumberOf(tempo);
    if n.Some? then n.value else 0
  }

  /** `canSubmitEvento`, and `canSaveEvento` apart from its selection: a park
      is selected and the trimmed name and location are non-empty. */
  predicate EventReady(parque: string, nome: string, local: string) {
    parque != "" && |Trim(nome)| > 0 && |Trim(local)| > 0
  }

  /** `canSubmitAtividade`, and `canSaveAtividade` apart from its selection:
      additionally the minutes field is non-empty, a number, and positive. */
  predicate ActivityReady(parque: string, nome: string, tempo: string, local: string) {
    parque != "" && |Trim(nome)| > 0 && |Trim(local)| > 0 &&
    |Trim(tempo)| > 0 && NumberOf(tempo).Some? && NumberOf(tempo).value > 0
  }

  /** The minutes field always holds digits (it keeps only the digits
      typed); such a field passes the minutes checks exactly when one of its
      digits is not zero. */
  lemma MinutesAccepted(tempo: string)
    requires AllDigits(tempo)
    ensures (|Trim(tempo)| > 0 && NumberOf(tempo).Some? && NumberOf(tempo).value > 0)
        <==> exists i :: 0 <= i < |tempo| && tempo[i] != '0'
  {
    TrimNoSurroundingSpace(tempo);
    ParseDigitsPositive(tempo);
  }

  /** A ready activity sends the number its minutes field reads as, and
      that number is positive. */
  lemma ReadyMinutes(parque: string, nome: string, tempo: string, local: string)
    requires ActivityReady(parque, nome, tempo, local)
    ensures EventReady(parque, nome, local)
    ensures Some(Minutes(tempo)) == NumberOf(tempo) && Minutes(tempo) >= 1
  {
  }
}
