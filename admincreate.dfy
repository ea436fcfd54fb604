/** The administrators' creation screen, src/screens/AdminCreateScreen/
    AdminCreateScreen.tsx: the park list and its selection, the two forms
    (an event, an activity), their "can submit" checks, and the two
    submissions with the payload they post and the fields they reset. The
    backend answers are parameters; the handlers return the request they
    issue and the alert they raise. */
module AdminCreate {
  import opened Base
  import opened Text
  import opened Http
  import opened KeyValue
  import opened Session
  import opened Roles
  import opened Catalog
  import opened Admin
  import ProfileSearch

  const EventosPath := "/eventos"
  const AtividadesPath := "/atividades"

  const EventoFieldsMissing := Alert("Campos obrigatórios", "Preencha nome e localização do evento.")
  const AtividadeFieldsMissing := Alert("Campos obrigatórios", "Preencha nome, tempo (minutos) e localização.")
  const EventoCreated := Alert("Sucesso", "Evento criado com sucesso!")
  const AtividadeCreated := Alert("Sucesso", "Atividade criada com sucesso!")

  /** The body of `POST /eventos`; `data` is the chosen instant (its ISO
      text is not modelled). */
  datatype EventoCreate = EventoCreate(nome: string, descricao: string, data: int, localizacao: string, parqueId: string)

  /** The body of `POST /atividades`. */
  datatype AtividadeCreate = AtividadeCreate(tipo: string, nome: string, tempo: nat, localizacao: string, imagem: string, parqueId: string)

  class AdminCreateScreen {
    const auth: AuthProvider

    var parques: seq<Park>
    var selectedParqueId: string
    var evNome: string
    var evDescricao: string
    var evLocal: string
    var evDate: int
    var atTipo: string
    var atNome: string
    var atTempo: string
    var atLocal: string
    var atImagem: string
    var loading: bool

    /** The minutes field holds digits only. */
    predicate Valid()
      reads this`atTempo
    {
      AllDigits(atTempo)
    }

    constructor (auth: AuthProvider, now: int)
      ensures this.auth == auth && Valid() && !loading
      ensures parques == [] && selectedParqueId == ""
      ensures evNome == "" && evDescricao == "" && evLocal == "" && evDate == now
      ensures atTipo == DefaultTipo && atNome == "" && atTempo == "" && atLocal == "" && atImagem == ""
    {
      this.auth := auth;
      parques, selectedParqueId := [], "";
      evNome, evDescricao, evLocal, evDate := "", "", "", now;
      atTipo, atNome, atTempo, atLocal, atImagem := DefaultTipo, "", "", "", "";
      loading := false;
    }

    /** `currentParque`: the park whose `id ?? _id` is the selection, else
        the first park, none for an empty list. */
    function Current(): Option<Park>
      reads this`parques, this`selectedParqueId
    {
      CurrentParque(parques, selectedParqueId)
    }

    /** The mount effect: a non-administrator is told off and sent back
        without any request; an administrator's screen loads the parks,
        keeping a non-empty selection and otherwise selecting the first
        park; a failed load empties the list. */
    method OnMount(parksResponse: Response<seq<Park>>) returns (alert: Option<Alert>, leaves: bool, issued: seq<Request>)
      modifies this`parques, this`selectedParqueId
      ensures !ScreenIsAdmin(RoleOf(auth.user)) ==>
        alert == Some(AccessDenied) && leaves && issued == [] &&
        parques == old(parques) && selectedParqueId == old(selectedParqueId)
      ensures ScreenIsAdmin(RoleOf(auth.user)) ==>
        alert == None && !leaves && issued == [Request(ProfileSearch.ParksPath, map[])] &&
        parques == LoadedParks(parksResponse) && selectedParqueId == SelectionAfterLoad(old(selectedParqueId), parksResponse)
    {
      if !ScreenIsAdmin(RoleOf(auth.user)) {
        return Some(AccessDenied), true, [];
      }
      alert, leaves, issued := None, false, [Request(ProfileSearch.ParksPath, map[])];
      parques := LoadedParks(parksResponse);
      selectedParqueId := SelectionAfterLoad(selectedParqueId, parksResponse);
    }

    /** The park bar's `onSelect`: the selection becomes `id`, and the
        banner shows the first park with that key when there is one. */
    method SelectParque(id: string)
      modifies this`selectedParqueId
      ensures selectedParqueId == id
      ensures forall i :: 0 <= i < |parques| && KeyIs(parques[i], id) ==>
        Current().Some? && KeyIs(Current().value, id)
    {
      selectedParqueId := id;
    }

    /** The minutes input keeps only the digits typed. */
    method EditMinutes(t: string)
      modifies this`atTempo
      ensures Valid() && atTempo == KeepDigits(t)
    {
      atTempo := KeepDigits(t);
    }

    /** `canSubmitEvento` */
    predicate CanSubmitEvento()
      reads this`selectedParqueId, this`evNome, this`evLocal
    {
      EventReady(selectedParqueId, evNome, evLocal)
    }

    /** `canSubmitAtividade` */
    predicate CanSubmitAtividade()
      reads this`selectedParqueId, this`atNome, this`atTempo, this`atLocal
    {
      ActivityReady(selectedParqueId, atNome, atTempo, atLocal)
    }

    /** The body `submitEvento` posts. */
    function EventoPayload(): EventoCreate
      reads this`evNome, this`evDescricao, this`evDate, this`evLocal, this`selectedParqueId
    {
      EventoCreate(Trim(evNome), Trim(evDescricao), evDate, Trim(evLocal), selectedParqueId)
    }

    /** The body `submitAtividade` posts. */
    function AtividadePayload(): AtividadeCreate
      reads this`atTipo, this`atNome, this`atTempo, this`atLocal, this`atImagem, this`selectedParqueId
    {
      AtividadeCreate(atTipo, Trim(atNome), Minutes(atTempo), Trim(atLocal), Trim(atImagem), selectedParqueId)
    }

    /** `submitEvento`: an incomplete form raises "Campos obrigatórios" and
        sends nothing; otherwise the event is posted with the stored token.
        Success clears name, description and location and resets the date
        to `now`; a failure reports the backend's detail and keeps the
        form. The park selection is never touched. */
    method SubmitEvento(response: Response<()>, now: int) returns (sent: Option<Call<EventoCreate>>, alert: Alert)
      modifies this`evNome, this`evDescricao, this`evLocal, this`evDate, this`loading
      ensures sent.Some? <==> old(CanSubmitEvento())
      ensures sent.None? ==>
        alert == EventoFieldsMissing && loading == old(loading) &&
        evNome == old(evNome) && evDescricao == old(evDescricao) && evLocal == old(evLocal) && evDate == old(evDate)
      ensures sent.Some? ==>
        sent.value == Call(POST, EventosPath, AuthHeaders(None, Lookup(auth.store.entries, TokenKey)), old(EventoPayload())) &&
        !loading
      ensures sent.Some? && response.Ok? ==>
        alert == EventoCreated && evNome == "" && evDescricao == "" && evLocal == "" && evDate == now
      ensures sent.Some? && response.Err? ==>
        alert == Alert("Erro", MessageOr(response.detail, "Não foi possível criar o evento.")) &&
        evNome == old(evNome) && evDescricao == old(evDescricao) && evLocal == old(evLocal) && evDate == old(evDate)
    {
      var ready := CheckEvento();
      if !ready {
        return None, EventoFieldsMissing;
      }
      var call;
      call, alert := SendEvento(response, now);
      sent := Some(call);
    }

    /** Whether the event form may be sent, taken once. */
    method CheckEvento() returns (ready: bool)
      ensures ready == CanSubmitEvento()
    {
      ready := CanSubmitEvento();
    }

    /** The request `submitEvento` sends once the form is complete, and its
        outcome. */
    method SendEvento(response: Response<()>, now: int) returns (call: Call<EventoCreate>, alert: Alert)
      modifies this`evNome, this`evDescricao, this`evLocal, this`evDate, this`loading
      ensures call == Call(POST, EventosPath, AuthHeaders(None, Lookup(auth.store.entries, TokenKey)), old(EventoPayload()))
      ensures !loading
      ensures response.Ok? ==>
        alert == EventoCreated && evNome == "" && evDescricao == "" && evLocal == "" && evDate == now
      ensures response.Err? ==>
        alert == Alert("Erro", MessageOr(response.detail, "Não foi possível criar o evento.")) &&
        evNome == old(evNome) && evDescricao == old(evDescricao) && evLocal == old(evLocal) && evDate == old(evDate)
    {
      loading := true;
      call := Call(POST, EventosPath, AuthHeaders(None, Lookup(auth.store.entries, TokenKey)), EventoPayload());
      alert := FinishEvento(response, now);
      loading := false;
    }

    /** What `submitEvento` does once the request has been answered. */
    method FinishEvento(response: Response<()>, now: int) returns (alert: Alert)
      modifies this`evNome, this`evDescricao, this`evLocal, this`evDate
      ensures response.Ok? ==>
        alert == EventoCreated && evNome == "" && evDescricao == "" && evLocal == "" && evDate == now
      ensures response.Err? ==>
        alert == Alert("Erro", MessageOr(response.detail, "Não foi possível criar o evento.")) &&
        evNome == old(evNome) && evDescricao == old(evDescricao) && evLocal == old(evLocal) && evDate == old(evDate)
    {
      if response.Ok? {
        alert := EventoCreated;
        evNome, evDescricao, evLocal, evDate := "", "", "", now;
      } else {
        alert := Alert("Erro", MessageOr(response.detail, "Não foi possível criar o evento."));
      }
    }

    /** `submitAtividade`: likewise; success clears every field and puts
        the type back to "trilha". */
    method SubmitAtividade(response: Response<()>) returns (sent: Option<Call<AtividadeCreate>>, alert: Alert)
      requires Valid()
      modifies this`atTipo, this`atNome, this`atTempo, this`atLocal, this`atImagem, this`loading
      ensures Valid()
      ensures sent.Some? <==> old(CanSubmitAtividade())
      ensures sent.None? ==>
        alert == AtividadeFieldsMissing && loading == old(loading) &&
        atTipo == old(atTipo) && atNome == old(atNome) && atTempo == old(atTempo) &&
        atLocal == old(atLocal) && atImagem == old(atImagem)
      ensures sent.Some? ==>
        sent.value == Call(POST, AtividadesPath, AuthHeaders(None, Lookup(auth.store.entries, TokenKey)), old(AtividadePayload())) &&
        !loading
      ensures sent.Some? && response.Ok? ==>
        alert == AtividadeCreated &&
        atTipo == DefaultTipo && atNome == "" && atTempo == "" && atLocal == "" && atImagem == ""
      ensures sent.Some? && response.Err? ==>
        alert == Alert("Erro", MessageOr(response.detail, "Não foi possível criar a atividade.")) &&
        atTipo == old(atTipo) && atNome == old(atNome) && atTempo == old(atTempo) &&
        atLocal == old(atLocal) && atImagem == old(atImagem)
    {
      var ready := CheckAtividade();
      if !ready {
        return None, AtividadeFieldsMissing;
      }
      var call;
      call, alert := SendAtividade(response);
      sent := Some(call);
    }

    /** Whether the activity form may be sent, taken once. */
    method CheckAtividade() returns (ready: bool)
      ensures ready == CanSubmitAtividade()
    {
      ready := CanSubmitAtividade();
    }

    /** The request `submitAtividade` sends once the form is complete, and
        its outcome. */
    method SendAtividade(response: Response<()>) returns (call: Call<AtividadeCreate>, alert: Alert)
      modifies this`atTipo, this`atNome, this`atTempo, this`atLocal, this`atImagem, this`loading
      ensures call == Call(POST, AtividadesPath, AuthHeaders(None, Lookup(auth.store.entries, TokenKey)), old(AtividadePayload()))
      ensures !loading
      ensures response.Ok? ==>
        alert == AtividadeCreated &&
        atTipo == DefaultTipo && atNome == "" && atTempo == "" && atLocal == "" && atImagem == ""
      ensures response.Err? ==>
        alert == Alert("Erro", MessageOr(response.detail, "Não foi possível criar a atividade.")) &&
        atTipo == old(atTipo) && atNome == old(atNome) && atTempo == old(atTempo) &&
        atLocal == old(atLocal) && atImagem == old(atImagem)
    {
      loading := true;
      call := Call(POST, AtividadesPath, AuthHeaders(None, Lookup(auth.store.entries, TokenKey)), AtividadePayload());
      alert := FinishAtividade(response);
      loading := false;
    }

    /** What `submitAtividade` does once the request has been answered. */
    method FinishAtividade(response: Response<()>) returns (alert: Alert)
      modifies this`atTipo, this`atNome, this`atTempo, this`atLocal, this`atImagem
      ensures response.Ok? ==>
        alert == AtividadeCreated &&
        atTipo == DefaultTipo && atNome == "" && atTempo == "" && atLocal == "" && atImagem == ""
      ensures response.Err? ==>
        alert == Alert("Erro", MessageOr(response.detail, "Não foi possível criar a atividade.")) &&
        atTipo == old(atTipo) && atNome == old(atNome) && atTempo == old(atTempo) &&
        atLocal == old(atLocal) && atImagem == old(atImagem)
    {
      if response.Ok? {
        alert := AtividadeCreated;
        atTipo, atNome, atTempo, atLocal, atImagem := DefaultTipo, "", "", "", "";
      } else {
        alert := Alert("Erro", MessageOr(response.detail, "Não foi possível criar a atividade."));
      }
    }
  }

  /** What a ready event form posts: a selected park and a name and a
      location that are non-empty and already trimmed. */
  lemma PostedEventoIsClean(s: AdminCreateScreen)
    requires s.CanSubmitEvento()
    ensures var p := s.EventoPayload();
            p.parqueId != "" && p.nome != [] && p.localizacao != [] &&
            Trim(p.nome) == p.nome && Trim(p.localizacao) == p.localizacao && Trim(p.descricao) == p.descricao
  {
    TrimIdempotent(s.evNome);
    TrimIdempotent(s.evLocal);
    TrimIdempotent(s.evDescricao);
  }

  /** What a ready activity form posts: the minutes are the number the
      digits of the field spell, and that number is positive. */
  lemma PostedAtividadeMinutes(s: AdminCreateScreen)
    requires s.Valid() && s.CanSubmitAtividade()
    ensures s.AtividadePayload().tempo == ParseDigits(s.atTempo) >= 1
    ensures s.AtividadePayload().nome != [] && Trim(s.AtividadePayload().nome) == s.AtividadePayload().nome
  {
    TrimIdempotent(s.atNome);
  }

  /** A successful submission leaves a form that cannot be submitted again
      until it is filled in anew. */
  lemma ClearedFormsAreNotReady(parque: string)
    ensures !EventReady(parque, "", "")
    ensures !ActivityReady(parque, "", "", "")
  {
    assert Trim("") == "";
  }
}
