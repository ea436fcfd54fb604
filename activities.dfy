/** The activities list of src/screens/ActivitiesScreen/ActivitiesScreen.tsx:
    mapping the backend's activities to list items, fetching them for one
    park (where "not found" means "none") or for every park, the type
    filter sent to the backend, the persisted park filter, and the local
    text search. */
module Activities {
  import opened Base
  import opened Text
  import opened Http
  import opened KeyValue
  import opened Catalog
  import opened Seqs

  const ActivitiesByParkPath := "/atividades/parque"
  const LoadError := "Erro ao carregar atividades"
  const AllTypes := "all"

  /** `AtividadeDTO`; `mongoId` is `_id`, `tempo` is in minutes. */
  datatype Atividade = Atividade(
    id: Option<string>,
    mongoId: Option<string>,
    tipo: string,
    nome: string,
    tempo: nat,
    localizacao: string,
    imagem: Option<string>,
    parqueId: string)

  /** `ActivityItem` (the screen never fills `description`). */
  datatype ActivityItem = ActivityItem(id: string, title: string, subtitle: string, location: string)

  /** `capitalize`: the first character upper-cased, the rest as is. */
  function Capitalize(s: string): (r: string)
    ensures |r| == |s|
    ensures s != [] ==> r[0] == UpperChar(s[0]) && r[1..] == s[1..]
  {
    if |s| > 0 then [UpperChar(s[0])] + s[1..] else s
  }

  /** Capitalising twice is capitalising once. */
  lemma CapitalizeIdempotent(s: string)
    ensures Capitalize(Capitalize(s)) == Capitalize(s)
  {
    if s != [] {
      var c := Capitalize(s);
      assert c == [c[0]] + c[1..];
    }
  }

  /** `${capitalize(tipo)} • ${tempo} min` */
  function Subtitle(a: Atividade): string {
    Capitalize(a.tipo) + " • " + NatToString(a.tempo) + " min"
  }

  /** One element of `mapAtividades`: the id falls back from `id` to `_id`
      to `nome + "-" + parque_id`. */
  function MapAtividade(a: Atividade): (r: ActivityItem)
    ensures a.id.Some? ==> r.id == a.id.value
    ensures a.id.None? && a.mongoId.Some? ==> r.id == a.mongoId.value
    ensures a.id.None? && a.mongoId.None? ==> r.id == a.nome + "-" + a.parqueId
    ensures r.title == a.nome && r.location == a.localizacao
    ensures r.subtitle == Capitalize(a.tipo) + " • " + NatToString(a.tempo) + " min"
  {
    var id := Coalesce(a.id, a.mongoId);
    ActivityItem(if id.Some? then id.value else a.nome + "-" + a.parqueId, a.nome, Subtitle(a), a.localizacao)
  }

  /** `mapAtividades` */
  function MapAtividades(lista: seq<Atividade>): (r: seq<ActivityItem>)
    ensures |r| == |lista|
  {
    seq(|lista|, i requires 0 <= i < |lista| => MapAtividade(lista[i]))
  }

  /** Mapping keeps order and length: item i describes activity i, with
      its id fallback, its title, its subtitle and its location. */
  lemma MapAtividadesPointwise(lista: seq<Atividade>, i: nat)
    requires i < |lista|
    ensures var a, r := lista[i], MapAtividades(lista)[i];
      (a.id.Some? ==> r.id == a.id.value) &&
      (a.id.None? && a.mongoId.Some? ==> r.id == a.mongoId.value) &&
      (a.id.None? && a.mongoId.None? ==> r.id == a.nome + "-" + a.parqueId)
    ensures MapAtividades(lista)[i].title == lista[i].nome
    ensures MapAtividades(lista)[i].subtitle == Capitalize(lista[i].tipo) + " • " + NatToString(lista[i].tempo) + " min"
    ensures MapAtividades(lista)[i].location == lista[i].localizacao
  {
  }

  /** The subtitle's minutes read back as the activity's `tempo`. */
  lemma SubtitleMinutes(a: Atividade)
    ensures var t := NatToString(a.tempo);
            Subtitle(a) == Capitalize(a.tipo) + " • " + t + " min" && AllDigits(t) && ParseDigits(t) == a.tempo
  {
    ParseNatToString(a.tempo);
  }

  /** `tipoSel === "all" ? undefined : tipoSel`, then
      `tipoParam ? { tipo: tipoParam } : {}` */
  function TypeParams(tipoSel: string): (params: map<string, string>)
    ensures "tipo" in params <==> tipoSel != AllTypes && tipoSel != ""
    ensures "tipo" in params ==> params["tipo"] == tipoSel
    ensures forall k :: k in params ==> k == "tipo"
  {
    if tipoSel == AllTypes || tipoSel == "" then map[] else map["tipo" := tipoSel]
  }

  /** `GET /atividades/parque/<pid>` with the type filter. */
  function ActivitiesRequest(pid: string, tipoSel: string): Request {
    Request(ActivitiesByParkPath + "/" + pid, TypeParams(tipoSel))
  }

  function ActivitiesRequests(ids: seq<string>, tipoSel: string): (rs: seq<Request>)
    ensures |rs| == |ids|
  {
    seq(|ids|, i requires 0 <= i < |ids| => ActivitiesRequest(ids[i], tipoSel))
  }

  /** The all-parks join never fails: a rejected park, whatever its status,
      contributes nothing and leaves the others in park order. */
  lemma RejectedParkDropped(rs: seq<Response<seq<Atividade>>>, k: nat)
    requires k < |rs| && rs[k].Err?
    ensures MapAtividades(Fulfilled(rs)) == MapAtividades(Fulfilled(rs[..k])) + MapAtividades(Fulfilled(rs[k + 1..]))
  {
    FailedRequestOmitted(rs, k);
    MapAtividadesAppend(Fulfilled(rs[..k]), Fulfilled(rs[k + 1..]));
  }

  /** Mapping distributes over concatenation. */
  lemma MapAtividadesAppend(a: seq<Atividade>, b: seq<Atividade>)
    ensures MapAtividades(a + b) == MapAtividades(a) + MapAtividades(b)
  {
    var l, r := MapAtividades(a + b), MapAtividades(a) + MapAtividades(b);
    assert |l| == |r|;
    forall i | 0 <= i < |l| ensures l[i] == r[i] {
      if i < |a| {
        assert (a + b)[i] == a[i];
      } else {
        assert (a + b)[i] == b[i - |a|];
      }
    }
  }

  /** `filtered`: a blank query lists everything; otherwise the items whose
      `title subtitle location`, lowercased, contain the trimmed, lowercased
      query. */
  function Filtered(activities: seq<ActivityItem>, query: string): (r: seq<ActivityItem>)
    ensures Trim(query) == "" ==> r == activities
    ensures Trim(query) != "" ==> forall i :: 0 <= i < |r| ==> Matches(r[i], Lower(Trim(query)))
  {
    var q := Lower(Trim(query));
    if q == "" then activities else Select(activities, MatchesFor(q))
  }

  predicate Matches(a: ActivityItem, q: string) {
    Contains(Lower(a.title + " " + a.subtitle + " " + a.location), q)
  }

  function MatchesFor(q: string): ActivityItem -> bool {
    (a: ActivityItem) => Matches(a, q)
  }

  /** With a non-blank query an item is listed exactly when it matches. */
  lemma FilteredMembership(activities: seq<ActivityItem>, query: string, a: ActivityItem)
    requires Trim(query) != ""
    ensures a in Filtered(activities, query) <==> a in activities && Matches(a, Lower(Trim(query)))
  {
    SelectMembership(activities, MatchesFor(Lower(Trim(query))), a);
  }

  /** The screen's state. */
  class ActivitiesScreen {
    const store: Store
    var parques: seq<Park>
    var selectedParqueId: string
    var selectedTipo: string
    var activities: seq<ActivityItem>
    var loading: bool
    var loadingParques: bool
    var error: Option<string>

    constructor (store: Store)
      ensures this.store == store
      ensures parques == [] && selectedParqueId == "" && selectedTipo == AllTypes && activities == []
      ensures loading && loadingParques && error == None
    {
      this.store := store;
      parques := [];
      selectedParqueId := "";
      selectedTipo := AllTypes;
      activities := [];
      loading := true;
      loadingParques := true;
      error := None;
    }

    /** `loadInitialFilter` */
    method LoadInitialFilter()
      modifies this`selectedParqueId
      ensures selectedParqueId == RestoredSelection(store.entries, old(selectedParqueId))
    {
      var stored := store.GetItem(ParkFilterKey);
      if stored.Some? {
        selectedParqueId := stored.value;
      }
    }

    /** `fetchParques` with the response of `GET /parques`. */
    method FetchParques(response: Response<seq<Park>>)
      modifies this`parques, this`loadingParques
      ensures parques == LoadedParks(response) && !loadingParques
    {
      parques := LoadedParks(response);
      loadingParques := false;
    }

    /** `fetchActivities(pid?, tipo?)`, with the backend as `net`; returns
        the requests it issued. One park: its activities, none on a 404, the
        error on any other failure. No park: one request per park id, the
        fulfilled ones joined in park order, failures dropped silently. */
    method FetchActivities(pid: Option<string>, tipo: Option<string>, net: Request -> Response<seq<Atividade>>)
      returns (issued: seq<Request>)
      modifies this`activities, this`loading, this`error
      ensures !loading
      ensures var parqueId := if pid.Some? then pid.value else selectedParqueId;
              var tipoSel := if tipo.Some? then tipo.value else selectedTipo;
              var res := net(ActivitiesRequest(parqueId, tipoSel));
              (parqueId != "" ==> issued == [ActivitiesRequest(parqueId, tipoSel)]) &&
              (parqueId != "" && res.Ok? ==> activities == MapAtividades(res.body) && error == None) &&
              (parqueId != "" && IsNotFound(res) ==> activities == [] && error == None) &&
              (parqueId != "" && res.Err? && !IsNotFound(res) ==> activities == [] && error == Some(LoadError)) &&
              (parqueId == "" ==>
                 issued == ActivitiesRequests(ParkIds(parques), tipoSel) &&
                 activities == MapAtividades(Fulfilled(Responses(issued, net))) && error == None)
    {
      error := None;
      loading := true;
      var parqueId := if pid.Some? then pid.value else selectedParqueId;
      var tipoSel := if tipo.Some? then tipo.value else selectedTipo;
      if parqueId != "" {
        var req := ActivitiesRequest(parqueId, tipoSel);
        issued := [req];
        var res := net(req);
        if res.Ok? {
          activities := MapAtividades(res.body);
        } else if res.status == Some(404) {
          activities := [];
        } else {
          activities := [];
          error := Some(LoadError);
        }
      } else {
        var ids := ParkIds(parques);
        if |ids| == 0 {
          issued := [];
          activities := [];
          assert Responses(issued, net) == [];
        } else {
          issued := ActivitiesRequests(ids, tipoSel);
          var agregadas := CollectFulfilled(Responses(issued, net));
          activities := MapAtividades(agregadas);
        }
      }
      loading := false;
    }

    /** `onSelectParque`: selects the park, persists it and fetches for it
        with the current type filter. */
    method OnSelectParque(id: string, net: Request -> Response<seq<Atividade>>) returns (issued: seq<Request>)
      modifies this`selectedParqueId, this`activities, this`loading, this`error, store
      ensures selectedParqueId == id
      ensures store.entries == old(store.entries)[ParkFilterKey := id]
      ensures id != "" ==> issued == [ActivitiesRequest(id, selectedTipo)]
      ensures id == "" ==> issued == ActivitiesRequests(ParkIds(parques), selectedTipo)
      ensures var res := net(ActivitiesRequest(id, selectedTipo));
              (id != "" && res.Ok? ==> activities == MapAtividades(res.body) && error == None) &&
              (id != "" && IsNotFound(res) ==> activities == [] && error == None) &&
              (id != "" && res.Err? && !IsNotFound(res) ==> activities == [] && error == Some(LoadError))
      ensures id == "" ==> activities == MapAtividades(Fulfilled(Responses(issued, net))) && error == None
      ensures !loading
    {
      selectedParqueId := id;
      store.SetItem(ParkFilterKey, id);
      loading := true;
      issued := FetchActivities(Some(id), Some(selectedTipo), net);
    }
  }
}
