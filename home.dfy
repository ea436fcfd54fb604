/** The events list of src/screens/HomeScreen/HomeScreen.tsx: mapping the
    backend's events to list items, fetching them for one park or for every
    park, the persisted park filter, and the date/query filter followed by a
    sort on the date. Dates are integers: the parsing of the ISO text is a
    parameter (`Clock.dateValue`), and so are the current time and the
    same-calendar-day test. */
module Home {
  import opened Base
  import opened Text
  import opened Http
  import opened KeyValue
  import opened Catalog
  import opened Seqs

  const EventsByParkPath := "/eventos/parque"
  const LoadError := "Erro ao carregar eventos"
  const DayMs := 86400000
  const WeekMs := 7 * DayMs

  /** `EventoDTO`; `mongoId` is `_id`. */
  datatype Evento = Evento(
    id: Option<string>,
    mongoId: Option<string>,
    nome: string,
    descricao: Option<string>,
    data: string,
    localizacao: string,
    parqueId: string)

  /** `EventItem` */
  datatype EventItem = EventItem(
    id: string,
    title: string,
    date: string,
    location: string,
    tags: seq<string>,
    description: Option<string>)

  /** One element of `mapEventos`: the id falls back from `id` to `_id` to
      `nome + "-" + data`; the item has no tags. */
  function MapEvento(e: Evento): (r: EventItem)
    ensures e.id.Some? ==> r.id == e.id.value
    ensures e.id.None? && e.mongoId.Some? ==> r.id == e.mongoId.value
    ensures e.id.None? && e.mongoId.None? ==> r.id == e.nome + "-" + e.data
    ensures r.title == e.nome && r.date == e.data && r.location == e.localizacao
    ensures r.description == e.descricao && r.tags == []
  {
    var id := Coalesce(e.id, e.mongoId);
    EventItem(if id.Some? then id.value else e.nome + "-" + e.data, e.nome, e.data, e.localizacao, [], e.descricao)
  }

  /** `mapEventos` */
  function MapEventos(lista: seq<Evento>): (r: seq<EventItem>)
    ensures |r| == |lista|
  {
    seq(|lista|, i requires 0 <= i < |lista| => MapEvento(lista[i]))
  }

  /** Mapping keeps order: it distributes over concatenation, so the
      all-parks list is each park's mapped events in park order. */
  lemma MapEventosAppend(a: seq<Evento>, b: seq<Evento>)
    ensures MapEventos(a + b) == MapEventos(a) + MapEventos(b)
  {
  }

  /** The all-parks fan-out: a fulfilled park contributes its mapped events,
      in park order, and a rejected park nothing. */
  lemma AggregateByPark(a: seq<Response<seq<Evento>>>, b: seq<Response<seq<Evento>>>)
    ensures MapEventos(Fulfilled(a + b)) == MapEventos(Fulfilled(a)) + MapEventos(Fulfilled(b))
  {
    FulfilledAppend(a, b);
    MapEventosAppend(Fulfilled(a), Fulfilled(b));
  }

  /** `GET /eventos/parque/<pid>?limit=0` */
  function EventsRequest(pid: string): Request {
    Request(EventsByParkPath + "/" + pid, map["limit" := "0"])
  }

  function EventsRequests(ids: seq<string>): (rs: seq<Request>)
    ensures |rs| == |ids|
  {
    seq(|ids|, i requires 0 <= i < |ids| => EventsRequest(ids[i]))
  }

  // ------------------------------------------------------------ filtering

  datatype DateFilter = Today | Week | All

  /** `dayjs()`, the parsing of an event's date, and `isSame(now, "day")`. */
  datatype Clock = Clock(now: int, dateValue: string -> int, sameDay: (int, int) -> bool)

  /** `${title} ${location} ${tags.join(" ")} ${description ?? ""}` */
  function SearchText(e: EventItem): string {
    e.title + " " + e.location + " " + Join(e.tags) + " " + OrEmpty(e.description)
  }

  /** `tags.join(" ")` */
  function Join(tags: seq<string>): string
    decreases |tags|
  {
    if tags == [] then "" else if |tags| == 1 then tags[0] else tags[0] + " " + Join(tags[1..])
  }

  /** The filter callback: the date filter, then the query filter, which
      applies only when the trimmed query is non-empty and then matches the
      lowercased but untrimmed query. */
  predicate Keep(e: EventItem, filter: DateFilter, query: string, clock: Clock) {
    var d := clock.dateValue(e.date);
    (filter == Today ==> clock.sameDay(d, clock.now)) &&
    (filter == Week ==> clock.now < d < clock.now + WeekMs) &&
    (Trim(query) != "" ==> Contains(Lower(SearchText(e)), Lower(query)))
  }

  function KeepFor(filter: DateFilter, query: string, clock: Clock): EventItem -> bool {
    (e: EventItem) => Keep(e, filter, query, clock)
  }

  function DateKey(clock: Clock): EventItem -> int {
    (e: EventItem) => clock.dateValue(e.date)
  }

  /** `filtered`: the kept events, sorted by date. */
  function Filtered(events: seq<EventItem>, filter: DateFilter, query: string, clock: Clock): (r: seq<EventItem>)
    ensures SortedBy(r, DateKey(clock))
    ensures multiset(r) == multiset(Select(events, KeepFor(filter, query, clock)))
  {
    SortBy(Select(events, KeepFor(filter, query, clock)), DateKey(clock))
  }

  /** An event is listed exactly when it passes the date and query
      filters. */
  lemma FilteredMembership(events: seq<EventItem>, filter: DateFilter, query: string, clock: Clock, e: EventItem)
    ensures e in Filtered(events, filter, query, clock) <==> e in events && Keep(e, filter, query, clock)
  {
    SortByMembership(Select(events, KeepFor(filter, query, clock)), DateKey(clock), e);
    SelectMembership(events, KeepFor(filter, query, clock), e);
  }

  /** With the "all" chip and a blank query every event is listed, once
      each, in date order. */
  lemma ShowAllIsPermutation(events: seq<EventItem>, query: string, clock: Clock)
    requires Trim(query) == ""
    ensures multiset(Filtered(events, All, query, clock)) == multiset(events)
  {
    SelectAll(events, KeepFor(All, query, clock));
  }

  /** The week chip keeps only events strictly inside the next seven days. */
  lemma WeekWindow(events: seq<EventItem>, query: string, clock: Clock, e: EventItem)
    requires e in Filtered(events, Week, query, clock)
    ensures clock.now < clock.dateValue(e.date) < clock.now + 7 * 86400000
  {
    FilteredMembership(events, Week, query, clock, e);
  }

  /** The screen's state. */
  class HomeScreen {
    const store: Store
    var parques: seq<Park>
    var selectedParqueId: string
    var events: seq<EventItem>
    var loading: bool
    var loadingParques: bool
    var error: Option<string>

    constructor (store: Store)
      ensures this.store == store
      ensures parques == [] && selectedParqueId == "" && events == []
      ensures loading && loadingParques && error == None
    {
      this.store := store;
      parques := [];
      selectedParqueId := "";
      events := [];
      loading := true;
      loadingParques := true;
      error := None;
    }

    /** `loadInitialFilter` */
    method LoadInitialFilter()
      modifies this`selectedParqueId
      ensures selectedParqueId == RestoredSelection(store.entries, old(selectedParqueId))
    {
      var stored := store.GetItem(ParkFilterKey);
      if stored.Some? {
        selectedParqueId := stored.value;
      }
    }

    /** `fetchParques` with the response of `GET /parques`. */
    method FetchParques(response: Response<seq<Park>>)
      modifies this`parques, this`loadingParques
      ensures parques == LoadedParks(response) && !loadingParques
    {
      parques := LoadedParks(response);
      loadingParques := false;
    }

    /** `onSelectParque`: selects the park and persists it. The fetch that
        follows is `FetchEventos` (run by the effect on the new selection). */
    method OnSelectParque(id: string)
      modifies this`selectedParqueId, this`loading, store
      ensures selectedParqueId == id && loading
      ensures store.entries == old(store.entries)[ParkFilterKey := id]
    {
      selectedParqueId := id;
      store.SetItem(ParkFilterKey, id);
      loading := true;
    }

    /** `fetchEventos`, with the backend as `net`; returns the requests it
        issued. One park: its events, or the error on any failure. No park
        selected: one request per park id, the fulfilled ones joined in
        park order, failures dropped. */
    method FetchEventos(net: Request -> Response<seq<Evento>>) returns (issued: seq<Request>)
      modifies this`events, this`loading, this`error
      ensures !loading
      ensures selectedParqueId != "" ==> issued == [EventsRequest(selectedParqueId)]
      ensures selectedParqueId != "" && net(EventsRequest(selectedParqueId)).Ok? ==>
        events == MapEventos(net(EventsRequest(selectedParqueId)).body) && error == None
      ensures selectedParqueId != "" && net(EventsRequest(selectedParqueId)).Err? ==>
        events == [] && error == Some(LoadError)
      ensures selectedParqueId == "" ==>
        issued == EventsRequests(ParkIds(parques)) &&
        events == MapEventos(Fulfilled(Responses(issued, net))) && error == None
    {
      error := None;
      loading := true;
      if selectedParqueId != "" {
        var req := EventsRequest(selectedParqueId);
        issued := [req];
        var res := net(req);
        if res.Ok? {
          events := MapEventos(res.body);
        } else {
          events := [];
          error := Some(LoadError);
        }
      } else {
        var ids := ParkIds(parques);
        if |ids| == 0 {
          issued := [];
          events := [];
          assert Responses(issued, net) == [];
        } else {
          issued := EventsRequests(ids);
          var agregados := CollectFulfilled(Responses(issued, net));
          events := MapEventos(agregados);
        }
      }
      loading := false;
    }
  }

  /** No park ids: nothing is requested and the list is empty. */
  lemma NoParksNoEvents(parques: seq<Park>, net: Request -> Response<seq<Evento>>)
    requires ParkIds(parques) == []
    ensures EventsRequests(ParkIds(parques)) == []
    ensures MapEventos(Fulfilled(Responses(EventsRequests(ParkIds(parques)), net))) == []
  {
    assert Responses(EventsRequests(ParkIds(parques)), net) == [];
  }
}
