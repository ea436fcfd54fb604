/** The administrators' edit screen, src/screens/AdminEditScreen/AdminEditScreen.tsx:
    `oneLine`, the debounced search of the selected park's events or
    activities, loading one item into the form, the mode switch, the "can
    save" checks and the update payloads. The backend answers are
    parameters; the handlers return the requests they issue and the alerts
    they raise. */
module AdminEdit {
  import opened Base
  import opened Text
  import opened Http
  import opened KeyValue
  import opened Session
  import opened Roles
  import opened Catalog
  import opened Seqs
  import opened Debounce
  import opened Admin
  import ProfileSearch

  // ------------------------------------------------------------ oneLine

  /** `s.replace(/\r?\n/g, " ")`: every line break, CRLF or LF, becomes one
      space. */
  function JoinLines(s: string): (r: string)
    ensures '\n' !in r
    ensures '\n' !in s ==> r == s
  {
    if s == [] then []
    else if |s| >= 2 && s[0] == '\r' && s[1] == '\n' then [' '] + JoinLines(s[2..])
    else if s[0] == '\n' then [' '] + JoinLines(s[1..])
    else [s[0]] + JoinLines(s[1..])
  }

  /** No two whitespace characters in a row. */
  predicate NoDoubleSpace(s: string) {
    forall i :: 0 <= i < |s| - 1 ==> !(IsSpace(s[i]) && IsSpace(s[i + 1]))
  }

  /** `s.replace(/\s{2,}/g, " ")`: every run of two or more whitespace
      characters becomes one space; a lone whitespace character stays. */
  function Collapse(s: string): (r: string)
    ensures NoDoubleSpace(r)
    ensures r == [] <==> s == []
    ensures r != [] ==> (IsSpace(r[0]) <==> IsSpace(s[0]))
    ensures '\n' !in s ==> '\n' !in r
    ensures NoDoubleSpace(s) ==> r == s
    decreases |s|
  {
    if s == [] then []
    else if |s| >= 2 && IsSpace(s[0]) && IsSpace(s[1]) then
      var rest := TrimStart(s);
      var c := Collapse(rest);
      CollapseRunStep(s, rest, c);
      [' '] + c
    else
      var c := Collapse(s[1..]);
      CollapseKeepStep(s, c);
      [s[0]] + c
  }

  /** A run of whitespace becomes one space followed by the collapse `c`
      of what comes after the run. */
  lemma CollapseRunStep(s: string, rest: string, c: string)
    requires |s| >= 2 && IsSpace(s[0]) && IsSpace(s[1]) && rest == TrimStart(s)
    requires NoDoubleSpace(c) && (c == [] <==> rest == [])
    requires c != [] ==> (IsSpace(c[0]) <==> IsSpace(rest[0]))
    requires '\n' !in rest ==> '\n' !in c
    ensures NoDoubleSpace([' '] + c)
    ensures '\n' !in s ==> '\n' !in [' '] + c
    ensures !NoDoubleSpace(s)
  {
    TrimStartNoLineFeed(s);
    var r := [' '] + c;
    forall i | 0 <= i < |r| - 1 ensures !(IsSpace(r[i]) && IsSpace(r[i + 1])) {
      if i > 0 {
        assert r[i] == c[i - 1] && r[i + 1] == c[i];
      }
    }
  }

  /** A character outside a run is kept, followed by the collapse `c` of
      the rest. */
  lemma CollapseKeepStep(s: string, c: string)
    requires s != [] && !(|s| >= 2 && IsSpace(s[0]) && IsSpace(s[1]))
    requires NoDoubleSpace(c) && (c == [] <==> s[1..] == [])
    requires c != [] ==> (IsSpace(c[0]) <==> IsSpace(s[1]))
    requires '\n' !in s[1..] ==> '\n' !in c
    requires NoDoubleSpace(s[1..]) ==> c == s[1..]
    ensures NoDoubleSpace([s[0]] + c)
    ensures '\n' !in s ==> '\n' !in [s[0]] + c
    ensures NoDoubleSpace(s) ==> [s[0]] + c == s
  {
    var r := [s[0]] + c;
    forall i | 0 <= i < |r| - 1 ensures !(IsSpace(r[i]) && IsSpace(r[i + 1])) {
      if i > 0 {
        assert r[i] == c[i - 1] && r[i + 1] == c[i];
      }
    }
    if '\n' !in s {
      assert forall k :: 0 <= k < |s| - 1 ==> s[1..][k] == s[k + 1];
    }
    if NoDoubleSpace(s) {
      assert NoDoubleSpace(s[1..]) by {
        forall i | 0 <= i < |s[1..]| - 1 ensures !(IsSpace(s[1..][i]) && IsSpace(s[1..][i + 1])) {
          assert s[1..][i] == s[i + 1] && s[1..][i + 1] == s[i + 2];
        }
      }
      assert [s[0]] + s[1..] == s;
    }
  }

  lemma TrimStartNoLineFeed(s: string)
    ensures '\n' !in s ==> '\n' !in TrimStart(s)
  {
    var rest := TrimStart(s);
    if '\n' !in s {
      forall k | 0 <= k < |rest| ensures rest[k] != '\n' {
        assert rest[k] == s[|s| - |rest| + k];
      }
    }
  }

  /** The three cases of the line-break rewrite: CRLF and a lone LF each
      become one space, any other character is kept. */
  lemma JoinLinesSteps(c: char, t: string)
    ensures JoinLines("\r\n" + t) == " " + JoinLines(t)
    ensures JoinLines("\n" + t) == " " + JoinLines(t)
    ensures c != '\n' && !(c == '\r' && t != [] && t[0] == '\n') ==>
      JoinLines([c] + t) == [c] + JoinLines(t)
  {
    assert ("\r\n" + t)[2..] == t;
    assert ("\n" + t)[1..] == t;
    assert ([c] + t)[1..] == t;
  }

  /** Joining lines only rewrites line breaks into spaces. */
  lemma {:induction false} JoinLinesNonSpace(s: string)
    ensures NonSpace(JoinLines(s)) == NonSpace(s)
  {
    if s == [] {
    } else if |s| >= 2 && s[0] == '\r' && s[1] == '\n' {
      JoinLinesNonSpace(s[2..]);
      assert ([' '] + JoinLines(s[2..]))[1..] == JoinLines(s[2..]);
      assert s[1..][1..] == s[2..];
    } else {
      JoinLinesNonSpace(s[1..]);
      var c := [if s[0] == '\n' then ' ' else s[0]] + JoinLines(s[1..]);
      assert c[1..] == JoinLines(s[1..]);
    }
  }

  /** Collapsing only replaces whitespace runs by a space. */
  lemma {:induction false} CollapseNonSpace(s: string)
    ensures NonSpace(Collapse(s)) == NonSpace(s)
    decreases |s|
  {
    if s == [] {
    } else if |s| >= 2 && IsSpace(s[0]) && IsSpace(s[1]) {
      var rest := TrimStart(s);
      CollapseNonSpace(rest);
      NonSpaceTrimStart(s);
      assert ([' '] + Collapse(rest))[1..] == Collapse(rest);
    } else {
      CollapseNonSpace(s[1..]);
      assert ([s[0]] + Collapse(s[1..]))[1..] == Collapse(s[1..]);
    }
  }

  /** `oneLine` keeps every non-whitespace character, in order: it only
      rewrites whitespace. */
  lemma OneLineNonSpace(s: string)
    ensures NonSpace(OneLine(s)) == NonSpace(s)
  {
    JoinLinesNonSpace(s);
    CollapseNonSpace(JoinLines(s));
    NonSpaceTrim(Collapse(JoinLines(s)));
  }

  /** `oneLine`: line breaks joined, whitespace runs collapsed, trimmed. */
  function OneLine(s: string): string {
    Trim(Collapse(JoinLines(s)))
  }

  /** `oneLine` empties exactly the blank texts, so the checks on the
      trimmed fields also guarantee a non-empty payload field. */
  lemma OneLineBlank(s: string)
    ensures OneLine(s) == "" <==> Trim(s) == ""
  {
    OneLineNonSpace(s);
    NonSpaceEmptyIffBlank(s);
    NonSpaceEmptyIffBlank(OneLine(s));
    OneLineShape(s);
    if OneLine(s) != "" {
      TrimNoSurroundingSpace(OneLine(s));
    }
  }

  /** A slice of a string without doubled whitespace has none either. */
  lemma NoDoubleSpaceSlice(s: string, a: nat, b: nat)
    requires a <= b <= |s| && NoDoubleSpace(s)
    ensures NoDoubleSpace(s[a..b])
  {
    var t := s[a..b];
    forall i | 0 <= i < |t| - 1
      ensures !(IsSpace(t[i]) && IsSpace(t[i + 1]))
    {
      assert t[i] == s[a + i] && t[i + 1] == s[a + i + 1];
    }
  }

  /** The result of `oneLine` has no line break, no doubled whitespace and
      no whitespace at either end. */
  lemma OneLineShape(s: string)
    ensures '\n' !in OneLine(s)
    ensures NoDoubleSpace(OneLine(s))
    ensures var r := OneLine(s); r == [] || (!IsSpace(r[0]) && !IsSpace(r[|r| - 1]))
  {
    var c := Collapse(JoinLines(s));
    var r := Trim(c);
    TrimNoLineFeed(c);
    NoDoubleSpaceSlice(c, TrimOffset(c), TrimOffset(c) + |r|);
  }

  lemma TrimNoLineFeed(c: string)
    requires '\n' !in c
    ensures '\n' !in Trim(c)
  {
    var r, off := Trim(c), TrimOffset(c);
    forall k | 0 <= k < |r| ensures r[k] != '\n' {
      assert r[k] == c[off + k];
    }
  }

  /** `oneLine` is idempotent. */
  lemma OneLineIdempotent(s: string)
    ensures OneLine(OneLine(s)) == OneLine(s)
  {
    var r := OneLine(s);
    OneLineShape(s);
    TrimNoSurroundingSpace(r);
  }

  // ------------------------------------------------------------ search

  /** An event of the listing: `_id`, `id`, `nome` and the date. */
  datatype EventoItem = EventoItem(mongoId: Option<string>, id: Option<string>, nome: Option<string>, data: string)

  /** An activity of the listing. */
  datatype AtividadeItem = AtividadeItem(mongoId: Option<string>, id: Option<string>, nome: Option<string>, tipo: string, tempo: nat)

  /** A search result: `{ _id, nome, extra }`. */
  datatype Hit = Hit(id: Option<string>, nome: string, extra: string)

  const MinSearch := 2
  const SearchFailed := "Falha ao buscar."
  const NoName := "(sem nome)"

  /** The request of a search: `GET /eventos` with the park, a limit of
      500 and ascending order, or `GET /atividades/parque/<pid>`. */
  function SearchRequestFor(m: Mode, pid: string): Request {
    match m
    case EventoMode => Request(ProfileSearch.EventsPath, map["parque_id" := pid, "limit" := "500", "sort" := "asc"])
    case AtividadeMode => Request(ProfileSearch.ActivitiesByParkPath + "/" + pid, map[])
  }

  /** The edit screen asks exactly what the profile screen's delete search
      asks for the same park. */
  lemma SameRequestsAsProfileSearch(pid: string)
    ensures SearchRequestFor(EventoMode, pid) == ProfileSearch.SearchRequest(ProfileSearch.EventoTarget, pid)
    ensures SearchRequestFor(AtividadeMode, pid) == ProfileSearch.SearchRequest(ProfileSearch.AtividadeTarget, pid)
  {
  }

  /** Different parks give different requests. */
  lemma SearchRequestNamesPark(m: Mode, a: string, b: string)
    requires a != b
    ensures SearchRequestFor(m, a) != SearchRequestFor(m, b)
  {
    var prefix := ProfileSearch.ActivitiesByParkPath + "/";
    match m
    case EventoMode =>
      assert SearchRequestFor(m, a).params["parque_id"] == a;
    case AtividadeMode =>
      assert SearchRequestFor(m, a).path[|prefix|..] == a;
      assert SearchRequestFor(m, b).path[|prefix|..] == b;
  }

  predicate EventMatches(e: EventoItem, q: string) {
    Contains(Lower(OrDefault(e.nome, "")), q)
  }

  predicate ActivityMatches(a: AtividadeItem, q: string) {
    Contains(Lower(OrDefault(a.nome, "")), q)
  }

  /** An event's result line; `fmt` is the date formatting. */
  function EventHit(e: EventoItem, fmt: string -> string): (h: Hit)
    ensures h.id == OrElse(e.mongoId, e.id)
    ensures Truthy(e.nome) ==> h.nome == e.nome.value
    ensures !Truthy(e.nome) ==> h.nome == NoName
  {
    Hit(OrElse(e.mongoId, e.id), OrDefault(e.nome, NoName), fmt(e.data))
  }

  /** An activity's result line: `<tipo> • <tempo> min`. */
  function ActivityHit(a: AtividadeItem): (h: Hit)
    ensures h.id == OrElse(a.mongoId, a.id)
    ensures Truthy(a.nome) ==> h.nome == a.nome.value
    ensures !Truthy(a.nome) ==> h.nome == NoName
  {
    Hit(OrElse(a.mongoId, a.id), OrDefault(a.nome, NoName), a.tipo + " • " + NatToString(a.tempo) + " min")
  }

  /** What a search leaves behind: the request issued (if any), the
      results shown and the alert raised (if any). */
  datatype SearchResult = SearchResult(issued: Option<Request>, results: seq<Hit>, alert: Option<Alert>)

  /** `runSearch` for the trimmed, lower-cased query `q`, the mode `m` and
      the park `pid` it captured, with the two listings as `events` and
      `activities`. */
  function SearchOutcome(q: string, m: Mode, pid: string, events: Request -> Response<seq<EventoItem>>,
                         activities: Request -> Response<seq<AtividadeItem>>, fmt: string -> string): (o: SearchResult)
    ensures |q| < MinSearch || pid == "" ==> o == SearchResult(None, [], None)
    ensures |q| >= MinSearch && pid != "" ==> o.issued == Some(SearchRequestFor(m, pid))
  {
    if |q| < MinSearch || pid == "" then SearchResult(None, [], None)
    else
      var req := SearchRequestFor(m, pid);
      match m
      case EventoMode =>
        var r := events(req);
        if r.Ok? then SearchResult(Some(req), Map(Select(r.body, (e: EventoItem) => EventMatches(e, q)), (e: EventoItem) => EventHit(e, fmt)), None)
        else SearchResult(Some(req), [], Some(Alert("Erro", MessageOr(r.detail, SearchFailed))))
      case AtividadeMode =>
        var r := activities(req);
        if r.Ok? then SearchResult(Some(req), Map(Select(r.body, (a: AtividadeItem) => ActivityMatches(a, q)), ActivityHit), None)
        else SearchResult(Some(req), [], Some(Alert("Erro", MessageOr(r.detail, SearchFailed))))
  }

  /** The results of an event search are exactly the listed events whose
      lower-cased name contains the query; a failed listing shows nothing
      and raises an alert. */
  lemma EventSearchResults(q: string, pid: string, events: Request -> Response<seq<EventoItem>>,
                           activities: Request -> Response<seq<AtividadeItem>>, fmt: string -> string, h: Hit)
    requires |q| >= MinSearch && pid != ""
    ensures var r := events(SearchRequestFor(EventoMode, pid));
            var o := SearchOutcome(q, EventoMode, pid, events, activities, fmt);
            (r.Ok? ==> o.alert == None && (h in o.results <==> exists e :: e in r.body && EventMatches(e, q) && h == EventHit(e, fmt))) &&
            (r.Err? ==> o.results == [] && o.alert == Some(Alert("Erro", MessageOr(r.detail, SearchFailed))))
  {
    var r := events(SearchRequestFor(EventoMode, pid));
    if r.Ok? {
      SelectMapMembership(r.body, (e: EventoItem) => EventMatches(e, q), (e: EventoItem) => EventHit(e, fmt), h);
    }
  }

  /** The same for an activity search. */
  lemma ActivitySearchResults(q: string, pid: string, events: Request -> Response<seq<EventoItem>>,
                              activities: Request -> Response<seq<AtividadeItem>>, fmt: string -> string, h: Hit)
    requires |q| >= MinSearch && pid != ""
    ensures var r := activities(SearchRequestFor(AtividadeMode, pid));
            var o := SearchOutcome(q, AtividadeMode, pid, events, activities, fmt);
            (r.Ok? ==> o.alert == None && (h in o.results <==> exists a :: a in r.body && ActivityMatches(a, q) && h == ActivityHit(a))) &&
            (r.Err? ==> o.results == [] && o.alert == Some(Alert("Erro", MessageOr(r.detail, SearchFailed))))
  {
    var r := activities(SearchRequestFor(AtividadeMode, pid));
    if r.Ok? {
      SelectMapMembership(r.body, (a: AtividadeItem) => ActivityMatches(a, q), ActivityHit, h);
    }
  }

  /** `text.trim().toLowerCase()` */
  function SearchQuery(text: string): string {
    Lower(Trim(text))
  }

  /** A pending search: the text typed and the mode and park captured by
      the `runSearch` closure of that render. */
  datatype SearchJob = SearchJob(text: string, mode: Mode, pid: string)

  // ------------------------------------------------------------ loading and saving

  /** `GET /eventos/<id>` as the form reads it. */
  datatype EventoDetail = EventoDetail(parqueId: string, nome: Option<string>, descricao: Option<string>,
                                       localizacao: Option<string>, data: Option<int>)

  /** `GET /atividades/<id>` as the form reads it. */
  datatype AtividadeDetail = AtividadeDetail(parqueId: string, tipo: Option<string>, nome: Option<string>,
                                             tempo: Option<nat>, localizacao: Option<string>, imagem: Option<string>)

  function ItemPath(m: Mode, id: string): string {
    match m
    case EventoMode => "/eventos/" + id
    case AtividadeMode => "/atividades/" + id
  }

  /** `String(at.tempo ?? "")` */
  function MinutesText(tempo: Option<nat>): (s: string)
    ensures AllDigits(s)
  {
    if tempo.Some? then NatToString(tempo.value) else ""
  }

  /** Loaded minutes read back as the number stored, so a loaded activity
      passes the minutes checks exactly when its time is positive. */
  lemma LoadedMinutes(tempo: Option<nat>)
    ensures tempo.Some? ==> NumberOf(MinutesText(tempo)) == Some(tempo.value)
    ensures tempo.None? ==> |Trim(MinutesText(tempo))| == 0
  {
    if tempo.Some? {
      ParseNatToString(tempo.value);
    }
  }

  /** The body of `PUT /eventos/<id>`. */
  datatype EventoUpdate = EventoUpdate(nome: string, descricao: string, data: int, localizacao: string, parqueId: string)

  /** The body of `PUT /atividades/<id>`. */
  datatype AtividadeUpdate = AtividadeUpdate(tipo: string, nome: string, tempo: nat, localizacao: string, imagem: string, parqueId: string)

  // ------------------------------------------------------------ the screen

  class AdminEditScreen {
    const auth: AuthProvider
    const lookups: Debouncer<SearchJob>

    var mode: Mode
    var parques: seq<Park>
    var selectedParqueId: string
    var query: string
    var searching: bool
    var results: seq<Hit>
    var selectedId: string
    var evNome: string
    var evDescricao: string
    var evLocal: string
    var evDate: int
    var atTipo: string
    var atNome: string
    var atTempo: string
    var atLocal: string
    var atImagem: string
    var loading: bool
    var saving: bool

    /** The debouncer is consistent and the minutes field holds digits. */
    ghost predicate Valid()
      reads this`atTempo, lookups
    {
      lookups.Valid() && AllDigits(atTempo)
    }

    /** The event form's inputs. */
    function EventoFields(): (string, string, string, int)
      reads this`evNome, this`evDescricao, this`evLocal, this`evDate
    {
      (evNome, evDescricao, evLocal, evDate)
    }

    /** The activity form's inputs. */
    function AtividadeFields(): (string, string, string, string, string)
      reads this`atTipo, this`atNome, this`atTempo, this`atLocal, this`atImagem
    {
      (atTipo, atNome, atTempo, atLocal, atImagem)
    }

    constructor (auth: AuthProvider, now: int)
      ensures this.auth == auth && Valid() && fresh(lookups)
      ensures mode == EventoMode && parques == [] && selectedParqueId == "" && query == "" && results == []
      ensures selectedId == "" && evNome == "" && evDescricao == "" && evLocal == "" && evDate == now
      ensures atTipo == DefaultTipo && atNome == "" && atTempo == "" && atLocal == "" && atImagem == ""
    {
      this.auth := auth;
      lookups := new Debouncer<SearchJob>();
      mode := EventoMode;
      parques, selectedParqueId, query, results, selectedId := [], "", "", [], "";
      searching, loading, saving := false, false, false;
      evNome, evDescricao, evLocal, evDate := "", "", "", now;
      atTipo, atNome, atTempo, atLocal, atImagem := DefaultTipo, "", "", "", "";
    }

    /** `currentParque`: the park whose `id ?? _id` is the selection, else
        the first park, none for an empty list. */
    function Current(): Option<Park>
      reads this`parques, this`selectedParqueId
    {
      CurrentParque(parques, selectedParqueId)
    }

    /** The mount effect: a non-administrator is told off and sent back;
        an administrator's screen loads the parks, keeping a non-empty
        selection and otherwise selecting the first park. */
    method OnMount(parksResponse: Response<seq<Park>>) returns (alert: Option<Alert>, leaves: bool, issued: seq<Request>)
      modifies this`parques, this`selectedParqueId
      ensures !ScreenIsAdmin(RoleOf(auth.user)) ==>
        alert == Some(AccessDenied) && leaves && issued == [] &&
        parques == old(parques) && selectedParqueId == old(selectedParqueId)
      ensures ScreenIsAdmin(RoleOf(auth.user)) ==>
        alert == None && !leaves && issued == [Request(ProfileSearch.ParksPath, map[])] &&
        parques == LoadedParks(parksResponse) && selectedParqueId == SelectionAfterLoad(old(selectedParqueId), parksResponse)
    {
      if !ScreenIsAdmin(RoleOf(auth.user)) {
        return Some(AccessDenied), true, [];
      }
      alert, leaves, issued := None, false, [Request(ProfileSearch.ParksPath, map[])];
      parques := LoadedParks(parksResponse);
      selectedParqueId := SelectionAfterLoad(selectedParqueId, parksResponse);
    }

    /** `onChangeQuery`: the text is shown and a search of it is scheduled,
        replacing any pending one. */
    method OnChangeQuery(text: string) returns (h: nat)
      requires Valid()
      modifies this`query, lookups
      ensures Valid()
      ensures query == text
      ensures lookups.timers == map[h := SearchJob(text, mode, selectedParqueId)] && lookups.current == Some(h)
    {
      query := text;
      h := lookups.Schedule(SearchJob(text, mode, selectedParqueId));
    }

    /** Timer `h` fires: a cleared timer does nothing; a pending one runs
        the search it captured. */
    method OnSearchTimer(h: nat, events: Request -> Response<seq<EventoItem>>,
                         activities: Request -> Response<seq<AtividadeItem>>, fmt: string -> string)
      returns (issued: Option<Request>, alert: Option<Alert>)
      requires Valid()
      modifies this`results, this`searching, lookups`timers
      ensures Valid()
      ensures lookups.timers == old(lookups.timers) - {h}
      ensures h !in old(lookups.timers) ==> issued == None && alert == None && results == old(results) && searching == old(searching)
      ensures h in old(lookups.timers) ==>
        var job := old(lookups.timers)[h];
        SearchResult(issued, results, alert) == SearchOutcome(SearchQuery(job.text), job.mode, job.pid, events, activities, fmt) &&
        !searching
    {
      issued, alert := None, None;
      var job := lookups.Fire(h);
      if job.Some? {
        issued, alert := RunSearch(job.value.text, job.value.mode, job.value.pid, events, activities, fmt);
      }
    }

    /** `runSearch` with the text typed, the mode and the park its render
        captured: the results and alert of `SearchOutcome`, and the spinner
        off. */
    method RunSearch(text: string, m: Mode, pid: string, events: Request -> Response<seq<EventoItem>>,
                     activities: Request -> Response<seq<AtividadeItem>>, fmt: string -> string)
      returns (issued: Option<Request>, alert: Option<Alert>)
      modifies this`results, this`searching
      ensures SearchResult(issued, results, alert) == SearchOutcome(SearchQuery(text), m, pid, events, activities, fmt)
      ensures issued.Some? ==> issued == Some(SearchRequestFor(m, pid))
      ensures !searching
    {
      var o := SearchOutcome(SearchQuery(text), m, pid, events, activities, fmt);
      issued, results, alert := o.issued, o.results, o.alert;
      searching := false;
    }

    /** The park bar's `onSelect`, as written: the selection changes and,
        when the trimmed query has two characters or more, the search runs
        at once, but through the `runSearch` of the current render, which
        still holds the previous selection. */
    method OnSelectParque(id: string, events: Request -> Response<seq<EventoItem>>,
                          activities: Request -> Response<seq<AtividadeItem>>, fmt: string -> string)
      returns (issued: Option<Request>, alert: Option<Alert>)
      modifies this`selectedParqueId, this`results, this`searching
      ensures selectedParqueId == id
      ensures |Trim(old(query))| < MinSearch ==>
        issued == None && alert == None && results == old(results) && searching == old(searching)
      ensures |Trim(old(query))| >= MinSearch ==>
        SearchResult(issued, results, alert) == SearchOutcome(SearchQuery(old(query)), old(mode), old(selectedParqueId), events, activities, fmt)
    {
      issued, alert := None, None;
      var stale, q, m := selectedParqueId, query, mode;
      selectedParqueId := id;
      if |Trim(q)| >= MinSearch {
        issued, alert := RunSearch(q, m, stale, events, activities, fmt);
      }
    }

    /** The park bar's `onSelect` as evidently intended: the immediate
        search is of the park just selected. */
    method OnSelectParqueFresh(id: string, events: Request -> Response<seq<EventoItem>>,
                               activities: Request -> Response<seq<AtividadeItem>>, fmt: string -> string)
      returns (issued: Option<Request>, alert: Option<Alert>)
      modifies this`selectedParqueId, this`results, this`searching
      ensures selectedParqueId == id
      ensures |Trim(old(query))| < MinSearch ==>
        issued == None && alert == None && results == old(results) && searching == old(searching)
      ensures |Trim(old(query))| >= MinSearch ==>
        SearchResult(issued, results, alert) == SearchOutcome(SearchQuery(old(query)), old(mode), id, events, activities, fmt)
      ensures issued.Some? ==> issued == Some(SearchRequestFor(old(mode), id))
    {
      issued, alert := None, None;
      var q, m := query, mode;
      selectedParqueId := id;
      if |Trim(q)| >= MinSearch {
        issued, alert := RunSearch(q, m, id, events, activities, fmt);
      }
    }

    /** `loadSelected`: with the item's id and the answer of the request of
        the current mode, the form is filled from the item; a failure
        clears the selection. */
    method LoadSelected(id: string, eventResp: Response<EventoDetail>, activityResp: Response<AtividadeDetail>, now: int)
      returns (path: Option<string>, alert: Option<Alert>)
      requires Valid()
      modifies this`loading, this`selectedId, this`selectedParqueId, this`evNome, this`evDescricao, this`evLocal,
               this`evDate, this`atTipo, this`atNome, this`atTempo, this`atLocal, this`atImagem
      ensures Valid()
      ensures id == "" ==> path == None && alert == None && selectedId == old(selectedId) && loading == old(loading)
      ensures id != "" ==> path == Some(ItemPath(mode, id)) && !loading
      ensures id != "" && mode == EventoMode && eventResp.Ok? ==>
        var d := eventResp.body;
        alert == None && selectedId == id && selectedParqueId == d.parqueId &&
        evNome == OrDefault(d.nome, "") && evDescricao == OrDefault(d.descricao, "") &&
        evLocal == OrDefault(d.localizacao, "") && evDate == (if d.data.Some? then d.data.value else now)
      ensures id != "" && mode == AtividadeMode && activityResp.Ok? ==>
        var d := activityResp.body;
        alert == None && selectedId == id && selectedParqueId == d.parqueId &&
        atTipo == OrDefault(d.tipo, DefaultTipo) && atNome == OrDefault(d.nome, "") && atTempo == MinutesText(d.tempo) &&
        atLocal == OrDefault(d.localizacao, "") && atImagem == OrDefault(d.imagem, "")
      ensures id != "" && mode == EventoMode && eventResp.Err? ==>
        alert == Some(Alert("Erro", MessageOr(eventResp.detail, "Falha ao carregar item."))) && selectedId == ""
      ensures id != "" && mode == AtividadeMode && activityResp.Err? ==>
        alert == Some(Alert("Erro", MessageOr(activityResp.detail, "Falha ao carregar item."))) && selectedId == ""
      ensures id == "" || mode == AtividadeMode || eventResp.Err? ==> EventoFields() == old(EventoFields())
      ensures id == "" || mode == EventoMode || activityResp.Err? ==> AtividadeFields() == old(AtividadeFields())
      ensures id == "" || (mode == EventoMode && eventResp.Err?) || (mode == AtividadeMode && activityResp.Err?) ==>
        selectedParqueId == old(selectedParqueId)
    {
      path, alert := None, None;
      if id == "" {
        return;
      }
      path := Some(ItemPath(mode, id));
      if mode == EventoMode {
        alert := LoadEvento(id, eventResp, now);
      } else {
        alert := LoadAtividade(id, activityResp);
      }
    }

    /** The event half of `loadSelected`. */
    method LoadEvento(id: string, eventResp: Response<EventoDetail>, now: int) returns (alert: Option<Alert>)
      modifies this`loading, this`selectedId, this`selectedParqueId, this`evNome, this`evDescricao, this`evLocal, this`evDate
      ensures eventResp.Ok? ==>
        var d := eventResp.body;
        alert == None && selectedId == id && selectedParqueId == d.parqueId &&
        evNome == OrDefault(d.nome, "") && evDescricao == OrDefault(d.descricao, "") &&
        evLocal == OrDefault(d.localizacao, "") && evDate == (if d.data.Some? then d.data.value else now)
      ensures eventResp.Err? ==>
        alert == Some(Alert("Erro", MessageOr(eventResp.detail, "Falha ao carregar item."))) && selectedId == "" &&
        selectedParqueId == old(selectedParqueId) && EventoFields() == old(EventoFields())
      ensures !loading
    {
      loading := true;
      selectedId := id;
      alert := None;
      if eventResp.Ok? {
        var d := eventResp.body;
        selectedParqueId := d.parqueId;
        evNome, evDescricao, evLocal := OrDefault(d.nome, ""), OrDefault(d.descricao, ""), OrDefault(d.localizacao, "");
        evDate := if d.data.Some? then d.data.value else now;
      } else {
        alert := Some(Alert("Erro", MessageOr(eventResp.detail, "Falha ao carregar item.")));
        selectedId := "";
      }
      loading := false;
    }

    /** The activity half of `loadSelected`; the minutes are shown as
        digits. */
    method LoadAtividade(id: string, activityResp: Response<AtividadeDetail>) returns (alert: Option<Alert>)
      modifies this`loading, this`selectedId, this`selectedParqueId, this`atTipo, this`atNome, this`atTempo, this`atLocal, this`atImagem
      ensures AllDigits(old(atTempo)) ==> AllDigits(atTempo)
      ensures activityResp.Ok? ==>
        var d := activityResp.body;
        alert == None && selectedId == id && selectedParqueId == d.parqueId &&
        atTipo == OrDefault(d.tipo, DefaultTipo) && atNome == OrDefault(d.nome, "") && atTempo == MinutesText(d.tempo) &&
        atLocal == OrDefault(d.localizacao, "") && atImagem == OrDefault(d.imagem, "")
      ensures activityResp.Err? ==>
        alert == Some(Alert("Erro", MessageOr(activityResp.detail, "Falha ao carregar item."))) && selectedId == "" &&
        selectedParqueId == old(selectedParqueId) && AtividadeFields() == old(AtividadeFields())
      ensures !loading
    {
      loading := true;
      selectedId := id;
      alert := None;
      if activityResp.Ok? {
        var d := activityResp.body;
        selectedParqueId := d.parqueId;
        atTipo, atNome, atTempo := OrDefault(d.tipo, DefaultTipo), OrDefault(d.nome, ""), MinutesText(d.tempo);
        atLocal, atImagem := OrDefault(d.localizacao, ""), OrDefault(d.imagem, "");
      } else {
        alert := Some(Alert("Erro", MessageOr(activityResp.detail, "Falha ao carregar item.")));
        selectedId := "";
      }
      loading := false;
    }

    /** The segmented buttons and the effect on `mode`: choosing another
        mode clears the query, the results, the selection and the fields of
        the mode chosen; choosing the current mode changes nothing. */
    method SetMode(m: Mode, now: int)
      requires Valid()
      modifies this`mode, this`query, this`results, this`selectedId, this`evNome, this`evDescricao, this`evLocal,
               this`evDate, this`atTipo, this`atNome, this`atTempo, this`atLocal, this`atImagem
      ensures Valid() && mode == m
      ensures m == old(mode) ==> query == old(query) && results == old(results) && selectedId == old(selectedId)
      ensures m == old(mode) ==> EventoFields() == old(EventoFields()) && AtividadeFields() == old(AtividadeFields())
      ensures m != old(mode) ==> query == "" && results == [] && selectedId == ""
      ensures m != old(mode) && m == EventoMode ==>
        EventoFields() == ("", "", "", now) && AtividadeFields() == old(AtividadeFields())
      ensures m != old(mode) && m == AtividadeMode ==>
        AtividadeFields() == (DefaultTipo, "", "", "", "") && EventoFields() == old(EventoFields())
    {
      if m == mode {
        return;
      }
      mode := m;
      query, results, selectedId := "", [], "";
      if m == EventoMode {
        ClearEvento(now);
      } else {
        ClearAtividade();
      }
    }

    method ClearEvento(now: int)
      modifies this`evNome, this`evDescricao, this`evLocal, this`evDate
      ensures EventoFields() == ("", "", "", now)
    {
      evNome, evDescricao, evLocal, evDate := "", "", "", now;
    }

    method ClearAtividade()
      modifies this`atTipo, this`atNome, this`atTempo, this`atLocal, this`atImagem
      ensures AtividadeFields() == (DefaultTipo, "", "", "", "")
    {
      atTipo, atNome, atTempo, atLocal, atImagem := DefaultTipo, "", "", "", "";
    }

    /** The minutes input keeps only the digits typed. */
    method EditMinutes(t: string)
      requires Valid()
      modifies this`atTempo
      ensures Valid() && atTempo == KeepDigits(t)
    {
      atTempo := KeepDigits(t);
    }

    /** `canSaveEvento` */
    predicate CanSaveEvento()
      reads this`selectedId, this`selectedParqueId, this`evNome, this`evLocal
    {
      selectedId != "" && EventReady(selectedParqueId, evNome, evLocal)
    }

    /** `canSaveAtividade` */
    predicate CanSaveAtividade()
      reads this`selectedId, this`selectedParqueId, this`atNome, this`atTempo, this`atLocal
    {
      selectedId != "" && ActivityReady(selectedParqueId, atNome, atTempo, atLocal)
    }

    /** The update `saveEvento` sends. */
    function EventoPayload(): EventoUpdate
      reads this`evNome, this`evDescricao, this`evDate, this`evLocal, this`selectedParqueId
    {
      EventoUpdate(OneLine(evNome), Trim(evDescricao), evDate, OneLine(evLocal), selectedParqueId)
    }

    /** The update `saveAtividade` sends. */
    function AtividadePayload(): AtividadeUpdate
      reads this`selectedParqueId, this`atTipo, this`atNome, this`atTempo, this`atLocal, this`atImagem
    {
      AtividadeUpdate(atTipo, OneLine(atNome), Minutes(atTempo), OneLine(atLocal), OneLine(atImagem), selectedParqueId)
    }

    /** `saveEvento`: nothing unless the event can be saved; otherwise the
        update is sent with the stored token and the outcome reported. */
    method SaveEvento(response: Response<()>) returns (sent: Option<Call<EventoUpdate>>, alert: Option<Alert>)
      modifies this`saving
      ensures !old(CanSaveEvento()) ==> sent == None && alert == None
      ensures old(CanSaveEvento()) ==>
        sent == Some(Call(PUT, ItemPath(EventoMode, old(selectedId)), AuthHeaders(None, Lookup(old(auth.store.entries), TokenKey)), old(EventoPayload()))) &&
        !saving
      ensures old(CanSaveEvento()) && response.Ok? ==> alert == Some(Alert("Sucesso", "Evento atualizado com sucesso!"))
      ensures old(CanSaveEvento()) && response.Err? ==> alert == Some(Alert("Erro", MessageOr(response.detail, "Erro ao atualizar evento.")))
    {
      sent, alert := None, None;
      var ready := CheckSaveEvento();
      if !ready {
        return;
      }
      var call := Call(PUT, ItemPath(EventoMode, selectedId), AuthHeaders(None, Lookup(auth.store.entries, TokenKey)), EventoPayload());
      saving := true;
      sent := Some(call);
      alert := if response.Ok? then Some(Alert("Sucesso", "Evento atualizado com sucesso!"))
               else Some(Alert("Erro", MessageOr(response.detail, "Erro ao atualizar evento.")));
      saving := false;
    }

    /** `saveAtividade`, likewise. */
    method SaveAtividade(response: Response<()>) returns (sent: Option<Call<AtividadeUpdate>>, alert: Option<Alert>)
      modifies this`saving
      ensures !old(CanSaveAtividade()) ==> sent == None && alert == None
      ensures old(CanSaveAtividade()) ==>
        sent == Some(Call(PUT, ItemPath(AtividadeMode, old(selectedId)), AuthHeaders(None, Lookup(old(auth.store.entries), TokenKey)), old(AtividadePayload()))) &&
        !saving
      ensures old(CanSaveAtividade()) && response.Ok? ==> alert == Some(Alert("Sucesso", "Atividade atualizada com sucesso!"))
      ensures old(CanSaveAtividade()) && response.Err? ==> alert == Some(Alert("Erro", MessageOr(response.detail, "Erro ao atualizar atividade.")))
    {
      sent, alert := None, None;
      var ready := CheckSaveAtividade();
      if !ready {
        return;
      }
      var call := Call(PUT, ItemPath(AtividadeMode, selectedId), AuthHeaders(None, Lookup(auth.store.entries, TokenKey)), AtividadePayload());
      saving := true;
      sent := Some(call);
      alert := if response.Ok? then Some(Alert("Sucesso", "Atividade atualizada com sucesso!"))
               else Some(Alert("Erro", MessageOr(response.detail, "Erro ao atualizar atividade.")));
      saving := false;
    }

    /** Whether the selected event may be saved, taken once. */
    method CheckSaveEvento() returns (ready: bool)
      ensures ready == CanSaveEvento()
    {
      ready := CanSaveEvento();
    }

    /** Whether the selected activity may be saved, taken once. */
    method CheckSaveAtividade() returns (ready: bool)
      ensures ready == CanSaveAtividade()
    {
      ready := CanSaveAtividade();
    }
  }

  /** A saved activity has a positive duration and single-line, trimmed
      texts. */
  lemma SavedActivityIsClean(s: AdminEditScreen)
    requires s.CanSaveAtividade()
    ensures s.AtividadePayload().tempo >= 1 && s.AtividadePayload().parqueId != ""
    ensures s.AtividadePayload().nome != [] && s.AtividadePayload().localizacao != []
    ensures '\n' !in s.AtividadePayload().nome && NoDoubleSpace(s.AtividadePayload().nome)
    ensures OneLine(s.AtividadePayload().nome) == s.AtividadePayload().nome
  {
    OneLineShape(s.atNome);
    OneLineIdempotent(s.atNome);
    OneLineBlank(s.atNome);
    OneLineBlank(s.atLocal);
  }

  /** A saved event names the selected park, and its name and location are
      non-empty single lines holding the typed text's non-whitespace
      characters, in order. */
  lemma SavedEventoIsClean(s: AdminEditScreen)
    requires s.CanSaveEvento()
    ensures var p := s.EventoPayload();
            p.parqueId != "" && p.nome != [] && p.localizacao != [] &&
            '\n' !in p.nome && '\n' !in p.localizacao &&
            NonSpace(p.nome) == NonSpace(s.evNome) && NonSpace(p.localizacao) == NonSpace(s.evLocal)
  {
    OneLineBlank(s.evNome);
    OneLineBlank(s.evLocal);
    OneLineShape(s.evNome);
    OneLineShape(s.evLocal);
    OneLineNonSpace(s.evNome);
    OneLineNonSpace(s.evLocal);
  }
}
