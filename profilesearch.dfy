/** The delete search of src/screens/UserScreen/UserScreen.tsx:
    `fetchCandidates` and its two helpers, which list the parks, then ask
    each park in turn for its events (or activities) and keep those whose
    name contains the query. A park without an id is skipped and a park
    whose request fails is dropped; a failure to list the parks fails the
    whole search. */
module ProfileSearch {
  import opened Base
  import opened Text
  import opened Http
  import opened Catalog
  import opened Seqs

  const ParksPath := "/parques"
  const EventsPath := "/eventos"
  const ActivitiesByParkPath := "/atividades/parque"
  /** The shortest trimmed query that triggers a search. */
  const MinQuery := 2

  datatype DeleteTarget = EventoTarget | AtividadeTarget

  /** An event or activity as the search reads it: `_id`, `id`, `nome`, and
      the field shown first in the candidate's description (the location
      of an event, the type of an activity). */
  datatype Listed = Listed(mongoId: Option<string>, id: Option<string>, nome: Option<string>, detail: Option<string>)

  /** A search result: `{ _id, nome, tipo, extra }`. */
  datatype Candidate = Candidate(mongoId: Option<string>, nome: string, tipo: DeleteTarget, extra: string)

  /** `p?._id || p?.id` (note: `_id` first, and `||` rather than `??`). */
  function ProfileParkId(p: Park): (pid: Option<string>)
    ensures Truthy(p.mongoId) ==> pid == p.mongoId
    ensures !Truthy(p.mongoId) ==> pid == p.id
  {
    OrElse(p.mongoId, p.id)
  }

  /** The per-park request: `GET /eventos?parque_id=<pid>&limit=500&sort=asc`
      or `GET /atividades/parque/<pid>`. */
  function SearchRequest(kind: DeleteTarget, pid: string): Request {
    match kind
    case EventoTarget => Request(EventsPath, map["parque_id" := pid, "limit" := "500", "sort" := "asc"])
    case AtividadeTarget => Request(ActivitiesByParkPath + "/" + pid, map[])
  }

  /** `x?.nome || ""` */
  function ItemName(x: Listed): string {
    OrDefault(x.nome, "")
  }

  predicate NameMatches(x: Listed, qq: string) {
    Contains(Lower(ItemName(x)), qq)
  }

  function ToCandidate(kind: DeleteTarget, park: Park, x: Listed): (c: Candidate)
    ensures c.nome == ItemName(x) && c.tipo == kind
    ensures c.mongoId == OrElse(x.mongoId, x.id)
  {
    Candidate(OrElse(x.mongoId, x.id), ItemName(x), kind, OrEmpty(x.detail) + " • " + park.nome)
  }

  /** The candidates one park contributes: its matching items, in order. */
  function ParkCandidates(kind: DeleteTarget, park: Park, items: seq<Listed>, qq: string): (r: seq<Candidate>)
    ensures forall i :: 0 <= i < |r| ==> Contains(Lower(r[i].nome), qq) && r[i].tipo == kind
  {
    if items == [] then []
    else
      var last := items[|items| - 1];
      ParkCandidates(kind, park, items[..|items| - 1], qq) + (if NameMatches(last, qq) then [ToCandidate(kind, park, last)] else [])
  }

  /** A park contributes exactly its items whose name matches. */
  lemma {:induction false} ParkCandidatesMembership(kind: DeleteTarget, park: Park, items: seq<Listed>, qq: string, c: Candidate)
    ensures c in ParkCandidates(kind, park, items, qq) <==>
      exists x :: x in items && NameMatches(x, qq) && c == ToCandidate(kind, park, x)
  {
    if items != [] {
      var init := items[..|items| - 1];
      assert items == init + [items[|items| - 1]];
      ParkCandidatesMembership(kind, park, init, qq, c);
    }
  }

  /** The requests the search issues: one per park with an id, in order. */
  function SearchRequests(kind: DeleteTarget, parks: seq<Park>): (rs: seq<Request>)
    ensures |rs| <= |parks|
  {
    if parks == [] then []
    else
      var pid := ProfileParkId(parks[|parks| - 1]);
      SearchRequests(kind, parks[..|parks| - 1]) + (if Truthy(pid) then [SearchRequest(kind, pid.value)] else [])
  }

  /** The candidates of the whole search, with the backend as `net`. */
  function SearchResults(kind: DeleteTarget, parks: seq<Park>, qq: string, net: Request -> Response<seq<Listed>>): (r: seq<Candidate>)
    ensures forall i :: 0 <= i < |r| ==> Contains(Lower(r[i].nome), qq) && r[i].tipo == kind
  {
    if parks == [] then []
    else SearchResults(kind, parks[..|parks| - 1], qq, net) + ParkResults(kind, parks[|parks| - 1], qq, net)
  }

  /** What one park adds: its matching items when it has an id and its
      listing succeeds, nothing otherwise. */
  function ParkResults(kind: DeleteTarget, p: Park, qq: string, net: Request -> Response<seq<Listed>>): (r: seq<Candidate>)
    ensures forall i :: 0 <= i < |r| ==> Contains(Lower(r[i].nome), qq) && r[i].tipo == kind
  {
    var pid := ProfileParkId(p);
    var res := if Truthy(pid) then net(SearchRequest(kind, pid.value)) else Err(None, None);
    if res.Ok? then ParkCandidates(kind, p, res.body, qq) else []
  }

  /** Parks are searched in list order: the search of a concatenation is
      the searches of the parts, one after the other. */
  lemma SearchAppend(kind: DeleteTarget, a: seq<Park>, b: seq<Park>, qq: string, net: Request -> Response<seq<Listed>>)
    ensures SearchResults(kind, a + b, qq, net) == SearchResults(kind, a, qq, net) + SearchResults(kind, b, qq, net)
    ensures SearchRequests(kind, a + b) == SearchRequests(kind, a) + SearchRequests(kind, b)
  {
    SearchResultsAppend(kind, a, b, qq, net);
    SearchRequestsAppend(kind, a, b);
  }

  lemma {:induction false} SearchResultsAppend(kind: DeleteTarget, a: seq<Park>, b: seq<Park>, qq: string, net: Request -> Response<seq<Listed>>)
    ensures SearchResults(kind, a + b, qq, net) == SearchResults(kind, a, qq, net) + SearchResults(kind, b, qq, net)
    decreases |b|
  {
    if b == [] {
      assert a + b == a;
    } else {
      var init, last := b[..|b| - 1], b[|b| - 1];
      calc {
        SearchResults(kind, a + b, qq, net);
        { AppendLast(a, b); }
        SearchResults(kind, a + init, qq, net) + ParkResults(kind, last, qq, net);
        { SearchResultsAppend(kind, a, init, qq, net); }
        (SearchResults(kind, a, qq, net) + SearchResults(kind, init, qq, net)) + ParkResults(kind, last, qq, net);
        { AppendAssoc(SearchResults(kind, a, qq, net), SearchResults(kind, init, qq, net), ParkResults(kind, last, qq, net)); }
        SearchResults(kind, a, qq, net) + (SearchResults(kind, init, qq, net) + ParkResults(kind, last, qq, net));
        SearchResults(kind, a, qq, net) + SearchResults(kind, b, qq, net);
      }
    }
  }

  lemma {:induction false} SearchRequestsAppend(kind: DeleteTarget, a: seq<Park>, b: seq<Park>)
    ensures SearchRequests(kind, a + b) == SearchRequests(kind, a) + SearchRequests(kind, b)
    decreases |b|
  {
    if b == [] {
      assert a + b == a;
    } else {
      assert (a + b)[..|a + b| - 1] == a + b[..|b| - 1];
      SearchRequestsAppend(kind, a, b[..|b| - 1]);
    }
  }

  /** One park: skipped without a request when it has no id; otherwise one
      request, and its matching items when the request succeeds, nothing
      when it fails. */
  lemma OnePark(kind: DeleteTarget, p: Park, qq: string, net: Request -> Response<seq<Listed>>)
    ensures !Truthy(ProfileParkId(p)) ==> SearchRequests(kind, [p]) == [] && SearchResults(kind, [p], qq, net) == []
    ensures Truthy(ProfileParkId(p)) ==>
      var req := SearchRequest(kind, ProfileParkId(p).value);
      SearchRequests(kind, [p]) == [req] &&
      SearchResults(kind, [p], qq, net) == (if net(req).Ok? then ParkCandidates(kind, p, net(req).body, qq) else [])
  {
    assert [p][..0] == [];
  }

  /** The inner loop of the helpers: every item of one park's listing
      whose name matches, in order. */
  method CollectMatches(kind: DeleteTarget, p: Park, items: seq<Listed>, qq: string) returns (found: seq<Candidate>)
    ensures found == ParkCandidates(kind, p, items, qq)
  {
    found := [];
    for j := 0 to |items|
      invariant found == ParkCandidates(kind, p, items[..j], qq)
    {
      assert items[..j + 1][..j] == items[..j];
      if NameMatches(items[j], qq) {
        found := found + [ToCandidate(kind, p, items[j])];
      }
    }
    assert items[..|items|] == items;
  }

  /** The helpers' outer loop: for each park with an id, one request, then
      its matching items pushed, in order. `qq` is the trimmed, lower-cased
      query. Returns the candidates and the requests issued. */
  method SearchAllParks(kind: DeleteTarget, parks: seq<Park>, qq: string, net: Request -> Response<seq<Listed>>)
    returns (agregados: seq<Candidate>, issued: seq<Request>)
    ensures issued == SearchRequests(kind, parks)
    ensures agregados == SearchResults(kind, parks, qq, net)
  {
    agregados := [];
    issued := [];
    for i := 0 to |parks|
      invariant issued == SearchRequests(kind, parks[..i])
      invariant agregados == SearchResults(kind, parks[..i], qq, net)
    {
      var p := parks[i];
      assert parks[..i + 1][..i] == parks[..i];
      assert parks[..i + 1][i] == p;
      var pid := ProfileParkId(p);
      if Truthy(pid) {
        var req := SearchRequest(kind, pid.value);
        issued := issued + [req];
        var res := net(req);
        if res.Ok? {
          var found := CollectMatches(kind, p, res.body, qq);
          agregados := agregados + found;
        }
      }
    }
    assert parks[..|parks|] == parks;
  }

  /** `fetchCandidates`, with the outcome of `GET /parques` as
      `parksResponse` and the per-park backend as `net`. A trimmed query
      shorter than two characters answers `[]` without any request; a
      failed park listing fails the search. */
  method FetchCandidates(kind: DeleteTarget, q: string, parksResponse: Response<seq<Park>>, net: Request -> Response<seq<Listed>>)
    returns (outcome: Response<seq<Candidate>>, issued: seq<Request>)
    ensures |Trim(q)| < MinQuery ==> outcome == Ok([]) && issued == []
    ensures |Trim(q)| >= MinQuery && parksResponse.Err? ==>
      issued == [Request(ParksPath, map[])] && outcome == Err(parksResponse.status, parksResponse.detail)
    ensures |Trim(q)| >= MinQuery && parksResponse.Ok? ==>
      issued == [Request(ParksPath, map[])] + SearchRequests(kind, parksResponse.body) &&
      outcome == Ok(SearchResults(kind, parksResponse.body, Lower(Trim(q)), net))
  {
    if |Trim(q)| < MinQuery {
      return Ok([]), [];
    }
    issued := [Request(ParksPath, map[])];
    if parksResponse.Err? {
      return Err(parksResponse.status, parksResponse.detail), issued;
    }
    var agregados, more := SearchAllParks(kind, parksResponse.body, Lower(Trim(q)), net);
    outcome := Ok(agregados);
    issued := issued + more;
  }
}
